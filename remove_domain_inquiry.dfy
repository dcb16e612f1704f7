/**
 * Removing the redundant domain inquiry flag: `controls.forms.domainInquiry` is deleted wherever it
 * is defined, and only those files are written. Errors are logged and the run goes on.
 */
module RemoveDomainInquiry {
  import opened Wrappers
  import opened Json
  import opened ConfigLoader
  import opened ConfigScripts

  /** `config.controls?.forms?.domainInquiry !== undefined`; a JSON `null` is defined. */
  predicate HasInquiry(config: Json) {
    ValueAt(Some(config), ["controls", "forms", "domainInquiry"]).Some?
  }

  /** `delete config.controls.forms.domainInquiry` on object forms. */
  function WithoutInquiry(config: Json): (r: Json)
    ensures config.JObj? <==> r.JObj?
  {
    var forms := ValueAt(Some(config), ["controls", "forms"]);
    if forms.Some? && forms.value.JObj? then
      var controls := Prop(config, "controls").value;
      JObj(Put(config.fields, "controls", JObj(Put(controls.fields, "forms", Delete(forms.value, "domainInquiry")))))
    else config
  }

  /** What `RemoveInquiryFile` yields for one file: the outcome and, when the file is written, the new configuration. */
  ghost predicate Describes(f: ConfigFile, o: FileOutcome) {
    && (!o.Skipped?)
    && (o.Failed? <==> f.parsed.None? || f.parsed.value == JNull)
    && (o.Written? <==> f.parsed.Some? && f.parsed.value != JNull && HasInquiry(f.parsed.value))
    && (o.Written? ==> o.config == WithoutInquiry(f.parsed.value))
  }

  /** One file. A file that cannot be parsed and a `null` configuration are errors, which only
   *  get logged; a configuration with the flag defined is written without it; any other is left
   *  as it was. No file is skipped. */
  method RemoveInquiryFile(f: ConfigFile) returns (o: FileOutcome)
    ensures Describes(f, o)
  {
    if f.parsed.None? {
      return Failed("SyntaxError");
    }
    var config := f.parsed.value;
    if config == JNull {
      return Failed("TypeError");
    }
    var controls := Prop(config, "controls");
    var forms := OptProp(controls, "forms");
    if OptProp(forms, "domainInquiry").Some? {
      config := JObj(Put(config.fields, "controls", JObj(Put(controls.value.fields, "forms", Delete(forms.value, "domainInquiry")))));
      return Written(config);
    }
    return Untouched;
  }

  /** After the deletion the flag is gone, every other member of the forms, of `controls` and
   *  of the configuration keeps its value, and nothing else is deleted. */
  lemma WithoutInquiryFacts(config: Json)
    requires config.JObj? && HasInquiry(config)
    ensures var c := WithoutInquiry(config);
      && ValueAt(Some(c), ["controls", "forms", "domainInquiry"]).None?
      && (forall k :: k != "domainInquiry" ==>
            ValueAt(Some(c), ["controls", "forms", k]) == ValueAt(Some(config), ["controls", "forms", k]))
      && (forall k :: k != "forms" ==> ValueAt(Some(c), ["controls", k]) == ValueAt(Some(config), ["controls", k]))
      && forall k :: k != "controls" ==> Prop(c, k) == Prop(config, k)
  {
    var forms := ValueAt(Some(config), ["controls", "forms"]);
    var controls := Prop(config, "controls").value;
    var newForms := Delete(forms.value, "domainInquiry");
    var newControls := JObj(Put(controls.fields, "forms", newForms));
    var c := WithoutInquiry(config);
    PropPut(controls, "forms", newForms);
    PropPut(config, "controls", newControls);
    forall k ensures ValueAt(Some(c), ["controls", "forms", k]) == if k == "domainInquiry" then None else ValueAt(Some(config), ["controls", "forms", k]) {
      assert ["controls", "forms"] + [k] == ["controls", "forms", k];
      ValueAtAppend(Some(c), ["controls", "forms"], [k]);
      ValueAtAppend(Some(config), ["controls", "forms"], [k]);
      LookupRemove(forms.value.fields, "domainInquiry", k);
    }
  }

  /** A second run finds no flag to delete and writes nothing. */
  lemma SecondRunUntouched(config: Json)
    requires config.JObj? && HasInquiry(config)
    ensures !HasInquiry(WithoutInquiry(config))
  {
    WithoutInquiryFacts(config);
  }

  /** Without the flag the configuration is left exactly as it was. */
  lemma NoInquiryNoChange(config: Json)
    requires config.JObj? && !HasInquiry(config)
    ensures ValueAt(Some(config), ["controls", "forms"]).Some? && ValueAt(Some(config), ["controls", "forms"]).value.JObj? ==>
      Delete(ValueAt(Some(config), ["controls", "forms"]).value, "domainInquiry") == ValueAt(Some(config), ["controls", "forms"]).value
  {
    var forms := ValueAt(Some(config), ["controls", "forms"]);
    if forms.Some? && forms.value.JObj? {
      assert ["controls", "forms"] + ["domainInquiry"] == ["controls", "forms", "domainInquiry"];
      ValueAtAppend(Some(config), ["controls", "forms"], ["domainInquiry"]);
      RemoveAbsent(forms.value.fields, "domainInquiry");
    }
  }
}
