/**
 * Putting every domain up for sale: an object `domain` gets `forSale` true, and existing
 * `controls.forms` get `domainInquiry` true. Every configuration that is read is written back,
 * changed or not.
 */
module EnableDomainSale {
  import opened Wrappers
  import opened Json
  import opened ConfigLoader
  import opened ConfigScripts

  /** The protected files. */
  const SkipFiles: seq<string> := ["brewhaus.com.au.json", "seosem.com.au.json"]

  /** `config.domain && typeof config.domain === 'object'`: an object, or an array (whose new
   *  property `JSON.stringify` does not write). */
  predicate SaleTarget(config: Json) {
    var domain := Prop(config, "domain");
    TruthyOpt(domain) && (domain.value.JObj? || domain.value.JArr?)
  }

  /** `config.controls && config.controls.forms` */
  predicate InquiryTarget(config: Json) {
    var controls := Prop(config, "controls");
    TruthyOpt(controls) && TruthyOpt(Prop(controls.value, "forms"))
  }

  /** `domain.forSale = true` on an object domain; any other domain is left as it is. */
  function ForSale(config: Json): (r: Json)
    ensures config.JObj? <==> r.JObj?
  {
    var domain := Prop(config, "domain");
    if domain.Some? && domain.value.JObj?
    then JObj(Put(config.fields, "domain", JObj(Put(domain.value.fields, "forSale", JBool(true)))))
    else config
  }

  /** `forms.domainInquiry = true` on object forms; nothing else is touched. */
  function InquiryOn(config: Json): (r: Json)
    ensures config.JObj? <==> r.JObj?
  {
    var forms := ValueAt(Some(config), ["controls", "forms"]);
    if forms.Some? && forms.value.JObj? then
      var controls := Prop(config, "controls").value;
      JObj(Put(config.fields, "controls",
        JObj(Put(controls.fields, "forms", JObj(Put(forms.value.fields, "domainInquiry", JBool(true)))))))
    else config
  }

  /** The configuration as written. */
  function SaleEnabled(config: Json): Json {
    InquiryOn(ForSale(config))
  }

  /** What `EnableSaleFile` yields for one file: the outcome and, when the file is written, the new configuration. */
  ghost predicate Describes(f: ConfigFile, o: FileOutcome) {
    && (f.fileName in SkipFiles ==> o == Skipped)
    && (f.fileName !in SkipFiles ==>
        (o.Written? <==> f.parsed.Some? && f.parsed.value != JNull) && (!o.Written? ==> o.Failed?))
    && (o.Written? ==> o.config == SaleEnabled(f.parsed.value))
  }

  /** One file. A protected file is skipped before it is read; a file that cannot be parsed and a
   *  `null` configuration are errors; every other configuration is written. */
  method EnableSaleFile(f: ConfigFile) returns (o: FileOutcome)
    ensures Describes(f, o)
  {
    if f.fileName in SkipFiles {
      return Skipped;
    }
    if f.parsed.None? {
      return Failed("SyntaxError");
    }
    var config := f.parsed.value;
    if config == JNull {
      return Failed("TypeError");
    }
    config := SetForSale(config);
    config := SetInquiry(config);
    return Written(config);
  }

  /** `if (config.domain && typeof config.domain === 'object') config.domain.forSale = true` */
  method SetForSale(config: Json) returns (c: Json)
    ensures c == ForSale(config)
  {
    c := config;
    if SaleTarget(config) {
      var domain := Assign(Prop(config, "domain"), "forSale", JBool(true), false).value;
      if !domain.JObj? {
        PutSame(config.fields, "domain", domain);
      }
      c := JObj(Put(config.fields, "domain", domain));
    }
  }

  /** `if (config.controls && config.controls.forms) config.controls.forms.domainInquiry = true` */
  method SetInquiry(config: Json) returns (c: Json)
    ensures c == InquiryOn(config)
  {
    c := config;
    if InquiryTarget(config) {
      var controls := Prop(config, "controls").value;
      var forms := Assign(Prop(controls, "forms"), "domainInquiry", JBool(true), false).value;
      if forms.JObj? {
        c := JObj(Put(config.fields, "controls", JObj(Put(controls.fields, "forms", forms))));
      }
    }
  }

  /** The domain step sets `forSale` of an object domain, keeps its other members, and changes
   *  no other key; any other domain is kept. */
  lemma ForSaleFacts(config: Json)
    requires config.JObj?
    ensures var c := ForSale(config);
      var domain := Prop(config, "domain");
      && (domain.Some? && domain.value.JObj? ==>
            && Prop(c, "domain").Some? && Prop(c, "domain").value.JObj?
            && Prop(Prop(c, "domain").value, "forSale") == Some(JBool(true))
            && forall k :: k != "forSale" ==> Prop(Prop(c, "domain").value, k) == Prop(domain.value, k))
      && (!(domain.Some? && domain.value.JObj?) ==> c == config)
      && forall k :: k != "domain" ==> Prop(c, k) == Prop(config, k)
  {
    var domain := Prop(config, "domain");
    if domain.Some? && domain.value.JObj? {
      PropPut(domain.value, "forSale", JBool(true));
      PropPut(config, "domain", JObj(Put(domain.value.fields, "forSale", JBool(true))));
    }
  }

  /** The forms step sets `domainInquiry` of object forms, keeps their other members and the
   *  other sections of `controls`, and changes no other key; it creates nothing. */
  lemma InquiryOnFacts(config: Json)
    requires config.JObj?
    ensures var c := InquiryOn(config);
      var forms := ValueAt(Some(config), ["controls", "forms"]);
      && (forms.Some? && forms.value.JObj? ==>
            && ValueAt(Some(c), ["controls", "forms", "domainInquiry"]) == Some(JBool(true))
            && (forall k :: k != "domainInquiry" ==>
                  ValueAt(Some(c), ["controls", "forms", k]) == ValueAt(Some(config), ["controls", "forms", k]))
            && forall k :: k != "forms" ==> ValueAt(Some(c), ["controls", k]) == ValueAt(Some(config), ["controls", k]))
      && (!(forms.Some? && forms.value.JObj?) ==> c == config)
      && forall k :: k != "controls" ==> Prop(c, k) == Prop(config, k)
  {
    var forms := ValueAt(Some(config), ["controls", "forms"]);
    if forms.Some? && forms.value.JObj? {
      var controls := Prop(config, "controls").value;
      var newForms := JObj(Put(forms.value.fields, "domainInquiry", JBool(true)));
      var newControls := JObj(Put(controls.fields, "forms", newForms));
      PropPut(forms.value, "domainInquiry", JBool(true));
      PropPut(controls, "forms", newForms);
      PropPut(config, "controls", newControls);
      var c := InquiryOn(config);
      forall k | k != "domainInquiry"
        ensures ValueAt(Some(c), ["controls", "forms", k]) == ValueAt(Some(config), ["controls", "forms", k])
      {
        assert ["controls", "forms"] + [k] == ["controls", "forms", k];
        ValueAtAppend(Some(c), ["controls", "forms"], [k]);
        ValueAtAppend(Some(config), ["controls", "forms"], [k]);
      }
    }
  }

  /** A domain already for sale, or one that is not an object, is left alone. */
  lemma ForSaleFixed(config: Json)
    requires var domain := Prop(config, "domain");
      domain.Some? && domain.value.JObj? ==> Prop(domain.value, "forSale") == Some(JBool(true))
    ensures ForSale(config) == config
  {
    var domain := Prop(config, "domain");
    if domain.Some? && domain.value.JObj? {
      PutSame(domain.value.fields, "forSale", JBool(true));
      PutSame(config.fields, "domain", domain.value);
    }
  }

  /** Forms with the domain inquiry already on, or that are not an object, are left alone. */
  lemma InquiryOnFixed(config: Json)
    requires var forms := ValueAt(Some(config), ["controls", "forms"]);
      forms.Some? && forms.value.JObj? ==> Prop(forms.value, "domainInquiry") == Some(JBool(true))
    ensures InquiryOn(config) == config
  {
    var forms := ValueAt(Some(config), ["controls", "forms"]);
    if forms.Some? && forms.value.JObj? {
      var controls := Prop(config, "controls").value;
      PutSame(forms.value.fields, "domainInquiry", JBool(true));
      PutSame(controls.fields, "forms", forms.value);
      PutSame(config.fields, "controls", controls);
    }
  }

  /** Putting the domains up for sale twice is the same as once. */
  lemma EnableSaleTwice(config: Json)
    ensures SaleEnabled(SaleEnabled(config)) == SaleEnabled(config)
  {
    if config.JObj? {
      var once := SaleEnabled(config);
      ForSaleFacts(config);
      InquiryOnFacts(ForSale(config));
      ForSaleFixed(once);
      InquiryOnFacts(once);
      InquiryOnFixed(once);
    }
  }
}
