/**
 * The synchronisation of parking configurations with domain8: a configuration whose domain has
 * a live higher tier is marked disabled; otherwise a disabled configuration is re-enabled and
 * the brand colours domain8 designed are copied in when they differ. Every domain of the domain8
 * list and of the configuration directory is synced once, and the outcomes are counted. The
 * configuration file is an input (None when missing, Some(None) when not JSON) and the
 * configuration written back an output. Unlike batch deployment, nothing here catches an error:
 * the first one ends the whole run.
 */
module SyncDomains {
  import opened Wrappers
  import opened Strings
  import opened Seqs
  import opened Json
  import opened Domain8

  datatype Action = Disabled | Enabled | Updated | Unchanged

  datatype SyncResult = SyncResult(domain: string, action: Action, reason: string)

  /** The result of one domain, and the configuration written for it, if any. */
  datatype SyncOutcome = SyncOutcome(result: SyncResult, written: Option<Json>)

  /** domain8 reports a live higher tier. */
  predicate HigherTier(st: Domain8Status) {
    st.Known? && !st.tier0Enabled
  }

  /** The configuration had a truthy `disabled`. */
  predicate WasDisabled(config: Json) {
    TruthyOpt(Prop(config, "disabled"))
  }

  /** domain8 has brand colours that differ from those of the configuration's template (the
   *  texts `JSON.stringify` makes of the two differ exactly when the values do). */
  predicate BrandDiffers(config: Json, st: Domain8Status) {
    st.Brand().Some? && OptProp(Prop(config, "template"), "brandColors") != st.Brand()
  }

  /** `syncDomain(domainName)` as a value: the result it resolves with and the configuration it
   *  writes, or the error it rejects with. */
  function SyncOf(domainName: string, configFile: Option<Option<Json>>, d8: Result<Domain8Status>): Result<SyncOutcome> {
    if d8.Failure? then Failure(d8.error)
    else if HigherTier(d8.value) then
      if configFile.None? then Success(SyncOutcome(SyncResult(domainName, Unchanged, "No tier0 config to disable"), None))
      else if configFile.value.None? then Failure("SyntaxError")
      else
        var marked :- Assign(Some(configFile.value.value), "disabled", JBool(true), true);
        var config :- Assign(Some(marked), "disabledReason", JStr("Higher tier active: " + StringOf(d8.value.phase)), true);
        Success(SyncOutcome(SyncResult(domainName, Disabled, "Higher tier active (" + StringOf(d8.value.phase) + ")"),
                            Some(config)))
    else if configFile.None? then Success(SyncOutcome(SyncResult(domainName, Unchanged, "No tier0 config exists"), None))
    else if configFile.value.None? then Failure("SyntaxError")
    else if configFile.value.value == JNull then Failure("TypeError")
    else
      var config := configFile.value.value;
      var st := d8.value;
      var cleared := if WasDisabled(config) then Delete(Delete(config, "disabled"), "disabledReason") else config;
      if st.Brand().Some? && Nullish(Prop(config, "template")) then Failure("TypeError")
      else
        var written :- if BrandDiffers(config, st) then AssignAt(cleared, ["template", "brandColors"], st.Brand().value, true)
                       else Success(cleared);
        if WasDisabled(config) || BrandDiffers(config, st) then
          var reenabled := TruthyOpt(Prop(written, "disabled"));
          Success(SyncOutcome(SyncResult(domainName, if reenabled then Enabled else Updated,
                                         if reenabled then "Re-enabled tier0" else "Updated brand colors"),
                              Some(written)))
        else Success(SyncOutcome(SyncResult(domainName, Unchanged, "Config up to date"), None))
  }

  /** A configuration that is re-enabled or brought up to date changes in nothing but its
   *  `disabled` members and its template's brand colours: every other member keeps its value,
   *  and the template is kept as it was unless it is an object whose brand colours differ from
   *  domain8's, which are then put in its `brandColors`. */
  lemma {:induction false} RewriteFrame(domainName: string, configFile: Option<Option<Json>>, d8: Result<Domain8Status>)
    requires d8.Success? && d8.value.AllowsTier0() && configFile.Some? && configFile.value.Some?
    requires SyncOf(domainName, configFile, d8).Success? && SyncOf(domainName, configFile, d8).value.written.Some?
    ensures var config := configFile.value.value;
      var written := SyncOf(domainName, configFile, d8).value.written.value;
      var template := Prop(config, "template");
      config.JObj?
      && (forall k :: k != "disabled" && k != "disabledReason" && k != "template" ==> Prop(written, k) == Prop(config, k))
      && (BrandDiffers(config, d8.value) && template.Some? && template.value.JObj? ==>
            Prop(written, "template") == Some(JObj(Put(template.value.fields, "brandColors", d8.value.Brand().value))))
      && (!(BrandDiffers(config, d8.value) && template.Some? && template.value.JObj?) ==> Prop(written, "template") == template)
  {
    var config := configFile.value.value;
    var st := d8.value;
    var template := Prop(config, "template");
    var cleared := if WasDisabled(config) then Delete(Delete(config, "disabled"), "disabledReason") else config;
    assert config.JObj?;
    assert forall k :: k != "disabled" && k != "disabledReason" ==> Prop(cleared, k) == Prop(config, k) by {
      if WasDisabled(config) {
        forall k | k != "disabled" && k != "disabledReason" ensures Prop(cleared, k) == Prop(config, k) {
          LookupRemove(config.fields, "disabled", k);
          LookupRemove(Remove(config.fields, "disabled"), "disabledReason", k);
        }
      }
    }
    if BrandDiffers(config, st) {
      var bc := st.Brand().value;
      var path := ["template", "brandColors"];
      assert path[0] == "template" && path[1..] == ["brandColors"];
      forall k | k != "template" ensures Prop(AssignAt(cleared, path, bc, true).value, k) == Prop(cleared, k) {
        AssignAtOtherKeys(cleared, path, bc, true, k);
      }
      if template.value.JObj? {
        var template' := JObj(Put(template.value.fields, "brandColors", bc));
        assert AssignAt(cleared, path, bc, true).value == JObj(Put(cleared.fields, "template", template'));
        LookupPut(cleared.fields, "template", template', "template");
      } else {
        assert AssignAt(cleared, path, bc, true).value == cleared;
      }
    }
  }

  /** `syncDomain(domainName)` for the configuration file and what `checkDomain8Status` resolved
   *  (or rejected) with. The configuration is changed in place under an `updated` flag, in module
   *  (strict) code. */
  method SyncDomain(domainName: string, configFile: Option<Option<Json>>, d8: Result<Domain8Status>)
    returns (r: Result<SyncOutcome>)
    ensures r == SyncOf(domainName, configFile, d8)
    ensures d8.Failure? ==> r.Failure?
    ensures r.Success? ==> r.value.result.domain == domainName
    ensures r.Success? ==> r.value.result.action != Enabled
    ensures d8.Success? && configFile.None? ==>
      r.Success? && r.value.written.None? && r.value.result.action == Unchanged
    ensures d8.Success? && HigherTier(d8.value) && configFile.None? ==>
      r == Success(SyncOutcome(SyncResult(domainName, Unchanged, "No tier0 config to disable"), None))
    ensures (d8.Success? && HigherTier(d8.value) && configFile.Some? && configFile.value.Some?
             && configFile.value.value.JObj?) ==>
      var config := configFile.value.value;
      r == Success(SyncOutcome(
        SyncResult(domainName, Disabled, "Higher tier active (" + StringOf(d8.value.phase) + ")"),
        Some(JObj(Put(Put(config.fields, "disabled", JBool(true)),
                      "disabledReason", JStr("Higher tier active: " + StringOf(d8.value.phase)))))))
    ensures (d8.Success? && d8.value.AllowsTier0() && configFile.Some? && configFile.value.Some?
             && configFile.value.value.JObj?) ==>
      var config := configFile.value.value;
      var template := Prop(config, "template");
      (r.Failure? <==> d8.value.Brand().Some? && !(template.Some? && (template.value.JObj? || template.value.JArr?)))
      && (r.Success? ==>
        (r.value.written.Some? <==> WasDisabled(config) || BrandDiffers(config, d8.value))
        && (r.value.result.action == if r.value.written.Some? then Updated else Unchanged)
        && (WasDisabled(config) ==>
              Prop(r.value.written.value, "disabled").None? && Prop(r.value.written.value, "disabledReason").None?)
        && (BrandDiffers(config, d8.value) && template.value.JObj? ==>
              ValueAt(r.value.written, ["template", "brandColors"]) == d8.value.Brand())
        && (r.value.written.Some? ==>
              (forall k :: k != "disabled" && k != "disabledReason" && k != "template" ==>
                 Prop(r.value.written.value, k) == Prop(config, k))
              && (!(BrandDiffers(config, d8.value) && template.Some? && template.value.JObj?) ==>
                    Prop(r.value.written.value, "template") == template)))
  {
    if d8.Success? && d8.value.AllowsTier0() && configFile.Some? && configFile.value.Some?
       && SyncOf(domainName, configFile, d8).Success? && SyncOf(domainName, configFile, d8).value.written.Some? {
      RewriteFrame(domainName, configFile, d8);
    }
    if d8.Failure? {
      return Failure(d8.error);
    }
    var st := d8.value;
    if HigherTier(st) {
      if configFile.Some? {
        if configFile.value.None? {
          return Failure("SyntaxError");
        }
        var config := configFile.value.value;
        var marked := Assign(Some(config), "disabled", JBool(true), true);
        if marked.Failure? {
          return Failure(marked.error);
        }
        config := marked.value;
        config := Assign(Some(config), "disabledReason", JStr("Higher tier active: " + StringOf(st.phase)), true).value;
        return Success(SyncOutcome(SyncResult(domainName, Disabled, "Higher tier active (" + StringOf(st.phase) + ")"),
                                   Some(config)));
      }
      return Success(SyncOutcome(SyncResult(domainName, Unchanged, "No tier0 config to disable"), None));
    }
    if configFile.Some? {
      if configFile.value.None? {
        return Failure("SyntaxError");
      }
      var config := configFile.value.value;
      var original := config;
      if config == JNull {
        return Failure("TypeError");
      }
      var updated := false;
      if TruthyOpt(Prop(config, "disabled")) {
        config := Delete(config, "disabled");
        config := Delete(config, "disabledReason");
        updated := true;
        LookupRemove(original.fields, "disabled", "disabled");
        LookupRemove(Remove(original.fields, "disabled"), "disabledReason", "disabled");
        LookupRemove(original.fields, "disabled", "disabledReason");
        LookupRemove(Remove(original.fields, "disabled"), "disabledReason", "disabledReason");
      }
      assert !TruthyOpt(Prop(config, "disabled"));
      // the template is untouched by the deletions
      assert Prop(config, "template") == Prop(original, "template") by {
        if original.JObj? {
          LookupRemove(original.fields, "disabled", "template");
          LookupRemove(Remove(original.fields, "disabled"), "disabledReason", "template");
        }
      }
      if st.Brand().Some? {
        var template := Prop(config, "template");
        if Nullish(template) {
          return Failure("TypeError");
        }
        if Prop(template.value, "brandColors") != st.Brand() {
          var merged := AssignAt(config, ["template", "brandColors"], st.Brand().value, true);
          if merged.Failure? {
            return Failure(merged.error);
          }
          if config.JObj? {
            AssignAtOtherKeys(config, ["template", "brandColors"], st.Brand().value, true, "disabled");
            AssignAtOtherKeys(config, ["template", "brandColors"], st.Brand().value, true, "disabledReason");
            if template.value.JObj? {
              assert ["template", "brandColors"][1..] == ["brandColors"];
              AssignAtObjects(config, ["template", "brandColors"], st.Brand().value, true);
            }
          }
          config := merged.value;
          updated := true;
        }
      }
      if updated {
        var action := if TruthyOpt(Prop(config, "disabled")) then Enabled else Updated;
        var reason := if TruthyOpt(Prop(config, "disabled")) then "Re-enabled tier0" else "Updated brand colors";
        return Success(SyncOutcome(SyncResult(domainName, action, reason), Some(config)));
      }
      return Success(SyncOutcome(SyncResult(domainName, Unchanged, "Config up to date"), None));
    }
    return Success(SyncOutcome(SyncResult(domainName, Unchanged, "No tier0 config exists"), None));
  }

  /** The domain names of the configuration directory: each `.json` file name without its
   *  first `.json`. */
  function ConfigNames(files: seq<string>): (r: seq<string>)
    ensures |r| <= |files|
    ensures forall n :: n in r ==> exists f :: f in files && EndsWith(f, ".json") && n == ReplaceFirst(f, ".json", "")
    ensures forall f :: f in files && EndsWith(f, ".json") ==> ReplaceFirst(f, ".json", "") in r
    decreases |files|
  {
    if |files| == 0 then []
    else
      var rest := ConfigNames(files[1..]);
      assert forall f :: f in files[1..] ==> f in files;
      (if EndsWith(files[0], ".json") then [ReplaceFirst(files[0], ".json", "")] else []) + rest
  }

  /** `[...new Set([...domainNames, ...existingConfigs])]` */
  function AllDomains(csvNames: seq<string>, files: seq<string>): seq<string> {
    Dedup(csvNames + ConfigNames(files))
  }

  /** Every name of the list and of the configuration directory is synced, once, in the order
   *  of first occurrence: list names first. */
  lemma AllDomainsUnion(csvNames: seq<string>, files: seq<string>)
    ensures Distinct(AllDomains(csvNames, files))
    ensures forall n :: n in AllDomains(csvNames, files) <==> n in csvNames || n in ConfigNames(files)
    ensures forall i, j :: 0 <= i < j < |AllDomains(csvNames, files)| ==>
      FirstIndex(csvNames + ConfigNames(files), AllDomains(csvNames, files)[i])
      < FirstIndex(csvNames + ConfigNames(files), AllDomains(csvNames, files)[j])
  {
    var all := csvNames + ConfigNames(files);
    DedupElements(all);
    forall i, j | 0 <= i < j < |Dedup(all)|
      ensures FirstIndex(all, Dedup(all)[i]) < FirstIndex(all, Dedup(all)[j])
    {
      DedupFirstOccurrenceOrder(all, i, j);
    }
  }

  /** What syncing meets for one domain: its configuration file and its domain8 directory. */
  datatype DomainFiles = DomainFiles(configFile: Option<Option<Json>>, dir: Option<Domain8Dir>)

  /** The counts of the sync summary (`untouched` counts the `unchanged` action), with the
   *  results they count. */
  datatype Summary = Summary(results: seq<SyncResult>, disabled: nat, enabled: nat, updated: nat, untouched: nat)

  predicate IsDisabled(r: SyncResult) { r.action == Disabled }
  predicate IsEnabled(r: SyncResult) { r.action == Enabled }
  predicate IsUpdated(r: SyncResult) { r.action == Updated }
  predicate IsUnchanged(r: SyncResult) { r.action == Unchanged }

  /** `syncDomain(name)` on the files the domain meets. */
  function SyncOfName(name: string, filesOf: string -> DomainFiles): Result<SyncOutcome> {
    SyncOf(name, filesOf(name).configFile, CheckDomain8Status(filesOf(name).dir))
  }

  /** `syncDomain(name)` on the files the domain meets, as one step of the loop. */
  method SyncOne(name: string, filesOf: string -> DomainFiles) returns (r: Result<SyncOutcome>)
    ensures r == SyncOfName(name, filesOf)
    ensures r.Success? ==> r.value.result.domain == name && r.value.result.action != Enabled
  {
    var files := filesOf(name);
    r := SyncDomain(name, files.configFile, CheckDomain8Status(files.dir));
  }

  /** The loop of `main` over the domains, each met with the files `files` gives it; the first
   *  error rejects the whole run. */
  method SyncAll(domains: seq<string>, filesOf: string -> DomainFiles) returns (r: Result<Summary>)
    ensures r.Failure? <==> exists i :: 0 <= i < |domains| && SyncOfName(domains[i], filesOf).Failure?
    ensures r.Failure? ==>
      exists i :: 0 <= i < |domains| && SyncOfName(domains[i], filesOf) == Failure(r.error)
        && forall j :: 0 <= j < i ==> SyncOfName(domains[j], filesOf).Success?
    ensures r.Success? ==>
      |r.value.results| == |domains|
      && forall i :: 0 <= i < |domains| ==> r.value.results[i] == SyncOfName(domains[i], filesOf).value.result
    ensures r.Success? ==>
      |r.value.results| == |domains|
      && (forall i :: 0 <= i < |domains| ==> r.value.results[i].domain == domains[i])
      && r.value.disabled == CountIf(r.value.results, IsDisabled)
      && r.value.updated == CountIf(r.value.results, IsUpdated)
      && r.value.untouched == CountIf(r.value.results, IsUnchanged)
      && r.value.enabled == 0
      && r.value.disabled + r.value.enabled + r.value.updated + r.value.untouched == |domains|
  {
    var results: seq<SyncResult> := [];
    var disabled, enabled, updated, untouched := 0, 0, 0, 0;
    for i := 0 to |domains|
      invariant |results| == i
      invariant forall j :: 0 <= j < i ==> results[j].domain == domains[j]
      invariant forall j :: 0 <= j < i ==>
        SyncOfName(domains[j], filesOf).Success? && results[j] == SyncOfName(domains[j], filesOf).value.result
      invariant disabled == CountIf(results, IsDisabled)
      invariant enabled == CountIf(results, IsEnabled) == 0
      invariant updated == CountIf(results, IsUpdated)
      invariant untouched == CountIf(results, IsUnchanged)
      invariant disabled + enabled + updated + untouched == i
    {
      var outcome := SyncOne(domains[i], filesOf);
      if outcome.Failure? {
        return Failure(outcome.error);
      }
      var result := outcome.value.result;
      CountIfAppend(results, result, IsDisabled);
      CountIfAppend(results, result, IsEnabled);
      CountIfAppend(results, result, IsUpdated);
      CountIfAppend(results, result, IsUnchanged);
      results := results + [result];
      match result.action
      case Disabled => disabled := disabled + 1;
      case Enabled => enabled := enabled + 1;
      case Updated => updated := updated + 1;
      case Unchanged => untouched := untouched + 1;
    }
    return Success(Summary(results, disabled, enabled, updated, untouched));
  }
}
