/**
 * The migration to the `controls` section: a configuration without `controls` is rewritten with
 * a `controls` section derived from its legacy `features`, `domain`, `ads` and ad content boxes,
 * and keeps its other known sections. The run has no error handling: a configuration that
 * cannot be read or parsed, or that is `null`, ends the run, so only one file is modelled.
 */
module MigrateConfigs {
  import opened Wrappers
  import opened Seqs
  import opened Json

  /** The top-level keys of a migrated configuration, in order. */
  const MigratedKeys: seq<string> :=
    ["domain", "template", "controls", "features", "contentBoxes", "ads", "emailCapture", "seo"]

  /** The ad positions of `controls.ads.positions`, each with the content box it used to be. */
  const AdPositions: seq<(string, string)> := [
    ("topBanner", "ad-top-banner"), ("alert", "ad-alert"), ("sidebar", "ad-sidebar"),
    ("midBanner", "ad-mid-banner"), ("bottomBanner", "ad-bottom-banner"),
    ("native1", "ad-native-1"), ("native2", "ad-native-2")]

  /** `config.contentBoxes?.[box]?.enabled !== false` */
  predicate PositionOn(config: Json, box: string) {
    ValueAt(Prop(config, "contentBoxes"), [box, "enabled"]) != Some(JBool(false))
  }

  /** `controls.ads.positions` */
  function Positions(config: Json): Json {
    JObj(seq(|AdPositions|, i requires 0 <= i < |AdPositions| =>
      (AdPositions[i].0, JBool(PositionOn(config, AdPositions[i].1)))))
  }

  /** `controls.forms`: the email form follows `features.showEmailCapture` and the domain inquiry
   *  follows `domain.forSale`, each with its default when `null` or missing. */
  function FormMembers(config: Json): seq<(string, Option<Json>)> {
    [("emailCapture", Coalesce(OptProp(Prop(config, "features"), "showEmailCapture"), Some(JBool(true)))),
     ("domainInquiry", Coalesce(OptProp(Prop(config, "domain"), "forSale"), Some(JBool(false)))),
     ("businessInquiry", Some(JBool(false)))]
  }

  /** `controls.ads` */
  function AdsMembers(config: Json): seq<(string, Option<Json>)> {
    [("globalEnabled", Coalesce(OptProp(Prop(config, "ads"), "enabled"), Some(JBool(false)))),
     ("positions", Some(Positions(config)))]
  }

  /** The new `controls` section. */
  function ControlMembers(config: Json): seq<(string, Option<Json>)> {
    ControlsShape(Obj(FormMembers(config)), Obj(AdsMembers(config)),
                  Coalesce(OptProp(Prop(config, "features"), "enableAnalytics"), Some(JBool(true))))
  }

  /** The layout of `controls` around its three sections. */
  function ControlsShape(forms: Json, ads: Json, analytics: Option<Json>): seq<(string, Option<Json>)> {
    [("forms", Some(forms)), ("ads", Some(ads)), ("analytics", analytics)]
  }

  function Controls(config: Json): Json {
    Obj(ControlMembers(config))
  }

  /** The value the new configuration gives to one of its keys. */
  function MemberOf(config: Json, k: string): Option<Json> {
    if k == "controls" then Some(Controls(config)) else Prop(config, k)
  }

  /** The members of `newConfig`, one per known section, in order. */
  function MigratedMembers(config: Json): seq<(string, Option<Json>)> {
    seq(|MigratedKeys|, i requires 0 <= i < |MigratedKeys| => (MigratedKeys[i], MemberOf(config, MigratedKeys[i])))
  }

  /** `newConfig`: the known sections in a fixed order, with `controls` third; `undefined`
   *  sections are not written. It holds exactly `controls` and those of the other known sections
   *  that were defined, each with its old value; every other key is dropped. */
  function Migrated(config: Json): (m: Json)
    ensures m.JObj?
    ensures forall k :: k in Keys(m.fields) ==> k in MigratedKeys
    ensures Prop(m, "controls") == Some(Controls(config))
    ensures forall k :: k in MigratedKeys && k != "controls" ==> Prop(m, k) == Prop(config, k)
  {
    MembersLookup(config);
    assert "controls" == MigratedKeys[2];
    Obj(MigratedMembers(config))
  }

  /** Each known section is looked up at its own place among the members. */
  lemma MembersLookup(config: Json)
    ensures forall k :: k in MigratedKeys ==> Lookup(Present(MigratedMembers(config)), k) == MemberOf(config, k)
  {
    var members := MigratedMembers(config);
    assert Distinct(MigratedKeys);
    forall k | k in MigratedKeys ensures Lookup(Present(members), k) == MemberOf(config, k) {
      var i :| 0 <= i < |MigratedKeys| && MigratedKeys[i] == k;
      LookupPresent(members, i);
    }
  }

  /** One configuration: Success(None) when it already has `controls` and is left alone;
   *  reading `controls` of `null` throws. */
  function Migrate(config: Json): (r: Result<Option<Json>>)
    ensures r.Failure? <==> config == JNull
    ensures r.Success? ==> (r.value.None? <==> TruthyOpt(Prop(config, "controls")))
  {
    if config == JNull then Failure("TypeError")
    else if TruthyOpt(Prop(config, "controls")) then Success(None)
    else Success(Some(Migrated(config)))
  }

  /** Reading inside the new configuration's `controls` is reading inside the derived section. */
  lemma InControls(config: Json, p: seq<string>)
    ensures ValueAt(Some(Migrated(config)), ["controls"] + p) == ValueAt(Some(Controls(config)), p)
  {
    ValueAtAppend(Some(Migrated(config)), ["controls"], p);
  }

  /** The sections of `controls`. */
  lemma ControlsLayout(config: Json)
    ensures var c := Some(Controls(config));
      && ValueAt(c, ["forms"]) == Some(Obj(FormMembers(config)))
      && ValueAt(c, ["ads"]) == Some(Obj(AdsMembers(config)))
      && ValueAt(c, ["analytics"]) == ControlMembers(config)[2].1
  {
    ShapeLayout(Obj(FormMembers(config)), Obj(AdsMembers(config)), ControlMembers(config)[2].1);
  }

  lemma ShapeLayout(forms: Json, ads: Json, analytics: Option<Json>)
    ensures var c := Some(Obj(ControlsShape(forms, ads, analytics)));
      ValueAt(c, ["forms"]) == Some(forms) && ValueAt(c, ["ads"]) == Some(ads) && ValueAt(c, ["analytics"]) == analytics
  {
    var members := ControlsShape(forms, ads, analytics);
    LookupPresent(members, 0);
    LookupPresent(members, 1);
    LookupPresent(members, 2);
  }

  lemma FormsSection(config: Json)
    ensures ValueAt(Some(Controls(config)), ["forms"]) == Some(Obj(FormMembers(config)))
  {
    ControlsLayout(config);
  }

  lemma AdsSection(config: Json)
    ensures ValueAt(Some(Controls(config)), ["ads"]) == Some(Obj(AdsMembers(config)))
  {
    ControlsLayout(config);
  }

  lemma FormKeysDistinct(config: Json, i: nat)
    requires i < 3
    ensures forall j :: 0 <= j < |FormMembers(config)| && j != i ==> FormMembers(config)[j].0 != FormMembers(config)[i].0
  {
  }

  lemma AdsKeysDistinct(config: Json, i: nat)
    requires i < 2
    ensures forall j :: 0 <= j < |AdsMembers(config)| && j != i ==> AdsMembers(config)[j].0 != AdsMembers(config)[i].0
  {
  }

  /** Reading one member of a section of `controls`. */
  lemma InSection(config: Json, section: string, members: seq<(string, Option<Json>)>, i: nat)
    requires ValueAt(Some(Controls(config)), [section]) == Some(Obj(members))
    requires i < |members| && forall j :: 0 <= j < |members| && j != i ==> members[j].0 != members[i].0
    ensures ValueAt(Some(Migrated(config)), ["controls", section, members[i].0]) == members[i].1
  {
    var k := members[i].0;
    calc {
      ValueAt(Some(Migrated(config)), ["controls", section, k]);
      { assert ["controls"] + [section, k] == ["controls", section, k]; InControls(config, [section, k]); }
      ValueAt(Some(Controls(config)), [section, k]);
      { assert [section] + [k] == [section, k]; ValueAtAppend(Some(Controls(config)), [section], [k]); }
      ValueAt(Some(Obj(members)), [k]);
      { LookupPresent(members, i); }
      members[i].1;
    }
  }

  /** The form controls: the email form follows `features.showEmailCapture` and the domain inquiry
   *  follows `domain.forSale`, each with its default when `null` or missing; the business inquiry
   *  is off. */
  lemma FormControls(config: Json)
    requires config != JNull
    ensures var m := Some(Migrated(config));
      var email := ValueAt(Some(config), ["features", "showEmailCapture"]);
      var sale := ValueAt(Some(config), ["domain", "forSale"]);
      && ValueAt(m, ["controls", "forms", "emailCapture"]) == (if Nullish(email) then Some(JBool(true)) else email)
      && ValueAt(m, ["controls", "forms", "domainInquiry"]) == (if Nullish(sale) then Some(JBool(false)) else sale)
      && ValueAt(m, ["controls", "forms", "businessInquiry"]) == Some(JBool(false))
  {
    FormMember(config, 0);
    FormMember(config, 1);
    FormMember(config, 2);
  }

  /** Member `i` of `controls.forms` in the new configuration. */
  lemma FormMember(config: Json, i: nat)
    requires i < 3
    ensures ValueAt(Some(Migrated(config)), ["controls", "forms", FormMembers(config)[i].0]) == FormMembers(config)[i].1
  {
    FormsSection(config);
    FormKeysDistinct(config, i);
    InSection(config, "forms", FormMembers(config), i);
  }

  /** Ads stay as globally enabled as `ads.enabled` said (off when missing), and analytics follow
   *  `features.enableAnalytics` (on when missing). */
  lemma AdsAndAnalytics(config: Json)
    requires config != JNull
    ensures var m := Some(Migrated(config));
      var enabled := ValueAt(Some(config), ["ads", "enabled"]);
      var analytics := ValueAt(Some(config), ["features", "enableAnalytics"]);
      && ValueAt(m, ["controls", "ads", "globalEnabled"]) == (if Nullish(enabled) then Some(JBool(false)) else enabled)
      && ValueAt(m, ["controls", "analytics"]) == (if Nullish(analytics) then Some(JBool(true)) else analytics)
  {
    GlobalEnabledMember(config);
    AnalyticsMember(config);
  }

  /** `controls.analytics` in the new configuration. */
  lemma AnalyticsMember(config: Json)
    ensures ValueAt(Some(Migrated(config)), ["controls", "analytics"]) == ControlMembers(config)[2].1
  {
    ControlsLayout(config);
    InControls(config, ["analytics"]);
  }

  /** `controls.ads.globalEnabled` in the new configuration. */
  lemma GlobalEnabledMember(config: Json)
    ensures ValueAt(Some(Migrated(config)), ["controls", "ads", "globalEnabled"]) == AdsMembers(config)[0].1
  {
    AdsSection(config);
    AdsKeysDistinct(config, 0);
    InSection(config, "ads", AdsMembers(config), 0);
  }

  /** Each position of `controls.ads.positions` holds whether its box stays on. */
  lemma PositionAt(config: Json, i: nat)
    requires i < |AdPositions|
    ensures ValueAt(Some(Positions(config)), [AdPositions[i].0]) == Some(JBool(PositionOn(config, AdPositions[i].1)))
  {
    assert forall j :: 0 <= j < i ==> AdPositions[j].0 != AdPositions[i].0;
    LookupAt(Positions(config).fields, AdPositions[i].0, i);
  }

  /** Every ad position is on unless its old content box was explicitly disabled; a missing box
   *  leaves it on. */
  lemma AdPositionsFollowBoxes(config: Json, i: nat)
    requires config != JNull && i < |AdPositions|
    ensures var on := ValueAt(Some(config), ["contentBoxes", AdPositions[i].1, "enabled"]) != Some(JBool(false));
      ValueAt(Some(Migrated(config)), ["controls", "ads", "positions", AdPositions[i].0]) == Some(JBool(on))
  {
    var k, box := AdPositions[i].0, AdPositions[i].1;
    calc {
      ValueAt(Some(Migrated(config)), ["controls", "ads", "positions", k]);
      { PositionsInMigrated(config, k); }
      ValueAt(Some(Positions(config)), [k]);
      { PositionAt(config, i); }
      Some(JBool(PositionOn(config, box)));
      { BoxEnabled(config, box); }
      Some(JBool(ValueAt(Some(config), ["contentBoxes", box, "enabled"]) != Some(JBool(false))));
    }
  }

  /** Reading a position inside the new configuration is reading it in `Positions`. */
  lemma PositionsInMigrated(config: Json, k: string)
    ensures ValueAt(Some(Migrated(config)), ["controls", "ads", "positions", k]) == ValueAt(Some(Positions(config)), [k])
  {
    var m := Some(Migrated(config));
    calc {
      ValueAt(m, ["controls", "ads", "positions", k]);
      { assert ["controls", "ads", "positions"] + [k] == ["controls", "ads", "positions", k];
        ValueAtAppend(m, ["controls", "ads", "positions"], [k]); }
      ValueAt(ValueAt(m, ["controls", "ads", "positions"]), [k]);
      { PositionsMember(config); }
      ValueAt(Some(Positions(config)), [k]);
    }
  }

  /** `controls.ads.positions` in the new configuration. */
  lemma PositionsMember(config: Json)
    ensures ValueAt(Some(Migrated(config)), ["controls", "ads", "positions"]) == Some(Positions(config))
  {
    AdsSection(config);
    AdsKeysDistinct(config, 1);
    InSection(config, "ads", AdsMembers(config), 1);
  }

  /** `config.contentBoxes?.[box]?.enabled` as a path from the configuration. */
  lemma BoxEnabled(config: Json, box: string)
    requires config != JNull
    ensures ValueAt(Prop(config, "contentBoxes"), [box, "enabled"]) == ValueAt(Some(config), ["contentBoxes", box, "enabled"])
  {
    ValueAtAppend(Some(config), ["contentBoxes"], [box, "enabled"]);
    assert ["contentBoxes"] + [box, "enabled"] == ["contentBoxes", box, "enabled"];
  }

  /** A configuration without content boxes gets every ad position on. */
  lemma NoBoxesAllPositionsOn(config: Json, i: nat)
    requires config != JNull && Nullish(Prop(config, "contentBoxes")) && i < |AdPositions|
    ensures ValueAt(Some(Migrated(config)), ["controls", "ads", "positions", AdPositions[i].0]) == Some(JBool(true))
  {
    AdPositionsFollowBoxes(config, i);
    var box := AdPositions[i].1;
    ValueAtAppend(Some(config), ["contentBoxes"], [box, "enabled"]);
    assert ["contentBoxes"] + [box, "enabled"] == ["contentBoxes", box, "enabled"];
    assert ValueAt(Some(config), ["contentBoxes"]) == Prop(config, "contentBoxes");
    assert ValueAt(OptProp(Prop(config, "contentBoxes"), box), ["enabled"]) == None;
  }

  /** A second run leaves a migrated configuration alone. */
  lemma MigrateTwice(config: Json)
    requires Migrate(config).Success? && Migrate(config).value.Some?
    ensures Migrate(Migrate(config).value.value) == Success(None)
  {
    var m := Migrated(config);
    assert Migrate(config).value.value == m;
    assert Prop(m, "controls") == Some(Controls(config));
    assert m != JNull && TruthyOpt(Prop(m, "controls"));
  }
}
