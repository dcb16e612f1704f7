/**
 * The status check of one domain: whether it has a parking (tier 0) configuration, what domain8
 * reports about it, and the recommendation printed from the two. Reading the configuration file
 * and writing the report are not modelled: the configuration file is an input, as in the
 * domain8 module.
 */
module CheckStatus {
  import opened Wrappers
  import opened Json
  import opened Domain8

  /** The template settings added to the report when a configuration exists. */
  datatype ConfigSettings = ConfigSettings(template: Option<Json>, theme: Option<Json>, disabled: Json)

  /** The tier-0 half of the report. */
  datatype Tier0Report = Tier0Report(configExists: bool, enabled: bool, path: Option<string>,
                                     settings: Option<ConfigSettings>)

  /** The domain8 half of the report (`inDomain8` is its `exists` member); members domain8 did not report are None. */
  datatype Domain8Report = Domain8Report(inDomain8: bool, phase: Option<Json>, status: Option<Json>,
                                         hasBrand: Option<bool>, hasWebsite: Option<bool>,
                                         tier0Enabled: bool)

  datatype StatusReport = StatusReport(domain: string, tier0: Tier0Report, domain8: Domain8Report)

  /** The domain8 members copied into the report. */
  function Domain8ReportOf(st: Domain8Status): (r: Domain8Report)
    ensures r.inDomain8 <==> st.Known?
    ensures r.tier0Enabled == st.AllowsTier0()
    ensures st.Known? ==> r == Domain8Report(true, Some(st.phase), Some(st.status), Some(st.hasBrand),
                                             Some(st.hasWebsite), st.tier0Enabled)
    ensures st.Absent? ==> r.phase.None? && r.status.None? && r.hasBrand.None? && r.hasWebsite.None?
  {
    match st
    case Absent => Domain8Report(false, None, None, None, None, true)
    case Known(phase, status, tier0Enabled, hasBrand, _, hasWebsite) =>
      Domain8Report(true, Some(phase), Some(status), Some(hasBrand), Some(hasWebsite), tier0Enabled)
  }

  /** `checkDomainStatus(domainName)` for the configuration directory, the configuration file
   *  (None when it does not exist, Some(None) when its content is not JSON) and the domain's
   *  domain8 directory. It rejects when domain8 does, and when a configuration exists but is not
   *  JSON or is `null`. */
  method CheckDomainStatus(domainName: string, configsDir: string, configFile: Option<Option<Json>>,
                           dir: Option<Domain8Dir>) returns (r: Result<StatusReport>)
    ensures r.Failure? <==> CheckDomain8Status(dir).Failure? || configFile == Some(None) || configFile == Some(Some(JNull))
    ensures r.Success? ==> r.value.domain == domainName
    ensures r.Success? ==> r.value.domain8 == Domain8ReportOf(CheckDomain8Status(dir).value)
    ensures r.Success? ==> r.value.tier0.configExists == configFile.Some?
    ensures r.Success? ==> (r.value.tier0.enabled <==> configFile.Some? && CheckDomain8Status(dir).value.AllowsTier0())
    ensures r.Success? ==> (r.value.tier0.path.None? <==> configFile.None?)
    ensures r.Success? && configFile.Some? ==> r.value.tier0.path == Some(configsDir + "/" + domainName + ".json")
    ensures r.Success? ==> (r.value.tier0.settings.None? <==> configFile.None?)
    ensures r.Success? && configFile.Some? ==>
      var config := configFile.value.value;
      var t := Prop(config, "template");
      r.value.tier0.settings == Some(ConfigSettings(OptProp(t, "type"), OptProp(t, "theme"),
        if TruthyOpt(Prop(config, "disabled")) then Prop(config, "disabled").value else JBool(false)))
  {
    var configPath := configsDir + "/" + domainName + ".json";
    var configExists := configFile.Some?;
    var d8 := CheckDomain8Status(dir);
    if d8.Failure? {
      return Failure(d8.error);
    }
    var st := d8.value;
    var status := StatusReport(
      domainName,
      Tier0Report(configExists, configExists && st.AllowsTier0(), if configExists then Some(configPath) else None, None),
      Domain8ReportOf(st));
    if configExists {
      if configFile.value.None? {
        return Failure("SyntaxError");
      }
      var config := configFile.value.value;
      if config == JNull {
        return Failure("TypeError");
      }
      var template := Prop(config, "template");
      var disabled := Or(Prop(config, "disabled"), Some(JBool(false))).value;
      status := status.(tier0 := status.tier0.(settings := Some(ConfigSettings(OptProp(template, "type"), OptProp(template, "theme"), disabled))));
    }
    return Success(status);
  }

  /** The recommendation printed under the report. */
  datatype Recommendation = DeployBatch | DisabledByHigherTier | ReadyToServe | NoRecommendation

  function Recommend(s: StatusReport): (r: Recommendation)
    ensures r == ReadyToServe <==> s.tier0.configExists && s.tier0.enabled
    ensures r == DisabledByHigherTier <==> s.tier0.configExists && !s.tier0.enabled
    ensures r == DeployBatch <==> !s.tier0.configExists && s.domain8.tier0Enabled
    ensures r == NoRecommendation <==> !s.tier0.configExists && !s.domain8.tier0Enabled
  {
    if !s.tier0.configExists && s.domain8.tier0Enabled then DeployBatch
    else if s.tier0.configExists && !s.tier0.enabled then DisabledByHigherTier
    else if s.tier0.configExists && s.tier0.enabled then ReadyToServe
    else NoRecommendation
  }

  /** On a report `checkDomainStatus` produced, the four recommendations are decided by whether
   *  a configuration exists and whether domain8 allows tier 0. */
  lemma RecommendationCases(s: StatusReport)
    requires s.tier0.enabled <==> s.tier0.configExists && s.domain8.tier0Enabled
    ensures Recommend(s) == DeployBatch <==> !s.tier0.configExists && s.domain8.tier0Enabled
    ensures Recommend(s) == DisabledByHigherTier <==> s.tier0.configExists && !s.domain8.tier0Enabled
    ensures Recommend(s) == ReadyToServe <==> s.tier0.configExists && s.domain8.tier0Enabled
    ensures Recommend(s) == NoRecommendation <==> !s.tier0.configExists && !s.domain8.tier0Enabled
  {
  }

  /** A domain with neither a configuration nor a domain8 directory is recommended for deployment. */
  lemma UnknownDomainIsDeployed(s: StatusReport)
    requires !s.tier0.configExists && s.domain8 == Domain8ReportOf(Absent)
    ensures Recommend(s) == DeployBatch
  {
  }
}
