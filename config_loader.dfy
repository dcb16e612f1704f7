/**
 * The configuration loader: the domain a request names is cleaned into the name of its
 * configuration file, and the configuration directory is listed as domain names with their
 * template settings. Reading files and parsing JSON are inputs here: a directory is the list of
 * its file names, each with the value its content parsed to (None when it could not be read or
 * parsed).
 */
module ConfigLoader {
  import opened Wrappers
  import opened Strings
  import opened Json

  /** The leading `http://` or `https://`, if there is one, removed. */
  function StripScheme(s: string): string {
    if StartsWith(s, "http://") then s[7..]
    else if StartsWith(s, "https://") then s[8..]
    else s
  }

  /** One leading `www.`, if there is one, removed. */
  function StripWww(s: string): string {
    if StartsWith(s, "www.") then s[4..] else s
  }

  /** `domain.replace(/^(https?:\/\/)?(www\.)?/, '').split('/')[0]` */
  function CleanDomain(domain: string): (r: string)
    ensures '/' !in r
  {
    var parts := Split(StripWww(StripScheme(domain)), '/');
    SplitPartsLackSeparator(StripWww(StripScheme(domain)), '/');
    assert parts[0] in parts;
    parts[0]
  }

  /** The cleaned domain is what precedes the first `/` once the scheme and `www.` are gone. */
  lemma CleanDomainIsPrefix(domain: string)
    ensures var h := StripWww(StripScheme(domain));
      var r := CleanDomain(domain);
      |r| <= |h| && r == h[..|r|] && (|r| < |h| ==> h[|r|] == '/')
  {
    SplitFirstPart(StripWww(StripScheme(domain)), '/');
  }

  /** A bare domain name is left as it is. */
  lemma BareDomainUnchanged(domain: string)
    requires !StartsWith(domain, "http://") && !StartsWith(domain, "https://")
    requires !StartsWith(domain, "www.") && '/' !in domain
    ensures CleanDomain(domain) == domain
  {
    SplitWithoutSeparator(domain, '/');
  }

  /** The part before the first `/` of `d + "/" + rest`, for a `d` without `/`, is `d`. */
  lemma FirstPartBeforeSlash(d: string, rest: string)
    requires '/' !in d
    ensures Split(d + "/" + rest, '/')[0] == d
  {
    var s := d + "/" + rest;
    SplitFirstPart(s, '/');
    SplitPartsLackSeparator(s, '/');
    var p := Split(s, '/')[0];
    assert p in Split(s, '/');
    assert s[|d|] == '/';
    assert s[..|d|] == d;
  }

  /** A URL with a scheme, `www.` and a path cleans to its host. */
  lemma UrlCleansToHost(scheme: string, host: string, path: string)
    requires scheme == "http://" || scheme == "https://"
    requires '/' !in host
    ensures CleanDomain(scheme + "www." + host + "/" + path) == host
  {
    var u := scheme + "www." + host + "/" + path;
    assert StripScheme(u) == "www." + host + "/" + path by {
      assert u[..|scheme|] == scheme;
      assert u[|scheme|..] == "www." + host + "/" + path;
      assert u[4] == scheme[4];
    }
    assert StripWww("www." + host + "/" + path) == host + "/" + path by {
      assert ("www." + host + "/" + path)[4..] == host + "/" + path;
    }
    FirstPartBeforeSlash(host, path);
  }

  /** A file of the configuration directory, with the value its content parsed to. */
  datatype ConfigFile = ConfigFile(fileName: string, parsed: Option<Json>)

  /** The template settings read from a parsed configuration. */
  datatype Settings = Settings(template: Option<Json>, theme: Option<Json>, colorMode: Option<Json>)

  /** An entry of the listing: the domain name, and the settings when the file could be read. */
  datatype ConfigSummary = ConfigSummary(name: string, settings: Option<Settings>)

  /** `readdirSync(dir).filter(file => file.endsWith('.json'))` */
  function JsonFiles(files: seq<ConfigFile>): (r: seq<ConfigFile>)
    ensures |r| <= |files|
    ensures forall f :: f in r ==> f in files && EndsWith(f.fileName, ".json")
    decreases |files|
  {
    if |files| == 0 then []
    else (if EndsWith(files[0].fileName, ".json") then [files[0]] else []) + JsonFiles(files[1..])
  }

  /** The JSON files are exactly the files whose names end in `.json`, in directory order. */
  lemma {:induction false} JsonFilesExactly(files: seq<ConfigFile>, f: ConfigFile)
    ensures f in JsonFiles(files) <==> f in files && EndsWith(f.fileName, ".json")
    decreases |files|
  {
    if |files| > 0 {
      JsonFilesExactly(files[1..], f);
      assert f in files <==> f == files[0] || f in files[1..];
    }
  }

  /** The settings of one parsed configuration: `config.template?.type` and the like; a `null`
   *  configuration throws there, and the entry falls back to the name alone. */
  function SettingsOf(config: Json): (r: Option<Settings>)
    ensures r.None? <==> config == JNull
  {
    if config == JNull then None
    else
      var t := Prop(config, "template");
      Some(Settings(OptProp(t, "type"), OptProp(t, "theme"), OptProp(t, "colorMode")))
  }

  /** The entry for one file. */
  function Summary(f: ConfigFile): (r: ConfigSummary)
    ensures r.name == ReplaceFirst(f.fileName, ".json", "")
    ensures r.settings.None? <==> f.parsed.None? || f.parsed.value == JNull
  {
    var name := ReplaceFirst(f.fileName, ".json", "");
    match f.parsed
    case None => ConfigSummary(name, None)
    case Some(config) => ConfigSummary(name, SettingsOf(config))
  }

  /** `getAllDomainConfigs()`; a missing directory (None) lists nothing. */
  function AllDomainConfigs(dir: Option<seq<ConfigFile>>): (r: seq<ConfigSummary>)
    ensures dir.None? ==> r == []
    ensures dir.Some? ==> |r| == |JsonFiles(dir.value)|
    ensures dir.Some? ==> forall i :: 0 <= i < |r| ==> r[i] == Summary(JsonFiles(dir.value)[i])
  {
    match dir
    case None => []
    case Some(files) =>
      var js := JsonFiles(files);
      seq(|js|, i requires 0 <= i < |js| => Summary(js[i]))
  }

  /** A name whose only `.json` is its suffix is listed without it. */
  lemma NameDropsSuffix(fileName: string)
    requires EndsWith(fileName, ".json") && IndexOf(fileName, ".json") == Some(|fileName| - 5)
    ensures ReplaceFirst(fileName, ".json", "") == fileName[..|fileName| - 5]
  {
    assert fileName[|fileName| - 5..] == ".json";
    assert fileName[..|fileName| - 5] + "" + fileName[|fileName|..] == fileName[..|fileName| - 5];
  }

  /** Only the first `.json` of a name is removed. */
  lemma NameDropsFirstOccurrence()
    ensures ReplaceFirst("a.json.json", ".json", "") == "a.json"
  {
    assert OccursAt("a.json.json", ".json", 1);
    assert "a.json.json"[0..5] == "a.jso";
    assert IndexOf("a.json.json", ".json") == Some(1);
    assert "a.json.json"[..1] == "a";
    assert "a.json.json"[6..] == ".json";
  }
}
