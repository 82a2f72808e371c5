/** The options handed to the MongoDB downloader: the caller's options over a
    default download directory named after the version, without the two keys
    that only the sandbox understands. */
module Winfinit {
  import opened Outcomes
  import Strings
  import opened Configuration

  /** A value of the caller's options object. */
  datatype OptionValue = Str(s: string) | Num(n: int)

  type Options = map<string, OptionValue>

  /** JavaScript truthiness of an option value. */
  predicate Truthy(v: OptionValue) {
    match v
    case Str(s) => s != ""
    case Num(n) => n != 0
  }

  /** What a template literal makes of an option value. */
  function Render(v: OptionValue): string {
    match v
    case Str(s) => s
    case Num(n) => Strings.IntToString(n)
  }

  /** `version || 'latest'`. */
  function VersionLabel(options: Options): string {
    if "version" in options && Truthy(options["version"]) then Render(options["version"]) else "latest"
  }

  /** The default download directory beneath the build directory `buildDir`. */
  function DefaultDownloadDir(buildDir: string, options: Options): (dir: string)
    ensures !("version" in options && Truthy(options["version"])) ==> dir == buildDir + "/mongodb-latest"
    ensures "version" in options && Truthy(options["version"]) ==>
      dir == buildDir + "/mongodb-" + Render(options["version"])
  {
    buildDir + "/" + "mongodb-" + VersionLabel(options)
  }

  /** The downloader's options: the default download directory, overridden by
      whatever the caller gave, minus `host` and `basePort`. The caller's map is
      a value and stays as it was. */
  function DownloaderOptions(options: Options, buildDir: string): (r: Options)
    ensures "host" !in r && "basePort" !in r
    ensures r.Keys == (options.Keys + {"downloadDir"}) - {"host", "basePort"}
    ensures forall k :: k in options && k != "host" && k != "basePort" ==> k in r && r[k] == options[k]
    ensures "downloadDir" !in options ==> r["downloadDir"] == Str(DefaultDownloadDir(buildDir, options))
  {
    (map["downloadDir" := Str(DefaultDownloadDir(buildDir, options))] + options) - {"host", "basePort"}
  }

  /** `m` with `key` set to the value `v` holds, if it holds one. */
  function Put(m: Options, key: string, v: Option<OptionValue>): (r: Options)
    ensures r.Keys == m.Keys + (if v.Some? then {key} else {})
    ensures v.Some? ==> r[key] == v.value
    ensures forall k :: k in m && k != key ==> r[k] == m[k]
  {
    if v.Some? then m[key := v.value] else m
  }

  function StrOf(s: Option<string>): Option<OptionValue> {
    if s.Some? then Some(Str(s.value)) else None
  }

  function NumOf(n: Option<int>): Option<OptionValue> {
    if n.Some? then Some(Num(n.value)) else None
  }

  /** A configuration record seen as the options object it stands for. */
  function AsOptions(c: Config): (m: Options)
    ensures m.Keys <= {"host", "basePort", "database", "minimumUptimeMs", "version", "downloadDir"}
    ensures ("host" in m <==> c.host.Some?) && ("basePort" in m <==> c.basePort.Some?)
    ensures ("database" in m <==> c.database.Some?) && ("minimumUptimeMs" in m <==> c.minimumUptimeMs.Some?)
    ensures ("version" in m <==> c.version.Some?) && ("downloadDir" in m <==> c.downloadDir.Some?)
    ensures c.host.Some? ==> m["host"] == Str(c.host.value)
    ensures c.basePort.Some? ==> m["basePort"] == Num(c.basePort.value)
    ensures c.database.Some? ==> m["database"] == Str(c.database.value)
    ensures c.minimumUptimeMs.Some? ==> m["minimumUptimeMs"] == Num(c.minimumUptimeMs.value)
    ensures c.version.Some? ==> m["version"] == Str(c.version.value)
    ensures c.downloadDir.Some? ==> m["downloadDir"] == Str(c.downloadDir.value)
  {
    var m := Put(map[], "host", StrOf(c.host));
    var m := Put(m, "basePort", NumOf(c.basePort));
    var m := Put(m, "database", StrOf(c.database));
    var m := Put(m, "minimumUptimeMs", NumOf(c.minimumUptimeMs));
    var m := Put(m, "version", StrOf(c.version));
    Put(m, "downloadDir", StrOf(c.downloadDir))
  }

  /** For a configured sandbox: a configured download directory is used as it
      is, otherwise the default for the configured version (`latest` when none
      is set); the version passes through unchanged. */
  lemma ConfiguredDownloadDir(c: Config, buildDir: string)
    ensures var r := DownloaderOptions(AsOptions(c), buildDir);
      && "host" !in r && "basePort" !in r
      && (c.downloadDir.Some? ==> r["downloadDir"] == Str(c.downloadDir.value))
      && (c.downloadDir.None? && (c.version.None? || c.version.value == "") ==> r["downloadDir"] == Str(buildDir + "/mongodb-latest"))
      && (c.downloadDir.None? && c.version.Some? && c.version.value != "" ==>
            r["downloadDir"] == Str(buildDir + "/mongodb-" + c.version.value))
      && (c.version.Some? ==> r["version"] == Str(c.version.value))
  {
    var m := AsOptions(c);
    if c.version.Some? {
      assert m["version"] == Str(c.version.value);
    }
    if c.downloadDir.Some? {
      assert m["downloadDir"] == Str(c.downloadDir.value);
    }
  }
}
