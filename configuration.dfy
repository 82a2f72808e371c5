/** The immutable configuration a sandbox is constructed with, and the
    defaults that fill in what the caller left out. */
module Configuration {
  import opened Outcomes

  const DefaultHost := "127.0.0.1"
  const DefaultDatabase := "mongodb-sandbox"

  /** What a caller may configure. Every field is optional; `version` and
      `downloadDir` are passed on to the downloader. */
  datatype Config = Config(
    host: Option<string>,
    basePort: Option<int>,
    database: Option<string>,
    minimumUptimeMs: Option<int>,
    version: Option<string>,
    downloadDir: Option<string>)

  /** The configuration of a sandbox constructed without arguments. */
  const Unconfigured := Config(None, None, None, None, None, None)

  /** JavaScript's `value || fallback` on an optional string: a missing or
      empty string falls back. */
  function OrDefault(value: Option<string>, fallback: string): (r: string)
    ensures value.Some? && value.value != "" ==> r == value.value
    ensures value.None? || value.value == "" ==> r == fallback
  {
    if value.Some? && value.value != "" then value.value else fallback
  }
}
