/** How a sandbox describes the single server it launches: the bind address,
    the derived port and a data directory of its own, and the order in which a
    freshly constructed server is prepared. */
module TopologyServer {
  import opened Outcomes
  import opened Effects
  import opened Strings
  import opened Configuration

  const PathSeparator := '/'
  /** Each server's data directory is named after its port. */
  const ServerDirPrefix := "mongodb-sandbox-server-"

  /** The options a server topology is constructed with. */
  datatype ServerOptions = ServerOptions(bindIp: string, port: int, dbpath: string)

  /** A constructed server: the binary it runs and its options. */
  datatype Topology = Topology(binary: string, options: ServerOptions)

  /** `path.join` of two segments, without normalisation. */
  function JoinPath(dir: string, name: string): string {
    dir + [PathSeparator] + name
  }

  /** The data directory for `port`: a sibling of what the downloader keeps
      beneath the download directory. The directory is split on the separator
      and joined again before use, which leaves it as it was. */
  function DbPath(downloadDir: string, port: int): (dbpath: string)
    ensures dbpath == JoinPath(downloadDir, ServerDirPrefix + IntToString(port))
  {
    JoinSplit(downloadDir, PathSeparator);
    JoinPath(Join(Split(downloadDir, PathSeparator), PathSeparator), ServerDirPrefix + IntToString(port))
  }

  /** Two ports never share a data directory under one download directory. */
  lemma DbPathsDistinct(downloadDir: string, p: int, q: int)
    requires p != q
    ensures DbPath(downloadDir, p) != DbPath(downloadDir, q)
  {
    PathTail(downloadDir, ServerDirPrefix, IntToString(p));
    PathTail(downloadDir, ServerDirPrefix, IntToString(q));
    IntToStringInjective(p, q);
  }

  /** What follows the directory, the separator and the name prefix in a path. */
  lemma PathTail(dir: string, prefix: string, rest: string)
    ensures JoinPath(dir, prefix + rest)[|dir| + 1 + |prefix|..] == rest
  {
  }

  /** The server options for a sandbox with configured host `host`, derived
      port `port` and download directory `downloadDir`; there are none until a
      port has been derived. */
  function DeriveTopologyConfigArgs(host: Option<string>, port: Option<int>, downloadDir: string)
    : (r: Result<ServerOptions>)
    ensures port.None? <==> r == Err(PortNotDerived)
    ensures r.Ok? ==> r.value.port == port.value
    ensures r.Ok? && (host.None? || host.value == "") ==> r.value.bindIp == DefaultHost
    ensures r.Ok? && host.Some? && host.value != "" ==> r.value.bindIp == host.value
    ensures r.Ok? ==> r.value.dbpath == downloadDir + "/" + ServerDirPrefix + IntToString(port.value)
  {
    if port.None? then Err(PortNotDerived)
    else Ok(ServerOptions(OrDefault(host, DefaultHost), port.value, DbPath(downloadDir, port.value)))
  }

  /** A derived topology and the calls made on it. */
  datatype TopologyDerivation = TopologyDerivation(result: Result<Topology>, trace: seq<Effect>)

  /** Construct the server for the sandbox, clear its data directory, then
      query its configuration; `purge` and `discover` are the server's replies.
      A failure stops the sequence and is passed on. */
  function DeriveTopology(host: Option<string>, port: Option<int>, downloadDir: string,
                          binary: string, purge: Outcome, discover: Outcome): (d: TopologyDerivation)
    ensures d.result.Ok? <==> port.Some? && purge.Pass? && discover.Pass?
    ensures port.None? ==> d.result == Err(PortNotDerived) && d.trace == []
    ensures port.Some? && purge.Fail? ==> d.result == Err(purge.error) && d.trace == [PurgeServer]
    ensures port.Some? && purge.Pass? ==> d.trace == [PurgeServer, DiscoverServer]
    ensures port.Some? && purge.Pass? && discover.Fail? ==> d.result == Err(discover.error)
    ensures d.result.Ok? ==>
      d.result.value == Topology(binary, DeriveTopologyConfigArgs(host, port, downloadDir).value)
  {
    match DeriveTopologyConfigArgs(host, port, downloadDir)
    case Err(e) => TopologyDerivation(Err(e), [])
    case Ok(options) =>
      if purge.Fail? then TopologyDerivation(Err(purge.error), [PurgeServer])
      else if discover.Fail? then TopologyDerivation(Err(discover.error), [PurgeServer, DiscoverServer])
      else TopologyDerivation(Ok(Topology(binary, options)), [PurgeServer, DiscoverServer])
  }
}
