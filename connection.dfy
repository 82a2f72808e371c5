/** The view a running sandbox gives of where to connect: host, port, database
    and the connection url composed from them. */
module Connection {
  import opened Outcomes
  import opened Strings
  import opened Configuration

  const Scheme := "mongodb://"

  datatype ConnectionView = ConnectionView(host: string, port: int, database: string, url: string)

  /** `mongodb://<host>:<port>/<database>`: the scheme, then the host, a
      colon, the port's decimal text, a slash and the database name. */
  function ConnectionUrl(host: string, port: int, database: string): (url: string)
    ensures |url| > |Scheme| + |host|
    ensures url[..|Scheme|] == Scheme
    ensures url[|Scheme|..] == host + [':'] + (IntToString(port) + ['/'] + database)
  {
    Scheme + (host + [':'] + (IntToString(port) + ['/'] + database))
  }

  /** The view for a sandbox configured with `config` that runs on `port`:
      host and database fall back to their defaults. */
  function ConnectionFor(config: Config, port: int): (v: ConnectionView)
    ensures v.port == port
    ensures v.host == OrDefault(config.host, DefaultHost)
    ensures v.database == OrDefault(config.database, DefaultDatabase)
    ensures v.host != "" && v.database != ""
    ensures v.url == ConnectionUrl(v.host, v.port, v.database)
  {
    var host := OrDefault(config.host, DefaultHost);
    var database := OrDefault(config.database, DefaultDatabase);
    ConnectionView(host, port, database, ConnectionUrl(host, port, database))
  }

  /** Read host, port and database back out of a connection url. */
  function ParseConnectionUrl(url: string): Option<(string, int, string)> {
    if |url| < |Scheme| || url[..|Scheme|] != Scheme then None
    else
      match SplitOnce(url[|Scheme|..], ':')
      case None => None
      case Some((host, rest)) =>
        match SplitOnce(rest, '/')
        case None => None
        case Some((portText, database)) =>
          if IsIntText(portText) then Some((host, ParseInt(portText), database)) else None
  }

  /** The url of a connection view names exactly its host, port and database,
      for any host without a colon. */
  lemma ConnectionUrlRoundTrip(host: string, port: int, database: string)
    requires ':' !in host
    ensures ParseConnectionUrl(ConnectionUrl(host, port, database)) == Some((host, port, database))
  {
    var portText := IntToString(port);
    SplitOnceConcat(host, ':', portText + ['/'] + database);
    IntToStringHasNoSeparator(port, '/');
    SplitOnceConcat(portText, '/', database);
    ParseIntToString(port);
  }

  /** Regrouping the pieces of a url around its port text. */
  lemma Reassociate(scheme: string, host: string, portText: string, database: string)
    ensures scheme + (host + [':'] + (portText + ['/'] + database))
         == (scheme + host + [':']) + portText + (['/'] + database)
  {
  }

  /** An unconfigured sandbox is reached on its port at the default host and
      database: `mongodb://127.0.0.1:<port>/mongodb-sandbox`. */
  lemma DefaultConnection(port: int)
    ensures ConnectionFor(Unconfigured, port) ==
      ConnectionView("127.0.0.1", port, "mongodb-sandbox",
        "mongodb://127.0.0.1:" + IntToString(port) + "/mongodb-sandbox")
  {
    var portText := IntToString(port);
    Reassociate(Scheme, DefaultHost, portText, DefaultDatabase);
    assert Scheme + DefaultHost + [':'] == "mongodb://127.0.0.1:";
    assert ['/'] + DefaultDatabase == "/mongodb-sandbox";
  }
}
