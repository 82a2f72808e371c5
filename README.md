# mongodb-sandbox: the sandbox lifecycle, in Dafny

mongodb-sandbox gives a test suite a disposable MongoDB server. A `Sandbox`
installs the server binaries once, derives a free port on the host, launches
a stand-alone server on it with a per-port data directory, hands out database
clients, and later closes those clients, stops and purges the server and
releases the port. A start or stop requested while the same transition is
already in flight does not run twice: the caller waits and receives the
outcome of the transition in flight. A process-wide registry of reserved
ports keeps two sandboxes from claiming the same port. A `Lifecycle` wraps a
sandbox in the four checkpoints a test runner calls (`beforeAll`,
`beforeEach`, `afterEach`, `afterAll`): it trusts the sandbox only once it
was found empty, purges it after each case only while trusted, and keeps it
up for a minimum time before stopping it.

The model, module by module:

- `Outcomes` — option, result and outcome types and the error messages the
  sandbox raises.
- `Effects` — the calls made on collaborators (downloader, port probe,
  server, database client). Operations return the calls they made, in order,
  so that ordering can be stated.
- `Strings` — decimal rendering and parsing of integers, and split/join on a
  separator.
- `Configuration` — the immutable configuration record (host, base port,
  database, minimum uptime, version, download directory) and JavaScript's
  `value || fallback` defaulting.
- `Ports` — `lib/port.js`: the `PortRegistry` class holding the reserved-port
  set, with `DerivePort` (probe, re-probe one past a reserved port, reserve)
  and `ReleasePort`, specified by the recursive function `Derive`.
- `TopologyServer` — `lib/topology-server.js` and its duplicate in
  `lib/sandbox.js`: the server options (bind address, port, data path) and
  the purge-then-discover sequence.
- `Winfinit` — `lib/winfinit.js`: the downloader's options.
- `Connection` — the `options` getter of `lib/sandbox.js`: host, port,
  database and the `mongodb://host:port/database` url, and reading that url
  back.
- `Sandboxes` — `lib/sandbox.js`: the `Sandbox` class. `Start`/`Stop` admit a
  request (join the transition in flight, settle at once, or begin one);
  `CompleteStart`/`CompleteStop` run the transition to its end against the
  collaborators' replies and tell every waiter the one outcome. Each
  transition is specified by a function (`StartTransition`,
  `StopTransition`) whose properties are lemmas. `Client`, `NewClient`,
  `HasDocuments` and `PurgeDocuments` are the data-plane operations.
- `Lifecycles` — `lib/lifecycle.js`: the `Lifecycle` class.
- `Scenarios` — a whole run driven through the classes: start from base port
  5, stop, and derive the same port again.

Collaborators are not modelled; their replies are parameters (an outcome, a
result, or a probe function from a start port to a free port). Time is a
parameter, and `afterAll` returns the delay it would wait.

The shown source is partway through renaming the constructor input from
`options` to `config`. `lib/sandbox.js` keeps the input in `config`, and its
`options` getter is the connection view that exists only while the server
runs. The model keeps these two apart. The server's bind address is read from
the configuration, as `lib/sandbox.js:410-436` does; `lib/topology-server.js:15-16`
reads it from `options`, which would fail during a start because no server
is recorded yet. The minimum uptime of `afterAll` is read from the
configuration; see "Findings" for what the code as written does.

A failed start does not give back the port it reserved, and the sandbox keeps
that port once the binary path was also resolved. The model follows the code
here: only a successful stop releases a port.

## Model

| member | source | states |
|---|---|---|
| Outcomes.Message | lib/sandbox.js:463-467 | the three error messages the sandbox and the lifecycle raise are the exact strings "MongoDB Sandbox is not running", "MongoDB Sandbox port has not been derived" and "TestHelper#beforeAll: mock database contains Documents"; a collaborator's error keeps its own message |
| Configuration.OrDefault | lib/sandbox.js:91-92 | a missing or empty string falls back to the default; any other value is kept |
| Ports.BasePort | lib/port.js:16 | a missing or zero base port becomes 27017; any other base port is kept |
| Ports.DeriveFresh | lib/port.js:14-33 | a derived port was not reserved when derivation began, lies at or above the start port and is at most 65535 |
| Ports.DeriveProbes | lib/port.js:18-24 | derivation probes the start port first and, after each probe that found a reserved port p, probes from p+1; the outcome is the last probe's reply, so a probe failure is passed on unchanged |
| Ports.RederiveAfterRelease | lib/port.js:40-47 | a derived and reserved port is no longer reserved after its release, and deriving again from the same start gives it again |
| Ports.PortRegistry.constructor | lib/port.js:6 | the registry starts with no reservation |
| Ports.PortRegistry.DerivePort | lib/port.js:14-33 | returns the port `Derive` specifies and adds exactly that port to the reserved set; on failure the set is unchanged |
| Ports.PortRegistry.ReleasePort | lib/port.js:40-47 | answers whether the port was reserved; afterwards it is not, and every other reservation is kept |
| Strings.ParseIntToString | lib/sandbox.js:424 | the decimal text of a port reads back as that port |
| Strings.IntToStringInjective | lib/sandbox.js:424 | different ports have different decimal texts |
| Strings.JoinSplit | lib/topology-server.js:27-28 | splitting the download directory on the separator and joining it again gives the directory back |
| TopologyServer.DbPath | lib/topology-server.js:22-28 | the data path is the download directory joined with `mongodb-sandbox-server-<port>` |
| TopologyServer.DbPathsDistinct | lib/topology-server.js:22-28 | for one download directory, different ports get different data paths |
| TopologyServer.DeriveTopologyConfigArgs | lib/topology-server.js:14-40 | fails with "port has not been derived" exactly when there is no port; otherwise the options carry that port, bind the host or 127.0.0.1 when it is unset or empty, and put the data in the per-port directory |
| TopologyServer.DeriveTopology | lib/topology-server.js:47-61 | succeeds exactly when there is a port and purge and discover pass; purge comes before discover, and a failed purge is passed on without discovering |
| Winfinit.DefaultDownloadDir | lib/winfinit.js:16-17 | the default download directory is the build directory joined with `mongodb-<version>` (a numeric version rendered as its digits), `latest` when the version is missing, empty or 0 |
| Winfinit.DownloaderOptions | lib/winfinit.js:15-34 | `host` and `basePort` are removed; every other caller key passes through unchanged and overrides the default `downloadDir`, which is present when the caller gave none |
| Winfinit.AsOptions | lib/sandbox.js:377-384 | a configuration record as an options object has exactly the keys the caller set, among the six configurable ones, each holding the configured value |
| Winfinit.ConfiguredDownloadDir | lib/winfinit.js:15-34 | for a configuration: a configured download directory wins, otherwise the version names it, or `latest` when none or an empty one is configured; the version passes through; host and base port are gone |
| Connection.ConnectionFor | lib/sandbox.js:87-108 | the connection view has the running port, the configured or default host and database, neither empty, and the url composed from those three |
| Connection.ConnectionUrl | lib/sandbox.js:94-100 | the url is the `mongodb://` scheme followed by the host, a colon, the port's decimal text, a slash and the database name |
| Connection.ConnectionUrlRoundTrip | lib/sandbox.js:94-100 | host, port and database read back out of the url, for any host without a colon; with `ConnectionFor` this holds for the view a running sandbox gives |
| Connection.DefaultConnection | lib/sandbox.js:90-107 | an unconfigured sandbox on any port is reached at `mongodb://127.0.0.1:<port>/mongodb-sandbox` |
| Sandboxes.FirstFailure | lib/sandbox.js:203-205 | waiting on all replies passes exactly when every reply passed; otherwise it fails with the first failing reply in list order |
| Sandboxes.CollectAll | lib/sandbox.js:275 | waiting on all counts gives every count, in order, exactly when every count answered; otherwise the first failing count's error in list order |
| Sandboxes.AnyNonZero | lib/sandbox.js:278 | true exactly when some count is not zero |
| Sandboxes.DocumentsAnswer | lib/sandbox.js:267-279 | the store holds documents exactly when every count answered and one is not zero, and is empty exactly when every count answered zero; a failed listing is passed on, and otherwise the first failing count's error |
| Sandboxes.Broadcast | lib/sandbox.js:23-38 | every waiter, in the order they came, is told the same outcome |
| Sandboxes.InstallStep | lib/sandbox.js:238-253 | install first asks whether the download is present and downloads exactly when it is not; it passes exactly when the download was present or the download passed; over a present download it only checks, and passes |
| Sandboxes.StartSucceedsIff | lib/sandbox.js:140-171 | a start succeeds exactly when install, port derivation, binary resolution, purge, discover and the server launch all succeed |
| Sandboxes.StartSuccess | lib/sandbox.js:140-171 | after a successful start the server runs on a port no one had reserved, at or above the base port, now reserved; it binds the configured host and keeps its data in the per-port directory; the calls were install, derive port and binary, purge, discover, launch, in that order |
| Sandboxes.StartFailure | lib/sandbox.js:130-171 | a failed start records no server and gives back no reservation, and fails with the error of the first stage that failed: a failed install changes nothing and derives no port; then a failed port derivation; then a failed binary resolution, which keeps the new reservation but not the port; then a failed purge (no discover), a failed discover (no launch), or a failed launch, each with the port recorded |
| Sandboxes.Closes | lib/sandbox.js:203-205 | one close per client, in list order |
| Sandboxes.StopSuccess | lib/sandbox.js:203-226 | a stop succeeds exactly when every close, the server stop and the purge succeed; it then resets, forgets the clients and releases the port, that port only, once, as the last call after close, stop and purge |
| Sandboxes.StopFailure | lib/sandbox.js:193-229 | a failed stop resets nothing and releases nothing, and every client was asked to close first; it fails with the first failing close in list order and keeps the clients, otherwise with the server stop's error (no purge), otherwise with the purge's error |
| Sandboxes.Sandbox.AssertRunning | lib/sandbox.js:463-467 | passes exactly when a server is recorded, and otherwise fails with "not running" |
| Sandboxes.Sandbox.IsRunning | lib/sandbox.js:72-74 | running exactly when a server is recorded; a running sandbox has a port and is not starting, one that is not running holds no client and is not stopping |
| Sandboxes.Sandbox.Options | lib/sandbox.js:87-108 | the connection view exists exactly while the sandbox runs, and is the one for its configuration and port |
| Sandboxes.Sandbox.constructor | lib/sandbox.js:51-64 | a new sandbox keeps its configuration and is idle: not running, no port, no clients, nothing in flight |
| Sandboxes.Sandbox.Reset | lib/sandbox.js:377-403 | a reset sandbox is idle again |
| Sandboxes.Sandbox.Start | lib/sandbox.js:114-129 | during a start the caller joins the waiters and nothing else happens; a running sandbox settles at once; otherwise a start begins |
| Sandboxes.Sandbox.CompleteStart | lib/sandbox.js:130-171 | the start ends in the state `StartTransition` specifies, the sandbox runs exactly when it passed, and every waiter receives its outcome |
| Sandboxes.Sandbox.Stop | lib/sandbox.js:177-192 | during a stop the caller joins the waiters and nothing else happens; a sandbox that is not running settles at once; otherwise a stop begins |
| Sandboxes.Sandbox.CompleteStop | lib/sandbox.js:193-229 | the stop ends in the state `StopTransition` specifies, the sandbox still runs exactly when it failed, and every waiter receives its outcome |
| Sandboxes.Sandbox.NewClient | lib/sandbox.js:352-369 | fails with "not running" unless running; connects to the sandbox's url and appends the new client to the list |
| Sandboxes.Sandbox.Client | lib/sandbox.js:327-344 | fails with "not running" unless running; returns the first client handed out, and connects one only when there is none |
| Sandboxes.Sandbox.HasDocuments | lib/sandbox.js:259-280 | fails with "not running" unless running; otherwise obtains the client as `client` does (keeping a newly connected one, passing on a failed connection), lists the collections of the sandbox's database, counts each, and answers as `DocumentsAnswer`, failing with the first failing count |
| Sandboxes.Sandbox.PurgeDocuments | lib/sandbox.js:287-310 | fails with "not running" unless running; otherwise obtains the client as `client` does (keeping a newly connected one, passing on a failed connection), deletes from every collection, and passes exactly when the listing and every deletion passed, failing with the first failing deletion |
| Lifecycles.ChosenContext | lib/lifecycle.js:54 | a context passed to `beforeAll` wins over the one given at construction |
| Lifecycles.TimeoutExtension | lib/lifecycle.js:60-70 | a 90-second timeout is asked for exactly when the chosen context offers a timeout function |
| Lifecycles.UptimeDelay | lib/lifecycle.js:139-146 | the delay is never negative, is zero exactly once the uptime floor is reached, and otherwise ends exactly at the floor |
| Lifecycles.WaitsOutMinimumUptime | lib/lifecycle.js:139-146 | called D ms after the start with a minimum uptime M > D, `afterAll` waits M - D ms |
| Lifecycles.AfterAllDelayAsWritten | lib/lifecycle.js:132-141 | reading the minimum uptime from the running-only connection view fails when the sandbox does not run, and otherwise waits as if no minimum were set |
| Lifecycles.AsWrittenIgnoresMinimumUptime | lib/lifecycle.js:133 | with a 50 ms minimum uptime and teardown at the start instant, the code as written waits 0 ms or fails, where 50 ms is meant |
| Lifecycles.Lifecycle.constructor | lib/lifecycle.js:17-44 | a new lifecycle keeps its sandbox and context, is not trusted and has start time 0 |
| Lifecycles.Lifecycle.BeforeAll | lib/lifecycle.js:52-91 | starts the sandbox, then checks it for documents; it is trusted, with the current time recorded, exactly when the start passed and no document was found; documents fail with "mock database contains Documents" |
| Lifecycles.Lifecycle.BeforeEach | lib/lifecycle.js:99-102 | does nothing and passes |
| Lifecycles.Lifecycle.AfterEach | lib/lifecycle.js:110-123 | purges documents exactly when the sandbox is trusted, passing on the purge's outcome; otherwise does nothing and passes |
| Lifecycles.Lifecycle.AfterAll | lib/lifecycle.js:131-156 | waits out the configured minimum uptime, then stops the sandbox whether or not it was trusted, passing on the stop's outcome |
| Scenarios.StartStopRederive | lib/sandbox.js:114-229 | with base port 5 and every collaborator succeeding, a sandbox starts on a port of at least 5 and runs; stopped, it no longer runs, and its port is handed out again |

## Left out

- Port probing (the `portfinder` search) is a probe function given as a parameter. It promises a port at or above the start port and at most 65535, which also bounds the re-probing.
- `Promise.all` rejects with whichever reply fails first in time. The model takes the first failure in list order, and for the port/binary pair the port's failure.
- Interleavings of asynchronous steps are not modelled. A transition runs from `CompleteStart`/`CompleteStop` to its end in one step, so a stop requested in the middle of a start, or the reverse, is not explored.
- Event emitters, timers and the clock are not modelled. Waiters are an explicit list, the time is a parameter, and `afterAll` returns its delay instead of sleeping.
- The downloader, the prebuilt binaries, the server process and the MongoDB client are not modelled. Their replies are parameters, and their calls are recorded as `Effects`.
- The store's contents are not modelled. Document counts are replies, so nothing links a purge to the next `hasDocuments`.
- Sandboxes.Sandbox.Reset: the downloader and binary objects `_reset` constructs are not modelled. Their options are the configuration without `host` and `basePort`, with no default `downloadDir` added (`Winfinit.AsOptions` less those two keys).
- `path.join` normalisation and `url.format` are not modelled. Paths are joined with `/` and the url is `mongodb://host:port/database`.
- Method pre-binding and debug logging are not modelled.
- `index.js`, `lib/options.js` and `lib/config.js` are not part of this model. Only their default values are used.
- Lifecycles.Lifecycle.BeforeAll: it takes the sandbox's replies to start and `hasDocuments` as parameters, and does not drive the `Sandbox` object.
- Lifecycles.Lifecycle.AfterEach: the purge's reply is a parameter.
- Lifecycles.Lifecycle.AfterAll: the stop's reply is a parameter.
- The `sandbox.lifecycle(context)` factory is not modelled. It only constructs a `Lifecycle`.
- Lifecycles.ChosenContext: a context given as `null` at construction is treated as no context. The source would then fail reading `timeout` from `null` in `beforeAll`.
- A collaborator that rejects with a falsy value (such as `null` or `0`) is not modelled. Every failure carries an error. For such a rejection the source's `finish` (lib/sandbox.js:134, 197) lets the caller that began the transition succeed, while a waiter (lib/sandbox.js:30) is rejected with it.
- JavaScript's mutable options objects are values here. That the caller's options are not changed by `lib/winfinit.js` holds by construction.

## Findings

| source | as written | input that shows it | evidently intended | confidence | as-written member | corrected member |
|---|---|---|---|---|---|---|
| lib/lifecycle.js:133 | `afterAll` reads `minimumUptimeMs` from `sandbox.options`, the connection view, which fails when the sandbox is not running and has no `minimumUptimeMs` when it is | a sandbox configured with `minimumUptimeMs: 50`, torn down at the instant it started: running, it waits 0 ms; not running, `afterAll` fails before stopping it | read `minimumUptimeMs` from the configuration, defaulting to 0, and wait out the rest of it | medium, not executed | Lifecycles.AsWrittenIgnoresMinimumUptime | Lifecycles.Lifecycle.AfterAll |
