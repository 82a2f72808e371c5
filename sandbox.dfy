/** The sandbox: one disposable MongoDB server, started and stopped on demand.
    Its state is a pair of in-flight flags, the derived port, the running
    server (whose presence is what "running" means) and the clients it has
    handed out. A start or stop requested while the same transition is in
    flight joins a waiter list and receives the one outcome that transition
    ends with. The collaborators (installer, port probe, server, database
    client) are reached through their replies, given as parameters. */
module Sandboxes {
  import opened Outcomes
  import opened Effects
  import opened Configuration
  import opened Connection
  import Ports
  import opened TopologyServer

  // ---------------------------------------------------------------------------
  // Folds over collaborator replies

  /** Promise.all over replies without a value: the first failure, in list
      order, or Pass when every reply passed. */
  function FirstFailure(outcomes: seq<Outcome>): (r: Outcome)
    ensures r.Pass? <==> forall i :: 0 <= i < |outcomes| ==> outcomes[i].Pass?
    ensures r.Fail? ==>
      exists i :: 0 <= i < |outcomes| && outcomes[i] == r && forall j :: 0 <= j < i ==> outcomes[j].Pass?
  {
    if outcomes == [] then Pass
    else if outcomes[0].Fail? then outcomes[0]
    else
      var r := FirstFailure(outcomes[1..]);
      if r.Pass? then r
      else
        assert exists i :: 0 <= i < |outcomes| && outcomes[i] == r && forall j :: 0 <= j < i ==> outcomes[j].Pass? by {
          var k :| 0 <= k < |outcomes[1..]| && outcomes[1..][k] == r && forall j :: 0 <= j < k ==> outcomes[1..][j].Pass?;
          assert forall j :: 1 <= j < k + 1 ==> outcomes[j] == outcomes[1..][j - 1];
          assert outcomes[k + 1] == r;
        }
        r
  }

  /** Promise.all over value replies: every value, or the first failure. */
  function CollectAll(replies: seq<Result<int>>): (r: Result<seq<int>>)
    ensures r.Ok? <==> forall i :: 0 <= i < |replies| ==> replies[i].Ok?
    ensures r.Ok? ==> |r.value| == |replies| && forall i :: 0 <= i < |replies| ==> replies[i] == Ok(r.value[i])
    ensures r.Err? ==>
      exists i :: 0 <= i < |replies| && replies[i] == Err(r.error) && forall j :: 0 <= j < i ==> replies[j].Ok?
  {
    if replies == [] then Ok([])
    else if replies[0].Err? then Err(replies[0].error)
    else
      match CollectAll(replies[1..])
      case Err(e) =>
        assert exists i :: 0 <= i < |replies| && replies[i] == Err(e) && forall j :: 0 <= j < i ==> replies[j].Ok? by {
          var k :| 0 <= k < |replies[1..]| && replies[1..][k] == Err(e) && forall j :: 0 <= j < k ==> replies[1..][j].Ok?;
          assert forall j :: 1 <= j < k + 1 ==> replies[j] == replies[1..][j - 1];
          assert replies[k + 1] == Err(e);
        }
        Err(e)
      case Ok(rest) =>
        assert forall i :: 1 <= i < |replies| ==> replies[i] == replies[1..][i - 1];
        Ok([replies[0].value] + rest)
  }

  /** `counts.some((count) => count !== 0)`. */
  function AnyNonZero(counts: seq<int>): (b: bool)
    ensures b <==> exists i :: 0 <= i < |counts| && counts[i] != 0
  {
    if counts == [] then false
    else if counts[0] != 0 then true
    else
      var b := AnyNonZero(counts[1..]);
      assert b ==> exists i :: 0 <= i < |counts[1..]| && counts[1..][i] != 0;
      assert (exists i :: 0 <= i < |counts| && counts[i] != 0) ==>
        exists i :: 0 <= i < |counts[1..]| && counts[1..][i] != 0;
      b
  }

  /** The answer of hasDocuments once a client is at hand: `listing` is the
      reply listing the collections, with each collection's count reply. The
      store holds documents exactly when every count answered and one of them
      is not zero; it is empty exactly when every count answered zero. */
  function DocumentsAnswer(listing: Result<seq<Result<int>>>): (r: Result<bool>)
    ensures listing.Err? ==> r == Err(listing.error)
    ensures r == Ok(true) <==>
      listing.Ok? && (forall i :: 0 <= i < |listing.value| ==> listing.value[i].Ok?)
      && exists i :: 0 <= i < |listing.value| && listing.value[i].value != 0
    ensures r == Ok(false) <==>
      listing.Ok? && forall i :: 0 <= i < |listing.value| ==> listing.value[i] == Ok(0)
    ensures listing.Ok? && r.Err? ==>
      exists i :: 0 <= i < |listing.value| && listing.value[i] == Err(r.error)
        && forall j :: 0 <= j < i ==> listing.value[j].Ok?
  {
    match listing
    case Err(e) => Err(e)
    case Ok(replies) =>
      match CollectAll(replies)
      case Err(e) => Err(e)
      case Ok(counts) =>
        assert forall i :: 0 <= i < |replies| ==> replies[i].value == counts[i];
        Ok(AnyNonZero(counts))
  }

  function Counts(n: nat): seq<Effect> {
    seq(n, i requires 0 <= i < n => CountDocuments(i))
  }

  function Deletes(n: nat): seq<Effect> {
    seq(n, i requires 0 <= i < n => DeleteDocuments(i))
  }

  // ---------------------------------------------------------------------------
  // Coalescing

  /** A caller waiting on an in-flight transition. */
  type Caller = nat

  /** What one waiting caller is told when the transition finishes. */
  datatype Notice = Notice(caller: Caller, outcome: Outcome)

  /** How a start or stop request is admitted: it joins a transition in
      flight, settles at once because the state is already reached, or begins
      a new transition. */
  datatype Admission = Joined | Settled(outcome: Outcome) | Began

  /** What `finish` tells the waiters: each of them, in the order they came,
      receives the same outcome. */
  function Broadcast(waiters: seq<Caller>, outcome: Outcome): (notices: seq<Notice>)
    ensures |notices| == |waiters|
    ensures forall i :: 0 <= i < |notices| ==> notices[i].caller == waiters[i]
    ensures forall n :: n in notices ==> n.outcome == outcome
  {
    if waiters == [] then [] else [Notice(waiters[0], outcome)] + Broadcast(waiters[1..], outcome)
  }

  // ---------------------------------------------------------------------------
  // Install

  /** The installer's replies: whether the download is present (asking can
      fail), and how the download goes if it is needed. */
  datatype InstallReplies = InstallReplies(present: Result<bool>, download: Outcome)

  datatype Step = Step(outcome: Outcome, trace: seq<Effect>)

  /** Install: download only when the download is known not to be present. */
  function InstallStep(r: InstallReplies): (s: Step)
    ensures |s.trace| >= 1 && s.trace[0] == CheckDownload
    ensures Download in s.trace <==> r.present == Ok(false)
    ensures s.outcome.Pass? <==> r.present == Ok(true) || (r.present == Ok(false) && r.download.Pass?)
    ensures r.present.Err? ==> s.outcome == Fail(r.present.error)
    ensures r.present == Ok(false) ==> s.outcome == r.download
    ensures r.present == Ok(true) ==> s == Step(Pass, [CheckDownload])
  {
    match r.present
    case Err(e) => Step(Fail(e), [CheckDownload])
    case Ok(present) => if present then Step(Pass, [CheckDownload]) else Step(r.download, [CheckDownload, Download])
  }

  // ---------------------------------------------------------------------------
  // The start transition

  /** The collaborators' replies during one start transition. */
  datatype StartReplies = StartReplies(
    install: InstallReplies,
    probe: Ports.Probe,
    binary: Result<string>,   // path of the installed server binary
    downloadDir: string,      // the downloader's directory
    purge: Outcome,           // clearing the new server's data directory
    discover: Outcome,        // querying the new server's configuration
    serverStart: Outcome)     // launching the new server

  /** The state a start transition ends in. */
  datatype StartStep = StartStep(
    outcome: Outcome,
    reserved: set<int>,
    port: Option<int>,
    topology: Option<Topology>,
    trace: seq<Effect>)

  /** One start transition, from the port reservations `reserved` and the
      sandbox's previous port `port`: install, then derive a port and resolve
      the binary (both are asked for), then record the port, derive the server
      and launch it. The first failure ends the transition; nothing it
      reserved is given back. */
  function StartTransition(config: Config, reserved: set<int>, port: Option<int>, r: StartReplies): StartStep
    requires Ports.ProbeContract(r.probe)
  {
    var install := InstallStep(r.install);
    if install.outcome.Fail? then StartStep(install.outcome, reserved, port, None, install.trace)
    else
      var derived := Ports.Derive(reserved, r.probe, Ports.BasePort(config.basePort)).outcome;
      var reserved' := Ports.Reserve(reserved, derived);
      var trace := install.trace + [DerivePortCall(config.basePort), ResolveBinary];
      if derived.Err? then StartStep(Fail(derived.error), reserved', port, None, trace)
      else if r.binary.Err? then StartStep(Fail(r.binary.error), reserved', port, None, trace)
      else
        var t := DeriveTopology(config.host, Some(derived.value), r.downloadDir, r.binary.value, r.purge, r.discover);
        if t.result.Err? then StartStep(Fail(t.result.error), reserved', Some(derived.value), None, trace + t.trace)
        else if r.serverStart.Fail? then
          StartStep(r.serverStart, reserved', Some(derived.value), None, trace + t.trace + [StartServer])
        else
          StartStep(Pass, reserved', Some(derived.value), Some(t.result.value), trace + t.trace + [StartServer])
  }

  /** A start succeeds exactly when every collaborator does. */
  lemma StartSucceedsIff(config: Config, reserved: set<int>, port: Option<int>, r: StartReplies)
    requires Ports.ProbeContract(r.probe)
    ensures StartTransition(config, reserved, port, r).outcome.Pass? <==>
      && InstallStep(r.install).outcome.Pass?
      && Ports.Derive(reserved, r.probe, Ports.BasePort(config.basePort)).outcome.Ok?
      && r.binary.Ok? && r.purge.Pass? && r.discover.Pass? && r.serverStart.Pass?
  {
  }

  /** A successful start runs a server on a port that no one had reserved, at
      or above the configured base, now reserved; the server binds the
      configured host (loopback by default) and keeps its data in the
      per-port directory. Installing came first, then deriving the port and
      the binary, then preparing the server, and launching it last. */
  lemma StartSuccess(config: Config, reserved: set<int>, port: Option<int>, r: StartReplies)
    requires Ports.ProbeContract(r.probe)
    requires StartTransition(config, reserved, port, r).outcome.Pass?
    ensures var s := StartTransition(config, reserved, port, r);
      && s.port.Some? && s.topology.Some?
      && s.port.value !in reserved
      && s.port.value >= Ports.BasePort(config.basePort)
      && s.reserved == reserved + {s.port.value}
      && s.topology.value.binary == r.binary.value
      && s.topology.value.options ==
           ServerOptions(OrDefault(config.host, DefaultHost), s.port.value, DbPath(r.downloadDir, s.port.value))
      && s.trace == InstallStep(r.install).trace
           + [DerivePortCall(config.basePort), ResolveBinary, PurgeServer, DiscoverServer, StartServer]
  {
    Ports.DeriveFresh(reserved, r.probe, Ports.BasePort(config.basePort));
  }

  /** A failed start leaves no server, passes on the failing collaborator's
      error and gives back no reservation. */
  lemma StartFailure(config: Config, reserved: set<int>, port: Option<int>, r: StartReplies)
    requires Ports.ProbeContract(r.probe)
    requires StartTransition(config, reserved, port, r).outcome.Fail?
    ensures var s := StartTransition(config, reserved, port, r);
      && s.topology.None?
      && reserved <= s.reserved
    ensures var s := StartTransition(config, reserved, port, r);
      var install := InstallStep(r.install);
      install.outcome.Fail? ==>
        && s.outcome == install.outcome && s.trace == install.trace
        && DerivePortCall(config.basePort) !in s.trace
        && s.reserved == reserved && s.port == port
    ensures var s := StartTransition(config, reserved, port, r);
      var d := Ports.Derive(reserved, r.probe, Ports.BasePort(config.basePort)).outcome;
      InstallStep(r.install).outcome.Pass? && d.Err? ==>
        && s.outcome == Fail(d.error)
        && s.reserved == reserved && s.port == port && PurgeServer !in s.trace
    ensures var s := StartTransition(config, reserved, port, r);
      var d := Ports.Derive(reserved, r.probe, Ports.BasePort(config.basePort)).outcome;
      InstallStep(r.install).outcome.Pass? && d.Ok? && r.binary.Err? ==>
        && s.outcome == Fail(r.binary.error)
        && s.reserved == reserved + {d.value} && s.port == port && PurgeServer !in s.trace
    ensures var s := StartTransition(config, reserved, port, r);
      var d := Ports.Derive(reserved, r.probe, Ports.BasePort(config.basePort)).outcome;
      InstallStep(r.install).outcome.Pass? && d.Ok? && r.binary.Ok? ==>
        && s.reserved == reserved + {d.value} && s.port == Some(d.value)
        && (r.purge.Fail? ==> s.outcome == r.purge && DiscoverServer !in s.trace)
        && (r.purge.Pass? && r.discover.Fail? ==> s.outcome == r.discover && StartServer !in s.trace)
        && (r.purge.Pass? && r.discover.Pass? ==> s.outcome == r.serverStart)
  {
  }

  // ---------------------------------------------------------------------------
  // The stop transition

  /** The collaborators' replies during one stop transition: how closing each
      client goes, then stopping and purging the server. */
  datatype StopReplies = StopReplies(close: Client -> Outcome, serverStop: Outcome, serverPurge: Outcome)

  /** The state a stop transition ends in; `reset` says whether the sandbox
      was reset to its initial state. */
  datatype StopStep = StopStep(
    outcome: Outcome,
    reserved: set<int>,
    clients: seq<Client>,
    reset: bool,
    trace: seq<Effect>)

  function CloseReplies(clients: seq<Client>, close: Client -> Outcome): seq<Outcome> {
    seq(|clients|, i requires 0 <= i < |clients| => close(clients[i]))
  }

  function Closes(clients: seq<Client>): (trace: seq<Effect>)
    ensures |trace| == |clients|
    ensures forall i :: 0 <= i < |clients| ==> trace[i] == CloseClient(clients[i])
  {
    seq(|clients|, i requires 0 <= i < |clients| => CloseClient(clients[i]))
  }

  /** One stop transition of a sandbox running on `port` with `clients`:
      close every client, forget them, stop the server, purge it, release the
      port and reset. The first failure ends the transition. */
  function StopTransition(reserved: set<int>, port: int, clients: seq<Client>, r: StopReplies): StopStep {
    var closing := FirstFailure(CloseReplies(clients, r.close));
    var closes := Closes(clients);
    if closing.Fail? then StopStep(closing, reserved, clients, false, closes)
    else if r.serverStop.Fail? then StopStep(r.serverStop, reserved, [], false, closes + [StopServer])
    else if r.serverPurge.Fail? then StopStep(r.serverPurge, reserved, [], false, closes + [StopServer, PurgeServer])
    else StopStep(Pass, reserved - {port}, [], true, closes + [StopServer, PurgeServer, ReleasePort(port)])
  }

  /** A stop succeeds exactly when every collaborator does; it then resets
      the sandbox, having closed every client, then stopped, then purged the
      server, and released its port, that port only and exactly once, last. */
  lemma StopSuccess(reserved: set<int>, port: int, clients: seq<Client>, r: StopReplies)
    ensures var s := StopTransition(reserved, port, clients, r);
      s.outcome.Pass? <==>
        (forall i :: 0 <= i < |clients| ==> r.close(clients[i]).Pass?) && r.serverStop.Pass? && r.serverPurge.Pass?
    ensures var s := StopTransition(reserved, port, clients, r);
      s.outcome.Pass? ==>
        && s.reset && s.clients == []
        && s.reserved == reserved - {port}
        && s.trace == Closes(clients) + [StopServer, PurgeServer, ReleasePort(port)]
        && (forall i :: 0 <= i < |s.trace| && s.trace[i].ReleasePort? ==> i == |s.trace| - 1)
        && s.trace[|s.trace| - 1] == ReleasePort(port)
  {
    var replies := CloseReplies(clients, r.close);
    assert forall i :: 0 <= i < |clients| ==> replies[i] == r.close(clients[i]);
  }

  /** A failed stop leaves the sandbox running with its port still reserved.
      Every client was asked to close before anything else; when a close
      failed, the clients are kept, otherwise they are forgotten. */
  lemma StopFailure(reserved: set<int>, port: int, clients: seq<Client>, r: StopReplies)
    requires StopTransition(reserved, port, clients, r).outcome.Fail?
    ensures var s := StopTransition(reserved, port, clients, r);
      && !s.reset
      && s.reserved == reserved
      && s.trace[..|clients|] == Closes(clients)
      && ReleasePort(port) !in s.trace
      && (FirstFailure(CloseReplies(clients, r.close)).Fail? ==> s.clients == clients && s.trace == Closes(clients))
      && (FirstFailure(CloseReplies(clients, r.close)).Pass? ==> s.clients == [] && s.trace[|clients|] == StopServer)
    ensures var s := StopTransition(reserved, port, clients, r);
      && ((exists i :: 0 <= i < |clients| && r.close(clients[i]).Fail?) ==>
            exists i :: 0 <= i < |clients| && s.outcome == r.close(clients[i])
              && forall j :: 0 <= j < i ==> r.close(clients[j]).Pass?)
      && ((forall i :: 0 <= i < |clients| ==> r.close(clients[i]).Pass?) && r.serverStop.Fail? ==>
            s.outcome == r.serverStop && PurgeServer !in s.trace)
      && ((forall i :: 0 <= i < |clients| ==> r.close(clients[i]).Pass?) && r.serverStop.Pass? ==>
            s.outcome == r.serverPurge)
  {
    var s := StopTransition(reserved, port, clients, r);
    var replies := CloseReplies(clients, r.close);
    assert forall i :: 0 <= i < |clients| ==> replies[i] == r.close(clients[i]);
    assert s.trace[..|clients|] == Closes(clients);
  }

  // ---------------------------------------------------------------------------
  // The sandbox itself

  class Sandbox {
    /** The configuration the sandbox was constructed with; never changed. */
    const config: Config
    /** The process-wide port registry. */
    const registry: Ports.PortRegistry

    var isStarting: bool
    var isStopping: bool
    var port: Option<int>
    var topology: Option<Topology>
    var clients: seq<Client>
    /** Callers waiting on the start or stop transition in flight. */
    var startWaiters: seq<Caller>
    var stopWaiters: seq<Caller>

    /** The invariant every operation keeps. */
    ghost predicate Valid()
      reads this
    {
      && (topology.Some? ==> port.Some?)
      && (clients != [] ==> topology.Some?)
      && (isStarting ==> topology.None?)
      && (isStopping ==> topology.Some?)
      && (!isStarting ==> startWaiters == [])
      && (!isStopping ==> stopWaiters == [])
    }

    /** Running means a server is recorded. A running sandbox has a port and
        is not starting; one that is not running holds no client and is not
        stopping. */
    predicate IsRunning(): (running: bool)
      reads this
      ensures running <==> topology.Some?
      ensures Valid() && running ==> port.Some? && !isStarting
      ensures Valid() && !running ==> clients == [] && !isStopping
    {
      topology.Some?
    }

    /** The guard of every data-plane operation. */
    function AssertRunning(): (r: Outcome)
      reads this
      ensures r.Pass? <==> topology.Some?
      ensures r.Fail? ==> r.error == NotRunning
    {
      if IsRunning() then Pass else Fail(NotRunning)
    }

    /** Where to connect to the running sandbox; fails when it is not running. */
    function Options(): (r: Result<ConnectionView>)
      reads this
      requires Valid()
      ensures r.Ok? <==> IsRunning()
      ensures r.Err? ==> r.error == NotRunning
      ensures r.Ok? ==> r.value == ConnectionFor(config, port.value)
    {
      if IsRunning() then Ok(ConnectionFor(config, port.value)) else Err(NotRunning)
    }

    constructor (config: Config, registry: Ports.PortRegistry)
      ensures this.config == config && this.registry == registry
      ensures Valid() && !IsRunning()
      ensures !isStarting && !isStopping && port.None? && clients == []
    {
      this.config := config;
      this.registry := registry;
      isStarting, isStopping := false, false;
      port, topology := None, None;
      clients := [];
      startWaiters, stopWaiters := [], [];
    }

    /** Forget everything about the last run. */
    method Reset()
      modifies this
      ensures Valid() && !IsRunning()
      ensures !isStarting && !isStopping && port.None? && clients == []
    {
      isStarting, isStopping := false, false;
      port, topology := None, None;
      clients := [];
      startWaiters, stopWaiters := [], [];
    }

    /** Ask for a start. While a start is in flight the caller waits for its
        outcome and nothing else happens; a running sandbox settles at once;
        otherwise a start transition begins. */
    method Start(caller: Caller) returns (a: Admission)
      requires Valid()
      modifies this`isStarting, this`startWaiters
      ensures Valid()
      ensures old(isStarting) ==> a == Joined && isStarting && startWaiters == old(startWaiters) + [caller]
      ensures !old(isStarting) && IsRunning() ==> a == Settled(Pass) && !isStarting && startWaiters == []
      ensures !old(isStarting) && !IsRunning() ==> a == Began && isStarting && startWaiters == []
    {
      if isStarting {
        startWaiters := startWaiters + [caller];
        a := Joined;
      } else if IsRunning() {
        a := Settled(Pass);
      } else {
        isStarting := true;
        a := Began;
      }
    }

    /** Run the start transition in flight to its end and tell every waiter
        its outcome, which is also what the caller that began it receives. */
    method CompleteStart(r: StartReplies) returns (outcome: Outcome, notices: seq<Notice>, trace: seq<Effect>)
      requires Valid() && isStarting && Ports.ProbeContract(r.probe)
      modifies this, registry
      ensures Valid()
      ensures var s := StartTransition(config, old(registry.reserved), old(port), r);
        && outcome == s.outcome && trace == s.trace
        && registry.reserved == s.reserved && port == s.port && topology == s.topology
      ensures IsRunning() <==> outcome.Pass?
      ensures !isStarting && startWaiters == [] && notices == Broadcast(old(startWaiters), outcome)
      ensures clients == [] && isStopping == old(isStopping) && stopWaiters == old(stopWaiters)
    {
      var install := InstallStep(r.install);
      trace := install.trace;
      if install.outcome.Fail? {
        outcome := install.outcome;
      } else {
        var derived := registry.DerivePort(config.basePort, r.probe);
        trace := trace + [DerivePortCall(config.basePort), ResolveBinary];
        if derived.Err? {
          outcome := Fail(derived.error);
        } else if r.binary.Err? {
          outcome := Fail(r.binary.error);
        } else {
          port := Some(derived.value);
          var t := DeriveTopology(config.host, port, r.downloadDir, r.binary.value, r.purge, r.discover);
          trace := trace + t.trace;
          if t.result.Err? {
            outcome := Fail(t.result.error);
          } else {
            trace := trace + [StartServer];
            if r.serverStart.Fail? {
              outcome := r.serverStart;
            } else {
              topology := Some(t.result.value);
              outcome := Pass;
            }
          }
        }
      }
      // finish: clear the flag and tell the waiters
      isStarting := false;
      notices := Broadcast(startWaiters, outcome);
      startWaiters := [];
    }

    /** Ask for a stop. While a stop is in flight the caller waits for its
        outcome and nothing else happens; a sandbox that is not running
        settles at once; otherwise a stop transition begins. */
    method Stop(caller: Caller) returns (a: Admission)
      requires Valid()
      modifies this`isStopping, this`stopWaiters
      ensures Valid()
      ensures old(isStopping) ==> a == Joined && isStopping && stopWaiters == old(stopWaiters) + [caller]
      ensures !old(isStopping) && !IsRunning() ==> a == Settled(Pass) && !isStopping && stopWaiters == []
      ensures !old(isStopping) && IsRunning() ==> a == Began && isStopping && stopWaiters == []
    {
      if isStopping {
        stopWaiters := stopWaiters + [caller];
        a := Joined;
      } else if !IsRunning() {
        a := Settled(Pass);
      } else {
        isStopping := true;
        a := Began;
      }
    }

    /** Run the stop transition in flight to its end and tell every waiter
        its outcome. After a failure the sandbox is still running. */
    method CompleteStop(r: StopReplies) returns (outcome: Outcome, notices: seq<Notice>, trace: seq<Effect>)
      requires Valid() && isStopping
      modifies this, registry
      ensures Valid()
      ensures var s := StopTransition(old(registry.reserved), old(port).value, old(clients), r);
        && outcome == s.outcome && trace == s.trace && registry.reserved == s.reserved
        && clients == s.clients
        && (s.reset ==> port.None? && topology.None? && !isStarting && startWaiters == [])
        && (!s.reset ==> port == old(port) && topology == old(topology) && isStarting == old(isStarting)
                         && startWaiters == old(startWaiters))
      ensures IsRunning() <==> outcome.Fail?
      ensures !isStopping && stopWaiters == [] && notices == Broadcast(old(stopWaiters), outcome)
    {
      var waiters := stopWaiters;
      var closing := FirstFailure(CloseReplies(clients, r.close));
      trace := Closes(clients);
      if closing.Fail? {
        outcome := closing;
      } else {
        // they are all closed; do not close them again
        clients := [];
        trace := trace + [StopServer];
        if r.serverStop.Fail? {
          outcome := r.serverStop;
        } else {
          trace := trace + [PurgeServer];
          if r.serverPurge.Fail? {
            outcome := r.serverPurge;
          } else {
            var p := port.value;
            var hadReserved := registry.ReleasePort(p);
            trace := trace + [ReleasePort(p)];
            Reset();
            outcome := Pass;
          }
        }
      }
      // finish: clear the flag and tell the waiters
      isStopping := false;
      notices := Broadcast(waiters, outcome);
      stopWaiters := [];
    }

    /** Connect a new client to the running sandbox and keep it, at the end
        of the list, for closing on stop; `connect` is the client's reply. */
    method NewClient(connect: Result<Client>) returns (r: Result<Client>, trace: seq<Effect>)
      requires Valid()
      modifies this`clients
      ensures Valid()
      ensures !IsRunning() ==> r == Err(NotRunning) && trace == [] && clients == old(clients)
      ensures IsRunning() ==> r == connect && trace == [Connect(Options().value.url)]
      ensures IsRunning() && connect.Ok? ==> clients == old(clients) + [connect.value]
      ensures connect.Err? ==> clients == old(clients)
    {
      var running := AssertRunning();
      if running.Fail? {
        return Err(running.error), [];
      }
      var url := Options().value.url;
      trace := [Connect(url)];
      r := connect;
      if connect.Ok? {
        clients := clients + [connect.value];
      }
    }

    /** The first client handed out, or a new one when there is none yet. */
    method Client(connect: Result<Client>) returns (r: Result<Client>, trace: seq<Effect>)
      requires Valid()
      modifies this`clients
      ensures Valid()
      ensures !IsRunning() ==> r == Err(NotRunning) && trace == [] && clients == old(clients)
      ensures IsRunning() && old(clients) != [] ==> r == Ok(old(clients)[0]) && trace == [] && clients == old(clients)
      ensures IsRunning() && old(clients) == [] ==>
        && r == connect && trace == [Connect(Options().value.url)]
        && clients == (if connect.Ok? then [connect.value] else [])
    {
      var running := AssertRunning();
      if running.Fail? {
        return Err(running.error), [];
      }
      if clients != [] {
        return Ok(clients[0]), [];
      }
      r, trace := NewClient(connect);
    }

    /** Whether any collection of the sandbox's database holds a document;
        `listing` is the reply listing the collections, with their counts. */
    method HasDocuments(connect: Result<Client>, listing: Result<seq<Result<int>>>)
      returns (r: Result<bool>, trace: seq<Effect>)
      requires Valid()
      modifies this`clients
      ensures Valid()
      ensures !IsRunning() ==> r == Err(NotRunning) && trace == [] && clients == old(clients)
      ensures IsRunning() ==> clients == (if old(clients) == [] && connect.Ok? then [connect.value] else old(clients))
      ensures IsRunning() && old(clients) == [] && connect.Err? ==>
        r == Err(connect.error) && trace == [Connect(Options().value.url)]
      ensures IsRunning() && (old(clients) != [] || connect.Ok?) && listing.Ok? && r.Err? ==>
        exists i :: 0 <= i < |listing.value| && listing.value[i] == Err(r.error)
          && forall j :: 0 <= j < i ==> listing.value[j].Ok?
      ensures IsRunning() && (old(clients) != [] || connect.Ok?) ==>
        && r == DocumentsAnswer(listing)
        && trace == (if old(clients) != [] then [] else [Connect(Options().value.url)])
                    + [ListCollections(Options().value.database)]
                    + (if listing.Ok? then Counts(|listing.value|) else [])
    {
      var running := AssertRunning();
      if running.Fail? {
        return Err(running.error), [];
      }
      var client;
      client, trace := Client(connect);
      if client.Err? {
        return Err(client.error), trace;
      }
      trace := trace + [ListCollections(Options().value.database)];
      if listing.Ok? {
        trace := trace + Counts(|listing.value|);
      }
      r := DocumentsAnswer(listing);
    }

    /** Delete every document of every collection of the sandbox's database;
        `listing` is the reply listing the collections, with each deletion's
        reply. */
    method PurgeDocuments(connect: Result<Client>, listing: Result<seq<Outcome>>)
      returns (r: Outcome, trace: seq<Effect>)
      requires Valid()
      modifies this`clients
      ensures Valid()
      ensures !IsRunning() ==> r == Fail(NotRunning) && trace == [] && clients == old(clients)
      ensures IsRunning() ==> clients == (if old(clients) == [] && connect.Ok? then [connect.value] else old(clients))
      ensures IsRunning() && old(clients) == [] && connect.Err? ==>
        r == Fail(connect.error) && trace == [Connect(Options().value.url)]
      ensures IsRunning() && (old(clients) != [] || connect.Ok?) && listing.Ok? && r.Fail? ==>
        exists i :: 0 <= i < |listing.value| && listing.value[i] == r
          && forall j :: 0 <= j < i ==> listing.value[j].Pass?
      ensures IsRunning() && (old(clients) != [] || connect.Ok?) ==>
        && (r.Pass? <==> listing.Ok? && forall i :: 0 <= i < |listing.value| ==> listing.value[i].Pass?)
        && (listing.Err? ==> r == Fail(listing.error))
        && trace == (if old(clients) != [] then [] else [Connect(Options().value.url)])
                    + [ListCollections(Options().value.database)]
                    + (if listing.Ok? then Deletes(|listing.value|) else [])
    {
      var running := AssertRunning();
      if running.Fail? {
        return running, [];
      }
      var client;
      client, trace := Client(connect);
      assert clients == (if old(clients) == [] && connect.Ok? then [connect.value] else old(clients));
      if client.Err? {
        return Fail(client.error), trace;
      }
      trace := trace + [ListCollections(Options().value.database)];
      if listing.Err? {
        return Fail(listing.error), trace;
      }
      trace := trace + Deletes(|listing.value|);
      r := FirstFailure(listing.value);
      assert r.Fail? ==>
        exists i :: 0 <= i < |listing.value| && listing.value[i] == r
          && forall j :: 0 <= j < i ==> listing.value[j].Pass?;
    }
  }
}
