/** The process-wide registry of reserved ports: a port found free on the host
    is reserved before it is used, so that two sandboxes of one process never
    race onto the same port, and it is released when its sandbox stops. */
module Ports {
  import opened Outcomes

  /** The standard MongoDB port, where probing starts by default. */
  const DefaultBasePort := 27017
  /** The highest port number the probe can answer. */
  const HighestPort := 65535

  /** The host's free-port probe: asked for a free port at or above `start`,
      it answers one, or fails. */
  type Probe = int -> Result<int>

  ghost predicate ProbeContract(probe: Probe) {
    forall start :: probe(start).Ok? ==>
      start <= probe(start).value && 0 <= probe(start).value <= HighestPort
  }

  /** JavaScript's `basePort || DEFAULT_BASE_PORT`. */
  function BasePort(basePort: Option<int>): (b: int)
    ensures basePort.None? || basePort.value == 0 ==> b == DefaultBasePort
    ensures basePort.Some? && basePort.value != 0 ==> b == basePort.value
  {
    if basePort.Some? && basePort.value != 0 then basePort.value else DefaultBasePort
  }

  /** A derivation: the starts of the probes issued, in order, and its result. */
  datatype Derivation = Derivation(outcome: Result<int>, probes: seq<int>)

  /** What deriving a port from `start` does against the reservations
      `reserved`: probe, and on a collision with a reserved port probe again
      one past it. */
  function Derive(reserved: set<int>, probe: Probe, start: int): Derivation
    requires ProbeContract(probe)
    decreases HighestPort + 1 - start
  {
    match probe(start)
    case Err(e) => Derivation(Err(e), [start])
    case Ok(p) =>
      if p in reserved then
        var rest := Derive(reserved, probe, p + 1);
        Derivation(rest.outcome, [start] + rest.probes)
      else
        Derivation(Ok(p), [start])
  }

  /** The reservations after a derivation with this outcome. */
  function Reserve(reserved: set<int>, outcome: Result<int>): set<int> {
    if outcome.Ok? then reserved + {outcome.value} else reserved
  }

  /** A derived port was free of reservations, lies at or above the start
      and is a real port number. */
  lemma {:induction false} DeriveFresh(reserved: set<int>, probe: Probe, start: int)
    requires ProbeContract(probe)
    ensures var d := Derive(reserved, probe, start);
      d.outcome.Ok? ==>
        d.outcome.value !in reserved && start <= d.outcome.value && 0 <= d.outcome.value <= HighestPort
    decreases HighestPort + 1 - start
  {
    var answer := probe(start);
    if answer.Ok? && answer.value in reserved {
      DeriveFresh(reserved, probe, answer.value + 1);
    }
  }

  /** The probes of a derivation: the first starts at `start`; each one that
      is followed by another found a reserved port p, and the next starts at
      p + 1; the outcome is the last probe's answer, passed on unchanged, so a
      probe failure propagates as it is and a success is never reserved. */
  lemma {:induction false} DeriveProbes(reserved: set<int>, probe: Probe, start: int)
    requires ProbeContract(probe)
    ensures var d := Derive(reserved, probe, start);
      && |d.probes| >= 1
      && d.probes[0] == start
      && (forall i :: 0 <= i < |d.probes| - 1 ==>
            probe(d.probes[i]).Ok? && probe(d.probes[i]).value in reserved
            && d.probes[i + 1] == probe(d.probes[i]).value + 1)
      && d.outcome == probe(d.probes[|d.probes| - 1])
      && (d.outcome.Ok? ==> d.outcome.value !in reserved)
    decreases HighestPort + 1 - start
  {
    var answer := probe(start);
    if answer.Ok? && answer.value in reserved {
      var rest := Derive(reserved, probe, answer.value + 1);
      DeriveProbes(reserved, probe, answer.value + 1);
      var d := Derive(reserved, probe, start);
      assert d.probes == [start] + rest.probes;
      forall i | 0 <= i < |d.probes| - 1
        ensures probe(d.probes[i]).Ok? && probe(d.probes[i]).value in reserved
        ensures d.probes[i + 1] == probe(d.probes[i]).value + 1
      {
        if i > 0 {
          assert d.probes[i] == rest.probes[i - 1];
        }
      }
    }
  }

  /** Releasing a derived port makes the same derivation find it again. */
  lemma RederiveAfterRelease(reserved: set<int>, probe: Probe, start: int)
    requires ProbeContract(probe)
    requires Derive(reserved, probe, start).outcome.Ok?
    ensures var p := Derive(reserved, probe, start).outcome.value;
      var released := Reserve(reserved, Ok(p)) - {p};
      && p in Reserve(reserved, Ok(p))
      && p !in released
      && Derive(released, probe, start).outcome == Ok(p)
  {
    var p := Derive(reserved, probe, start).outcome.value;
    DeriveFresh(reserved, probe, start);
    assert Reserve(reserved, Ok(p)) - {p} == reserved;
  }

  /** The registry itself: one set of reserved ports, shared by every sandbox
      of the process. */
  class PortRegistry {
    var reserved: set<int>

    constructor ()
      ensures reserved == {}
    {
      reserved := {};
    }

    /** Probe for a free port at or above `basePort` (27017 when missing or
        zero), skip over reserved ones, and reserve the one found. */
    method DerivePort(basePort: Option<int>, probe: Probe) returns (r: Result<int>)
      requires ProbeContract(probe)
      modifies this
      ensures r == Derive(old(reserved), probe, BasePort(basePort)).outcome
      ensures reserved == Reserve(old(reserved), r)
      decreases HighestPort + 1 - BasePort(basePort)
    {
      var answer := probe(BasePort(basePort));
      match answer
      case Err(e) =>
        r := Err(e);
      case Ok(port) =>
        if port in reserved {
          r := DerivePort(Some(port + 1), probe);
        } else {
          reserved := reserved + {port};
          r := Ok(port);
        }
    }

    /** Give a port back; the answer says whether it had been reserved. */
    method ReleasePort(port: int) returns (hadReserved: bool)
      modifies this
      ensures hadReserved == (port in old(reserved))
      ensures reserved == old(reserved) - {port}
    {
      hadReserved := port in reserved;
      if hadReserved {
        reserved := reserved - {port};
      }
    }
  }
}
