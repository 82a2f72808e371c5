/** The test-framework lifecycle guard layered on a sandbox: four
    checkpoints a test runner calls around a suite. It trusts the sandbox
    only once it was found empty, purges it after every case only while
    trusted, and keeps it up for a minimum time before stopping it. The
    sandbox's replies are parameters; each checkpoint returns the sandbox
    operations it called, in order. */
module Lifecycles {
  import opened Outcomes
  import Sandboxes

  /** How long a test case may take while the server is first downloaded. */
  const DownloadTimeoutMs := 90000

  /** A test-framework context; `hasTimeout` says whether it offers a
      `timeout` function (a Mocha context does). */
  datatype TestContext = TestContext(hasTimeout: bool)

  /** The sandbox operations a checkpoint calls. */
  datatype SandboxCall = CallStart | CallHasDocuments | CallPurgeDocuments | CallStop

  /** A context passed to beforeAll wins over the one given at construction. */
  function ChosenContext(passed: Option<TestContext>, own: Option<TestContext>): (c: Option<TestContext>)
    ensures passed.Some? ==> c == passed
    ensures passed.None? ==> c == own
  {
    if passed.Some? then passed else own
  }

  /** The timeout beforeAll asks of the chosen context, if it can be asked. */
  function TimeoutExtension(context: Option<TestContext>): (ms: Option<int>)
    ensures ms.Some? <==> context.Some? && context.value.hasTimeout
    ensures ms.Some? ==> ms.value == DownloadTimeoutMs
  {
    if context.Some? && context.value.hasTimeout then Some(DownloadTimeoutMs) else None
  }

  /** The uptime floor: the time at which a sandbox started at
      `startedAtMs` has been up for `minimumUptimeMs` (missing means 0). */
  function UptimeFloor(startedAtMs: int, minimumUptimeMs: Option<int>): int {
    startedAtMs + (if minimumUptimeMs.Some? then minimumUptimeMs.value else 0)
  }

  /** How long afterAll waits before stopping: never negative, zero exactly
      when the floor has been reached, and otherwise just long enough to
      reach it. */
  function UptimeDelay(startedAtMs: int, minimumUptimeMs: Option<int>, nowMs: int): (delay: int)
    ensures delay >= 0
    ensures delay == 0 <==> nowMs >= UptimeFloor(startedAtMs, minimumUptimeMs)
    ensures delay > 0 ==> nowMs + delay == UptimeFloor(startedAtMs, minimumUptimeMs)
    ensures nowMs + delay >= UptimeFloor(startedAtMs, minimumUptimeMs)
  {
    var unwaited := UptimeFloor(startedAtMs, minimumUptimeMs) - nowMs;
    if unwaited > 0 then unwaited else 0
  }

  /** Called `elapsed` ms after the start with a minimum uptime of `minimum`
      ms that has not yet passed, afterAll waits out the rest of it. */
  lemma WaitsOutMinimumUptime(startedAtMs: int, minimum: int, elapsed: int)
    requires 0 <= elapsed < minimum
    ensures UptimeDelay(startedAtMs, Some(minimum), startedAtMs + elapsed) == minimum - elapsed
  {
  }

  /** afterAll as written reads the minimum uptime from the sandbox's
      connection options: those exist only while the sandbox runs (otherwise
      reading them fails before anything is stopped) and have no minimum
      uptime, so the floor is the start time itself. */
  function AfterAllDelayAsWritten(sandboxRunning: bool, startedAtMs: int, nowMs: int): (r: Result<int>)
    ensures !sandboxRunning <==> r == Err(NotRunning)
    ensures r.Ok? ==> r.value == UptimeDelay(startedAtMs, None, nowMs)
  {
    if !sandboxRunning then Err(NotRunning) else Ok(UptimeDelay(startedAtMs, None, nowMs))
  }

  /** A sandbox configured with a 50 ms minimum uptime, torn down at the
      moment it started: as written, afterAll does not wait at all while it
      runs and fails without stopping it when it does not; the corrected
      delay waits the 50 ms. */
  lemma AsWrittenIgnoresMinimumUptime()
    ensures AfterAllDelayAsWritten(true, 0, 0) == Ok(0)
    ensures AfterAllDelayAsWritten(false, 0, 0) == Err(NotRunning)
    ensures UptimeDelay(0, Some(50), 0) == 50
  {
  }

  class Lifecycle {
    const sandbox: Sandboxes.Sandbox
    const context: Option<TestContext>
    /** Set once the sandbox has started and was found empty. */
    var isSafe: bool
    var startedAtMs: int

    constructor (sandbox: Sandboxes.Sandbox, context: Option<TestContext>)
      ensures this.sandbox == sandbox && this.context == context
      ensures !isSafe && startedAtMs == 0
    {
      this.sandbox := sandbox;
      this.context := context;
      isSafe := false;
      startedAtMs := 0;
    }

    /** Start of the suite: ask the chosen context for a long timeout, start
        the sandbox (`started` is its reply), check it holds no document
        (`hasDocuments` is the reply) and only then trust it, recording the
        time `nowMs`. A sandbox holding documents is refused: it may be a
        real database. */
    method BeforeAll(passed: Option<TestContext>, started: Outcome, hasDocuments: Result<bool>, nowMs: int)
      returns (r: Outcome, timeoutMs: Option<int>, calls: seq<SandboxCall>)
      modifies this
      ensures timeoutMs == TimeoutExtension(ChosenContext(passed, context))
      ensures started.Fail? ==> r == started && calls == [CallStart]
      ensures started.Pass? ==> calls == [CallStart, CallHasDocuments]
      ensures started.Pass? && hasDocuments.Err? ==> r == Fail(hasDocuments.error)
      ensures started.Pass? && hasDocuments == Ok(true) ==> r == Fail(ContainsDocuments)
      ensures r.Pass? <==> started.Pass? && hasDocuments == Ok(false)
      ensures isSafe <==> r.Pass?
      ensures startedAtMs == (if r.Pass? then nowMs else 0)
    {
      isSafe := false;
      startedAtMs := 0;
      timeoutMs := TimeoutExtension(ChosenContext(passed, context));
      calls := [CallStart];
      if started.Fail? {
        return started, timeoutMs, calls;
      }
      calls := calls + [CallHasDocuments];
      if hasDocuments.Err? {
        return Fail(hasDocuments.error), timeoutMs, calls;
      }
      if hasDocuments.value {
        return Fail(ContainsDocuments), timeoutMs, calls;
      }
      isSafe := true;
      startedAtMs := nowMs;
      r := Pass;
    }

    /** Start of each case: nothing to do. */
    method BeforeEach() returns (r: Outcome, calls: seq<SandboxCall>)
      ensures r == Pass && calls == []
    {
      r, calls := Pass, [];
    }

    /** End of each case: purge every document, but only from a trusted
        sandbox (`purged` is the purge's reply). */
    method AfterEach(purged: Outcome) returns (r: Outcome, calls: seq<SandboxCall>)
      ensures !isSafe ==> r == Pass && calls == []
      ensures isSafe ==> r == purged && calls == [CallPurgeDocuments]
    {
      if !isSafe {
        return Pass, [];
      }
      r, calls := purged, [CallPurgeDocuments];
    }

    /** End of the suite at time `nowMs`: wait out the configured minimum
        uptime, then stop the sandbox whether or not it was trusted
        (`stopped` is the stop's reply). */
    method AfterAll(nowMs: int, stopped: Outcome) returns (r: Outcome, delayMs: int, calls: seq<SandboxCall>)
      ensures delayMs == UptimeDelay(startedAtMs, sandbox.config.minimumUptimeMs, nowMs)
      ensures calls == [CallStop]
      ensures r == stopped
    {
      delayMs := UptimeDelay(startedAtMs, sandbox.config.minimumUptimeMs, nowMs);
      calls := [CallStop];
      r := stopped;
    }
  }
}
