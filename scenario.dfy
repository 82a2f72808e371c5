/** A whole sandbox run driven through the classes: configure a base port,
    start, stop, and derive again from the same base. */
module Scenarios {
  import opened Outcomes
  import opened Configuration
  import Ports
  import opened Sandboxes

  /** With base port 5 and collaborators that all succeed, a fresh sandbox
      starts on a port at or above 5 and runs; once stopped it no longer
      runs, and the port it released is the one the next derivation from 5
      hands out again. */
  method StartStopRederive(r: StartReplies, s: StopReplies)
    returns (port: int, startedRunning: bool, stopped: Outcome, stillRunning: bool, again: Result<int>)
    requires Ports.ProbeContract(r.probe) && r.probe(5).Ok?
    requires InstallStep(r.install).outcome.Pass? && r.binary.Ok? && r.purge.Pass? && r.discover.Pass? && r.serverStart.Pass?
    requires s.serverStop.Pass? && s.serverPurge.Pass?
    ensures port >= 5 && startedRunning
    ensures stopped == Pass && !stillRunning
    ensures again == Ok(port)
  {
    var config := Config(None, Some(5), None, Some(0), None, None);
    var registry := new Ports.PortRegistry();
    var sandbox := new Sandbox(config, registry);

    var admitted := sandbox.Start(0);
    var started, startNotices, startTrace := sandbox.CompleteStart(r);
    StartSucceedsIff(config, {}, None, r);
    StartSuccess(config, {}, None, r);
    port := sandbox.port.value;
    startedRunning := sandbox.IsRunning();

    var stopping := sandbox.Stop(1);
    var stopNotices, stopTrace;
    stopped, stopNotices, stopTrace := sandbox.CompleteStop(s);
    stillRunning := sandbox.IsRunning();

    again := registry.DerivePort(Some(5), r.probe);
  }
}
