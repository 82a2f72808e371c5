/** Failure-carrying values shared by every part of the sandbox model.
    Every collaborator reply and every operation of the sandbox either succeeds
    or fails with one of the errors below; collaborator errors are carried
    through verbatim, never wrapped. */
module Outcomes {

  datatype Option<+T> = None | Some(value: T)

  /** The failures the sandbox raises itself, plus the ones it propagates. */
  datatype Error =
    | NotRunning            // a data-plane operation on a sandbox that is not running
    | PortNotDerived        // topology configuration asked for before a port was derived
    | ContainsDocuments     // the safety check of Lifecycle#beforeAll found data
    | External(message: string)  // installer, probe, server or client failure, passed through

  /** The message each error carries; the sandbox's own messages are fixed strings. */
  function Message(e: Error): (m: string)
    ensures e == NotRunning ==> m == "MongoDB Sandbox is not running"
    ensures e == PortNotDerived ==> m == "MongoDB Sandbox port has not been derived"
    ensures e == ContainsDocuments ==> m == "TestHelper#beforeAll: mock database contains Documents"
    ensures e.External? ==> m == e.message
  {
    match e
    case NotRunning => "MongoDB Sandbox is not running"
    case PortNotDerived => "MongoDB Sandbox port has not been derived"
    case ContainsDocuments => "TestHelper#beforeAll: mock database contains Documents"
    case External(message) => message
  }

  /** A value-carrying reply: a resolved promise or a rejected one. */
  datatype Result<+T> = Ok(value: T) | Err(error: Error)

  /** A reply that carries no value. */
  datatype Outcome = Pass | Fail(error: Error)
}
