/** The monitor's error kinds (the three error constructors at the top of
    lib/rabbitmq_availability_monitor.js, plus any other thrown error), the
    message each prints and the exit code each catch site turns it into. */
module Errors {
  import opened Wrappers

  datatype MonitorError =
    | InvalidParametersNumber
    | InvalidMetricState
    | ConnectionOrAuthentication
      /** Any other thrown error, carrying its own message and no `code` field. */
    | Unexpected(message: string)
  {
    /** The `message` the error carries and the catch sites print: a
        sentence ending in a full stop for the three monitor errors, the
        error's own message otherwise. */
    function Message(): (m: string)
      ensures !Unexpected? ==> |m| > 0 && m[|m| - 1] == '.'
      ensures Unexpected? ==> m == message
    {
      match this
      case InvalidParametersNumber => "Wrong number of parameters."
      case InvalidMetricState => "Invalid value in metric state."
      case ConnectionOrAuthentication => "Connection closed unexpectedly or invalid authentication."
      case Unexpected(m) => m
    }

    /** The `code` field set by the three error constructors; a generic
        error has none. No code is 0 or 1. */
    function Code(): (c: Option<int>)
      ensures c.Some? <==> !Unexpected?
      ensures c.Some? ==> c.value != 0 && c.value != 1
      ensures ConnectionOrAuthentication? ==> c == Some(24)
    {
      match this
      case InvalidParametersNumber => Some(3)
      case InvalidMetricState => Some(9)
      case ConnectionOrAuthentication => Some(24)
      case Unexpected(_) => None
    }
  }

  /** The exit status each error kind stands for: its own code for the three
      monitor errors, 1 for anything else. None of them is 0, the status of a
      run that measured the broker. */
  function ExitCode(e: MonitorError): (code: int)
    ensures code != 0
    ensures code == 1 <==> e.Unexpected?
    ensures e.Code().Some? ==> code == e.Code().value
  {
    if e.Code().Some? then e.Code().value else 1
  }

  /** Distinct error kinds exit with distinct codes, so a caller can tell them apart. */
  lemma ExitCodeDistinguishesKinds(a: MonitorError, b: MonitorError)
    requires ExitCode(a) == ExitCode(b)
    ensures a == b || (a.Unexpected? && b.Unexpected?)
  {
  }

  /** The top-level catch around the input handling: the two input errors exit
      with their own codes, everything else with 1. */
  function DispatchExitCode(e: MonitorError): (code: int)
    ensures e.InvalidParametersNumber? || e.InvalidMetricState? ==> code == ExitCode(e)
    ensures code == 1 <==> !(e.InvalidParametersNumber? || e.InvalidMetricState?)
  {
    match e
    case InvalidParametersNumber => e.Code().value
    case InvalidMetricState => e.Code().value
    case _ => 1
  }

  /** `errorHandler`: a connection-or-authentication error exits with its own
      code, everything else with 1. */
  function ErrorHandlerExitCode(e: MonitorError): (code: int)
    ensures e.ConnectionOrAuthentication? ==> code == ExitCode(e)
    ensures code == 1 <==> !e.ConnectionOrAuthentication?
  {
    if e.ConnectionOrAuthentication? then e.Code().value else 1
  }
}
