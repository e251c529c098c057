/** One run of the monitor: the top-level catch around `monitorInput`, and
    the probe that runs when the input is accepted. */
module Monitor {
  import opened Wrappers
  import opened JsString
  import opened Errors
  import opened Metrics
  import opened Input
  import opened Probe

  /** What a run leaves behind: the printed lines, the exit code once
      `process.exit` was called, and the request a connection was created for. */
  datatype Process = Process(lines: seq<string>, exit: Option<int>, connection: Option<Request>)

  /** A run with the arguments after the script name. `libraryFailure` is the
      message of an error the broker library throws while the connection is
      being created (loading the library, `createConnection`); `events` are
      what the connection and the timer then deliver. */
  function Invoke(args: seq<string>, libraryFailure: Option<string>, events: seq<Event>): (p: Process)
    ensures |args| != ArgumentCount ==>
              p == Process([InvalidParametersNumber.Message()], Some(3), None)
    ensures |args| == ArgumentCount && CountOf(args[0], ',') != 1 ==>
              p == Process([InvalidMetricState.Message()], Some(9), None)
    ensures p.connection.Some? <==> MonitorInput(args).Ok? && libraryFailure.None?
    ensures p.exit.None? ==> p.lines == [] && p.connection.Some?
    ensures p.exit.Some? ==> p.exit.value in {0, 1, 3, 9, 24}
    ensures MonitorInput(args).Ok? && libraryFailure.Some? ==>
              p == Process([libraryFailure.value], Some(1), None)
  {
    match MonitorInput(args)
    case Err(e) => Process([e.Message()], Some(DispatchExitCode(e)), None)
    case Ok(request) =>
      if libraryFailure.Some? then
        var err := Unexpected(libraryFailure.value);
        Process([err.Message()], Some(DispatchExitCode(err)), None)
      else
        ProbeExitCodes(request, events);
        var t := Run(request, Initial(), events);
        Process(t.lines, t.exit, Some(request))
  }

  /** An accepted run reports exactly the first settling event's outcome,
      and events after it change nothing; until an event settles the probe,
      nothing is printed and the process keeps running. */
  lemma InvokeSettlesOnce(args: seq<string>, events: seq<Event>, later: seq<Event>)
    requires MonitorInput(args).Ok?
    ensures Decide(0, events).None? ==>
              Invoke(args, None, events).exit.None? && Invoke(args, None, events).lines == []
    ensures Decide(0, events).Some? ==>
              var p := Invoke(args, None, events);
              var r := Report(MonitorInput(args).value, Decide(0, events).value);
              p.lines == r.lines && p.exit == Some(r.exitCode)
    ensures Decide(0, events).Some? ==> Invoke(args, None, events + later) == Invoke(args, None, events)
  {
    var request := MonitorInput(args).value;
    ProbeSettlesOnce(request, events);
    if Decide(0, events).Some? {
      LateEventsInert(request, events, later);
    }
  }

  /** A non-zero exit prints exactly one line; exit 24 prints the reset
      message and no metric line. */
  lemma ErrorExitPrintsOneMessage(args: seq<string>, libraryFailure: Option<string>, events: seq<Event>)
    requires Invoke(args, libraryFailure, events).exit.Some?
    requires Invoke(args, libraryFailure, events).exit.value != 0
    ensures |Invoke(args, libraryFailure, events).lines| == 1
    ensures Invoke(args, libraryFailure, events).exit == Some(24) ==>
              && Invoke(args, libraryFailure, events).lines == [ConnectionOrAuthentication.Message()]
              && ParseLine(Invoke(args, libraryFailure, events).lines[0]).None?
  {
    match MonitorInput(args)
    case Err(e) =>
    case Ok(request) =>
      if libraryFailure.None? {
        ProbeSettlesOnce(request, events);
        ResetPrintsNoMetric(request);
      }
  }
}
