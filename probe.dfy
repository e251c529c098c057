/** The probe of `monitorRabbitAvailability`: the handlers the connection's
    `connect`, `ready` and `error` events and the timer armed by `connect` run,
    over the module-level `timeout` flag, the `metrics` list, what was printed
    and whether the process has exited.

    `Step` and `Run` are the specification, over a `State` value; the class
    `Monitor` holds the same state in fields and its handler methods are proved
    to take the step `Step` describes. */
module Probe {
  import opened Wrappers
  import opened Errors
  import opened Metrics
  import opened Input

  /** The error code the connection reports for an abruptly reset socket. */
  const ResetCode := "ECONNRESET"

  /** What the connection and the timer deliver; `elapsed` is the time since
      the probe started, in milliseconds. */
  datatype Event =
    | Connect
    | Ready(elapsed: nat)
    | Error(code: string)
    | TimerFire

  /** Everything the handlers read or change. */
  datatype State = State(
    timeout: bool,           // the module-level flag, cleared by `ready`
    metrics: seq<Metric>,    // the metrics staged for `output`
    lines: seq<string>,      // what was printed
    exit: Option<int>,       // the code passed to `process.exit`, once called
    pendingTimers: nat,      // timers armed by `connect` that have not fired
    socketDestroys: nat)     // calls of `conn.socket.destroy()`

  /** The state when the connection has just been created. */
  function Initial(): (s: State)
    ensures s.exit.None? && s.lines == [] && s.metrics == [] && s.timeout
    ensures s.pendingTimers == 0 && s.socketDestroys == 0
  {
    State(true, [], [], None, 0, 0)
  }

  /** `output`: print every staged metric, in order, then exit with 0. */
  function Output(s: State): (t: State)
    ensures t.lines == s.lines + Lines(s.metrics) && t.exit == Some(0)
    ensures t.metrics == s.metrics && t.timeout == s.timeout
  {
    s.(lines := s.lines + Lines(s.metrics), exit := Some(0))
  }

  /** `errorHandler`: print the error's message, then exit with its code. */
  function ErrorHandler(s: State, err: MonitorError): (t: State)
    ensures t.lines == s.lines + [err.Message()]
    ensures t.exit == Some(ErrorHandlerExitCode(err))
    ensures t.metrics == s.metrics
  {
    s.(lines := s.lines + [err.Message()], exit := Some(ErrorHandlerExitCode(err)))
  }

  /** The metrics `ready` stages: status "1" when status is checked, then the
      response time when it is checked. */
  function ReadyMetrics(request: Request, elapsed: nat): (ms: seq<Metric>)
    ensures |ms| == (if request.checkStatus then 1 else 0) + (if request.checkTimeout then 1 else 0)
    ensures StatusMetric(true) in ms <==> request.checkStatus
    ensures ResponseTimeMetric(elapsed) in ms <==> request.checkTimeout
    ensures request.checkStatus ==> ms[0] == StatusMetric(true)
    ensures request.checkTimeout ==> ms[|ms| - 1] == ResponseTimeMetric(elapsed)
    ensures StatusMetric(false) !in ms
  {
    (if request.checkStatus then [StatusMetric(true)] else [])
    + (if request.checkTimeout then [ResponseTimeMetric(elapsed)] else [])
  }

  /** One event. An exited process runs no handler; a timer fires only if
      `connect` armed it. */
  function Step(request: Request, s: State, e: Event): (t: State)
    ensures s.exit.Some? ==> t == s
    ensures t.exit.None? ==> t.lines == s.lines
    ensures t.socketDestroys <= s.socketDestroys + 1
  {
    if s.exit.Some? then s
    else
      match e
      case Connect =>
        s.(pendingTimers := s.pendingTimers + 1)
      case TimerFire =>
        if s.pendingTimers == 0 then s
        else
          var fired := s.(pendingTimers := s.pendingTimers - 1, socketDestroys := s.socketDestroys + 1);
          if fired.timeout then Output(fired.(metrics := fired.metrics + [StatusMetric(false)]))
          else fired
      case Ready(elapsed) =>
        var closed := s.(timeout := false, socketDestroys := s.socketDestroys + 1);
        Output(closed.(metrics := closed.metrics + ReadyMetrics(request, elapsed)))
      case Error(code) =>
        if code == ResetCode then ErrorHandler(s, ConnectionOrAuthentication)
        else Output(s.(metrics := s.metrics + [StatusMetric(false)]))
  }

  /** The events, one after another. */
  function Run(request: Request, s: State, events: seq<Event>): (t: State)
    ensures s.exit.Some? ==> t == s
    ensures t.exit.None? ==> t.lines == s.lines
    decreases |events|
  {
    if events == [] then s else Run(request, Step(request, s, events[0]), events[1..])
  }

  /** Running two event lists is running the first, then the second. */
  lemma {:induction false} RunAppend(request: Request, s: State, a: seq<Event>, b: seq<Event>)
    ensures Run(request, s, a + b) == Run(request, Run(request, s, a), b)
    decreases |a|
  {
    if a != [] {
      assert (a + b)[0] == a[0];
      assert (a + b)[1..] == a[1..] + b;
      RunAppend(request, Step(request, s, a[0]), a[1..], b);
    } else {
      assert a + b == b;
    }
  }

  /** What holds of every state the handlers reach: while the process lives,
      nothing is printed or staged, `timeout` is still set and the socket is
      untouched; the socket is destroyed at most once. */
  ghost predicate Inv(s: State) {
    && s.socketDestroys <= 1
    && (s.exit.None? ==> s.timeout && s.metrics == [] && s.lines == [] && s.socketDestroys == 0)
  }

  lemma StepKeepsInv(request: Request, s: State, e: Event)
    requires Inv(s)
    ensures Inv(Step(request, s, e))
  {
  }

  lemma {:induction false} RunKeepsInv(request: Request, s: State, events: seq<Event>)
    requires Inv(s)
    ensures Inv(Run(request, s, events))
    decreases |events|
  {
    if events != [] {
      StepKeepsInv(request, s, events[0]);
      RunKeepsInv(request, Step(request, s, events[0]), events[1..]);
    }
  }

  /** The four ways a probe ends. */
  datatype Outcome =
    | Success(elapsed: nat)
    | AuthOrProtocolFailure
    | TransportFailure
    | Timeout

  /** The first event that settles the probe, given how many timers `connect`
      has armed so far; None when no event in the list settles it. Written
      without the handlers' state, as a reference for `Run`. */
  function Decide(armed: nat, events: seq<Event>): (o: Option<Outcome>)
    decreases |events|
  {
    if events == [] then None
    else
      match events[0]
      case Connect => Decide(armed + 1, events[1..])
      case TimerFire => if armed == 0 then Decide(0, events[1..]) else Some(Timeout)
      case Ready(elapsed) => Some(Success(elapsed))
      case Error(code) => Some(if code == ResetCode then AuthOrProtocolFailure else TransportFailure)
  }

  /** What the process prints and its exit code. */
  datatype Reported = Reported(lines: seq<string>, exitCode: int)

  /** The report for each outcome: on success the requested metrics; on a
      reset, the error message alone and exit 24; on any other error or a
      timeout, status "0" alone, whatever was requested. */
  function Report(request: Request, o: Outcome): (r: Reported)
    ensures r.exitCode != 0 <==> o.AuthOrProtocolFailure?
    ensures o.AuthOrProtocolFailure? ==>
              r.exitCode == ExitCode(ConnectionOrAuthentication)
              && r.lines == [ConnectionOrAuthentication.Message()]
    ensures o.Success? ==>
              |r.lines| == (if request.checkStatus then 1 else 0) + (if request.checkTimeout then 1 else 0)
    ensures o.Success? && request.checkStatus ==> r.lines[0] == Line(StatusMetric(true))
    ensures o.Success? && request.checkTimeout ==> r.lines[|r.lines| - 1] == Line(ResponseTimeMetric(o.elapsed))
    ensures o.TransportFailure? || o.Timeout? ==> r.lines == [Line(StatusMetric(false))]
  {
    match o
    case Success(elapsed) => Reported(Lines(ReadyMetrics(request, elapsed)), 0)
    case AuthOrProtocolFailure =>
      Reported([ConnectionOrAuthentication.Message()], ErrorHandlerExitCode(ConnectionOrAuthentication))
    case _ => Reported(Lines([StatusMetric(false)]), 0)
  }

  /** A reset prints no metric line. */
  lemma ResetPrintsNoMetric(request: Request)
    ensures forall l | l in Report(request, AuthOrProtocolFailure).lines :: ParseLine(l).None?
  {
    var msg := ConnectionOrAuthentication.Message();
    assert msg[|msg| - 1] == '.';
    MetricLineEndsWithBar(msg);
  }

  /** A probe that is still live and untouched. */
  ghost predicate Untouched(s: State) {
    s.exit.None? && s.timeout && s.metrics == [] && s.lines == []
  }

  /** The state `t` shows what `o` says: no output and no exit while there is
      no outcome, the outcome's report once there is one. */
  ghost predicate Shows(request: Request, t: State, o: Option<Outcome>) {
    match o
    case None => t.exit.None? && t.lines == []
    case Some(outcome) =>
      t.exit == Some(Report(request, outcome).exitCode) && t.lines == Report(request, outcome).lines
  }

  /** A settling event, taken on an untouched probe, prints and exits as the
      report of its outcome says. */
  lemma SettlingStep(request: Request, s: State, e: Event)
    requires Untouched(s)
    requires Decide(s.pendingTimers, [e]).Some?
    ensures Step(request, s, e).exit.Some?
    ensures Shows(request, Step(request, s, e), Decide(s.pendingTimers, [e]))
  {
    match e
    case Connect =>
    case TimerFire =>
      assert Decide(s.pendingTimers, [e]) == Some(Timeout);
    case Ready(elapsed) =>
      assert Decide(s.pendingTimers, [e]) == Some(Success(elapsed));
    case Error(code) =>
  }

  /** The probe settles exactly once: the handlers print and exit exactly as the
      report of the first settling event says, and print nothing while no event
      has settled it. */
  lemma {:induction false} RunSettlesOnce(request: Request, s: State, events: seq<Event>)
    requires Untouched(s)
    ensures Shows(request, Run(request, s, events), Decide(s.pendingTimers, events))
    decreases |events|
  {
    if events != [] {
      var e := events[0];
      var t := Step(request, s, e);
      assert Run(request, s, events) == Run(request, t, events[1..]);
      if e.Connect? || (e.TimerFire? && s.pendingTimers == 0) {
        assert Decide(s.pendingTimers, events) == Decide(t.pendingTimers, events[1..]);
        RunSettlesOnce(request, t, events[1..]);
      } else {
        assert Decide(s.pendingTimers, events) == Decide(s.pendingTimers, [e]);
        SettlingStep(request, s, e);
        assert Run(request, t, events[1..]) == t;
      }
    }
  }

  /** From the initial state: exactly one outcome is reported, or none yet. */
  lemma ProbeSettlesOnce(request: Request, events: seq<Event>)
    ensures var t := Run(request, Initial(), events);
            match Decide(0, events)
            case None => t.exit.None? && t.lines == []
            case Some(o) => t.exit == Some(Report(request, o).exitCode) && t.lines == Report(request, o).lines
  {
    RunSettlesOnce(request, Initial(), events);
  }

  /** A settled list stays settled, to the same outcome, whatever follows. */
  lemma {:induction false} DecideAppend(armed: nat, a: seq<Event>, b: seq<Event>)
    requires Decide(armed, a).Some?
    ensures Decide(armed, a + b) == Decide(armed, a)
    decreases |a|
  {
    assert (a + b)[0] == a[0];
    assert (a + b)[1..] == a[1..] + b;
    match a[0]
    case Connect => DecideAppend(armed + 1, a[1..], b);
    case TimerFire => if armed == 0 { DecideAppend(0, a[1..], b); }
    case Ready(_) =>
    case Error(_) =>
  }

  /** Events after the settling one are inert: they print nothing, change no
      exit code and destroy no socket. */
  lemma LateEventsInert(request: Request, a: seq<Event>, b: seq<Event>)
    requires Decide(0, a).Some?
    ensures Run(request, Initial(), a + b) == Run(request, Initial(), a)
    ensures Decide(0, a + b) == Decide(0, a)
  {
    ProbeSettlesOnce(request, a);
    RunAppend(request, Initial(), a, b);
    DecideAppend(0, a, b);
  }

  /** `ready` and the timer race: whichever runs first decides, the other is inert. */
  lemma ReadyTimerRace(request: Request, elapsed: nat)
    ensures Run(request, Initial(), [Connect, Ready(elapsed), TimerFire]).lines
            == Lines(ReadyMetrics(request, elapsed))
    ensures Run(request, Initial(), [Connect, TimerFire, Ready(elapsed)]).lines
            == [Line(StatusMetric(false))]
  {
    ProbeSettlesOnce(request, [Connect, Ready(elapsed), TimerFire]);
    ProbeSettlesOnce(request, [Connect, TimerFire, Ready(elapsed)]);
  }

  /** The socket is destroyed at most once on every run. */
  lemma SocketDestroyedAtMostOnce(request: Request, events: seq<Event>)
    ensures Run(request, Initial(), events).socketDestroys <= 1
  {
    RunKeepsInv(request, Initial(), events);
  }

  /** A probe prints nothing before it exits, and exits with 0 or 24. */
  lemma ProbeExitCodes(request: Request, events: seq<Event>)
    ensures var t := Run(request, Initial(), events);
            (t.exit.None? ==> t.lines == []) && (t.exit.Some? ==> t.exit.value == 0 || t.exit.value == 24)
  {
    ProbeSettlesOnce(request, events);
  }

  /** The handlers of one probe, over the state they share. */
  class Monitor {
    const request: Request
    var timeout: bool
    var metrics: seq<Metric>
    var lines: seq<string>
    var exit: Option<int>
    var pendingTimers: nat
    var socketDestroys: nat

    ghost function Snapshot(): State
      reads this
    {
      State(timeout, metrics, lines, exit, pendingTimers, socketDestroys)
    }

    /** The connection has been created; no event has arrived yet. */
    constructor (request: Request)
      ensures this.request == request
      ensures Snapshot() == Initial()
    {
      this.request := request;
      timeout := true;
      metrics := [];
      lines := [];
      exit := None;
      pendingTimers := 0;
      socketDestroys := 0;
    }

    /** `output`: print each staged metric as `id|val|`, in order, then exit 0. */
    method Output()
      requires exit.None?
      modifies this`lines, this`exit
      ensures lines == old(lines) + Lines(metrics)
      ensures exit == Some(0)
    {
      var i := 0;
      while i < |metrics|
        invariant 0 <= i <= |metrics|
        invariant lines == old(lines) + Lines(metrics[..i])
      {
        LinesPrefix(metrics, i);
        lines := lines + [Line(metrics[i])];
        i := i + 1;
      }
      assert metrics[..i] == metrics;
      exit := Some(0);
    }

    /** `errorHandler`: print the message, then exit with the error's code. */
    method ErrorHandler(err: MonitorError)
      requires exit.None?
      modifies this`lines, this`exit
      ensures lines == old(lines) + [err.Message()]
      ensures exit == Some(ErrorHandlerExitCode(err))
    {
      lines := lines + [err.Message()];
      if err.ConnectionOrAuthentication? {
        exit := Some(err.Code().value);
      } else {
        exit := Some(1);
      }
    }

    /** The `connect` handler: arm the timer. The runtime delivers no event to
        an exited process, hence the precondition on this and every handler. */
    method OnConnect()
      requires exit.None?
      modifies this
      ensures Snapshot() == Step(request, old(Snapshot()), Connect)
    {
      pendingTimers := pendingTimers + 1;
    }

    /** The timer callback: destroy the socket, and if `ready` has not cleared
        `timeout`, report status "0". */
    method OnTimer()
      requires exit.None? && pendingTimers > 0
      modifies this
      ensures Snapshot() == Step(request, old(Snapshot()), TimerFire)
    {
      pendingTimers := pendingTimers - 1;
      socketDestroys := socketDestroys + 1;
      if timeout {
        metrics := metrics + [StatusMetric(false)];
        Output();
      }
    }

    /** The `ready` handler: clear `timeout`, destroy the socket, stage status
        "1" and the response time as requested, and output. */
    method OnReady(elapsed: nat)
      requires exit.None?
      modifies this
      ensures Snapshot() == Step(request, old(Snapshot()), Ready(elapsed))
    {
      timeout := false;
      socketDestroys := socketDestroys + 1;
      ghost var before := metrics;
      if request.checkStatus {
        metrics := metrics + [StatusMetric(true)];
      }
      if request.checkTimeout {
        metrics := metrics + [ResponseTimeMetric(elapsed)];
      }
      assert metrics == before + ReadyMetrics(request, elapsed);
      Output();
    }

    /** The `error` handler: a reset goes to `errorHandler`, which exits;
        any other error reports status "0". */
    method OnError(code: string)
      requires exit.None?
      modifies this
      ensures Snapshot() == Step(request, old(Snapshot()), Error(code))
    {
      if code == ResetCode {
        ErrorHandler(ConnectionOrAuthentication);
        return;
      }
      metrics := metrics + [StatusMetric(false)];
      Output();
    }
  }
}
