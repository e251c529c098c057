# RabbitMQ availability monitor: a Dafny model

`lib/rabbitmq_availability_monitor.js` is a one-shot monitoring probe. It
takes five arguments: a metric-state descriptor, host, port, username and
password. It validates them, builds an AMQP request, and opens one connection
to the broker. Then it reports availability (`178:Status:9`) and response
time (`75:Response Time:7`) as `id|val|` lines, and exits.

This project models the three deterministic parts of that script:

- **Input** (`input.dfy`, over the JavaScript string semantics in
  `js_string.dfy`). This covers `monitorInput` and `monitorInputProcess`:
  - the check for exactly five arguments;
  - the metric-state descriptor, where `replace` removes only the first `"`
    and `split(",")` must give exactly two pieces;
  - normalisation of the quoted-empty credentials and the `{0}` placeholder;
  - the `amqp://` connection URI, with a reader proved to recover its parts.
- **Probe** (`probe.dfy`, with the output lines in `metrics.dfy`). This is the
  event-driven state machine of `monitorRabbitAvailability`:
  - Events are `connect` (which arms the timer), `ready`, `error(code)` and
    the timer firing.
  - The state is the module-level `timeout` flag, the `metrics` list, the
    printed lines, the exit code and the pending timers.
  - `Step`/`Run` are the specification. The class `Probe.Monitor` holds the
    same state in fields, and its handler methods, `Output` and
    `ErrorHandler` are proved to take exactly that step.
  - `Decide` is an independent reference: the first settling event decides
    the outcome. `Report` gives that outcome's lines and exit code.
  - The main theorem (`RunSettlesOnce`) says the handlers print and exit
    exactly as `Report` says for that outcome, and events after it are inert.
- **Error taxonomy** (`errors.dfy`). This covers the three error constructors
  and the two catch sites: the top-level catch and `errorHandler`. Exit codes
  are 3 for a wrong argument count, 9 for a bad metric state, 24 for a reset
  connection, and 1 for anything else.

`monitor.dfy` composes these into one run (`Invoke`). The input is validated
first. A rejected input prints one message and exits before any connection
exists. Otherwise the probe runs on the events delivered.

Behaviour of the code that a reader might not expect, modelled as written:

- A timeout, and any non-reset error, emit status `0` even when status was
  not requested.
- Only the `{0}` placeholder blanks both credentials. An empty or
  quoted-empty username leaves the password in the request, and the URI
  simply omits both.
- The timer is armed by the `connect` event, not when the connection is
  created.
- A fully quoted `"1,1"` loses only its first quote. Its second piece is
  `1"`, so the response time is not requested (`QuotedMetricState`).
- `connectionURI` is built but the connection is opened from host, port,
  login and password separately. The model builds the URI and proves it
  well-formed; nothing else reads it.

## Model

| member | source | states |
|---|---|---|
| `Errors.MonitorError.Message` | lib/rabbitmq_availability_monitor.js:7-30 | the three monitor errors carry a full-stop-terminated sentence as message; any other error prints its own message |
| `Errors.MonitorError.Code` | lib/rabbitmq_availability_monitor.js:7-30 | exactly the three monitor errors carry a `code`, never 0 or 1; the connection-or-authentication error's is 24 |
| `Errors.ExitCode` | lib/rabbitmq_availability_monitor.js:7-30 | every error kind exits non-zero; 1 exactly for errors other than the three monitor errors, whose own `code` (3, 9, 24) is used |
| `Errors.ExitCodeDistinguishesKinds` | lib/rabbitmq_availability_monitor.js:7-30 | two monitor errors with the same exit code are the same kind |
| `Errors.DispatchExitCode` | lib/rabbitmq_availability_monitor.js:42-58 | the top-level catch exits with the error's own code for a wrong argument count or a bad metric state, and with 1 for anything else |
| `Errors.ErrorHandlerExitCode` | lib/rabbitmq_availability_monitor.js:186-199 | `errorHandler` exits with 24 for a connection-or-authentication error and with 1 for anything else |
| `JsString.RemoveFirst` | lib/rabbitmq_availability_monitor.js:79 | `replace` with a string pattern changes nothing when there is no `"` and otherwise removes exactly one character |
| `JsString.RemoveFirstAt` | lib/rabbitmq_availability_monitor.js:79 | the character removed is the first `"`: the text before it and the text after it are kept, in order |
| `JsString.Split` | lib/rabbitmq_availability_monitor.js:81 | `split(",")` gives one more piece than there are commas, no piece holds a comma, and joining the pieces gives the input back |
| `JsString.SplitJoin` | lib/rabbitmq_availability_monitor.js:81 | splitting a join of comma-free pieces gives those pieces back |
| `JsString.RemoveFirstKeepsOthers` | lib/rabbitmq_availability_monitor.js:79-86 | removing the first `"` does not change how many commas the descriptor has |
| `JsString.Decimal` | lib/rabbitmq_availability_monitor.js:268 | the elapsed milliseconds print as digits with no leading zero |
| `JsString.DecimalRoundTrip` | lib/rabbitmq_availability_monitor.js:268 | the printed response time reads back as the elapsed milliseconds |
| `Input.ParseMetricState` | lib/rabbitmq_availability_monitor.js:79-101 | the descriptor is accepted exactly when it holds one comma, and is otherwise rejected with InvalidMetricState |
| `Input.MetricStatePieces` | lib/rabbitmq_availability_monitor.js:86-97 | when the descriptor reads `a,b` after removing its first quote, checkStatus is `a == "1"` and checkTimeout is `b == "1"` |
| `Input.QuotedMetricState` | lib/rabbitmq_availability_monitor.js:79-97 | `"1,1"` with its quotes requests status but not response time |
| `Input.SinglePieceRejected` | lib/rabbitmq_availability_monitor.js:98-101 | a one-piece descriptor `1` is rejected with InvalidMetricState |
| `Input.NormaliseCredential` | lib/rabbitmq_availability_monitor.js:111-125 | a credential becomes empty exactly when it is empty, `""` or a lone `"`, and is otherwise unchanged |
| `Input.NormaliseIdempotent` | lib/rabbitmq_availability_monitor.js:111-125 | normalising twice is normalising once |
| `Input.Credentials` | lib/rabbitmq_availability_monitor.js:111-131 | the username `{0}` blanks both credentials whatever the password; otherwise both are normalised; the final username is empty exactly for empty, `""`, `"` or `{0}` |
| `Input.ConnectionUri` | lib/rabbitmq_availability_monitor.js:133-142 | the URI starts with `amqp://`; it has an `@` whenever the username is non-empty, and none when the username is empty and host and port have none |
| `Input.UriRoundTrip` | lib/rabbitmq_availability_monitor.js:133-142 | reading the URI gives back host, port and credentials (the password only with a username) when they hold no delimiter |
| `Input.MonitorInputProcess` | lib/rabbitmq_availability_monitor.js:76-160 | with five arguments the request is built exactly when the descriptor has one comma; its status and timeout flags are the descriptor's two parsed pieces; its host, port, credentials and URI are those of the arguments |
| `Input.MonitorInput` | lib/rabbitmq_availability_monitor.js:64-73 | any argument count other than five is rejected with InvalidParametersNumber; with five, the result is exactly that of `monitorInputProcess`, whose only rejection is InvalidMetricState |
| `Input.PlaceholderIsAnonymous` | lib/rabbitmq_availability_monitor.js:128-142 | with username `{0}` and any password, the request has empty credentials and the URI `amqp://host:port` |
| `Metrics.StatusMetric` | lib/rabbitmq_availability_monitor.js:254-263 | the status metric carries the status identifier, with value `1` exactly when up and `0` exactly when down |
| `Metrics.ResponseTimeMetric` | lib/rabbitmq_availability_monitor.js:265-273 | the response-time metric carries its identifier and a decimal value equal to the elapsed milliseconds |
| `Metrics.Line` | lib/rabbitmq_availability_monitor.js:171-179 | a line is the identifier and the value each followed by `|`, so it ends with `|` |
| `Metrics.LineRoundTrip` | lib/rabbitmq_availability_monitor.js:171-179 | a line reads back as its metric when neither field contains `|` |
| `Metrics.MetricLineEndsWithBar` | lib/rabbitmq_availability_monitor.js:171-179 | only a line ending in `|` reads as a metric |
| `Metrics.MonitorMetricsRoundTrip` | lib/rabbitmq_availability_monitor.js:2-3 | every status and response-time metric the monitor builds prints as a line that reads back as itself |
| `Metrics.Lines` | lib/rabbitmq_availability_monitor.js:167-180 | `output` prints one line per metric, in list order |
| `Probe.Initial` | lib/rabbitmq_availability_monitor.js:222-224 | a probe starts with the timeout flag set, no staged metric, nothing printed, no exit, no armed timer and no socket destroyed |
| `Probe.Output` | lib/rabbitmq_availability_monitor.js:167-183 | `output` appends the lines of the staged metrics and exits 0 |
| `Probe.ErrorHandler` | lib/rabbitmq_availability_monitor.js:186-199 | `errorHandler` appends the error's message and exits with the handler's code for it |
| `Probe.ReadyMetrics` | lib/rabbitmq_availability_monitor.js:254-273 | `ready` stages status `1` iff status is checked, first, and the response time iff it is checked, last; at most two metrics, never status `0` |
| `Probe.Step` | lib/rabbitmq_availability_monitor.js:226-296 | an exited process runs no handler; a handler that does not exit prints nothing; each event destroys the socket at most once |
| `Probe.Run` | lib/rabbitmq_availability_monitor.js:206-303 | once the process has exited, later events change nothing; nothing is printed before the exit |
| `Probe.StepKeepsInv` | lib/rabbitmq_availability_monitor.js:33 | while the process lives, `timeout` is set and nothing is staged or printed; the socket is destroyed at most once |
| `Probe.RunKeepsInv` | lib/rabbitmq_availability_monitor.js:226-296 | the same invariant holds after any sequence of events |
| `Probe.Report` | lib/rabbitmq_availability_monitor.js:248-296 | success prints the requested metrics and exits 0; a reset prints the message alone and exits 24; another error or a timeout prints status `0` alone and exits 0 |
| `Probe.ResetPrintsNoMetric` | lib/rabbitmq_availability_monitor.js:280-285 | a reset prints no metric line |
| `Probe.RunSettlesOnce` | lib/rabbitmq_availability_monitor.js:226-296 | from a live, untouched state the handlers print and exit exactly as the report of the first settling event says, and print nothing if no event settles the probe |
| `Probe.ProbeSettlesOnce` | lib/rabbitmq_availability_monitor.js:222-296 | the same, from the state right after the connection is created |
| `Probe.LateEventsInert` | lib/rabbitmq_availability_monitor.js:182 | events after the settling one change neither the state nor the outcome |
| `Probe.ReadyTimerRace` | lib/rabbitmq_availability_monitor.js:228-250 | after `connect`, `ready` then timer prints the ready metrics, and timer then `ready` prints status `0` alone |
| `Probe.SocketDestroyedAtMostOnce` | lib/rabbitmq_availability_monitor.js:230 | the socket is destroyed at most once on any run |
| `Probe.Monitor.constructor` | lib/rabbitmq_availability_monitor.js:222-224 | a new probe has `timeout` set, nothing staged or printed, no exit and no timer |
| `Probe.Monitor.Output` | lib/rabbitmq_availability_monitor.js:167-183 | the loop prints the staged metrics' lines in order, then exits 0 |
| `Probe.Monitor.ErrorHandler` | lib/rabbitmq_availability_monitor.js:186-199 | prints the message and exits with 24 for a connection-or-authentication error, 1 otherwise |
| `Probe.Monitor.OnConnect` | lib/rabbitmq_availability_monitor.js:226-246 | arms one timer and changes nothing else |
| `Probe.Monitor.OnTimer` | lib/rabbitmq_availability_monitor.js:228-245 | destroys the socket and, if `timeout` is still set, prints status `0` and exits 0 |
| `Probe.Monitor.OnReady` | lib/rabbitmq_availability_monitor.js:248-277 | clears `timeout`, destroys the socket, stages the requested metrics and outputs them |
| `Probe.Monitor.OnError` | lib/rabbitmq_availability_monitor.js:280-296 | a reset goes to `errorHandler`; any other code prints status `0` and exits 0 |
| `Monitor.Invoke` | lib/rabbitmq_availability_monitor.js:37-60 | a wrong argument count prints its message and exits 3, a bad descriptor exits 9, both before any connection; a failure thrown by the client library on valid input prints that failure's message and exits 1 without a connection; without an exit nothing is printed; the exit code is one of 0, 1, 3, 9, 24 |
| `Monitor.InvokeSettlesOnce` | lib/rabbitmq_availability_monitor.js:206-303 | an accepted run reports the first settling event's outcome, and later events change nothing; until an event settles the probe nothing is printed and the process does not exit |
| `Monitor.ErrorExitPrintsOneMessage` | lib/rabbitmq_availability_monitor.js:44-57 | a non-zero exit prints exactly one line; exit 24 prints the reset message, which is not a metric line |

## Left out

- The `amqp` library is not modelled: `require`, `createConnection` and its
  options, and the handshake. What it delivers is modelled as events. An
  error it throws while the connection is being created is a parameter of
  `Monitor.Invoke`.
- `conn.socket.destroy()` is modelled only as a counter of calls.
- `Date.now()` is not modelled. The elapsed time is a natural-number
  parameter of the `ready` event. A clock running backwards, which would give
  a negative response time, is not modelled.
- The 50000 ms delay of the timer is not modelled. Its expiry is an event
  that can only follow a `connect`.
- `process.argv`, `console.log` and `process.exit` are replaced by the
  recorded lines and the exit code. After an exit, no handler runs.
- The `ts` and `exec` fields of a metric are not modelled: they are set but
  never printed.
- The loop over the `requests` list is not modelled: the list always holds
  exactly one request, so the model runs one probe.
- Real asynchronous timing is not modelled. Events arrive in any sequential
  order.
- Repeated runs against the same unreachable broker are not modelled: that
  they classify alike depends on the network, not on this code.
