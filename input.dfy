/** Argument validation and request construction: `monitorInput` and
    `monitorInputProcess`. Each argument is a string, as `process.argv` delivers. */
module Input {
  import opened Wrappers
  import opened JsString
  import opened Errors

  /** The number of arguments the monitor expects: metric state, host, port,
      username and password. */
  const ArgumentCount := 5
  /** The placeholder a caller leaves when it has no username to substitute. */
  const Placeholder := "{0}"
  const Scheme := "amqp://"

  /** Which metrics the caller asked for. */
  datatype MetricState = MetricState(checkStatus: bool, checkTimeout: bool)

  /** The request object `monitorInputProcess` builds for the probe. */
  datatype Request = Request(
    connectionUri: string,
    checkStatus: bool,
    checkTimeout: bool,
    hostname: string,
    username: string,
    passwd: string,
    port: string)

  /** The final username and password. */
  datatype Login = Login(username: string, passwd: string)

  /** The metric-state argument: its first double quote is removed, the rest is
      split on commas, and exactly two pieces are required; each flag is on when
      its piece is exactly "1". */
  function ParseMetricState(arg: string): (r: Result<MetricState, MonitorError>)
    ensures r.Ok? <==> CountOf(arg, ',') == 1
    ensures r.Err? ==> r.error == InvalidMetricState
  {
    var tokens := Split(RemoveFirst(arg, '"'), ',');
    RemoveFirstKeepsOthers(arg, '"', ',');
    if |tokens| == 2 then
      Ok(MetricState(tokens[0] == "1", tokens[1] == "1"))
    else
      Err(InvalidMetricState)
  }

  /** With the first quote removed, the argument reads `a,b`: the flags are
      exactly "a is 1" and "b is 1". */
  lemma MetricStatePieces(arg: string, a: string, b: string)
    requires ',' !in a && ',' !in b
    requires RemoveFirst(arg, '"') == a + [','] + b
    ensures ParseMetricState(arg) == Ok(MetricState(a == "1", b == "1"))
  {
    SplitJoin([a, b], ',');
    assert Join([a, b], ',') == a + [','] + b;
  }

  /** A fully quoted "1,1" loses only its opening quote, so its second piece is
      `1"` and the response-time flag stays off. */
  lemma QuotedMetricState()
    ensures ParseMetricState("\"1,1\"") == Ok(MetricState(true, false))
  {
    assert RemoveFirst("\"1,1\"", '"') == "1,1\"";
    MetricStatePieces("\"1,1\"", "1", "1\"");
  }

  /** A single piece is rejected. */
  lemma SinglePieceRejected()
    ensures ParseMetricState("1") == Err(InvalidMetricState)
  {
    assert CountOf("1", ',') == 0;
  }

  /** The quoted-empty forms of a credential: `""` and a lone `"` become the
      empty string; everything else is kept. */
  function NormaliseCredential(s: string): (r: string)
    ensures r == "" <==> s in {"", "\"\"", "\""}
    ensures r != "" ==> r == s
  {
    var a := if |s| == 0 then "" else s;
    var b := if a == "\"\"" then "" else a;
    if |b| == 1 && b == "\"" then "" else b
  }

  /** Normalising a normalised credential changes nothing. */
  lemma NormaliseIdempotent(s: string)
    ensures NormaliseCredential(NormaliseCredential(s)) == NormaliseCredential(s)
  {
  }

  /** Both credentials normalised, then the placeholder username blanks both. */
  function Credentials(username: string, passwd: string): (r: Login)
    ensures username == Placeholder ==> r == Login("", "")
    ensures username != Placeholder ==>
              r == Login(NormaliseCredential(username), NormaliseCredential(passwd))
    ensures r.username == "" <==> username in {"", "\"\"", "\"", Placeholder}
  {
    var user := NormaliseCredential(username);
    var pass := NormaliseCredential(passwd);
    if user == Placeholder then Login("", "") else Login(user, pass)
  }

  /** The connection URI: credentials appear, before an `@`, only when the
      username is not empty. */
  function ConnectionUri(hostname: string, port: string, username: string, passwd: string): (r: string)
    ensures username != "" ==> '@' in r
    ensures username == "" && '@' !in hostname && '@' !in port ==> '@' !in r
    ensures |r| >= |Scheme| && r[..|Scheme|] == Scheme
  {
    if |username| == 0 then
      Scheme + (hostname + ":" + port)
    else
      Scheme + (username + ":" + passwd + "@" + (hostname + ":" + port))
  }

  /** The parts of an `amqp://` URI. */
  datatype UriParts = UriParts(username: string, passwd: string, hostname: string, port: string)

  /** Reads an `amqp://[user:pass@]host:port` URI back into its parts. */
  function ParseUri(uri: string): (r: Option<UriParts>)
  {
    if |uri| < |Scheme| || uri[..|Scheme|] != Scheme then None
    else
      var rest := uri[|Scheme|..];
      match SplitAtFirst(rest, '@')
      case None =>
        (match SplitAtFirst(rest, ':')
         case None => None
         case Some((host, port)) => Some(UriParts("", "", host, port)))
      case Some((info, hostPort)) =>
        (match (SplitAtFirst(info, ':'), SplitAtFirst(hostPort, ':'))
         case (Some((user, pass)), Some((host, port))) => Some(UriParts(user, pass, host, port))
         case _ => None)
  }

  /** The URI carries the host, the port and the credentials, and a reader
      gets them back, as long as none contains a delimiter that would be
      misread; the password is dropped when the username is empty. */
  lemma UriRoundTrip(hostname: string, port: string, username: string, passwd: string)
    requires ':' !in hostname && '@' !in hostname && '@' !in port
    requires ':' !in username && '@' !in username && '@' !in passwd
    ensures ParseUri(ConnectionUri(hostname, port, username, passwd))
            == Some(UriParts(username, if username == "" then "" else passwd, hostname, port))
  {
    var uri := ConnectionUri(hostname, port, username, passwd);
    var hostPort := hostname + [':'] + port;
    SplitAtFirstOf(hostname, port, ':');
    if username == "" {
      AnonymousUriRest(hostname, port);
      assert '@' !in hostPort;
    } else {
      var info := username + [':'] + passwd;
      CredentialUriRest(hostname, port, username, passwd);
      SplitAtFirstOf(info, hostPort, '@');
      SplitAtFirstOf(username, passwd, ':');
    }
  }

  lemma AnonymousUriRest(hostname: string, port: string)
    ensures var uri := ConnectionUri(hostname, port, "", "");
            |uri| >= |Scheme| && uri[..|Scheme|] == Scheme
            && uri[|Scheme|..] == hostname + [':'] + port
  {
  }

  lemma CredentialUriRest(hostname: string, port: string, username: string, passwd: string)
    requires username != ""
    ensures var uri := ConnectionUri(hostname, port, username, passwd);
            |uri| >= |Scheme| && uri[..|Scheme|] == Scheme
            && uri[|Scheme|..] == username + [':'] + passwd + ['@'] + (hostname + [':'] + port)
  {
  }

  /** `monitorInputProcess`: the metric state, the credentials and the URI of
      a five-argument list. */
  function MonitorInputProcess(args: seq<string>): (r: Result<Request, MonitorError>)
    requires |args| == ArgumentCount
    ensures r.Ok? <==> CountOf(args[0], ',') == 1
    ensures r.Err? ==> r.error == InvalidMetricState
    ensures r.Ok? ==>
              && r.value.hostname == args[1]
              && r.value.port == args[2]
              && Login(r.value.username, r.value.passwd) == Credentials(args[3], args[4])
              && r.value.connectionUri == ConnectionUri(args[1], args[2], r.value.username, r.value.passwd)
    ensures r.Ok? ==> ParseMetricState(args[0]) == Ok(MetricState(r.value.checkStatus, r.value.checkTimeout))
  {
    match ParseMetricState(args[0])
    case Err(e) => Err(e)
    case Ok(state) =>
      var login := Credentials(args[3], args[4]);
      Ok(Request(
        ConnectionUri(args[1], args[2], login.username, login.passwd),
        state.checkStatus,
        state.checkTimeout,
        args[1],
        login.username,
        login.passwd,
        args[2]))
  }

  /** `monitorInput`: exactly five arguments are required before anything else. */
  function MonitorInput(args: seq<string>): (r: Result<Request, MonitorError>)
    ensures |args| != ArgumentCount ==> r == Err(InvalidParametersNumber)
    ensures |args| == ArgumentCount ==> (r.Ok? <==> CountOf(args[0], ',') == 1)
    ensures |args| == ArgumentCount && r.Err? ==> r.error == InvalidMetricState
    ensures |args| == ArgumentCount ==> r == MonitorInputProcess(args)
  {
    if |args| != ArgumentCount then Err(InvalidParametersNumber)
    else MonitorInputProcess(args)
  }

  /** A placeholder username connects anonymously whatever password was given. */
  lemma PlaceholderIsAnonymous(state: string, hostname: string, port: string, passwd: string)
    requires CountOf(state, ',') == 1
    ensures var r := MonitorInput([state, hostname, port, Placeholder, passwd]);
            r.Ok? && r.value.username == "" && r.value.passwd == ""
            && r.value.connectionUri == Scheme + (hostname + ":" + port)
  {
  }
}
