/** The metric records the probe emits and the `id|val|` lines `output`
    prints for them. */
module Metrics {
  import opened Wrappers
  import opened JsString

  const StatusId := "178:Status:9"
  const ResponseTimeId := "75:Response Time:7"

  /** A metric as printed: its identifier and its value text. */
  datatype Metric = Metric(id: string, val: string)

  /** The availability metric: "1" when the broker answered, "0" otherwise. */
  function StatusMetric(up: bool): (m: Metric)
    ensures m.id == StatusId
    ensures m.val == "1" <==> up
    ensures m.val == "0" <==> !up
  {
    Metric(StatusId, if up then "1" else "0")
  }

  /** The response-time metric, whose value is the elapsed milliseconds written
      in decimal. */
  function ResponseTimeMetric(elapsed: nat): (m: Metric)
    ensures m.id == ResponseTimeId
    ensures AllDigits(m.val) && DecimalValue(m.val) == elapsed
  {
    DecimalRoundTrip(elapsed);
    Metric(ResponseTimeId, Decimal(elapsed))
  }

  /** One output line: the identifier and the value, each followed by `|`. */
  function Line(m: Metric): (line: string)
    ensures |line| == |m.id| + |m.val| + 2 && line[|line| - 1] == '|'
  {
    m.id + "|" + m.val + "|"
  }

  /** Reads an `id|val|` line back into the metric it came from. */
  function ParseLine(line: string): (r: Option<Metric>)
  {
    match SplitAtFirst(line, '|')
    case None => None
    case Some((id, rest)) =>
      if |rest| >= 1 && rest[|rest| - 1] == '|' && '|' !in rest[..|rest| - 1] then
        Some(Metric(id, rest[..|rest| - 1]))
      else
        None
  }

  /** A line is read back as the metric it prints, when neither field contains `|`. */
  lemma LineRoundTrip(m: Metric)
    requires '|' !in m.id && '|' !in m.val
    ensures ParseLine(Line(m)) == Some(m)
  {
    var rest := m.val + "|";
    assert Line(m) == m.id + ['|'] + rest;
    SplitAtFirstOf(m.id, rest, '|');
    assert rest[..|rest| - 1] == m.val;
  }

  /** A line read as a metric ends with `|`. */
  lemma MetricLineEndsWithBar(line: string)
    ensures ParseLine(line).Some? ==> |line| > 0 && line[|line| - 1] == '|'
  {
    match SplitAtFirst(line, '|')
    case None =>
    case Some((id, rest)) =>
      assert line == id + ['|'] + rest;
      if |rest| >= 1 {
        assert line[|line| - 1] == rest[|rest| - 1];
      }
  }

  /** Every metric the monitor builds prints as a line that reads back as itself. */
  lemma MonitorMetricsRoundTrip(up: bool, elapsed: nat)
    ensures ParseLine(Line(StatusMetric(up))) == Some(StatusMetric(up))
    ensures ParseLine(Line(ResponseTimeMetric(elapsed))) == Some(ResponseTimeMetric(elapsed))
  {
    assert '|' !in StatusId by {
      assert forall i :: 0 <= i < |StatusId| ==> StatusId[i] != '|';
    }
    assert '|' !in ResponseTimeId by {
      assert forall i :: 0 <= i < |ResponseTimeId| ==> ResponseTimeId[i] != '|';
    }
    LineRoundTrip(StatusMetric(up));
    var rt := ResponseTimeMetric(elapsed);
    assert '|' !in rt.val by {
      assert forall i :: 0 <= i < |rt.val| ==> IsDigit(rt.val[i]);
    }
    LineRoundTrip(rt);
  }

  /** The lines `output` prints: one per metric, in list order. */
  function Lines(ms: seq<Metric>): (r: seq<string>)
    ensures |r| == |ms|
    ensures forall i :: 0 <= i < |ms| ==> r[i] == Line(ms[i])
  {
    if ms == [] then [] else [Line(ms[0])] + Lines(ms[1..])
  }

  /** One more metric of the list prints one more line at the end. */
  lemma LinesPrefix(ms: seq<Metric>, i: nat)
    requires i < |ms|
    ensures Lines(ms[..i + 1]) == Lines(ms[..i]) + [Line(ms[i])]
  {
    var a, b := Lines(ms[..i + 1]), Lines(ms[..i]) + [Line(ms[i])];
    assert |a| == |b|;
    forall k | 0 <= k < |a| ensures a[k] == b[k] {
      assert ms[..i + 1][k] == ms[k];
    }
  }
}
