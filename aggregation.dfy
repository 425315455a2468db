/**
 * avg_pps and avg_latency as one operation: keep the lines whose "Type"
 * is the metric's record type, decode them, project one optional field,
 * drop the Nones and take the arithmetic mean.
 */
module Aggregation {
  import opened Outcomes
  import opened Decimal
  import opened UnitParser
  import opened Records

  datatype TestField = BitsPerSecond | ConnectionsPerSecond | PacketsPerSecond | AverageLatency
  datatype LatencyField = Avg | Min | P50 | P90 | P95 | P99 | P999 | P9999 | Max

  /** Which field of which record type is averaged. */
  datatype Metric = OfTest(testField: TestField) | OfLatency(latencyField: LatencyField)

  /** The metric avg_pps averages: PacketsPerSecond of "TestResult" lines. */
  const Packets: Metric := OfTest(PacketsPerSecond)

  /** The metric avg_latency averages: Avg of "LatencyResult" lines. */
  const Latency: Metric := OfLatency(Avg)

  /** The value of "Type" that selects the lines `m` is taken from. */
  function TypeTag(m: Metric): string {
    match m
    case OfTest(_) => "TestResult"
    case OfLatency(_) => "LatencyResult"
  }

  function ProjectTest(r: TestResult, f: TestField): Option<real> {
    match f
    case BitsPerSecond => r.bitsPerSecond
    case ConnectionsPerSecond => r.connectionsPerSecond
    case PacketsPerSecond => r.packetsPerSecond
    case AverageLatency => r.averageLatency
  }

  function ProjectLatency(r: LatencyResult, f: LatencyField): Option<real> {
    match f
    case Avg => r.avg
    case Min => r.min
    case P50 => r.p50
    case P90 => r.p90
    case P95 => r.p95
    case P99 => r.p99
    case P999 => r.p999
    case P9999 => r.p9999
    case Max => r.max
  }

  /** A line of the metric's record type: it is decoded in full, then projected. */
  predicate Matches(line: Json, m: Metric) {
    "Type" in line && line["Type"] == TypeTag(m)
  }

  /** _get_pps / _get_latency: the value one line contributes, if any. */
  function LineValue(line: Json, m: Metric): (r: Result<Option<real>>)
    ensures "Type" !in line ==> r == Err(MissingKey("Type"))
    ensures "Type" in line && !Matches(line, m) ==> r == Ok(None)
    ensures r.Ok? && r.value.Some? ==> Matches(line, m)
    ensures r.Err? ==> r.error.LineError()
  {
    var tag :- Field(line, "Type");
    if tag != TypeTag(m) then Ok(None)
    else
      match m
      case OfTest(f) =>
        var record :- DecodeTestResult(line);
        Ok(ProjectTest(record, f))
      case OfLatency(f) =>
        var record :- DecodeLatencyResult(line);
        Ok(ProjectLatency(record, f))
  }

  /**
   * A line of the metric's type is decoded in full: it fails exactly when
   * its decoder fails (so a bad field the metric does not use still
   * aborts), and otherwise yields the metric's field of the record.
   */
  lemma MatchingLineDecoded(line: Json, m: Metric)
    requires Matches(line, m)
    ensures m.OfTest? ==>
      (LineValue(line, m).Ok? <==> DecodeTestResult(line).Ok?) &&
      (LineValue(line, m).Ok? ==>
         LineValue(line, m).value == ProjectTest(DecodeTestResult(line).value, m.testField))
    ensures m.OfLatency? ==>
      (LineValue(line, m).Ok? <==> DecodeLatencyResult(line).Ok?) &&
      (LineValue(line, m).Ok? ==>
         LineValue(line, m).value == ProjectLatency(DecodeLatencyResult(line).value, m.latencyField))
  {
  }

  /** The extractor avg_pps or avg_latency maps over the lines of its file. */
  function Getter(m: Metric): Json -> Result<Option<real>> {
    line => LineValue(line, m)
  }

  /** `map(get, lines)`: the outcome of each line, in file order. */
  function MapLines(lines: seq<Json>, get: Json -> Result<Option<real>>): (rs: seq<Result<Option<real>>>)
    ensures |rs| == |lines|
    ensures forall i :: 0 <= i < |lines| ==> rs[i] == get(lines[i])
  {
    seq(|lines|, i requires 0 <= i < |lines| => get(lines[i]))
  }

  /** The generator's values: the Somes in order, the first error aborting. */
  function Collect(rs: seq<Result<Option<real>>>): Result<seq<real>>
  {
    if rs == [] then Ok([])
    else
      var v :- rs[0];
      var rest :- Collect(rs[1..]);
      Ok(if v.Some? then [v.value] + rest else rest)
  }

  /** `[b for b in map(get, lines) if b is not None]`, or the first error. */
  function Values(lines: seq<Json>, get: Json -> Result<Option<real>>): Result<seq<real>>
  {
    Collect(MapLines(lines, get))
  }

  function Sum(vals: seq<real>): real {
    if vals == [] then 0.0 else Sum(vals[..|vals| - 1]) + vals[|vals| - 1]
  }

  /** statistics.mean: the arithmetic mean, an error on no values. */
  function Mean(vals: seq<real>): (r: Result<real>)
    ensures r.Err? <==> vals == []
    ensures r.Err? ==> r.error == EmptyAggregate
    ensures r.Ok? ==> r.value * |vals| as real == Sum(vals)
  {
    if vals == [] then Err(EmptyAggregate) else Ok(Sum(vals) / |vals| as real)
  }

  /** `mean(b for b in map(get, lines) if b is not None)`. */
  function MeanOf(lines: seq<Json>, get: Json -> Result<Option<real>>): Result<real>
  {
    var vals :- Values(lines, get);
    Mean(vals)
  }

  /** Collecting the outcomes of lines raises only the lines' own errors. */
  lemma {:induction false} CollectLineErrors(rs: seq<Result<Option<real>>>)
    requires forall i :: 0 <= i < |rs| && rs[i].Err? ==> rs[i].error.LineError()
    ensures Collect(rs).Err? ==> Collect(rs).error.LineError()
  {
    if rs != [] {
      assert forall i :: 0 <= i < |rs[1..]| ==> rs[1..][i] == rs[i + 1];
      CollectLineErrors(rs[1..]);
    }
  }

  /**
   * avg_pps and avg_latency, parameterised by the metric: the sum of the
   * contributed values over their count, the first failing line's error,
   * or the empty-aggregate error when nothing contributes.
   */
  function Aggregate(lines: seq<Json>, m: Metric): (r: Result<real>)
    ensures Values(lines, Getter(m)).Err? ==> r == Err(Values(lines, Getter(m)).error)
    ensures Values(lines, Getter(m)).Ok? ==> (r.Ok? <==> Values(lines, Getter(m)).value != [])
    ensures r == Err(EmptyAggregate) <==> Values(lines, Getter(m)) == Ok([])
    ensures r.Ok? ==> Values(lines, Getter(m)).Ok?
    ensures r.Ok? ==> r.value * |Values(lines, Getter(m)).value| as real == Sum(Values(lines, Getter(m)).value)
  {
    CollectLineErrors(MapLines(lines, Getter(m)));
    MeanOf(lines, Getter(m))
  }

  function AvgPps(lines: seq<Json>): Result<real> {
    Aggregate(lines, Packets)
  }

  function AvgLatency(lines: seq<Json>): Result<real> {
    Aggregate(lines, Latency)
  }

  lemma MapLinesAppend(a: seq<Json>, b: seq<Json>, get: Json -> Result<Option<real>>)
    ensures MapLines(a + b, get) == MapLines(a, get) + MapLines(b, get)
  {
    assert forall i :: 0 <= i < |a + b| ==> (a + b)[i] == if i < |a| then a[i] else b[i - |a|];
  }

  /** Collecting distributes over concatenation, the first error winning. */
  lemma {:induction false} CollectAppend(x: seq<Result<Option<real>>>, y: seq<Result<Option<real>>>)
    ensures Collect(x).Err? ==> Collect(x + y) == Collect(x)
    ensures Collect(x).Ok? && Collect(y).Err? ==> Collect(x + y) == Collect(y)
    ensures Collect(x).Ok? && Collect(y).Ok? ==> Collect(x + y) == Ok(Collect(x).value + Collect(y).value)
  {
    if x == [] {
      assert x + y == y;
      assert Collect(x) == Ok([]);
      assert Collect(y).Ok? ==> [] + Collect(y).value == Collect(y).value;
    } else {
      assert (x + y)[0] == x[0];
      assert (x + y)[1..] == x[1..] + y;
      CollectAppend(x[1..], y);
      if x[0].Ok? && Collect(x[1..]).Ok? && Collect(y).Ok? {
        var v := x[0].value;
        if v.Some? {
          assert [v.value] + (Collect(x[1..]).value + Collect(y).value)
              == ([v.value] + Collect(x[1..]).value) + Collect(y).value;
        }
      }
    }
  }

  /** The values of two files one after the other: the first error wins, else they concatenate. */
  lemma ValuesAppend(a: seq<Json>, b: seq<Json>, get: Json -> Result<Option<real>>)
    ensures Values(a, get).Err? ==> Values(a + b, get) == Values(a, get)
    ensures Values(a, get).Ok? && Values(b, get).Err? ==> Values(a + b, get) == Values(b, get)
    ensures Values(a, get).Ok? && Values(b, get).Ok? ==>
      Values(a + b, get) == Ok(Values(a, get).value + Values(b, get).value)
  {
    MapLinesAppend(a, b, get);
    CollectAppend(MapLines(a, get), MapLines(b, get));
  }

  /** A line that yields no value (`None`) changes nothing, wherever it stands. */
  lemma SilentLineIgnored(a: seq<Json>, line: Json, b: seq<Json>, get: Json -> Result<Option<real>>)
    requires get(line) == Ok(None)
    ensures Values(a + [line] + b, get) == Values(a + b, get)
  {
    var x, y := MapLines(a, get), MapLines(b, get);
    MapLinesAppend(a + [line], b, get);
    MapLinesAppend(a, [line], get);
    MapLinesAppend(a, b, get);
    var silent: seq<Result<Option<real>>> := [Ok(None)];
    assert MapLines([line], get) == silent;
    assert Collect(silent) == Ok([]) by {
      assert silent[1..] == [];
    }
    CollectAppend(x, silent);
    CollectAppend(x + silent, y);
    CollectAppend(x, y);
    assert Collect(x).Ok? ==> Collect(x).value + [] == Collect(x).value;
    assert MapLines(a + [line] + b, get) == (x + silent) + y;
    assert MapLines(a + b, get) == x + y;
  }

  /** A line whose Type is not the metric's contributes nothing and raises nothing. */
  lemma OtherTypeIgnored(a: seq<Json>, line: Json, b: seq<Json>, m: Metric)
    requires "Type" in line && line["Type"] != TypeTag(m)
    ensures Values(a + [line] + b, Getter(m)) == Values(a + b, Getter(m))
    ensures Aggregate(a + [line] + b, m) == Aggregate(a + b, m)
  {
    SilentLineIgnored(a, line, b, Getter(m));
  }

  /** A matching line whose metric field is empty contributes nothing either. */
  lemma EmptyFieldIgnored(a: seq<Json>, line: Json, b: seq<Json>, m: Metric)
    requires Matches(line, m) && LineValue(line, m) == Ok(None)
    ensures Aggregate(a + [line] + b, m) == Aggregate(a + b, m)
  {
    SilentLineIgnored(a, line, b, Getter(m));
  }

  lemma {:induction false} CollectNothing(rs: seq<Result<Option<real>>>)
    requires forall i :: 0 <= i < |rs| ==> rs[i] == Ok(None)
    ensures Collect(rs) == Ok([])
  {
    if rs != [] {
      CollectNothing(rs[1..]);
    }
  }

  /** A file whose every line has another Type averages nothing: the empty-aggregate error. */
  lemma OnlyOtherTypes(lines: seq<Json>, m: Metric)
    requires forall i :: 0 <= i < |lines| ==> "Type" in lines[i] && lines[i]["Type"] != TypeTag(m)
    ensures Values(lines, Getter(m)) == Ok([])
    ensures Aggregate(lines, m) == Err(EmptyAggregate)
  {
    CollectNothing(MapLines(lines, Getter(m)));
  }

  lemma {:induction false} CollectedFrom(rs: seq<Result<Option<real>>>, k: nat)
    requires Collect(rs).Ok? && k < |Collect(rs).value|
    ensures exists i :: 0 <= i < |rs| && rs[i] == Ok(Some(Collect(rs).value[k]))
  {
    var v := rs[0].value;
    if !(v.Some? && k == 0) {
      var k' := if v.Some? then k - 1 else k;
      CollectedFrom(rs[1..], k');
      var i :| 0 <= i < |rs[1..]| && rs[1..][i] == Ok(Some(Collect(rs[1..]).value[k']));
      assert rs[i + 1] == rs[1..][i];
    }
  }

  /** Every contributed value comes from a line of the metric's type, in that line's field. */
  lemma ValueFromMatchingLine(lines: seq<Json>, m: Metric, k: nat)
    requires Values(lines, Getter(m)).Ok? && k < |Values(lines, Getter(m)).value|
    ensures exists i :: 0 <= i < |lines| && Matches(lines[i], m)
                        && LineValue(lines[i], m) == Ok(Some(Values(lines, Getter(m)).value[k]))
  {
    var rs := MapLines(lines, Getter(m));
    CollectedFrom(rs, k);
    var i :| 0 <= i < |lines| && rs[i] == Ok(Some(Values(lines, Getter(m)).value[k]));
    assert LineValue(lines[i], m) == rs[i];
  }

  lemma {:induction false} CollectKeeps(rs: seq<Result<Option<real>>>, i: nat, x: real)
    requires Collect(rs).Ok? && i < |rs| && rs[i] == Ok(Some(x))
    ensures x in Collect(rs).value
  {
    if i > 0 {
      assert rs[1..][i - 1] == rs[i];
      CollectKeeps(rs[1..], i - 1, x);
    }
  }

  /** Every line of the metric's type with a value contributes that value. */
  lemma MatchingLineContributes(lines: seq<Json>, m: Metric, i: nat, x: real)
    requires Values(lines, Getter(m)).Ok?
    requires i < |lines| && LineValue(lines[i], m) == Ok(Some(x))
    ensures x in Values(lines, Getter(m)).value
  {
    CollectKeeps(MapLines(lines, Getter(m)), i, x);
  }

  /** The first line that fails decides the outcome of the whole file. */
  lemma FirstErrorWins(lines: seq<Json>, i: nat, get: Json -> Result<Option<real>>)
    requires i < |lines| && Values(lines[..i], get).Ok? && get(lines[i]).Err?
    ensures Values(lines, get) == Err(get(lines[i]).error)
    ensures MeanOf(lines, get) == Err(get(lines[i]).error)
  {
    assert lines == lines[..i] + lines[i..];
    assert MapLines(lines[i..], get)[0] == get(lines[i]);
    ValuesAppend(lines[..i], lines[i..], get);
  }

  lemma {:induction false} SumBounds(vals: seq<real>, lo: real, hi: real)
    requires forall i :: 0 <= i < |vals| ==> lo <= vals[i] <= hi
    ensures |vals| as real * lo <= Sum(vals) <= |vals| as real * hi
  {
    if vals != [] {
      var init := vals[..|vals| - 1];
      SumBounds(init, lo, hi);
      var m := |init| as real;
      assert |vals| as real == m + 1.0;
      assert (m + 1.0) * lo == m * lo + lo && (m + 1.0) * hi == m * hi + hi;
    }
  }

  /** The mean lies between any lower and upper bound of the values. */
  lemma MeanBounds(vals: seq<real>, lo: real, hi: real)
    requires vals != []
    requires forall i :: 0 <= i < |vals| ==> lo <= vals[i] <= hi
    ensures lo <= Mean(vals).value <= hi
  {
    SumBounds(vals, lo, hi);
    var n := |vals| as real;
    var mean := Mean(vals).value;
    assert (mean - lo) * n >= 0.0 && (hi - mean) * n >= 0.0;
  }

  lemma CollectSingle(r: Result<Option<real>>)
    requires r.Ok?
    ensures Collect([r]) == Ok(if r.value.Some? then [r.value.value] else [])
  {
    assert [r][1..] == [];
    if r.value.Some? {
      assert [r.value.value] + [] == [r.value.value];
    }
  }

  /** One more line extends the contributed values by that line's value, if any. */
  lemma ValuesStep(lines: seq<Json>, i: nat, get: Json -> Result<Option<real>>)
    requires i < |lines| && Values(lines[..i], get).Ok? && get(lines[i]).Ok?
    ensures Values(lines[..i + 1], get) == Ok(Values(lines[..i], get).value +
      (if get(lines[i]).value.Some? then [get(lines[i]).value.value] else []))
  {
    assert lines[..i + 1] == lines[..i] + [lines[i]];
    assert MapLines([lines[i]], get) == [get(lines[i])];
    CollectSingle(get(lines[i]));
    ValuesAppend(lines[..i], [lines[i]], get);
  }

  lemma SumAppend(vals: seq<real>, x: real)
    ensures Sum(vals + [x]) == Sum(vals) + x
  {
    assert (vals + [x])[..|vals|] == vals;
  }

  /**
   * The loop mean() runs over `map(get, lines)`: accumulate the sum and
   * the count of the values that are not None, stopping at the first
   * line that fails.
   */
  method MeanLoop(lines: seq<Json>, get: Json -> Result<Option<real>>) returns (r: Result<real>)
    ensures r == MeanOf(lines, get)
  {
    var sum, count := 0.0, 0;
    ghost var vals: seq<real> := [];
    var i := 0;
    while i < |lines|
      invariant 0 <= i <= |lines|
      invariant Values(lines[..i], get) == Ok(vals)
      invariant sum == Sum(vals) && count == |vals|
    {
      var v := get(lines[i]);
      if v.Err? {
        FirstErrorWins(lines, i, get);
        return Err(v.error);
      }
      ValuesStep(lines, i, get);
      if v.value.Some? {
        SumAppend(vals, v.value.value);
        sum, count := sum + v.value.value, count + 1;
        vals := vals + [v.value.value];
      } else {
        assert vals + [] == vals;
      }
      i := i + 1;
    }
    assert lines[..i] == lines;
    if count == 0 {
      return Err(EmptyAggregate);
    }
    return Ok(sum / count as real);
  }

  /** avg_pps and avg_latency computed by the loop. */
  method AggregateLoop(lines: seq<Json>, m: Metric) returns (r: Result<real>)
    ensures r == Aggregate(lines, m)
  {
    r := MeanLoop(lines, Getter(m));
  }

  /** Every "TestResult" line that decodes contributes its PacketsPerSecond, read by to_number. */
  lemma PacketsLineValue(j: Json)
    requires Matches(j, Packets) && DecodeTestResult(j).Ok?
    ensures LineValue(j, Packets) == Ok(ToNumber(j["PacketsPerSecond"]).value)
  {
    MatchingLineDecoded(j, Packets);
  }

  /** Every "LatencyResult" line that decodes contributes its Avg, read by to_usec. */
  lemma LatencyLineAvg(j: Json)
    requires Matches(j, Latency) && DecodeLatencyResult(j).Ok?
    ensures LineValue(j, Latency) == Ok(ToUsec(j["Avg"]).value)
  {
    MatchingLineDecoded(j, Latency);
  }

  /** A "TestResult" line whose only non-empty figure is PacketsPerSecond. */
  function ThroughputLine(pps: string): Json {
    map["Type" := "TestResult", "RemoteAddr" := "[10.0.0.1]", "Protocol" := "TCP",
        "BitsPerSecond" := "", "ConnectionsPerSecond" := "",
        "PacketsPerSecond" := pps, "AverageLatency" := ""]
  }

  lemma ThroughputLineValue(pps: string)
    requires ToNumber(pps).Ok?
    ensures LineValue(ThroughputLine(pps), Packets) == ToNumber(pps)
  {
    var j := ThroughputLine(pps);
    ThroughputLineFields(pps);
    assert NumberOk(j, "BitsPerSecond") && NumberOk(j, "ConnectionsPerSecond");
    assert NumberOk(j, "PacketsPerSecond") && DurationOk(j, "AverageLatency");
    var record := DecodeTestResult(j).value;
    assert record.packetsPerSecond == ToNumber(pps).value;
  }

  lemma ThroughputLineFields(pps: string)
    ensures var j := ThroughputLine(pps);
      && j["Type"] == "TestResult" && Matches(j, Packets)
      && "RemoteAddr" in j && "Protocol" in j
      && j["BitsPerSecond"] == "" && j["ConnectionsPerSecond"] == ""
      && j["PacketsPerSecond"] == pps && j["AverageLatency"] == ""
  {
  }

  /** A file of one contributing line averages to that line's value. */
  lemma MeanOfOne(lines: seq<Json>, get: Json -> Result<Option<real>>, a: real)
    requires |lines| == 1 && get(lines[0]) == Ok(Some(a))
    ensures MeanOf(lines, get) == Ok(a)
  {
    assert MapLines(lines, get) == [Ok(Some(a))];
    CollectOne(a);
    assert Sum([a]) == a by {
      assert [a][..0] == [];
    }
  }

  lemma CollectOne(a: real)
    ensures Collect([Ok(Some(a))]) == Ok([a])
  {
    var rs: seq<Result<Option<real>>> := [Ok(Some(a))];
    assert rs[1..] == [];
    assert Collect(rs[1..]) == Ok([]);
    assert [a] + [] == [a];
  }

  lemma CollectCons(x: real, rest: seq<Result<Option<real>>>)
    requires Collect(rest).Ok?
    ensures Collect([Ok(Some(x))] + rest) == Ok([x] + Collect(rest).value)
  {
    var rs := [Ok(Some(x))] + rest;
    assert rs[0] == Ok(Some(x)) && rs[1..] == rest;
  }

  lemma CollectThree(a: real, b: real, c: real)
    ensures Collect([Ok(Some(a)), Ok(Some(b)), Ok(Some(c))]) == Ok([a, b, c])
  {
    var last: seq<Result<Option<real>>> := [Ok(Some(c))];
    CollectOne(c);
    CollectCons(b, last);
    assert [Ok(Some(b))] + last == [Ok(Some(b)), Ok(Some(c))];
    CollectCons(a, [Ok(Some(b)), Ok(Some(c))]);
    assert [Ok(Some(a))] + [Ok(Some(b)), Ok(Some(c))] == [Ok(Some(a)), Ok(Some(b)), Ok(Some(c))];
    assert [b] + [c] == [b, c] && [a] + [b, c] == [a, b, c];
  }

  /** A "LatencyResult" line whose only non-empty figure is Avg. */
  function LatencyLine(avg: string): Json {
    map["Type" := "LatencyResult", "RemoteAddr" := "[10.0.0.1]", "Protocol" := "TCP",
        "Avg" := avg, "Min" := "", "P50" := "", "P90" := "", "P95" := "",
        "P99" := "", "P999" := "", "P9999" := "", "Max" := ""]
  }

  lemma LatencyLineValue(avg: string)
    requires ToUsec(avg).Ok?
    ensures LineValue(LatencyLine(avg), Latency) == ToUsec(avg)
  {
    var j := LatencyLine(avg);
    LatencyLineFields(avg);
    assert DurationOk(j, "Avg") && DurationOk(j, "Min") && DurationOk(j, "P50");
    assert DurationOk(j, "P90") && DurationOk(j, "P95") && DurationOk(j, "P99");
    assert DurationOk(j, "P999") && DurationOk(j, "P9999") && DurationOk(j, "Max");
    var record := DecodeLatencyResult(j).value;
    assert record.avg == ToUsec(avg).value;
  }

  lemma LatencyLineFields(avg: string)
    ensures var j := LatencyLine(avg);
      && j["Type"] == "LatencyResult" && Matches(j, Latency)
      && "RemoteAddr" in j && "Protocol" in j && j["Avg"] == avg
      && j["Min"] == "" && j["P50"] == "" && j["P90"] == "" && j["P95"] == ""
      && j["P99"] == "" && j["P999"] == "" && j["P9999"] == "" && j["Max"] == ""
  {
  }

  lemma SumThree(a: real, b: real, c: real)
    ensures Sum([a, b, c]) == a + b + c
  {
    SumAppend([], a);
    SumAppend([a], b);
    SumAppend([a, b], c);
    assert [] + [a] == [a] && [a] + [b] == [a, b] && [a, b] + [c] == [a, b, c];
  }

  lemma MeanThree(a: real, b: real, c: real)
    ensures Mean([a, b, c]) == Ok((a + b + c) / 3.0)
  {
    SumThree(a, b, c);
    assert |[a, b, c]| as real == 3.0;
  }

  lemma MapThree(lines: seq<Json>, get: Json -> Result<Option<real>>, a: real, b: real, c: real)
    requires |lines| == 3
    requires get(lines[0]) == Ok(Some(a))
    requires get(lines[1]) == Ok(Some(b))
    requires get(lines[2]) == Ok(Some(c))
    ensures MapLines(lines, get) == [Ok(Some(a)), Ok(Some(b)), Ok(Some(c))]
  {
    var rs := MapLines(lines, get);
    assert rs[0] == Ok(Some(a)) && rs[1] == Ok(Some(b)) && rs[2] == Ok(Some(c));
  }

  lemma MeanOfMapThree(lines: seq<Json>, get: Json -> Result<Option<real>>, a: real, b: real, c: real)
    requires MapLines(lines, get) == [Ok(Some(a)), Ok(Some(b)), Ok(Some(c))]
    ensures MeanOf(lines, get) == Ok((a + b + c) / 3.0)
  {
    CollectThree(a, b, c);
    MeanThree(a, b, c);
  }

  /** Three lines that each contribute a value average to the mean of the three. */
  lemma MeanOfThree(lines: seq<Json>, get: Json -> Result<Option<real>>, a: real, b: real, c: real)
    requires |lines| == 3
    requires get(lines[0]) == Ok(Some(a))
    requires get(lines[1]) == Ok(Some(b))
    requires get(lines[2]) == Ok(Some(c))
    ensures MeanOf(lines, get) == Ok((a + b + c) / 3.0)
  {
    MapThree(lines, get, a, b, c);
    MeanOfMapThree(lines, get, a, b, c);
  }

  /** Packets per second of "1M", "2M" and "3M" average to 2,000,000. */
  lemma PacketsMeanExample()
    ensures AvgPps([ThroughputLine("1M"), ThroughputLine("2M"), ThroughputLine("3M")]) == Ok(2000000.0)
  {
    MegaExample(1);
    MegaExample(2);
    MegaExample(3);
    ThroughputLineValue("1M");
    ThroughputLineValue("2M");
    ThroughputLineValue("3M");
    MeanOfThree([ThroughputLine("1M"), ThroughputLine("2M"), ThroughputLine("3M")], Getter(Packets),
                1000000.0, 2000000.0, 3000000.0);
  }

  /** n followed by M is n million. */
  lemma MegaExample(n: nat)
    requires 1 <= n <= 3
    ensures ToNumber(NatText(n) + "M") == Ok(Some(n as real * 1000000.0))
    ensures NatText(n) + "M" == ['0' + n as char, 'M']
  {
    ParseNatText(n);
    ToNumberScaled(NatText(n), 'M');
    assert [ 'M' ] == "M";
  }
}
