/**
 * The two record types of ethr's JSON-lines output and their decoders.
 * A line is taken as already decoded: a map from key to string value.
 */
module Records {
  import opened Outcomes
  import opened UnitParser

  type Json = map<string, string>

  /** A "TestResult" line: throughput and connection figures. */
  datatype TestResult = TestResult(
    remoteAddr: seq<string>,
    protocol: string,
    bitsPerSecond: Option<real>,         // bps
    connectionsPerSecond: Option<real>,  // cps
    packetsPerSecond: Option<real>,      // pps
    averageLatency: Option<real>)        // microseconds

  /**
   * A "LatencyResult" line: latency summary in microseconds. The source
   * annotates these as plain floats, but to_usec gives None on an empty
   * value, so each is optional here.
   */
  datatype LatencyResult = LatencyResult(
    remoteAddr: seq<string>,
    protocol: string,
    avg: Option<real>,
    min: Option<real>,
    p50: Option<real>,
    p90: Option<real>,
    p95: Option<real>,
    p99: Option<real>,
    p999: Option<real>,
    p9999: Option<real>,
    max: Option<real>)

  /** `sep.join(parts)`. */
  function Join(parts: seq<string>, sep: char): string
  {
    if parts == [] then ""
    else if |parts| == 1 then parts[0]
    else parts[0] + [sep] + Join(parts[1..], sep)
  }

  /** `s.split(sep)`: the pieces between separators, never an empty list. */
  function Split(s: string, sep: char): (parts: seq<string>)
    ensures |parts| >= 1
    ensures forall i :: 0 <= i < |parts| ==> sep !in parts[i]
    ensures Join(parts, sep) == s
  {
    if s == [] then [""]
    else
      var rest := Split(s[1..], sep);
      if s[0] == sep then [""] + rest
      else [[s[0]] + rest[0]] + rest[1..]
  }

  /** Splitting a join of separator-free pieces gives the pieces back. */
  lemma {:induction false} SplitJoin(parts: seq<string>, sep: char)
    requires |parts| >= 1
    requires forall i :: 0 <= i < |parts| ==> sep !in parts[i]
    ensures Split(Join(parts, sep), sep) == parts
  {
    if |parts| == 1 {
      SplitPiece(parts[0], sep);
    } else {
      SplitJoin(parts[1..], sep);
      SplitPrefix(parts[0], Join(parts[1..], sep), sep);
    }
  }

  lemma {:induction false} SplitPiece(p: string, sep: char)
    requires sep !in p
    ensures Split(p, sep) == [p]
  {
    if p != [] {
      SplitPiece(p[1..], sep);
    }
  }

  /** A separator-free piece before a separator becomes the first part. */
  lemma {:induction false} SplitPrefix(p: string, tail: string, sep: char)
    requires sep !in p
    ensures Split(p + [sep] + tail, sep) == [p] + Split(tail, sep)
  {
    if p == [] {
      assert p + [sep] + tail == [sep] + tail;
      assert ([sep] + tail)[1..] == tail;
    } else {
      var s := p + [sep] + tail;
      assert s[0] == p[0] && s[1..] == p[1..] + [sep] + tail;
      SplitPrefix(p[1..], tail, sep);
      var rest := Split(s[1..], sep);
      assert rest[0] == p[1..] && rest[1..] == Split(tail, sep);
      assert [p[0]] + p[1..] == p;
    }
  }

  /** `s[1:-1]`: all but the first and the last character; empty when fewer than two. */
  function Inner(s: string): (t: string)
    ensures |s| >= 2 ==> [s[0]] + t + [s[|s| - 1]] == s
    ensures |s| < 2 ==> t == ""
  {
    if |s| < 2 then "" else s[1..|s| - 1]
  }

  /** `RemoteAddr[1:-1].split(",")`: the bracketed, comma-separated address list. */
  function DecodeRemoteAddr(s: string): (addrs: seq<string>)
    ensures |addrs| >= 1
    ensures forall i :: 0 <= i < |addrs| ==> ',' !in addrs[i]
    ensures Join(addrs, ',') == Inner(s)
  {
    Split(Inner(s), ',')
  }

  /** Bracketing a comma-joined list of addresses and decoding it gives the list back. */
  lemma RemoteAddrRoundTrip(addrs: seq<string>, open: char, close: char)
    requires |addrs| >= 1
    requires forall i :: 0 <= i < |addrs| ==> ',' !in addrs[i]
    ensures DecodeRemoteAddr([open] + Join(addrs, ',') + [close]) == addrs
  {
    var s := [open] + Join(addrs, ',') + [close];
    assert Inner(s) == Join(addrs, ',');
    SplitJoin(addrs, ',');
  }

  /** "[a,b]" decodes to the two addresses a and b. */
  lemma RemoteAddrPair(a: string, b: string)
    requires ',' !in a && ',' !in b
    ensures DecodeRemoteAddr("[" + a + "," + b + "]") == [a, b]
  {
    var addrs := [a, b];
    assert Join(addrs, ',') == a + "," + b by {
      assert addrs[1..] == [b];
    }
    RemoteAddrRoundTrip(addrs, '[', ']');
    assert "[" + a + "," + b + "]" == ['['] + Join(addrs, ',') + [']'];
  }

  /** `json[key]`: the value, or the KeyError for a missing key. */
  function Field(j: Json, key: string): (r: Result<string>)
    ensures r.Ok? <==> key in j
    ensures r.Ok? ==> r.value == j[key]
    ensures r.Err? ==> r.error == MissingKey(key)
  {
    if key in j then Ok(j[key]) else Err(MissingKey(key))
  }

  /** `to_number(json[key])`. */
  function NumberField(j: Json, key: string): (r: Result<Option<real>>)
    ensures key !in j ==> r == Err(MissingKey(key))
    ensures key in j ==> r == ToNumber(j[key])
    ensures r.Err? ==> r.error.LineError()
  {
    var text :- Field(j, key);
    ToNumber(text)
  }

  /** `to_usec(json[key])`. */
  function DurationField(j: Json, key: string): (r: Result<Option<real>>)
    ensures key !in j ==> r == Err(MissingKey(key))
    ensures key in j ==> r == ToUsec(j[key])
    ensures r.Err? ==> r.error.LineError()
  {
    var text :- Field(j, key);
    ToUsec(text)
  }

  predicate NumberOk(j: Json, key: string) {
    key in j && ToNumber(j[key]).Ok?
  }

  predicate DurationOk(j: Json, key: string) {
    key in j && ToUsec(j[key]).Ok?
  }

  /** RemoteAddr, Protocol and the first `n` numeric arguments of TestResult.from_json succeed. */
  predicate TestFieldsOk(j: Json, n: nat) {
    && "RemoteAddr" in j && "Protocol" in j
    && (n > 0 ==> NumberOk(j, "BitsPerSecond"))
    && (n > 1 ==> NumberOk(j, "ConnectionsPerSecond"))
    && (n > 2 ==> NumberOk(j, "PacketsPerSecond"))
  }

  /**
   * TestResult.from_json. The arguments are evaluated in order, so the
   * first missing key or rejected value is the error.
   */
  function DecodeTestResult(j: Json): (r: Result<TestResult>)
    ensures r.Ok? <==>
      && "RemoteAddr" in j && "Protocol" in j
      && NumberOk(j, "BitsPerSecond") && NumberOk(j, "ConnectionsPerSecond")
      && NumberOk(j, "PacketsPerSecond") && DurationOk(j, "AverageLatency")
    ensures r.Ok? ==> r.value == TestResult(
      DecodeRemoteAddr(j["RemoteAddr"]), j["Protocol"],
      ToNumber(j["BitsPerSecond"]).value, ToNumber(j["ConnectionsPerSecond"]).value,
      ToNumber(j["PacketsPerSecond"]).value, ToUsec(j["AverageLatency"]).value)
    ensures r.Err? ==> r.error.LineError()
    // The first failing argument, in the order of the constructor call, is the error.
    ensures "RemoteAddr" !in j ==> r == Err(MissingKey("RemoteAddr"))
    ensures "RemoteAddr" in j && "Protocol" !in j ==> r == Err(MissingKey("Protocol"))
    ensures TestFieldsOk(j, 0) && NumberField(j, "BitsPerSecond").Err? ==>
      r == NumberField(j, "BitsPerSecond").PropagateFailure()
    ensures TestFieldsOk(j, 1) && NumberField(j, "ConnectionsPerSecond").Err? ==>
      r == NumberField(j, "ConnectionsPerSecond").PropagateFailure()
    ensures TestFieldsOk(j, 2) && NumberField(j, "PacketsPerSecond").Err? ==>
      r == NumberField(j, "PacketsPerSecond").PropagateFailure()
    ensures TestFieldsOk(j, 3) && DurationField(j, "AverageLatency").Err? ==>
      r == DurationField(j, "AverageLatency").PropagateFailure()
  {
    var addr :- Field(j, "RemoteAddr");
    var protocol :- Field(j, "Protocol");
    var bps :- NumberField(j, "BitsPerSecond");
    var cps :- NumberField(j, "ConnectionsPerSecond");
    var pps :- NumberField(j, "PacketsPerSecond");
    var latency :- DurationField(j, "AverageLatency");
    Ok(TestResult(DecodeRemoteAddr(addr), protocol, bps, cps, pps, latency))
  }

  /** RemoteAddr, Protocol and the first `n` duration arguments of LatencyResult.from_json succeed. */
  predicate LatencyFieldsOk(j: Json, n: nat) {
    && "RemoteAddr" in j && "Protocol" in j
    && (n > 0 ==> DurationOk(j, "Avg"))
    && (n > 1 ==> DurationOk(j, "Min"))
    && (n > 2 ==> DurationOk(j, "P50"))
    && (n > 3 ==> DurationOk(j, "P90"))
    && (n > 4 ==> DurationOk(j, "P95"))
    && (n > 5 ==> DurationOk(j, "P99"))
    && (n > 6 ==> DurationOk(j, "P999"))
    && (n > 7 ==> DurationOk(j, "P9999"))
  }

  /** LatencyResult.from_json, with the same left-to-right error order. */
  function DecodeLatencyResult(j: Json): (r: Result<LatencyResult>)
    ensures r.Ok? <==>
      && "RemoteAddr" in j && "Protocol" in j
      && DurationOk(j, "Avg") && DurationOk(j, "Min") && DurationOk(j, "P50")
      && DurationOk(j, "P90") && DurationOk(j, "P95") && DurationOk(j, "P99")
      && DurationOk(j, "P999") && DurationOk(j, "P9999") && DurationOk(j, "Max")
    ensures r.Ok? ==> r.value == LatencyResult(
      DecodeRemoteAddr(j["RemoteAddr"]), j["Protocol"],
      ToUsec(j["Avg"]).value, ToUsec(j["Min"]).value, ToUsec(j["P50"]).value,
      ToUsec(j["P90"]).value, ToUsec(j["P95"]).value, ToUsec(j["P99"]).value,
      ToUsec(j["P999"]).value, ToUsec(j["P9999"]).value, ToUsec(j["Max"]).value)
    ensures r.Err? ==> r.error.LineError()
    // The first failing argument, in the order of the constructor call, is the error.
    ensures "RemoteAddr" !in j ==> r == Err(MissingKey("RemoteAddr"))
    ensures "RemoteAddr" in j && "Protocol" !in j ==> r == Err(MissingKey("Protocol"))
    ensures LatencyFieldsOk(j, 0) && DurationField(j, "Avg").Err? ==>
      r == DurationField(j, "Avg").PropagateFailure()
    ensures LatencyFieldsOk(j, 1) && DurationField(j, "Min").Err? ==>
      r == DurationField(j, "Min").PropagateFailure()
    ensures LatencyFieldsOk(j, 2) && DurationField(j, "P50").Err? ==>
      r == DurationField(j, "P50").PropagateFailure()
    ensures LatencyFieldsOk(j, 3) && DurationField(j, "P90").Err? ==>
      r == DurationField(j, "P90").PropagateFailure()
    ensures LatencyFieldsOk(j, 4) && DurationField(j, "P95").Err? ==>
      r == DurationField(j, "P95").PropagateFailure()
    ensures LatencyFieldsOk(j, 5) && DurationField(j, "P99").Err? ==>
      r == DurationField(j, "P99").PropagateFailure()
    ensures LatencyFieldsOk(j, 6) && DurationField(j, "P999").Err? ==>
      r == DurationField(j, "P999").PropagateFailure()
    ensures LatencyFieldsOk(j, 7) && DurationField(j, "P9999").Err? ==>
      r == DurationField(j, "P9999").PropagateFailure()
    ensures LatencyFieldsOk(j, 8) && DurationField(j, "Max").Err? ==>
      r == DurationField(j, "Max").PropagateFailure()
  {
    var addr :- Field(j, "RemoteAddr");
    var protocol :- Field(j, "Protocol");
    var avg :- DurationField(j, "Avg");
    var min :- DurationField(j, "Min");
    var p50 :- DurationField(j, "P50");
    var p90 :- DurationField(j, "P90");
    var p95 :- DurationField(j, "P95");
    var p99 :- DurationField(j, "P99");
    var p999 :- DurationField(j, "P999");
    var p9999 :- DurationField(j, "P9999");
    var max :- DurationField(j, "Max");
    Ok(LatencyResult(DecodeRemoteAddr(addr), protocol, avg, min, p50, p90, p95, p99, p999, p9999, max))
  }
}
