/**
 * One row of the summary table: the directory's alpha label, the mean
 * packets per second of its pps.jl and the mean latency of its latency.jl.
 */
module Report {
  import opened Outcomes
  import opened Decimal
  import opened UnitParser
  import opened Records
  import opened Aggregation

  /**
   * The first column. The source writes the int 0 for "baseline" and the
   * directory name (a str) otherwise; the two stay distinct here.
   */
  datatype Alpha = Zero | Named(name: string)

  /** `0 if name == 'baseline' else name`. */
  function AlphaLabel(dirName: string): (a: Alpha)
    ensures a == Zero <==> dirName == "baseline"
    ensures a.Named? ==> a.name == dirName
  {
    if dirName == "baseline" then Zero else Named(dirName)
  }

  /**
   * csv.writer's default quoting (QUOTE_MINIMAL with ',' as delimiter, '"'
   * as quote character and "\r\n" as line terminator) quotes a field that
   * holds any of these characters.
   */
  predicate NeedsQuoting(field: string) {
    ',' in field || '"' in field || '\r' in field || '\n' in field
  }

  /** Inside a quoted field each '"' is written twice. */
  function DoubleQuotes(s: string): (r: string)
    ensures |r| >= |s|
  {
    if s == [] then []
    else (if s[0] == '"' then "\"\"" else [s[0]]) + DoubleQuotes(s[1..])
  }

  /**
   * How a strict CSV reader reads the inside of a quoted field: a doubled
   * '"' is one '"', and a '"' that is not doubled is malformed (None).
   */
  function UndoubleQuotes(s: string): Option<string> {
    if s == [] then Some([])
    else if s[0] == '"' then
      if |s| >= 2 && s[1] == '"' then
        match UndoubleQuotes(s[2..])
        case None => None
        case Some(rest) => Some(['"'] + rest)
      else None
    else
      match UndoubleQuotes(s[1..])
      case None => None
      case Some(rest) => Some([s[0]] + rest)
  }

  lemma {:induction false} UndoubleDouble(s: string)
    ensures UndoubleQuotes(DoubleQuotes(s)) == Some(s)
  {
    if s != [] {
      UndoubleDouble(s[1..]);
      var rest := DoubleQuotes(s[1..]);
      if s[0] == '"' {
        var t := "\"\"" + rest;
        assert t[0] == '"' && t[1] == '"' && t[2..] == rest;
      } else {
        var t := [s[0]] + rest;
        assert t[0] == s[0] && t[1..] == rest;
      }
      assert [s[0]] + s[1..] == s;
    }
  }

  /** A quote that is not doubled is rejected: "a\"b" is not the inside of a quoted field. */
  lemma LoneQuoteRejected()
    ensures UndoubleQuotes("a\"b") == None
  {
    var t := "a\"b";
    assert t[1..] == "\"b" && t[1..][1..] == "b";
  }

  /** The text csv.writer writes for one field. */
  function CsvField(field: string): string {
    if NeedsQuoting(field) then "\"" + DoubleQuotes(field) + "\"" else field
  }

  /** The text csv.writer writes for the label. */
  function AlphaCell(a: Alpha): string {
    match a
    case Zero => "0"
    case Named(name) => CsvField(name)
  }

  /** In the CSV text, "baseline" cannot be told apart from a directory named "0". */
  lemma BaselineConflated()
    ensures AlphaLabel("baseline") != AlphaLabel("0")
    ensures AlphaCell(AlphaLabel("baseline")) == AlphaCell(AlphaLabel("0"))
  {
  }

  /** A name other than "baseline" without ',', '"', CR or LF is written as it is. */
  lemma NamedLabelCell(dirName: string)
    requires dirName != "baseline" && !NeedsQuoting(dirName)
    ensures AlphaCell(AlphaLabel(dirName)) == dirName
  {
  }

  /**
   * A name holding ',', '"', CR or LF is written between quotes, and a strict CSV
   * reader, which accepts only doubled inner quotes, reads the name back.
   */
  lemma QuotedLabelCell(dirName: string)
    requires NeedsQuoting(dirName)
    ensures var cell := AlphaCell(AlphaLabel(dirName));
      && |cell| >= 2 && cell[0] == '"' && cell[|cell| - 1] == '"'
      && UndoubleQuotes(cell[1..|cell| - 1]) == Some(dirName)
  {
    var cell := AlphaCell(AlphaLabel(dirName));
    assert cell[1..|cell| - 1] == DoubleQuotes(dirName);
    UndoubleDouble(dirName);
  }

  datatype Row = Row(alpha: Alpha, pps: real, latency: real)

  /**
   * The body of main's loop for one directory, given the decoded lines of
   * its two files. avg_pps runs before avg_latency, so its error wins.
   */
  function SummaryRow(dirName: string, ppsLines: seq<Json>, latencyLines: seq<Json>): (r: Result<Row>)
    ensures r.Ok? <==> AvgPps(ppsLines).Ok? && AvgLatency(latencyLines).Ok?
    ensures r.Ok? ==> r.value == Row(AlphaLabel(dirName), AvgPps(ppsLines).value, AvgLatency(latencyLines).value)
    ensures AvgPps(ppsLines).Err? ==> r == Err(AvgPps(ppsLines).error)
    ensures AvgPps(ppsLines).Ok? && AvgLatency(latencyLines).Err? ==> r == Err(AvgLatency(latencyLines).error)
  {
    var pps :- AvgPps(ppsLines);
    var latency :- AvgLatency(latencyLines);
    Ok(Row(AlphaLabel(dirName), pps, latency))
  }

  /** A pps.jl of one line with PacketsPerSecond "100" averages to 100. */
  lemma PacketsFileExample()
    ensures AvgPps([ThroughputLine("100")]) == Ok(100.0)
  {
    assert ParseDecimal("100") == Some(100.0) by {
      ParseNatText(100);
      assert NatText(100) == "100";
    }
    ThroughputLineValue("100");
    MeanOfOne([ThroughputLine("100")], Getter(Packets), 100.0);
  }

  /** A latency.jl of one line with Avg "10us" averages to 10 microseconds. */
  lemma LatencyFileExample()
    ensures AvgLatency([LatencyLine("10us")]) == Ok(10.0)
  {
    assert ParseDecimal("10") == Some(10.0) by {
      ParseNatText(10);
      assert NatText(10) == "10";
    }
    ToUsecMicroseconds("10");
    assert "10" + "us" == "10us";
    LatencyLineValue("10us");
    MeanOfOne([LatencyLine("10us")], Getter(Latency), 10.0);
  }

  /**
   * Directories "baseline" and "5", each with one pps.jl line of
   * PacketsPerSecond "100" and one latency.jl line of Avg "10us", give the
   * rows 0,100,10 and 5,100,10.
   */
  lemma RowExample()
    ensures SummaryRow("baseline", [ThroughputLine("100")], [LatencyLine("10us")])
         == Ok(Row(Zero, 100.0, 10.0))
    ensures SummaryRow("5", [ThroughputLine("100")], [LatencyLine("10us")])
         == Ok(Row(Named("5"), 100.0, 10.0))
  {
    PacketsFileExample();
    LatencyFileExample();
  }
}
