# ethr_summarizer, modelled in Dafny

`ethr_summarizer.py` reads the JSON-lines result files that the `ethr`
network benchmark writes. It averages one metric per file, two per experiment
directory (packets per second from `pps.jl`, average latency from
`latency.jl`), and prints one CSV row per directory. This project models the part with real
rules:

- the two unit parsers: `to_number` for magnitude suffixes such as `"1.2M"`,
  and `to_usec` for durations such as `"500us"`;
- the two record decoders `TestResult.from_json` and `LatencyResult.from_json`;
- `avg_pps` and `avg_latency` as one filtered mean, parameterised by a metric;
- the `baseline` → `0` label rule of `main`.

Numbers are `real`, so every scaling and mean is exact. A line is an
already-decoded `map<string, string>`. Python's `float()` on text is modelled by
`Decimal.ParseDecimal`, a parser of plain decimal literals. It accepts an
optional sign and then digits with at most one `.`, with at least one digit.

Every exception the modelled functions raise on a decoded line (a map of strings) is a value of `Outcomes.Error`:

| error | Python exception |
|---|---|
| `MissingKey` | `KeyError` on a missing JSON key |
| `UnknownUnit` | `KeyError` on a suffix missing from `UNITS`/`TIME_UNITS` |
| `NonNumericPrefix` | `ValueError` from `float()` |
| `TooShort` | `IndexError` from `with_unit[-2]` on a one-character duration |
| `EmptyAggregate` | `StatisticsError` from `mean()` of no values |

Python evaluates operands left to right. So `float(prefix)` fails before the
unit is looked up, the first failing key of `from_json` is the one reported,
and the first failing line of a file decides that file's outcome.

Modules, one file each: `Outcomes` (Option, Error, Result), `Decimal`
(the `float()` stand-in), `UnitParser`, `Records`, `Aggregation`, `Report`.

## Model

| member | source | states |
|---|---|---|
| `Decimal.ParseDecimal` | ethr_summarizer.py:33 | a string that this decimal-literal parser accepts ends in a digit or `.`, so a letter suffix is never read as part of a number |
| `Decimal.ParseNatText` | ethr_summarizer.py:33 | the decimal text of any natural number reads back as that number |
| `Decimal.ParseFixedPoint` | ethr_summarizer.py:33 | `whole.frac` reads as `whole` plus `frac` in tenths, hundredths, ... |
| `Decimal.NotNumericAfterSuffix` | ethr_summarizer.py:32-35 | `ParseDecimal` rejects a string whose last character is neither a digit nor `.`, so in the model `ToNumber` takes the suffix branch for it |
| `Decimal.ParseSigned` | ethr_summarizer.py:33 | a leading `-` negates the unsigned literal after it, and `+` keeps it; the literal after the sign must itself parse |
| `Decimal.ParseDigits` | ethr_summarizer.py:33 | any non-empty string of digits, leading zeros included, reads as its decimal value |
| `Decimal.FractionExample` | ethr_summarizer.py:33 | `float("1.2")` is 1.2 |
| `Decimal.SignedExample` | ethr_summarizer.py:33 | `float("-0.5")` is -0.5 |
| `Decimal.TrailingPointExample` | ethr_summarizer.py:33 | `float("5.")` is 5 |
| `Decimal.NonDecimalExamples` | ethr_summarizer.py:33 | `float()` rejects `"."`, `""`, `"-"`, `"1.2.3"` and `"1.2M"` |
| `UnitParser.Scale` | ethr_summarizer.py:35 | `float(prefix) * table[key]` succeeds exactly when the prefix is numeric and the key is in the table; a bad prefix is reported before a bad key |
| `UnitParser.ToNumber` | ethr_summarizer.py:28-33 | the empty string, and only it, gives `None`; a string that is a number is returned unscaled |
| `UnitParser.ToNumberScaled` | ethr_summarizer.py:12-17 | a number followed by `K`, `M`, `G` or `T` is that number times 1000, 1000², 1000³ or 1000⁴ |
| `UnitParser.ToNumberSuffix` | ethr_summarizer.py:32-35 | a string ending in a non-numeric character is its prefix scaled by that character's `UNITS` entry |
| `UnitParser.ToNumberErrors` | ethr_summarizer.py:35 | on a non-number, a non-numeric prefix gives `NonNumericPrefix`, else a last character outside `UNITS` gives `UnknownUnit` |
| `UnitParser.MagnitudeKeyNotNumeric` | ethr_summarizer.py:12-17 | no `UNITS` key is a digit or `.` |
| `UnitParser.ToNumberExamples` | ethr_summarizer.py:28-35 | `"1.2M"` gives 1200000 and `"100"` gives 100 |
| `UnitParser.ToNumberErrorExamples` | ethr_summarizer.py:35 | `"K"` has a non-numeric prefix; `"5X"` has an unknown unit |
| `UnitParser.ToUsec` | ethr_summarizer.py:38-42 | the empty string, and only it, gives `None`; a one-character string is the `TooShort` error |
| `UnitParser.ToUsecOneCharUnit` | ethr_summarizer.py:42-43 | when the second-to-last character is a digit, the unit is the last character alone |
| `UnitParser.ToUsecTwoCharUnit` | ethr_summarizer.py:42-45 | when the second-to-last character is not a digit, the unit is the last two characters |
| `UnitParser.ToUsecSeconds` | ethr_summarizer.py:20-21 | a number ending in a digit, followed by `s`, is that many millions of microseconds |
| `UnitParser.ToUsecMilliseconds` | ethr_summarizer.py:22 | a number followed by `ms` is that many thousands of microseconds |
| `UnitParser.ToUsecMicroseconds` | ethr_summarizer.py:23 | a number followed by `us` is that many microseconds |
| `UnitParser.ToUsecNanoseconds` | ethr_summarizer.py:24 | a number followed by `ns` is that many thousandths of a microsecond |
| `UnitParser.ToUsecUnknownUnit` | ethr_summarizer.py:43 | a one-character unit outside `TIME_UNITS` is `UnknownUnit` |
| `UnitParser.SecondsExample` | ethr_summarizer.py:43 | `"2s"` is 2000000 microseconds |
| `UnitParser.MillisecondsExample` | ethr_summarizer.py:45 | `"1ms"` is 1000 microseconds |
| `UnitParser.MicrosecondsExample` | ethr_summarizer.py:45 | `"500us"` is 500 microseconds |
| `UnitParser.NanosecondsExample` | ethr_summarizer.py:45 | `"500ns"` is 0.5 microseconds |
| `UnitParser.MinutesRejected` | ethr_summarizer.py:43 | `"5m"` is an unknown unit |
| `UnitParser.BareNumberRejected` | ethr_summarizer.py:43 | a duration without a unit, `"10"`, is read as unit `"0"` and rejected |
| `UnitParser.PointBeforeUnitRejected` | ethr_summarizer.py:45 | `"5.s"` is read as unit `".s"` and rejected |
| `UnitParser.MissingNumberRejected` | ethr_summarizer.py:45 | `"ms"` has an empty, non-numeric prefix |
| `Records.Split` | ethr_summarizer.py:66 | `split(",")` gives at least one piece, no piece holds a comma, and joining the pieces gives the input back |
| `Records.SplitJoin` | ethr_summarizer.py:66 | splitting a comma-join of comma-free pieces gives the pieces back |
| `Records.SplitPrefix` | ethr_summarizer.py:66 | a comma-free piece before a comma becomes the first piece |
| `Records.Inner` | ethr_summarizer.py:66 | `s[1:-1]` is `s` without its first and last characters, and empty for strings shorter than two |
| `Records.DecodeRemoteAddr` | ethr_summarizer.py:66 | the address list is comma-free, non-empty and joins back to the bracketed content |
| `Records.RemoteAddrRoundTrip` | ethr_summarizer.py:66 | bracketing and comma-joining a list of addresses decodes back to the list |
| `Records.RemoteAddrPair` | ethr_summarizer.py:92 | `"[a,b]"` decodes to `[a, b]` |
| `Records.Field` | ethr_summarizer.py:67 | `json[key]` is the value when the key is present, else `MissingKey(key)` |
| `Records.DecodeTestResult` | ethr_summarizer.py:90-98 | decoding succeeds exactly when every key is present and every value parses; each field is its parser applied to the key of the same name; the error is that of the first failing argument, in argument order; no error is the empty-aggregate one |
| `Records.DecodeLatencyResult` | ethr_summarizer.py:64-77 | the same for the nine duration fields of a latency record, including the first-failing-argument error order |
| `Records.NumberField` | ethr_summarizer.py:94-96 | `to_number(json[key])`: `MissingKey(key)` when the key is absent, else `to_number` of its value |
| `Records.DurationField` | ethr_summarizer.py:68-76 | `to_usec(json[key])`: `MissingKey(key)` when the key is absent, else `to_usec` of its value |
| `Aggregation.LineValue` | ethr_summarizer.py:103-108 | a line without `Type` is `MissingKey`; a line of another type gives `None` without error; only a line of the metric's type gives a value; its errors are line errors, never the empty-aggregate one |
| `Aggregation.MatchingLineDecoded` | ethr_summarizer.py:115-120 | a line of the metric's type is decoded in full: it fails exactly when its decoder fails, and otherwise gives the metric's field |
| `Aggregation.MapLines` | ethr_summarizer.py:110 | `map(get, lines)` gives each line's outcome, in order |
| `Aggregation.Mean` | ethr_summarizer.py:110 | the mean times the count is the sum; no values is `EmptyAggregate` |
| `Aggregation.Aggregate` | ethr_summarizer.py:101-122 | `avg_pps` and `avg_latency`: `AvgPps` is `Aggregate` at `Packets`, `AvgLatency` is `Aggregate` at `Latency`; the result is the sum of the contributed values over their count; a failing line's error wins; the empty-aggregate error occurs exactly when no value is contributed, so it is never confused with a line's error |
| `Aggregation.CollectLineErrors` | ethr_summarizer.py:110 | collecting line outcomes raises only errors of the lines themselves, never the empty-aggregate error |
| `Aggregation.ValuesAppend` | ethr_summarizer.py:110 | the values of two runs of lines concatenate, the first error winning |
| `Aggregation.SilentLineIgnored` | ethr_summarizer.py:110 | a line whose outcome is `None` changes nothing, wherever it stands |
| `Aggregation.OtherTypeIgnored` | ethr_summarizer.py:105-106 | a line of another `Type` contributes nothing and raises nothing |
| `Aggregation.EmptyFieldIgnored` | ethr_summarizer.py:117-122 | a matching line whose field is empty contributes nothing |
| `Aggregation.OnlyOtherTypes` | ethr_summarizer.py:110 | a file whose lines are all of another type is the `EmptyAggregate` error |
| `Aggregation.ValueFromMatchingLine` | ethr_summarizer.py:122 | every averaged value comes from a line of the metric's type |
| `Aggregation.MatchingLineContributes` | ethr_summarizer.py:122 | every line of the metric's type with a value contributes it |
| `Aggregation.FirstErrorWins` | ethr_summarizer.py:110 | the first failing line decides the outcome of the whole file |
| `Aggregation.MeanBounds` | ethr_summarizer.py:110 | the mean lies between any lower and upper bound of the values |
| `Aggregation.MeanLoop` | ethr_summarizer.py:110 | accumulating sum and count over the lines, stopping at the first error, gives the filtered mean |
| `Aggregation.AggregateLoop` | ethr_summarizer.py:101-122 | the loop computes `avg_pps` and `avg_latency` |
| `Aggregation.MeanOfOne` | ethr_summarizer.py:110 | a file with one contributing line averages to that line's value |
| `Aggregation.MeanOfThree` | ethr_summarizer.py:110 | three contributing lines average to the mean of the three |
| `Aggregation.PacketsMeanExample` | ethr_summarizer.py:101-110 | packets per second of `"1M"`, `"2M"` and `"3M"` average to 2000000 |
| `Aggregation.PacketsLineValue` | ethr_summarizer.py:103-108 | every `TestResult` line that decodes contributes its `PacketsPerSecond` read by `to_number` |
| `Aggregation.LatencyLineAvg` | ethr_summarizer.py:115-120 | every `LatencyResult` line that decodes contributes its `Avg` read by `to_usec` |
| `Aggregation.ThroughputLineValue` | ethr_summarizer.py:103-108 | the example `TestResult` line `ThroughputLine(pps)`, whose other figures are empty, contributes `to_number(pps)` |
| `Aggregation.LatencyLineValue` | ethr_summarizer.py:115-120 | the example `LatencyResult` line `LatencyLine(avg)`, whose other fields are empty, contributes `to_usec(avg)` |
| `Report.AlphaLabel` | ethr_summarizer.py:130 | the label is `0` exactly when the directory is named `baseline`, and the name otherwise |
| `Report.BaselineConflated` | ethr_summarizer.py:130 | `baseline` and a directory named `0` get different labels but the same CSV cell |
| `Report.NamedLabelCell` | ethr_summarizer.py:126-133 | a plain name (no `,`, `"`, CR or LF) other than `baseline` is written as it is |
| `Report.QuotedLabelCell` | ethr_summarizer.py:126-133 | a name holding `,`, `"`, CR or LF is written between quotes, and a strict reader, which accepts a `"` inside only when it is doubled, reads the inside back as the name |
| `Report.UndoubleDouble` | ethr_summarizer.py:126 | a strict reader reads every string with its quotes doubled back as that string |
| `Report.LoneQuoteRejected` | ethr_summarizer.py:126 | the strict reader rejects a `"` that is not doubled, so the round trip above holds only for a writer that doubles quotes |
| `Report.SummaryRow` | ethr_summarizer.py:130-133 | a row exists exactly when both averages do; the packets error is reported before the latency error |
| `Report.PacketsFileExample` | ethr_summarizer.py:131 | a `pps.jl` with one line of `PacketsPerSecond` `"100"` averages to 100 |
| `Report.LatencyFileExample` | ethr_summarizer.py:132 | a `latency.jl` with one line of `Avg` `"10us"` averages to 10 |
| `Report.RowExample` | ethr_summarizer.py:129-133 | directories `baseline` and `5` with those files give rows `0,100,10` and `5,100,10` |

## Left out

- Command-line parsing with `argparse` (ethr_summarizer.py:136-140): glue with no rules.
- Directory iteration (ethr_summarizer.py:129): `SummaryRow` models one directory. Row order follows the file system's listing and is not modelled.
- Opening files and reading lines (ethr_summarizer.py:110, 122): a file is a `seq` of decoded lines. A missing file is not modelled.
- `json.loads` (ethr_summarizer.py:104, 116): a line is already a `map<string, string>`. Malformed JSON and non-string JSON values are not modelled.
- CSV output through `csv.writer` (ethr_summarizer.py:126-127, 133): only the label cell (`AlphaCell`, with csv's default minimal quoting) is modelled. The header row, the line terminator and how floats are printed are not.
- `Decimal.ParseDecimal`: does not accept everything `float()` accepts. Surrounding whitespace, `_` between digits, exponents, `inf`, `nan` and non-ASCII digits are rejected here.
- IEEE floating point: values are exact `real`s. Rounding in `float()`, in the scaling multiplication and in `statistics.mean` is not modelled.
- `UnitParser.ToUsec`: `str.isdigit` is modelled for ASCII `0`-`9` only. Python's also accepts other Unicode digits.
- The latency fields of `LatencyResult`: the source annotates them as `float`, but `to_usec` gives `None` for an empty value. The fields are therefore `Option<real>` here.
