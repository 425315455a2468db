/**
 * The two unit parsers: `to_number` for magnitude-suffixed counts ("1.2M")
 * and `to_usec` for durations ("500us"), both over constant tables.
 */
module UnitParser {
  import opened Outcomes
  import opened Decimal

  /** UNITS: one-character magnitude suffixes, 1000^1 .. 1000^4. */
  const MagnitudeUnits: map<string, real> := map[
    "K" := 1000.0,
    "M" := 1000000.0,
    "G" := 1000000000.0,
    "T" := 1000000000000.0
  ]

  /** TIME_UNITS: duration suffixes as multipliers to microseconds, 1000^2 .. 1000^-1. */
  const TimeUnits: map<string, real> := map[
    "s" := 1000000.0,
    "ms" := 1000.0,
    "us" := 1.0,
    "ns" := 0.001
  ]

  /**
   * `float(prefix) * table[key]`. Python evaluates float() first, so a
   * non-numeric prefix is reported even when the key is unknown too.
   */
  function Scale(prefix: string, key: string, table: map<string, real>): (r: Result<Option<real>>)
    ensures r.Ok? <==> ParseDecimal(prefix).Some? && key in table
    ensures r.Ok? ==> r == Ok(Some(ParseDecimal(prefix).value * table[key]))
    ensures ParseDecimal(prefix).None? ==> r == Err(NonNumericPrefix(prefix))
    ensures ParseDecimal(prefix).Some? && key !in table ==> r == Err(UnknownUnit(key))
    ensures r.Err? ==> r.error.LineError()
  {
    if ParseDecimal(prefix).None? then Err(NonNumericPrefix(prefix))
    else if key in table then Ok(Some(ParseDecimal(prefix).value * table[key]))
    else Err(UnknownUnit(key))
  }

  /** to_number: empty gives None, a plain number is kept, else the last character scales the rest. */
  function ToNumber(s: string): (r: Result<Option<real>>)
    ensures r == Ok(None) <==> s == ""
    ensures ParseDecimal(s).Some? ==> r == Ok(ParseDecimal(s))
    ensures r.Err? ==> r.error.LineError()
  {
    if s == "" then Ok(None)
    else if ParseDecimal(s).Some? then Ok(ParseDecimal(s))
    else Scale(s[..|s| - 1], s[|s| - 1..], MagnitudeUnits)
  }

  /**
   * to_usec: empty gives None; otherwise the character before the last
   * decides whether the unit is the last character (a digit precedes it)
   * or the last two characters. A one-character string has no character
   * before the last: Python raises IndexError there.
   */
  function ToUsec(s: string): (r: Result<Option<real>>)
    ensures r == Ok(None) <==> s == ""
    ensures |s| == 1 ==> r == Err(TooShort(s))
    ensures r.Err? ==> r.error.LineError()
  {
    if s == "" then Ok(None)
    else if |s| < 2 then Err(TooShort(s))
    else if IsDigit(s[|s| - 2]) then Scale(s[..|s| - 1], s[|s| - 1..], TimeUnits)
    else Scale(s[..|s| - 2], s[|s| - 2..], TimeUnits)
  }

  /** A number followed by K, M, G or T is that number times 1000, 1000^2, 1000^3 or 1000^4. */
  lemma ToNumberScaled(p: string, c: char)
    requires ParseDecimal(p).Some?
    requires [c] in MagnitudeUnits
    ensures ToNumber(p + [c]) == Ok(Some(ParseDecimal(p).value * MagnitudeUnits[[c]]))
  {
    MagnitudeKeyNotNumeric(c);
    ToNumberSuffix(p, c);
  }

  lemma MagnitudeKeyNotNumeric(c: char)
    requires [c] in MagnitudeUnits
    ensures !IsDigit(c) && c != '.'
  {
    assert [c] == "K" || [c] == "M" || [c] == "G" || [c] == "T";
    assert c == [c][0];
  }

  /** A string ending in a character that is neither a digit nor '.' is scaled by that character. */
  lemma ToNumberSuffix(p: string, c: char)
    requires !IsDigit(c) && c != '.'
    ensures ToNumber(p + [c]) == Scale(p, [c], MagnitudeUnits)
  {
    var s := p + [c];
    NotNumericAfterSuffix(p, c);
    assert s[..|s| - 1] == p && s[|s| - 1..] == [c];
  }

  /**
   * The failures of to_number on a non-number: a prefix that is not a
   * number, or else a last character that is not a magnitude suffix.
   */
  lemma ToNumberErrors(p: string, c: char)
    requires ParseDecimal(p + [c]).None?
    ensures ParseDecimal(p).None? ==> ToNumber(p + [c]) == Err(NonNumericPrefix(p))
    ensures ParseDecimal(p).Some? && [c] !in MagnitudeUnits ==> ToNumber(p + [c]) == Err(UnknownUnit([c]))
  {
    var s := p + [c];
    assert s[..|s| - 1] == p;
    assert s[|s| - 1..] == [c];
  }

  /** A digit before the last character: the unit is that one character. */
  lemma ToUsecOneCharUnit(p: string, c: char)
    requires p != [] && IsDigit(p[|p| - 1])
    ensures ToUsec(p + [c]) == Scale(p, [c], TimeUnits)
  {
    var s := p + [c];
    assert s[|s| - 2] == p[|p| - 1];
    assert s[..|s| - 1] == p;
    assert s[|s| - 1..] == [c];
  }

  /** Anything but a digit before the last character: the unit is the last two characters. */
  lemma ToUsecTwoCharUnit(p: string, u: string)
    requires |u| == 2 && !IsDigit(u[0])
    ensures ToUsec(p + u) == Scale(p, u, TimeUnits)
  {
    var s := p + u;
    assert s[|s| - 2] == u[0];
    assert s[..|s| - 2] == p;
    assert s[|s| - 2..] == u;
  }

  /**
   * The same number read with each time unit gives microseconds in the
   * ratios of the units: "1s" = 1000 x "1ms" = 10^6 x "1us" = 10^9 x "1ns".
   * One lemma per unit.
   */
  lemma ToUsecSeconds(p: string)
    requires p != [] && IsDigit(p[|p| - 1]) && ParseDecimal(p).Some?
    ensures ToUsec(p + "s") == Ok(Some(ParseDecimal(p).value * 1000000.0))
  {
    ToUsecOneCharUnit(p, 's');
    assert [ 's' ] == "s";
  }

  lemma ToUsecMilliseconds(p: string)
    requires ParseDecimal(p).Some?
    ensures ToUsec(p + "ms") == Ok(Some(ParseDecimal(p).value * 1000.0))
  {
    ToUsecTwoCharUnit(p, "ms");
  }

  lemma ToUsecMicroseconds(p: string)
    requires ParseDecimal(p).Some?
    ensures ToUsec(p + "us") == Ok(Some(ParseDecimal(p).value))
  {
    ToUsecTwoCharUnit(p, "us");
  }

  lemma ToUsecNanoseconds(p: string)
    requires ParseDecimal(p).Some?
    ensures ToUsec(p + "ns") == Ok(Some(ParseDecimal(p).value / 1000.0))
  {
    ToUsecTwoCharUnit(p, "ns");
  }

  /** A unit that the character rule selects but TIME_UNITS lacks is an error. */
  lemma ToUsecUnknownUnit(p: string, c: char)
    requires p != [] && IsDigit(p[|p| - 1]) && ParseDecimal(p).Some?
    requires [c] !in TimeUnits
    ensures ToUsec(p + [c]) == Err(UnknownUnit([c]))
  {
    ToUsecOneCharUnit(p, c);
  }

  /** Durations as ethr writes them, one per unit, in microseconds. */
  lemma SecondsExample()
    ensures ToUsec("2s") == Ok(Some(2000000.0))
  {
    assert ParseDecimal("2") == Some(2.0) by {
      ParseNatText(2);
      assert NatText(2) == "2";
    }
    ToUsecSeconds("2");
    assert "2" + "s" == "2s";
  }

  lemma MillisecondsExample()
    ensures ToUsec("1ms") == Ok(Some(1000.0))
  {
    assert ParseDecimal("1") == Some(1.0) by {
      ParseNatText(1);
      assert NatText(1) == "1";
    }
    ToUsecMilliseconds("1");
    assert "1" + "ms" == "1ms";
  }

  lemma MicrosecondsExample()
    ensures ToUsec("500us") == Ok(Some(500.0))
  {
    assert ParseDecimal("500") == Some(500.0) by {
      ParseNatText(500);
      assert NatText(500) == "500";
    }
    ToUsecMicroseconds("500");
    assert "500" + "us" == "500us";
  }

  lemma NanosecondsExample()
    ensures ToUsec("500ns") == Ok(Some(0.5))
  {
    assert ParseDecimal("500") == Some(500.0) by {
      ParseNatText(500);
      assert NatText(500) == "500";
    }
    ToUsecNanoseconds("500");
    assert "500" + "ns" == "500ns";
  }

  /** Durations that to_usec rejects, each with the error Python would raise. */
  lemma MinutesRejected()
    ensures ToUsec("5m") == Err(UnknownUnit("m"))
  {
    assert ParseDecimal("5") == Some(5.0) by {
      ParseNatText(5);
      assert NatText(5) == "5";
    }
    ToUsecUnknownUnit("5", 'm');
    assert "5" + ['m'] == "5m";
  }

  lemma BareNumberRejected()
    ensures ToUsec("10") == Err(UnknownUnit("0"))
  {
    assert ParseDecimal("1") == Some(1.0) by {
      ParseNatText(1);
      assert NatText(1) == "1";
    }
    ToUsecUnknownUnit("1", '0');
    assert "1" + ['0'] == "10";
  }

  lemma PointBeforeUnitRejected()
    ensures ToUsec("5.s") == Err(UnknownUnit(".s"))
  {
    TrailingPointExample();
    ToUsecTwoCharUnit("5", ".s");
    assert "5" + ".s" == "5.s";
  }

  lemma MissingNumberRejected()
    ensures ToUsec("ms") == Err(NonNumericPrefix(""))
  {
    ToUsecTwoCharUnit("", "ms");
    assert "" + "ms" == "ms";
  }

  /** Magnitudes as they appear in the summarizer's inputs. */
  lemma ToNumberExamples()
    ensures ToNumber("1.2M") == Ok(Some(1200000.0))
    ensures ToNumber("100") == Ok(Some(100.0))
  {
    FractionExample();
    ToNumberScaled("1.2", 'M');
    assert "1.2" + ['M'] == "1.2M";
    assert ParseDecimal("100") == Some(100.0) by {
      ParseNatText(100);
      assert NatText(100) == "100";
    }
  }

  /** Magnitudes that to_number rejects, each with the error Python would raise. */
  lemma ToNumberErrorExamples()
    ensures ToNumber("K") == Err(NonNumericPrefix(""))
    ensures ToNumber("5X") == Err(UnknownUnit("X"))
  {
    NotNumericAfterSuffix("", 'K');
    ToNumberErrors("", 'K');
    assert "" + ['K'] == "K";
    assert ParseDecimal("5") == Some(5.0) by {
      ParseNatText(5);
      assert NatText(5) == "5";
    }
    NotNumericAfterSuffix("5", 'X');
    ToNumberErrors("5", 'X');
    assert "5" + ['X'] == "5X";
  }
}
