/**
 * `_analyze_data_types`: labels each column "empty", "numeric" or "text"
 * from the non-empty values in the first ten kept rows.
 */
module TypeClassifier {
  import opened TextUtil
  import opened OrderedDict

  datatype ColumnType = Empty | Numeric | Text

  type Row = Dict<string>

  /** How many kept rows are sampled per column. */
  const SampleSize: nat := 10

  /** `s` with every dot and minus sign removed (app.py:118). */
  function StripSeparators(s: string): (r: string)
    ensures |r| <= |s|
  {
    if |s| == 0 then ""
    else
      var rest := StripSeparators(s[1..]);
      if s[0] == '.' || s[0] == '-' then rest else [s[0]] + rest
  }

  /** The numeric test: what is left after removing dots and minus signs is a non-empty run of ASCII digits (app.py:118). */
  predicate LooksNumeric(s: string) {
    var t := StripSeparators(s);
    |t| > 0 && AllDigits(t)
  }

  /** The same test stated without the stripping: only digits, dots and minus signs, and at least one digit. */
  predicate NumericAlphabet(s: string) {
    (forall i :: 0 <= i < |s| ==> IsDigit(s[i]) || s[i] == '.' || s[i] == '-')
    && (exists i :: 0 <= i < |s| && IsDigit(s[i]))
  }

  lemma {:induction false} StripSeparatorsChars(s: string)
    ensures forall c :: c in StripSeparators(s) <==> c in s && c != '.' && c != '-'
  {
    if |s| > 0 {
      StripSeparatorsChars(s[1..]);
      assert s == [s[0]] + s[1..];
    }
  }

  /** The stripping heuristic accepts exactly the strings over digits, dots and minus signs that hold a digit. */
  lemma LooksNumericIff(s: string)
    ensures LooksNumeric(s) <==> NumericAlphabet(s)
  {
    var t := StripSeparators(s);
    StripSeparatorsChars(s);
    if LooksNumeric(s) {
      assert t[0] in t;
      var i :| 0 <= i < |s| && s[i] == t[0];
      assert IsDigit(s[i]);
      forall i | 0 <= i < |s| ensures IsDigit(s[i]) || s[i] == '.' || s[i] == '-' {
        if s[i] != '.' && s[i] != '-' {
          assert s[i] in t;
        }
      }
    }
    if NumericAlphabet(s) {
      var i :| 0 <= i < |s| && IsDigit(s[i]);
      assert s[i] in t;
      forall k | 0 <= k < |t| ensures IsDigit(t[k]) {
        assert t[k] in t;
        var j :| 0 <= j < |s| && s[j] == t[k];
      }
    }
  }

  /** Consequences of the heuristic: multi-dot and misplaced-sign strings pass, a bare sign or exponent does not. */
  lemma HeuristicExamples()
    ensures LooksNumeric("1.2.3") && LooksNumeric("--5") && LooksNumeric("5-")
    ensures !LooksNumeric("") && !LooksNumeric(".") && !LooksNumeric("-") && !LooksNumeric("1e5")
  {
    LooksNumericIff("1.2.3");
    LooksNumericIff("--5");
    LooksNumericIff("5-");
    LooksNumericIff("1e5");
    assert "1e5"[1] == 'e';
  }

  /** How many samples pass the numeric test (app.py:118). */
  function NumericCount(samples: seq<string>): (n: nat)
    ensures n <= |samples|
  {
    if |samples| == 0 then 0
    else NumericCount(samples[..|samples| - 1]) + (if LooksNumeric(samples[|samples| - 1]) then 1 else 0)
  }

  /**
   * The label for one column's samples (app.py:113-123). The source compares
   * the count with 70% of the sample count in floating point; with at most ten
   * samples that agrees with the integer comparison written here.
   */
  function Classify(samples: seq<string>): ColumnType
  {
    if |samples| == 0 then Empty
    else if 10 * NumericCount(samples) > 7 * |samples| then Numeric
    else Text
  }

  /** "empty" exactly for no samples; "numeric" exactly when strictly more than 70% of the samples pass. */
  lemma ClassifyThreshold(samples: seq<string>)
    ensures Classify(samples) == Empty <==> |samples| == 0
    ensures Classify(samples) == Numeric <==>
              |samples| > 0 && (NumericCount(samples) as real) > 0.7 * (|samples| as real)
    ensures Classify(samples) == Text <==>
              |samples| > 0 && (NumericCount(samples) as real) <= 0.7 * (|samples| as real)
  {
  }

  lemma NumericCountSnoc(samples: seq<string>, v: string)
    ensures NumericCount(samples + [v]) == NumericCount(samples) + (if LooksNumeric(v) then 1 else 0)
  {
    assert (samples + [v])[..|samples|] == samples;
  }

  lemma SampleVerdicts()
    ensures LooksNumeric("1") && LooksNumeric("2") && LooksNumeric("3") && LooksNumeric("4") && LooksNumeric("5")
    ensures LooksNumeric("3.5") && LooksNumeric("-4")
    ensures !LooksNumeric("x") && !LooksNumeric("y") && !LooksNumeric("z")
  {
    assert StripSeparators("3.5") == "35";
    assert StripSeparators("-4") == "4";
    assert StripSeparators("x") == "x" && StripSeparators("y") == "y" && StripSeparators("z") == "z";
  }

  lemma {:induction false} NumericCountAppend(a: seq<string>, b: seq<string>)
    ensures NumericCount(a + b) == NumericCount(a) + NumericCount(b)
    decreases |b|
  {
    if |b| > 0 {
      var n := |b| - 1;
      assert a + b == (a + b[..n]) + [b[n]] && b == b[..n] + [b[n]];
      NumericCountAppend(a, b[..n]);
      NumericCountSnoc(a + b[..n], b[n]);
      NumericCountSnoc(b[..n], b[n]);
    } else {
      assert a + b == a;
    }
  }

  /** Samples that all pass the test are all counted. */
  lemma {:induction false} NumericCountAll(samples: seq<string>)
    requires forall v :: v in samples ==> LooksNumeric(v)
    ensures NumericCount(samples) == |samples|
  {
    if |samples| > 0 {
      var n := |samples| - 1;
      assert forall v :: v in samples[..n] ==> v in samples;
      NumericCountAll(samples[..n]);
    }
  }

  /** Samples that all fail the test are not counted. */
  lemma {:induction false} NumericCountNone(samples: seq<string>)
    requires forall v :: v in samples ==> !LooksNumeric(v)
    ensures NumericCount(samples) == 0
  {
    if |samples| > 0 {
      var n := |samples| - 1;
      assert forall v :: v in samples[..n] ==> v in samples;
      NumericCountNone(samples[..n]);
    }
  }

  /** Four numeric samples out of seven is not more than 70%: the column is "text". */
  lemma ClassifyMixedExample()
    ensures Classify(["1", "2", "3.5", "-4", "x", "y", "z"]) == Text
  {
    SampleVerdicts();
    var numeric, text := ["1", "2", "3.5", "-4"], ["x", "y", "z"];
    NumericCountAll(numeric);
    NumericCountNone(text);
    NumericCountAppend(numeric, text);
    assert numeric + text == ["1", "2", "3.5", "-4", "x", "y", "z"];
  }

  /** Five numeric samples out of five: the column is "numeric". */
  lemma ClassifyNumericExample()
    ensures Classify(["1", "2", "3", "4", "5"]) == Numeric
  {
    SampleVerdicts();
    NumericCountAll(["1", "2", "3", "4", "5"]);
  }

  /** The non-empty values stored under `h`, in row order; a row without the key counts as empty (app.py:111). */
  function NonEmptyValues(rows: seq<Row>, h: string): (vs: seq<string>)
    ensures |vs| <= |rows|
    ensures forall i :: 0 <= i < |vs| ==> vs[i] != ""
  {
    if |rows| == 0 then []
    else
      var v := GetOr(rows[|rows| - 1], h, "");
      NonEmptyValues(rows[..|rows| - 1], h) + (if v != "" then [v] else [])
  }

  /** The samples for column `h`: the non-empty values among the first ten rows. */
  function Samples(rows: seq<Row>, h: string): seq<string>
  {
    NonEmptyValues(rows[..if |rows| < SampleSize then |rows| else SampleSize], h)
  }

  lemma {:induction false} NonEmptyValuesNone(rows: seq<Row>, h: string)
    ensures NonEmptyValues(rows, h) == [] <==> forall i :: 0 <= i < |rows| ==> GetOr(rows[i], h, "") == ""
  {
    if |rows| > 0 {
      var n := |rows| - 1;
      NonEmptyValuesNone(rows[..n], h);
      assert forall i :: 0 <= i < n ==> rows[..n][i] == rows[i];
    }
  }

  /**
   * A column's samples number at most ten and are all non-empty, and there
   * are none exactly when the column is empty in each of the first ten rows.
   */
  lemma SamplesProperties(rows: seq<Row>, h: string)
    ensures |Samples(rows, h)| <= SampleSize
    ensures forall i :: 0 <= i < |Samples(rows, h)| ==> Samples(rows, h)[i] != ""
    ensures Samples(rows, h) == [] <==>
              forall i :: 0 <= i < |rows| && i < SampleSize ==> GetOr(rows[i], h, "") == ""
  {
    var m := if |rows| < SampleSize then |rows| else SampleSize;
    NonEmptyValuesNone(rows[..m], h);
    assert forall i :: 0 <= i < m ==> rows[..m][i] == rows[i];
  }

  /** The `data_types` dictionary, as the map it denotes (its order is never used). */
  function DataTypes(rows: seq<Row>, headers: seq<string>): map<string, ColumnType>
  {
    map h | h in headers :: Classify(Samples(rows, h))
  }

  /** The loop of `_analyze_data_types`, one header at a time. */
  method AnalyzeDataTypes(rows: seq<Row>, headers: seq<string>) returns (types: map<string, ColumnType>)
    ensures forall h :: h in types <==> h in headers
    ensures forall h :: h in headers ==> types[h] == Classify(Samples(rows, h))
    ensures types == DataTypes(rows, headers)
  {
    types := map[];
    var i := 0;
    while i < |headers|
      invariant 0 <= i <= |headers|
      invariant types == DataTypes(rows, headers[..i])
    {
      var header := headers[i];
      var samples := Samples(rows, header);
      if |samples| == 0 {
        types := types[header := Empty];
      } else {
        var numericCount := NumericCount(samples);
        if 10 * numericCount > 7 * |samples| {
          types := types[header := Numeric];
        } else {
          types := types[header := Text];
        }
      }
      DataTypesStep(rows, headers, i);
      i := i + 1;
    }
    assert headers[..i] == headers;
  }

  lemma DataTypesStep(rows: seq<Row>, headers: seq<string>, i: nat)
    requires i < |headers|
    ensures DataTypes(rows, headers[..i + 1]) ==
              DataTypes(rows, headers[..i])[headers[i] := Classify(Samples(rows, headers[i]))]
  {
    assert headers[..i + 1] == headers[..i] + [headers[i]];
  }

  /**
   * The label of a column stored in `data_types`: "empty" exactly when all
   * of the first ten rows are empty there, otherwise "numeric" exactly when
   * strictly more than 70% of its samples pass the numeric test.
   */
  lemma DataTypesMeaning(rows: seq<Row>, headers: seq<string>, h: string)
    requires h in headers
    ensures DataTypes(rows, headers)[h] == Empty <==>
              forall i :: 0 <= i < |rows| && i < SampleSize ==> GetOr(rows[i], h, "") == ""
    ensures DataTypes(rows, headers)[h] == Numeric <==>
              var s := Samples(rows, h);
              |s| > 0 && (NumericCount(s) as real) > 0.7 * (|s| as real)
  {
    SamplesProperties(rows, h);
    ClassifyThreshold(Samples(rows, h));
  }
}
