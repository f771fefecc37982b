/** The statistical analyser: a chronological list of temperature readings reduced to three
    classifications (trend, variation, stability). */
module Temperature {

  /** One value of the analysis dictionary. The stages downstream read the dictionary with
      `.get` and compare the value against these literals only, so every other string, and a
      missing key, behaves alike: that is `Unrecognised`. */
  datatype Label =
    | InsufficientData
    | Up | Down | Stable
    | Low | Moderate | High
    | Unstable
    | Unrecognised

  /** The dictionary `analyze_temperature` returns: exactly the keys trend, variation and
      stability. */
  datatype Analysis = Analysis(trend: Label, variation: Label, stability: Label)

  const Insufficient := Analysis(InsufficientData, InsufficientData, InsufficientData)

  /** A result for two or more readings: each axis holds one of its own labels. */
  predicate Classified(a: Analysis)
  {
    && a.trend in {Up, Down, Stable}
    && a.variation in {Low, Moderate, High}
    && a.stability in {Stable, Unstable}
  }

  function Abs(x: real): real
  {
    if x < 0.0 then -x else x
  }

  /** Python's `max` over a non-empty list. */
  function Max(s: seq<real>): real
    requires |s| > 0
  {
    if |s| == 1 then s[0]
    else
      var m := Max(s[1..]);
      if s[0] > m then s[0] else m
  }

  /** Python's `min` over a non-empty list. */
  function Min(s: seq<real>): real
    requires |s| > 0
  {
    if |s| == 1 then s[0]
    else
      var m := Min(s[1..]);
      if s[0] < m then s[0] else m
  }

  /** Python's `sum`. */
  function Sum(s: seq<real>): real
  {
    if s == [] then 0.0 else s[0] + Sum(s[1..])
  }

  /** `abs(t[i] - t[i - 1])` for i in 1 .. n - 1. */
  function Deltas(t: seq<real>): seq<real>
    requires |t| > 0
  {
    seq(|t| - 1, i requires 0 <= i < |t| - 1 => Abs(t[i + 1] - t[i]))
  }

  function Amplitude(t: seq<real>): real
    requires |t| > 0
  {
    Max(t) - Min(t)
  }

  /** `sum(deltas) / len(deltas)`. */
  function AverageDelta(t: seq<real>): real
    requires |t| >= 2
  {
    Sum(Deltas(t)) / ((|t| - 1) as real)
  }

  function TrendOf(first: real, last: real): Label
  {
    if last > first then Up
    else if last < first then Down
    else Stable
  }

  function VariationOf(amplitude: real): Label
  {
    if amplitude < 2.0 then Low
    else if amplitude <= 5.0 then Moderate
    else High
  }

  function StabilityOf(averageDelta: real): Label
  {
    if averageDelta < 1.0 then Stable else Unstable
  }

  /** `analyze_temperature`: fewer than two readings give the insufficient-data sentinel on
      every axis; otherwise every axis is classified. */
  function Analyze(temps: seq<real>): (r: Analysis)
    ensures |temps| < 2 ==> r == Insufficient
    ensures |temps| >= 2 ==> Classified(r)
  {
    if |temps| < 2 then Insufficient
    else
      Analysis(
        TrendOf(temps[0], temps[|temps| - 1]),
        VariationOf(Amplitude(temps)),
        StabilityOf(AverageDelta(temps)))
  }

  // ----- max and min -----

  lemma {:induction false} MaxIsGreatest(s: seq<real>)
    requires |s| > 0
    ensures Max(s) in s
    ensures forall i :: 0 <= i < |s| ==> s[i] <= Max(s)
  {
    if |s| > 1 {
      MaxIsGreatest(s[1..]);
      forall i | 0 < i < |s| ensures s[i] <= Max(s) {
        assert s[i] == s[1..][i - 1];
      }
    }
  }

  lemma {:induction false} MinIsLeast(s: seq<real>)
    requires |s| > 0
    ensures Min(s) in s
    ensures forall i :: 0 <= i < |s| ==> Min(s) <= s[i]
  {
    if |s| > 1 {
      MinIsLeast(s[1..]);
      forall i | 0 < i < |s| ensures Min(s) <= s[i] {
        assert s[i] == s[1..][i - 1];
      }
    }
  }

  /** Max and min depend only on which values occur, not on their order. */
  lemma SameValuesSameExtremes(s: seq<real>, u: seq<real>)
    requires |s| > 0 && |u| > 0
    requires forall x :: x in s <==> x in u
    ensures Max(s) == Max(u) && Min(s) == Min(u)
  {
    MaxIsGreatest(s);
    MaxIsGreatest(u);
    MinIsLeast(s);
    MinIsLeast(u);
    var i :| 0 <= i < |s| && s[i] == Max(s);
    var j :| 0 <= j < |u| && u[j] == Max(u);
    var k :| 0 <= k < |s| && s[k] == Min(s);
    var l :| 0 <= l < |u| && u[l] == Min(u);
    assert Max(s) in u && Max(u) in s && Min(s) in u && Min(u) in s;
  }

  // ----- sums -----

  lemma {:induction false} SumAppend(a: seq<real>, b: seq<real>)
    ensures Sum(a + b) == Sum(a) + Sum(b)
  {
    if a == [] {
      assert a + b == b;
    } else {
      assert (a + b)[1..] == a[1..] + b;
      SumAppend(a[1..], b);
    }
  }

  /** A non-empty sum of terms each below 1 is below the number of terms. */
  lemma {:induction false} SumBelowLength(s: seq<real>)
    requires |s| > 0
    requires forall i :: 0 <= i < |s| ==> s[i] < 1.0
    ensures Sum(s) < |s| as real
  {
    if |s| > 1 {
      SumBelowLength(s[1..]);
    }
  }

  /** A sum of zeros is zero. */
  lemma {:induction false} SumOfZeros(s: seq<real>)
    requires forall i :: 0 <= i < |s| ==> s[i] == 0.0
    ensures Sum(s) == 0.0
  {
    if s != [] {
      SumOfZeros(s[1..]);
    }
  }

  // ----- reading order -----

  /** The same readings in the opposite order (newest first instead of oldest first). */
  function Reverse(s: seq<real>): seq<real>
  {
    seq(|s|, i requires 0 <= i < |s| => s[|s| - 1 - i])
  }

  lemma {:induction false} SumReverse(s: seq<real>)
    ensures Sum(Reverse(s)) == Sum(s)
  {
    if s != [] {
      assert Reverse(s) == Reverse(s[1..]) + [s[0]];
      SumAppend(Reverse(s[1..]), [s[0]]);
      SumReverse(s[1..]);
    }
  }

  lemma ReverseReverse(s: seq<real>)
    ensures Reverse(Reverse(s)) == s
  {
  }

  lemma DeltasReverse(t: seq<real>)
    requires |t| > 0
    ensures Deltas(Reverse(t)) == Reverse(Deltas(t))
  {
    var n := |t|;
    forall i | 0 <= i < n - 1
      ensures Deltas(Reverse(t))[i] == Reverse(Deltas(t))[i]
    {
      assert Reverse(t)[i + 1] - Reverse(t)[i] == -(t[n - 1 - i] - t[n - 2 - i]);
    }
  }

  /** The trend the reversed list gets: up and down swap, every other label stays. */
  function Flip(trend: Label): Label
  {
    match trend
    case Up => Down
    case Down => Up
    case _ => trend
  }

  /** Reversing the readings swaps `up` and `down`, keeps `stable`, and leaves variation and
      stability unchanged, because max, min and the absolute differences ignore order. */
  lemma ReversalSymmetry(t: seq<real>)
    ensures Analyze(Reverse(t)) ==
            Analysis(Flip(Analyze(t).trend), Analyze(t).variation, Analyze(t).stability)
  {
    if |t| >= 2 {
      var r := Reverse(t);
      assert forall x :: x in t <==> x in r by {
        forall x | x in t ensures x in r {
          var i :| 0 <= i < |t| && t[i] == x;
          assert r[|t| - 1 - i] == x;
        }
        forall x | x in r ensures x in t {
          var i :| 0 <= i < |r| && r[i] == x;
          assert t[|t| - 1 - i] == x;
        }
      }
      SameValuesSameExtremes(t, r);
      DeltasReverse(t);
      SumReverse(Deltas(t));
    }
  }

  // ----- the classification rules -----

  /** With n >= 2 readings, each axis is decided by its rule, in both directions. Stability is
      stated without the division: the mean of the n - 1 differences is below 1 exactly when
      their sum is below n - 1. */
  lemma ClassificationRules(t: seq<real>)
    requires |t| >= 2
    ensures Analyze(t).trend == Up <==> t[|t| - 1] > t[0]
    ensures Analyze(t).trend == Down <==> t[|t| - 1] < t[0]
    ensures Analyze(t).trend == Stable <==> t[|t| - 1] == t[0]
    ensures Analyze(t).variation == Low <==> Amplitude(t) < 2.0
    ensures Analyze(t).variation == Moderate <==> 2.0 <= Amplitude(t) <= 5.0
    ensures Analyze(t).variation == High <==> Amplitude(t) > 5.0
    ensures Analyze(t).stability == Stable <==> Sum(Deltas(t)) < (|t| - 1) as real
    ensures Analyze(t).stability == Unstable <==> Sum(Deltas(t)) >= (|t| - 1) as real
  {
    var n := (|t| - 1) as real;
    var s := Sum(Deltas(t));
    assert AverageDelta(t) * n == s;
  }

  /** Every consecutive difference is at most max - min. */
  lemma DeltasAtMostAmplitude(t: seq<real>)
    requires |t| > 0
    ensures forall i :: 0 <= i < |t| - 1 ==> Deltas(t)[i] <= Amplitude(t)
  {
    MaxIsGreatest(t);
    MinIsLeast(t);
  }

  /** An amplitude below 1 forces `stable`: the mean difference cannot exceed the amplitude. */
  lemma SmallAmplitudeIsStable(t: seq<real>)
    requires |t| >= 2
    requires Amplitude(t) < 1.0
    ensures Analyze(t).stability == Stable
  {
    DeltasAtMostAmplitude(t);
    SumBelowLength(Deltas(t));
    ClassificationRules(t);
  }

  /** A constant list of two or more readings is stable, low and stable. */
  lemma ConstantReadings(t: seq<real>, c: real)
    requires |t| >= 2
    requires forall i :: 0 <= i < |t| ==> t[i] == c
    ensures Analyze(t) == Analysis(Stable, Low, Stable)
  {
    MaxIsGreatest(t);
    MinIsLeast(t);
    forall i | 0 <= i < |t| - 1
      ensures Deltas(t)[i] == 0.0
    {
      assert t[i + 1] == c && t[i] == c;
    }
    SumOfZeros(Deltas(t));
    assert AverageDelta(t) == 0.0 / ((|t| - 1) as real) == 0.0;
  }

  /** Worked examples: [20, 25] reaches the inclusive moderate boundary, and [20, 19] has a mean
      difference of exactly 1, which is not below 1. */
  lemma BoundaryExamples()
    ensures Analyze([]) == Insufficient
    ensures Analyze([21.5]) == Insufficient
    ensures Analyze([20.0, 25.0]) == Analysis(Up, Moderate, Unstable)
    ensures Analyze([20.0, 19.0]) == Analysis(Down, Low, Unstable)
  {
  }

  /** Worked example: amplitude 6 is high; the differences 1, 2, 3, 1, 1 average 1.6. */
  lemma RisingExample()
    ensures Analyze([22.0, 23.0, 25.0, 28.0, 27.0, 26.0]) == Analysis(Up, High, Unstable)
  {
    var t := [22.0, 23.0, 25.0, 28.0, 27.0, 26.0];
    assert Max(t) == 28.0 && Min(t) == 22.0;
    assert Deltas(t) == [1.0, 2.0, 3.0, 1.0, 1.0];
  }
}
