/**
  Maximum drawdown, three times over: the backtest metrics and the long-run evaluation report it as a non-positive
  change, the dashboard as a non-negative depth.
 */
module Drawdown {
  import opened Rounding

  function Higher(a: real, b: real): real {
    if a >= b then a else b
  }

  function Lower(a: real, b: real): real {
    if a <= b then a else b
  }

  function Peak(curve: seq<real>): real
    requires curve != []
  {
    if |curve| == 1 then curve[0] else Higher(Peak(curve[..|curve| - 1]), curve[|curve| - 1])
  }

  function Dip(peak: real, value: real): real {
    if peak != 0.0 then (value - peak) / peak else 0.0
  }

  /** The running-peak drawdown of the metrics and of the long-run evaluation. */
  function Worst(curve: seq<real>): real {
    if curve == [] then 0.0
    else Lower(Worst(curve[..|curve| - 1]), Dip(Peak(curve), curve[|curve| - 1]))
  }

  /** The dashboard's: only peaks above zero count, and only deeper values replace the maximum. */
  function Deepest(curve: seq<real>): real {
    if curve == [] then 0.0
    else
      var before := Deepest(curve[..|curve| - 1]);
      if Peak(curve) > 0.0 then Higher(before, (Peak(curve) - curve[|curve| - 1]) / Peak(curve)) else before
  }

  method MetricsMaxDrawdown(equityCurve: seq<real>) returns (r: real)
    ensures r == Round6(Worst(equityCurve))
  {
    if equityCurve == [] {
      ZeroRoundsToZero();
      return 0.0;
    }
    var peak, maxDd := equityCurve[0], 0.0;
    for i := 0 to |equityCurve|
      invariant i == 0 ==> peak == equityCurve[0]
      invariant i > 0 ==> peak == Peak(equityCurve[..i])
      invariant maxDd == Worst(equityCurve[..i])
    {
      assert equityCurve[..i + 1][..i] == equityCurve[..i];
      peak := Higher(peak, equityCurve[i]);
      var dd := if peak != 0.0 then (equityCurve[i] - peak) / peak else 0.0;
      maxDd := Lower(maxDd, dd);
    }
    assert equityCurve[..|equityCurve|] == equityCurve;
    r := Round6(maxDd);
  }

  method LongRunMaxDrawdown(navs: seq<real>) returns (r: real)
    ensures r == Round6(Worst(navs))
  {
    if navs == [] {
      ZeroRoundsToZero();
      return 0.0;
    }
    var peak := navs[0];
    var maxDd := 0.0;
    var i := 0;
    while i < |navs|
      invariant 0 <= i <= |navs|
      invariant i == 0 ==> peak == navs[0]
      invariant i > 0 ==> peak == Peak(navs[..i])
      invariant maxDd == Worst(navs[..i])
    {
      assert navs[..i + 1][..i] == navs[..i];
      peak := if navs[i] > peak then navs[i] else peak;
      var drawdown := if peak == 0.0 then 0.0 else (navs[i] - peak) / peak;
      maxDd := if drawdown < maxDd then drawdown else maxDd;
      i := i + 1;
    }
    assert navs[..|navs|] == navs;
    r := Round6(maxDd);
  }

  method DashboardMaxDrawdown(navValues: seq<real>) returns (r: real)
    ensures r == if |navValues| >= 2 then Round6(Deepest(navValues)) else 0.0
  {
    r := 0.0;
    if |navValues| >= 2 {
      var peak := navValues[0];
      for i := 0 to |navValues|
        invariant i == 0 ==> peak == navValues[0]
        invariant i > 0 ==> peak == Peak(navValues[..i])
        invariant r == Deepest(navValues[..i])
      {
        assert navValues[..i + 1][..i] == navValues[..i];
        if navValues[i] > peak {
          peak := navValues[i];
        }
        if peak > 0.0 {
          var drawdown := (peak - navValues[i]) / peak;
          if drawdown > r {
            r := drawdown;
          }
        }
      }
      assert navValues[..|navValues|] == navValues;
      r := Round6(r);
    }
  }

  lemma ZeroRoundsToZero()
    ensures Round6(0.0) == 0.0
  {
    NearestOfInteger(0);
  }

  // What it means -------------------------------------------------------------------------------------------------

  predicate Positive(curve: seq<real>) {
    forall i :: 0 <= i < |curve| ==> curve[i] > 0.0
  }

  function Change(from: real, to: real): real
    requires from > 0.0
  {
    (to - from) / from
  }

  lemma ChangeIsRatio(from: real, to: real)
    requires from > 0.0
    ensures Change(from, to) == to / from - 1.0
  {
    var d, q := Change(from, to), to / from;
    assert d * from == to - from;
    assert q * from == to;
    OnlyZeroTimesPositive(d - q + 1.0, from);
  }

  lemma OnlyZeroTimesPositive(z: real, f: real)
    requires f > 0.0 && z * f == 0.0
    ensures z == 0.0
  {
  }

  lemma HigherStartFallsFurther(a: real, b: real, x: real)
    requires 0.0 < a <= b && x > 0.0
    ensures Change(b, x) <= Change(a, x)
  {
    ChangeIsRatio(a, x);
    ChangeIsRatio(b, x);
    Reciprocals(a, b, x);
  }

  lemma Reciprocals(a: real, b: real, x: real)
    requires 0.0 < a <= b && x > 0.0
    ensures x / b <= x / a
  {
    var q := x / b;
    assert q * b == x;
    assert q >= 0.0;
    assert q * a <= q * b;
    assert (x / a - q) * a >= 0.0;
  }

  lemma {:induction false} PeakIsHighest(curve: seq<real>) returns (top: nat)
    requires curve != []
    ensures top < |curve| && curve[top] == Peak(curve)
    ensures forall i :: 0 <= i < |curve| ==> curve[i] <= Peak(curve)
  {
    var n := |curve| - 1;
    if n == 0 {
      top := 0;
    } else {
      top := PeakIsHighest(curve[..n]);
      assert forall i :: 0 <= i < n ==> curve[..n][i] == curve[i];
      if curve[n] > Peak(curve[..n]) {
        top := n;
      }
    }
  }

  /** On a positive curve one pass finds the worst change from any value to any later one (or to itself). */
  lemma {:induction false} WorstIsLeastChange(curve: seq<real>) returns (from: nat, to: nat)
    requires curve != [] && Positive(curve)
    ensures from <= to < |curve| && Worst(curve) == Change(curve[from], curve[to])
    ensures forall i, j :: 0 <= i <= j < |curve| ==> Worst(curve) <= Change(curve[i], curve[j])
  {
    var n := |curve| - 1;
    var top := PeakIsHighest(curve);
    var dip := Dip(Peak(curve), curve[n]);
    assert dip == Change(curve[top], curve[n]);
    if n == 0 {
      from, to := 0, 0;
    } else {
      from, to := WorstIsLeastChange(curve[..n]);
      if dip < Worst(curve[..n]) {
        from, to := top, n;
      }
    }
    forall i, j | 0 <= i <= j < |curve|
      ensures Worst(curve) <= Change(curve[i], curve[j])
    {
      if j == n {
        HigherStartFallsFurther(curve[i], curve[top], curve[n]);
      } else {
        assert Worst(curve[..n]) <= Change(curve[..n][i], curve[..n][j]);
      }
    }
  }

  lemma DipBelowPeak(peak: real, value: real)
    requires value <= peak
    ensures peak > 0.0 ==> Dip(peak, value) <= 0.0 && (peak - value) / peak == -Dip(peak, value)
    ensures peak <= 0.0 ==> Dip(peak, value) >= 0.0
  {
    if peak > 0.0 {
      var d, e := Dip(peak, value), (peak - value) / peak;
      assert d * peak == value - peak;
      assert e * peak == peak - value;
      assert (d + e) * peak == 0.0;
    } else if peak < 0.0 {
      assert Dip(peak, value) * peak == value - peak;
    }
  }

  /**
    On every curve, positive or not, the dashboard's depth is the negated drawdown: peaks at or below zero count for
    neither.
   */
  lemma {:induction false} DeepestIsMinusWorst(curve: seq<real>)
    ensures Deepest(curve) == -Worst(curve) && Worst(curve) <= 0.0
  {
    if curve != [] {
      DeepestIsMinusWorst(curve[..|curve| - 1]);
      var top := PeakIsHighest(curve);
      DipBelowPeak(Peak(curve), curve[|curve| - 1]);
    }
  }

  /** So the three reports agree, even after rounding. */
  lemma DashboardAgrees(navs: seq<real>)
    ensures (if |navs| >= 2 then Round6(Deepest(navs)) else 0.0) == -Round6(Worst(navs))
  {
    DeepestIsMinusWorst(navs);
    NearestIsOdd(Worst(navs) * 1000000.0);
    ZeroRoundsToZero();
    if |navs| == 1 {
      OneValueNeverFalls(navs);
    }
  }

  lemma OneValueNeverFalls(navs: seq<real>)
    requires |navs| == 1
    ensures Worst(navs) == 0.0
  {
    assert navs[..0] == [];
    assert Dip(navs[0], navs[0]) == 0.0;
  }
}
