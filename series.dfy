/** Daily bars and the statistics `Ticker` derives from them: the moving average of
    the adjusted close, the 90-bar average volume and the rounded percent move. */
module Series {
  import opened Outcome

  /** One row of a ticker's CSV file; dates are day numbers. */
  datatype Bar = Bar(date: int, open: real, high: real, low: real, close: real,
                     adjClose: real, volume: int)

  function MinNat(a: nat, b: nat): nat
  {
    if a <= b then a else b
  }

  /** `DataFrame.tail(k)` for k >= 0: the last min(k, n) rows. */
  function Tail<T>(s: seq<T>, k: nat): (t: seq<T>)
    ensures |t| == MinNat(k, |s|)
    ensures t == s[|s| - |t|..]
  {
    s[|s| - MinNat(k, |s|)..]
  }

  function Closes(s: seq<Bar>): (c: seq<real>)
    ensures |c| == |s| && forall i :: 0 <= i < |s| ==> c[i] == s[i].adjClose
  {
    seq(|s|, i requires 0 <= i < |s| => s[i].adjClose)
  }

  function Volumes(s: seq<Bar>): (v: seq<real>)
    ensures |v| == |s| && forall i :: 0 <= i < |s| ==> v[i] == s[i].volume as real
  {
    seq(|s|, i requires 0 <= i < |s| => s[i].volume as real)
  }

  function Sum(xs: seq<real>): real
  {
    if xs == [] then 0.0 else Sum(xs[..|xs| - 1]) + xs[|xs| - 1]
  }

  /** `Series.mean()`: no value (NaN) for an empty series. */
  function Mean(xs: seq<real>): (m: Option<real>)
    ensures m.Some? <==> |xs| > 0
  {
    if xs == [] then None else Some(Sum(xs) / |xs| as real)
  }

  /** Least element. */
  function Min(xs: seq<real>): (m: real)
    requires |xs| > 0
    ensures m in xs && forall i :: 0 <= i < |xs| ==> m <= xs[i]
  {
    if |xs| == 1 then xs[0]
    else
      var m := Min(xs[..|xs| - 1]);
      assert forall i :: 0 <= i < |xs| - 1 ==> xs[..|xs| - 1][i] == xs[i];
      if xs[|xs| - 1] < m then xs[|xs| - 1] else m
  }

  /** Greatest element. */
  function Max(xs: seq<real>): (m: real)
    requires |xs| > 0
    ensures m in xs && forall i :: 0 <= i < |xs| ==> xs[i] <= m
  {
    if |xs| == 1 then xs[0]
    else
      var m := Max(xs[..|xs| - 1]);
      assert forall i :: 0 <= i < |xs| - 1 ==> xs[..|xs| - 1][i] == xs[i];
      if xs[|xs| - 1] > m then xs[|xs| - 1] else m
  }

  /** `_df['Adj Close'].tail(days).mean()` (ticker.py get_moving_avg). */
  function MovingAverage(s: seq<Bar>, days: nat): (r: Option<real>)
    ensures r.Some? <==> days > 0 && |s| > 0
  {
    Mean(Closes(Tail(s, days)))
  }

  /** `_df['Volume'].tail(90).mean()` (ticker.py get_average_volume). */
  function AverageVolume(s: seq<Bar>): (r: Option<real>)
    ensures r.Some? <==> |s| > 0
  {
    Mean(Volumes(Tail(s, 90)))
  }

  /** Bounds on every element bound the sum. */
  lemma {:induction false} SumBounds(xs: seq<real>, lo: real, hi: real)
    requires forall i :: 0 <= i < |xs| ==> lo <= xs[i] <= hi
    ensures |xs| as real * lo <= Sum(xs) <= |xs| as real * hi
  {
    if xs != [] {
      SumBounds(xs[..|xs| - 1], lo, hi);
    }
  }

  lemma DivBounds(total: real, n: real, lo: real, hi: real)
    requires n > 0.0 && n * lo <= total <= n * hi
    ensures lo <= total / n <= hi
  {
    var q := total / n;
    assert q * n == total;
  }

  /** Bounds on every element bound the mean. */
  lemma MeanWithin(xs: seq<real>, lo: real, hi: real)
    requires |xs| > 0
    requires forall i :: 0 <= i < |xs| ==> lo <= xs[i] <= hi
    ensures lo <= Mean(xs).value <= hi
  {
    SumBounds(xs, lo, hi);
    DivBounds(Sum(xs), |xs| as real, lo, hi);
  }

  /** The mean lies between the least and the greatest element. */
  lemma MeanBounds(xs: seq<real>)
    requires |xs| > 0
    ensures Min(xs) <= Mean(xs).value <= Max(xs)
  {
    MeanWithin(xs, Min(xs), Max(xs));
  }

  /** The moving average over `days` lies between the least and the greatest of
      the last min(days, n) adjusted closes. */
  lemma MovingAverageBounds(s: seq<Bar>, days: nat)
    requires days > 0 && |s| > 0
    ensures var w := Closes(Tail(s, days));
      Min(w) <= MovingAverage(s, days).value <= Max(w)
  {
    MeanBounds(Closes(Tail(s, days)));
  }

  /** Raising one element and keeping the others raises the sum. */
  lemma {:induction false} SumRaise(xs: seq<real>, ys: seq<real>, k: nat)
    requires |xs| == |ys| && k < |xs|
    requires forall i :: 0 <= i < |xs| && i != k ==> xs[i] == ys[i]
    requires xs[k] < ys[k]
    ensures Sum(xs) < Sum(ys)
  {
    var n := |xs|;
    if k == n - 1 {
      assert xs[..n - 1] == ys[..n - 1];
    } else {
      SumRaise(xs[..n - 1], ys[..n - 1], k);
    }
  }

  /** Only the last min(days, n) bars matter: bars in front of a series that already
      has `days` bars do not change the moving average. */
  lemma MovingAverageIgnoresOlderBars(older: seq<Bar>, s: seq<Bar>, days: nat)
    requires |s| >= days
    ensures MovingAverage(older + s, days) == MovingAverage(s, days)
  {
    assert Tail(older + s, days) == Tail(s, days);
  }

  /** Every one of the last min(90, n) bars matters: a higher volume on any of them
      gives a higher average volume, while the volumes before them do not count. */
  lemma AverageVolumeWindow(s: seq<Bar>, t: seq<Bar>, k: nat)
    requires |s| == |t| && k < |s|
    requires forall i :: 0 <= i < |s| && i != k ==> s[i].volume == t[i].volume
    requires s[k].volume < t[k].volume
    ensures |s| - MinNat(90, |s|) <= k ==> AverageVolume(s).value < AverageVolume(t).value
    ensures k < |s| - MinNat(90, |s|) ==> AverageVolume(s) == AverageVolume(t)
  {
    var m := MinNat(90, |s|);
    var vs, vt := Volumes(Tail(s, 90)), Volumes(Tail(t, 90));
    if |s| - m <= k {
      SumRaise(vs, vt, k - (|s| - m));
      DivStrict(Sum(vs), Sum(vt), m as real);
    } else {
      TailVolumesAgree(s, t, k);
    }
  }

  lemma DivStrict(a: real, b: real, n: real)
    requires a < b && n > 0.0
    ensures a / n < b / n
  {
  }

  /** Volumes that differ only before the last 90 bars have the same last 90. */
  lemma TailVolumesAgree(s: seq<Bar>, t: seq<Bar>, k: nat)
    requires |s| == |t| && k < |s| - MinNat(90, |s|)
    requires forall i :: 0 <= i < |s| && i != k ==> s[i].volume == t[i].volume
    ensures Volumes(Tail(s, 90)) == Volumes(Tail(t, 90))
  {
    var d := |s| - MinNat(90, |s|);
    forall i | 0 <= i < MinNat(90, |s|)
      ensures Volumes(Tail(s, 90))[i] == Volumes(Tail(t, 90))[i]
    {
      assert Tail(s, 90)[i] == s[d + i] && Tail(t, 90)[i] == t[d + i];
    }
  }

  /** Python's `round(x, 2)` on an exact value: to the nearest hundredth, ties to
      the even hundredth. */
  function Round2(x: real): (r: real)
    ensures x - 0.005 <= r <= x + 0.005
  {
    var y := x * 100.0;
    var f := y.Floor;
    var d := y - f as real;
    var n := if d < 0.5 then f else if d > 0.5 then f + 1 else if f % 2 == 0 then f else f + 1;
    n as real / 100.0
  }

  /** Rounding never reorders values. */
  lemma Round2Monotone(x: real, y: real)
    requires x <= y
    ensures Round2(x) <= Round2(y)
  {
    var fx, fy := (x * 100.0).Floor, (y * 100.0).Floor;
    assert fx <= fy;
  }

  /** A value already on a hundredth is left as it is. */
  lemma Round2Exact(n: int)
    ensures Round2(n as real / 100.0) == n as real / 100.0
  {
    assert (n as real / 100.0 * 100.0).Floor == n;
  }

  /** The two alert thresholds after rounding: a rounded move reaches 3 exactly
      when the exact move reaches 2.995, and -3 exactly when it reaches -2.995. */
  lemma Round2Thresholds(x: real)
    ensures Round2(x) >= 3.0 <==> x >= 2.995
    ensures Round2(x) <= -3.0 <==> x <= -2.995
  {
    var y := x * 100.0;
    var f := y.Floor;
    assert f as real <= y < f as real + 1.0;
  }

  /** The row `iloc[j]` names in a frame of n rows: negative positions count from
      the end; anything outside the frame raises IndexError. */
  function ILoc(n: nat, j: int): (r: Option<nat>)
    ensures r.Some? <==> 0 <= j + n && j < n
    ensures r.Some? ==> r.value < n && (j < 0 ==> r.value == n + j) && (j >= 0 ==> r.value == j)
  {
    if 0 <= j < n then Some(j) else if 0 <= j + n && j < 0 then Some(n + j) else None
  }

  /** The exact percent change of `price` over `reference`. */
  function Change(price: real, reference: real): (r: real)
    requires reference != 0.0
    ensures price == reference * (1.0 + r / 100.0)
  {
    (price / reference - 1.0) * 100.0
  }

  /** `round((price / _df.iloc[-days]['Adj Close'] - 1) * 100, 2)`
      (ticker.py get_percent_move); a zero reference close is reported. */
  function PercentMove(price: real, s: seq<Bar>, days: int): (r: Result<real>)
    ensures r.Err? <==> ILoc(|s|, -days).None? || s[ILoc(|s|, -days).value].adjClose == 0.0
  {
    match ILoc(|s|, -days)
    case None => Err(IndexError)
    case Some(row) =>
      var reference := s[row].adjClose;
      if reference == 0.0 then Err(ZeroClose) else Ok(Round2(Change(price, reference)))
  }

  /** A price of 103 against a last close of 100 is a move of 3.0. */
  lemma PercentMoveExample(s: seq<Bar>)
    requires |s| > 0 && s[|s| - 1].adjClose == 100.0
    ensures PercentMove(103.0, s, 1) == Ok(3.0)
  {
    assert Change(103.0, 100.0) == 300 as real / 100.0;
    Round2Exact(300);
  }

  /** A price a thousandth of a percent above a last close of 100 rounds to a move
      of exactly zero: after rounding, a positive move implies a higher price but not
      the converse. */
  lemma PercentMoveRoundsToZero(s: seq<Bar>)
    requires |s| > 0 && s[|s| - 1].adjClose == 100.0
    ensures PercentMove(100.001, s, 1) == Ok(0.0)
    ensures 100.001 > s[|s| - 1].adjClose
  {
    assert Change(100.001, 100.0) == 0.001;
    assert (0.001 * 100.0).Floor == 0;
  }

  /** Against a positive reference, the exact change is positive exactly when the
      price is above it and negative exactly when below. */
  lemma ChangeSign(price: real, reference: real)
    requires reference > 0.0
    ensures Change(price, reference) > 0.0 <==> price > reference
    ensures Change(price, reference) < 0.0 <==> price < reference
    ensures Change(price, reference) == 0.0 <==> price == reference
  {
    var q := price / reference;
    assert q * reference == price;
    if price > reference { assert q > 1.0; }
    if price < reference { assert q < 1.0; }
  }

  /** The rounded move keeps the sign of the price change: positive only when the
      price is above the reference close, negative only when below, zero when equal. */
  lemma PercentMoveSign(price: real, s: seq<Bar>, days: int)
    requires PercentMove(price, s, days).Ok?
    requires s[ILoc(|s|, -days).value].adjClose > 0.0
    ensures var reference := s[ILoc(|s|, -days).value].adjClose;
      var r := PercentMove(price, s, days).value;
      && (r > 0.0 ==> price > reference)
      && (r < 0.0 ==> price < reference)
      && (price == reference ==> r == 0.0)
  {
    var reference := s[ILoc(|s|, -days).value].adjClose;
    var c := Change(price, reference);
    ChangeSign(price, reference);
    Round2Exact(0);
    assert 0 as real / 100.0 == 0.0;
    if c <= 0.0 { Round2Monotone(c, 0.0); }
    if c >= 0.0 { Round2Monotone(0.0, c); }
  }
}
