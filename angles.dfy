/**
  Palm orientation: folding the raw angle into (-180, 180] and the weighted
  moving average over the angle history.  Angles are degrees, modelled as
  exact reals; `math.atan2` and `math.degrees` are outside the model, so the
  angle arrives as the degree value `math.degrees(atan2(...))`.
 */
module Angles {

  /** The range of `math.degrees(math.atan2(y, x))`. */
  type AtanDegrees = d: real | -180.0 <= d <= 180.0

  /** True of an angle in the half-open range (-180, 180]. */
  predicate InRange(a: real) {
    -180.0 < a <= 180.0
  }

  /** The single +-360 correction applied to the raw angle. */
  function Fold(raw: real): (a: real)
    ensures a - raw == 0.0 || a - raw == 360.0 || a - raw == -360.0
    ensures -540.0 < raw <= 540.0 ==> InRange(a)
    ensures InRange(raw) ==> a == raw
  {
    if raw <= -180.0 then raw + 360.0
    else if raw > 180.0 then raw - 360.0
    else raw
  }

  /** Within one turn of the range, the folded angle is the only value in range that
      differs from the raw one by a multiple of 360 no larger than one turn. */
  lemma FoldUnique(raw: real, b: real)
    requires -540.0 < raw <= 540.0
    requires InRange(b)
    requires b - raw == 0.0 || b - raw == 360.0 || b - raw == -360.0
    ensures Fold(raw) == b
  {
  }

  /** The orientation of the palm: the atan2 angle turned by -90 degrees, then folded. */
  function Orientation(deg: AtanDegrees): (a: real)
    ensures InRange(a)
    ensures a == deg - 90.0 || a == deg - 90.0 + 360.0
  {
    Fold(deg - 90.0)
  }

  /** The weights handed to `np.average`, in the order of the buffer (oldest first). */
  const Weights: seq<real> := [0.5, 0.3, 0.2]

  /** Sum over i < n of Weights[i] * buf[i]. */
  function WeightedSum(buf: seq<real>, n: nat): (sum: real)
    requires n <= |buf| && n <= |Weights|
  {
    if n == 0 then 0.0 else WeightedSum(buf, n - 1) + Weights[n - 1] * buf[n - 1]
  }

  /** Sum over i < n of Weights[i]. */
  function WeightTotal(n: nat): (t: real)
    requires n <= |Weights|
    ensures 0 < n ==> 0.0 < t
  {
    if n == 0 then 0.0 else WeightTotal(n - 1) + Weights[n - 1]
  }

  /** The smallest sample. */
  function Min(s: seq<real>): (m: real)
    requires 0 < |s|
    ensures m in s
    ensures forall x :: x in s ==> m <= x
  {
    if |s| == 1 then s[0]
    else
      var t := Min(s[1..]);
      assert forall x :: x in s ==> x == s[0] || x in s[1..];
      if s[0] <= t then s[0] else t
  }

  /** The largest sample. */
  function Max(s: seq<real>): (m: real)
    requires 0 < |s|
    ensures m in s
    ensures forall x :: x in s ==> x <= m
  {
    if |s| == 1 then s[0]
    else
      var t := Max(s[1..]);
      assert forall x :: x in s ==> x == s[0] || x in s[1..];
      if t <= s[0] then s[0] else t
  }

  /** The weighted sum and the total weight in closed form for each buffer length. */
  lemma WeightedClosedForm(buf: seq<real>)
    requires 0 < |buf| <= |Weights|
    ensures WeightTotal(1) == 0.5 && WeightedSum(buf, 1) == 0.5 * buf[0]
    ensures |buf| >= 2 ==> WeightTotal(2) == 0.8 && WeightedSum(buf, 2) == 0.5 * buf[0] + 0.3 * buf[1]
    ensures |buf| == 3 ==> WeightTotal(3) == 1.0 && WeightedSum(buf, 3) == 0.5 * buf[0] + 0.3 * buf[1] + 0.2 * buf[2]
  {
  }

  /** Every sample lies between the smallest and the largest one. */
  lemma SamplesBetween(buf: seq<real>)
    requires 0 < |buf|
    ensures forall i :: 0 <= i < |buf| ==> Min(buf) <= buf[i] <= Max(buf)
  {
    assert forall i :: 0 <= i < |buf| ==> buf[i] in buf;
  }

  /** The weighted mean of the whole buffer lies between its smallest and largest sample. */
  lemma WeightedMeanBetween(buf: seq<real>)
    requires 0 < |buf| <= |Weights|
    ensures Min(buf) <= WeightedSum(buf, |buf|) / WeightTotal(|buf|) <= Max(buf)
  {
    SamplesBetween(buf);
    WeightedClosedForm(buf);
    if |buf| == 1 {
      MeanOfOne(buf);
    } else if |buf| == 2 {
      MeanOfTwo(buf, Min(buf), Max(buf));
    } else {
      MeanOfThree(buf, Min(buf), Max(buf));
    }
  }

  /** One sample: the mean is the sample. */
  lemma MeanOfOne(buf: seq<real>)
    requires |buf| == 1
    ensures WeightedSum(buf, |buf|) / WeightTotal(|buf|) == buf[0]
  {
    WeightedClosedForm(buf);
  }

  /** Two samples within bounds: so is their mean. */
  lemma MeanOfTwo(buf: seq<real>, lo: real, hi: real)
    requires |buf| == 2
    requires lo <= buf[0] <= hi && lo <= buf[1] <= hi
    ensures lo <= WeightedSum(buf, |buf|) / WeightTotal(|buf|) <= hi
  {
    WeightedClosedForm(buf);
    assert WeightedSum(buf, |buf|) / WeightTotal(|buf|) == (0.5 * buf[0] + 0.3 * buf[1]) / 0.8;
  }

  /** Three samples within bounds: so is their mean. */
  lemma MeanOfThree(buf: seq<real>, lo: real, hi: real)
    requires |buf| == 3
    requires lo <= buf[0] <= hi && lo <= buf[1] <= hi && lo <= buf[2] <= hi
    ensures lo <= WeightedSum(buf, |buf|) / WeightTotal(|buf|) <= hi
  {
    WeightedClosedForm(buf);
    assert WeightedSum(buf, |buf|) / WeightTotal(|buf|) == (0.5 * buf[0] + 0.3 * buf[1] + 0.2 * buf[2]) / 1.0;
  }

  /** `np.average(list(angle_buffer), weights=weights[:len(angle_buffer)])`: the weighted
      sum divided by the sum of the weights used.  The weights go with the buffer's
      order, so the oldest sample weighs 0.5 and the newest the least.  The average
      lies between the smallest and the largest sample. */
  function Smooth(buf: seq<real>): (avg: real)
    requires 0 < |buf| <= |Weights|
    ensures Min(buf) <= avg <= Max(buf)
  {
    WeightedMeanBetween(buf);
    WeightedSum(buf, |buf|) / WeightTotal(|buf|)
  }

  /** The average in closed form for each buffer length: one sample is returned as is,
      two are weighed 0.5 : 0.3, three 0.5 : 0.3 : 0.2, oldest first. */
  lemma SmoothClosedForm(buf: seq<real>)
    requires 0 < |buf| <= |Weights|
    ensures |buf| == 1 ==> Smooth(buf) == buf[0]
    ensures |buf| == 2 ==> Smooth(buf) == (0.5 * buf[0] + 0.3 * buf[1]) / 0.8
    ensures |buf| == 3 ==> Smooth(buf) == 0.5 * buf[0] + 0.3 * buf[1] + 0.2 * buf[2]
  {
    WeightedClosedForm(buf);
    if |buf| == 1 {
      assert Smooth(buf) == (0.5 * buf[0]) / 0.5;
    } else if |buf| == 3 {
      assert Smooth(buf) == (0.5 * buf[0] + 0.3 * buf[1] + 0.2 * buf[2]) / 1.0;
    }
  }

  /** The history [10, 25, 40] (40 the newest) smooths to 20.5: the oldest sample carries
      the largest weight, although the comment beside the weights speaks of more weight
      to recent angles. */
  lemma SmoothOldestFirstExample()
    ensures Smooth([10.0, 25.0, 40.0]) == 20.5
  {
    SmoothClosedForm([10.0, 25.0, 40.0]);
  }

  /** A history of normalised angles smooths to a normalised angle. */
  lemma SmoothInRange(buf: seq<real>)
    requires 0 < |buf| <= |Weights|
    requires forall i :: 0 <= i < |buf| ==> InRange(buf[i])
    ensures InRange(Smooth(buf))
  {
    assert Min(buf) in buf && Max(buf) in buf;
  }
}
