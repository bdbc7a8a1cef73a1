/** The sensitivity field: the back-projection of a volume of ones, clipped
    from below at a fixed fraction of its own maximum. */
module Sensitivity {
  import opened Volumes
  import opened Projection

  /** Fraction of the maximum below which sensitivity values are raised. */
  const FloorRatio: real := 0.3

  /** Every element raised to at least FloorRatio times the maximum. */
  function Clip(raw: seq<real>): (s: seq<real>)
    requires |raw| > 0
    ensures |s| == |raw|
    ensures forall k :: 0 <= k < |s| ==> s[k] >= FloorRatio * Max(raw)
    ensures forall k :: 0 <= k < |s| && raw[k] >= FloorRatio * Max(raw) ==> s[k] == raw[k]
    ensures forall k :: 0 <= k < |s| && raw[k] < FloorRatio * Max(raw) ==> s[k] == FloorRatio * Max(raw)
  {
    var floor := FloorRatio * Max(raw);
    seq(|raw|, k requires 0 <= k < |raw| => if raw[k] < floor then floor else raw[k])
  }

  /** Clipping never changes a non-negative maximum. */
  lemma ClipKeepsMaximum(raw: seq<real>)
    requires |raw| > 0 && Max(raw) >= 0.0
    ensures Max(Clip(raw)) == Max(raw)
  {
    var s := Clip(raw);
    var m := Max(raw);
    var i :| 0 <= i < |raw| && raw[i] == m;
    assert s[i] == m;
    assert forall k :: 0 <= k < |s| ==> s[k] <= m;
    var j :| 0 <= j < |s| && s[j] == Max(s);
  }

  /** A positive maximum makes every clipped element positive; a non-zero
      one leaves no zero element to divide by. */
  lemma ClipIsSafeDivisor(raw: seq<real>)
    requires |raw| > 0
    ensures Max(raw) > 0.0 ==> Positive(Clip(raw))
    ensures Max(raw) != 0.0 ==> NoZero(Clip(raw))
  {
    var s := Clip(raw);
    var m := Max(raw);
    if m < 0.0 {
      forall k | 0 <= k < |s| ensures s[k] != 0.0 {
        assert raw[k] <= m < FloorRatio * m;
      }
    }
  }

  /** The raw sensitivity: the back-projection of a data-sized volume of ones. */
  function RawSensitivity(p: Projector, dataLen: nat, reconLen: nat): (raw: seq<real>)
    requires ShapePreserving(p, dataLen, reconLen)
    ensures |raw| == reconLen
  {
    p.adjoint(Ones(dataLen))
  }

  function SensitivityField(p: Projector, dataLen: nat, reconLen: nat): (s: seq<real>)
    requires ShapePreserving(p, dataLen, reconLen) && reconLen > 0
    ensures |s| == reconLen
  {
    Clip(RawSensitivity(p, dataLen, reconLen))
  }

  /** With non-negative projections, the sensitivity field is strictly
      positive exactly when the raw field is not identically zero. */
  lemma SensitivityPositive(p: Projector, dataLen: nat, reconLen: nat)
    requires ShapePreserving(p, dataLen, reconLen) && PreservesNonNegative(p, dataLen, reconLen)
    requires reconLen > 0
    ensures Positive(SensitivityField(p, dataLen, reconLen)) <==> Max(RawSensitivity(p, dataLen, reconLen)) != 0.0
  {
    var raw := RawSensitivity(p, dataLen, reconLen);
    assert NonNegative(Ones(dataLen));
    assert NonNegative(raw);
    ClipIsSafeDivisor(raw);
    if Max(raw) == 0.0 {
      var i :| 0 <= i < |raw| && raw[i] == 0.0;
      assert SensitivityField(p, dataLen, reconLen)[i] == 0.0;
    }
  }
}
