/** The multiplicative update: forward-project the estimate, divide the data
    by the prediction, back-project that ratio, divide by the sensitivity
    field and multiply the estimate by the result. */
module Restoration {
  import opened Failures
  import opened Volumes
  import opened Projection
  import opened Sensitivity
  import opened Progression

  /** Neither the prediction for `y` nor the sensitivity field has a zero
      element, so both divisions of a pass are defined. */
  predicate Divisible(p: Projector, data: seq<real>, sens: seq<real>, y: seq<real>)
    requires ShapePreserving(p, |data|, |y|)
  {
    NoZero(p.forward(y)) && NoZero(sens)
  }

  /** The measured-to-predicted ratio of one pass. */
  function Ratio(p: Projector, data: seq<real>, y: seq<real>): (e: seq<real>)
    requires ShapePreserving(p, |data|, |y|) && NoZero(p.forward(y))
    ensures |e| == |data|
    ensures forall k :: 0 <= k < |e| ==> e[k] * p.forward(y)[k] == data[k]
  {
    Quotient(data, p.forward(y))
  }

  /** The factor by which one pass multiplies each voxel of the estimate. */
  function Correction(p: Projector, data: seq<real>, sens: seq<real>, y: seq<real>): (c: seq<real>)
    requires ShapePreserving(p, |data|, |y|) && |sens| == |y| && Divisible(p, data, sens, y)
    ensures |c| == |y|
    ensures forall k :: 0 <= k < |c| ==> c[k] * sens[k] == p.adjoint(Ratio(p, data, y))[k]
  {
    Quotient(p.adjoint(Ratio(p, data, y)), sens)
  }

  /** One update pass applied to the estimate `y`. */
  function Pass(p: Projector, data: seq<real>, sens: seq<real>, y: seq<real>): (z: seq<real>)
    requires ShapePreserving(p, |data|, |y|) && |sens| == |y| && Divisible(p, data, sens, y)
    ensures |z| == |y|
  {
    Product(y, Correction(p, data, sens, y))
  }

  /** The estimate after `k` passes from `x`, or None once a pass meets a zero divisor. */
  function Iterate(p: Projector, data: seq<real>, sens: seq<real>, x: seq<real>, k: nat): (r: Option<seq<real>>)
    requires ShapePreserving(p, |data|, |x|) && |sens| == |x|
    ensures r.Some? ==> |r.value| == |x|
  {
    if k == 0 then Some(x)
    else
      match Iterate(p, data, sens, x, k - 1)
      case None => None
      case Some(y) => if Divisible(p, data, sens, y) then Some(Pass(p, data, sens, y)) else None
  }

  /** The snapshots taken during the first `k` passes: a copy of the estimate
      after each pass the schedule captures. */
  function Snapshots(p: Projector, data: seq<real>, sens: seq<real>, x: seq<real>, sched: Schedule, k: nat): seq<seq<real>>
    requires ShapePreserving(p, |data|, |x|) && |sens| == |x|
    requires Iterate(p, data, sens, x, k).Some?
  {
    if k == 0 then []
    else Snapshots(p, data, sens, x, sched, k - 1) +
         (if Captures(sched, k - 1) then [Iterate(p, data, sens, x, k).value] else [])
  }

  /** A run that completes `k` passes completed each earlier pass. */
  lemma {:induction false} IterateDefinedBelow(p: Projector, data: seq<real>, sens: seq<real>, x: seq<real>, j: nat, k: nat)
    requires ShapePreserving(p, |data|, |x|) && |sens| == |x|
    requires j <= k && Iterate(p, data, sens, x, k).Some?
    ensures Iterate(p, data, sens, x, j).Some?
  {
    if j < k {
      IterateDefinedBelow(p, data, sens, x, j, k - 1);
    }
  }

  /** Once a pass meets a zero divisor, no later pass count is reached. */
  lemma {:induction false} IterateStaysUndefined(p: Projector, data: seq<real>, sens: seq<real>, x: seq<real>, j: nat, k: nat)
    requires ShapePreserving(p, |data|, |x|) && |sens| == |x|
    requires j <= k && Iterate(p, data, sens, x, j).None?
    ensures Iterate(p, data, sens, x, k).None?
  {
    if j < k {
      IterateStaysUndefined(p, data, sens, x, j, k - 1);
    }
  }

  /** Snapshot t is the estimate after pass Passes(sched, k)[t], i.e. after
      that many plus one updates, listed in pass order. */
  lemma {:induction false} SnapshotsFollowSchedule(p: Projector, data: seq<real>, sens: seq<real>, x: seq<real>, sched: Schedule, k: nat)
    requires ShapePreserving(p, |data|, |x|) && |sens| == |x|
    requires Iterate(p, data, sens, x, k).Some?
    ensures |Snapshots(p, data, sens, x, sched, k)| == |Passes(sched, k)|
    ensures forall t :: 0 <= t < |Passes(sched, k)| ==>
              Passes(sched, k)[t] < k &&
              Iterate(p, data, sens, x, Passes(sched, k)[t] + 1).Some? &&
              Snapshots(p, data, sens, x, sched, k)[t] == Iterate(p, data, sens, x, Passes(sched, k)[t] + 1).value
  {
    if k > 0 {
      SnapshotsFollowSchedule(p, data, sens, x, sched, k - 1);
      var ps := Passes(sched, k);
      var snaps := Snapshots(p, data, sens, x, sched, k);
      var ps' := Passes(sched, k - 1);
      var snaps' := Snapshots(p, data, sens, x, sched, k - 1);
      forall t | 0 <= t < |ps|
        ensures ps[t] < k && Iterate(p, data, sens, x, ps[t] + 1).Some? &&
                snaps[t] == Iterate(p, data, sens, x, ps[t] + 1).value
      {
        if t < |ps'| {
          assert ps[t] == ps'[t] && snaps[t] == snaps'[t];
        } else {
          assert ps[t] == k - 1;
        }
      }
    }
  }

  /** Capturing every pass yields exactly `k` snapshots, the t-th being the
      estimate after t+1 passes. */
  lemma {:induction false} EveryPassSnapshots(p: Projector, data: seq<real>, sens: seq<real>, x: seq<real>, k: nat)
    requires ShapePreserving(p, |data|, |x|) && |sens| == |x|
    requires Iterate(p, data, sens, x, k).Some?
    ensures forall j :: 0 <= j <= k ==> Iterate(p, data, sens, x, j).Some?
    ensures |Snapshots(p, data, sens, x, EveryPass, k)| == k
    ensures forall t :: 0 <= t < k ==>
              Snapshots(p, data, sens, x, EveryPass, k)[t] == Iterate(p, data, sens, x, t + 1).value
  {
    forall j | 0 <= j <= k ensures Iterate(p, data, sens, x, j).Some? {
      IterateDefinedBelow(p, data, sens, x, j, k);
    }
    EveryPassListsAll(k);
    SnapshotsFollowSchedule(p, data, sens, x, EveryPass, k);
    var ps := Passes(EveryPass, k);
    assert |ps| == k;
    forall t | 0 <= t < k
      ensures Snapshots(p, data, sens, x, EveryPass, k)[t] == Iterate(p, data, sens, x, t + 1).value
    {
      assert ps[t] == t;
    }
  }

  /** In logarithmic mode the snapshots are the estimates after
      LogIndices(n)[t] + 1 passes, for every index but the last. */
  lemma {:induction false} LogSnapshots(p: Projector, data: seq<real>, sens: seq<real>, x: seq<real>, n: nat)
    requires ShapePreserving(p, |data|, |x|) && |sens| == |x|
    requires n >= 1 && Iterate(p, data, sens, x, n).Some?
    ensures var ix := LogIndices(n); var snaps := Snapshots(p, data, sens, x, AtIndices(ix), n);
      |snaps| == (if FloorLog2(n) == 0 then 0 else FloorLog2(n) - 1) &&
      forall t :: 0 <= t < |snaps| ==>
        0 <= ix[t] < n && Iterate(p, data, sens, x, ix[t] + 1).Some? &&
        snaps[t] == Iterate(p, data, sens, x, ix[t] + 1).value
  {
    LogPasses(n);
    LogCapturesFinalPass(n);
    SnapshotsFollowSchedule(p, data, sens, x, AtIndices(LogIndices(n)), n);
  }

  /** One pass keeps a non-negative estimate non-negative. */
  lemma PassNonNegative(p: Projector, data: seq<real>, sens: seq<real>, y: seq<real>)
    requires ShapePreserving(p, |data|, |y|) && PreservesNonNegative(p, |data|, |y|)
    requires |sens| == |y| && Divisible(p, data, sens, y)
    requires NonNegative(data) && Positive(sens) && NonNegative(y)
    ensures NonNegative(Pass(p, data, sens, y))
  {
    var predicted := p.forward(y);
    assert Positive(predicted) by {
      forall k | 0 <= k < |predicted| ensures 0.0 < predicted[k] {
        assert 0.0 <= predicted[k] && predicted[k] != 0.0;
      }
    }
    QuotientNonNegative(data, predicted);
    var ratio := Ratio(p, data, y);
    QuotientNonNegative(p.adjoint(ratio), sens);
    ProductNonNegative(y, Correction(p, data, sens, y));
  }

  /** With non-negative data and projections and a positive sensitivity
      field, every estimate a run reaches from a non-negative start is
      non-negative. */
  lemma {:induction false} IterateNonNegative(p: Projector, data: seq<real>, sens: seq<real>, x: seq<real>, k: nat)
    requires ShapePreserving(p, |data|, |x|) && PreservesNonNegative(p, |data|, |x|)
    requires |sens| == |x| && NonNegative(data) && Positive(sens) && NonNegative(x)
    ensures Iterate(p, data, sens, x, k).Some? ==> NonNegative(Iterate(p, data, sens, x, k).value)
  {
    if k > 0 && Iterate(p, data, sens, x, k).Some? {
      IterateNonNegative(p, data, sens, x, k - 1);
      PassNonNegative(p, data, sens, Iterate(p, data, sens, x, k - 1).value);
    }
  }

  /** A run as the program starts it (the clipped sensitivity field of its own
      projections and the all-ones estimate) stays non-negative after every
      defined pass count, given non-negative data and projections and a raw
      sensitivity whose maximum is not zero. */
  lemma RunStaysNonNegative(p: Projector, data: seq<real>, reconLen: nat, k: nat)
    requires ShapePreserving(p, |data|, reconLen) && PreservesNonNegative(p, |data|, reconLen)
    requires reconLen > 0 && NonNegative(data) && Max(RawSensitivity(p, |data|, reconLen)) != 0.0
    ensures var r := Iterate(p, data, SensitivityField(p, |data|, reconLen), Ones(reconLen), k);
      r.Some? ==> NonNegative(r.value)
  {
    SensitivityPositive(p, |data|, reconLen);
    IterateNonNegative(p, data, SensitivityField(p, |data|, reconLen), Ones(reconLen), k);
  }

  /** One pass keeps a positive estimate positive, and needs no zero divisor. */
  lemma PassPositive(p: Projector, data: seq<real>, sens: seq<real>, y: seq<real>)
    requires ShapePreserving(p, |data|, |y|) && PreservesPositive(p, |data|, |y|)
    requires |sens| == |y| && Positive(data) && Positive(sens) && Positive(y)
    ensures Divisible(p, data, sens, y)
    ensures Positive(Pass(p, data, sens, y))
  {
    var predicted := p.forward(y);
    QuotientPositive(data, predicted);
    var ratio := Ratio(p, data, y);
    QuotientPositive(p.adjoint(ratio), sens);
    ProductPositive(y, Correction(p, data, sens, y));
  }

  /** With strictly positive data, projections and sensitivity, a run from a
      positive estimate never meets a zero divisor and stays positive. */
  lemma {:induction false} PositiveRunCompletes(p: Projector, data: seq<real>, sens: seq<real>, x: seq<real>, k: nat)
    requires ShapePreserving(p, |data|, |x|) && PreservesPositive(p, |data|, |x|)
    requires |sens| == |x| && Positive(data) && Positive(sens) && Positive(x)
    ensures Iterate(p, data, sens, x, k).Some?
    ensures Positive(Iterate(p, data, sens, x, k).value)
  {
    if k > 0 {
      PositiveRunCompletes(p, data, sens, x, k - 1);
      PassPositive(p, data, sens, Iterate(p, data, sens, x, k - 1).value);
    }
  }

  /** An estimate whose prediction equals the data is left unchanged when
      the raw sensitivity field needs no clipping. */
  lemma ExactFitIsFixedPoint(p: Projector, data: seq<real>, y: seq<real>)
    requires ShapePreserving(p, |data|, |y|) && |y| > 0
    requires p.forward(y) == data && NoZero(data)
    requires var raw := RawSensitivity(p, |data|, |y|);
      Max(raw) > 0.0 && forall k :: 0 <= k < |raw| ==> raw[k] >= FloorRatio * Max(raw)
    ensures var sens := SensitivityField(p, |data|, |y|);
      Divisible(p, data, sens, y) && Pass(p, data, sens, y) == y
  {
    var raw := RawSensitivity(p, |data|, |y|);
    var sens := SensitivityField(p, |data|, |y|);
    assert sens == raw;
    ClipIsSafeDivisor(raw);
    var ratio := Ratio(p, data, y);
    assert ratio == Ones(|data|);
    var c := Correction(p, data, sens, y);
    assert forall k :: 0 <= k < |c| ==> c[k] == raw[k] / raw[k] == 1.0;
    assert Pass(p, data, sens, y) == y;
  }

  /** With an identity transform, a single-tap kernel and data of ones,
      every pass from the all-ones estimate returns all ones. */
  lemma {:induction false} IdentityRunKeepsOnes(n: nat, k: nat)
    requires n > 0
    ensures ShapePreserving(Identity(), n, n)
    ensures Iterate(Identity(), Ones(n), SensitivityField(Identity(), n, n), Ones(n), k) == Some(Ones(n))
  {
    var p := Identity();
    var raw := RawSensitivity(p, n, n);
    assert raw == Ones(n);
    assert Max(raw) == 1.0;
    if k > 0 {
      IdentityRunKeepsOnes(n, k - 1);
      ExactFitIsFixedPoint(p, Ones(n), Ones(n));
    }
  }
}
