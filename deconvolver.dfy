/** The restoration run: option reading, the data check, the sensitivity
    field, the update loop over three working buffers with its snapshot
    list, and the files a finished run writes. */
module Deconvolver {
  import opened Failures
  import opened Volumes
  import opened DataCheck
  import opened LaunchGrid
  import opened Projection
  import opened Sensitivity
  import opened Progression
  import opened Restoration
  import opened SaveOptions

  /** What a completed run hands back: the reconstruction, the files it
      writes, and the kernel launches it made, in order. */
  datatype Run = Run(reconstruction: seq<real>, files: seq<OutputFile>, launches: seq<Launch>)

  /** What the update loop hands back. */
  datatype Restored = Restored(reconstruction: seq<real>, snapshots: seq<seq<real>>, launches: seq<Launch>)

  /** Number of passes of a loop over range(iterations). */
  function PassCount(iterations: int): (n: nat)
    ensures iterations <= 0 ==> n == 0
    ensures iterations > 0 ==> n == iterations
  {
    if iterations > 0 then iterations else 0
  }

  /** Back-projects a data-sized volume of ones into a zeroed
      reconstruction-sized buffer, then replaces that buffer by its clipped
      copy. */
  method BuildSensitivity(p: Projector, dataLen: nat, reconLen: nat) returns (sens: array<real>)
    requires ShapePreserving(p, dataLen, reconLen) && reconLen > 0
    ensures fresh(sens)
    ensures sens[..] == SensitivityField(p, dataLen, reconLen)
  {
    var dataOnes := new real[dataLen](_ => 1.0);
    var raw := new real[reconLen](_ => 0.0);
    assert dataOnes[..] == Ones(dataLen);
    var spread := p.adjoint(dataOnes[..]);
    forall k | 0 <= k < reconLen {
      raw[k] := spread[k];
    }
    var rawField := raw[..];
    assert rawField == RawSensitivity(p, dataLen, reconLen);
    var floor := FloorRatio * Max(rawField);
    sens := new real[reconLen];
    forall k | 0 <= k < reconLen {
      sens[k] := if raw[k] < floor then floor else raw[k];
    }
    var clipped := Clip(rawField);
    forall k | 0 <= k < reconLen ensures sens[k] == clipped[k] {
      assert raw[k] == rawField[k];
    }
    assert sens[..] == clipped;
  }

  /** A kernel writing its output volume into a buffer. */
  method Store(buffer: array<real>, v: seq<real>)
    requires buffer.Length == |v|
    modifies buffer
    ensures buffer[..] == v
  {
    forall k | 0 <= k < buffer.Length {
      buffer[k] := v[k];
    }
  }

  /** In-place element-wise division of `numerator` by the buffer's contents. */
  method DivideInto(numerator: seq<real>, buffer: array<real>)
    requires |numerator| == buffer.Length && NoZero(buffer[..])
    modifies buffer
    ensures buffer[..] == Quotient(numerator, old(buffer[..]))
  {
    forall k | 0 <= k < buffer.Length {
      buffer[k] := numerator[k] / buffer[k];
    }
  }

  /** In-place element-wise division of the buffer's contents by `divisor`. */
  method DivideBy(buffer: array<real>, divisor: array<real>)
    requires buffer != divisor && buffer.Length == divisor.Length && NoZero(divisor[..])
    modifies buffer
    ensures buffer[..] == Quotient(old(buffer[..]), divisor[..])
  {
    forall k | 0 <= k < buffer.Length {
      buffer[k] := buffer[k] / divisor[k];
    }
  }

  /** In-place element-wise multiplication of the buffer's contents by `factor`. */
  method MultiplyBy(buffer: array<real>, factor: array<real>)
    requires buffer != factor && buffer.Length == factor.Length
    modifies buffer
    ensures buffer[..] == Product(old(buffer[..]), factor[..])
  {
    ghost var before := buffer[..];
    forall k | 0 <= k < buffer.Length {
      buffer[k] := buffer[k] * factor[k];
    }
    assert forall k :: 0 <= k < buffer.Length ==> buffer[..][k] == Product(before, factor[..])[k];
  }

  /** One pass over the working buffers: the forward projection of the
      estimate into the data canvas, the data divided by it in place, its
      back-projection into the sample canvas, that divided in place by the
      sensitivity field, and the estimate multiplied in place by the result.
      When a divisor has a zero element nothing is written and `ok` is false. */
  method UpdatePass(p: Projector, data: seq<real>, sens: array<real>,
                    dataCanvas: array<real>, sampleCanvas: array<real>, recon: array<real>) returns (ok: bool)
    requires ShapePreserving(p, |data|, recon.Length)
    requires dataCanvas.Length == |data| && sampleCanvas.Length == recon.Length && sens.Length == recon.Length
    requires dataCanvas != sens && dataCanvas != sampleCanvas && dataCanvas != recon
    requires sampleCanvas != sens && sampleCanvas != recon && recon != sens
    modifies dataCanvas, sampleCanvas, recon
    ensures ok == Divisible(p, data, sens[..], old(recon[..]))
    ensures ok ==> dataCanvas[..] == Ratio(p, data, old(recon[..]))
    ensures ok ==> sampleCanvas[..] == Correction(p, data, sens[..], old(recon[..]))
    ensures ok ==> recon[..] == Pass(p, data, sens[..], old(recon[..]))
    ensures !ok ==> recon[..] == old(recon[..])
  {
    var estimate := recon[..];
    var field := sens[..];
    var predicted := p.forward(estimate);
    ok := (forall k :: 0 <= k < |predicted| ==> predicted[k] != 0.0) &&
          (forall k :: 0 <= k < sens.Length ==> sens[k] != 0.0);
    if !ok {
      return;
    }
    Store(dataCanvas, predicted);
    DivideInto(data, dataCanvas);
    var ratio := dataCanvas[..];
    assert ratio == Ratio(p, data, estimate);
    Store(sampleCanvas, p.adjoint(ratio));
    assert sens[..] == field;
    DivideBy(sampleCanvas, sens);
    var correction := sampleCanvas[..];
    assert correction == Correction(p, data, field, estimate);
    assert recon[..] == estimate;
    MultiplyBy(recon, sampleCanvas);
    assert recon[..] == Product(estimate, correction);
    assert dataCanvas[..] == ratio;
    assert sens[..] == field;
  }

  /** The update loop: `n` passes from the all-ones estimate, a copy of the
      estimate appended to the snapshot list after every pass the schedule
      captures. Stops with NonFinite at the first pass that meets a zero
      divisor. */
  method Restore(p: Projector, data: seq<real>, dataShape: Shape, sens: array<real>, sched: Schedule, n: nat)
    returns (r: Result<Restored>)
    requires |data| == Size(dataShape)
    requires ShapePreserving(p, |data|, sens.Length)
    ensures var x := Ones(sens.Length);
      r.Ok? <==> Iterate(p, data, sens[..], x, n).Some?
    ensures var x := Ones(sens.Length);
      r.Ok? ==> Iterate(p, data, sens[..], x, n).Some? &&
                r.value.reconstruction == Iterate(p, data, sens[..], x, n).value &&
                r.value.snapshots == Snapshots(p, data, sens[..], x, sched, n) &&
                r.value.launches == PassLaunches(dataShape, n)
    ensures var x := Ones(sens.Length);
      r.Err? ==> r.failure.NonFinite? && r.failure.pass < n &&
                 Iterate(p, data, sens[..], x, r.failure.pass).Some? &&
                 Iterate(p, data, sens[..], x, r.failure.pass + 1).None?
  {
    var x := Ones(sens.Length);
    var recon := new real[sens.Length](_ => 1.0);
    var dataCanvas := new real[|data|](_ => 0.0);
    var sampleCanvas := new real[sens.Length](_ => 0.0);
    assert recon[..] == x;
    var snapshots: seq<seq<real>> := [];
    var launches: seq<Launch> := [];
    for i := 0 to n
      invariant recon.Length == sens.Length
      invariant Iterate(p, data, sens[..], x, i).Some?
      invariant recon[..] == Iterate(p, data, sens[..], x, i).value
      invariant snapshots == Snapshots(p, data, sens[..], x, sched, i)
      invariant launches == PassLaunches(dataShape, i)
    {
      var ok := UpdatePass(p, data, sens, dataCanvas, sampleCanvas, recon);
      if !ok {
        IterateStaysUndefined(p, data, sens[..], x, i + 1, n);
        return Err(NonFinite(i));
      }
      launches := launches + [LaunchOf(ConvTransform, dataShape), LaunchOf(InvConvTransform, dataShape)];
      if Captures(sched, i) {
        snapshots := snapshots + [recon[..]];
      }
    }
    IterateDefinedBelow(p, data, sens[..], x, n, n);
    r := Ok(Restored(recon[..], snapshots, launches));
  }

  /** A whole run. The data is checked before any working buffer exists;
      the failures come in the order the program meets them. */
  method Deconvolve(p: Projector, data: seq<real>, dataShape: Shape, reconShape: Shape, iterations: int,
                    saveOptions: Params, dataProperties: Params, imFormation: Params, algOptions: Params)
    returns (r: Result<Run>)
    requires |data| == Size(dataShape)
    requires ShapePreserving(p, Size(dataShape), Size(reconShape))
    ensures "Save to disc" !in saveOptions ==> r == Err(MissingKey("Save to disc"))
    ensures "Save to disc" in saveOptions && |data| == 0 ==> r == Err(EmptyReduction("min"))
    ensures "Save to disc" in saveOptions && |data| > 0 && !NonNegative(data) ==> r == Err(InvalidData)
    ensures "Save to disc" in saveOptions && |data| > 0 && NonNegative(data) && Size(reconShape) == 0 ==>
              r == Err(EmptyReduction("max"))
    ensures "Save to disc" in saveOptions && |data| > 0 && NonNegative(data) && Size(reconShape) > 0 &&
            CaptureSchedule(Resolve(saveOptions), iterations).Err? ==>
              r == Err(CaptureSchedule(Resolve(saveOptions), iterations).failure)
    ensures r.Ok? ==>
              "Save to disc" in saveOptions && |data| > 0 && NonNegative(data) && Size(reconShape) > 0 &&
              CaptureSchedule(Resolve(saveOptions), iterations).Ok?
    ensures r.Ok? ==>
              var sens := SensitivityField(p, |data|, Size(reconShape));
              var x := Ones(Size(reconShape));
              var n := PassCount(iterations);
              var sched := CaptureSchedule(Resolve(saveOptions), iterations).value;
              Iterate(p, data, sens, x, n).Some? &&
              r.value.reconstruction == Iterate(p, data, sens, x, n).value &&
              r.value.launches == [LaunchOf(InvConvTransform, dataShape)] + PassLaunches(dataShape, n) &&
              Outputs(Resolve(saveOptions), r.value.reconstruction, Snapshots(p, data, sens, x, sched, n),
                      ParameterRecord(dataProperties, imFormation, algOptions)) == Ok(r.value.files)
    ensures r.Err? && r.failure.NonFinite? ==>
              Size(reconShape) > 0 &&
              var sens := SensitivityField(p, |data|, Size(reconShape));
              var x := Ones(Size(reconShape));
              r.failure.pass < PassCount(iterations) &&
              Iterate(p, data, sens, x, r.failure.pass).Some? &&
              Iterate(p, data, sens, x, r.failure.pass + 1).None?
    ensures "Save to disc" in saveOptions && |data| > 0 && NonNegative(data) && Size(reconShape) > 0 &&
            CaptureSchedule(Resolve(saveOptions), iterations).Ok? ==>
              var sens := SensitivityField(p, |data|, Size(reconShape));
              var x := Ones(Size(reconShape));
              var n := PassCount(iterations);
              var sched := CaptureSchedule(Resolve(saveOptions), iterations).value;
              Iterate(p, data, sens, x, n).Some? ==>
                var final := Iterate(p, data, sens, x, n).value;
                var files := Outputs(Resolve(saveOptions), final, Snapshots(p, data, sens, x, sched, n),
                                     ParameterRecord(dataProperties, imFormation, algOptions));
                (r.Ok? <==> files.Ok?) && (files.Err? ==> r == Err(files.failure))
    ensures "Save to disc" in saveOptions && |data| > 0 && NonNegative(data) && Size(reconShape) > 0 &&
            CaptureSchedule(Resolve(saveOptions), iterations).Ok? &&
            Iterate(p, data, SensitivityField(p, |data|, Size(reconShape)), Ones(Size(reconShape)), PassCount(iterations)).None? ==>
              r.Err? && r.failure.NonFinite?
    ensures r.Ok? && iterations <= 0 ==> r.value.reconstruction == Ones(Size(reconShape))
  {
    if "Save to disc" !in saveOptions {
      return Err(MissingKey("Save to disc"));
    }
    var settings := Resolve(saveOptions);
    var n := PassCount(iterations);
    var check := CheckData(data);
    if check.Err? {
      return Err(check.failure);
    }
    if !check.value {
      return Err(InvalidData);
    }
    var reconLen := Size(reconShape);
    if reconLen == 0 {
      return Err(EmptyReduction("max"));
    }
    var sens := BuildSensitivity(p, |data|, reconLen);
    var sched := CaptureSchedule(settings, iterations);
    if sched.Err? {
      return Err(sched.failure);
    }
    var restored := Restore(p, data, dataShape, sens, sched.value, n);
    if restored.Err? {
      return Err(restored.failure);
    }
    var record := ParameterRecord(dataProperties, imFormation, algOptions);
    var files := Outputs(settings, restored.value.reconstruction, restored.value.snapshots, record);
    if files.Err? {
      return Err(files.failure);
    }
    r := Ok(Run(restored.value.reconstruction, files.value,
                [LaunchOf(InvConvTransform, dataShape)] + restored.value.launches));
  }
}
