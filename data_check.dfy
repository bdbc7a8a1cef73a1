/** The validator applied to the preprocessed data before any working
    buffer is allocated. */
module DataCheck {
  import opened Failures
  import opened Volumes

  /** A volume is accepted when its smallest element is not negative. The
      minimum of a zero-size volume is undefined, and taking it raises. */
  function CheckData(data: seq<real>): (r: Result<bool>)
    ensures r.Err? <==> |data| == 0
    ensures r.Err? ==> r.failure == EmptyReduction("min")
    ensures r.Ok? ==> (r.value <==> NonNegative(data))
  {
    if |data| == 0 then Err(EmptyReduction("min"))
    else if Min(data) < 0.0 then Ok(false)
    else Ok(true)
  }

  /** A volume of zeros is valid data. */
  lemma ZeroVolumeAccepted(n: nat)
    requires n > 0
    ensures CheckData(seq(n, _ => 0.0)) == Ok(true)
  {
  }
}
