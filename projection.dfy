/** The forward projection (reconstruction space to data space) and the
    back-projection (data space to reconstruction space). Their kernels are
    not part of this model: they are parameters of it. */
module Projection {
  import opened Volumes

  /** The kernel-and-transform pair applied in both directions. */
  datatype Projector = Projector(forward: seq<real> -> seq<real>, adjoint: seq<real> -> seq<real>)

  /** The forward projection maps reconstruction-sized volumes to data-sized
      ones, and the back-projection the other way. */
  ghost predicate ShapePreserving(p: Projector, dataLen: nat, reconLen: nat)
  {
    (forall x: seq<real> :: |x| == reconLen ==> |p.forward(x)| == dataLen) &&
    (forall y: seq<real> :: |y| == dataLen ==> |p.adjoint(y)| == reconLen)
  }

  /** Both directions map non-negative volumes to non-negative volumes, as
      they do when the kernel's weights are non-negative. */
  ghost predicate PreservesNonNegative(p: Projector, dataLen: nat, reconLen: nat)
  {
    (forall x: seq<real> :: |x| == reconLen && NonNegative(x) ==> NonNegative(p.forward(x))) &&
    (forall y: seq<real> :: |y| == dataLen && NonNegative(y) ==> NonNegative(p.adjoint(y)))
  }

  /** Both directions map strictly positive volumes to strictly positive volumes. */
  ghost predicate PreservesPositive(p: Projector, dataLen: nat, reconLen: nat)
  {
    (forall x: seq<real> :: |x| == reconLen && Positive(x) ==> Positive(p.forward(x))) &&
    (forall y: seq<real> :: |y| == dataLen && Positive(y) ==> Positive(p.adjoint(y)))
  }

  /** The pair for an identity transform and a single-tap kernel. */
  function Identity(): Projector
  {
    Projector(x => x, y => y)
  }
}
