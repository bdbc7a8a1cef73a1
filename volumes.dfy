/** Dense volumes, stored flat, and the element-wise operations the
    restoration applies to them. */
module Volumes {

  /** Extent of a volume along its three axes, slowest first. */
  datatype Shape = Shape(z: nat, y: nat, x: nat)

  /** Number of voxels of a volume of shape `s`: the length of its flat sequence. */
  function Size(s: Shape): nat
  {
    s.z * s.y * s.x
  }

  function Ones(n: nat): (v: seq<real>)
    ensures |v| == n
    ensures forall k :: 0 <= k < n ==> v[k] == 1.0
  {
    seq(n, _ => 1.0)
  }

  predicate NonNegative(v: seq<real>)
  {
    forall k :: 0 <= k < |v| ==> 0.0 <= v[k]
  }

  predicate Positive(v: seq<real>)
  {
    forall k :: 0 <= k < |v| ==> 0.0 < v[k]
  }

  predicate NoZero(v: seq<real>)
  {
    forall k :: 0 <= k < |v| ==> v[k] != 0.0
  }

  /** The smallest element of a non-empty volume. */
  function Min(v: seq<real>): (m: real)
    requires |v| > 0
    ensures m in v
    ensures forall k :: 0 <= k < |v| ==> m <= v[k]
  {
    if |v| == 1 then v[0]
    else
      var rest := Min(v[1..]);
      if v[0] <= rest then v[0] else rest
  }

  /** The largest element of a non-empty volume. */
  function Max(v: seq<real>): (m: real)
    requires |v| > 0
    ensures m in v
    ensures forall k :: 0 <= k < |v| ==> v[k] <= m
  {
    if |v| == 1 then v[0]
    else
      var rest := Max(v[1..]);
      if v[0] >= rest then v[0] else rest
  }

  /** Element-wise division of two volumes of one shape. */
  function Quotient(a: seq<real>, b: seq<real>): (q: seq<real>)
    requires |a| == |b| && NoZero(b)
    ensures |q| == |a|
    ensures forall k :: 0 <= k < |q| ==> q[k] * b[k] == a[k]
  {
    seq(|a|, k requires 0 <= k < |a| => a[k] / b[k])
  }

  /** Element-wise multiplication of two volumes of one shape. */
  function Product(a: seq<real>, b: seq<real>): (r: seq<real>)
    requires |a| == |b|
    ensures |r| == |a|
    ensures forall k :: 0 <= k < |r| ==> r[k] == a[k] * b[k]
  {
    seq(|a|, k requires 0 <= k < |a| => a[k] * b[k])
  }

  /** Dividing a non-negative volume by a positive one gives a non-negative volume. */
  lemma QuotientNonNegative(a: seq<real>, b: seq<real>)
    requires |a| == |b| && NonNegative(a) && Positive(b)
    ensures NoZero(b) && NonNegative(Quotient(a, b))
  {
    assert NoZero(b);
    var q := Quotient(a, b);
    forall k | 0 <= k < |q| ensures 0.0 <= q[k] {
      assert q[k] == a[k] / b[k];
    }
  }

  /** Dividing a positive volume by a positive one gives a positive volume. */
  lemma QuotientPositive(a: seq<real>, b: seq<real>)
    requires |a| == |b| && Positive(a) && Positive(b)
    ensures NoZero(b) && Positive(Quotient(a, b))
  {
    assert NoZero(b);
    var q := Quotient(a, b);
    forall k | 0 <= k < |q| ensures 0.0 < q[k] {
      assert q[k] == a[k] / b[k];
    }
  }

  lemma ProductNonNegative(a: seq<real>, b: seq<real>)
    requires |a| == |b| && NonNegative(a) && NonNegative(b)
    ensures NonNegative(Product(a, b))
  {
  }

  lemma ProductPositive(a: seq<real>, b: seq<real>)
    requires |a| == |b| && Positive(a) && Positive(b)
    ensures Positive(Product(a, b))
  {
  }
}
