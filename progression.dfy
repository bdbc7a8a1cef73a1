/** Which update passes leave a snapshot of the reconstruction behind. */
module Progression {

  function Pow2(k: nat): nat
  {
    if k == 0 then 1 else 2 * Pow2(k - 1)
  }

  /** The integer part of log2 n. */
  function FloorLog2(n: nat): (l: nat)
    requires n >= 1
    ensures Pow2(l) <= n < Pow2(l + 1)
  {
    if n == 1 then 0 else 1 + FloorLog2(n / 2)
  }

  /** The offsets `n - j*j` for j = 0 .. count-1, the largest first. */
  function Descending(n: int, count: nat): seq<int>
  {
    seq(count, j => n - j * j)
  }

  function Reversed(s: seq<int>): (r: seq<int>)
    ensures |r| == |s|
    ensures forall k :: 0 <= k < |s| ==> r[k] == s[|s| - 1 - k]
  {
    seq(|s|, k requires 0 <= k < |s| => s[|s| - 1 - k])
  }

  /** The logarithmic index list of a run of `n` passes: `n - j*j` for
      j = 0 .. floor(log2 n) - 1 (the end excluded), reversed. */
  function LogIndices(n: nat): seq<int>
    requires n >= 1
  {
    Reversed(Descending(n, FloorLog2(n)))
  }

  predicate StrictlyAscending(s: seq<int>)
  {
    forall a, b :: 0 <= a < b < |s| ==> s[a] < s[b]
  }

  lemma SquareGrows(x: nat, y: nat)
    requires x < y
    ensures x * x < y * y
  {
    assert y * y - x * x == (y - x) * (y + x);
  }

  lemma {:induction false} DoubleBelowPow2(l: nat)
    ensures 2 * l <= Pow2(l) + 1
  {
    if l >= 2 {
      DoubleBelowPow2(l - 1);
      assert Pow2(l - 1) >= 2 by { PowAtLeast(l - 1); }
    }
  }

  lemma {:induction false} PowAtLeast(l: nat)
    ensures Pow2(l) >= l + 1
  {
    if l > 0 {
      PowAtLeast(l - 1);
    }
  }

  lemma {:induction false} SquareBelowPow2(l: nat)
    requires l >= 1
    ensures (l - 1) * (l - 1) < Pow2(l)
  {
    if l > 1 {
      SquareBelowPow2(l - 1);
      DoubleBelowPow2(l - 1);
      assert (l - 1) * (l - 1) == (l - 2) * (l - 2) + 2 * (l - 1) - 1;
    }
  }

  /** Entries `n - (l-1-k)^2`, k = 0 .. l-1, ascend strictly. */
  lemma OffsetsAscend(n: int, l: nat, s: seq<int>)
    requires |s| == l
    requires forall k :: 0 <= k < l ==> s[k] == n - (l - 1 - k) * (l - 1 - k)
    ensures StrictlyAscending(s)
  {
    forall a, b | 0 <= a < b < l ensures s[a] < s[b] {
      SquareGrows(l - 1 - b, l - 1 - a);
    }
  }

  /** When (l-1)^2 < n, those entries lie in [1, n], and all but the last are below n. */
  lemma OffsetsBounded(n: int, l: nat, s: seq<int>)
    requires |s| == l && (l - 1) * (l - 1) < n
    requires forall k :: 0 <= k < l ==> s[k] == n - (l - 1 - k) * (l - 1 - k)
    ensures forall k :: 0 <= k < l ==> 1 <= s[k] <= n
    ensures forall k :: 0 <= k < l - 1 ==> s[k] < n
  {
    forall k | 0 <= k < l ensures 1 <= s[k] <= n {
      var j := l - 1 - k;
      if j < l - 1 {
        SquareGrows(j, l - 1);
      }
    }
    forall k | 0 <= k < l - 1 ensures s[k] < n {
      SquareGrows(0, l - 1 - k);
    }
  }

  /** The index list has floor(log2 n) entries, ascends strictly, lies in
      [1, n], ends with n, and every entry before the last is below n. */
  lemma LogIndicesShape(n: nat)
    requires n >= 1
    ensures var s := LogIndices(n); var l := FloorLog2(n);
      |s| == l && StrictlyAscending(s) &&
      (forall k :: 0 <= k < l ==> 1 <= s[k] <= n) &&
      (l >= 1 ==> s[l - 1] == n) &&
      (l >= 2 ==> s[l - 2] == n - 1) &&
      (forall k :: 0 <= k < l - 1 ==> s[k] < n)
  {
    var s := LogIndices(n);
    var l := FloorLog2(n);
    assert forall k :: 0 <= k < l ==> s[k] == n - (l - 1 - k) * (l - 1 - k);
    OffsetsAscend(n, l, s);
    if l >= 1 {
      SquareBelowPow2(l);
      OffsetsBounded(n, l, s);
    }
  }

  /** Capture policy of the update loop. */
  datatype Schedule = NoCapture | EveryPass | AtIndices(indices: seq<int>)

  /** Whether the pass with 0-based index `i` is followed by a snapshot. */
  predicate Captures(sched: Schedule, i: nat)
  {
    match sched
    case NoCapture => false
    case EveryPass => true
    case AtIndices(ix) => i in ix
  }

  /** The 0-based indices of the passes among the first `k` that are captured, in order. */
  function Passes(sched: Schedule, k: nat): seq<nat>
  {
    if k == 0 then []
    else Passes(sched, k - 1) + (if Captures(sched, k - 1) then [k - 1] else [])
  }

  /** A pass is listed exactly when it ran and the policy captures it. */
  lemma {:induction false} PassesMembers(sched: Schedule, k: nat)
    ensures forall i: nat :: i in Passes(sched, k) <==> i < k && Captures(sched, i)
  {
    if k > 0 {
      PassesMembers(sched, k - 1);
    }
  }

  /** Capturing every pass lists the passes 0 .. k-1 in order. */
  lemma {:induction false} EveryPassListsAll(k: nat)
    ensures Passes(EveryPass, k) == seq(k, t => t)
  {
    if k > 0 {
      EveryPassListsAll(k - 1);
    }
  }

  /** With a strictly ascending, non-negative index list whose first `c`
      entries are the ones below `m`, the passes captured among the first
      `m` are exactly those `c` entries. */
  lemma {:induction false} PassesPrefix(ix: seq<int>, m: nat, c: nat)
    requires StrictlyAscending(ix)
    requires forall k :: 0 <= k < |ix| ==> ix[k] >= 0
    requires c <= |ix|
    requires forall k :: 0 <= k < c ==> ix[k] < m
    requires forall k :: c <= k < |ix| ==> ix[k] >= m
    ensures Passes(AtIndices(ix), m) == ix[..c]
  {
    if m == 0 {
      assert c == 0;
    } else {
      var c' := if c > 0 && ix[c - 1] == m - 1 then c - 1 else c;
      forall k | 0 <= k < c' ensures ix[k] < m - 1 {
        if c' == c - 1 {
          assert ix[k] < ix[c - 1];
        } else if k < c - 1 {
          assert ix[k] < ix[c - 1] < m;
        }
      }
      PassesPrefix(ix, m - 1, c');
      if c' == c - 1 {
        assert Captures(AtIndices(ix), m - 1) by { assert ix[c - 1] == m - 1; }
        assert ix[..c] == ix[..c - 1] + [ix[c - 1]];
      } else {
        forall k | 0 <= k < |ix| ensures ix[k] != m - 1 {
          if k < c {
            assert ix[k] <= ix[c - 1];
          }
        }
        assert !Captures(AtIndices(ix), m - 1);
      }
    }
  }

  /** In logarithmic mode the captured passes are the index list without its
      last entry n, which the 0-based pass index never reaches. */
  lemma LogPasses(n: nat)
    requires n >= 1
    ensures var l := FloorLog2(n);
      Passes(AtIndices(LogIndices(n)), n) == if l == 0 then [] else LogIndices(n)[..l - 1]
  {
    var l := FloorLog2(n);
    var s := LogIndices(n);
    LogIndicesShape(n);
    if l == 0 {
      PassesPrefix(s, n, 0);
    } else {
      PassesPrefix(s, n, l - 1);
    }
  }

  /** Logarithmic mode captures floor(log2 n) - 1 passes (none at all when
      n < 4), and captures the final pass n-1 exactly when n >= 4. */
  lemma LogCapturesFinalPass(n: nat)
    requires n >= 1
    ensures var ps := Passes(AtIndices(LogIndices(n)), n);
      |ps| == (if FloorLog2(n) == 0 then 0 else FloorLog2(n) - 1) &&
      ((n - 1) in ps <==> n >= 4) &&
      (ps == [] <==> n < 4)
  {
    var l := FloorLog2(n);
    var s := LogIndices(n);
    LogPasses(n);
    LogIndicesShape(n);
    var ps := Passes(AtIndices(s), n);
    if l >= 2 {
      assert Pow2(2) == 4;
      assert ps[l - 2] == n - 1;
    } else {
      assert Pow2(2) == 4;
      assert |ps| == 0;
    }
  }

  /** For 25 passes the index list is [16, 21, 24, 25] and snapshots follow
      the passes with 0-based index 16, 21 and 24. */
  lemma TwentyFivePasses()
    ensures LogIndices(25) == [16, 21, 24, 25]
    ensures Passes(AtIndices(LogIndices(25)), 25) == [16, 21, 24]
  {
    LogIndicesOfTwentyFive();
    LogPasses(25);
    assert LogIndices(25)[..3] == [16, 21, 24];
  }

  lemma LogIndicesOfTwentyFive()
    ensures FloorLog2(25) == 4
    ensures LogIndices(25) == [16, 21, 24, 25]
  {
    FloorLog2OfTwentyFive();
    var d := Descending(25, 4);
    assert d == [25, 24, 21, 16];
    assert Reversed(d) == [16, 21, 24, 25];
  }

  lemma FloorLog2OfTwentyFive()
    ensures FloorLog2(25) == 4
  {
    assert FloorLog2(1) == 0;
    assert FloorLog2(3) == 1;
    assert FloorLog2(6) == 2;
    assert FloorLog2(12) == 3;
  }
}
