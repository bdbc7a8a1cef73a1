/** Sizing of the three-dimensional launch grid for the two projection
    kernels, and the order in which a run launches them. */
module LaunchGrid {
  import opened Volumes

  /** Threads per block along each axis. */
  const ThreadsPerBlock: nat := 8

  datatype Dim3 = Dim3(z: nat, y: nat, x: nat)

  datatype Kernel = ConvTransform | InvConvTransform

  /** One kernel launch: which kernel, with how many blocks and threads per block. */
  datatype Launch = Launch(kernel: Kernel, grid: Dim3, block: Dim3)

  /** Blocks along one axis: the fewest tiles of ThreadsPerBlock threads that cover `d` voxels. */
  function BlockCount(d: nat): (b: nat)
    ensures b * ThreadsPerBlock >= d
    ensures (b - 1) * ThreadsPerBlock < d
  {
    (d + (ThreadsPerBlock - 1)) / ThreadsPerBlock
  }

  predicate Covers(g: Dim3, s: Shape)
  {
    g.z * ThreadsPerBlock >= s.z && g.y * ThreadsPerBlock >= s.y && g.x * ThreadsPerBlock >= s.x
  }

  /** No axis of `g` could lose a block and still cover `s`. */
  predicate Tight(g: Dim3, s: Shape)
  {
    (g.z - 1) * ThreadsPerBlock < s.z && (g.y - 1) * ThreadsPerBlock < s.y && (g.x - 1) * ThreadsPerBlock < s.x
  }

  /** The grid computed once from the data shape. */
  function DataGrid(s: Shape): (g: Dim3)
    ensures Covers(g, s) && Tight(g, s)
  {
    Dim3(BlockCount(s.z), BlockCount(s.y), BlockCount(s.x))
  }

  function Block(): Dim3
  {
    Dim3(ThreadsPerBlock, ThreadsPerBlock, ThreadsPerBlock)
  }

  /** Every launch of a run uses the grid of the data shape. */
  function LaunchOf(k: Kernel, s: Shape): Launch
  {
    Launch(k, DataGrid(s), Block())
  }

  /** The launches of `n` update passes: a forward projection, then a back-projection, per pass. */
  function PassLaunches(s: Shape, n: nat): seq<Launch>
  {
    if n == 0 then []
    else PassLaunches(s, n - 1) + [LaunchOf(ConvTransform, s), LaunchOf(InvConvTransform, s)]
  }

  /** The launch log of a run of `n` passes: the sensitivity back-projection,
      then the passes. It has 2n+1 entries, every one sized by the data
      shape, and the kernels alternate starting with a back-projection. */
  lemma {:induction false} RunLaunchesAlternate(s: Shape, n: nat)
    ensures var log := [LaunchOf(InvConvTransform, s)] + PassLaunches(s, n);
      |log| == 2 * n + 1 &&
      (forall k :: 0 <= k < |log| ==> log[k].grid == DataGrid(s) && log[k].block == Block() &&
                                      Covers(log[k].grid, s) && Tight(log[k].grid, s)) &&
      (forall k :: 0 <= k < |log| ==> log[k].kernel == if k % 2 == 0 then InvConvTransform else ConvTransform)
  {
    if n > 0 {
      RunLaunchesAlternate(s, n - 1);
      var prev := [LaunchOf(InvConvTransform, s)] + PassLaunches(s, n - 1);
      var log := [LaunchOf(InvConvTransform, s)] + PassLaunches(s, n);
      assert log == prev + [LaunchOf(ConvTransform, s), LaunchOf(InvConvTransform, s)];
      assert |prev| == 2 * n - 1;
      forall k | 0 <= k < |log|
        ensures log[k].kernel == if k % 2 == 0 then InvConvTransform else ConvTransform
      {
        if k < |prev| {
          assert log[k] == prev[k];
        } else if k == |prev| {
          assert k % 2 == 1;
        } else {
          assert k == 2 * n && k % 2 == 0;
        }
      }
    }
  }
}
