/** One launcher driven through its whole life on a grid of 8 x 1 x 1 blocks cut into
    slices of 2 x 1 x 1, one slice per call: four calls cover the grid, and the calls
    after that show what the unsigned decrement does once the count is spent. */
module Scenario {
  import opened U32Arith
  import opened SliceGeometry
  import opened Launcher

  /** A launcher over a fresh 8 x 1 x 1 grid with 2 x 1 x 1 slices and a fresh control
      block: four slices to go, one per call, tag `Init`. */
  method NewEightBlockLauncher() returns (l: KernelLauncher)
    ensures fresh(l) && fresh(l.attr) && fresh(l.kcb)
    ensures l.attr.Grid() == Dim3(8, 1, 1) && l.attr.Slice() == Dim3(2, 1, 1)
    ensures l.attr.BlockOffset() == Zero && l.launched == [] && l.worker == NotSpawned
    ensures l.kcb.totalSlices == 4 && l.kcb.slicesToLaunch == 1 && l.kcb.state == Init
  {
    var attr := new KernelAttr(Dim3(8, 1, 1), Dim3(32, 1, 1), Dim3(2, 1, 1), 0);
    var kcb := new ControlBlock();
    l := new KernelLauncher(0, "kernel.ptx", "kernel", attr, kcb);
  }

  /** Starts the worker of a fresh launcher: the tag goes from `Init` to `MemcpyHtoD`. */
  method StartEightBlockLauncher() returns (l: KernelLauncher, states: seq<KState>)
    ensures fresh(l) && fresh(l.attr) && fresh(l.kcb)
    ensures l.attr.Grid() == Dim3(8, 1, 1) && l.attr.Slice() == Dim3(2, 1, 1)
    ensures l.attr.BlockOffset() == Zero && l.launched == [] && l.worker == AwaitingCopyOut
    ensures l.kcb.totalSlices == 4 && l.kcb.slicesToLaunch == 1 && l.kcb.state == MemcpyHtoD
    ensures states == [Init, MemcpyHtoD]
  {
    l := NewEightBlockLauncher();
    states := [l.kcb.state];
    l.StartWorker();
    states := states + [l.kcb.state];
  }

  /** The first two calls on a started launcher, with the block offset and the count
      after each. */
  method FirstTwoCalls() returns (l: KernelLauncher, offsets: seq<Offset>, remaining: seq<U32>,
                                  states: seq<KState>)
    ensures fresh(l) && fresh(l.attr) && fresh(l.kcb)
    ensures l.attr.Grid() == Dim3(8, 1, 1) && l.attr.Slice() == Dim3(2, 1, 1)
    ensures l.kcb.slicesToLaunch == 1 && l.kcb.state == MemcpyHtoD && l.worker == AwaitingCopyOut
    ensures l.launched == [Offset(0, 0, 0), Offset(2, 0, 0)]
    ensures offsets == [Offset(2, 0, 0), Offset(4, 0, 0)] && remaining == [3, 2]
    ensures l.attr.BlockOffset() == offsets[1] && l.kcb.totalSlices == remaining[1]
    ensures states == [Init, MemcpyHtoD]
  {
    l, states := StartEightBlockLauncher();
    l.LaunchKernel();
    var offset1, count1 := l.attr.BlockOffset(), l.kcb.totalSlices;
    l.LaunchKernel();
    var offset2, count2 := l.attr.BlockOffset(), l.kcb.totalSlices;
    offsets, remaining := [offset1, offset2], [count1, count2];
  }

  /** The third call launches at X = 4 and leaves the offset at the last slice. */
  method ThirdCall() returns (l: KernelLauncher, offsets: seq<Offset>, remaining: seq<U32>,
                              states: seq<KState>)
    ensures fresh(l) && fresh(l.attr) && fresh(l.kcb)
    ensures l.attr.Grid() == Dim3(8, 1, 1) && l.attr.Slice() == Dim3(2, 1, 1)
    ensures l.kcb.slicesToLaunch == 1 && l.kcb.state == MemcpyHtoD && l.worker == AwaitingCopyOut
    ensures l.launched == [Offset(0, 0, 0), Offset(2, 0, 0), Offset(4, 0, 0)]
    ensures offsets == [Offset(2, 0, 0), Offset(4, 0, 0), Offset(6, 0, 0)] && remaining == [3, 2, 1]
    ensures l.attr.BlockOffset() == offsets[2] && l.kcb.totalSlices == remaining[2]
    ensures states == [Init, MemcpyHtoD]
  {
    l, offsets, remaining, states := FirstTwoCalls();
    l.LaunchKernel();
    offsets, remaining := offsets + [l.attr.BlockOffset()], remaining + [l.kcb.totalSlices];
  }

  /** The fourth call launches the last slice and brings the count to zero; its advance
      carries X into Y and Y into Z, leaving the offset at (0, 0, 1). */
  method DrainEightBlocks() returns (l: KernelLauncher, offsets: seq<Offset>, remaining: seq<U32>,
                                     states: seq<KState>)
    ensures fresh(l) && fresh(l.attr) && fresh(l.kcb)
    ensures l.attr.Grid() == Dim3(8, 1, 1) && l.attr.Slice() == Dim3(2, 1, 1)
    ensures l.kcb.slicesToLaunch == 1 && l.kcb.state == MemcpyHtoD && l.worker == AwaitingCopyOut
    ensures l.launched == [Offset(0, 0, 0), Offset(2, 0, 0), Offset(4, 0, 0), Offset(6, 0, 0)]
    ensures offsets == [Offset(2, 0, 0), Offset(4, 0, 0), Offset(6, 0, 0), Offset(0, 0, 1)]
    ensures remaining == [3, 2, 1, 0]
    ensures l.attr.BlockOffset() == offsets[3] && l.kcb.totalSlices == remaining[3]
    ensures states == [Init, MemcpyHtoD]
  {
    l, offsets, remaining, states := ThirdCall();
    assert Carry(8, 0, 8, 1) == (0, 1) && Carry(1, 0, 1, 1) == (0, 1);
    l.LaunchKernel();
    offsets, remaining := offsets + [l.attr.BlockOffset()], remaining + [l.kcb.totalSlices];
  }

  /** Two more calls after the grid is drained: the first launches nothing but still
      takes the quantum off the zero count, which wraps to 2^32 - 1; the second then
      launches again, at the offset (0, 0, 1) past the end of the grid. The orchestrator
      then requests the copy-out and joins the worker. */
  method OvershootAfterDrain() returns (offsets: seq<Offset>, remaining: seq<U32>, states: seq<KState>)
    ensures offsets == [Offset(0, 0, 1), Offset(2, 0, 1)]
    ensures remaining == [TWO_TO_THE_32 - 1, TWO_TO_THE_32 - 2]
    ensures states == [Init, MemcpyHtoD, MemcpyDtoH]
  {
    var l, drained, counts;
    l, drained, counts, states := DrainEightBlocks();
    ghost var launchedBefore := l.launched;
    l.LaunchKernel();
    assert l.launched == launchedBefore;
    var offset5, count5 := l.attr.BlockOffset(), l.kcb.totalSlices;
    l.LaunchKernel();
    assert l.launched == launchedBefore + [Offset(0, 0, 1)];
    var offset6, count6 := l.attr.BlockOffset(), l.kcb.totalSlices;
    offsets, remaining := [offset5, offset6], [count5, count6];
    l.kcb.state := MemcpyDtoH;
    states := states + [l.kcb.state];
    l.Finish();
  }
}
