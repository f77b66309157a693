/** The launcher's shared state and its two threads of control: the geometry record
    (`kernel_attr_t`), the control block (`kernel_control_block_t`) and the launcher
    itself, whose `launchKernel` submits a bounded number of slices per call and whose
    worker thread sets up and tears down the kernel's arguments. */
module Launcher {
  import opened U32Arith
  import opened SliceGeometry
  import opened SliceTiling

  /** The hand-off tag between the worker thread and the orchestrator (`kstate`). */
  datatype KState = Init | MemcpyHtoD | Launch | MemcpyDtoH

  /** A call into the driver or the argument collaborator, other than a launch. */
  datatype Call =
    | SetLauncherID(id: int)
    | CtxSetCurrent
    | ModuleLoad(file: string)
    | ModuleGetFunction(name: string)
    | ArgsAlloc
    | ArgsCopyIn
    | ArgsCopyOut
    | ArgsFree

  /** How far the worker thread has got. */
  datatype Worker = NotSpawned | AwaitingCopyOut | Exited

  /** The launch geometry: full grid, block and slice extents, the live block offset of
      the next slice and the dynamic shared-memory size. Only the block offset is written
      once the record is filled in, so the extents and the memory size are constants. */
  class KernelAttr {
    const gridDimX: U32
    const gridDimY: U32
    const gridDimZ: U32
    const blockDimX: U32
    const blockDimY: U32
    const blockDimZ: U32
    const sGridDimX: U32
    const sGridDimY: U32
    const sGridDimZ: U32
    var blockOffsetX: nat
    var blockOffsetY: nat
    var blockOffsetZ: nat
    const sharedMemBytes: U32

    /** A record filled in by the caller; the block offset starts at zero. */
    constructor (grid: Dim3, block: Dim3, slice: Dim3, sharedMemBytes: U32)
      requires grid.x < TWO_TO_THE_32 && grid.y < TWO_TO_THE_32 && grid.z < TWO_TO_THE_32
      requires block.x < TWO_TO_THE_32 && block.y < TWO_TO_THE_32 && block.z < TWO_TO_THE_32
      requires slice.x < TWO_TO_THE_32 && slice.y < TWO_TO_THE_32 && slice.z < TWO_TO_THE_32
      ensures Grid() == grid && Block() == block && Slice() == slice
      ensures BlockOffset() == Zero && this.sharedMemBytes == sharedMemBytes
    {
      gridDimX, gridDimY, gridDimZ := grid.x, grid.y, grid.z;
      blockDimX, blockDimY, blockDimZ := block.x, block.y, block.z;
      sGridDimX, sGridDimY, sGridDimZ := slice.x, slice.y, slice.z;
      blockOffsetX, blockOffsetY, blockOffsetZ := 0, 0, 0;
      this.sharedMemBytes := sharedMemBytes;
    }

    function Grid(): Dim3
    {
      Dim3(gridDimX, gridDimY, gridDimZ)
    }

    function Block(): Dim3
    {
      Dim3(blockDimX, blockDimY, blockDimZ)
    }

    function Slice(): Dim3
    {
      Dim3(sGridDimX, sGridDimY, sGridDimZ)
    }

    function BlockOffset(): Offset
      reads this
    {
      Offset(blockOffsetX, blockOffsetY, blockOffsetZ)
    }
  }

  /** The state shared by the worker thread and the orchestrator: the hand-off tag, the
      number of slices one `LaunchKernel` call submits and the count of slices left. */
  class ControlBlock {
    var state: KState
    var slicesToLaunch: U32
    var totalSlices: U32

    /** The tag starts at `Init` and the quantum at one slice; the slice count is left
        for the launcher to set. */
    constructor ()
      ensures state == Init && slicesToLaunch == 1
    {
      state := Init;
      slicesToLaunch := 1;
    }
  }

  /** Runs one kernel as a sequence of slice launches. */
  class KernelLauncher {
    const id: int
    const moduleFile: string
    const kernelName: string
    const attr: KernelAttr
    const kcb: ControlBlock

    /** The block offset each kernel launch read through its first three arguments, which
        point at the live offset fields of `attr`. */
    ghost var launched: seq<Offset>
    /** The driver and collaborator calls made outside the launches, in order. */
    ghost var calls: seq<Call>
    ghost var worker: Worker
    /** The block offset when the launcher was built. */
    ghost const origin: Offset

    /** The launches so far followed the advance from `origin`, and the live offset is
        where the next launch will start. */
    ghost predicate OnSchedule()
      reads this, attr
    {
      (|launched| == 0 || CanAdvance(attr.Grid())) &&
      launched == Schedule(origin, attr.Grid(), attr.Slice(), |launched|) &&
      attr.BlockOffset() == AdvanceN(origin, attr.Grid(), attr.Slice(), |launched|)
    }

    /** Each slice counted at construction has been launched or is still counted in
        `totalSlices`. */
    ghost predicate Accounted()
      reads this, attr, kcb
    {
      attr.Slice().Volume() > 0 &&
      |launched| + kcb.totalSlices == TotalSlices(attr.Grid(), attr.Slice())
    }

    /** Binds the launcher to its geometry and control block, hands the launcher's
        identity to the argument collaborator and sets the slice count to the grid volume
        over the slice volume, rounded down. */
    constructor (id: int, moduleFile: string, kernelName: string, attr: KernelAttr, kcb: ControlBlock)
      requires 0 < attr.Slice().Volume() < TWO_TO_THE_32
      requires attr.Grid().Volume() < TWO_TO_THE_32
      modifies kcb
      ensures this.id == id && this.moduleFile == moduleFile && this.kernelName == kernelName
      ensures this.attr == attr && this.kcb == kcb
      ensures kcb.totalSlices == TotalSlices(attr.Grid(), attr.Slice())
      ensures kcb.state == old(kcb.state) && kcb.slicesToLaunch == old(kcb.slicesToLaunch)
      ensures launched == [] && calls == [SetLauncherID(id)] && worker == NotSpawned
      ensures origin == attr.BlockOffset()
      ensures OnSchedule() && Accounted()
    {
      this.id := id;
      this.moduleFile := moduleFile;
      this.kernelName := kernelName;
      this.attr := attr;
      this.kcb := kcb;
      launched := [];
      calls := [SetLauncherID(id)];
      worker := NotSpawned;
      origin := attr.BlockOffset();
      new;
      kcb.totalSlices := TotalSlices(attr.Grid(), attr.Slice());
    }

    /** Submits `min(slicesToLaunch, totalSlices)` slices. Each launch reads the live
        block offset, which then advances by one slice with carries from X into Y and
        from Y into Z. Afterwards the full quantum `slicesToLaunch` is taken off
        `totalSlices`, as unsigned arithmetic, whatever number was launched. */
    method LaunchKernel()
      requires Min(kcb.slicesToLaunch, kcb.totalSlices) > 0 ==> CanAdvance(attr.Grid())
      modifies this`launched, attr`blockOffsetX, attr`blockOffsetY, attr`blockOffsetZ, kcb`totalSlices
      ensures var n := Min(kcb.slicesToLaunch, old(kcb.totalSlices));
              launched == old(launched) + Schedule(old(attr.BlockOffset()), attr.Grid(), attr.Slice(), n) &&
              attr.BlockOffset() == AdvanceN(old(attr.BlockOffset()), attr.Grid(), attr.Slice(), n)
      ensures kcb.totalSlices == SubWrap(old(kcb.totalSlices), kcb.slicesToLaunch)
      ensures old(kcb.totalSlices) == 0 ==>
                launched == old(launched) && attr.BlockOffset() == old(attr.BlockOffset())
      ensures kcb.slicesToLaunch == old(kcb.slicesToLaunch) && kcb.state == old(kcb.state)
      ensures calls == old(calls) && worker == old(worker)
      ensures old(OnSchedule()) ==> OnSchedule()
      ensures old(Accounted()) && old(kcb.totalSlices) >= kcb.slicesToLaunch ==> Accounted()
      ensures old(Accounted()) ==> |launched| <= TotalSlices(attr.Grid(), attr.Slice())
    {
      ghost var start := attr.BlockOffset();
      var i := 0;
      while i < Min(kcb.slicesToLaunch, kcb.totalSlices)
        invariant i <= Min(kcb.slicesToLaunch, kcb.totalSlices)
        invariant kcb.totalSlices == old(kcb.totalSlices)
        invariant launched == old(launched) + Schedule(start, attr.Grid(), attr.Slice(), i)
        invariant attr.BlockOffset() == AdvanceN(start, attr.Grid(), attr.Slice(), i)
      {
        LaunchSlice();
        i := i + 1;
      }
      kcb.totalSlices := SubWrap(kcb.totalSlices, kcb.slicesToLaunch);
      if old(OnSchedule()) {
        ScheduleConcat(origin, attr.Grid(), attr.Slice(), |old(launched)|, i);
        AdvanceNAdd(origin, attr.Grid(), attr.Slice(), |old(launched)|, i);
      }
    }

    /** One iteration of the launch loop: the launch reads the live block offset through
        its first three arguments, then the offset advances by one slice. */
    method LaunchSlice()
      requires CanAdvance(attr.Grid())
      modifies this`launched, attr`blockOffsetX, attr`blockOffsetY, attr`blockOffsetZ
      ensures launched == old(launched) + [old(attr.BlockOffset())]
      ensures attr.BlockOffset() == Advance(old(attr.BlockOffset()), attr.Grid(), attr.Slice())
    {
      launched := launched + [attr.BlockOffset()];
      AdvanceBlockOffset();
    }

    /** The advance after one launch, in place: X moves on by one slice width; while X
        has reached the grid's X extent it is reduced by that extent and Y moves on by one
        slice height; then the same for Y into Z. */
    method AdvanceBlockOffset()
      requires CanAdvance(attr.Grid())
      modifies attr`blockOffsetX, attr`blockOffsetY, attr`blockOffsetZ
      ensures attr.BlockOffset() == Advance(old(attr.BlockOffset()), attr.Grid(), attr.Slice())
    {
      ghost var before := attr.BlockOffset();
      attr.blockOffsetX := attr.blockOffsetX + attr.sGridDimX;
      while attr.blockOffsetX >= attr.gridDimX
        invariant Carry(attr.blockOffsetX, attr.blockOffsetY, attr.gridDimX, attr.sGridDimY)
               == Carry(before.x + attr.sGridDimX, before.y, attr.gridDimX, attr.sGridDimY)
        invariant attr.blockOffsetZ == before.z
        decreases attr.blockOffsetX
      {
        attr.blockOffsetX := attr.blockOffsetX - attr.gridDimX;
        attr.blockOffsetY := attr.blockOffsetY + attr.sGridDimY;
      }
      ghost var alongX := Carry(before.x + attr.sGridDimX, before.y, attr.gridDimX, attr.sGridDimY);
      while attr.blockOffsetY >= attr.gridDimY
        invariant Carry(attr.blockOffsetY, attr.blockOffsetZ, attr.gridDimY, attr.sGridDimZ)
               == Carry(alongX.1, before.z, attr.gridDimY, attr.sGridDimZ)
        invariant attr.blockOffsetX == alongX.0
        decreases attr.blockOffsetY
      {
        attr.blockOffsetY := attr.blockOffsetY - attr.gridDimY;
        attr.blockOffsetZ := attr.blockOffsetZ + attr.sGridDimZ;
      }
    }

    /** `launch()`: spawns the worker thread, which binds the context, loads the module,
        resolves the kernel, allocates and copies in the arguments, and only then sets
        the tag to `MemcpyHtoD` and waits. */
    method StartWorker()
      requires worker == NotSpawned
      modifies this`calls, this`worker, kcb`state
      ensures calls == old(calls) + [CtxSetCurrent, ModuleLoad(moduleFile), ModuleGetFunction(kernelName),
                                     ArgsAlloc, ArgsCopyIn]
      ensures kcb.state == MemcpyHtoD && worker == AwaitingCopyOut
    {
      calls := calls + [CtxSetCurrent];
      calls := calls + [ModuleLoad(moduleFile)];
      calls := calls + [ModuleGetFunction(kernelName)];
      calls := calls + [ArgsAlloc];
      calls := calls + [ArgsCopyIn];
      kcb.state := MemcpyHtoD;
      worker := AwaitingCopyOut;
    }

    /** `finish()`: the waiting worker proceeds once the tag is `MemcpyDtoH`, copies the
        arguments out, frees them and exits; the join returns after that. */
    method Finish()
      requires worker == AwaitingCopyOut && kcb.state == MemcpyDtoH
      modifies this`calls, this`worker
      ensures calls == old(calls) + [ArgsCopyOut, ArgsFree] && worker == Exited
    {
      calls := calls + [ArgsCopyOut];
      calls := calls + [ArgsFree];
      worker := Exited;
    }
  }

  /** A launcher built at the zero offset on a tiled grid that has launched no more than
      the grid's slice count has launched pairwise distinct slices, all inside the grid.
      `LaunchKernel` keeps the launch count within that bound from every accounted state,
      including the last call, whose quantum may exceed the slices that are left. */
  lemma LaunchedSlicesAreDistinctAndInGrid(l: KernelLauncher)
    requires l.OnSchedule() && l.origin == Zero
    requires Tiles(l.attr.Grid(), l.attr.Slice()) && l.attr.Slice().Volume() > 0
    requires |l.launched| <= TotalSlices(l.attr.Grid(), l.attr.Slice())
    ensures forall i, j :: 0 <= i < j < |l.launched| ==> l.launched[i] != l.launched[j]
    ensures forall i :: 0 <= i < |l.launched| ==> InsideGrid(l.launched[i], l.attr.Grid())
  {
    var grid, slice, count := l.attr.Grid(), l.attr.Slice(), |l.launched|;
    assert l.launched == Schedule(Zero, grid, slice, count);
    ScheduleDistinct(grid, slice, count);
    ScheduleInsideGrid(grid, slice, count);
  }
}
