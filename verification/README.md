# Slice scheduler of the kernel launcher

A Dafny model of the slice scheduler in `simulator/KernelLauncher.h`. The scheduler runs one
GPU kernel as a series of bounded sub-launches. It cuts the kernel's full 3-D grid of blocks
into slices (sub-grids of extent `sGridDim`), and each `launchKernel()` call submits at most
`slicesToLaunch` of them. The launches find their slice through a block offset that the
launcher advances in place, odometer-style: X first, with carries into Y and then into Z.
A control block holds a remaining-slice counter and a state tag. The tag is how the worker
thread and the orchestrator hand off: the worker signals that the arguments are copied in,
and waits for permission to copy them out.

The modules follow the program's layers:

- `U32Arith` (`u32.dfy`): `unsigned int` values, `min`, and the wrapping `-=`.
- `SliceGeometry` (`geometry.dfy`): the geometry as values. It has the slice count, one
  carry loop (`Carry`), the advance after one launch (`Advance`), `n` advances (`AdvanceN`),
  and the offsets `n` consecutive launches observe (`Schedule`). It also has the row-major
  slice index.
- `SliceTiling` (`tiling.dfy`): what the advance does on a grid that is an exact multiple of
  the slice. Each advance moves to the slice with the next row-major index. The first
  `totalSlices` launches from the zero offset visit every slice of the grid once, and the
  advance after the last one leaves the grid.
- `Launcher` (`launcher.dfy`): three classes. `KernelAttr` is `kernel_attr_t`,
  `ControlBlock` is `kernel_control_block_t`, and `KernelLauncher` is the launcher itself.
  `LaunchKernel` keeps the source's `for` loop and its two `while` carry loops over the
  mutable offset fields. Every launch appends the live offset to a ghost log (`launched`),
  which stands for the kernel reading its first three arguments. The worker thread becomes
  two transitions, `StartWorker` and `Finish`, and the calls it makes go into a ghost event log
  (`calls`).
- `Scenario` (`scenario.dfy`): an 8 x 1 x 1 grid with 2 x 1 x 1 slices and quantum 1, run
  through four calls that drain it and two calls past the end.
- `Arith` (`arith.dfy`): lemmas on division, remainders and mixed-radix digits.

Two invariants of `KernelLauncher` connect the class to the value-level model, and
`LaunchKernel` preserves both:

- `OnSchedule`: the log of launches is `Schedule(origin, grid, slice, |launched|)`, and the
  live offset is where the next launch starts.
- `Accounted`: launched slices plus `totalSlices` equal the count set at construction. This
  holds until a call's quantum exceeds the remaining count.

From an accounted state, `LaunchKernel` never takes the number of launches past the slice
count, not even on a final call whose quantum exceeds the slices left.
`LaunchedSlicesAreDistinctAndInGrid` combines `OnSchedule` and that bound with the tiling
lemmas. A launcher built at the zero offset on a tiled grid has then launched
pairwise-distinct slices, all inside the grid, including once every slice has been launched.

Two behaviours of the code are worth stating outright:

- `totalSlices` is `unsigned int` (`simulator/KernelLauncher.h:48`). So when the quantum
  exceeds the remaining count, the decrement at line 121 wraps modulo 2^32 (`SubWrap`).
- On an 8 x 1 x 1 grid with 2 x 1 x 1 slices, the fourth advance carries X into Y. Because
  the Y extent is 1, Y then carries into Z, leaving (0, 0, 1) (`DrainEightBlocks`).

## Model

| member | source | states |
|---|---|---|
| `U32Arith.Min` | simulator/KernelLauncher.h:92 | the loop bound is at most both the quantum and the remaining count, and equals one of them |
| `U32Arith.SubWrap` | simulator/KernelLauncher.h:121 | `totalSlices -= slicesToLaunch` on `unsigned int`: the plain difference when the quantum fits, otherwise 2^32 minus the shortfall |
| `SliceGeometry.TotalSlices` | simulator/KernelLauncher.h:75 | the slice count is the grid volume over a nonzero slice volume, rounded down: `r * slice <= grid < (r + 1) * slice` |
| `SliceGeometry.Carry` | simulator/KernelLauncher.h:108-112 | a carry loop leaves the low coordinate below its extent and never lowers the high one |
| `SliceGeometry.CarryIsDivision` | simulator/KernelLauncher.h:108-118 | a carry loop reduces the low coordinate modulo the extent and adds one step to the high one per whole extent removed |
| `SliceGeometry.Advance` | simulator/KernelLauncher.h:107-118 | after an advance, X is below the grid's X extent and Y below its Y extent (positive extents, or the loops do not end); Z is never reduced |
| `SliceGeometry.AdvanceIsMixedRadix` | simulator/KernelLauncher.h:107-118 | the advance in closed form: X plus the slice width, read as a mixed-radix number with X and Y digits bounded by the grid extents |
| `SliceGeometry.AdvanceWithoutCarry` | simulator/KernelLauncher.h:107-108 | when X plus the slice width stays below the X extent, only X moves |
| `SliceGeometry.AdvanceCarryingIntoY` | simulator/KernelLauncher.h:107-114 | when X reaches its extent exactly and Y plus the slice height stays below its own, X returns to 0 and Y moves by one slice height |
| `SliceGeometry.AdvanceCarryingIntoZ` | simulator/KernelLauncher.h:107-118 | when X and Y both reach their extents exactly, both return to 0 and Z moves by one slice depth |
| `SliceGeometry.Schedule` | simulator/KernelLauncher.h:92-107 | `n` launches observe `n` offsets, the `i`-th being the offset after `i` advances |
| `SliceGeometry.AdvanceNAdd` | simulator/KernelLauncher.h:92-118 | `a` advances followed by `b` advances are `a + b` advances |
| `SliceGeometry.ScheduleConcat` | simulator/KernelLauncher.h:90-122 | two consecutive calls observe the same offsets as one call that issues both counts |
| `SliceTiling.AdvanceWithinRow` | simulator/KernelLauncher.h:107-108 | inside a row of slices, the advance moves to the next slice on X |
| `SliceTiling.AdvanceToNextRow` | simulator/KernelLauncher.h:107-114 | at the end of a row, the advance moves to the first slice of the next row |
| `SliceTiling.AdvanceToNextPlane` | simulator/KernelLauncher.h:107-118 | at the end of a plane, the advance moves to the first slice of the next plane |
| `SliceTiling.AdvanceToNextSlice` | simulator/KernelLauncher.h:107-118 | on a tiled grid, an advance from a slice origin lands on a slice origin whose row-major index is one more; X and Y plus one slice never pass the grid extent |
| `SliceTiling.AdvanceNToSlice` | simulator/KernelLauncher.h:92-118 | `n` advances from a slice origin land on the slice origin `n` indices further on |
| `SliceTiling.TotalSlicesOfTiling` | simulator/KernelLauncher.h:75 | on a tiled grid, the slice count is exactly the product of the slices per axis |
| `SliceTiling.ScheduledSlice` | simulator/KernelLauncher.h:92-118 | the `i`-th launch from the zero offset observes the slice origin with index `i` |
| `SliceTiling.ScheduleDistinct` | simulator/KernelLauncher.h:92-118 | launches from the zero offset on a tiled grid observe pairwise-distinct offsets |
| `SliceTiling.SliceInsideGrid` | simulator/KernelLauncher.h:75 | a slice origin is inside the grid if and only if its index is below the slice count |
| `SliceTiling.ScheduleInsideGrid` | simulator/KernelLauncher.h:75-118 | the first `totalSlices` (or fewer) launches from the zero offset all observe offsets inside the grid |
| `SliceTiling.ScheduleCoversGrid` | simulator/KernelLauncher.h:75-118 | every slice origin inside the grid is among the first `totalSlices` launches from the zero offset |
| `SliceTiling.PastLastSlice` | simulator/KernelLauncher.h:114-118 | after `totalSlices` advances from the zero offset, the offset is (0, 0, gridZ), outside the grid, because Z never wraps |
| `Launcher.KernelAttr.constructor` | simulator/KernelLauncher.h:12-32 | the record holds the given extents and memory size, and its block offset starts at (0, 0, 0) |
| `Launcher.ControlBlock.constructor` | simulator/KernelLauncher.h:42-49 | the tag starts at `Init` and the quantum at 1 |
| `Launcher.KernelLauncher.constructor` | simulator/KernelLauncher.h:54-76 | the launcher hands its id to the collaborator and sets `totalSlices` to the slice count, with tag and quantum untouched; no launch yet, and both invariants hold |
| `Launcher.KernelLauncher.LaunchKernel` | simulator/KernelLauncher.h:90-122 | appends `Schedule` for `min(quantum, count on entry)` launches from the entry offset; the offset advances that many times; the count becomes the wrapping difference count minus quantum; nothing is launched or moved when the count is 0; only the offset, count and log change; both invariants are preserved, the second while the quantum fits; from an accounted state the launches never exceed the slice count |
| `Launcher.KernelLauncher.LaunchSlice` | simulator/KernelLauncher.h:95-118 | one iteration: the launch observes the live offset, which then advances once |
| `Launcher.KernelLauncher.AdvanceBlockOffset` | simulator/KernelLauncher.h:107-118 | the two in-place carry loops leave the offset equal to `Advance` of the previous offset |
| `Launcher.KernelLauncher.StartWorker` | simulator/KernelLauncher.h:140-152 | the worker binds the context, loads the module, resolves the kernel, allocates and copies in the arguments, and only then sets the tag to `MemcpyHtoD` |
| `Launcher.KernelLauncher.Finish` | simulator/KernelLauncher.h:154-163 | the worker copies out and frees the arguments only when the tag is `MemcpyDtoH`, then exits |
| `Launcher.LaunchedSlicesAreDistinctAndInGrid` | simulator/KernelLauncher.h:90-122 | a launcher built at the zero offset on a tiled grid, on schedule and with no more launches than the slice count, has launched distinct slices inside the grid |
| `Scenario.NewEightBlockLauncher` | simulator/KernelLauncher.h:54-76 | an 8 x 1 x 1 grid in 2 x 1 x 1 slices starts with 4 slices to go, quantum 1, tag `Init` |
| `Scenario.StartEightBlockLauncher` | simulator/KernelLauncher.h:140-152 | starting the worker moves the tag from `Init` to `MemcpyHtoD` |
| `Scenario.FirstTwoCalls` | simulator/KernelLauncher.h:90-122 | the first two calls launch at X = 0 and 2, leaving offsets (2,0,0), (4,0,0) and counts 3, 2 |
| `Scenario.ThirdCall` | simulator/KernelLauncher.h:90-122 | the third call launches at X = 4, leaving the offset at (6,0,0) and the count at 1 |
| `Scenario.DrainEightBlocks` | simulator/KernelLauncher.h:90-122 | the four calls launch at X = 0, 2, 4, 6; the fourth advance carries into Z, giving (0,0,1); counts go 3, 2, 1, 0 |
| `Scenario.OvershootAfterDrain` | simulator/KernelLauncher.h:90-122 | a fifth call launches nothing and leaves the offset at (0,0,1), but wraps the count to 2^32 - 1; a sixth launches again and leaves (2,0,1) and 2^32 - 2; the tag then goes to `MemcpyDtoH` and the worker finishes |

## Left out

- The CUDA driver calls are not modelled as such. These are `cuCtxSetCurrent`, `cuModuleLoad`, `cuModuleGetFunction` and `cuLaunchKernel`. Each launch is an entry in the ghost `launched` log, and the setup calls are entries in the ghost `calls` log. The `checkCudaErrors` abort-on-failure policy lives in `errchk.h`, which is not part of this model; the model assumes every call succeeds.
- `KernelCallback` (`memAlloc`, `memcpyHtoD`, `memcpyDtoH`, `memFree`, `setLauncherID`) is a foreign collaborator. It becomes abstract events in `calls`; its buffers and the `args` array are not modelled.
- The aliasing of `args[0..2]` to the offset fields is not modelled as such. Its effect is: each launch records the offset live at that moment.
- pthread create/join, the mutex, the condition variable and the blocking wait are not modelled. The worker is two sequential transitions. `StartWorker` covers `launch()` and the thread's run up to its wait. `Finish` requires the wait predicate (`state == MemcpyDtoH`) and covers the rest plus the join. A call that would block forever is a precondition violation.
- The orchestrator's own writes of the tag (to `MemcpyDtoH`) are outside this file. The scenario makes that write directly to the public field. The tag value `Launch` exists in the datatype but nothing assigns it, as in the source.
- The `printf` trace, the stream handle, the context handle, the module and function handles, the launcher id's use beyond `setLauncherID`, and the destructor are left out: none affects the schedule.
- Launcher.KernelLauncher.StartWorker: requires that it has not been called before. The source does not guard against a second `launch()`, which would spawn a second thread.
- Launcher.KernelLauncher.LaunchKernel: uses an unbounded loop counter. The source compares `int i` against an unsigned `min`, which differs only for quanta of 2^31 or more.
- Launcher.KernelLauncher.constructor: requires the grid volume, and a nonzero slice volume, to fit in 32 bits. The products at line 75 are computed in `unsigned int`, so larger values would wrap, and a zero slice volume would divide by zero.
- Launcher.KernelLauncher.AdvanceBlockOffset: keeps the block offset as unbounded naturals. It does not model the 32-bit wrap of the `+=` at lines 107, 111 and 117. On a tiled schedule, `AdvanceToNextSlice` shows the X and Y sums never pass the grid extent. Z grows by one slice depth per plane and passes the grid only once the schedule is exhausted (`PastLastSlice`).
- Launcher.ControlBlock.constructor: leaves `totalSlices` unconstrained: the source does not initialise it, and the launcher's constructor sets it.
