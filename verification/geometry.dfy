/** The grid geometry of a sliced launch: the full grid, the slice (sub-grid) and the
    block offset that marks the origin of the next slice, with the odometer-style advance
    that `launchKernel` performs after every launch. */
module SliceGeometry {
  import opened Arith

  /** An extent in blocks on each axis, as CUDA's `dim3`. */
  datatype Dim3 = Dim3(x: nat, y: nat, z: nat) {
    function Volume(): nat { x * y * z }
  }

  /** A block offset: where, in the full grid, the next slice starts. */
  datatype Offset = Offset(x: nat, y: nat, z: nat)

  /** The offset a fresh `kernel_attr_t` starts from. */
  const Zero := Offset(0, 0, 0)

  /** The number of slices a grid holds: the grid volume divided by the slice volume,
      rounded down. */
  function TotalSlices(grid: Dim3, slice: Dim3): (r: nat)
    requires slice.Volume() > 0
    ensures r * slice.Volume() <= grid.Volume() < (r + 1) * slice.Volume()
  {
    grid.Volume() / slice.Volume()
  }

  /** The carry loops terminate only when the X and Y extents are positive. */
  predicate CanAdvance(grid: Dim3) {
    grid.x > 0 && grid.y > 0
  }

  /** One carry loop: while `low` has reached `extent`, take `extent` off `low` and add
      `step` to `high`. */
  function Carry(low: nat, high: nat, extent: nat, step: nat): (r: (nat, nat))
    requires extent > 0
    ensures r.0 < extent && r.1 >= high
    decreases low
  {
    if low < extent then (low, high) else Carry(low - extent, high + step, extent, step)
  }

  /** The carry loop leaves `low` reduced modulo `extent` and raises `high` by `step` once
      per whole `extent` taken off. */
  lemma {:induction false} CarryIsDivision(low: nat, high: nat, extent: nat, step: nat)
    requires extent > 0
    ensures Carry(low, high, extent, step).0 == low % extent
    ensures Carry(low, high, extent, step).1 == high + (low / extent) * step
    decreases low
  {
    if low < extent {
      DivModUnique(low, extent, 0, low);
    } else {
      CarryIsDivision(low - extent, high + step, extent, step);
      DivModUnique(low, extent, (low - extent) / extent + 1, (low - extent) % extent);
    }
  }

  /** The offset after one launch: X moves on by one slice width, the overflow of X carries
      into Y and the overflow of Y into Z. Z is never reduced. */
  function Advance(o: Offset, grid: Dim3, slice: Dim3): (r: Offset)
    requires CanAdvance(grid)
    ensures r.x < grid.x && r.y < grid.y && r.z >= o.z
  {
    var alongX := Carry(o.x + slice.x, o.y, grid.x, slice.y);
    var alongY := Carry(alongX.1, o.z, grid.y, slice.z);
    Offset(alongX.0, alongY.0, alongY.1)
  }

  /** The advance in closed form: the offset plus one slice width on X, read as a mixed-radix
      number whose X and Y digits are bounded by the grid extents. */
  lemma AdvanceIsMixedRadix(o: Offset, grid: Dim3, slice: Dim3)
    requires CanAdvance(grid)
    ensures var r := Advance(o, grid, slice);
            var intoY := (o.x + slice.x) / grid.x;
            var intoZ := (o.y + intoY * slice.y) / grid.y;
            r.x == (o.x + slice.x) % grid.x &&
            r.y == (o.y + intoY * slice.y) % grid.y &&
            r.z == o.z + intoZ * slice.z
  {
    var alongX := Carry(o.x + slice.x, o.y, grid.x, slice.y);
    CarryIsDivision(o.x + slice.x, o.y, grid.x, slice.y);
    CarryIsDivision(alongX.1, o.z, grid.y, slice.z);
  }

  /** X moves on by one slice and stays below its extent: nothing carries. */
  lemma AdvanceWithoutCarry(o: Offset, grid: Dim3, slice: Dim3)
    requires CanAdvance(grid) && o.x + slice.x < grid.x && o.y < grid.y
    ensures Advance(o, grid, slice) == Offset(o.x + slice.x, o.y, o.z)
  {
  }

  /** X reaches its extent exactly: it returns to zero and Y moves on by one slice,
      which stays below its own extent. */
  lemma AdvanceCarryingIntoY(o: Offset, grid: Dim3, slice: Dim3)
    requires CanAdvance(grid) && o.x + slice.x == grid.x && o.y + slice.y < grid.y
    ensures Advance(o, grid, slice) == Offset(0, o.y + slice.y, o.z)
  {
    assert Carry(o.x + slice.x, o.y, grid.x, slice.y) == Carry(0, o.y + slice.y, grid.x, slice.y);
  }

  /** X and Y both reach their extents exactly: both return to zero and Z moves on by one
      slice. */
  lemma AdvanceCarryingIntoZ(o: Offset, grid: Dim3, slice: Dim3)
    requires CanAdvance(grid) && o.x + slice.x == grid.x && o.y + slice.y == grid.y
    ensures Advance(o, grid, slice) == Offset(0, 0, o.z + slice.z)
  {
    assert Carry(o.x + slice.x, o.y, grid.x, slice.y) == Carry(0, o.y + slice.y, grid.x, slice.y);
    assert Carry(o.y + slice.y, o.z, grid.y, slice.z) == Carry(0, o.z + slice.z, grid.y, slice.z);
  }

  /** The offset after `n` launches: the specification of the live block offset once the
      launch loop has run `n` iterations, each ending with one `Advance`. */
  function AdvanceN(o: Offset, grid: Dim3, slice: Dim3, n: nat): Offset
    requires n == 0 || CanAdvance(grid)
  {
    if n == 0 then o else Advance(AdvanceN(o, grid, slice, n - 1), grid, slice)
  }

  /** The offsets that `n` consecutive launches observe, starting from `o`: each launch
      sees the offset left by the advances before it. */
  function Schedule(o: Offset, grid: Dim3, slice: Dim3, n: nat): (s: seq<Offset>)
    requires n == 0 || CanAdvance(grid)
    ensures |s| == n
    ensures forall i :: 0 <= i < n ==> s[i] == AdvanceN(o, grid, slice, i)
  {
    if n == 0 then [] else Schedule(o, grid, slice, n - 1) + [AdvanceN(o, grid, slice, n - 1)]
  }

  /** The grid is an exact multiple of the slice on every axis (and the carry loops
      terminate). */
  predicate Tiles(grid: Dim3, slice: Dim3) {
    slice.x > 0 && slice.y > 0 && slice.z > 0 &&
    CanAdvance(grid) &&
    grid.x % slice.x == 0 && grid.y % slice.y == 0 && grid.z % slice.z == 0
  }

  /** How many slices fit along each axis. */
  function SlicesPerAxis(grid: Dim3, slice: Dim3): Dim3
    requires Tiles(grid, slice)
  {
    Dim3(grid.x / slice.x, grid.y / slice.y, grid.z / slice.z)
  }

  /** `o` is the origin of a slice: a multiple of the slice extent on every axis, with X
      and Y inside the grid (Z is not bounded by the advance). */
  predicate IsSliceOrigin(o: Offset, grid: Dim3, slice: Dim3)
    requires Tiles(grid, slice)
  {
    o.x % slice.x == 0 && o.y % slice.y == 0 && o.z % slice.z == 0 &&
    o.x < grid.x && o.y < grid.y
  }

  /** `o` lies inside the full grid on all three axes. */
  predicate InsideGrid(o: Offset, grid: Dim3) {
    o.x < grid.x && o.y < grid.y && o.z < grid.z
  }

  /** The row-major (X fastest) number of the slice whose origin is `o`. */
  function SliceIndex(o: Offset, grid: Dim3, slice: Dim3): nat
    requires Tiles(grid, slice)
  {
    var n := SlicesPerAxis(grid, slice);
    var plane: nat := n.y * (o.z / slice.z);
    var row: nat := n.x * (o.y / slice.y + plane);
    o.x / slice.x + row
  }

  /** Advancing `a` times and then `b` times is advancing `a + b` times. */
  lemma {:induction false} AdvanceNAdd(o: Offset, grid: Dim3, slice: Dim3, a: nat, b: nat)
    requires a + b == 0 || CanAdvance(grid)
    ensures AdvanceN(AdvanceN(o, grid, slice, a), grid, slice, b) == AdvanceN(o, grid, slice, a + b)
  {
    if b > 0 {
      AdvanceNAdd(o, grid, slice, a, b - 1);
    }
  }

  /** The launches of two consecutive calls, the second starting where the first left
      the offset, are the launches of one call that issues both counts. */
  lemma {:induction false} ScheduleConcat(o: Offset, grid: Dim3, slice: Dim3, a: nat, b: nat)
    requires a + b == 0 || CanAdvance(grid)
    ensures Schedule(o, grid, slice, a) + Schedule(AdvanceN(o, grid, slice, a), grid, slice, b)
            == Schedule(o, grid, slice, a + b)
  {
    var whole := Schedule(o, grid, slice, a + b);
    var joined := Schedule(o, grid, slice, a) + Schedule(AdvanceN(o, grid, slice, a), grid, slice, b);
    forall i | a <= i < a + b
      ensures joined[i] == whole[i]
    {
      AdvanceNAdd(o, grid, slice, a, i - a);
    }
  }
}
