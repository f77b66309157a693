/** What the advance does when the grid is an exact multiple of the slice: it walks the
    slice origins in row-major order, one slice per launch, so the first `TotalSlices`
    launches from the zero offset visit every slice of the grid exactly once. */
module SliceTiling {
  import opened Arith
  import opened SliceGeometry

  /** The origin of the slice with coordinates (i, j, k) in slice units. */
  function OriginAt(slice: Dim3, i: nat, j: nat, k: nat): Offset {
    Offset(i * slice.x, j * slice.y, k * slice.z)
  }

  /** The grid extents in slice units. */
  lemma ExtentsInSlices(grid: Dim3, slice: Dim3)
    requires Tiles(grid, slice)
    ensures var n := SlicesPerAxis(grid, slice);
            grid.x == n.x * slice.x && grid.y == n.y * slice.y && grid.z == n.z * slice.z &&
            n.x > 0 && n.y > 0
  {
  }

  /** The slice at coordinates (i, j, k) has row-major index i + nx * (j + ny * k), and is a
      slice origin when i and j are below the slice counts. */
  lemma IndexAt(grid: Dim3, slice: Dim3, i: nat, j: nat, k: nat)
    requires Tiles(grid, slice)
    ensures var n := SlicesPerAxis(grid, slice);
            SliceIndex(OriginAt(slice, i, j, k), grid, slice) == i + n.x * (j + n.y * k) &&
            (i < n.x && j < n.y ==> IsSliceOrigin(OriginAt(slice, i, j, k), grid, slice))
  {
    var n := SlicesPerAxis(grid, slice);
    MulDiv(i, slice.x);
    MulDiv(j, slice.y);
    MulDiv(k, slice.z);
    ExtentsInSlices(grid, slice);
    if i < n.x && j < n.y {
      MulLeft(i + 1, n.x, slice.x);
      MulLeft(j + 1, n.y, slice.y);
    }
  }

  /** Every slice origin sits at whole slice coordinates, with X and Y coordinates below
      the slice counts. */
  lemma CoordinatesOf(o: Offset, grid: Dim3, slice: Dim3) returns (i: nat, j: nat, k: nat)
    requires Tiles(grid, slice) && IsSliceOrigin(o, grid, slice)
    ensures var n := SlicesPerAxis(grid, slice);
            o == OriginAt(slice, i, j, k) && i < n.x && j < n.y
  {
    var n := SlicesPerAxis(grid, slice);
    ExtentsInSlices(grid, slice);
    i, j, k := o.x / slice.x, o.y / slice.y, o.z / slice.z;
    assert o.x == i * slice.x && o.y == j * slice.y && o.z == k * slice.z;
    if i >= n.x {
      MulLeft(n.x, i, slice.x);
    }
    if j >= n.y {
      MulLeft(n.y, j, slice.y);
    }
  }

  /** Inside a row, the advance only moves X on by one slice. */
  lemma AdvanceWithinRow(grid: Dim3, slice: Dim3, i: nat, j: nat, k: nat)
    requires Tiles(grid, slice)
    requires i + 1 < SlicesPerAxis(grid, slice).x && j < SlicesPerAxis(grid, slice).y
    ensures Advance(OriginAt(slice, i, j, k), grid, slice) == OriginAt(slice, i + 1, j, k)
  {
    var n := SlicesPerAxis(grid, slice);
    var o := OriginAt(slice, i, j, k);
    ExtentsInSlices(grid, slice);
    assert o.x + slice.x == (i + 1) * slice.x;
    MulLeft(i + 2, n.x, slice.x);
    MulLeft(j + 1, n.y, slice.y);
    AdvanceWithoutCarry(o, grid, slice);
  }

  /** At the end of a row, X returns to zero and Y moves on by one slice. */
  lemma AdvanceToNextRow(grid: Dim3, slice: Dim3, j: nat, k: nat)
    requires Tiles(grid, slice)
    requires j + 1 < SlicesPerAxis(grid, slice).y
    ensures var n := SlicesPerAxis(grid, slice);
            Advance(OriginAt(slice, n.x - 1, j, k), grid, slice) == OriginAt(slice, 0, j + 1, k)
  {
    var n := SlicesPerAxis(grid, slice);
    ExtentsInSlices(grid, slice);
    var o := OriginAt(slice, n.x - 1, j, k);
    assert o.x + slice.x == grid.x;
    assert o.y + slice.y == (j + 1) * slice.y;
    MulLeft(j + 2, n.y, slice.y);
    AdvanceCarryingIntoY(o, grid, slice);
  }

  /** At the end of a plane, X and Y return to zero and Z moves on by one slice. */
  lemma AdvanceToNextPlane(grid: Dim3, slice: Dim3, k: nat)
    requires Tiles(grid, slice)
    ensures var n := SlicesPerAxis(grid, slice);
            Advance(OriginAt(slice, n.x - 1, n.y - 1, k), grid, slice) == OriginAt(slice, 0, 0, k + 1)
  {
    var n := SlicesPerAxis(grid, slice);
    ExtentsInSlices(grid, slice);
    var o := OriginAt(slice, n.x - 1, n.y - 1, k);
    assert o.x + slice.x == grid.x;
    assert o.y + slice.y == grid.y;
    assert o.z + slice.z == (k + 1) * slice.z;
    AdvanceCarryingIntoZ(o, grid, slice);
  }

  /** From a slice origin, one advance lands on the origin of the next slice in row-major
      order: its index is one more. On the way no coordinate goes past the grid extent,
      so the additions at the carry steps stay within the grid's own bounds. */
  lemma {:induction false} AdvanceToNextSlice(o: Offset, grid: Dim3, slice: Dim3)
    requires Tiles(grid, slice) && IsSliceOrigin(o, grid, slice)
    ensures IsSliceOrigin(Advance(o, grid, slice), grid, slice)
    ensures SliceIndex(Advance(o, grid, slice), grid, slice) == SliceIndex(o, grid, slice) + 1
    ensures o.x + slice.x <= grid.x && o.y + slice.y <= grid.y
  {
    var n := SlicesPerAxis(grid, slice);
    ExtentsInSlices(grid, slice);
    var i, j, k := CoordinatesOf(o, grid, slice);
    IndexAt(grid, slice, i, j, k);
    MulLeft(i + 1, n.x, slice.x);
    MulLeft(j + 1, n.y, slice.y);
    if i + 1 < n.x {
      AdvanceWithinRow(grid, slice, i, j, k);
      IndexAt(grid, slice, i + 1, j, k);
    } else if j + 1 < n.y {
      AdvanceToNextRow(grid, slice, j, k);
      IndexAt(grid, slice, 0, j + 1, k);
      assert n.x * (j + 1 + n.y * k) == n.x * (j + n.y * k) + n.x;
    } else {
      AdvanceToNextPlane(grid, slice, k);
      IndexAt(grid, slice, 0, 0, k + 1);
      assert n.x * (n.y * (k + 1)) == n.x * (n.y - 1 + n.y * k) + n.x;
    }
  }

  /** After `n` advances from a slice origin the offset is the origin of the slice `n`
      places further on in row-major order. */
  lemma {:induction false} AdvanceNToSlice(o: Offset, grid: Dim3, slice: Dim3, n: nat)
    requires Tiles(grid, slice) && IsSliceOrigin(o, grid, slice)
    ensures IsSliceOrigin(AdvanceN(o, grid, slice, n), grid, slice)
    ensures SliceIndex(AdvanceN(o, grid, slice, n), grid, slice) == SliceIndex(o, grid, slice) + n
  {
    if n > 0 {
      AdvanceNToSlice(o, grid, slice, n - 1);
      AdvanceToNextSlice(AdvanceN(o, grid, slice, n - 1), grid, slice);
    }
  }

  /** Two slice origins with the same index are the same offset: the index, read in mixed
      radix (nx, ny), gives back the slice coordinates. */
  lemma SliceIndexInjective(a: Offset, b: Offset, grid: Dim3, slice: Dim3)
    requires Tiles(grid, slice) && IsSliceOrigin(a, grid, slice) && IsSliceOrigin(b, grid, slice)
    requires SliceIndex(a, grid, slice) == SliceIndex(b, grid, slice)
    ensures a == b
  {
    var n := SlicesPerAxis(grid, slice);
    ExtentsInSlices(grid, slice);
    var ai, aj, ak := CoordinatesOf(a, grid, slice);
    var bi, bj, bk := CoordinatesOf(b, grid, slice);
    IndexAt(grid, slice, ai, aj, ak);
    IndexAt(grid, slice, bi, bj, bk);
    DigitsUnique(ai, aj, ak, bi, bj, bk, n.x, n.y);
  }

  /** On a tiled grid the slice count is exactly nx * ny * nz: nothing is lost to the
      rounding down. */
  lemma TotalSlicesOfTiling(grid: Dim3, slice: Dim3)
    requires Tiles(grid, slice)
    ensures slice.Volume() > 0
    ensures var n := SlicesPerAxis(grid, slice);
            TotalSlices(grid, slice) == n.x * n.y * n.z
  {
    var n := SlicesPerAxis(grid, slice);
    ExtentsInSlices(grid, slice);
    assert slice.Volume() > 0 by {
      assert slice.x * slice.y > 0;
    }
    assert grid.Volume() == (n.x * n.y * n.z) * slice.Volume();
    DivModUnique(grid.Volume(), slice.Volume(), n.x * n.y * n.z, 0);
  }

  /** The `i`-th launch issued from the zero offset observes the origin of the slice with
      index `i`. */
  lemma ScheduledSlice(grid: Dim3, slice: Dim3, count: nat, i: nat)
    requires Tiles(grid, slice) && i < count
    ensures IsSliceOrigin(Schedule(Zero, grid, slice, count)[i], grid, slice)
    ensures SliceIndex(Schedule(Zero, grid, slice, count)[i], grid, slice) == i
  {
    assert SliceIndex(Zero, grid, slice) == 0;
    AdvanceNToSlice(Zero, grid, slice, i);
  }

  /** The launches issued from the zero offset observe pairwise distinct slice origins. */
  lemma {:induction false} ScheduleDistinct(grid: Dim3, slice: Dim3, count: nat)
    requires Tiles(grid, slice)
    ensures var s := Schedule(Zero, grid, slice, count);
            forall i, j :: 0 <= i < j < count ==> s[i] != s[j]
  {
    var s := Schedule(Zero, grid, slice, count);
    forall i, j | 0 <= i < j < count
      ensures s[i] != s[j]
    {
      ScheduledSlice(grid, slice, count, i);
      ScheduledSlice(grid, slice, count, j);
    }
  }

  /** A slice origin lies inside the grid exactly when its index is below the number of
      slices the grid holds. */
  lemma SliceInsideGrid(o: Offset, grid: Dim3, slice: Dim3)
    requires Tiles(grid, slice) && IsSliceOrigin(o, grid, slice)
    ensures slice.Volume() > 0
    ensures InsideGrid(o, grid) <==> SliceIndex(o, grid, slice) < TotalSlices(grid, slice)
  {
    var n := SlicesPerAxis(grid, slice);
    TotalSlicesOfTiling(grid, slice);
    ExtentsInSlices(grid, slice);
    var i, j, k := CoordinatesOf(o, grid, slice);
    IndexAt(grid, slice, i, j, k);
    MixedRadixBound(i, j, k, n.x, n.y, n.z);
    if k < n.z {
      MulLeft(k + 1, n.z, slice.z);
    } else {
      MulLeft(n.z, k, slice.z);
    }
  }

  /** The first `TotalSlices` launches from the zero offset all observe origins inside the
      grid. */
  lemma {:induction false} ScheduleInsideGrid(grid: Dim3, slice: Dim3, count: nat)
    requires Tiles(grid, slice)
    requires slice.Volume() > 0 && count <= TotalSlices(grid, slice)
    ensures forall i :: 0 <= i < count ==> InsideGrid(Schedule(Zero, grid, slice, count)[i], grid)
  {
    forall i | 0 <= i < count
      ensures InsideGrid(Schedule(Zero, grid, slice, count)[i], grid)
    {
      ScheduledSlice(grid, slice, count, i);
      SliceInsideGrid(Schedule(Zero, grid, slice, count)[i], grid, slice);
    }
  }

  /** Every slice of the grid is visited by the first `TotalSlices` launches from the zero
      offset. */
  lemma {:induction false} ScheduleCoversGrid(grid: Dim3, slice: Dim3)
    requires Tiles(grid, slice) && slice.Volume() > 0
    ensures forall o :: IsSliceOrigin(o, grid, slice) && InsideGrid(o, grid) ==>
              o in Schedule(Zero, grid, slice, TotalSlices(grid, slice))
  {
    var total := TotalSlices(grid, slice);
    forall o | IsSliceOrigin(o, grid, slice) && InsideGrid(o, grid)
      ensures o in Schedule(Zero, grid, slice, total)
    {
      SliceInsideGrid(o, grid, slice);
      var idx := SliceIndex(o, grid, slice);
      ScheduledSlice(grid, slice, total, idx);
      SliceIndexInjective(o, Schedule(Zero, grid, slice, total)[idx], grid, slice);
    }
  }

  /** One advance past the last slice lands on (0, 0, grid.z): Z is not wrapped, so the
      next launch would start outside the grid. */
  lemma {:induction false} PastLastSlice(grid: Dim3, slice: Dim3)
    requires Tiles(grid, slice) && slice.Volume() > 0
    ensures AdvanceN(Zero, grid, slice, TotalSlices(grid, slice)) == Offset(0, 0, grid.z)
    ensures !InsideGrid(AdvanceN(Zero, grid, slice, TotalSlices(grid, slice)), grid)
  {
    var n := SlicesPerAxis(grid, slice);
    var total := TotalSlices(grid, slice);
    TotalSlicesOfTiling(grid, slice);
    ExtentsInSlices(grid, slice);
    assert SliceIndex(Zero, grid, slice) == 0;
    AdvanceNToSlice(Zero, grid, slice, total);
    var last := AdvanceN(Zero, grid, slice, total);
    var i, j, k := CoordinatesOf(last, grid, slice);
    IndexAt(grid, slice, i, j, k);
    DigitsUnique(i, j, k, 0, 0, n.z, n.x, n.y);
  }
}
