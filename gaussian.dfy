/**
 * `draw_gaussian`: stamping a (2r+1)×(2r+1) kernel onto a heatmap canvas
 * around a rounded centre, clipped at the canvas border, combining by
 * element-wise maximum.
 *
 * The kernel that `gaussian2D` builds from the radius is taken as an input
 * array; its floating-point values play no part in what is proved here.
 */
module Gaussian {
  import opened PyOps

  /** A 2D canvas as rows of cells. */
  type Grid = seq<seq<real>>

  predicate IsGrid(g: Grid, height: nat, width: nat)
  {
    |g| == height && forall i :: 0 <= i < height ==> |g[i]| == width
  }

  /** The cells of a 2D array, row by row. */
  ghost function Cells(a: array2<real>): (g: Grid)
    reads a
    ensures IsGrid(g, a.Length0, a.Length1)
    ensures forall i, j :: 0 <= i < a.Length0 && 0 <= j < a.Length1 ==> g[i][j] == a[i, j]
  {
    seq(a.Length0, i requires 0 <= i < a.Length0 reads a =>
      seq(a.Length1, j requires 0 <= j < a.Length1 reads a => a[i, j]))
  }

  /** The all-zero canvas `np.zeros` gives. */
  function ZeroGrid(height: nat, width: nat): (g: Grid)
    ensures IsGrid(g, height, width)
    ensures forall i, j :: 0 <= i < height && 0 <= j < width ==> g[i][j] == 0.0
  {
    seq(height, i => seq(width, j => 0.0))
  }

  /** Whether position `p` is within `r` of the centre `c` on one axis. */
  predicate Near(p: int, c: int, r: nat)
  {
    c - r <= p <= c + r
  }

  /** `np.maximum` on one pair of cells. */
  function Max(a: real, b: real): real
  {
    if a >= b then a else b
  }

  /**
   * One cell after a stamp centred at (x, y): within `r` of the centre on
   * both axes it takes the larger of its old value and `k` times the kernel
   * cell at the same offset from the kernel's centre; elsewhere it keeps its
   * value. So a cell never decreases and only cells near the centre change.
   */
  function StampedCell(v: real, kernel: Grid, x: int, y: int, r: nat, k: real, i: int, j: int): (c: real)
    requires IsGrid(kernel, 2 * r + 1, 2 * r + 1)
    ensures v <= c
    ensures !(Near(i, y, r) && Near(j, x, r)) ==> c == v
    ensures Near(i, y, r) && Near(j, x, r) ==> c == v || c == k * kernel[i - y + r][j - x + r]
    ensures Near(i, y, r) && Near(j, x, r) ==> k * kernel[i - y + r][j - x + r] <= c
  {
    if Near(i, y, r) && Near(j, x, r) then Max(v, k * kernel[i - y + r][j - x + r]) else v
  }

  /** The canvas after one stamp: every cell updated as `StampedCell` says. */
  function Stamp(g: Grid, kernel: Grid, x: int, y: int, r: nat, k: real): (s: Grid)
    requires IsGrid(kernel, 2 * r + 1, 2 * r + 1)
    ensures |s| == |g| && forall i :: 0 <= i < |g| ==> |s[i]| == |g[i]|
    ensures forall i, j :: 0 <= i < |g| && 0 <= j < |g[i]| ==> s[i][j] == StampedCell(g[i][j], kernel, x, y, r, k, i, j)
  {
    seq(|g|, i requires 0 <= i < |g| =>
      seq(|g[i]|, j requires 0 <= j < |g[i]| => StampedCell(g[i][j], kernel, x, y, r, k, i, j)))
  }

  /**
   * The canvas slice `[lo:hi]` and the kernel slice `[klo:khi]` that
   * `draw_gaussian` takes on one axis, as Python normalises them.
   */
  datatype Window = Window(lo: nat, hi: nat, klo: nat, khi: nat)
  {
    predicate NonEmpty() { lo < hi && klo < khi }
  }

  /**
   * One axis of the clipping in `draw_gaussian`: `before` is `left`/`top`,
   * `after` is `right`/`bottom`; both slices are then taken with Python's
   * slicing rules, under which a negative stop counts back from the end.
   */
  function AxisWindow(c: int, size: nat, r: nat): (w: Window)
    ensures w.hi <= size && w.khi <= 2 * r + 1
    ensures w.NonEmpty() ==> w.khi - w.klo == w.hi - w.lo
  {
    var before := Min(c, r);
    var after := Min(size - c, r + 1);
    Window(SliceBound(c - before, size), SliceBound(c + after, size),
           SliceBound(r - before, 2 * r + 1), SliceBound(r + after, 2 * r + 1))
  }

  /**
   * The two slices on one axis are both non-empty exactly when some canvas
   * position lies within `r` of the centre, and then the canvas slice is
   * exactly those positions and the kernel slice is the same positions
   * shifted by `r - c`. In particular the two slices never differ in length,
   * so the element-wise maximum never fails, and when the centre is more
   * than `r` outside the canvas one of them is empty.
   */
  lemma AxisWindowExact(c: int, size: nat, r: nat)
    ensures AxisWindow(c, size, r).NonEmpty() <==> (0 < size && c - r < size && 0 <= c + r)
    ensures AxisWindow(c, size, r).NonEmpty() ==>
      var w := AxisWindow(c, size, r);
      && w.lo == (if c - r < 0 then 0 else c - r)
      && w.hi == (if size < c + r + 1 then size else c + r + 1)
      && w.klo + c == w.lo + r
      && w.khi + c == w.hi + r
  {
    var w := AxisWindow(c, size, r);
    if c < 0 {
      if c + r + 1 <= 0 {
        assert w.klo == 2 * r + 1;
      }
    } else if c >= size {
      if c - r >= size {
        assert w.lo == size;
      }
    }
  }

  /**
   * On one axis, a canvas position lies in the window's canvas slice exactly
   * when it is within `r` of the centre, and the kernel slice then takes the
   * kernel cell at the same offset from the kernel's centre.
   */
  lemma WindowIsNear(c: int, size: nat, r: nat, p: int)
    requires 0 <= p < size
    ensures (AxisWindow(c, size, r).NonEmpty() && AxisWindow(c, size, r).lo <= p < AxisWindow(c, size, r).hi) <==> Near(p, c, r)
    ensures AxisWindow(c, size, r).NonEmpty() ==>
      AxisWindow(c, size, r).klo + (p - AxisWindow(c, size, r).lo) == p - c + r
  {
    AxisWindowExact(c, size, r);
  }

  /**
   * `np.maximum(row_slice, k * kernel_row_slice, out=row_slice)` on row `i`
   * of the canvas: columns `lo .. hi-1` take the larger of their value and
   * `k` times the kernel cell in row `ki`, column `klo + (b - lo)`; every
   * other cell is left alone.
   */
  method MaxIntoRow(heatmap: array2<real>, kernel: array2<real>, i: nat, ki: nat, lo: nat, hi: nat, klo: nat, k: real)
    requires kernel != heatmap
    requires i < heatmap.Length0 && lo <= hi <= heatmap.Length1
    requires ki < kernel.Length0 && klo + (hi - lo) <= kernel.Length1
    modifies heatmap
    ensures forall a, b :: 0 <= a < heatmap.Length0 && 0 <= b < heatmap.Length1 ==>
      heatmap[a, b] == if a == i && lo <= b < hi then Max(old(heatmap[a, b]), k * Cells(kernel)[ki][klo + (b - lo)])
                       else old(heatmap[a, b])
  {
    var j := lo;
    while j < hi
      invariant lo <= j <= hi
      invariant forall a, b :: 0 <= a < heatmap.Length0 && 0 <= b < heatmap.Length1 ==>
        heatmap[a, b] == if a == i && lo <= b < j then Max(old(heatmap[a, b]), k * kernel[ki, klo + (b - lo)])
                         else old(heatmap[a, b])
    {
      heatmap[i, j] := Max(heatmap[i, j], k * kernel[ki, klo + (j - lo)]);
      j := j + 1;
    }
  }

  /**
   * The element-wise maximum of `draw_gaussian` on grids: the cells of the
   * canvas slice `[rows.lo:rows.hi, cols.lo:cols.hi]` take the larger of
   * their value and `k` times the kernel cell at the same place in the
   * kernel slice starting at `(rows.klo, cols.klo)`.
   */
  function WindowMax(g: Grid, height: nat, width: nat, kernel: Grid, rows: Window, cols: Window, k: real): (s: Grid)
    requires IsGrid(g, height, width) && rows.hi <= height && cols.hi <= width
    requires rows.lo <= rows.hi && cols.lo <= cols.hi
    requires rows.klo + (rows.hi - rows.lo) <= |kernel|
    requires forall i :: 0 <= i < |kernel| ==> cols.klo + (cols.hi - cols.lo) <= |kernel[i]|
    ensures IsGrid(s, height, width)
    ensures forall a, b :: 0 <= a < height && 0 <= b < width ==> s[a][b] == WindowCell(g[a][b], kernel, rows, cols, k, a, b)
  {
    seq(height, a requires 0 <= a < height =>
      seq(width, b requires 0 <= b < width => WindowCell(g[a][b], kernel, rows, cols, k, a, b)))
  }

  /** One cell of `WindowMax`. */
  function WindowCell(v: real, kernel: Grid, rows: Window, cols: Window, k: real, a: int, b: int): real
    requires rows.klo + (rows.hi - rows.lo) <= |kernel|
    requires forall i :: 0 <= i < |kernel| ==> cols.klo + (cols.hi - cols.lo) <= |kernel[i]|
  {
    if rows.lo <= a < rows.hi && cols.lo <= b < cols.hi
    then Max(v, k * kernel[rows.klo + (a - rows.lo)][cols.klo + (b - cols.lo)])
    else v
  }

  /**
   * `np.maximum(masked_heatmap, masked_gaussian * k, out=masked_heatmap)`:
   * the canvas slice is max-combined in place with the kernel slice.
   */
  method MaxIntoWindow(heatmap: array2<real>, kernel: array2<real>, rows: Window, cols: Window, k: real)
    requires kernel != heatmap
    requires rows.lo <= rows.hi <= heatmap.Length0 && cols.lo <= cols.hi <= heatmap.Length1
    requires rows.klo + (rows.hi - rows.lo) <= kernel.Length0 && cols.klo + (cols.hi - cols.lo) <= kernel.Length1
    modifies heatmap
    ensures Cells(heatmap) == WindowMax(old(Cells(heatmap)), heatmap.Length0, heatmap.Length1, Cells(kernel), rows, cols, k)
  {
    ghost var before := Cells(heatmap);
    ghost var kg := Cells(kernel);
    var i := rows.lo;
    while i < rows.hi
      invariant rows.lo <= i <= rows.hi
      invariant forall a, b :: 0 <= a < heatmap.Length0 && 0 <= b < heatmap.Length1 ==>
        heatmap[a, b] == WindowCell(before[a][b], kg, rows.(hi := i), cols, k, a, b)
    {
      MaxIntoRow(heatmap, kernel, i, rows.klo + (i - rows.lo), cols.lo, cols.hi, cols.klo, k);
      i := i + 1;
    }
    assert rows.(hi := i) == rows;
    CellsAre(heatmap, WindowMax(before, heatmap.Length0, heatmap.Length1, kg, rows, cols, k));
  }

  /**
   * With both windows non-empty, max-combining the two slices is exactly
   * one `Stamp` around the centre.
   */
  lemma WindowMaxIsStamp(g: Grid, height: nat, width: nat, kernel: Grid, x: int, y: int, r: nat, k: real)
    requires IsGrid(g, height, width) && IsGrid(kernel, 2 * r + 1, 2 * r + 1)
    requires AxisWindow(y, height, r).NonEmpty() && AxisWindow(x, width, r).NonEmpty()
    ensures WindowMax(g, height, width, kernel, AxisWindow(y, height, r), AxisWindow(x, width, r), k) == Stamp(g, kernel, x, y, r, k)
  {
    AxisWindowExact(y, height, r);
    AxisWindowExact(x, width, r);
    var w := WindowMax(g, height, width, kernel, AxisWindow(y, height, r), AxisWindow(x, width, r), k);
    var s := Stamp(g, kernel, x, y, r, k);
    forall a | 0 <= a < height
      ensures w[a] == s[a]
    {
      forall b | 0 <= b < width
        ensures w[a][b] == s[a][b]
      {
        WindowCellIsStamped(g[a][b], height, width, kernel, x, y, r, k, a, b);
      }
    }
  }

  /** A cell inside the canvas is max-combined by the windows exactly as `StampedCell` says. */
  lemma WindowCellIsStamped(v: real, height: nat, width: nat, kernel: Grid, x: int, y: int, r: nat, k: real, a: nat, b: nat)
    requires IsGrid(kernel, 2 * r + 1, 2 * r + 1)
    requires AxisWindow(y, height, r).NonEmpty() && AxisWindow(x, width, r).NonEmpty()
    requires a < height && b < width
    ensures WindowCell(v, kernel, AxisWindow(y, height, r), AxisWindow(x, width, r), k, a, b)
         == StampedCell(v, kernel, x, y, r, k, a, b)
  {
    WindowIsNear(y, height, r, a);
    WindowIsNear(x, width, r, b);
  }

  /**
   * `draw_gaussian(heatmap, (cx, cy), r, k)` with its kernel given: the centre
   * is rounded, both axes are clipped as in `AxisWindow`, and the matching
   * cells are max-combined in place unless a slice is empty. The result is
   * exactly one `Stamp` of the old canvas; the kernel is left alone.
   */
  method DrawGaussian(heatmap: array2<real>, kernel: array2<real>, cx: real, cy: real, r: nat, k: real)
    requires kernel.Length0 == 2 * r + 1 && kernel.Length1 == 2 * r + 1
    requires kernel != heatmap
    modifies heatmap
    ensures Cells(heatmap) == Stamp(old(Cells(heatmap)), Cells(kernel), RoundHalfEven(cx), RoundHalfEven(cy), r, k)
  {
    var x, y := RoundHalfEven(cx), RoundHalfEven(cy);
    var rows := AxisWindow(y, heatmap.Length0, r);
    var cols := AxisWindow(x, heatmap.Length1, r);
    AxisWindowExact(y, heatmap.Length0, r);
    AxisWindowExact(x, heatmap.Length1, r);
    if rows.NonEmpty() && cols.NonEmpty() {
      ghost var before := Cells(heatmap);
      MaxIntoWindow(heatmap, kernel, rows, cols, k);
      WindowMaxIsStamp(before, heatmap.Length0, heatmap.Length1, Cells(kernel), x, y, r, k);
    } else {
      StampOffCanvas(Cells(heatmap), heatmap.Length0, heatmap.Length1, Cells(kernel), x, y, r, k);
    }
  }

  /** A 2D array whose cells agree with a grid of its shape has that grid as its `Cells`. */
  lemma CellsAre(a: array2<real>, g: Grid)
    requires IsGrid(g, a.Length0, a.Length1)
    requires forall i, j :: 0 <= i < a.Length0 && 0 <= j < a.Length1 ==> a[i, j] == g[i][j]
    ensures Cells(a) == g
  {
    var c := Cells(a);
    forall i | 0 <= i < a.Length0
      ensures c[i] == g[i]
    {
    }
  }

  /** Stamping the same centre, radius and amplitude twice is the same as stamping once. */
  lemma StampIdempotent(g: Grid, kernel: Grid, x: int, y: int, r: nat, k: real)
    requires IsGrid(kernel, 2 * r + 1, 2 * r + 1)
    ensures Stamp(Stamp(g, kernel, x, y, r, k), kernel, x, y, r, k) == Stamp(g, kernel, x, y, r, k)
  {
    var once := Stamp(g, kernel, x, y, r, k);
    var twice := Stamp(once, kernel, x, y, r, k);
    forall i | 0 <= i < |g|
      ensures twice[i] == once[i]
    {
    }
  }

  /**
   * Two stamps commute: the order in which keypoints are drawn onto one
   * channel does not matter.
   */
  lemma StampCommutes(g: Grid, kernel: Grid, x1: int, y1: int, x2: int, y2: int, r: nat, k: real)
    requires IsGrid(kernel, 2 * r + 1, 2 * r + 1)
    ensures Stamp(Stamp(g, kernel, x1, y1, r, k), kernel, x2, y2, r, k)
         == Stamp(Stamp(g, kernel, x2, y2, r, k), kernel, x1, y1, r, k)
  {
    var a := Stamp(Stamp(g, kernel, x1, y1, r, k), kernel, x2, y2, r, k);
    var b := Stamp(Stamp(g, kernel, x2, y2, r, k), kernel, x1, y1, r, k);
    forall i | 0 <= i < |g|
      ensures a[i] == b[i]
    {
    }
  }

  /**
   * A centre more than `r` outside the canvas on either axis leaves a
   * `height`×`width` canvas unchanged.
   */
  lemma StampOffCanvas(g: Grid, height: nat, width: nat, kernel: Grid, x: int, y: int, r: nat, k: real)
    requires IsGrid(g, height, width)
    requires IsGrid(kernel, 2 * r + 1, 2 * r + 1)
    requires !(0 < height && y - r < height && 0 <= y + r) || !(0 < width && x - r < width && 0 <= x + r)
    ensures Stamp(g, kernel, x, y, r, k) == g
  {
    var s := Stamp(g, kernel, x, y, r, k);
    forall i | 0 <= i < |g|
      ensures s[i] == g[i]
    {
    }
  }
}
