/**
 * Per-example target assembly of the keypoint datasets (`__getitem__` of the
 * single-slice and the multi-slice variant): a five-channel zero heatmap at
 * `1/stride` of the image size with one Gaussian stamp per surviving
 * keypoint on the channel of its level, and a five-entry keypoint list
 * holding the `(-1, -1)` sentinel for every level that has no keypoint.
 *
 * Image reading, resizing and stacking are not modelled: an image is
 * represented by its height and width. The augmentation transform is an
 * arbitrary function on a `Frame`, so it may move, drop or reorder
 * keypoints. The label of a keypoint is kept as the index the `_labels`
 * dictionary gives its level name, which is the level's position in the
 * fixed list L1/L2, L2/L3, L3/L4, L4/L5, L5/S1.
 */
module KeypointTargets {
  import opened PyOps
  import opened Gaussian
  import opened SliceSelect

  const LevelCount: nat := 5

  /** The index of an intervertebral level, L1/L2 = 0 through L5/S1 = 4. */
  type Level = l: nat | l < LevelCount

  datatype Point = Point(x: real, y: real)

  /** The coordinates that mark a level with no keypoint. */
  const Sentinel: Point := Point(-1.0, -1.0)

  datatype Labelled = Labelled(p: Point, level: Level)

  /** An image, by its shape, with the labelled keypoints that go with it. */
  datatype Frame = Frame(height: nat, width: nat, points: seq<Labelled>)

  /** The augmentation step: none, or an arbitrary transform of the frame. */
  function Augment(transform: Option<Frame -> Frame>, f: Frame): (g: Frame)
    ensures transform.None? ==> g == f
    ensures transform.Some? ==> g == transform.value(f)
  {
    match transform
    case None => f
    case Some(t) => t(f)
  }

  // ---------------------------------------------------------------------------
  // Radius and centres

  /**
   * `max(0, int(radius))`: the Gaussian radius truncated toward zero and
   * kept non-negative.
   */
  function Radius(radius: real): (r: nat)
    ensures radius < 1.0 ==> r == 0
    ensures 0.0 <= radius ==> r as real <= radius < r as real + 1.0
  {
    var t := TruncToInt(radius);
    if t < 0 then 0 else t
  }

  /** A stamp centre in heatmap cells. */
  datatype Centre = Centre(x: int, y: int)

  /**
   * The pixel a keypoint is drawn at: its coordinates divided by the stride
   * (true division) and rounded half to even, as `draw_gaussian` does.
   */
  function CentreOf(p: Point, stride: nat): (c: Centre)
    requires stride > 0
    ensures -0.5 <= p.x / stride as real - c.x as real <= 0.5
    ensures -0.5 <= p.y / stride as real - c.y as real <= 0.5
  {
    Centre(RoundHalfEven(p.x / stride as real), RoundHalfEven(p.y / stride as real))
  }

  /** The centres drawn onto channel `level`, in the order of the keypoints. */
  function Centres(points: seq<Labelled>, level: Level, stride: nat): (cs: seq<Centre>)
    requires stride > 0
    ensures cs == [] <==> forall i :: 0 <= i < |points| ==> points[i].level != level
    ensures |cs| <= |points|
  {
    if points == [] then []
    else
      var last := points[|points| - 1];
      var prefix := points[..|points| - 1];
      var before := Centres(prefix, level, stride);
      assert forall i :: 0 <= i < |prefix| ==> prefix[i] == points[i];
      before + if last.level == level then [CentreOf(last.p, stride)] else []
  }

  /** A canvas after `draw_gaussian` with amplitude 1 at each centre in turn. */
  function StampAll(g: Grid, centres: seq<Centre>, kernel: Grid, r: nat): (s: Grid)
    requires IsGrid(kernel, 2 * r + 1, 2 * r + 1)
    ensures |s| == |g| && forall i :: 0 <= i < |g| ==> |s[i]| == |g[i]|
  {
    if centres == [] then g
    else
      var c := centres[|centres| - 1];
      Stamp(StampAll(g, centres[..|centres| - 1], kernel, r), kernel, c.x, c.y, r, 1.0)
  }

  /** The channels of the heatmap target, as `__getitem__` leaves them. */
  function HeatmapChannel(f: Frame, stride: nat, kernel: Grid, r: nat, level: Level): Grid
    requires stride > 0 && IsGrid(kernel, 2 * r + 1, 2 * r + 1)
  {
    StampAll(ZeroGrid(f.height / stride, f.width / stride), Centres(f.points, level, stride), kernel, r)
  }

  /** A channel whose level has no surviving keypoint stays all zero. */
  lemma UnlabelledChannelIsZero(f: Frame, stride: nat, kernel: Grid, r: nat, level: Level)
    requires stride > 0 && IsGrid(kernel, 2 * r + 1, 2 * r + 1)
    requires forall i :: 0 <= i < |f.points| ==> f.points[i].level != level
    ensures HeatmapChannel(f, stride, kernel, r, level) == ZeroGrid(f.height / stride, f.width / stride)
  {
  }

  /**
   * With a kernel whose values lie in [0, 1], every cell of a canvas that
   * starts in [0, 1] stays in [0, 1] however many stamps are drawn.
   */
  lemma {:induction false} StampAllInUnitRange(g: Grid, centres: seq<Centre>, kernel: Grid, r: nat)
    requires IsGrid(kernel, 2 * r + 1, 2 * r + 1)
    requires forall i, j :: 0 <= i < 2 * r + 1 && 0 <= j < 2 * r + 1 ==> 0.0 <= kernel[i][j] <= 1.0
    requires forall i, j :: 0 <= i < |g| && 0 <= j < |g[i]| ==> 0.0 <= g[i][j] <= 1.0
    ensures forall i, j :: 0 <= i < |g| && 0 <= j < |g[i]| ==> 0.0 <= StampAll(g, centres, kernel, r)[i][j] <= 1.0
    decreases |centres|
  {
    if centres != [] {
      var c := centres[|centres| - 1];
      var prev := StampAll(g, centres[..|centres| - 1], kernel, r);
      StampAllInUnitRange(g, centres[..|centres| - 1], kernel, r);
      var s := Stamp(prev, kernel, c.x, c.y, r, 1.0);
      forall i, j | 0 <= i < |g| && 0 <= j < |g[i]|
        ensures 0.0 <= s[i][j] <= 1.0
      {
        assert s[i][j] == StampedCell(prev[i][j], kernel, c.x, c.y, r, 1.0, i, j);
        if Near(i, c.y, r) && Near(j, c.x, r) {
          assert 0.0 <= kernel[i - c.y + r][j - c.x + r] <= 1.0;
        }
      }
    }
  }

  /**
   * A single keypoint whose centre lies on the canvas, drawn with a
   * non-negative kernel that peaks at its own centre, puts the channel's
   * maximum at that centre, with the kernel's peak value.
   */
  lemma SinglePeak(height: nat, width: nat, c: Centre, kernel: Grid, r: nat)
    requires IsGrid(kernel, 2 * r + 1, 2 * r + 1)
    requires forall i, j :: 0 <= i < 2 * r + 1 && 0 <= j < 2 * r + 1 ==> 0.0 <= kernel[i][j] <= kernel[r][r]
    requires 0 <= c.y < height && 0 <= c.x < width
    ensures var s := StampAll(ZeroGrid(height, width), [c], kernel, r);
      && s[c.y][c.x] == kernel[r][r]
      && forall i, j :: 0 <= i < height && 0 <= j < width ==> s[i][j] <= s[c.y][c.x]
  {
    var z := ZeroGrid(height, width);
    assert [c][..0] == [];
    assert StampAll(z, [c][..0], kernel, r) == z;
    var s := StampAll(z, [c], kernel, r);
    assert s == Stamp(z, kernel, c.x, c.y, r, 1.0);
    assert s[c.y][c.x] == StampedCell(0.0, kernel, c.x, c.y, r, 1.0, c.y, c.x);
    forall i, j | 0 <= i < height && 0 <= j < width
      ensures s[i][j] <= kernel[r][r]
    {
      assert s[i][j] == StampedCell(0.0, kernel, c.x, c.y, r, 1.0, i, j);
    }
  }

  // ---------------------------------------------------------------------------
  // Keypoint list

  /** The position of the last keypoint of a level, if any survives. */
  function LastIndexOf(points: seq<Labelled>, level: Level): (r: Option<nat>)
    ensures r.None? <==> forall i :: 0 <= i < |points| ==> points[i].level != level
    ensures r.Some? ==> r.value < |points| && points[r.value].level == level
    ensures r.Some? ==> forall j :: r.value < j < |points| ==> points[j].level != level
  {
    if points == [] then None
    else if points[|points| - 1].level == level then Some(|points| - 1)
    else
      var prefix := points[..|points| - 1];
      assert forall i :: 0 <= i < |prefix| ==> prefix[i] == points[i];
      LastIndexOf(prefix, level)
  }

  /** The entry of the returned keypoint list for one level. */
  function KeypointEntry(points: seq<Labelled>, level: Level): Point
  {
    match LastIndexOf(points, level)
    case Some(i) => points[i].p
    case None => Sentinel
  }

  /**
   * The keypoint list `__getitem__` returns: five sentinels, each then
   * overwritten by the keypoints of its level in order, so that a level
   * ends with its last surviving keypoint or the sentinel.
   */
  method FillKeypoints(points: seq<Labelled>) returns (ret: seq<Point>)
    ensures |ret| == LevelCount
    ensures forall l: Level :: ret[l] == KeypointEntry(points, l)
    ensures forall l: Level :: (forall i :: 0 <= i < |points| ==> points[i].level != l) ==> ret[l] == Sentinel
  {
    ret := seq(LevelCount, _ => Sentinel);
    for n := 0 to |points|
      invariant |ret| == LevelCount
      invariant forall l: Level :: ret[l] == KeypointEntry(points[..n], l)
    {
      assert points[..n + 1][..n] == points[..n];
      ret := ret[points[n].level := points[n].p];
    }
    assert points[..|points|] == points;
  }

  // ---------------------------------------------------------------------------
  // Heatmap

  /** `np.zeros([5, height, width])`: five distinct zero channels. */
  method ZeroChannels(height: nat, width: nat) returns (heatmap: seq<array2<real>>)
    ensures |heatmap| == LevelCount
    ensures forall l :: 0 <= l < LevelCount ==> fresh(heatmap[l])
    ensures forall l, m :: 0 <= l < m < LevelCount ==> heatmap[l] != heatmap[m]
    ensures forall l :: 0 <= l < LevelCount ==> heatmap[l].Length0 == height && heatmap[l].Length1 == width
    ensures forall l :: 0 <= l < LevelCount ==> Cells(heatmap[l]) == ZeroGrid(height, width)
  {
    heatmap := [];
    while |heatmap| < LevelCount
      invariant |heatmap| <= LevelCount
      invariant forall l :: 0 <= l < |heatmap| ==> fresh(heatmap[l])
      invariant forall l, m :: 0 <= l < m < |heatmap| ==> heatmap[l] != heatmap[m]
      invariant forall l :: 0 <= l < |heatmap| ==> heatmap[l].Length0 == height && heatmap[l].Length1 == width
      invariant forall l :: 0 <= l < |heatmap| ==> Cells(heatmap[l]) == ZeroGrid(height, width)
    {
      var channel := new real[height, width]((i, j) => 0.0);
      CellsAre(channel, ZeroGrid(height, width));
      heatmap := heatmap + [channel];
    }
  }

  /** Drawing one more keypoint changes only the channel of its level. */
  lemma ChannelStep(points: seq<Labelled>, l: Level, stride: nat, kernel: Grid, r: nat, h: nat, w: nat)
    requires stride > 0 && |points| > 0 && IsGrid(kernel, 2 * r + 1, 2 * r + 1)
    ensures var last := points[|points| - 1];
      var prev := StampAll(ZeroGrid(h, w), Centres(points[..|points| - 1], l, stride), kernel, r);
      var c := CentreOf(last.p, stride);
      StampAll(ZeroGrid(h, w), Centres(points, l, stride), kernel, r)
        == if last.level == l then Stamp(prev, kernel, c.x, c.y, r, 1.0) else prev
  {
    var cs := Centres(points[..|points| - 1], l, stride);
    var last := points[|points| - 1];
    if last.level == l {
      var all := cs + [CentreOf(last.p, stride)];
      assert all[..|all| - 1] == cs;
    } else {
      assert Centres(points, l, stride) == cs;
    }
  }

  /** `ChannelStep` for the prefix of the first `n + 1` keypoints. */
  lemma ChannelStepAt(points: seq<Labelled>, n: nat, l: Level, stride: nat, kernel: Grid, r: nat, h: nat, w: nat)
    requires stride > 0 && n < |points| && IsGrid(kernel, 2 * r + 1, 2 * r + 1)
    ensures var prev := StampAll(ZeroGrid(h, w), Centres(points[..n], l, stride), kernel, r);
      var c := CentreOf(points[n].p, stride);
      StampAll(ZeroGrid(h, w), Centres(points[..n + 1], l, stride), kernel, r)
        == if points[n].level == l then Stamp(prev, kernel, c.x, c.y, r, 1.0) else prev
  {
    var upto := points[..n + 1];
    assert upto[..|upto| - 1] == points[..n];
    assert upto[|upto| - 1] == points[n];
    ChannelStep(upto, l, stride, kernel, r, h, w);
  }

  /**
   * One iteration of the keypoint loop: `draw_gaussian` with amplitude 1 on
   * the channel of the keypoint's level, at the keypoint scaled down by the
   * stride; the other channels are untouched.
   */
  method StampKeypoint(heatmap: seq<array2<real>>, kernel: array2<real>, kp: Labelled, stride: nat, r: nat)
    requires stride > 0 && |heatmap| == LevelCount
    requires kernel.Length0 == 2 * r + 1 && kernel.Length1 == 2 * r + 1
    requires forall l :: 0 <= l < LevelCount ==> heatmap[l] != kernel
    requires forall l, m :: 0 <= l < m < LevelCount ==> heatmap[l] != heatmap[m]
    modifies heatmap[kp.level]
    ensures Cells(heatmap[kp.level]) == Stamp(old(Cells(heatmap[kp.level])), Cells(kernel),
      CentreOf(kp.p, stride).x, CentreOf(kp.p, stride).y, r, 1.0)
    ensures forall l: Level :: l != kp.level ==> Cells(heatmap[l]) == old(Cells(heatmap[l]))
  {
    DrawGaussian(heatmap[kp.level], kernel, kp.p.x / stride as real, kp.p.y / stride as real, r, 1.0);
  }

  /**
   * The loop body of the keypoint loop, stated on the heatmap contents: after
   * drawing keypoint `n`, every channel holds the stamps of the first `n + 1`
   * keypoints of its level.
   */
  method DrawNext(heatmap: seq<array2<real>>, kernel: array2<real>, points: seq<Labelled>, n: nat,
                  stride: nat, r: nat, h: nat, w: nat)
    requires stride > 0 && |heatmap| == LevelCount && n < |points|
    requires kernel.Length0 == 2 * r + 1 && kernel.Length1 == 2 * r + 1
    requires forall l :: 0 <= l < LevelCount ==> heatmap[l] != kernel
    requires forall l, m :: 0 <= l < m < LevelCount ==> heatmap[l] != heatmap[m]
    requires forall l: Level :: Cells(heatmap[l]) == StampAll(ZeroGrid(h, w), Centres(points[..n], l, stride), Cells(kernel), r)
    modifies heatmap[points[n].level]
    ensures forall l: Level :: Cells(heatmap[l]) == StampAll(ZeroGrid(h, w), Centres(points[..n + 1], l, stride), Cells(kernel), r)
  {
    ghost var kg := Cells(kernel);
    StampKeypoint(heatmap, kernel, points[n], stride, r);
    forall l: Level
      ensures Cells(heatmap[l]) == StampAll(ZeroGrid(h, w), Centres(points[..n + 1], l, stride), kg, r)
    {
      ChannelStepAt(points, n, l, stride, kg, r, h, w);
    }
  }

  /**
   * The heatmap part of `__getitem__`: five zero channels of
   * `(height // stride) × (width // stride)`, then one `draw_gaussian` per
   * keypoint on the channel of its level, in order.
   */
  method BuildHeatmap(f: Frame, stride: nat, kernel: array2<real>, r: nat) returns (heatmap: seq<array2<real>>)
    requires stride > 0
    requires kernel.Length0 == 2 * r + 1 && kernel.Length1 == 2 * r + 1
    ensures |heatmap| == LevelCount
    ensures forall l :: 0 <= l < LevelCount ==> fresh(heatmap[l])
    ensures forall l, m :: 0 <= l < m < LevelCount ==> heatmap[l] != heatmap[m]
    ensures forall l :: 0 <= l < LevelCount ==>
      heatmap[l].Length0 == f.height / stride && heatmap[l].Length1 == f.width / stride
    ensures forall l: Level :: Cells(heatmap[l]) == HeatmapChannel(f, stride, Cells(kernel), r, l)
  {
    var h, w := f.height / stride, f.width / stride;
    heatmap := ZeroChannels(h, w);
    ghost var kg := Cells(kernel);
    for n := 0 to |f.points|
      invariant forall l :: 0 <= l < LevelCount ==> fresh(heatmap[l]) && heatmap[l] != kernel
      invariant Cells(kernel) == kg
      invariant forall l: Level :: Cells(heatmap[l]) == StampAll(ZeroGrid(h, w), Centres(f.points[..n], l, stride), kg, r)
    {
      DrawNext(heatmap, kernel, f.points, n, stride, r, h, w);
    }
    assert f.points[..|f.points|] == f.points;
  }

  // ---------------------------------------------------------------------------
  // Items

  /** What one item holds apart from the image pixels. */
  datatype Example = Example(heatmap: seq<array2<real>>, keypoints: seq<Point>)

  /**
   * The keypoints of the single-slice dataset before augmentation: one per
   * level, in level order, each coordinate rounded with `round`.
   */
  function FrameV1(height: nat, width: nat, coords: seq<Point>): (f: Frame)
    requires |coords| == LevelCount
    ensures |f.points| == LevelCount
    ensures forall l: Level :: f.points[l].level == l
    ensures f.height == height && f.width == width
    ensures forall l: Level ::
      && -0.5 <= coords[l].x - f.points[l].p.x <= 0.5 && f.points[l].p.x == f.points[l].p.x.Floor as real
      && -0.5 <= coords[l].y - f.points[l].p.y <= 0.5 && f.points[l].p.y == f.points[l].p.y.Floor as real
  {
    Frame(height, width, seq(LevelCount, l requires 0 <= l < LevelCount =>
      Labelled(Point(RoundHalfEven(coords[l].x) as real, RoundHalfEven(coords[l].y) as real), l)))
  }

  /**
   * `RSNA2024KeypointDatasetTrainV1.__getitem__` for one row: the absolute
   * keypoint coordinates are rounded, the frame is augmented, and the
   * heatmap and keypoint list are built from what the augmentation kept.
   */
  method GetItemV1(stride: nat, radius: real, kernel: array2<real>, height: nat, width: nat,
                   coords: seq<Point>, transform: Option<Frame -> Frame>) returns (e: Example)
    requires stride > 0 && |coords| == LevelCount
    requires kernel.Length0 == 2 * Radius(radius) + 1 && kernel.Length1 == 2 * Radius(radius) + 1
    ensures var f := Augment(transform, FrameV1(height, width, coords));
      && |e.heatmap| == LevelCount
      && (forall l :: 0 <= l < LevelCount ==> fresh(e.heatmap[l]))
      && (forall l :: 0 <= l < LevelCount ==>
            e.heatmap[l].Length0 == f.height / stride && e.heatmap[l].Length1 == f.width / stride)
      && (forall l: Level :: Cells(e.heatmap[l]) == HeatmapChannel(f, stride, Cells(kernel), Radius(radius), l))
      && |e.keypoints| == LevelCount
      && (forall l: Level :: e.keypoints[l] == KeypointEntry(f.points, l))
  {
    var f := Augment(transform, FrameV1(height, width, coords));
    var r := Radius(radius);
    var heatmap := BuildHeatmap(f, stride, kernel, r);
    var keypoints := FillKeypoints(f.points);
    e := Example(heatmap, keypoints);
  }

  /** The side of the square every slice is resized to before stacking. */
  const SliceSide: nat := 512

  /**
   * The keypoints of the multi-slice dataset before augmentation:
   * normalised coordinates scaled by the width and height of the stacked
   * slices.
   */
  function FrameV2(norm: seq<Point>): (f: Frame)
    requires |norm| == LevelCount
    ensures f.height == SliceSide && f.width == SliceSide && |f.points| == LevelCount
    ensures forall l: Level :: f.points[l].level == l
  {
    Frame(SliceSide, SliceSide, seq(LevelCount, l requires 0 <= l < LevelCount =>
      Labelled(Point(norm[l].x * SliceSide as real, norm[l].y * SliceSide as real), l)))
  }

  datatype ItemError =
    | BaseSliceError(search: SearchError)
    | SliceSelectionError(select: SelectError)

  /** One item of the multi-slice dataset: the stems of its slices besides the targets. */
  datatype ExampleV2 = ExampleV2(slices: seq<string>, targets: Example)

  /**
   * `RSNA2024KeypointDatasetTrainV2.__getitem__` for one row: the base slice
   * is found among the sorted stems, `num_slices` neighbours are selected
   * around it, and the targets are built as in the single-slice variant
   * from the normalised keypoints scaled to the stacked slices.
   */
  method GetItemV2(cfg: SliceConfig, stride: nat, radius: real, kernel: array2<real>,
                   stems: seq<string>, instance: int, norm: seq<Point>,
                   transform: Option<Frame -> Frame>) returns (r: Result<ExampleV2, ItemError>)
    requires cfg.numSlices % 2 == 1
    requires stride > 0 && |norm| == LevelCount
    requires kernel.Length0 == 2 * Radius(radius) + 1 && kernel.Length1 == 2 * Radius(radius) + 1
    ensures r.Err? <==> (forall j :: 0 <= j < |stems| ==> !FirstMatch(stems, instance, j)) || cfg.numSlices < 0
    ensures r.Ok? ==> exists base: nat ::
      && base < |stems|
      && (cfg.useCenter ==> base == |stems| / 2)
      && (!cfg.useCenter ==> FirstMatch(stems, instance, base))
      && SelectNElements(stems, cfg.numSlices, base) == Ok(r.value.slices)
    ensures r.Ok? ==> var f := Augment(transform, FrameV2(norm)); var e := r.value.targets;
      && |e.heatmap| == LevelCount
      && (forall l :: 0 <= l < LevelCount ==> fresh(e.heatmap[l]))
      && (forall l :: 0 <= l < LevelCount ==>
            e.heatmap[l].Length0 == f.height / stride && e.heatmap[l].Length1 == f.width / stride)
      && (forall l: Level :: Cells(e.heatmap[l]) == HeatmapChannel(f, stride, Cells(kernel), Radius(radius), l))
      && |e.keypoints| == LevelCount
      && (forall l: Level :: e.keypoints[l] == KeypointEntry(f.points, l))
  {
    var base := ResolveBaseIndex(stems, instance, cfg.useCenter);
    if base.Err? {
      return Err(BaseSliceError(base.error));
    }
    var slices := SelectNElements(stems, cfg.numSlices, base.value);
    if slices.Err? {
      return Err(SliceSelectionError(slices.error));
    }
    var f := Augment(transform, FrameV2(norm));
    var rad := Radius(radius);
    var heatmap := BuildHeatmap(f, stride, kernel, rad);
    var keypoints := FillKeypoints(f.points);
    r := Ok(ExampleV2(slices.value, Example(heatmap, keypoints)));
  }
}
