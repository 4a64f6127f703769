/** The perception step of the rover (code/perception_v2.py): per-pixel
    thresholds, the image-to-rover frame shift, cropping and projection of
    rover-frame pixels onto the world grid, the tilt-gated world-map update
    and the confirmation of rock samples against the known catalog.

    The OpenCV calls (perspective warp, HSV range mask) and the trigonometry
    (rotation, polar coordinates) are inputs: their results are parameters. */
module Perception {
  import opened RoverState

  datatype Rgb = Rgb(r: int, g: int, b: int)
  type Image = seq<seq<Rgb>>
  /** A single-channel image (a binary mask or a product of masks). */
  type Mask = seq<seq<int>>

  /** A world-map cell: column x, row y. */
  datatype Cell = Cell(x: int, y: int)
  /** An image pixel: row, then column. */
  datatype Pixel = Pixel(row: int, col: int)
  /** Distance and angle of a rover-frame pixel. */
  datatype Polar = Polar(dist: real, angle: real)

  /** The default threshold of color_thresh and obstacle_thresh. */
  const GroundThresh: Rgb := Rgb(160, 160, 160)
  /** The threshold rocks_thresh applies to its colour-masked image. */
  const RockThresh: Rgb := Rgb(5, 5, 5)
  /** World units per map cell. */
  const Scale: real := 10.0
  /** Forward cut-offs of the cropped pixel sets. */
  const NavCrop: real := 20.0
  const ObstacleCrop: real := 20.0
  const RockCrop: real := 30.0

  // ---------------------------------------------------------------------
  // Thresholds

  /** All three channels strictly above their thresholds. */
  predicate Above(p: Rgb, t: Rgb) {
    p.r > t.r && p.g > t.g && p.b > t.b
  }

  predicate SameShape(img: Image, m: Mask) {
    |img| == |m| && forall i :: 0 <= i < |img| ==> |img[i]| == |m[i]|
  }

  /** color_thresh: 1 exactly where the pixel is above the threshold in
      every channel, 0 elsewhere, at the image's size. */
  function ColorThresh(img: Image, t: Rgb): (m: Mask)
    ensures SameShape(img, m)
    ensures forall i, j :: 0 <= i < |m| && 0 <= j < |m[i]| ==>
      (m[i][j] == 0 || m[i][j] == 1) && (m[i][j] == 1 <==> Above(img[i][j], t))
  {
    seq(|img|, i requires 0 <= i < |img| =>
      seq(|img[i]|, j requires 0 <= j < |img[i]| => if Above(img[i][j], t) then 1 else 0))
  }

  /** obstacle_thresh: the complement of the ground threshold, restricted
      to the warp's field of view `mask`. */
  function ObstacleThresh(img: Image, mask: Mask, t: Rgb): (o: Mask)
    requires SameShape(img, mask)
    ensures SameShape(img, o)
    ensures forall i, j :: 0 <= i < |o| && 0 <= j < |o[i]| ==>
      (Above(img[i][j], t) ==> o[i][j] == 0) && (!Above(img[i][j], t) ==> o[i][j] == mask[i][j])
  {
    seq(|img|, i requires 0 <= i < |img| =>
      seq(|img[i]|, j requires 0 <= j < |img[i]| => (if Above(img[i][j], t) then 0 else 1) * mask[i][j]))
  }

  /** Navigable and obstacle masks never mark the same pixel, obstacles lie
      inside the field of view, and together the two cover it. */
  lemma GroundAndObstacleSplitView(img: Image, mask: Mask, t: Rgb)
    requires SameShape(img, mask)
    ensures var nav, obs := ColorThresh(img, t), ObstacleThresh(img, mask, t);
      forall i, j :: 0 <= i < |img| && 0 <= j < |img[i]| ==>
        && (nav[i][j] == 1 ==> obs[i][j] == 0)
        && (mask[i][j] == 0 ==> obs[i][j] == 0)
        && (nav[i][j] == 0 ==> obs[i][j] == mask[i][j])
  {
  }

  // ---------------------------------------------------------------------
  // Image frame to rover frame

  /** Every row has the length of the first: an image or a mask with a
      well-defined shape. */
  predicate Rectangular<T>(m: seq<seq<T>>) {
    forall i :: 0 <= i < |m| ==> |m[i]| == |m[0]|
  }

  /** Number of columns (shape[1]). */
  function Width(m: Mask): int {
    if |m| == 0 then 0 else |m[0]|
  }

  /** Pixel p comes before q in row-major order. */
  predicate Before(p: Pixel, q: Pixel) {
    p.row < q.row || (p.row == q.row && p.col < q.col)
  }

  /** The nonzero entries of one image row from column `from` on, left to
      right. */
  function RowNonzero(line: seq<int>, row: int, from: nat): (ps: seq<Pixel>)
    requires from <= |line|
    ensures forall k :: 0 <= k < |ps| ==> ps[k].row == row && from <= ps[k].col < |line| && line[ps[k].col] != 0
    ensures forall j :: from <= j < |line| && line[j] != 0 ==> Pixel(row, j) in ps
    ensures forall k, l :: 0 <= k < l < |ps| ==> ps[k].col < ps[l].col
    decreases |line| - from
  {
    if from == |line| then []
    else (if line[from] != 0 then [Pixel(row, from)] else []) + RowNonzero(line, row, from + 1)
  }

  /** The nonzero pixels of the rows from `from` on, in row-major order. */
  function NonzeroFrom(m: Mask, from: nat): (ps: seq<Pixel>)
    requires from <= |m|
    ensures forall k :: 0 <= k < |ps| ==>
      from <= ps[k].row < |m| && 0 <= ps[k].col < |m[ps[k].row]| && m[ps[k].row][ps[k].col] != 0
    decreases |m| - from
  {
    if from == |m| then []
    else RowNonzero(m[from], from, 0) + NonzeroFrom(m, from + 1)
  }

  lemma {:induction false} NonzeroFromComplete(m: Mask, from: nat)
    requires from <= |m|
    ensures forall i, j :: from <= i < |m| && 0 <= j < |m[i]| && m[i][j] != 0 ==> Pixel(i, j) in NonzeroFrom(m, from)
    decreases |m| - from
  {
    if from < |m| {
      NonzeroFromComplete(m, from + 1);
    }
  }

  lemma {:induction false} NonzeroFromOrdered(m: Mask, from: nat)
    requires from <= |m|
    ensures forall k, l :: 0 <= k < l < |NonzeroFrom(m, from)| ==> Before(NonzeroFrom(m, from)[k], NonzeroFrom(m, from)[l])
    decreases |m| - from
  {
    if from < |m| {
      NonzeroFromOrdered(m, from + 1);
      var first := RowNonzero(m[from], from, 0);
      var rest := NonzeroFrom(m, from + 1);
      var ps := first + rest;
      assert ps == NonzeroFrom(m, from);
      forall k, l | 0 <= k < l < |ps|
        ensures Before(ps[k], ps[l])
      {
        if l < |first| {
          assert ps[k] == first[k] && ps[l] == first[l];
        } else if |first| <= k {
          assert ps[k] == rest[k - |first|] && ps[l] == rest[l - |first|];
        } else {
          assert ps[k] == first[k] && ps[l] == rest[l - |first|];
        }
      }
    }
  }

  /** ndarray.nonzero(): every nonzero pixel exactly once, in row-major
      order. */
  function Nonzero(m: Mask): (ps: seq<Pixel>)
    ensures forall k :: 0 <= k < |ps| ==>
      0 <= ps[k].row < |m| && 0 <= ps[k].col < |m[ps[k].row]| && m[ps[k].row][ps[k].col] != 0
    ensures forall i, j :: 0 <= i < |m| && 0 <= j < |m[i]| && m[i][j] != 0 ==> Pixel(i, j) in ps
    ensures forall k, l :: 0 <= k < l < |ps| ==> Before(ps[k], ps[l])
  {
    NonzeroFromComplete(m, 0);
    NonzeroFromOrdered(m, 0);
    NonzeroFrom(m, 0)
  }

  /** rover_coords: one rover-frame point per nonzero pixel, in row-major
      order, with the rover at the bottom centre of the image; x points
      forward (up the image), y to the left. */
  function RoverCoords(m: Mask): (pts: seq<Point>)
    requires Rectangular(m)
    ensures |pts| == |Nonzero(m)|
    ensures forall k :: 0 <= k < |pts| ==>
      && |m| as real - pts[k].x == Nonzero(m)[k].row as real
      && Width(m) as real / 2.0 - pts[k].y == Nonzero(m)[k].col as real
    ensures forall k :: 0 <= k < |pts| ==> 1.0 <= pts[k].x <= |m| as real
  {
    var ps := Nonzero(m);
    seq(|ps|, k requires 0 <= k < |ps| => Point((|m| - ps[k].row) as real, Width(m) as real / 2.0 - ps[k].col as real))
  }

  /** The image pixel a rover-frame point came from. */
  function ImagePixel(m: Mask, p: Point): Pixel {
    Pixel((|m| as real - p.x).Floor, (Width(m) as real / 2.0 - p.y).Floor)
  }

  /** The frame shift loses nothing: every point maps back to its pixel, so
      distinct pixels give distinct points. */
  lemma RoverCoordsInvertible(m: Mask)
    requires Rectangular(m)
    ensures var pts, ps := RoverCoords(m), Nonzero(m);
      forall k :: 0 <= k < |pts| ==> ImagePixel(m, pts[k]) == ps[k]
  {
  }

  // ---------------------------------------------------------------------
  // Filters

  /** The elements of s that satisfy keep, in their original order. */
  function Filter<T>(s: seq<T>, keep: T -> bool): (r: seq<T>)
    ensures |r| <= |s|
  {
    if s == [] then []
    else
      var n := |s| - 1;
      Filter(s[..n], keep) + (if keep(s[n]) then [s[n]] else [])
  }

  /** The filter holds exactly the elements of s that satisfy keep. */
  lemma {:induction false} FilterMembers<T>(s: seq<T>, keep: T -> bool)
    ensures forall k :: 0 <= k < |Filter(s, keep)| ==> Filter(s, keep)[k] in s && keep(Filter(s, keep)[k])
    ensures forall k :: 0 <= k < |s| && keep(s[k]) ==> s[k] in Filter(s, keep)
  {
    if s != [] {
      var n := |s| - 1;
      FilterMembers(s[..n], keep);
      var r := Filter(s, keep);
      var front := Filter(s[..n], keep);
      assert r == front + (if keep(s[n]) then [s[n]] else []);
      forall k | 0 <= k < |r|
        ensures r[k] in s && keep(r[k])
      {
        if k < |front| {
          assert r[k] == front[k];
        } else {
          assert r[k] == s[n];
        }
      }
      forall k | 0 <= k < |s| && keep(s[k])
        ensures s[k] in r
      {
        if k < n {
          assert s[k] == s[..n][k];
          assert s[k] in front;
        } else {
          assert r[|r| - 1] == s[k];
        }
      }
    }
  }

  /** Filtering distributes over concatenation, so it keeps the original
      order. */
  lemma {:induction false} FilterAppend<T>(a: seq<T>, b: seq<T>, keep: T -> bool)
    ensures Filter(a + b, keep) == Filter(a, keep) + Filter(b, keep)
  {
    if b == [] {
      assert a + b == a;
    } else {
      var n := |b| - 1;
      FilterAppend(a, b[..n], keep);
      assert (a + b)[..|a + b| - 1] == a + b[..n];
      assert (a + b)[|a + b| - 1] == b[n];
    }
  }

  /** One more element of a prefix adds at most that element to the filter. */
  lemma FilterPrefixStep<T>(s: seq<T>, i: int, keep: T -> bool)
    requires 0 <= i < |s|
    ensures Filter(s[..i + 1], keep) == Filter(s[..i], keep) + (if keep(s[i]) then [s[i]] else [])
  {
    assert s[..i + 1][..i] == s[..i];
  }

  /** crop_xy: the points lying less than crop_value ahead of the rover. x and
      y travel together, so the two outputs stay paired. */
  function CropXY(pts: seq<Point>, cropValue: real): (r: seq<Point>)
    ensures forall k :: 0 <= k < |r| ==> r[k] in pts && r[k].x < cropValue
    ensures forall k :: 0 <= k < |pts| && pts[k].x < cropValue ==> pts[k] in r
  {
    var keep := (p: Point) => p.x < cropValue;
    FilterMembers(pts, keep);
    Filter(pts, keep)
  }

  /** Cropping keeps order and cropping twice is cropping once. */
  lemma CropXYKeepsOrder(a: seq<Point>, b: seq<Point>, cropValue: real)
    ensures CropXY(a + b, cropValue) == CropXY(a, cropValue) + CropXY(b, cropValue)
    ensures CropXY(CropXY(a, cropValue), cropValue) == CropXY(a, cropValue)
  {
    FilterAppend(a, b, (p: Point) => p.x < cropValue);
    FilterAllKept(CropXY(a, cropValue), (p: Point) => p.x < cropValue);
  }

  lemma {:induction false} FilterAllKept<T>(s: seq<T>, keep: T -> bool)
    requires forall k :: 0 <= k < |s| ==> keep(s[k])
    ensures Filter(s, keep) == s
  {
    if s != [] {
      var n := |s| - 1;
      FilterAllKept(s[..n], keep);
    }
  }

  // ---------------------------------------------------------------------
  // Rover frame to world grid

  /** translate_pix: scale down to world units and shift by the rover position. */
  function TranslatePix(p: Point, xpos: real, ypos: real, scale: real): (t: Point)
    requires scale != 0.0
    ensures (t.x - xpos) * scale == p.x && (t.y - ypos) * scale == p.y
  {
    Point(p.x / scale + xpos, p.y / scale + ypos)
  }

  /** np.int_: truncation toward zero. */
  function Trunc(v: real): (n: int)
    ensures 0.0 <= v ==> n as real <= v < n as real + 1.0
    ensures v < 0.0 ==> n as real - 1.0 < v <= n as real
  {
    if v >= 0.0 then v.Floor else -((-v).Floor)
  }

  /** np.clip of an index into [0, size - 1]. */
  function ClipIndex(n: int, size: int): (i: int)
    requires size >= 1
    ensures 0 <= i < size
    ensures 0 <= n < size ==> i == n
    ensures n < 0 ==> i == 0
    ensures size <= n ==> i == size - 1
  {
    if n < 0 then 0 else if size - 1 < n then size - 1 else n
  }

  /** The grid index of one world coordinate: truncated, then clipped. */
  function WorldIndex(v: real, size: int): (i: int)
    requires size >= 1
    ensures 0 <= i < size
    ensures 0 <= Trunc(v) < size ==> i == Trunc(v)
    ensures Trunc(v) < 0 ==> i == 0
    ensures size <= Trunc(v) ==> i == size - 1
  {
    ClipIndex(Trunc(v), size)
  }

  /** After clipping, truncation and floor give the same index. */
  lemma ClippedTruncIsClippedFloor(v: real, size: int)
    requires size >= 1
    ensures WorldIndex(v, size) == ClipIndex(v.Floor, size)
  {
    if v < 0.0 {
      assert Trunc(v) <= 0 && v.Floor < 0;
    }
  }

  /** pix_to_world: rotate by the yaw (abstract), translate, and truncate and
      clip onto the grid. Every cell lies on the grid: it is the truncated
      projection whenever that is on the grid, and the nearer edge otherwise. */
  function PixToWorld(pts: seq<Point>, xpos: real, ypos: real, yaw: real, size: int, scale: real,
                      rotate: (Point, real) -> Point): (cells: seq<Cell>)
    requires size >= 1 && scale != 0.0
    ensures |cells| == |pts|
    ensures OnGrid(cells, size)
    ensures forall k :: 0 <= k < |cells| ==>
      var t := TranslatePix(rotate(pts[k], yaw), xpos, ypos, scale);
      && (0 <= Trunc(t.x) < size ==> cells[k].x == Trunc(t.x)) && (0 <= Trunc(t.y) < size ==> cells[k].y == Trunc(t.y))
      && (Trunc(t.x) < 0 ==> cells[k].x == 0) && (Trunc(t.y) < 0 ==> cells[k].y == 0)
      && (size <= Trunc(t.x) ==> cells[k].x == size - 1) && (size <= Trunc(t.y) ==> cells[k].y == size - 1)
  {
    var cells := seq(|pts|, k requires 0 <= k < |pts| => GridCell(TranslatePix(rotate(pts[k], yaw), xpos, ypos, scale), size));
    assert forall k :: 0 <= k < |cells| ==> cells[k] == GridCell(TranslatePix(rotate(pts[k], yaw), xpos, ypos, scale), size);
    cells
  }

  predicate OnGrid(cells: seq<Cell>, size: int) {
    forall k :: 0 <= k < |cells| ==> 0 <= cells[k].x < size && 0 <= cells[k].y < size
  }

  function GridCell(t: Point, size: int): (c: Cell)
    requires size >= 1
    ensures 0 <= c.x < size && 0 <= c.y < size
  {
    Cell(WorldIndex(t.x, size), WorldIndex(t.y, size))
  }

  /** The world cells hit by the nonzero pixels of one mask: cropped,
      projected and clipped, in the order numpy produces them. */
  function ProjectMask(m: Mask, cropValue: real, pos: Point, yaw: real, rotate: (Point, real) -> Point): (cells: seq<Cell>)
    requires Rectangular(m)
    ensures OnGrid(cells, WorldSize)
  {
    PixToWorld(CropXY(RoverCoords(m), cropValue), pos.x, pos.y, yaw, WorldSize, Scale, rotate)
  }

  // ---------------------------------------------------------------------
  // Rock sample confirmation

  /** samples_diff: the catalog entries whose x coordinate appears in no
      row of the detected array (unwritten rows included), in catalog order. */
  function SamplesDiff(catalog: seq<Point>, detected: seq<Point>): (r: seq<Point>)
    ensures forall k :: 0 <= k < |r| ==> r[k] in catalog && forall d :: d in detected ==> d.x != r[k].x
    ensures forall k :: 0 <= k < |catalog| && (forall d :: d in detected ==> d.x != catalog[k].x) ==> catalog[k] in r
  {
    var keep := (p: Point) => forall d :: d in detected ==> d.x != p.x;
    FilterMembers(catalog, keep);
    Filter(catalog, keep)
  }

  /** samples_diff keeps catalog order and lists each entry once: it
      distributes over concatenation, and a single entry is kept exactly when
      no detected row shares its x. */
  lemma SamplesDiffKeepsOrder(a: seq<Point>, b: seq<Point>, p: Point, detected: seq<Point>)
    ensures SamplesDiff(a + b, detected) == SamplesDiff(a, detected) + SamplesDiff(b, detected)
    ensures SamplesDiff([p], detected) == if (forall d :: d in detected ==> d.x != p.x) then [p] else []
  {
    var keep := (q: Point) => forall d :: d in detected ==> d.x != q.x;
    FilterAppend(a, b, keep);
    assert [p][..0] == [];
  }

  function SqDist(p: Point, c: Cell): real {
    (p.x - c.x as real) * (p.x - c.x as real) + (p.y - c.y as real) * (p.y - c.y as real)
  }

  /** The smallest squared distance from p to a hit cell. */
  function MinSqDist(p: Point, hits: seq<Cell>): (d: real)
    requires hits != []
    ensures forall k :: 0 <= k < |hits| ==> d <= SqDist(p, hits[k])
    ensures exists k :: 0 <= k < |hits| && d == SqDist(p, hits[k])
  {
    var n := |hits| - 1;
    if n == 0 then SqDist(p, hits[0])
    else
      var rest := MinSqDist(p, hits[..n]);
      if SqDist(p, hits[n]) < rest then SqDist(p, hits[n]) else rest
  }

  /** The test of update_rocks, sqrt(min distance) < 3, read on squared
      distances: some hit cell lies closer than 3 cells. */
  lemma MinWithinThreeIffSomeHitNear(p: Point, hits: seq<Cell>)
    requires hits != []
    ensures MinSqDist(p, hits) < 9.0 <==> exists k :: 0 <= k < |hits| && SqDist(p, hits[k]) < 9.0
  {
  }

  /** The cells of the rock channel with a nonzero count. */
  ghost function RockHits(m: array3<int>): set<Cell>
    requires m.Length2 == MapChannels
    reads m
  {
    set r, c | 0 <= r < m.Length0 && 0 <= c < m.Length1 && m[r, c, 1] != 0 :: Cell(c, r)
  }

  predicate NearRock(p: Point, hits: set<Cell>) {
    exists h :: h in hits && SqDist(p, h) < 9.0
  }

  /** rock_world_pos[0].any(): some hit lies off row 0. */
  predicate HasRowHit(hits: set<Cell>) {
    exists h :: h in hits && h.y != 0
  }

  /** The detected-sample array and the located count. */
  datatype Record = Record(detected: seq<Point>, located: int)

  /** The catalog entries one call of update_rocks confirms. */
  function Confirmed(catalog: seq<Point>, detected: seq<Point>, hits: set<Cell>): (found: seq<Point>)
    ensures forall k :: 0 <= k < |found| ==> found[k] in SamplesDiff(catalog, detected) && NearRock(found[k], hits)
    ensures !HasRowHit(hits) ==> found == []
    ensures HasRowHit(hits) ==> forall p :: p in SamplesDiff(catalog, detected) && NearRock(p, hits) ==> p in found
  {
    if HasRowHit(hits) then
      var keep := (p: Point) => NearRock(p, hits);
      FilterMembers(SamplesDiff(catalog, detected), keep);
      Filter(SamplesDiff(catalog, detected), keep)
    else []
  }

  /** One call confirms candidates in catalog order, each at most once: the
      confirmation distributes over concatenation (ConfirmedOfOne gives the
      single entry). */
  lemma ConfirmedKeepsOrder(a: seq<Point>, b: seq<Point>, detected: seq<Point>, hits: set<Cell>)
    ensures Confirmed(a + b, detected, hits) == Confirmed(a, detected, hits) + Confirmed(b, detected, hits)
  {
    if HasRowHit(hits) {
      var keep := (q: Point) => NearRock(q, hits);
      var sa, sb := SamplesDiff(a, detected), SamplesDiff(b, detected);
      SamplesDiffKeepsOrder(a, b, Point(0.0, 0.0), detected);
      FilterAppend(sa, sb, keep);
    }
  }

  /** A single entry is confirmed exactly when some hit lies off row 0, the
      entry is undetected and a hit lies within 3 of it. */
  lemma ConfirmedOfOne(p: Point, detected: seq<Point>, hits: set<Cell>)
    ensures Confirmed([p], detected, hits)
      == if HasRowHit(hits) && (forall d :: d in detected ==> d.x != p.x) && NearRock(p, hits) then [p] else []
  {
    SamplesDiffKeepsOrder([], [], p, detected);
    assert [p][..0] == [];
  }

  /** The row update_rocks writes: it is the count at the start of the call,
      so a call that confirms several entries keeps only the last one. */
  predicate RecordWritable(catalog: seq<Point>, rec: Record, hits: set<Cell>) {
    0 <= rec.located && (Confirmed(catalog, rec.detected, hits) != [] ==> rec.located < |rec.detected|)
  }

  /** update_rocks as written: every match goes to the same row, and the
      count grows by the number of matches. */
  function ConfirmRocks(catalog: seq<Point>, rec: Record, hits: set<Cell>): (r: Record)
    requires RecordWritable(catalog, rec, hits)
    ensures |r.detected| == |rec.detected|
    ensures r.located == rec.located + |Confirmed(catalog, rec.detected, hits)|
    ensures forall k :: 0 <= k < |rec.detected| && k != rec.located ==> r.detected[k] == rec.detected[k]
    ensures Confirmed(catalog, rec.detected, hits) == [] ==> r == rec
    ensures var found := Confirmed(catalog, rec.detected, hits);
      found != [] ==> r.detected[rec.located] == found[|found| - 1]
  {
    var found := Confirmed(catalog, rec.detected, hits);
    if found == [] then rec
    else Record(rec.detected[rec.located := found[|found| - 1]], rec.located + |found|)
  }

  /** The located count never decreases, and without a rock hit off row 0
      nothing changes. */
  lemma ConfirmRocksMonotone(catalog: seq<Point>, rec: Record, hits: set<Cell>)
    requires RecordWritable(catalog, rec, hits)
    ensures ConfirmRocks(catalog, rec, hits).located >= rec.located
    ensures !HasRowHit(hits) ==> ConfirmRocks(catalog, rec, hits) == rec
  {
  }

  /** The row update_rocks evidently meant: consecutive rows from the count
      on, one per confirmed entry. */
  function ConfirmRocksIntended(catalog: seq<Point>, rec: Record, hits: set<Cell>): (r: Record)
    requires IntendedWritable(catalog, rec, hits)
    ensures |r.detected| == |rec.detected|
    ensures r.located == rec.located + |Confirmed(catalog, rec.detected, hits)|
    ensures Placed(r.detected, rec.detected, rec.located, Confirmed(catalog, rec.detected, hits))
  {
    var found := Confirmed(catalog, rec.detected, hits);
    var detected := rec.detected[..rec.located] + found + rec.detected[rec.located + |found|..];
    assert forall k :: 0 <= k < |detected| ==>
      detected[k] == if rec.located <= k < rec.located + |found| then found[k - rec.located] else rec.detected[k];
    Record(detected, rec.located + |found|)
  }

  /** The rows the corrected update writes all exist. */
  predicate IntendedWritable(catalog: seq<Point>, rec: Record, hits: set<Cell>) {
    0 <= rec.located && rec.located + |Confirmed(catalog, rec.detected, hits)| <= |rec.detected|
  }

  /** `after` is `before` with `found` written over the rows from `start` on. */
  ghost predicate Placed(after: seq<Point>, before: seq<Point>, start: int, found: seq<Point>) {
    && |after| == |before|
    && forall k :: 0 <= k < |after| ==>
         after[k] == if start <= k < start + |found| then found[k - start] else before[k]
  }

  /** With consecutive rows, an entry confirmed once is never offered for
      confirmation again. */
  lemma IntendedConfirmsOnce(catalog: seq<Point>, rec: Record, hits: set<Cell>)
    requires IntendedWritable(catalog, rec, hits)
    ensures var found := Confirmed(catalog, rec.detected, hits);
      var after := ConfirmRocksIntended(catalog, rec, hits);
      forall k :: 0 <= k < |found| ==> found[k] !in SamplesDiff(catalog, after.detected)
  {
    var found := Confirmed(catalog, rec.detected, hits);
    var after := ConfirmRocksIntended(catalog, rec, hits);
    forall k | 0 <= k < |found|
      ensures found[k] !in SamplesDiff(catalog, after.detected)
    {
      assert after.detected[rec.located + k] == found[k];
    }
  }

  /** The two differ only when one call confirms several entries: with at
      most one, the code as written already does what was meant. */
  lemma AsWrittenAgreesOnOneConfirmation(catalog: seq<Point>, rec: Record, hits: set<Cell>)
    requires IntendedWritable(catalog, rec, hits)
    requires |Confirmed(catalog, rec.detected, hits)| <= 1
    ensures RecordWritable(catalog, rec, hits)
    ensures ConfirmRocks(catalog, rec, hits) == ConfirmRocksIntended(catalog, rec, hits)
  {
    var after := ConfirmRocksIntended(catalog, rec, hits);
    assert after.detected == ConfirmRocks(catalog, rec, hits).detected;
  }

  /** As written, two samples confirmed on the same tick share one row: the
      first is overwritten, offered again and counted a second time, so two
      catalog entries yield a located count of 3. */
  lemma AsWrittenCountsASampleTwice()
    ensures var first := ConfirmRocks(TwoRocks, Record(ThreeEmptyRows, 0), TwoRockHits);
      RecordWritable(TwoRocks, first, TwoRockHits) && ConfirmRocks(TwoRocks, first, TwoRockHits).located == 3
  {
    var first := ConfirmRocks(TwoRocks, Record(ThreeEmptyRows, 0), TwoRockHits);
    FirstTickKeepsSecondRock();
    assert first == Record([TwoRocks[1], Point(0.0, 0.0), Point(0.0, 0.0)], 2);
    SecondTickOffersFirstRockAgain();
  }

  /** Two catalog samples, each lying on a rock hit off row 0. */
  const TwoRocks: seq<Point> := [Point(10.0, 10.0), Point(20.0, 10.0)]
  const TwoRockHits: set<Cell> := {Cell(10, 10), Cell(20, 10)}
  const ThreeEmptyRows: seq<Point> := [Point(0.0, 0.0), Point(0.0, 0.0), Point(0.0, 0.0)]

  /** samples_diff on a two-entry catalog, entry by entry. */
  lemma SamplesDiffOfPair(a: Point, b: Point, detected: seq<Point>)
    ensures SamplesDiff([a, b], detected)
      == (if forall d :: d in detected ==> d.x != a.x then [a] else [])
       + (if forall d :: d in detected ==> d.x != b.x then [b] else [])
  {
    var keep := (p: Point) => forall d :: d in detected ==> d.x != p.x;
    assert [a, b][..1] == [a];
    assert [a][..0] == [];
    assert Filter([a], keep) == (if keep(a) then [a] else []);
  }

  /** First tick: both samples are confirmed, only the second is stored. */
  lemma FirstTickKeepsSecondRock()
    ensures ConfirmRocks(TwoRocks, Record(ThreeEmptyRows, 0), TwoRockHits)
      == Record([TwoRocks[1], Point(0.0, 0.0), Point(0.0, 0.0)], 2)
  {
    FirstTickConfirmsBoth();
    var r := ConfirmRocks(TwoRocks, Record(ThreeEmptyRows, 0), TwoRockHits);
    assert r.detected == ThreeEmptyRows[0 := TwoRocks[1]];
  }

  /** First tick: both catalog samples are confirmed, in catalog order. */
  lemma FirstTickConfirmsBoth()
    ensures Confirmed(TwoRocks, ThreeEmptyRows, TwoRockHits) == TwoRocks
  {
    assert HasRowHit(TwoRockHits) by { assert Cell(10, 10) in TwoRockHits; }
    assert NearRock(TwoRocks[0], TwoRockHits) by { assert SqDist(TwoRocks[0], Cell(10, 10)) == 0.0; }
    assert NearRock(TwoRocks[1], TwoRockHits) by { assert SqDist(TwoRocks[1], Cell(20, 10)) == 0.0; }
    SamplesDiffOfPair(TwoRocks[0], TwoRocks[1], ThreeEmptyRows);
    assert [TwoRocks[0], TwoRocks[1]] == TwoRocks;
    assert TwoRocks[..1] == [TwoRocks[0]];
    assert TwoRocks[..1][..0] == [];
  }

  /** Second tick: the overwritten first sample is confirmed once more. */
  lemma SecondTickOffersFirstRockAgain()
    ensures Confirmed(TwoRocks, [TwoRocks[1], Point(0.0, 0.0), Point(0.0, 0.0)], TwoRockHits) == [TwoRocks[0]]
  {
    var detected := [TwoRocks[1], Point(0.0, 0.0), Point(0.0, 0.0)];
    assert HasRowHit(TwoRockHits) by { assert Cell(10, 10) in TwoRockHits; }
    assert NearRock(TwoRocks[0], TwoRockHits) by { assert SqDist(TwoRocks[0], Cell(10, 10)) == 0.0; }
    SamplesDiffOfPair(TwoRocks[0], TwoRocks[1], detected);
    assert [TwoRocks[0], TwoRocks[1]] == TwoRocks;
    assert TwoRocks[1] in detected;
    assert SamplesDiff(TwoRocks, detected) == [TwoRocks[0]];
    assert [TwoRocks[0]][..0] == [];
  }

  // ---------------------------------------------------------------------
  // The steps on the rover object

  /** worldmap[:, :, 1].nonzero(): the rock-channel hits, as a sequence of
      cells. */
  method RockChannelHits(m: array3<int>) returns (hits: seq<Cell>)
    requires m.Length2 == MapChannels
    ensures forall k :: 0 <= k < |hits| ==> hits[k] in RockHits(m)
    ensures forall h :: h in RockHits(m) ==> h in hits
  {
    hits := [];
    var r := 0;
    while r < m.Length0
      invariant 0 <= r <= m.Length0
      invariant forall k :: 0 <= k < |hits| ==> hits[k] in RockHits(m) && hits[k].y < r
      invariant forall h :: h in RockHits(m) && h.y < r ==> h in hits
    {
      var c := 0;
      while c < m.Length1
        invariant 0 <= c <= m.Length1
        invariant forall k :: 0 <= k < |hits| ==> hits[k] in RockHits(m) && (hits[k].y < r || (hits[k].y == r && hits[k].x < c))
        invariant forall h :: h in RockHits(m) && (h.y < r || (h.y == r && h.x < c)) ==> h in hits
      {
        if m[r, c, 1] != 0 {
          hits := hits + [Cell(c, r)];
        }
        c := c + 1;
      }
      r := r + 1;
    }
  }

  /** With `hits` listing exactly the hit cells, the test on the nearest
      hit is the test on the set. */
  lemma NearestHitDecidesNearRock(p: Point, hits: seq<Cell>, hitSet: set<Cell>)
    requires hits != []
    requires forall k :: 0 <= k < |hits| ==> hits[k] in hitSet
    requires forall h :: h in hitSet ==> h in hits
    ensures MinSqDist(p, hits) < 9.0 <==> NearRock(p, hitSet)
  {
    MinWithinThreeIffSomeHitNear(p, hits);
  }

  /** One confirmation: the sample goes to the row the count names, and the
      count grows by one. */
  method RecordSample(rover: Rover, sample: Point)
    requires 0 <= rover.samplesLocated < rover.samplesPosDetected.Length
    modifies rover`samplesLocated, rover.samplesPosDetected
    ensures rover.samplesPosDetected[..] == old(rover.samplesPosDetected[..])[old(rover.samplesLocated) := sample]
    ensures rover.samplesLocated == old(rover.samplesLocated) + 1
  {
    rover.samplesPosDetected[rover.samplesLocated] := sample;
    rover.samplesLocated := rover.samplesLocated + 1;
  }

  /** One candidate of update_rocks: confirmed, and recorded, exactly when
      some rock hit lies closer than 3 cells. */
  method ScanOne(rover: Rover, test: Point, hits: seq<Cell>, ghost hitSet: set<Cell>) returns (hit: bool)
    requires hits != []
    requires forall k :: 0 <= k < |hits| ==> hits[k] in hitSet
    requires forall h :: h in hitSet ==> h in hits
    requires NearRock(test, hitSet) ==> 0 <= rover.samplesLocated < rover.samplesPosDetected.Length
    modifies rover`samplesLocated, rover.samplesPosDetected
    ensures hit == NearRock(test, hitSet)
    ensures hit ==> rover.samplesPosDetected[..] == old(rover.samplesPosDetected[..])[old(rover.samplesLocated) := test]
    ensures hit ==> rover.samplesLocated == old(rover.samplesLocated) + 1
    ensures !hit ==> rover.samplesPosDetected[..] == old(rover.samplesPosDetected[..])
    ensures !hit ==> rover.samplesLocated == old(rover.samplesLocated)
  {
    NearestHitDecidesNearRock(test, hits, hitSet);
    hit := MinSqDist(test, hits) < 9.0;
    if hit {
      RecordSample(rover, test);
    }
  }

  /** The loop of update_rocks: every candidate whose nearest rock hit is
      closer than 3 cells is written to the next free row, in candidate
      order, and counted. */
  method ScanCandidates(rover: Rover, todo: seq<Point>, hits: seq<Cell>, ghost hitSet: set<Cell>)
    requires hits != []
    requires forall k :: 0 <= k < |hits| ==> hits[k] in hitSet
    requires forall h :: h in hitSet ==> h in hits
    requires 0 <= rover.samplesLocated
    requires rover.samplesLocated + |Filter(todo, (p: Point) => NearRock(p, hitSet))| <= rover.samplesPosDetected.Length
    modifies rover`samplesLocated, rover.samplesPosDetected
    ensures var found := Filter(todo, (p: Point) => NearRock(p, hitSet));
      && rover.samplesLocated == old(rover.samplesLocated) + |found|
      && Placed(rover.samplesPosDetected[..], old(rover.samplesPosDetected[..]), old(rover.samplesLocated), found)
  {
    ghost var keep := (p: Point) => NearRock(p, hitSet);
    ghost var found := Filter(todo, keep);
    ghost var detected := rover.samplesPosDetected[..];
    ghost var start := rover.samplesLocated;
    ghost var sofar: seq<Point> := [];
    assert todo[..0] == [];
    for idx := 0 to |todo|
      invariant sofar == Filter(todo[..idx], keep)
      invariant rover.samplesLocated == start + |sofar|
      invariant Placed(rover.samplesPosDetected[..], detected, start, sofar)
    {
      FilterPrefixStep(todo, idx, keep);
      PrefixFilterFits(todo, idx + 1, keep);
      var hit := ScanOne(rover, todo[idx], hits, hitSet);
      if hit {
        sofar := sofar + [todo[idx]];
      }
    }
    assert todo[..|todo|] == todo;
  }

  /** A prefix keeps no more elements than the whole sequence. */
  lemma PrefixFilterFits<T>(s: seq<T>, i: int, keep: T -> bool)
    requires 0 <= i <= |s|
    ensures |Filter(s[..i], keep)| <= |Filter(s, keep)|
  {
    FilterAppend(s[..i], s[i..], keep);
    assert s[..i] + s[i..] == s;
  }

  /** update_rocks on the rover, with the row corrected (see ConfirmRocks):
      confirm catalog entries near rock hits of the current map and record
      each in the next free row. */
  method UpdateRocks(rover: Rover)
    requires rover.MapShaped()
    requires IntendedWritable(rover.samplesPos, Record(rover.samplesPosDetected[..], rover.samplesLocated), RockHits(rover.worldmap))
    modifies rover`samplesLocated, rover.samplesPosDetected
    ensures Record(rover.samplesPosDetected[..], rover.samplesLocated)
      == ConfirmRocksIntended(rover.samplesPos, old(Record(rover.samplesPosDetected[..], rover.samplesLocated)), RockHits(rover.worldmap))
  {
    var hits := RockChannelHits(rover.worldmap);
    ghost var hitSet := RockHits(rover.worldmap);
    var todo := SamplesDiff(rover.samplesPos, rover.samplesPosDetected[..]);
    ghost var rec0 := Record(rover.samplesPosDetected[..], rover.samplesLocated);
    if exists k :: 0 <= k < |hits| && hits[k].y != 0 {
      assert HasRowHit(hitSet);
      assert Filter(todo, (p: Point) => NearRock(p, hitSet)) == Confirmed(rover.samplesPos, rec0.detected, hitSet);
      ScanCandidates(rover, todo, hits, hitSet);
    } else {
      assert !HasRowHit(hitSet);
      assert Placed(rover.samplesPosDetected[..], rec0.detected, rec0.located, []);
    }
    assert RockHits(rover.worldmap) == hitSet;
    PlacedDeterminesRows(rover.samplesPosDetected[..], ConfirmRocksIntended(rover.samplesPos, rec0, hitSet).detected,
                         rec0.detected, rec0.located, Confirmed(rover.samplesPos, rec0.detected, hitSet));
  }

  /** Two results of writing the same rows over the same array are equal. */
  lemma PlacedDeterminesRows(a: seq<Point>, b: seq<Point>, before: seq<Point>, start: int, found: seq<Point>)
    requires Placed(a, before, start, found) && Placed(b, before, start, found)
    ensures a == b
  {
  }

  /** worldmap[ys, xs, channel] += 1 with numpy's buffered fancy indexing:
      all old values are gathered, incremented, then scattered, so each
      distinct cell gains exactly 1 however often it is listed. */
  method Accumulate(worldmap: array3<int>, cells: seq<Cell>, channel: int)
    requires 0 <= channel < worldmap.Length2
    requires forall k :: 0 <= k < |cells| ==> 0 <= cells[k].y < worldmap.Length0 && 0 <= cells[k].x < worldmap.Length1
    modifies worldmap
    ensures forall r, c, ch :: 0 <= r < worldmap.Length0 && 0 <= c < worldmap.Length1 && 0 <= ch < worldmap.Length2 ==>
      worldmap[r, c, ch] == old(worldmap[r, c, ch]) + (if ch == channel && Cell(c, r) in cells then 1 else 0)
  {
    var bumped := seq(|cells|, k requires 0 <= k < |cells| reads worldmap => worldmap[cells[k].y, cells[k].x, channel] + 1);
    for k := 0 to |cells|
      invariant forall r, c, ch :: 0 <= r < worldmap.Length0 && 0 <= c < worldmap.Length1 && 0 <= ch < worldmap.Length2 ==>
        worldmap[r, c, ch] == old(worldmap[r, c, ch]) + (if ch == channel && Cell(c, r) in cells[..k] then 1 else 0)
    {
      assert cells[..k + 1] == cells[..k] + [cells[k]];
      worldmap[cells[k].y, cells[k].x, channel] := bumped[k];
    }
    assert cells[..|cells|] == cells;
  }

  /** The cells each map channel gains this tick. */
  datatype Projection = Projection(obstacle: seq<Cell>, rock: seq<Cell>, navigable: seq<Cell>) {
    function Channel(ch: int): seq<Cell> {
      if ch == 0 then obstacle else if ch == 1 then rock else navigable
    }
  }

  /** The three cropped, projected pixel sets of perception_step: obstacles
      and ground up to 20 ahead, rocks up to 30. */
  function Project(ground: Mask, obstacle: Mask, rocks: Mask, pos: Point, yaw: real,
                   rotate: (Point, real) -> Point): (p: Projection)
    requires Rectangular(ground) && Rectangular(obstacle) && Rectangular(rocks)
    ensures OnGrid(p.obstacle, WorldSize) && OnGrid(p.rock, WorldSize) && OnGrid(p.navigable, WorldSize)
  {
    Projection(ProjectMask(obstacle, ObstacleCrop, pos, yaw, rotate),
               ProjectMask(rocks, RockCrop, pos, yaw, rotate),
               ProjectMask(ground, NavCrop, pos, yaw, rotate))
  }

  /** Count one frame into the map: each channel's cells gain 1, every
      other counter is unchanged. */
  method RecordFrame(worldmap: array3<int>, gained: Projection)
    requires worldmap.Length0 == WorldSize && worldmap.Length1 == WorldSize && worldmap.Length2 == MapChannels
    requires OnGrid(gained.obstacle, WorldSize) && OnGrid(gained.rock, WorldSize) && OnGrid(gained.navigable, WorldSize)
    modifies worldmap
    ensures forall r, c, ch :: 0 <= r < WorldSize && 0 <= c < WorldSize && 0 <= ch < MapChannels ==>
      worldmap[r, c, ch] == old(worldmap[r, c, ch]) + (if Cell(c, r) in gained.Channel(ch) then 1 else 0)
  {
    Accumulate(worldmap, gained.obstacle, 0);
    Accumulate(worldmap, gained.rock, 1);
    Accumulate(worldmap, gained.navigable, 2);
  }

  lemma ThreshKeepsRectangular(img: Image, t: Rgb)
    requires Rectangular(img)
    ensures Rectangular(ColorThresh(img, t))
  {
  }

  /** The polar form of the rover-frame ground pixels. */
  function NavPolar(pts: seq<Point>, toPolar: Point -> Polar): (dists_angles: (seq<real>, seq<real>))
    ensures |dists_angles.0| == |pts| && |dists_angles.1| == |pts|
    ensures forall k :: 0 <= k < |pts| ==> dists_angles.0[k] == toPolar(pts[k]).dist && dists_angles.1[k] == toPolar(pts[k]).angle
  {
    (seq(|pts|, k requires 0 <= k < |pts| => toPolar(pts[k]).dist),
     seq(|pts|, k requires 0 <= k < |pts| => toPolar(pts[k]).angle))
  }

  /** Whether the map may be updated: pitch and roll both within 2 degrees
      of level. */
  predicate Level(npitch: real, nroll: real) {
    Abs(npitch) < 2.0 && Abs(nroll) < 2.0
  }

  /** perception_step after the perspective warp: threshold, convert the
      ground pixels to polar form for the decision step, confirm rocks on the
      map as it stands, then, only when the rover is level, count this
      frame's projected pixels into the world map.

      `warped` and `view` are the warped camera image and field-of-view mask,
      `rockSelect` the image after the yellow HSV mask; `rotate` and
      `toPolar` are the rotation and polar conversion. */
  method PerceptionStep(rover: Rover, warped: Image, view: Mask, rockSelect: Image,
                        rotate: (Point, real) -> Point, toPolar: Point -> Polar)
    requires rover.MapShaped()
    requires Rectangular(warped) && SameShape(warped, view) && Rectangular(rockSelect)
    requires IntendedWritable(rover.samplesPos, Record(rover.samplesPosDetected[..], rover.samplesLocated), RockHits(rover.worldmap))
    modifies rover`navAngles, rover`navDists, rover`samplesLocated, rover.samplesPosDetected, rover.worldmap
    ensures var polar := NavPolar(RoverCoords(ColorThresh(warped, GroundThresh)), toPolar);
      rover.navDists == Some(polar.0) && rover.navAngles == Some(polar.1)
    ensures Record(rover.samplesPosDetected[..], rover.samplesLocated)
      == ConfirmRocksIntended(rover.samplesPos, old(Record(rover.samplesPosDetected[..], rover.samplesLocated)), old(RockHits(rover.worldmap)))
    ensures var gained := Project(ColorThresh(warped, GroundThresh), ObstacleThresh(warped, view, GroundThresh),
                                  ColorThresh(rockSelect, RockThresh), rover.pos, rover.yaw, rotate);
      forall r, c, ch :: 0 <= r < WorldSize && 0 <= c < WorldSize && 0 <= ch < MapChannels ==>
        rover.worldmap[r, c, ch] == old(rover.worldmap[r, c, ch])
          + (if Level(rover.npitch, rover.nroll) && Cell(c, r) in gained.Channel(ch) then 1 else 0)
  {
    var threshed := ColorThresh(warped, GroundThresh);
    var obsArea := ObstacleThresh(warped, view, GroundThresh);
    var rocksArea := ColorThresh(rockSelect, RockThresh);
    ThreshKeepsRectangular(warped, GroundThresh);
    ThreshKeepsRectangular(rockSelect, RockThresh);
    assert Rectangular(obsArea);
    var polar := NavPolar(RoverCoords(threshed), toPolar);
    rover.navDists := Some(polar.0);
    rover.navAngles := Some(polar.1);
    UpdateRocks(rover);
    MapFrame(rover, threshed, obsArea, rocksArea, rotate);
  }

  /** The level-gated world-map update of perception_step. */
  method MapFrame(rover: Rover, navigable: Mask, obstacle: Mask, rock: Mask, rotate: (Point, real) -> Point)
    requires rover.MapShaped()
    requires Rectangular(navigable) && Rectangular(obstacle) && Rectangular(rock)
    modifies rover.worldmap
    ensures var gained := Project(navigable, obstacle, rock, rover.pos, rover.yaw, rotate);
      forall r, c, ch :: 0 <= r < WorldSize && 0 <= c < WorldSize && 0 <= ch < MapChannels ==>
        rover.worldmap[r, c, ch] == old(rover.worldmap[r, c, ch])
          + (if Level(rover.npitch, rover.nroll) && Cell(c, r) in gained.Channel(ch) then 1 else 0)
  {
    if Level(rover.npitch, rover.nroll) {
      var gained := Project(navigable, obstacle, rock, rover.pos, rover.yaw, rotate);
      RecordFrame(rover.worldmap, gained);
    }
  }
}
