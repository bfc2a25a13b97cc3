/** The map geometry used for occlusion: polylines for walls, windows and doors stored as one
    shared coordinate buffer plus lists of segment starts, and the line-of-sight test that
    asks whether a wall, a window or a closed door lies between two players. */
module ShipGeometry {
  import opened JsNumber

  /** A vertex of the map description. The description's points are assumed to carry both
      coordinates. */
  datatype Point = Point(x: real, y: real)

  /** The decoded map description `parse` receives. */
  datatype ShipJson = ShipJson(
    walls: seq<seq<Point>>,
    windows: seq<seq<Point>>,
    doors: seq<seq<Point>>,
    cameras: seq<seq<real>>)

  /** A parsed ship: the coordinate buffer (x, y pairs), the segment starts of the walls and of
      the windows, one list of segment starts per door, and the camera positions. A segment
      start v names the segment from (points[v], points[v+1]) to (points[v+2], points[v+3]). */
  datatype Ship = Ship(
    points: seq<real>,
    walls: seq<int>,
    windows: seq<int>,
    doors: seq<seq<int>>,
    cameras: seq<seq<real>>)

  // ---------------------------------------------------------------------------------------
  // Parsing
  // ---------------------------------------------------------------------------------------

  /** The coordinates of a path, pushed point by point as x then y. */
  function Coords(path: seq<Point>): (c: seq<real>)
    ensures |c| == 2 * |path|
    decreases |path|
  {
    if path == [] then [] else Coords(path[..|path| - 1]) + [path[|path| - 1].x, path[|path| - 1].y]
  }

  /** The coordinates of all paths, in order. */
  function AllCoords(paths: seq<seq<Point>>): seq<real>
    decreases |paths|
  {
    if paths == [] then [] else AllCoords(paths[..|paths| - 1]) + Coords(paths[|paths| - 1])
  }

  /** The running index before each of n points, starting at index. */
  function Starts(n: nat, index: int): seq<int> {
    seq(n, k => index + 2 * k)
  }

  /** The values `parse` accumulates: the coordinate buffer, the current list of segment
      starts, and the running index. */
  datatype Buffers = Buffers(points: seq<real>, lines: seq<int>, index: int)

  /** The inner loop over one path: push x and y, push the index, advance it by two. */
  function PushPath(b: Buffers, path: seq<Point>): Buffers {
    Buffers(b.points + Coords(path), b.lines + Starts(|path|, b.index), b.index + 2 * |path|)
  }

  /** `Array.prototype.pop` on a list of indices: drops the last one; on an empty list it
      does nothing. */
  function Pop(s: seq<int>): (r: seq<int>)
    ensures |s| > 0 ==> r == s[..|s| - 1]
    ensures |s| == 0 ==> r == []
  {
    if |s| == 0 then s else s[..|s| - 1]
  }

  /** One iteration of the outer loop: the path's points, then the pop that discards the start
      pushed for its last vertex. */
  function AddPath(b: Buffers, path: seq<Point>): Buffers {
    var p := PushPath(b, path);
    p.(lines := Pop(p.lines))
  }

  /** The outer loop over a list of paths. */
  function AddPaths(b: Buffers, paths: seq<seq<Point>>): Buffers
    decreases |paths|
  {
    if paths == [] then b else AddPath(AddPaths(b, paths[..|paths| - 1]), paths[|paths| - 1])
  }

  /** `Uint16Array.from`: each index is stored modulo 2^16. */
  function U16s(s: seq<int>): (r: seq<int>)
    ensures |r| == |s|
    ensures forall i :: 0 <= i < |s| ==> 0 <= r[i] < 0x1_0000 && r[i] % 0x1_0000 == s[i] % 0x1_0000
  {
    seq(|s|, i requires 0 <= i < |s| => s[i] % 0x1_0000)
  }

  /** The loop over door paths: every door collects its own starts in a new list, popped and
      stored as its own 16-bit array. The buffers' own list of starts is left alone. */
  function AddDoors(b: Buffers, paths: seq<seq<Point>>): (r: (Buffers, seq<seq<int>>))
    ensures |r.1| == |paths|
    decreases |paths|
  {
    if paths == [] then (b, [])
    else
      var before := AddDoors(b, paths[..|paths| - 1]);
      var d := AddPath(Buffers(before.0.points, [], before.0.index), paths[|paths| - 1]);
      (Buffers(d.points, before.0.lines, d.index), before.1 + [U16s(d.lines)])
  }

  /** `cam.slice(0, 2)`. */
  function CameraPrefix(cam: seq<real>): (c: seq<real>)
    ensures |c| == if |cam| < 2 then |cam| else 2
    ensures c <= cam
  {
    if |cam| <= 2 then cam else cam[..2]
  }

  /** The cameras, each cut to its first two coordinates, in input order. */
  function Cameras(cams: seq<seq<real>>): (r: seq<seq<real>>)
    ensures |r| == |cams|
    ensures forall i :: 0 <= i < |cams| ==> r[i] <= cams[i] && |r[i]| <= 2
  {
    seq(|cams|, i requires 0 <= i < |cams| => CameraPrefix(cams[i]))
  }

  /** What `Ship.parse` builds: walls, then windows, then doors share one coordinate buffer
      and one running index. */
  function ParseSpec(json: ShipJson): Ship {
    var w := AddPaths(Buffers([], [], 0), json.walls);
    var n := AddPaths(Buffers(w.points, [], w.index), json.windows);
    var d := AddDoors(Buffers(n.points, [], n.index), json.doors);
    Ship(d.0.points, U16s(w.lines), U16s(n.lines), d.1, Cameras(json.cameras))
  }

  /** The map with no geometry. */
  function EmptyShip(): Ship {
    ParseSpec(ShipJson([], [], [], []))
  }

  lemma CoordsStep(path: seq<Point>, k: nat)
    requires k < |path|
    ensures Coords(path[..k + 1]) == Coords(path[..k]) + [path[k].x, path[k].y]
  {
    assert path[..k + 1][..k] == path[..k];
  }

  lemma StartsStep(k: nat, index: int)
    ensures Starts(k + 1, index) == Starts(k, index) + [index + 2 * k]
  {
  }

  /** The inner loop of `parse` over one path. */
  method PushPoints(points: seq<real>, lines: seq<int>, index: int, path: seq<Point>)
    returns (points': seq<real>, lines': seq<int>, index': int)
    ensures Buffers(points', lines', index') == PushPath(Buffers(points, lines, index), path)
  {
    points', lines', index' := points, lines, index;
    for k := 0 to |path|
      invariant Buffers(points', lines', index') == PushPath(Buffers(points, lines, index), path[..k])
    {
      var x := path[k].x;
      var y := path[k].y;
      CoordsStep(path, k);
      StartsStep(k, index);
      points' := points' + [x];
      points' := points' + [y];
      lines' := lines' + [index'];
      index' := index' + 2;
    }
    assert path[..|path|] == path;
  }

  lemma AddPathsStep(b: Buffers, paths: seq<seq<Point>>, p: nat)
    requires p < |paths|
    ensures AddPaths(b, paths[..p + 1]) == AddPath(AddPaths(b, paths[..p]), paths[p])
  {
    assert paths[..p + 1][..p] == paths[..p];
  }

  lemma AddDoorsStep(b: Buffers, paths: seq<seq<Point>>, p: nat)
    requires p < |paths|
    ensures var before := AddDoors(b, paths[..p]);
      var d := AddPath(Buffers(before.0.points, [], before.0.index), paths[p]);
      AddDoors(b, paths[..p + 1]) == (Buffers(d.points, before.0.lines, d.index), before.1 + [U16s(d.lines)])
  {
    assert paths[..p + 1][..p] == paths[..p];
  }

  /** The loop of `parse` over the walls or over the windows: the points of every path are
      pushed, and after each path the list is popped. */
  method PushPaths(points: seq<real>, index: int, paths: seq<seq<Point>>)
    returns (points': seq<real>, lines: seq<int>, index': int)
    ensures Buffers(points', lines, index') == AddPaths(Buffers(points, [], index), paths)
  {
    points', lines, index' := points, [], index;
    for p := 0 to |paths|
      invariant Buffers(points', lines, index') == AddPaths(Buffers(points, [], index), paths[..p])
    {
      AddPathsStep(Buffers(points, [], index), paths, p);
      points', lines, index' := PushPoints(points', lines, index', paths[p]);
      if |lines| > 0 {
        lines := lines[..|lines| - 1];
      }
    }
    assert paths[..|paths|] == paths;
  }

  /** The loop of `parse` over the doors: every door's starts go to a list of its own. */
  method PushDoors(points: seq<real>, index: int, paths: seq<seq<Point>>)
    returns (points': seq<real>, doors: seq<seq<int>>, index': int)
    ensures (Buffers(points', [], index'), doors) == AddDoors(Buffers(points, [], index), paths)
  {
    points', doors, index' := points, [], index;
    for p := 0 to |paths|
      invariant (Buffers(points', [], index'), doors) == AddDoors(Buffers(points, [], index), paths[..p])
    {
      AddDoorsStep(Buffers(points, [], index), paths, p);
      var doorLines: seq<int> := [];
      points', doorLines, index' := PushPoints(points', doorLines, index', paths[p]);
      if |doorLines| > 0 {
        doorLines := doorLines[..|doorLines| - 1];
      }
      doors := doors + [U16s(doorLines)];
    }
    assert paths[..|paths|] == paths;
  }

  /** The camera loop of `parse`. */
  method CopyCameras(cams: seq<seq<real>>) returns (cameras: seq<seq<real>>)
    ensures cameras == Cameras(cams)
  {
    cameras := [];
    for c := 0 to |cams|
      invariant cameras == Cameras(cams[..c])
    {
      cameras := cameras + [CameraPrefix(cams[c])];
    }
    assert cams[..|cams|] == cams;
  }

  /** `Ship.parse`: walls, windows and doors in turn, sharing the buffer and the running
      index, then the cameras. */
  method Parse(json: ShipJson) returns (ship: Ship)
    ensures ship == ParseSpec(json)
  {
    var points, lines, index := PushPaths([], 0, json.walls);
    var windows;
    points, windows, index := PushPaths(points, index, json.windows);
    var doors;
    points, doors, index := PushDoors(points, index, json.doors);
    var cameras := CopyCameras(json.cameras);
    ship := Ship(points, U16s(lines), U16s(windows), doors, cameras);
  }

  // ---------------------------------------------------------------------------------------
  // Properties of parse
  // ---------------------------------------------------------------------------------------

  /** Vertex k of a path sits at offsets 2k and 2k + 1 of its coordinates. */
  lemma {:induction false} CoordsAt(path: seq<Point>, k: nat)
    requires k < |path|
    ensures Coords(path)[2 * k] == path[k].x && Coords(path)[2 * k + 1] == path[k].y
    decreases |path|
  {
    if k < |path| - 1 {
      CoordsAt(path[..|path| - 1], k);
      assert path[..|path| - 1][k] == path[k];
    }
  }

  /** The running index is the length of the coordinate buffer: every start is the buffer
      offset of its vertex, twice the vertex's global position. */
  predicate Aligned(b: Buffers) {
    b.index == |b.points|
  }

  /** Every segment start v has its four coordinates inside the buffer. */
  predicate Covered(points: seq<real>, lines: seq<int>) {
    forall j :: 0 <= j < |lines| ==> 0 <= lines[j] && lines[j] + 3 < |points|
  }

  /** The four coordinates at offset 2k of a path's coordinates are vertices k and k + 1. */
  lemma SegmentCoords(path: seq<Point>, k: nat)
    requires k + 1 < |path|
    ensures Coords(path)[2 * k .. 2 * k + 4] == [path[k].x, path[k].y, path[k + 1].x, path[k + 1].y]
  {
    CoordsAt(path, k);
    CoordsAt(path, k + 1);
  }

  /** Popping after the pushes of a nonempty path drops the start of its last vertex. */
  lemma PopAfterPush(lines: seq<int>, n: nat, index: int)
    requires n >= 1
    ensures Pop(lines + Starts(n, index)) == lines + Starts(n - 1, index)
  {
    assert (lines + Starts(n, index))[..|lines| + n - 1] == lines + Starts(n - 1, index);
  }

  /** The segment at the k-th start a path adds runs from its vertex k to its vertex k + 1. */
  lemma SegmentInBuffer(b: Buffers, path: seq<Point>, k: nat)
    requires Aligned(b) && k + 1 < |path|
    ensures var points := AddPath(b, path).points;
      points[b.index + 2 * k .. b.index + 2 * k + 4] == [path[k].x, path[k].y, path[k + 1].x, path[k + 1].y]
  {
    var points := AddPath(b, path).points;
    var c := Coords(path);
    assert points == b.points + c;
    SegmentCoords(path, k);
    assert points[b.index + 2 * k .. b.index + 2 * k + 4] == c[2 * k .. 2 * k + 4];
  }

  /** A path with n >= 1 points adds its n - 1 segment starts, each the buffer offset of a
      vertex, and the segment at every start runs from that vertex to the next one of the same
      path. */
  lemma PathSegments(b: Buffers, path: seq<Point>)
    requires Aligned(b) && |path| >= 1
    ensures var r := AddPath(b, path);
      && r.points == b.points + Coords(path)
      && r.lines == b.lines + Starts(|path| - 1, b.index)
      && forall k :: 0 <= k < |path| - 1 ==>
           r.points[b.index + 2 * k .. b.index + 2 * k + 4] == [path[k].x, path[k].y, path[k + 1].x, path[k + 1].y]
  {
    PopAfterPush(b.lines, |path|, b.index);
    PathVertices(b, path);
  }

  /** Every segment a path adds joins two consecutive vertices of the path. */
  lemma PathVertices(b: Buffers, path: seq<Point>)
    requires Aligned(b)
    ensures var points := AddPath(b, path).points;
      forall k :: 0 <= k < |path| - 1 ==>
        points[b.index + 2 * k .. b.index + 2 * k + 4] == [path[k].x, path[k].y, path[k + 1].x, path[k + 1].y]
  {
    forall k | 0 <= k < |path| - 1
      ensures AddPath(b, path).points[b.index + 2 * k .. b.index + 2 * k + 4]
           == [path[k].x, path[k].y, path[k + 1].x, path[k + 1].y]
    {
      SegmentInBuffer(b, path, k);
    }
  }

  /** An empty path pushes nothing but still pops: it discards the last segment start of the
      path before it in the same list. */
  lemma EmptyPathPopsPrevious(p: Point, q: Point)
    ensures ParseSpec(ShipJson([[p, q]], [], [], [])).walls == [0]
    ensures ParseSpec(ShipJson([[p, q], []], [], [], [])).walls == []
  {
    var b := Buffers([], [], 0);
    assert [[p, q]][..0] == [];
    assert AddPaths(b, []) == b;
    assert Starts(2, 0) == [0, 2];
    assert PushPath(b, [p, q]).lines == [0, 2];
    assert AddPaths(b, [[p, q]]).lines == [0];
    assert [[p, q], []][..1] == [[p, q]];
    assert AddPaths(b, [[p, q], []]).lines == [];
  }

  /** One path keeps the buffers aligned, only appends coordinates, and every start it leaves
      in the list is covered. */
  lemma AddPathCovered(b: Buffers, path: seq<Point>)
    requires Aligned(b) && Covered(b.points, b.lines)
    ensures var r := AddPath(b, path);
      Aligned(r) && r.points == b.points + Coords(path) && Covered(r.points, r.lines)
  {
    var r := AddPath(b, path);
    var p := PushPath(b, path);
    forall j | 0 <= j < |r.lines|
      ensures 0 <= r.lines[j] && r.lines[j] + 3 < |r.points|
    {
      assert r.lines[j] == p.lines[j];
      if j >= |b.lines| {
        assert p.lines[j] == b.index + 2 * (j - |b.lines|);
      }
    }
  }

  /** Walls and windows: the buffers stay aligned, the coordinates of all paths are appended
      in order, and every start is covered. */
  lemma {:induction false} AddPathsCovered(b: Buffers, paths: seq<seq<Point>>)
    requires Aligned(b) && Covered(b.points, b.lines)
    ensures var r := AddPaths(b, paths);
      Aligned(r) && r.points == b.points + AllCoords(paths) && Covered(r.points, r.lines)
    decreases |paths|
  {
    if paths != [] {
      var init := paths[..|paths| - 1];
      AddPathsCovered(b, init);
      AddPathCovered(AddPaths(b, init), paths[|paths| - 1]);
    }
  }

  /** Growing the buffer keeps every start covered. */
  lemma CoveredGrows(points: seq<real>, bigger: seq<real>, lines: seq<int>)
    requires Covered(points, lines) && |points| <= |bigger|
    ensures Covered(bigger, lines)
  {
  }

  /** Storing starts as 16-bit values keeps them covered, since `v % 2^16 <= v`. */
  lemma CoveredU16(points: seq<real>, lines: seq<int>)
    requires Covered(points, lines)
    ensures Covered(points, U16s(lines))
  {
    forall j | 0 <= j < |lines|
      ensures U16s(lines)[j] <= lines[j]
    {
    }
  }

  /** Doors: the buffers stay aligned and the door coordinates are appended in order. */
  lemma {:induction false} AddDoorsPoints(b: Buffers, paths: seq<seq<Point>>)
    requires Aligned(b)
    ensures var r := AddDoors(b, paths);
      Aligned(r.0) && r.0.points == b.points + AllCoords(paths)
    decreases |paths|
  {
    if paths != [] {
      var init, last := paths[..|paths| - 1], paths[|paths| - 1];
      AddDoorsPoints(b, init);
      var before := AddDoors(b, init);
      var d := AddPath(Buffers(before.0.points, [], before.0.index), last);
      assert d.points == before.0.points + Coords(last);
      assert b.points + AllCoords(paths) == (b.points + AllCoords(init)) + Coords(last);
    }
  }

  /** Doors: every door's own list of starts is covered by the final buffer. */
  lemma {:induction false} AddDoorsCovered(b: Buffers, paths: seq<seq<Point>>)
    requires Aligned(b)
    ensures var r := AddDoors(b, paths);
      forall i :: 0 <= i < |r.1| ==> Covered(r.0.points, r.1[i])
    decreases |paths|
  {
    if paths != [] {
      var init, last := paths[..|paths| - 1], paths[|paths| - 1];
      AddDoorsCovered(b, init);
      AddDoorsPoints(b, init);
      var before := AddDoors(b, init);
      var start := Buffers(before.0.points, [], before.0.index);
      AddPathCovered(start, last);
      var d := AddPath(start, last);
      var r := AddDoors(b, paths);
      assert r.0.points == d.points;
      forall i | 0 <= i < |r.1|
        ensures Covered(r.0.points, r.1[i])
      {
        if i < |before.1| {
          assert r.1[i] == before.1[i];
          CoveredGrows(before.0.points, r.0.points, before.1[i]);
        } else {
          CoveredU16(d.points, d.lines);
        }
      }
    }
  }

  /** Every stored segment start of a parsed ship has its four coordinates in the buffer. */
  predicate IndicesValid(ship: Ship) {
    && Covered(ship.points, ship.walls)
    && Covered(ship.points, ship.windows)
    && forall i :: 0 <= i < |ship.doors| ==> Covered(ship.points, ship.doors[i])
  }

  /** `parse` lays out the coordinates of walls, then windows, then doors, and keeps one
      list of starts per door. */
  lemma ParsePoints(json: ShipJson)
    ensures var ship := ParseSpec(json);
      && ship.points == AllCoords(json.walls) + AllCoords(json.windows) + AllCoords(json.doors)
      && |ship.doors| == |json.doors|
  {
    var w := AddPaths(Buffers([], [], 0), json.walls);
    AddPathsCovered(Buffers([], [], 0), json.walls);
    assert w.points == AllCoords(json.walls);
    var n := AddPaths(Buffers(w.points, [], w.index), json.windows);
    AddPathsCovered(Buffers(w.points, [], w.index), json.windows);
    var d := AddDoors(Buffers(n.points, [], n.index), json.doors);
    AddDoorsPoints(Buffers(n.points, [], n.index), json.doors);
  }

  /** Every start `parse` stores, in any list, is covered by the buffer. */
  lemma ParseIndicesValid(json: ShipJson)
    ensures IndicesValid(ParseSpec(json))
  {
    var w := AddPaths(Buffers([], [], 0), json.walls);
    AddPathsCovered(Buffers([], [], 0), json.walls);
    var n := AddPaths(Buffers(w.points, [], w.index), json.windows);
    AddPathsCovered(Buffers(w.points, [], w.index), json.windows);
    var d := AddDoors(Buffers(n.points, [], n.index), json.doors);
    AddDoorsPoints(Buffers(n.points, [], n.index), json.doors);
    AddDoorsCovered(Buffers(n.points, [], n.index), json.doors);
    var ship := ParseSpec(json);
    assert ship.points == d.0.points && ship.doors == d.1;
    CoveredGrows(w.points, ship.points, w.lines);
    CoveredGrows(n.points, ship.points, n.lines);
    CoveredU16(ship.points, w.lines);
    CoveredU16(ship.points, n.lines);
  }

  // ---------------------------------------------------------------------------------------
  // Occlusion
  // ---------------------------------------------------------------------------------------

  /** `this.points[i]` of the `Float32Array`: the coordinate, or `undefined` past its end. */
  function At(points: seq<real>, i: int): JsNum {
    if 0 <= i < |points| then Num(points[i]) else Undefined
  }

  /** The cross term `(qy - py) * (rx - qx) - (qx - px) * (ry - qy)`. */
  function Cross(px: JsNum, py: JsNum, qx: JsNum, qy: JsNum, rx: JsNum, ry: JsNum): (v: JsNum)
    ensures v.Num? <==> px.Num? && py.Num? && qx.Num? && qy.Num? && rx.Num? && ry.Num?
  {
    Minus(Times(Minus(qy, py), Minus(rx, qx)), Times(Minus(qx, px), Minus(ry, qy)))
  }

  /** `orientation`: 0 inside the 0.01 tolerance band, else the sign of the cross term; NaN
      when a coordinate is not a number. */
  function Orientation(px: JsNum, py: JsNum, qx: JsNum, qy: JsNum, rx: JsNum, ry: JsNum): (o: JsNum)
    ensures o == NaN || o == Num(0.0) || o == Num(1.0) || o == Num(-1.0)
    ensures o == NaN <==> !(px.Num? && py.Num? && qx.Num? && qy.Num? && rx.Num? && ry.Num?)
    ensures var v := Cross(px, py, qx, qy, rx, ry);
      v.Num? ==> (o == Num(0.0) <==> -0.01 < v.v < 0.01) && (o != Num(0.0) ==> o.v * v.v > 0.0)
  {
    var v := Cross(px, py, qx, qy, rx, ry);
    if Lt(MathAbs(v), Num(0.01)) then Num(0.0) else MathSign(v)
  }

  /** `a != b` between orientations: NaN differs from everything, itself included. */
  predicate Differ(a: JsNum, b: JsNum) {
    !StrictEq(a, b)
  }

  /** The test `o1 != o2 && o3 != o4` for the segment starting at v and the sight line
      from m to n. */
  predicate Crosses(points: seq<real>, v: int, mx: JsNum, my: JsNum, nx: JsNum, ny: JsNum) {
    var x0, y0, x1, y1 := At(points, v), At(points, v + 1), At(points, v + 2), At(points, v + 3);
    && Differ(Orientation(mx, my, nx, ny, x0, y0), Orientation(mx, my, nx, ny, x1, y1))
    && Differ(Orientation(x0, y0, x1, y1, mx, my), Orientation(x0, y0, x1, y1, nx, ny))
  }

  /** The loop of `intersects` from position i: 1 at the first crossing segment, else 0. */
  function IntersectsFrom(points: seq<real>, lines: seq<int>, i: nat, mx: JsNum, my: JsNum, nx: JsNum, ny: JsNum): (r: real)
    requires i <= |lines|
    ensures r == 0.0 || r == 1.0
    ensures r == 1.0 <==> exists j :: i <= j < |lines| && Crosses(points, lines[j], mx, my, nx, ny)
    decreases |lines| - i
  {
    if i == |lines| then 0.0
    else if Crosses(points, lines[i], mx, my, nx, ny) then 1.0
    else IntersectsFrom(points, lines, i + 1, mx, my, nx, ny)
  }

  /** `intersects`: 1 exactly when some segment of the list crosses the sight line. */
  function Intersects(points: seq<real>, lines: seq<int>, mx: JsNum, my: JsNum, nx: JsNum, ny: JsNum): (r: real)
    ensures r == 0.0 || r == 1.0
    ensures r == 1.0 <==> exists j :: 0 <= j < |lines| && Crosses(points, lines[j], mx, my, nx, ny)
    ensures lines == [] ==> r == 0.0
  {
    IntersectsFrom(points, lines, 0, mx, my, nx, ny)
  }

  /** Door i counts when its bit of `openDoors & (1 << i)` is clear (the shift uses i mod 32)
      and one of its segments crosses the sight line. */
  predicate ClosedDoorHit(ship: Ship, openDoors: Mask, i: nat, mx: JsNum, my: JsNum, nx: JsNum, ny: JsNum)
    requires i < |ship.doors|
  {
    !openDoors[i % 32] && Intersects(ship.points, ship.doors[i], mx, my, nx, ny) != 0.0
  }

  /** The door loop of `blocked` from door i. */
  function DoorsFrom(ship: Ship, openDoors: Mask, i: nat, mx: JsNum, my: JsNum, nx: JsNum, ny: JsNum): (r: real)
    requires i <= |ship.doors|
    ensures r == 0.0 || r == 1.0
    ensures r == 1.0 <==> exists j :: i <= j < |ship.doors| && ClosedDoorHit(ship, openDoors, j, mx, my, nx, ny)
    decreases |ship.doors| - i
  {
    if i == |ship.doors| then 0.0
    else if ClosedDoorHit(ship, openDoors, i, mx, my, nx, ny) then 1.0
    else DoorsFrom(ship, openDoors, i + 1, mx, my, nx, ny)
  }

  /** `blocked`: 1 behind a wall, else 0.5 behind a window, else 1 behind a closed door,
      else 0. */
  function Blocked(ship: Ship, openDoors: Mask, mx: JsNum, my: JsNum, nx: JsNum, ny: JsNum): (b: real)
    ensures b == 0.0 || b == 0.5 || b == 1.0
    ensures var wall := Intersects(ship.points, ship.walls, mx, my, nx, ny) != 0.0;
      var window := Intersects(ship.points, ship.windows, mx, my, nx, ny) != 0.0;
      var door := exists j :: 0 <= j < |ship.doors| && ClosedDoorHit(ship, openDoors, j, mx, my, nx, ny);
      && (b == 1.0 <==> wall || (!window && door))
      && (b == 0.5 <==> !wall && window)
      && (b == 0.0 <==> !wall && !window && !door)
  {
    var wall := Intersects(ship.points, ship.walls, mx, my, nx, ny);
    if wall != 0.0 then wall
    else if Intersects(ship.points, ship.windows, mx, my, nx, ny) != 0.0 then 0.5
    else DoorsFrom(ship, openDoors, 0, mx, my, nx, ny)
  }

  // ---------------------------------------------------------------------------------------
  // Properties of the occlusion test
  // ---------------------------------------------------------------------------------------

  /** Swapping p and q negates the orientation (NaN stays NaN). */
  lemma OrientationSwap(px: JsNum, py: JsNum, qx: JsNum, qy: JsNum, rx: JsNum, ry: JsNum)
    ensures Orientation(qx, qy, px, py, rx, ry) == Negate(Orientation(px, py, qx, qy, rx, ry))
  {
    var v := Cross(px, py, qx, qy, rx, ry);
    var w := Cross(qx, qy, px, py, rx, ry);
    if v.Num? {
      var a, b, c, d, e, f := px.v, py.v, qx.v, qy.v, rx.v, ry.v;
      assert v.v == (d - b) * (e - c) - (c - a) * (f - d);
      assert w.v == (b - d) * (e - a) - (a - c) * (f - b);
      assert w.v == -v.v by {
        calc {
          w.v;
          (b - d) * (e - a) - (a - c) * (f - b);
          (b - d) * e - (b - d) * a - (a - c) * f + (a - c) * b;
          -((d - b) * e - (d - b) * c - (c - a) * f + (c - a) * d);
          -v.v;
        }
      }
    }
  }

  /** Two orientations differ exactly when their negations do. */
  lemma DifferNegate(a: JsNum, b: JsNum)
    requires !a.Undefined? && !b.Undefined?
    ensures Differ(Negate(a), Negate(b)) <==> Differ(a, b)
  {
  }

  /** `intersects` does not depend on the direction of the sight line, segment by segment. */
  lemma CrossesSymmetric(points: seq<real>, v: int, mx: JsNum, my: JsNum, nx: JsNum, ny: JsNum)
    ensures Crosses(points, v, mx, my, nx, ny) <==> Crosses(points, v, nx, ny, mx, my)
  {
    var x0, y0, x1, y1 := At(points, v), At(points, v + 1), At(points, v + 2), At(points, v + 3);
    OrientationSwap(mx, my, nx, ny, x0, y0);
    OrientationSwap(mx, my, nx, ny, x1, y1);
    DifferNegate(Orientation(mx, my, nx, ny, x0, y0), Orientation(mx, my, nx, ny, x1, y1));
  }

  /** `intersects` is symmetric in the two ends of the sight line. */
  lemma IntersectsSymmetric(points: seq<real>, lines: seq<int>, mx: JsNum, my: JsNum, nx: JsNum, ny: JsNum)
    ensures Intersects(points, lines, mx, my, nx, ny) == Intersects(points, lines, nx, ny, mx, my)
  {
    forall j | 0 <= j < |lines|
      ensures Crosses(points, lines[j], mx, my, nx, ny) <==> Crosses(points, lines[j], nx, ny, mx, my)
    {
      CrossesSymmetric(points, lines[j], mx, my, nx, ny);
    }
  }

  /** `blocked` is symmetric under swapping m and n: the speaker hears the listener through
      the same walls. */
  lemma BlockedSymmetric(ship: Ship, openDoors: Mask, mx: JsNum, my: JsNum, nx: JsNum, ny: JsNum)
    ensures Blocked(ship, openDoors, mx, my, nx, ny) == Blocked(ship, openDoors, nx, ny, mx, my)
  {
    IntersectsSymmetric(ship.points, ship.walls, mx, my, nx, ny);
    IntersectsSymmetric(ship.points, ship.windows, mx, my, nx, ny);
    forall j | 0 <= j < |ship.doors|
      ensures ClosedDoorHit(ship, openDoors, j, mx, my, nx, ny) <==> ClosedDoorHit(ship, openDoors, j, nx, ny, mx, my)
    {
      IntersectsSymmetric(ship.points, ship.doors[j], mx, my, nx, ny);
    }
  }

  /** A sight line of zero length crosses no segment whose coordinates are in the buffer:
      both of its orientations against the segment are 0. */
  lemma PointCrossesNothing(points: seq<real>, v: int, mx: JsNum, my: JsNum)
    requires mx.Num? && my.Num?
    requires 0 <= v && v + 3 < |points|
    ensures !Crosses(points, v, mx, my, mx, my)
  {
    var x0, y0, x1, y1 := At(points, v), At(points, v + 1), At(points, v + 2), At(points, v + 3);
    assert Cross(mx, my, mx, my, x0, y0) == Num(0.0);
    assert Cross(mx, my, mx, my, x1, y1) == Num(0.0);
  }

  lemma PointIntersectsNothing(points: seq<real>, lines: seq<int>, mx: JsNum, my: JsNum)
    requires mx.Num? && my.Num? && Covered(points, lines)
    ensures Intersects(points, lines, mx, my, mx, my) == 0.0
  {
    forall j | 0 <= j < |lines|
      ensures !Crosses(points, lines[j], mx, my, mx, my)
    {
      PointCrossesNothing(points, lines[j], mx, my);
    }
  }

  /** For a ship whose starts are all covered (every parsed ship), a zero-length sight line
      is never blocked. */
  lemma ZeroLengthNotBlocked(ship: Ship, openDoors: Mask, mx: JsNum, my: JsNum)
    requires mx.Num? && my.Num? && IndicesValid(ship)
    ensures Blocked(ship, openDoors, mx, my, mx, my) == 0.0
  {
    PointIntersectsNothing(ship.points, ship.walls, mx, my);
    PointIntersectsNothing(ship.points, ship.windows, mx, my);
    forall j | 0 <= j < |ship.doors|
      ensures !ClosedDoorHit(ship, openDoors, j, mx, my, mx, my)
    {
      PointIntersectsNothing(ship.points, ship.doors[j], mx, my);
    }
  }

  /** Without segments nothing is blocked. */
  lemma NoSegmentsNotBlocked(ship: Ship, openDoors: Mask, mx: JsNum, my: JsNum, nx: JsNum, ny: JsNum)
    requires ship.walls == [] && ship.windows == []
    requires forall i :: 0 <= i < |ship.doors| ==> ship.doors[i] == []
    ensures Blocked(ship, openDoors, mx, my, nx, ny) == 0.0
  {
    forall j | 0 <= j < |ship.doors|
      ensures !ClosedDoorHit(ship, openDoors, j, mx, my, nx, ny)
    {
    }
  }

  /** The empty map blocks nothing and has no cameras. */
  lemma EmptyShipClear(openDoors: Mask, mx: JsNum, my: JsNum, nx: JsNum, ny: JsNum)
    ensures Blocked(EmptyShip(), openDoors, mx, my, nx, ny) == 0.0
    ensures EmptyShip().cameras == []
  {
    assert EmptyShip() == Ship([], [], [], [], []);
  }

  /** Replacing the segments of a door whose bit is set leaves every door's contribution
      as it was. */
  lemma OpenDoorHits(ship: Ship, openDoors: Mask, i: nat, door: seq<int>, mx: JsNum, my: JsNum, nx: JsNum, ny: JsNum)
    requires i < |ship.doors| && openDoors[i % 32]
    ensures var other := ship.(doors := ship.doors[i := door]);
      forall j :: 0 <= j < |ship.doors| ==>
        (ClosedDoorHit(other, openDoors, j, mx, my, nx, ny) <==> ClosedDoorHit(ship, openDoors, j, mx, my, nx, ny))
  {
    var other := ship.(doors := ship.doors[i := door]);
    forall j | 0 <= j < |ship.doors|
      ensures ClosedDoorHit(other, openDoors, j, mx, my, nx, ny) <==> ClosedDoorHit(ship, openDoors, j, mx, my, nx, ny)
    {
      if j != i {
        assert other.doors[j] == ship.doors[j];
      }
    }
  }

  /** A door whose bit is set in `openDoors` never contributes: replacing its segments changes
      nothing. */
  lemma OpenDoorIrrelevant(ship: Ship, openDoors: Mask, i: nat, door: seq<int>, mx: JsNum, my: JsNum, nx: JsNum, ny: JsNum)
    requires i < |ship.doors| && openDoors[i % 32]
    ensures Blocked(ship.(doors := ship.doors[i := door]), openDoors, mx, my, nx, ny)
         == Blocked(ship, openDoors, mx, my, nx, ny)
  {
    var other := ship.(doors := ship.doors[i := door]);
    OpenDoorHits(ship, openDoors, i, door, mx, my, nx, ny);
    assert other.points == ship.points && other.walls == ship.walls && other.windows == ship.windows;
    assert |other.doors| == |ship.doors|;
    var b1 := Blocked(other, openDoors, mx, my, nx, ny);
    var b2 := Blocked(ship, openDoors, mx, my, nx, ny);
    assert (exists j :: 0 <= j < |other.doors| && ClosedDoorHit(other, openDoors, j, mx, my, nx, ny))
       <==> (exists j :: 0 <= j < |ship.doors| && ClosedDoorHit(ship, openDoors, j, mx, my, nx, ny));
  }
}
