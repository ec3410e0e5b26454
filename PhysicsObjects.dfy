/**
 * The object factory's table and geometry helpers: the {first, last} id
 * tables kept per hull and entity, the -1-aware id lookup, bone lookup by
 * name, the convex and interior vertex selections of a mesh, the
 * orientation test, the gift-wrap convex hull and its index table.
 * Vertices carry only the parts these helpers read: the mesh index and
 * the 2D position.
 */
module PhysicsObjects {
  import opened Wrappers

  /** A mesh vertex: its index in the mesh and its position. */
  datatype Vertex = Vertex(index: int, x: real, y: real)

  /** The table of an empty id list. */
  const EmptyTable: seq<int> := [0, -1]

  /** make_table: an id list's {first, last} table, or {0, -1} when it is empty. */
  function MakeTable(ids: seq<int>): (r: seq<int>)
    ensures |r| == 2
    ensures |ids| > 0 ==> r[0] == ids[0] && r[1] == ids[|ids| - 1]
    ensures |ids| == 0 ==> r[1] - r[0] + 1 == 0
  {
    if |ids| == 0 then EmptyTable else [ids[0], ids[|ids| - 1]]
  }

  /** The ids handed out by a bump allocator for n objects starting at `start`. */
  function Consecutive(start: int, n: nat): (r: seq<int>)
    ensures |r| == n && forall i :: 0 <= i < n ==> r[i] == start + i
  {
    seq(n, i requires 0 <= i < n => start + i)
  }

  lemma ConsecutiveNext(start: int, n: nat)
    ensures Consecutive(start, n + 1) == Consecutive(start, n) + [start + n]
  {
    assert Consecutive(start, n + 1)[..n] == Consecutive(start, n);
  }

  /**
   * For ids handed out consecutively, the table names the first and last id,
   * and last - first + 1 recovers the count, {0, -1} included: the unloader
   * relies on this to size its arrays.
   */
  lemma TableSpansConsecutive(start: int, n: nat)
    ensures n > 0 ==> MakeTable(Consecutive(start, n)) == [start, start + n - 1]
    ensures MakeTable(Consecutive(start, n))[1] - MakeTable(Consecutive(start, n))[0] + 1 == n
  {
  }

  /** get_index: -1 stays -1, any other offset is looked up in the ids created so far. */
  function GetIndex(offset: int, ids: seq<int>): (r: int)
    requires offset == -1 || 0 <= offset < |ids|
    ensures offset == -1 ==> r == -1
    ensures offset != -1 ==> r in ids
  {
    if offset == -1 then -1 else ids[offset]
  }

  /** Looked up in consecutively allocated ids, an offset becomes the id allocated that many after the first. */
  lemma GetIndexConsecutive(offset: int, start: int, n: nat)
    requires offset == -1 || 0 <= offset < n
    ensures GetIndex(offset, Consecutive(start, n)) == if offset == -1 then -1 else start + offset
  {
  }

  /**
   * find_bone_index: a vertex's bone slot with no name has no bone (-1); a
   * named slot is looked up in the bone map, and a name the map lacks fails
   * as the unboxing of a missing entry does.
   */
  function FindBoneIndex(bone_map: map<string, int>, bone_names: seq<Option<string>>, index: int): (r: Result<int>)
    requires 0 <= index < |bone_names|
    ensures bone_names[index].None? ==> r == Ok(-1)
    ensures bone_names[index].Some? ==>
      (r.Ok? <==> bone_names[index].value in bone_map) &&
      (r.Ok? ==> r.value == bone_map[bone_names[index].value])
  {
    match bone_names[index]
    case None => Ok(-1)
    case Some(name) => if name in bone_map then Ok(bone_map[name]) else Err("NullPointerException")
  }

  /** generate_convex_hull: the mesh's hull vertices, in hull order. */
  function GenerateConvexHull(hull: seq<int>, source: seq<Vertex>): (r: seq<Vertex>)
    requires forall i :: 0 <= i < |hull| ==> 0 <= hull[i] < |source|
    ensures |r| == |hull|
    ensures forall v :: v in r ==> v in source
  {
    seq(|hull|, i requires 0 <= i < |hull| => source[hull[i]])
  }

  /** The vertices whose positions (from `from` on) are not in the hull set, in source order. */
  function NonHull(source: seq<Vertex>, conv: set<int>, from: nat): (r: seq<Vertex>)
    ensures forall v :: v in r ==> v in source
    decreases |source| - from
  {
    if from >= |source| then []
    else (if from in conv then [] else [source[from]]) + NonHull(source, conv, from + 1)
  }

  /** A number of null slots. */
  function Nulls(n: nat): (r: seq<Option<Vertex>>)
    ensures |r| == n && forall i :: 0 <= i < n ==> r[i].None?
  {
    seq(n, i => None)
  }

  /** The non-hull vertices as filled array slots. */
  function Filled(vs: seq<Vertex>): (r: seq<Option<Vertex>>)
    ensures |r| == |vs| && forall i :: 0 <= i < |vs| ==> r[i] == Some(vs[i])
  {
    seq(|vs|, i requires 0 <= i < |vs| => Some(vs[i]))
  }

  /**
   * generate_interior_hull: an array of |source| - |hull| slots holding, in
   * source order, the vertices whose positions the hull does not list. It is
   * empty when the hull is at least as long as the source. Slots left over
   * (a hull listing a position twice) stay null; more non-hull vertices than
   * slots (a hull listing a position outside the source) overflow the array.
   */
  function GenerateInteriorHull(hull: seq<int>, source: seq<Vertex>): (r: Result<seq<Option<Vertex>>>)
    ensures r.Ok? ==> |r.value| == if |source| > |hull| then |source| - |hull| else 0
    ensures r.Ok? ==> forall k :: 0 <= k < |r.value| && r.value[k].Some? ==> r.value[k].value in source
    ensures r.Err? ==> |source| > |hull|
  {
    var cx := |source| - |hull|;
    if cx <= 0 then Ok([])
    else
      var rest := NonHull(source, set i | i in hull, 0);
      if |rest| > cx then Err("ArrayIndexOutOfBoundsException")
      else Ok(Filled(rest) + Nulls(cx - |rest|))
  }

  /** The hull lists distinct positions of the source. */
  predicate DistinctIndices(hull: seq<int>, n: int)
  {
    (forall i :: 0 <= i < |hull| ==> 0 <= hull[i] < n) &&
    (forall i, j :: 0 <= i < j < |hull| ==> hull[i] != hull[j])
  }

  /** The members of the hull set that lie in [from, to). */
  function HullPart(conv: set<int>, from: int, to: int): set<int>
  {
    set i | i in conv && from <= i < to
  }

  /** The non-hull vertices from `from` on are the positions there minus those the hull set holds. */
  lemma {:induction false} NonHullLength(source: seq<Vertex>, conv: set<int>, from: nat)
    requires from <= |source|
    ensures |NonHull(source, conv, from)| == (|source| - from) - |HullPart(conv, from, |source|)|
    decreases |source| - from
  {
    if from < |source| {
      NonHullLength(source, conv, from + 1);
      var here := HullPart(conv, from, |source|);
      var later := HullPart(conv, from + 1, |source|);
      if from in conv {
        assert here == later + {from};
      } else {
        assert here == later;
      }
    } else {
      var none := HullPart(conv, from, |source|);
      assert none == {} by {
        forall i | i in none ensures false { }
      }
    }
  }

  /** A list of distinct indices below n has as many members as its set. */
  lemma {:induction false} DistinctSetSize(hull: seq<int>, n: int)
    requires DistinctIndices(hull, n)
    ensures |set i | i in hull| == |hull|
  {
    if hull != [] {
      var init := hull[..|hull| - 1];
      assert DistinctIndices(init, n);
      DistinctSetSize(init, n);
      assert (set i | i in hull) == (set i | i in init) + {hull[|hull| - 1]};
      assert hull[|hull| - 1] !in (set i | i in init);
    }
  }

  /**
   * With a hull of distinct source positions, the interior holds exactly the
   * other vertices, no null slot is left, and the convex and interior
   * selections together hold each source vertex once.
   */
  lemma InteriorCompletesHull(hull: seq<int>, source: seq<Vertex>)
    requires DistinctIndices(hull, |source|)
    ensures GenerateInteriorHull(hull, source).Ok?
    ensures forall v :: v in GenerateInteriorHull(hull, source).value ==> v.Some?
    ensures |GenerateConvexHull(hull, source)| + |GenerateInteriorHull(hull, source).value| == |source|
  {
    var conv := set i | i in hull;
    NonHullLength(source, conv, 0);
    DistinctSetSize(hull, |source|);
    assert HullPart(conv, 0, |source|) == conv;
  }

  /**
   * orientation: the turn p -> q -> r, read from the sign of
   * (q.y - p.y)(r.x - q.x) - (q.x - p.x)(r.y - q.y): 0 when collinear, 1 for a
   * positive value, 2 for a negative one.
   */
  function Orientation(p: Vertex, q: Vertex, r: Vertex): (o: int)
    ensures 0 <= o <= 2
    ensures p == q || q == r || p == r ==> o == 0
  {
    var val := (q.y - p.y) * (r.x - q.x) - (q.x - p.x) * (r.y - q.y);
    if val == 0.0 then 0 else if val > 0.0 then 1 else 2
  }

  /** The turn test's value changes sign when its last two points are swapped. */
  lemma TurnValueAntisymmetric(p: Vertex, q: Vertex, r: Vertex)
    ensures (r.y - p.y) * (q.x - r.x) - (r.x - p.x) * (q.y - r.y)
         == -((q.y - p.y) * (r.x - q.x) - (q.x - p.x) * (r.y - q.y))
  {
    var a, b, c, d := q.x - p.x, q.y - p.y, r.x - p.x, r.y - p.y;
    assert r.x - q.x == c - a && r.y - q.y == d - b;
    assert q.x - r.x == a - c && q.y - r.y == b - d;
    calc {
      (r.y - p.y) * (q.x - r.x) - (r.x - p.x) * (q.y - r.y);
      d * (a - c) - c * (b - d);
      d * a - c * b;
      -(b * (c - a) - a * (d - b));
      -((q.y - p.y) * (r.x - q.x) - (q.x - p.x) * (r.y - q.y));
    }
  }

  /** Swapping the last two points turns a clockwise answer into a counter-clockwise one and keeps collinear. */
  lemma OrientationSwap(p: Vertex, q: Vertex, r: Vertex)
    ensures Orientation(p, q, r) == 0 <==> Orientation(p, r, q) == 0
    ensures Orientation(p, q, r) == 1 <==> Orientation(p, r, q) == 2
  {
    TurnValueAntisymmetric(p, q, r);
  }

  /** The leftmost point: the first index whose x is smallest. */
  function Leftmost(points: seq<Vertex>, upto: nat): (l: nat)
    requires 1 <= upto <= |points|
    ensures l < upto
    ensures forall i :: 0 <= i < upto ==> points[l].x <= points[i].x
    ensures forall i :: 0 <= i < l ==> points[i].x > points[l].x
  {
    if upto == 1 then 0
    else
      var l := Leftmost(points, upto - 1);
      if points[upto - 1].x < points[l].x then upto - 1 else l
  }

  /**
   * The inner scan of the gift wrap from p over candidates 0..i-1: starting
   * from p's successor, each candidate i that makes p -> i -> q a clockwise
   * turn (orientation 2) replaces q.
   */
  function ScanCCW(points: seq<Vertex>, p: nat, i: nat): (q: nat)
    requires p < |points| && i <= |points|
    ensures q < |points|
  {
    if i == 0 then (p + 1) % |points|
    else
      var q := ScanCCW(points, p, i - 1);
      if Orientation(points[p], points[i - 1], points[q]) == 2 then i - 1 else q
  }

  /** The next hull point after p: the scan over every candidate. */
  function NextOnHull(points: seq<Vertex>, p: nat): nat
    requires p < |points|
  {
    ScanCCW(points, p, |points|)
  }

  /** The k-th point of the wrap that starts at l. */
  function WrapAt(points: seq<Vertex>, l: nat, k: nat): (p: nat)
    requires l < |points|
    ensures p < |points|
  {
    if k == 0 then l else NextOnHull(points, WrapAt(points, l, k - 1))
  }

  /** The first m points of the wrap. */
  function WrapPoints(points: seq<Vertex>, l: nat, m: nat): (r: seq<Vertex>)
    requires l < |points|
    ensures |r| == m && forall k :: 0 <= k < m ==> r[k] == points[WrapAt(points, l, k)]
  {
    seq(m, k requires 0 <= k < m => points[WrapAt(points, l, k)])
  }

  /** The wrap from l first returns to l after exactly m steps. */
  predicate ClosesAfter(points: seq<Vertex>, l: nat, m: nat)
    requires l < |points|
  {
    m >= 1 && WrapAt(points, l, m) == l && forall k :: 1 <= k < m ==> WrapAt(points, l, k) != l
  }

  /** Every point the wrap visits is one of the input points. */
  lemma WrapStaysInInput(points: seq<Vertex>, l: nat, m: nat)
    requires l < |points|
    ensures forall v :: v in WrapPoints(points, l, m) ==> v in points
  {
    forall v | v in WrapPoints(points, l, m) ensures v in points {
      var k :| 0 <= k < m && WrapPoints(points, l, m)[k] == v;
      assert points[WrapAt(points, l, k)] == v;
    }
  }

  /** The first index of the input equal to v, if any. */
  function FirstIndexOf(points: seq<Vertex>, v: Vertex, from: nat): (r: Option<nat>)
    requires from <= |points|
    ensures r.Some? ==> from <= r.value < |points| && points[r.value] == v
    ensures r.Some? ==> forall j :: from <= j < r.value ==> points[j] != v
    ensures r.None? <==> forall j :: from <= j < |points| ==> points[j] != v
    decreases |points| - from
  {
    if from == |points| then None
    else if points[from] == v then Some(from)
    else FirstIndexOf(points, v, from + 1)
  }

  /**
   * calculate_convex_hull_table's lookup: each hull vertex becomes the first
   * input index holding an equal vertex; the first vertex with no equal fails
   * the whole table.
   */
  function IndexTable(points: seq<Vertex>, hull: seq<Vertex>): (r: Result<seq<int>>)
    ensures r.Ok? <==> forall v :: v in hull ==> v in points
    ensures r.Ok? ==> |r.value| == |hull|
    ensures r.Ok? ==> forall i :: 0 <= i < |hull| ==>
      (0 <= r.value[i] < |points| && points[r.value[i]] == hull[i] && forall j :: 0 <= j < r.value[i] ==> points[j] != hull[i])
  {
    if hull == [] then Ok([])
    else
      match IndexTable(points, hull[..|hull| - 1])
      case Err(e) =>
        assert hull[..|hull| - 1] <= hull;
        Err(e)
      case Ok(init) =>
        match FirstIndexOf(points, hull[|hull| - 1], 0)
        case None =>
          assert hull[|hull| - 1] in hull;
          Err("Vertex could not be found")
        case Some(j) =>
          assert forall v :: v in hull ==> v in hull[..|hull| - 1] || v == hull[|hull| - 1];
          Ok(init + [j])
  }

  /** Looking the hull vertices up and reading them back gives the hull: the table is a faithful compact form. */
  lemma IndexTableRoundTrip(points: seq<Vertex>, hull: seq<Vertex>)
    requires forall v :: v in hull ==> v in points
    ensures IndexTable(points, hull).Ok?
    ensures GenerateConvexHull(IndexTable(points, hull).value, points) == hull
  {
  }

  /**
   * calculate_convex_hull: the gift wrap. Fewer than three points are
   * returned as they are; otherwise the wrap starts at the leftmost point
   * and follows NextOnHull until it is back at the start. The source repeats
   * until then without bound; here the wrap gets `fuel` steps and reports
   * None when it has not closed by then.
   */
  method CalculateConvexHull(in_points: seq<Vertex>, fuel: nat) returns (r: Option<seq<Vertex>>)
    ensures |in_points| < 3 ==> r == Some(in_points)
    ensures |in_points| >= 3 && r.Some? ==>
      1 <= |r.value| <= fuel && ClosesAfter(in_points, Leftmost(in_points, |in_points|), |r.value|)
      && r.value == WrapPoints(in_points, Leftmost(in_points, |in_points|), |r.value|)
    ensures |in_points| >= 3 && r.None? ==>
      forall k :: 1 <= k <= fuel ==> WrapAt(in_points, Leftmost(in_points, |in_points|), k) != Leftmost(in_points, |in_points|)
  {
    var points := in_points;
    var n := |in_points|;
    if n < 3 {
      return Some(points);
    }
    var l := FindLeftmost(points);
    r := GiftWrap(points, l, fuel);
  }

  /** The search for the leftmost point: a strictly smaller x replaces the current pick. */
  method FindLeftmost(points: seq<Vertex>) returns (l: nat)
    requires |points| >= 1
    ensures l == Leftmost(points, |points|)
  {
    l := 0;
    var i := 1;
    while i < |points|
      invariant 1 <= i <= |points| && l == Leftmost(points, i)
    {
      if points[i].x < points[l].x {
        l := i;
      }
      i := i + 1;
    }
  }

  /** The do-while of calculate_convex_hull: push p, step to the next hull point, stop back at l. */
  method GiftWrap(points: seq<Vertex>, l: nat, fuel: nat) returns (r: Option<seq<Vertex>>)
    requires l < |points|
    ensures r.Some? ==> 1 <= |r.value| <= fuel && ClosesAfter(points, l, |r.value|) && r.value == WrapPoints(points, l, |r.value|)
    ensures r.None? ==> forall k :: 1 <= k <= fuel ==> WrapAt(points, l, k) != l
  {
    var hull: seq<Vertex> := [];
    var p := l;
    var steps: nat := 0;
    while steps < fuel
      invariant steps <= fuel
      invariant p == WrapAt(points, l, steps) && hull == WrapPoints(points, l, steps)
      invariant forall k :: 1 <= k <= steps ==> WrapAt(points, l, k) != l
      decreases fuel - steps
    {
      hull := hull + [points[p]];
      p := WrapStep(points, p);
      steps := steps + 1;
      assert hull == WrapPoints(points, l, steps);
      if p == l {
        return Some(hull);
      }
    }
    return None;
  }

  /** One pass of the gift wrap's inner loop: the next hull point after p. */
  method WrapStep(points: seq<Vertex>, p: nat) returns (q: nat)
    requires p < |points|
    ensures q == NextOnHull(points, p)
  {
    var n := |points|;
    q := (p + 1) % n;
    var i := 0;
    while i < n
      invariant 0 <= i <= n && q == ScanCCW(points, p, i)
    {
      if Orientation(points[p], points[i], points[q]) == 2 {
        q := i;
      }
      i := i + 1;
    }
  }

  /**
   * calculate_convex_hull_table: the wrap's vertices as input indices. The
   * lookup never fails: every wrapped vertex came from the input.
   */
  method CalculateConvexHullTable(in_points: seq<Vertex>, fuel: nat) returns (r: Option<seq<int>>)
    ensures r.Some? ==> forall i :: 0 <= i < |r.value| ==> 0 <= r.value[i] < |in_points|
    ensures |in_points| < 3 ==> r.Some? && |r.value| == |in_points|
    ensures |in_points| < 3 ==> forall i :: 0 <= i < |in_points| ==> (in_points[r.value[i]] == in_points[i] && r.value[i] <= i)
    ensures |in_points| >= 3 && r.Some? ==>
      1 <= |r.value| <= fuel && ClosesAfter(in_points, Leftmost(in_points, |in_points|), |r.value|) &&
      GenerateConvexHull(r.value, in_points) == WrapPoints(in_points, Leftmost(in_points, |in_points|), |r.value|)
  {
    var hull := CalculateConvexHull(in_points, fuel);
    if hull.None? {
      return None;
    }
    var h := hull.value;
    if |in_points| >= 3 {
      WrapStaysInInput(in_points, Leftmost(in_points, |in_points|), |h|);
    }
    var vertex_table := LookUpAll(in_points, h);
    IndexTableRoundTrip(in_points, h);
    return Some(vertex_table);
  }

  /** calculate_convex_hull_table's loop: each hull vertex's first equal input index, in hull order. */
  method LookUpAll(in_points: seq<Vertex>, h: seq<Vertex>) returns (vertex_table: seq<int>)
    requires forall v :: v in h ==> v in in_points
    ensures IndexTable(in_points, h) == Ok(vertex_table)
  {
    vertex_table := [];
    var hull_index := 0;
    while hull_index < |h|
      invariant 0 <= hull_index <= |h|
      invariant IndexTable(in_points, h[..hull_index]) == Ok(vertex_table)
    {
      var next_vert := h[hull_index];
      var next_index := FindFirst(in_points, next_vert);
      assert h[..hull_index + 1][..hull_index] == h[..hull_index];
      vertex_table := vertex_table + [next_index];
      hull_index := hull_index + 1;
    }
    assert h[..|h|] == h;
  }

  /** The stream search for a vertex's first equal input index. */
  method FindFirst(points: seq<Vertex>, v: Vertex) returns (j: nat)
    requires v in points
    ensures FirstIndexOf(points, v, 0) == Some(j)
  {
    j := 0;
    while points[j] != v
      invariant j < |points| && forall k :: 0 <= k < j ==> points[k] != v
      decreases |points| - j
    {
      j := j + 1;
    }
  }
}
