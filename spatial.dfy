/**
 * The click-position checks of `ABuildingEnergyDisplay`: bounding boxes, the ray-casting
 * point-in-polygon test and the lookup of a building by a clicked point, over the
 * coordinate cache (building key -> outline points). Coordinates are exact reals.
 */
module Spatial {
  import opened Wrappers
  import opened UnrealString
  import opened CaseInsensitiveMap

  datatype Vec3 = Vec3(x: real, y: real, z: real)

  const Zero := Vec3(0.0, 0.0, 0.0)

  /** `FBuildingBoundingBox`. */
  datatype BoundingBox = BoundingBox(minBounds: Vec3, maxBounds: Vec3, center: Vec3, size: Vec3)

  /** The default-constructed box: every vector is zero. */
  const DefaultBoundingBox := BoundingBox(Zero, Zero, Zero, Zero)

  type CoordinatesCache = CIMap<seq<Vec3>>

  function Min(a: real, b: real): real { if a <= b then a else b }
  function Max(a: real, b: real): real { if a >= b then a else b }

  function VMin(a: Vec3, b: Vec3): Vec3 { Vec3(Min(a.x, b.x), Min(a.y, b.y), Min(a.z, b.z)) }
  function VMax(a: Vec3, b: Vec3): Vec3 { Vec3(Max(a.x, b.x), Max(a.y, b.y), Max(a.z, b.z)) }

  /** `IsPointInBoundingBox`: inclusive on every axis, so only a box whose minimum lies below its maximum holds a point. */
  predicate IsPointInBoundingBox(p: Vec3, box: BoundingBox)
    ensures IsPointInBoundingBox(p, box) ==>
      box.minBounds.x <= box.maxBounds.x && box.minBounds.y <= box.maxBounds.y && box.minBounds.z <= box.maxBounds.z
  {
    box.minBounds.x <= p.x <= box.maxBounds.x &&
    box.minBounds.y <= p.y <= box.maxBounds.y &&
    box.minBounds.z <= p.z <= box.maxBounds.z
  }

  /** The default box holds exactly the origin. */
  lemma DefaultBoxHoldsOnlyOrigin(p: Vec3)
    ensures IsPointInBoundingBox(p, DefaultBoundingBox) <==> p == Zero
  {
  }

  // ---------------------------------------------------------------------
  // Bounds of a point set
  // ---------------------------------------------------------------------

  /** Component-wise minimum and maximum of a non-empty point sequence. */
  function MinMax(pts: seq<Vec3>): (Vec3, Vec3)
    requires |pts| > 0
  {
    if |pts| == 1 then (pts[0], pts[0])
    else
      var b := MinMax(pts[..|pts| - 1]);
      (VMin(b.0, pts[|pts| - 1]), VMax(b.1, pts[|pts| - 1]))
  }

  /**
   * The box spanned by two corners: the size carries the minimum corner onto the maximum one,
   * and the centre lies as far from either corner on every axis.
   */
  function BoxOf(mn: Vec3, mx: Vec3): (b: BoundingBox)
    ensures b.minBounds == mn && b.maxBounds == mx
    ensures mn.x + b.size.x == mx.x && mn.y + b.size.y == mx.y && mn.z + b.size.z == mx.z
    ensures b.center.x - mn.x == mx.x - b.center.x && b.center.y - mn.y == mx.y - b.center.y &&
      b.center.z - mn.z == mx.z - b.center.z
  {
    BoundingBox(mn, mx,
      Vec3((mn.x + mx.x) * 0.5, (mn.y + mx.y) * 0.5, (mn.z + mx.z) * 0.5),
      Vec3(mx.x - mn.x, mx.y - mn.y, mx.z - mn.z))
  }

  /** Every point lies inside the box of its bounds. */
  lemma {:induction false} BoundsContainAll(pts: seq<Vec3>, k: nat)
    requires k < |pts|
    ensures IsPointInBoundingBox(pts[k], BoxOf(MinMax(pts).0, MinMax(pts).1))
  {
    if |pts| > 1 && k < |pts| - 1 {
      BoundsContainAll(pts[..|pts| - 1], k);
    }
  }

  /** The bounds are tight: each bound on each axis is attained by some point. */
  lemma {:induction false} BoundsAttained(pts: seq<Vec3>)
    requires |pts| > 0
    ensures exists k :: 0 <= k < |pts| && pts[k].x == MinMax(pts).0.x
    ensures exists k :: 0 <= k < |pts| && pts[k].y == MinMax(pts).0.y
    ensures exists k :: 0 <= k < |pts| && pts[k].z == MinMax(pts).0.z
    ensures exists k :: 0 <= k < |pts| && pts[k].x == MinMax(pts).1.x
    ensures exists k :: 0 <= k < |pts| && pts[k].y == MinMax(pts).1.y
    ensures exists k :: 0 <= k < |pts| && pts[k].z == MinMax(pts).1.z
  {
    if |pts| > 1 {
      var p := pts[..|pts| - 1];
      BoundsAttained(p);
      assert forall k :: 0 <= k < |p| ==> pts[k] == p[k];
      assert pts[|pts| - 1] == pts[|pts| - 1];
    } else {
      assert pts[0] == pts[0];
    }
  }

  /**
   * The min/max loop of `CreateBuildingBoundingBox`: it starts from the first point and
   * visits every point, the first again included, then derives size and centre.
   */
  method ComputeBounds(pts: seq<Vec3>) returns (box: BoundingBox)
    requires |pts| > 0
    ensures box == BoxOf(MinMax(pts).0, MinMax(pts).1)
  {
    var mn, mx := pts[0], pts[0];
    var i := 0;
    while i < |pts|
      invariant 0 <= i <= |pts|
      invariant (mn, mx) == MinMax(pts[..if i == 0 then 1 else i])
    {
      assert pts[..i + 1][..i] == pts[..i];
      mn := VMin(mn, pts[i]);
      mx := VMax(mx, pts[i]);
      i := i + 1;
    }
    assert pts[..|pts|] == pts;
    box := BoxOf(mn, mx);
  }

  // ---------------------------------------------------------------------
  // Point in polygon
  // ---------------------------------------------------------------------

  /**
   * Whether the ray from `p` in +X direction crosses the edge from `a` to `b`, in X/Y only.
   * The edge must straddle the ray's Y, which also makes the divisor non-zero.
   */
  predicate Crosses(p: Vec3, a: Vec3, b: Vec3)
  {
    ((a.y > p.y) != (b.y > p.y)) &&
    p.x < (b.x - a.x) * (p.y - a.y) / (b.y - a.y) + a.x
  }

  /** The number of crossed edges among the first `k` edges of the closed outline. */
  function CrossingCount(p: Vec3, poly: seq<Vec3>, k: nat): nat
    requires k <= |poly|
  {
    if k == 0 then 0
    else CrossingCount(p, poly, k - 1) + (if Crosses(p, poly[k - 1], poly[k % |poly|]) then 1 else 0)
  }

  /** The point lies inside the outline: at least 3 vertices and an odd number of crossings. */
  predicate InPolygon(p: Vec3, poly: seq<Vec3>)
  {
    |poly| >= 3 && CrossingCount(p, poly, |poly|) % 2 == 1
  }

  /** `IsPointInPolygon`: counts the crossed edges, each vertex joined to the next and the last to the first. */
  method IsPointInPolygon(p: Vec3, poly: seq<Vec3>) returns (inside: bool)
    ensures inside == InPolygon(p, poly)
  {
    if |poly| < 3 {
      return false;
    }
    var crossings := 0;
    var i := 0;
    while i < |poly|
      invariant 0 <= i <= |poly|
      invariant crossings == CrossingCount(p, poly, i)
    {
      var j := (i + 1) % |poly|;
      var vi, vj := poly[i], poly[j];
      if Crosses(p, vi, vj) {
        crossings := crossings + 1;
      }
      i := i + 1;
    }
    inside := crossings % 2 == 1;
  }

  /** The unit square, counter-clockwise in the X/Y plane. */
  const UnitSquare := [Vec3(0.0, 0.0, 0.0), Vec3(1.0, 0.0, 0.0), Vec3(1.0, 1.0, 0.0), Vec3(0.0, 1.0, 0.0)]

  /** The centre of the unit square is inside it, a point to its right is not. */
  lemma UnitSquareExample()
    ensures InPolygon(Vec3(0.5, 0.5, 0.0), UnitSquare)
    ensures !InPolygon(Vec3(2.0, 0.5, 0.0), UnitSquare)
  {
    var p, q := Vec3(0.5, 0.5, 0.0), Vec3(2.0, 0.5, 0.0);
    assert !Crosses(p, UnitSquare[0], UnitSquare[1]);
    assert Crosses(p, UnitSquare[1], UnitSquare[2]);
    assert !Crosses(p, UnitSquare[2], UnitSquare[3]);
    assert !Crosses(p, UnitSquare[3], UnitSquare[0]);
    assert CrossingCount(p, UnitSquare, 4) == 1;
    assert !Crosses(q, UnitSquare[1], UnitSquare[2]);
    assert !Crosses(q, UnitSquare[3], UnitSquare[0]);
    assert CrossingCount(q, UnitSquare, 4) == 0;
  }

  // ---------------------------------------------------------------------
  // Coordinates of a building
  // ---------------------------------------------------------------------

  /** All points of the entries whose key starts with `id`, in map order. */
  function PrefixConcat(cache: CoordinatesCache, id: string): seq<Vec3>
  {
    if |cache| == 0 then []
    else
      PrefixConcat(cache[..|cache| - 1], id) +
      (if StartsWith(cache[|cache| - 1].0, id) then cache[|cache| - 1].1 else [])
  }

  /** A point is collected exactly when some entry whose key starts with `id` holds it. */
  lemma {:induction false} PrefixConcatHolds(cache: CoordinatesCache, id: string, v: Vec3)
    ensures v in PrefixConcat(cache, id) <==>
      exists i :: 0 <= i < |cache| && StartsWith(cache[i].0, id) && v in cache[i].1
  {
    if |cache| > 0 {
      var p := cache[..|cache| - 1];
      PrefixConcatHolds(p, id, v);
      assert forall i :: 0 <= i < |p| ==> cache[i] == p[i];
      if exists i :: 0 <= i < |cache| && StartsWith(cache[i].0, id) && v in cache[i].1 {
        var i :| 0 <= i < |cache| && StartsWith(cache[i].0, id) && v in cache[i].1;
        if i < |p| {
          assert StartsWith(p[i].0, id) && v in p[i].1;
        }
      }
    }
  }

  /** The loop that appends the points of every entry whose key starts with `id`. */
  method CollectByPrefix(cache: CoordinatesCache, id: string) returns (pts: seq<Vec3>)
    ensures pts == PrefixConcat(cache, id)
  {
    pts := [];
    var i := 0;
    while i < |cache|
      invariant 0 <= i <= |cache|
      invariant pts == PrefixConcat(cache[..i], id)
    {
      assert cache[..i + 1][..i] == cache[..i];
      if StartsWith(cache[i].0, id) {
        pts := pts + cache[i].1;
      }
      i := i + 1;
    }
    assert cache[..|cache|] == cache;
  }

  /** The points `ValidateBuildingPosition` tests: the entry of `id` itself, else every `id`-prefixed entry. */
  function CandidateCoordinates(cache: CoordinatesCache, id: string): seq<Vec3>
  {
    match Find(cache, id)
    case Some(pts) => pts
    case None => PrefixConcat(cache, id)
  }

  /** The bounding box of a point sequence, or the default box for no points. */
  function BoxOfPoints(pts: seq<Vec3>): BoundingBox
  {
    if |pts| == 0 then DefaultBoundingBox else BoxOf(MinMax(pts).0, MinMax(pts).1)
  }

  /**
   * `CreateBuildingBoundingBox` as written: it returns the default box as soon as `id` is
   * not a key, so the prefix merge that follows never runs.
   */
  function CreateBuildingBoundingBoxAsWritten(cache: CoordinatesCache, id: string): (box: BoundingBox)
    ensures !ContainsKey(cache, id) ==> box == DefaultBoundingBox
  {
    if !ContainsKey(cache, id) then DefaultBoundingBox
    else BoxOfPoints(Find(cache, id).value)
  }

  /** `CreateBuildingBoundingBox` as evidently intended: the box of the candidate coordinates. */
  function BuildingBoundingBox(cache: CoordinatesCache, id: string): (box: BoundingBox)
    ensures forall k :: 0 <= k < |CandidateCoordinates(cache, id)| ==>
      IsPointInBoundingBox(CandidateCoordinates(cache, id)[k], box)
  {
    var pts := CandidateCoordinates(cache, id);
    forall k | 0 <= k < |pts| ensures IsPointInBoundingBox(pts[k], BoxOfPoints(pts)) {
      BoundsContainAll(pts, k);
    }
    BoxOfPoints(pts)
  }

  /** Both definitions agree whenever `id` is itself a key, which is how the click handler calls it. */
  lemma BoundingBoxAgreesOnKeys(cache: CoordinatesCache, id: string)
    requires ContainsKey(cache, id)
    ensures CreateBuildingBoundingBoxAsWritten(cache, id) == BuildingBoundingBox(cache, id)
  {
  }

  /** The method form of the corrected `CreateBuildingBoundingBox`. */
  method CreateBuildingBoundingBox(cache: CoordinatesCache, id: string) returns (box: BoundingBox)
    ensures box == BuildingBoundingBox(cache, id)
  {
    var pts: seq<Vec3>;
    match Find(cache, id) {
      case Some(v) => pts := v;
      case None => pts := CollectByPrefix(cache, id);
    }
    if |pts| == 0 {
      return DefaultBoundingBox;
    }
    box := ComputeBounds(pts);
  }

  /** `ValidateBuildingPosition` over a given box: enough points, inside the box, inside the outline. */
  predicate ValidPositionWith(cache: CoordinatesCache, p: Vec3, id: string, box: BoundingBox)
  {
    var pts := CandidateCoordinates(cache, id);
    |pts| >= 3 && IsPointInBoundingBox(p, box) && InPolygon(p, pts)
  }

  predicate ValidPositionAsWritten(cache: CoordinatesCache, p: Vec3, id: string)
  {
    ValidPositionWith(cache, p, id, CreateBuildingBoundingBoxAsWritten(cache, id))
  }

  predicate ValidPosition(cache: CoordinatesCache, p: Vec3, id: string)
  {
    ValidPositionWith(cache, p, id, BuildingBoundingBox(cache, id))
  }

  /** A building stored only under `A#1`: the as-written check rejects a click inside its outline. */
  lemma BoundingBoxCounterexample()
    ensures ValidPosition([("A#1", UnitSquare)], Vec3(0.5, 0.5, 0.0), "A")
    ensures !ValidPositionAsWritten([("A#1", UnitSquare)], Vec3(0.5, 0.5, 0.0), "A")
  {
    var cache: CoordinatesCache := [("A#1", UnitSquare)];
    var p := Vec3(0.5, 0.5, 0.0);
    assert !EqualsIgnoreCase("A#1", "A") by { assert |Fold("A#1")| != |Fold("A")|; }
    assert IndexOf(cache, "A").None?;
    assert StartsWith("A#1", "A") by { assert "A#1"[0..1] == "A"; }
    assert cache[..0] == [];
    assert PrefixConcat(cache, "A") == UnitSquare;
    UnitSquareExample();
    assert MinMax(UnitSquare) == (Vec3(0.0, 0.0, 0.0), Vec3(1.0, 1.0, 0.0)) by {
      var s := UnitSquare;
      assert s[..2][..1] == s[..1] && |s[..1]| == 1;
      assert MinMax(s[..2]) == (Vec3(0.0, 0.0, 0.0), Vec3(1.0, 0.0, 0.0));
      assert s[..3][..2] == s[..2];
      assert MinMax(s[..3]) == (Vec3(0.0, 0.0, 0.0), Vec3(1.0, 1.0, 0.0));
      assert s[..3] == s[..|s| - 1];
    }
    DefaultBoxHoldsOnlyOrigin(p);
  }

  /** For an id that is itself a key, the as-written and the corrected checks decide alike. */
  lemma ValidPositionAgreesOnKeys(cache: CoordinatesCache, p: Vec3, id: string)
    requires ContainsKey(cache, id)
    ensures ValidPositionAsWritten(cache, p, id) == ValidPosition(cache, p, id)
  {
    BoundingBoxAgreesOnKeys(cache, id);
  }

  /** `ValidateBuildingPosition` as written, over the as-written bounding box. */
  method ValidateBuildingPositionAsWritten(cache: CoordinatesCache, p: Vec3, id: string) returns (valid: bool)
    ensures valid == ValidPositionAsWritten(cache, p, id)
    ensures valid ==> InPolygon(p, CandidateCoordinates(cache, id))
    ensures |CandidateCoordinates(cache, id)| < 3 ==> !valid
  {
    var box := CreateBuildingBoundingBoxAsWritten(cache, id);
    var pts: seq<Vec3>;
    if ContainsKey(cache, id) {
      pts := Find(cache, id).value;
    } else {
      pts := CollectByPrefix(cache, id);
    }
    if |pts| < 3 {
      return false;
    }
    if !IsPointInBoundingBox(p, box) {
      return false;
    }
    valid := IsPointInPolygon(p, pts);
  }

  /** `ValidateBuildingPosition`, with the corrected bounding box. */
  method ValidateBuildingPosition(cache: CoordinatesCache, p: Vec3, id: string) returns (valid: bool)
    ensures valid == ValidPosition(cache, p, id)
    ensures valid ==> InPolygon(p, CandidateCoordinates(cache, id))
    ensures |CandidateCoordinates(cache, id)| < 3 ==> !valid
  {
    var box := CreateBuildingBoundingBox(cache, id);
    var pts: seq<Vec3>;
    if ContainsKey(cache, id) {
      pts := Find(cache, id).value;
    } else {
      pts := CollectByPrefix(cache, id);
    }
    if |pts| < 3 {
      return false;
    }
    if !IsPointInBoundingBox(p, box) {
      return false;
    }
    valid := IsPointInPolygon(p, pts);
  }

  // ---------------------------------------------------------------------
  // Building under a clicked point
  // ---------------------------------------------------------------------

  /** A cache key without its `#n` suffix: everything before the first '#', or the whole key. */
  function BaseId(key: string): (r: string)
    ensures |r| <= |key| && r == key[..|r|]
    ensures forall j :: 0 <= j < |r| ==> r[j] != '#'
    ensures |r| < |key| ==> key[|r|] == '#'
  {
    match FindChar(key, '#')
    case Some(i) => key[..i]
    case None => key
  }

  /** The first entry, in map order, whose outline contains `p`. */
  function FirstContaining(cache: CoordinatesCache, p: Vec3): (r: Option<nat>)
    ensures r.Some? ==> r.value < |cache| && InPolygon(p, cache[r.value].1)
    ensures r.Some? ==> forall j :: 0 <= j < r.value ==> !InPolygon(p, cache[j].1)
    ensures r.None? ==> forall j :: 0 <= j < |cache| ==> !InPolygon(p, cache[j].1)
  {
    if |cache| == 0 then None
    else if InPolygon(p, cache[0].1) then Some(0)
    else match FirstContaining(cache[1..], p)
      case None => None
      case Some(i) => Some(i + 1)
  }

  /** `GetBuildingByCoordinates`: the base id of the first entry containing the point, or "". */
  method GetBuildingByCoordinates(cache: CoordinatesCache, p: Vec3) returns (id: string)
    ensures id == match FirstContaining(cache, p) case Some(i) => BaseId(cache[i].0) case None => ""
  {
    var i := 0;
    while i < |cache|
      invariant 0 <= i <= |cache|
      invariant forall j :: 0 <= j < i ==> !InPolygon(p, cache[j].1)
    {
      var hit := IsPointInPolygon(p, cache[i].1);
      if hit {
        FirstIs(cache, p, i);
        return BaseId(cache[i].0);
      }
      i := i + 1;
    }
    return "";
  }

  lemma FirstIs(cache: CoordinatesCache, p: Vec3, i: nat)
    requires i < |cache| && InPolygon(p, cache[i].1)
    requires forall j :: 0 <= j < i ==> !InPolygon(p, cache[j].1)
    ensures FirstContaining(cache, p) == Some(i)
  {
    var r := FirstContaining(cache, p);
    assert r.Some? && r.value == i;
  }
}
