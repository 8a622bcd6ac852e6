/**
 * The adaptive three-point lighting operator of the Stratts Tools add-on:
 * a per-axis minimum/maximum over the world-space bounding-box corners of the
 * selected mesh objects gives a target point and a radius, and three area
 * lights are placed around the target at offsets proportional to the radius.
 *
 * The world matrix is a given function `world` from an object and a local
 * corner to a world-space point; the length of a vector is a given function
 * `length`. The lights' look-at rotation is not modelled.
 */
module StrattsLighting {
  import opened Host

  // ---------------------------------------------------------------------
  //  The corners the reduction sees
  // ---------------------------------------------------------------------

  /** The world-space corners of one object's bounding box, in bound-box order. */
  function ObjectCorners(o: Object, world: (Object, Vec3) -> Vec3): (cs: seq<Vec3>)
    ensures |cs| == 8
    ensures forall k :: 0 <= k < 8 ==> cs[k] == world(o, o.boundBox[k])
  {
    seq(8, k requires 0 <= k < 8 => world(o, o.boundBox[k]))
  }

  /** The corners that selected mesh objects contribute, in selection order. */
  function MeshCorners(selected: seq<Object>, world: (Object, Vec3) -> Vec3): seq<Vec3>
  {
    if selected == [] then []
    else
      var last := selected[|selected| - 1];
      MeshCorners(selected[..|selected| - 1], world)
        + (if last.IsMesh() then ObjectCorners(last, world) else [])
  }

  predicate HasMesh(selected: seq<Object>) {
    exists o :: o in selected && o.IsMesh()
  }

  /** The selected objects of type MESH, in selection order. */
  function Meshes(selected: seq<Object>): (ms: seq<Object>)
    ensures |ms| <= |selected|
    ensures forall o :: o in ms ==> o in selected && o.IsMesh()
    ensures forall o :: o in selected && o.IsMesh() ==> o in ms
  {
    if selected == [] then []
    else
      var last := selected[|selected| - 1];
      Meshes(selected[..|selected| - 1]) + (if last.IsMesh() then [last] else [])
  }

  // ---------------------------------------------------------------------
  //  Streaming minimum and maximum
  // ---------------------------------------------------------------------

  /** An axis-aligned box given by its minimum and maximum corners. */
  datatype Box = Box(lo: Vec3, hi: Vec3)

  function Min(a: real, b: real): real { if a <= b then a else b }
  function Max(a: real, b: real): real { if a >= b then a else b }

  predicate Within(p: Vec3, b: Box) {
    && b.lo.x <= p.x <= b.hi.x
    && b.lo.y <= p.y <= b.hi.y
    && b.lo.z <= p.z <= b.hi.z
  }

  /** One step of the reduction: widen the box (or start one) to take in p. */
  function Extend(b: Option<Box>, p: Vec3): Box
  {
    match b
    case None => Box(p, p)
    case Some(Box(lo, hi)) =>
      Box(Vec3(Min(lo.x, p.x), Min(lo.y, p.y), Min(lo.z, p.z)),
          Vec3(Max(hi.x, p.x), Max(hi.y, p.y), Max(hi.z, p.z)))
  }

  /** The reduction over pts from left to right; no value before the first point. */
  function Bounds(pts: seq<Vec3>): Option<Box>
  {
    if pts == [] then None
    else Some(Extend(Bounds(pts[..|pts| - 1]), pts[|pts| - 1]))
  }

  /** Each of the six faces of b passes through a point of pts. */
  predicate Attained(pts: seq<Vec3>, b: Box) {
    && (exists i :: 0 <= i < |pts| && pts[i].x == b.lo.x)
    && (exists i :: 0 <= i < |pts| && pts[i].y == b.lo.y)
    && (exists i :: 0 <= i < |pts| && pts[i].z == b.lo.z)
    && (exists i :: 0 <= i < |pts| && pts[i].x == b.hi.x)
    && (exists i :: 0 <= i < |pts| && pts[i].y == b.hi.y)
    && (exists i :: 0 <= i < |pts| && pts[i].z == b.hi.z)
  }

  /** The reduction has a value exactly when there is a point, and its box contains every point. */
  lemma {:induction false} BoundsEnclose(pts: seq<Vec3>)
    ensures Bounds(pts).Some? <==> pts != []
    ensures Bounds(pts).Some? ==> forall i :: 0 <= i < |pts| ==> Within(pts[i], Bounds(pts).value)
  {
    if pts != [] {
      var init := pts[..|pts| - 1];
      BoundsEnclose(init);
      forall i | 0 <= i < |pts|
        ensures Within(pts[i], Bounds(pts).value)
      {
        if i < |init| {
          assert pts[i] == init[i];
        }
      }
    }
  }

  /** The box is the smallest one: each face touches one of the points. */
  lemma {:induction false} BoundsAttained(pts: seq<Vec3>)
    requires pts != []
    ensures Bounds(pts).Some? && Attained(pts, Bounds(pts).value)
  {
    var n := |pts| - 1;
    var init := pts[..n];
    var b := Bounds(pts).value;
    if init == [] {
      assert n == 0 && Bounds(init) == None;
      assert b == Extend(None, pts[0]) == Box(pts[0], pts[0]);
    } else {
      BoundsAttained(init);
      var c := Bounds(init).value;
      assert forall i :: 0 <= i < |init| ==> pts[i] == init[i];
      if b.lo.x != pts[n].x {
        var i :| 0 <= i < |init| && init[i].x == c.lo.x;
        assert pts[i].x == b.lo.x;
      }
      if b.lo.y != pts[n].y {
        var i :| 0 <= i < |init| && init[i].y == c.lo.y;
        assert pts[i].y == b.lo.y;
      }
      if b.lo.z != pts[n].z {
        var i :| 0 <= i < |init| && init[i].z == c.lo.z;
        assert pts[i].z == b.lo.z;
      }
      if b.hi.x != pts[n].x {
        var i :| 0 <= i < |init| && init[i].x == c.hi.x;
        assert pts[i].x == b.hi.x;
      }
      if b.hi.y != pts[n].y {
        var i :| 0 <= i < |init| && init[i].y == c.hi.y;
        assert pts[i].y == b.hi.y;
      }
      if b.hi.z != pts[n].z {
        var i :| 0 <= i < |init| && init[i].z == c.hi.z;
        assert pts[i].z == b.hi.z;
      }
    }
  }

  /** The selection contributes corners exactly when it holds a mesh. */
  lemma {:induction false} MeshCornersEmpty(selected: seq<Object>, world: (Object, Vec3) -> Vec3)
    ensures MeshCorners(selected, world) == [] <==> !HasMesh(selected)
  {
    if selected != [] {
      var init := selected[..|selected| - 1];
      MeshCornersEmpty(init, world);
      assert forall o :: o in selected <==> o in init || o == selected[|selected| - 1];
    }
  }

  /** Objects that are not meshes contribute nothing: only the meshes decide the corners. */
  lemma {:induction false} OnlyMeshesContribute(selected: seq<Object>, world: (Object, Vec3) -> Vec3)
    ensures MeshCorners(selected, world) == MeshCorners(Meshes(selected), world)
  {
    if selected != [] {
      var init := selected[..|selected| - 1];
      var last := selected[|selected| - 1];
      OnlyMeshesContribute(init, world);
      var ms := Meshes(init);
      if last.IsMesh() {
        assert Meshes(selected) == ms + [last];
        assert (ms + [last])[..|ms|] == ms;
      } else {
        assert Meshes(selected) == ms + [] == ms;
      }
    }
  }

  /**
   * Lines 41-58: visit the selected objects in order and, for each mesh, its
   * eight world-space corners, widening the running box by each. The host's
   * found_mesh flag coincides with the box having a value, because every bound
   * box has eight corners.
   */
  method SelectionBounds(selected: seq<Object>, world: (Object, Vec3) -> Vec3) returns (bounds: Option<Box>)
    ensures bounds == Bounds(MeshCorners(selected, world))
    ensures bounds.Some? <==> HasMesh(selected)
    ensures bounds.Some? ==> forall o, k :: o in selected && o.IsMesh() && 0 <= k < 8 ==>
                               Within(world(o, o.boundBox[k]), bounds.value)
  {
    bounds := None;
    var i := 0;
    while i < |selected|
      invariant 0 <= i <= |selected|
      invariant bounds == Bounds(MeshCorners(selected[..i], world))
    {
      var obj := selected[i];
      ghost var before := MeshCorners(selected[..i], world);
      assert selected[..i + 1][..i] == selected[..i];
      if obj.IsMesh() {
        assert before + ObjectCorners(obj, world)[..0] == before;
        var j := 0;
        while j < 8
          invariant 0 <= j <= 8
          invariant bounds == Bounds(before + ObjectCorners(obj, world)[..j])
        {
          var worldCorner := world(obj, obj.boundBox[j]);
          ghost var prefix := before + ObjectCorners(obj, world)[..j + 1];
          assert prefix[..|prefix| - 1] == before + ObjectCorners(obj, world)[..j];
          bounds := Some(Extend(bounds, worldCorner));
          j := j + 1;
        }
        assert ObjectCorners(obj, world)[..8] == ObjectCorners(obj, world);
      } else {
        assert MeshCorners(selected[..i + 1], world) == before + [] == before;
      }
      i := i + 1;
    }
    assert selected[..|selected|] == selected;
    MeshCornersEmpty(selected, world);
    BoundsEnclose(MeshCorners(selected, world));
    if bounds.Some? {
      forall o, k | o in selected && o.IsMesh() && 0 <= k < 8
        ensures Within(world(o, o.boundBox[k]), bounds.value)
      {
        CornerIsCounted(selected, world, o, k);
      }
    }
  }

  /** Every corner of every selected mesh is among the corners the reduction sees. */
  lemma {:induction false} CornerIsCounted(selected: seq<Object>, world: (Object, Vec3) -> Vec3, o: Object, k: nat)
    requires o in selected && o.IsMesh() && k < 8
    ensures world(o, o.boundBox[k]) in MeshCorners(selected, world)
  {
    var init := selected[..|selected| - 1];
    var last := selected[|selected| - 1];
    if o == last {
      assert ObjectCorners(o, world)[k] == world(o, o.boundBox[k]);
    } else {
      assert o in init;
      CornerIsCounted(init, world, o, k);
    }
  }

  // ---------------------------------------------------------------------
  //  Target and radius
  // ---------------------------------------------------------------------

  /** The point the lights aim at and the scale of the rig. */
  datatype Placement = Placement(target: Vec3, radius: real)

  /** Line 39: the radius when the selection gives no extent. */
  const DefaultRadius: real := 3.0

  function Midpoint(b: Box): Vec3 {
    Vec3((b.lo.x + b.hi.x) / 2.0, (b.lo.y + b.hi.y) / 2.0, (b.lo.z + b.hi.z) / 2.0)
  }

  function Diagonal(b: Box): Vec3 { b.hi.Minus(b.lo) }

  /** Line 68: one and a half diagonals, but never less than the default radius. */
  function ClampedRadius(diagonalLength: real): (r: real)
    ensures r >= DefaultRadius && r >= 1.5 * diagonalLength
    ensures r == DefaultRadius || r == 1.5 * diagonalLength
  {
    Max(diagonalLength * 1.5, DefaultRadius)
  }

  /**
   * Lines 38-74: the midpoint and clamped radius of the selected meshes'
   * world box, or the 3D cursor and the default radius when no mesh is
   * selected (whether nothing at all or only other objects are selected).
   */
  function PlacementFor(selected: seq<Object>, world: (Object, Vec3) -> Vec3, length: Vec3 -> real, cursor: Vec3): (p: Placement)
    ensures p.radius >= DefaultRadius
  {
    match Bounds(MeshCorners(selected, world))
    case None => Placement(cursor, DefaultRadius)
    case Some(b) => Placement(Midpoint(b), ClampedRadius(length(Diagonal(b))))
  }

  /** With no mesh selected the lights aim at the cursor and the radius is exactly 3.0. */
  lemma CursorFallback(selected: seq<Object>, world: (Object, Vec3) -> Vec3, length: Vec3 -> real, cursor: Vec3)
    requires !HasMesh(selected)
    ensures PlacementFor(selected, world, length, cursor) == Placement(cursor, DefaultRadius)
  {
    MeshCornersEmpty(selected, world);
  }

  /**
   * With a mesh selected, the target is the centre of the smallest box that
   * holds every world corner of every selected mesh: it lies in the box, as
   * far from each minimum face as from the opposite maximum face.
   */
  lemma TargetIsBoxCentre(selected: seq<Object>, world: (Object, Vec3) -> Vec3, length: Vec3 -> real, cursor: Vec3)
    requires HasMesh(selected)
    ensures var corners := MeshCorners(selected, world);
            var p := PlacementFor(selected, world, length, cursor);
            && Bounds(corners).Some?
            && var b := Bounds(corners).value;
            && (forall i :: 0 <= i < |corners| ==> Within(corners[i], b))
            && Attained(corners, b)
            && Within(p.target, b)
            && p.target.Minus(b.lo) == b.hi.Minus(p.target)
            && p.radius == ClampedRadius(length(Diagonal(b)))
  {
    var corners := MeshCorners(selected, world);
    MeshCornersEmpty(selected, world);
    BoundsEnclose(corners);
    BoundsAttained(corners);
    var b := Bounds(corners).value;
    if corners != [] {
      assert Within(corners[0], b);
    }
  }

  /** Selecting other objects besides the meshes changes neither target nor radius. */
  lemma PlacementIgnoresNonMeshes(selected: seq<Object>, world: (Object, Vec3) -> Vec3, length: Vec3 -> real, cursor: Vec3)
    ensures PlacementFor(selected, world, length, cursor) == PlacementFor(Meshes(selected), world, length, cursor)
  {
    OnlyMeshesContribute(selected, world);
  }

  function NormSquared(v: Vec3): real { v.x * v.x + v.y * v.y + v.z * v.z }

  /**
   * When `len` is the Euclidean length of the diagonal, the radius grows past
   * its default exactly when the diagonal is longer than 2.
   */
  lemma RadiusExceedsDefault(diagonal: Vec3, len: real)
    requires len >= 0.0 && len * len == NormSquared(diagonal)
    ensures ClampedRadius(len) > DefaultRadius <==> NormSquared(diagonal) > 4.0
  {
    if len > 2.0 {
      assert len * len > 2.0 * len > 4.0;
    } else {
      assert len * len <= 2.0 * len <= 4.0;
    }
  }

  // ---------------------------------------------------------------------
  //  The light table and the operator
  // ---------------------------------------------------------------------

  /** One row of the light-settings table (lines 77-90). */
  datatype LightSpec = LightSpec(name: string, location: Vec3, energy: real, color: Vec3, kind: LightType, size: real)

  /** Lines 77-90: the Key, Fill and Back lights, offset from the target by multiples of the radius. */
  function LightSettings(p: Placement): seq<LightSpec>
  {
    var r := p.radius;
    [ LightSpec("Key Light", p.target.Plus(Vec3(r, -r, r * 0.75)), 100.0, Vec3(1.0, 0.98, 0.95), AreaLight, r * 1.0),
      LightSpec("Fill Light", p.target.Plus(Vec3(-r, -r * 0.75, r * 0.5)), 50.0, Vec3(0.95, 0.98, 1.0), AreaLight, r * 0.8),
      LightSpec("Back Light", p.target.Plus(Vec3(0.0, r * 1.5, r * 0.75)), 70.0, Vec3(1.0, 1.0, 1.0), AreaLight, r * 0.50) ]
  }

  /** Key, Fill and Back, in that order, with energies 100, 50 and 70. */
  lemma LightOrder(p: Placement)
    ensures var s := LightSettings(p);
            && |s| == 3
            && s[0].name == "Key Light" && s[1].name == "Fill Light" && s[2].name == "Back Light"
            && s[0].energy == 100.0 && s[1].energy == 50.0 && s[2].energy == 70.0
            && forall i :: 0 <= i < 3 ==> s[i].kind == AreaLight
  {
  }

  /** Each light's offset from the target, per unit of radius. */
  const LightDirections: seq<Vec3> := [Vec3(1.0, -1.0, 0.75), Vec3(-1.0, -0.75, 0.5), Vec3(0.0, 1.5, 0.75)]

  /** Each light's size, per unit of radius. */
  const SizeFactors: seq<real> := [1.0, 0.8, 0.5]

  /**
   * Every light sits at the radius times its fixed direction from the
   * target, and its size is the radius times its fixed factor.
   */
  lemma LightsAlongDirections(p: Placement)
    ensures forall i :: 0 <= i < 3 ==>
              && LightSettings(p)[i].location.Minus(p.target) == LightDirections[i].Scale(p.radius)
              && LightSettings(p)[i].size == p.radius * SizeFactors[i]
  {
  }

  /**
   * The offsets from the target and the sizes are linear in the radius:
   * scaling the radius by k scales every offset and every size by k.
   */
  lemma LightsScaleWithRadius(target: Vec3, r: real, k: real)
    ensures var s := LightSettings(Placement(target, r));
            var t := LightSettings(Placement(target, k * r));
            forall i :: 0 <= i < 3 ==>
              && t[i].location.Minus(target) == s[i].location.Minus(target).Scale(k)
              && t[i].size == k * s[i].size
  {
    LightsAlongDirections(Placement(target, r));
    LightsAlongDirections(Placement(target, k * r));
    forall i | 0 <= i < 3
      ensures LightDirections[i].Scale(k * r) == LightDirections[i].Scale(r).Scale(k)
      ensures (k * r) * SizeFactors[i] == k * (r * SizeFactors[i])
    {
      ScaleTwice(LightDirections[i], r, k);
    }
  }

  /** Scaling by r and then by k is scaling by k * r. */
  lemma ScaleTwice(v: Vec3, r: real, k: real)
    ensures v.Scale(k * r) == v.Scale(r).Scale(k)
  {
  }

  /**
   * With the radius at least 3.0, every light sits above the target and off
   * its vertical axis, so the direction it aims along is never zero and
   * never vertical.
   */
  lemma LightsAboveAndOffAxis(p: Placement)
    requires p.radius >= DefaultRadius
    ensures forall i :: 0 <= i < 3 ==>
              var d := p.target.Minus(LightSettings(p)[i].location);
              d.z < 0.0 && (d.x != 0.0 || d.y != 0.0)
  {
  }

  /**
   * STRATTS_OT_AddTriLighting.execute (lines 37-113): compute the placement,
   * then create the three area lights in table order, link each into the
   * context collection and move it to its location.
   */
  method AddTriLighting(selected: seq<Object>, world: (Object, Vec3) -> Vec3, length: Vec3 -> real,
                        cursor: Vec3, collection: Collection)
    returns (status: Status, lights: seq<Object>)
    modifies collection`objects
    ensures status == Finished
    ensures |lights| == 3 && forall i :: 0 <= i < 3 ==> fresh(lights[i])
    ensures collection.objects == old(collection.objects) + lights
    ensures var specs := LightSettings(PlacementFor(selected, world, length, cursor));
            forall i :: 0 <= i < 3 ==>
              && lights[i].name == specs[i].name
              && lights[i].data == LightData(Light(specs[i].name, specs[i].kind, specs[i].energy, specs[i].color, specs[i].size))
              && lights[i].location == specs[i].location
  {
    var target := Origin;
    var radius := DefaultRadius;
    if |selected| > 0 {
      var bounds := SelectionBounds(selected, world);
      if bounds.Some? {
        target := Midpoint(bounds.value);
        radius := ClampedRadius(length(Diagonal(bounds.value)));
      } else {
        target := cursor;
      }
    } else {
      target := cursor;
    }
    assert Placement(target, radius) == PlacementFor(selected, world, length, cursor);

    var specs := LightSettings(Placement(target, radius));
    lights := [];
    var i := 0;
    while i < |specs|
      invariant 0 <= i <= 3 && |lights| == i
      invariant forall k :: 0 <= k < i ==> fresh(lights[k])
      invariant collection.objects == old(collection.objects) + lights
      invariant forall k :: 0 <= k < i ==>
                  && lights[k].name == specs[k].name
                  && lights[k].data == LightData(Light(specs[k].name, specs[k].kind, specs[k].energy, specs[k].color, specs[k].size))
                  && lights[k].location == specs[k].location
    {
      var settings := specs[i];
      var size := if settings.kind == AreaLight then settings.size else DefaultLightSize;
      var lightData := Light(settings.name, settings.kind, settings.energy, settings.color, size);
      var lightObject := new Object(settings.name, LightData(lightData));
      collection.LinkObject(lightObject);
      lightObject.location := settings.location;
      lights := lights + [lightObject];
      i := i + 1;
    }
    status := Finished;
  }
}
