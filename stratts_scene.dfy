/**
 * The scene operators of the second version of Stratt's Tools: a camera
 * placed at the viewport's view or at the 3D cursor, three colour-tagged
 * collections, a "Rigid Bodies" collection, and a fixed three-light rig
 * gathered in its own collection.
 *
 * The screen is a sequence of areas, each with its spaces; the conversion of
 * a view rotation quaternion into Euler angles is the parameter `toEuler`.
 */
module StrattsScene {
  import opened Host

  // ---------------------------------------------------------------------
  //  STRATT_OT_AddCamera
  // ---------------------------------------------------------------------

  datatype CameraMode = Viewport | Cursor

  /** A space of an area; the view fields are those of its 3D region and matter only for VIEW_3D. */
  datatype Space = Space(kind: SpaceType, viewLocation: Vec3, viewRotation: Quaternion)

  datatype Area = Area(kind: SpaceType, spaces: seq<Space>)

  /** The index of the first element with property p (the search of a for loop that breaks on p). */
  function FirstWhere<T>(xs: seq<T>, p: T -> bool): (r: Option<nat>)
    ensures r.Some? ==> r.value < |xs| && p(xs[r.value])
    ensures r.Some? ==> forall k :: 0 <= k < r.value ==> !p(xs[k])
    ensures r.None? ==> forall k :: 0 <= k < |xs| ==> !p(xs[k])
  {
    if xs == [] then None
    else if p(xs[0]) then Some(0)
    else match FirstWhere(xs[1..], p)
         case None => None
         case Some(i) => Some(i + 1)
  }

  /** Line 111. */
  predicate IsViewArea(a: Area) { a.kind == View3D }

  /** Line 113. */
  predicate IsViewSpace(sp: Space) { sp.kind == View3D }

  /**
   * Lines 110-118: the space whose view the camera copies, the first VIEW_3D
   * space of the first VIEW_3D area; no later area is searched.
   */
  function ViewportSpace(areas: seq<Area>): (r: Option<Space>)
    ensures r.Some? ==> r.value.kind == View3D
    ensures r.Some? ==> exists i :: 0 <= i < |areas| && r.value in areas[i].spaces && areas[i].kind == View3D
    ensures r.Some? <==> FirstWhere(areas, IsViewArea).Some? && FirstWhere(areas[FirstWhere(areas, IsViewArea).value].spaces, IsViewSpace).Some?
  {
    match FirstWhere(areas, IsViewArea)
    case None => None
    case Some(i) =>
      match FirstWhere(areas[i].spaces, IsViewSpace)
      case None => None
      case Some(j) => Some(areas[i].spaces[j])
  }

  /**
   * The outer break of line 118: when the first VIEW_3D area has no VIEW_3D
   * space, a VIEW_3D space in any later area is not found.
   */
  lemma {:induction false} FirstAreaDecides(areas: seq<Area>, rest: seq<Area>)
    requires areas != [] && areas[0].kind == View3D
    requires forall k :: 0 <= k < |areas[0].spaces| ==> areas[0].spaces[k].kind != View3D
    ensures ViewportSpace(areas + rest) == None
  {
    var all := areas + rest;
    assert all[0] == areas[0];
    assert FirstWhere(all, IsViewArea) == Some(0);
    assert FirstWhere(all[0].spaces, IsViewSpace) == None;
  }

  /** A screen whose views come only after the earlier areas finds the first of them. */
  lemma {:induction false} OtherAreasSkipped(areas: seq<Area>, rest: seq<Area>)
    requires forall k :: 0 <= k < |areas| ==> areas[k].kind != View3D
    ensures ViewportSpace(areas + rest) == ViewportSpace(rest)
  {
    if areas != [] {
      var all := areas + rest;
      assert all[1..] == areas[1..] + rest;
      OtherAreasSkipped(areas[1..], rest);
    } else {
      assert areas + rest == rest;
    }
  }

  /**
   * STRATT_OT_AddCamera.execute (lines 100-130): a new camera linked to the
   * scene collection, placed per mode, then made active and selected. In
   * viewport mode with no VIEW_3D space found it keeps the default transform
   * and the operator still finishes.
   */
  method AddCamera(scene: Collection, layer: ViewLayer, areas: seq<Area>, mode: CameraMode,
                   cursorLocation: Vec3, cursorRotation: Vec3, toEuler: Quaternion -> Vec3)
    returns (status: Status, cam: Object)
    modifies scene`objects, layer`active
    ensures fresh(cam) && cam.name == "Camera" && cam.data == CameraData
    ensures scene.objects == old(scene.objects) + [cam]
    ensures layer.active == cam && cam.selected
    ensures mode == Cursor ==> cam.location == cursorLocation && cam.rotation == cursorRotation
    ensures mode == Viewport ==>
              match ViewportSpace(areas)
              case Some(sp) => cam.location == sp.viewLocation && cam.rotation == toEuler(sp.viewRotation)
              case None => cam.location == Origin && cam.rotation == Origin
    ensures cam.slots == [] && cam.rigidBody == None
    ensures status == Finished
  {
    cam := new Object("Camera", CameraData);
    scene.LinkObject(cam);
    if mode == Viewport {
      var i := 0;
      while i < |areas|
        invariant 0 <= i <= |areas|
        invariant forall k :: 0 <= k < i ==> areas[k].kind != View3D
        invariant cam.location == Origin && cam.rotation == Origin
      {
        if areas[i].kind == View3D {
          var spaces := areas[i].spaces;
          var j := 0;
          while j < |spaces|
            invariant 0 <= j <= |spaces|
            invariant forall k :: 0 <= k < j ==> spaces[k].kind != View3D
            invariant cam.location == Origin && cam.rotation == Origin
          {
            if spaces[j].kind == View3D {
              cam.location := spaces[j].viewLocation;
              cam.rotation := toEuler(spaces[j].viewRotation);
              assert FirstWhere(spaces, IsViewSpace) == Some(j);
              break;
            }
            j := j + 1;
          }
          assert FirstWhere(areas, IsViewArea) == Some(i);
          break;
        }
        i := i + 1;
      }
    } else {
      cam.location := cursorLocation;
      cam.rotation := cursorRotation;
    }
    layer.active := cam;
    cam.selected := true;
    status := Finished;
  }

  // ---------------------------------------------------------------------
  //  STRATT_OT_AddCollections
  // ---------------------------------------------------------------------

  /** Line 140. */
  const CollectionBases: seq<string> := ["Geometry_Assets", "Props_Detail", "Environment_Elements"]

  /** Line 145, paired with the names by index. */
  const CollectionTags: seq<ColorTag> := [Color01, Color02, Color03]

  /**
   * STRATT_OT_AddCollections.execute (lines 138-154): three new collections,
   * each under a name not yet taken, linked in order as children of the scene
   * collection, each with its colour tag.
   */
  method AddCollections(data: BlendData, scene: Collection) returns (status: Status, made: seq<Collection>)
    modifies data`collections, scene`children
    ensures |made| == 3
    ensures forall k :: 0 <= k < 3 ==>
              && fresh(made[k])
              && made[k].name.base == CollectionBases[k]
              && made[k].name !in old(data.CollectionNames())
              && made[k].colorTag == CollectionTags[k]
              && made[k].objects == [] && made[k].children == []
    ensures scene.children == old(scene.children) + made
    ensures data.collections == old(data.collections) + made
    ensures status == Finished
  {
    made := [];
    var i := 0;
    while i < 3
      invariant 0 <= i <= 3 && |made| == i
      invariant forall k :: 0 <= k < i ==>
                  && fresh(made[k])
                  && made[k].name.base == CollectionBases[k]
                  && made[k].name !in old(data.CollectionNames())
                  && made[k].colorTag == CollectionTags[k]
                  && made[k].objects == [] && made[k].children == []
      invariant scene.children == old(scene.children) + made
      invariant data.collections == old(data.collections) + made
    {
      ghost var names := data.CollectionNames();
      assert old(data.CollectionNames()) <= names;
      var col := data.NewCollection(CollectionBases[i]);
      scene.LinkChild(col);
      col.colorTag := CollectionTags[i];
      made := made + [col];
      i := i + 1;
    }
    status := Finished;
  }

  // ---------------------------------------------------------------------
  //  STRATT_OT_AddRigidBodiesCollection
  // ---------------------------------------------------------------------

  const RigidBodiesName := IdName("Rigid Bodies", 0)

  /**
   * STRATT_OT_AddRigidBodiesCollection.execute as written (lines 162-172): a
   * new collection asked to be called "Rigid Bodies" is made and linked
   * unless a direct child of the scene collection already has that exact
   * name. The host renames the new collection when the name is taken anywhere
   * in the file.
   */
  method AddRigidBodiesCollection(data: BlendData, scene: Collection) returns (status: Status, added: Option<Collection>)
    modifies data`collections, scene`children
    ensures old(scene.HasChildNamed(RigidBodiesName)) ==>
              added == None && scene.children == old(scene.children) && data.collections == old(data.collections)
    ensures !old(scene.HasChildNamed(RigidBodiesName)) ==>
              && added.Some? && fresh(added.value)
              && added.value.name == UniqueName(RigidBodiesName.base, old(data.CollectionNames()))
              && scene.children == old(scene.children) + [added.value]
              && data.collections == old(data.collections) + [added.value]
    ensures status == Finished
  {
    added := None;
    if !scene.HasChildNamed(RigidBodiesName) {
      var col := data.NewCollection(RigidBodiesName.base);
      scene.LinkChild(col);
      added := Some(col);
    }
    status := Finished;
  }

  /**
   * The evident intent of lines 165-168: make sure the scene collection has a
   * child called exactly "Rigid Bodies", linking the registered collection of
   * that name when there is one and creating it only when there is none.
   */
  method EnsureRigidBodiesCollection(data: BlendData, scene: Collection) returns (status: Status, linked: Option<Collection>)
    modifies data`collections, scene`children
    ensures scene.HasChildNamed(RigidBodiesName)
    ensures old(scene.HasChildNamed(RigidBodiesName)) ==>
              linked == None && scene.children == old(scene.children) && data.collections == old(data.collections)
    ensures !old(scene.HasChildNamed(RigidBodiesName)) ==>
              && linked.Some? && linked.value.name == RigidBodiesName
              && scene.children == old(scene.children) + [linked.value]
    ensures !old(scene.HasChildNamed(RigidBodiesName)) && RigidBodiesName in old(data.CollectionNames()) ==>
              linked.Some? && linked.value in old(data.collections) && data.collections == old(data.collections)
    ensures !old(scene.HasChildNamed(RigidBodiesName)) && RigidBodiesName !in old(data.CollectionNames()) ==>
              linked.Some? && fresh(linked.value) && data.collections == old(data.collections) + [linked.value]
    ensures status == Finished
  {
    status := Finished;
    linked := None;
    if scene.HasChildNamed(RigidBodiesName) {
      return;
    }
    var i := 0;
    while i < |data.collections|
      invariant 0 <= i <= |data.collections|
      invariant forall k :: 0 <= k < i ==> data.collections[k].name != RigidBodiesName
    {
      if data.collections[i].name == RigidBodiesName {
        scene.LinkChild(data.collections[i]);
        linked := Some(data.collections[i]);
        return;
      }
      i := i + 1;
    }
    assert RigidBodiesName !in data.CollectionNames();
    var col := data.NewCollection(RigidBodiesName.base);
    scene.LinkChild(col);
    linked := Some(col);
    assert scene.children[|scene.children| - 1] == col;
  }

  /** When base, base.001, ..., up to number n - 1 are taken and number n is free, a new block gets number n. */
  lemma NumberedAfter(base: string, taken: set<IdName>, n: nat)
    requires forall k :: 0 <= k < n ==> IdName(base, k) in taken
    requires IdName(base, n) !in taken
    ensures UniqueName(base, taken) == IdName(base, n)
  {
  }

  /**
   * A file holding a "Rigid Bodies" collection that is not a child of the
   * scene collection: each run of the operator as written adds another
   * renamed copy, while the corrected one links the existing collection once.
   */
  method RigidBodiesDuplicateWitness() returns (asWritten: seq<IdName>, corrected: nat)
    ensures asWritten == [IdName("Rigid Bodies", 1), IdName("Rigid Bodies", 2)]
    ensures corrected == 1
  {
    var data := new BlendData();
    var stray := data.NewCollection("Rigid Bodies");
    assert data.CollectionNames() == {RigidBodiesName};

    var scene := new Collection(IdName("Scene Collection", 0));
    var status, first := AddRigidBodiesCollection(data, scene);
    NumberedAfter("Rigid Bodies", {RigidBodiesName}, 1);
    assert first.value.name.number == 1;
    assert data.collections == [stray, first.value];
    assert data.CollectionNames() == {RigidBodiesName, IdName("Rigid Bodies", 1)};
    assert !scene.HasChildNamed(RigidBodiesName);
    var second;
    status, second := AddRigidBodiesCollection(data, scene);
    NumberedAfter("Rigid Bodies", {RigidBodiesName, IdName("Rigid Bodies", 1)}, 2);
    assert second.value.name.number == 2;
    asWritten := [first.value.name, second.value.name];

    var data2 := new BlendData();
    var stray2 := data2.NewCollection("Rigid Bodies");
    assert data2.CollectionNames() == {RigidBodiesName};
    var scene2 := new Collection(IdName("Scene Collection", 0));
    var linked;
    status, linked := EnsureRigidBodiesCollection(data2, scene2);
    status, linked := EnsureRigidBodiesCollection(data2, scene2);
    corrected := |scene2.children|;
  }

  // ---------------------------------------------------------------------
  //  STRATT_OT_AddTriLighting
  // ---------------------------------------------------------------------

  /** One light of the fixed rig: its name, energy, size, colour, location and Euler rotation. */
  datatype RigLight = RigLight(name: string, energy: real, size: real, color: Vec3, location: Vec3, rotation: Vec3)

  /** Lines 43-72. */
  const KeyLight := RigLight("Key_Light", 1000.0, 1.0, Vec3(1.0, 0.95, 0.9), Vec3(5.0, -7.0, 5.0), Vec3(0.7, 0.0, 0.7))
  const FillLight := RigLight("Fill_Light", 400.0, 1.5, Vec3(0.9, 0.95, 1.0), Vec3(-7.0, -5.0, 4.0), Vec3(0.8, 0.0, -0.8))
  const RimLight := RigLight("Rim_Light", 600.0, 0.7, Vec3(1.0, 1.0, 0.95), Vec3(0.0, 7.0, 6.0), Vec3(0.3, 0.0, 0.0))

  /** The object a rig entry becomes: an area light carrying the entry's settings. */
  predicate IsRigObject(o: Object, spec: RigLight)
    reads o
  {
    && o.name == spec.name
    && o.data == LightData(Light(spec.name, AreaLight, spec.energy, spec.color, spec.size))
    && o.location == spec.location && o.rotation == spec.rotation
  }

  /** One block of lines 43-50: a new area light object, linked to the scene collection, then placed. */
  method AddRigLight(scene: Collection, spec: RigLight) returns (o: Object)
    modifies scene`objects
    ensures fresh(o) && IsRigObject(o, spec)
    ensures scene.objects == old(scene.objects) + [o]
  {
    var light := Light(spec.name, AreaLight, spec.energy, spec.color, spec.size);
    o := new Object(spec.name, LightData(light));
    scene.LinkObject(o);
    o.location := spec.location;
    o.rotation := spec.rotation;
  }

  /**
   * STRATT_OT_AddTriLighting.execute of the second version (lines 38-82):
   * key, fill and rim lights linked to the scene collection in that order,
   * then a new "Tri_Lights" collection linked under the scene collection and
   * holding the same three lights.
   */
  method AddFixedTriLighting(data: BlendData, scene: Collection)
    returns (status: Status, lights: seq<Object>, group: Collection)
    modifies data`collections, scene`objects, scene`children
    ensures |lights| == 3
    ensures fresh(lights[0]) && fresh(lights[1]) && fresh(lights[2])
    ensures IsRigObject(lights[0], KeyLight) && IsRigObject(lights[1], FillLight) && IsRigObject(lights[2], RimLight)
    ensures scene.objects == old(scene.objects) + lights
    ensures fresh(group) && group.name == UniqueName("Tri_Lights", old(data.CollectionNames()))
    ensures group.objects == lights && group.children == [] && group.colorTag == NoColor
    ensures scene.children == old(scene.children) + [group]
    ensures data.collections == old(data.collections) + [group]
    ensures status == Finished
  {
    var key := AddRigLight(scene, KeyLight);
    var fill := AddRigLight(scene, FillLight);
    var rim := AddRigLight(scene, RimLight);
    group := data.NewCollection("Tri_Lights");
    scene.LinkChild(group);
    group.LinkObject(key);
    group.LinkObject(fill);
    group.LinkObject(rim);
    lights := [key, fill, rim];
    status := Finished;
  }
}
