/**
 * The part of the host application's data model that the three add-ons read
 * and write: objects, collections, the material and collection registries,
 * the view layer's active object and the screen's areas. A host operator the
 * add-ons call is modelled only by its effect on these records.
 */
module Host {

  datatype Option<T> = None | Some(value: T)

  /** A location, an offset, an Euler rotation or an RGB colour. */
  datatype Vec3 = Vec3(x: real, y: real, z: real)
  {
    function Plus(v: Vec3): Vec3 { Vec3(x + v.x, y + v.y, z + v.z) }
    function Minus(v: Vec3): Vec3 { Vec3(x - v.x, y - v.y, z - v.z) }
    function Scale(k: real): Vec3 { Vec3(k * x, k * y, k * z) }
  }

  const Origin := Vec3(0.0, 0.0, 0.0)

  /** A rotation quaternion, as a 3D view stores its view rotation. */
  datatype Quaternion = Quaternion(w: real, x: real, y: real, z: real)

  /** The eight corners of an object's local bounding box; the host always gives eight. */
  type BoundBox = corners: seq<Vec3> | |corners| == 8
    witness [Origin, Origin, Origin, Origin, Origin, Origin, Origin, Origin]

  /** What an operator's execute returns; Raised stands for a Python exception escaping it. */
  datatype Status = Finished | Cancelled | Raised

  datatype SpaceType = View3D | ImageEditor | NodeEditor | Outliner | Properties | TextEditor

  // ---------------------------------------------------------------------
  //  Data-block names
  // ---------------------------------------------------------------------

  /**
   * A data-block name as the host stores it: the base alone when number is 0,
   * otherwise the base followed by ".001", ".002", ...
   */
  datatype IdName = IdName(base: string, number: nat)

  /** An upper bound on the numbers used in a finite set of names. */
  ghost function MaxNumber(names: set<IdName>): (m: nat)
    ensures forall n :: n in names ==> n.number <= m
  {
    if names == {} then 0
    else
      var n :| n in names;
      var rest := MaxNumber(names - {n});
      if n.number > rest then n.number else rest
  }

  /** The first name base.k, k >= from, that is not taken. */
  function FirstFreeFrom(base: string, taken: set<IdName>, from: nat): (r: IdName)
    ensures r.base == base && r !in taken && from <= r.number
    ensures forall k :: from <= k < r.number ==> IdName(base, k) in taken
    decreases MaxNumber(taken) - from
  {
    if IdName(base, from) !in taken then IdName(base, from)
    else FirstFreeFrom(base, taken, from + 1)
  }

  /**
   * The name a new data block asked to be called `base` receives: the base
   * itself when that is free, otherwise the lowest free numbered variant.
   */
  function UniqueName(base: string, taken: set<IdName>): (r: IdName)
    ensures r.base == base && r !in taken
    ensures r.number == 0 <==> IdName(base, 0) !in taken
    ensures forall k :: 0 <= k < r.number ==> IdName(base, k) in taken
  {
    FirstFreeFrom(base, taken, 0)
  }

  // ---------------------------------------------------------------------
  //  Objects and their data
  // ---------------------------------------------------------------------

  datatype LightType = AreaLight | PointLight | SunLight | SpotLight

  /** A light data block: its emitter shape, energy (W), colour and area size. */
  datatype Light = Light(name: string, kind: LightType, energy: real, color: Vec3, size: real)

  /** The host's area size of a new light data block. */
  const DefaultLightSize: real := 0.25

  /** The data an object carries; its kind is the object's type. */
  datatype ObjectData = MeshData | CurveData | EmptyData | CameraData | LightData(light: Light)

  /** Which preset inputs were written into a material's Principled BSDF node. */
  datatype Shading = NodesOnly | CarPaint | ClearGlass | TranslucentPlastic | LightGray

  datatype Material = Material(name: string, shading: Shading)

  /** One material slot: empty (None) or holding a material. */
  type Slot = Option<Material>

  datatype RigidBodyType = ActiveBody | PassiveBody
  datatype CollisionShape = ConvexHull | BoxShape | SphereShape | MeshShape

  datatype RigidBody = RigidBody(kind: RigidBodyType, shape: CollisionShape, useMargin: bool)

  /** The settings the host gives a rigid body it adds to an object. */
  const DefaultRigidBody := RigidBody(ActiveBody, ConvexHull, false)

  const UnitCube: BoundBox := [
    Vec3(-1.0, -1.0, -1.0), Vec3(-1.0, -1.0, 1.0), Vec3(-1.0, 1.0, 1.0), Vec3(-1.0, 1.0, -1.0),
    Vec3(1.0, -1.0, -1.0), Vec3(1.0, -1.0, 1.0), Vec3(1.0, 1.0, 1.0), Vec3(1.0, 1.0, -1.0)]

  /**
   * A scene object. The material slots of the object and of its mesh data are
   * one sequence here.
   */
  class Object {
    const name: string
    const data: ObjectData
    const boundBox: BoundBox
    var location: Vec3
    var rotation: Vec3
    var slots: seq<Slot>
    var rigidBody: Option<RigidBody>
    var selected: bool

    predicate IsMesh() { data.MeshData? }

    /** A new object at the origin, unrotated, unselected, with no slots and no rigid body. */
    constructor (name: string, data: ObjectData)
      ensures this.name == name && this.data == data
      ensures location == Origin && rotation == Origin
      ensures slots == [] && rigidBody == None && !selected
    {
      this.name := name;
      this.data := data;
      boundBox := UnitCube;
      location := Origin;
      rotation := Origin;
      slots := [];
      rigidBody := None;
      selected := false;
    }
  }

  /** No object occurs twice, as in the host's list of selected objects. */
  predicate Distinct(objects: seq<Object>) {
    objects == []
    || (objects[|objects| - 1] !in objects[..|objects| - 1] && Distinct(objects[..|objects| - 1]))
  }

  /** In a distinct sequence, the object at index i occurs nowhere else. */
  lemma {:induction false} DistinctAt(objects: seq<Object>, i: nat)
    requires Distinct(objects) && i < |objects|
    ensures forall k :: 0 <= k < |objects| && k != i ==> objects[k] != objects[i]
  {
    var last := |objects| - 1;
    var init := objects[..last];
    if i < last {
      DistinctAt(init, i);
      assert objects[last] !in init;
      assert forall k :: 0 <= k < last ==> objects[k] == init[k];
    } else {
      assert forall k :: 0 <= k < last ==> objects[k] == init[k] && init[k] in init;
    }
  }

  datatype ColorTag = NoColor | Color01 | Color02 | Color03 | Color04 | Color05 | Color06 | Color07 | Color08

  class Collection {
    const name: IdName
    var objects: seq<Object>
    var children: seq<Collection>
    var colorTag: ColorTag

    constructor (name: IdName)
      ensures this.name == name && objects == [] && children == [] && colorTag == NoColor
    {
      this.name := name;
      objects := [];
      children := [];
      colorTag := NoColor;
    }

    /** Whether a direct child is called `n` (the `in` test on a children collection). */
    predicate HasChildNamed(n: IdName)
      reads this
    {
      exists c :: c in children && c.name == n
    }

    /** collection.objects.link */
    method LinkObject(o: Object)
      modifies this`objects
      ensures objects == old(objects) + [o]
    {
      objects := objects + [o];
    }

    /** collection.children.link */
    method LinkChild(c: Collection)
      modifies this`children
      ensures children == old(children) + [c]
    {
      children := children + [c];
    }
  }

  /** The registries of data blocks the add-ons look up by name. */
  class BlendData {
    var materials: map<string, Material>
    var collections: seq<Collection>

    /** An empty file: no materials and no collections. */
    constructor ()
      ensures materials == map[] && collections == []
    {
      materials := map[];
      collections := [];
    }

    function CollectionNames(): set<IdName>
      reads this
    {
      set c | c in collections :: c.name
    }

    /** bpy.data.collections.new: a new, unlinked collection under a name not yet taken. */
    method NewCollection(base: string) returns (c: Collection)
      modifies this`collections
      ensures fresh(c) && c.name == UniqueName(base, old(CollectionNames()))
      ensures c.objects == [] && c.children == [] && c.colorTag == NoColor
      ensures collections == old(collections) + [c]
    {
      c := new Collection(UniqueName(base, CollectionNames()));
      collections := collections + [c];
    }
  }

  /** The view layer: which object is active. */
  class ViewLayer {
    var active: Object?

    constructor (active: Object?)
      ensures this.active == active
    {
      this.active := active;
    }
  }

  /**
   * bpy.ops.rigidbody.object_add on the active object. The host adds rigid
   * bodies to mesh objects only; for anything else the call raises.
   */
  method ObjectAddRigidBody(layer: ViewLayer) returns (ok: bool)
    requires layer.active != null
    modifies layer.active`rigidBody
    ensures ok <==> layer.active.IsMesh()
    ensures layer.active.rigidBody ==
              if ok && old(layer.active.rigidBody).None? then Some(DefaultRigidBody) else old(layer.active.rigidBody)
  {
    var obj := layer.active;
    ok := obj.IsMesh();
    if ok && obj.rigidBody.None? {
      obj.rigidBody := Some(DefaultRigidBody);
    }
  }
}
