/**
 * The material and rigid-body operators of the Stratts Tools add-on:
 * assigning a named preset material to the active mesh, giving every selected
 * mesh that has no material a shared base material, and making the selected
 * objects active rigid bodies.
 *
 * Materials live in a registry keyed by name and are looked up before they are
 * created. Whether the host's new node tree holds a Principled BSDF node is
 * the parameter `bsdfFound`; the values written into that node are recorded
 * only as which preset was applied.
 */
module StrattsMaterials {
  import opened Host
  import StrattsLighting

  // ---------------------------------------------------------------------
  //  Getting or creating a material
  // ---------------------------------------------------------------------

  /**
   * Lines 139-142 and 193-198: reuse the registered material of that name, or
   * create one; a new material gets the preset only when its node tree has a
   * Principled BSDF node.
   */
  method GetOrCreateMaterial(data: BlendData, name: string, preset: Shading, bsdfFound: bool)
    returns (mat: Material, created: bool)
    modifies data`materials
    ensures created <==> name !in old(data.materials)
    ensures !created ==> mat == old(data.materials)[name] && data.materials == old(data.materials)
    ensures created ==> mat == Material(name, if bsdfFound then preset else NodesOnly)
    ensures data.materials == old(data.materials)[name := mat]
  {
    if name in data.materials {
      mat := data.materials[name];
      created := false;
    } else {
      mat := Material(name, if bsdfFound then preset else NodesOnly);
      data.materials := data.materials[name := mat];
      created := true;
    }
  }

  // ---------------------------------------------------------------------
  //  STRATTS_OT_AddSpecificMaterial
  // ---------------------------------------------------------------------

  datatype MaterialType = CarPaintType | ClearGlassType | TranslucentPlasticType

  /** Lines 132-137: the registry name of each preset. */
  function MaterialName(t: MaterialType): string {
    match t
    case CarPaintType => "Smooth Red Car Paint"
    case ClearGlassType => "Clear Glass"
    case TranslucentPlasticType => "Translucent White Plastic"
  }

  /** Lines 146-164: which inputs the preset writes. */
  function PresetShading(t: MaterialType): Shading {
    match t
    case CarPaintType => CarPaint
    case ClearGlassType => ClearGlass
    case TranslucentPlasticType => TranslucentPlastic
  }

  /**
   * Lines 172-177: put m in the first slot when that slot exists and is empty,
   * otherwise add a slot for it at the end.
   */
  function AssignSpecific(slots: seq<Slot>, m: Material): (r: seq<Slot>)
    ensures Some(m) in r
    ensures |r| == if slots != [] && slots[0].None? then |slots| else |slots| + 1
    ensures slots != [] ==> r[0] == if slots[0].None? then Some(m) else slots[0]
    ensures forall k :: 0 < k < |slots| ==> r[k] == slots[k]
    ensures |r| > |slots| ==> r[|slots|] == Some(m)
  {
    if slots == [] then slots + [Some(m)]
    else if slots[0].None? then
      var r := slots[0 := Some(m)];
      assert r[0] == Some(m);
      r
    else slots + [Some(m)]
  }

  /**
   * STRATTS_OT_AddSpecificMaterial.execute (lines 131-183). A missing BSDF node
   * cancels the operator only on the creation path, after the material has
   * been registered, and before any slot is touched.
   */
  method AddSpecificMaterial(data: BlendData, active: Object?, t: MaterialType, bsdfFound: bool)
    returns (status: Status)
    modifies data`materials, active
    ensures var name := MaterialName(t);
            && name in data.materials
            && (name in old(data.materials) ==> data.materials == old(data.materials) && status == Finished)
            && (name !in old(data.materials) ==>
                  && data.materials == old(data.materials)[name := Material(name, if bsdfFound then PresetShading(t) else NodesOnly)]
                  && (status == Cancelled <==> !bsdfFound))
            && status != Raised
    ensures active != null ==>
              active.slots == if status == Finished && active.IsMesh()
                              then AssignSpecific(old(active.slots), data.materials[MaterialName(t)])
                              else old(active.slots)
    ensures active != null ==>
              && active.rigidBody == old(active.rigidBody) && active.location == old(active.location)
              && active.rotation == old(active.rotation) && active.selected == old(active.selected)
  {
    var name := MaterialName(t);
    var mat, created := GetOrCreateMaterial(data, name, PresetShading(t), bsdfFound);
    if created && !bsdfFound {
      return Cancelled;
    }
    var obj := active;
    if obj != null && obj.IsMesh() {
      if obj.slots == [] {
        obj.slots := obj.slots + [Some(mat)];
      } else if obj.slots[0].None? {
        obj.slots := obj.slots[0 := Some(mat)];
      } else {
        obj.slots := obj.slots + [Some(mat)];
      }
    }
    status := Finished;
  }

  /** Assigning a material the first slot already holds still adds a slot for it. */
  lemma AssignSpecificAlwaysAddsWhenTaken(slots: seq<Slot>, m: Material)
    requires slots != [] && slots[0] == Some(m)
    ensures |AssignSpecific(slots, m)| == |slots| + 1
  {
  }

  // ---------------------------------------------------------------------
  //  STRATTS_OT_AddBaseMaterial
  // ---------------------------------------------------------------------

  const BaseMaterialName := "DefaultBaseMaterial"

  predicate HasMaterial(slots: seq<Slot>) {
    exists k :: 0 <= k < |slots| && slots[k].Some?
  }

  /** The number of slots that hold a material. */
  function Filled(slots: seq<Slot>): (n: nat)
    ensures n <= |slots|
    ensures n == 0 <==> !HasMaterial(slots)
  {
    if slots == [] then 0
    else
      var init := slots[..|slots| - 1];
      assert forall k :: 0 <= k < |init| ==> init[k] == slots[k];
      Filled(init) + (if slots[|slots| - 1].Some? then 1 else 0)
  }

  /** The index of the first empty slot, if any. */
  function FirstEmpty(slots: seq<Slot>): (r: Option<nat>)
    ensures r.Some? ==> r.value < |slots| && slots[r.value].None?
                        && forall k :: 0 <= k < r.value ==> slots[k].Some?
    ensures r.None? ==> forall k :: 0 <= k < |slots| ==> slots[k].Some?
  {
    if slots == [] then None
    else if slots[0].None? then Some(0)
    else match FirstEmpty(slots[1..])
         case None => None
         case Some(i) => Some(i + 1)
  }

  /**
   * Lines 214-224 as written: append to an object with no slots, otherwise
   * fill the first empty slot, or append when there is none.
   */
  function AssignBase(slots: seq<Slot>, m: Material): seq<Slot>
  {
    if slots == [] then [Some(m)]
    else match FirstEmpty(slots)
         case Some(i) => slots[i := Some(m)]
         case None => slots + [Some(m)]
  }

  /** Lines 206-213: the slots of a selected object after the operator has visited it. */
  function BaseOutcome(isMesh: bool, slots: seq<Slot>, m: Material): seq<Slot>
  {
    if isMesh && !HasMaterial(slots) then AssignBase(slots, m) else slots
  }

  /**
   * The branch of lines 214-224 runs only on slots that are all empty, so the
   * first empty slot is slot 0 and the append of line 224 never happens: the
   * result holds the base material in exactly one slot, the first one.
   */
  lemma BareSlotsGetOneMaterial(slots: seq<Slot>, m: Material)
    requires !HasMaterial(slots)
    ensures var r := AssignBase(slots, m);
            && |r| == (if slots == [] then 1 else |slots|)
            && r[0] == Some(m)
            && Filled(r) == 1
            && (slots != [] ==> FirstEmpty(slots) == Some(0))
  {
    var r := AssignBase(slots, m);
    if slots != [] {
      assert slots[0].None?;
      assert r == slots[0 := Some(m)];
    }
    OneFilled(r);
  }

  /** A sequence whose only filled slot is the first holds one material. */
  lemma {:induction false} OneFilled(r: seq<Slot>)
    requires r != [] && r[0].Some? && forall k :: 0 < k < |r| ==> r[k].None?
    ensures Filled(r) == 1
  {
    if |r| > 1 {
      var init := r[..|r| - 1];
      OneFilled(init);
    } else {
      assert r[..0] == [];
    }
  }

  /** After the operator every selected mesh has a material, so running it again changes nothing. */
  lemma BaseOutcomeIdempotent(isMesh: bool, slots: seq<Slot>, m: Material)
    ensures var once := BaseOutcome(isMesh, slots, m);
            && (isMesh ==> HasMaterial(once))
            && BaseOutcome(isMesh, once, m) == once
  {
    if isMesh && !HasMaterial(slots) {
      BareSlotsGetOneMaterial(slots, m);
      assert AssignBase(slots, m)[0].Some?;
    }
  }

  /** Lines 207-211: scan the slots for one that holds a material. */
  method ScanForMaterial(slots: seq<Slot>) returns (hasMaterial: bool)
    ensures hasMaterial == HasMaterial(slots)
  {
    hasMaterial := false;
    var i := 0;
    while i < |slots|
      invariant 0 <= i <= |slots|
      invariant forall k :: 0 <= k < i ==> slots[k].None?
    {
      if slots[i].Some? {
        hasMaterial := true;
        break;
      }
      i := i + 1;
    }
  }

  /** Lines 217-222: the index of the first empty slot. */
  method FindEmptySlot(slots: seq<Slot>) returns (found: bool, index: nat)
    ensures found <==> FirstEmpty(slots).Some?
    ensures found ==> index == FirstEmpty(slots).value
  {
    found := false;
    index := 0;
    var i := 0;
    while i < |slots|
      invariant 0 <= i <= |slots|
      invariant forall k :: 0 <= k < i ==> slots[k].Some?
    {
      if slots[i].None? {
        index := i;
        found := true;
        break;
      }
      i := i + 1;
    }
    if found {
      FirstEmptyIsFirst(slots, index);
    }
  }

  /** FirstEmpty names the first empty slot. */
  lemma {:induction false} FirstEmptyIsFirst(slots: seq<Slot>, i: nat)
    requires i < |slots| && slots[i].None? && forall k :: 0 <= k < i ==> slots[k].Some?
    ensures FirstEmpty(slots) == Some(i)
  {
    if i > 0 {
      FirstEmptyIsFirst(slots[1..], i - 1);
    }
  }

  /** The slots of each object, in order. */
  ghost function SlotsOf(objs: seq<Object>): (r: seq<seq<Slot>>)
    reads objs
    ensures |r| == |objs| && forall k :: 0 <= k < |objs| ==> r[k] == objs[k].slots
  {
    if objs == [] then [] else SlotsOf(objs[..|objs| - 1]) + [objs[|objs| - 1].slots]
  }

  /** How many of the first n objects are meshes whose slots (given by `slots`) hold no material. */
  function NeedingCount(objs: seq<Object>, slots: seq<seq<Slot>>, n: nat): (c: nat)
    requires |objs| == |slots| && n <= |objs|
    ensures c <= n
  {
    if n == 0 then 0
    else NeedingCount(objs, slots, n - 1) + (if objs[n - 1].IsMesh() && !HasMaterial(slots[n - 1]) then 1 else 0)
  }

  /**
   * STRATTS_OT_AddBaseMaterial.execute (lines 191-234): every selected mesh
   * with no material gets the base material, everything else is left as it
   * was, and the count is the number of meshes that got it.
   */
  method AddBaseMaterial(data: BlendData, selected: seq<Object>, bsdfFound: bool)
    returns (status: Status, affected: nat)
    requires Distinct(selected)
    modifies data`materials, selected`slots
    ensures BaseMaterialName in data.materials
    ensures BaseMaterialName in old(data.materials) ==> data.materials == old(data.materials)
    ensures BaseMaterialName !in old(data.materials) ==>
              data.materials == old(data.materials)[BaseMaterialName := Material(BaseMaterialName, if bsdfFound then LightGray else NodesOnly)]
    ensures forall k :: 0 <= k < |selected| ==>
              selected[k].slots == BaseOutcome(selected[k].IsMesh(), old(selected[k].slots), data.materials[BaseMaterialName])
    ensures affected == NeedingCount(selected, old(SlotsOf(selected)), |selected|)
    ensures status == Finished
  {
    var baseMat, created := GetOrCreateMaterial(data, BaseMaterialName, LightGray, bsdfFound);
    affected := GiveBaseMaterialToAll(selected, baseMat);
    status := Finished;
  }

  /**
   * Lines 205-226: the loop over the selection, giving each mesh without a
   * material the base material and counting the meshes that got it.
   */
  method GiveBaseMaterialToAll(selected: seq<Object>, baseMat: Material) returns (affected: nat)
    requires Distinct(selected)
    modifies selected`slots
    ensures forall k :: 0 <= k < |selected| ==>
              selected[k].slots == BaseOutcome(selected[k].IsMesh(), old(selected[k].slots), baseMat)
    ensures affected == NeedingCount(selected, old(SlotsOf(selected)), |selected|)
  {
    ghost var before := SlotsOf(selected);
    affected := 0;
    var i := 0;
    while i < |selected|
      invariant 0 <= i <= |selected|
      invariant forall k :: 0 <= k < i ==> selected[k].slots == BaseOutcome(selected[k].IsMesh(), before[k], baseMat)
      invariant forall k :: i <= k < |selected| ==> selected[k].slots == before[k]
      invariant affected == NeedingCount(selected, before, i)
    {
      DistinctAt(selected, i);
      var added := GiveBaseMaterial(selected[i], baseMat);
      if added {
        affected := affected + 1;
      }
      i := i + 1;
    }
  }

  /** Lines 205-226, the body of the loop for one object; `added` says whether it was counted. */
  method GiveBaseMaterial(obj: Object, baseMat: Material) returns (added: bool)
    modifies obj`slots
    ensures added <==> obj.IsMesh() && !HasMaterial(old(obj.slots))
    ensures obj.slots == BaseOutcome(obj.IsMesh(), old(obj.slots), baseMat)
  {
    added := false;
    if obj.IsMesh() {
      var hasMaterial := ScanForMaterial(obj.slots);
      if !hasMaterial {
        if obj.slots == [] {
          obj.slots := obj.slots + [Some(baseMat)];
        } else {
          var foundEmptySlot, j := FindEmptySlot(obj.slots);
          if foundEmptySlot {
            obj.slots := obj.slots[j := Some(baseMat)];
          } else {
            obj.slots := obj.slots + [Some(baseMat)];
          }
        }
        added := true;
      }
    }
  }

  // ---------------------------------------------------------------------
  //  STRATTS_OT_MakeRigidBodyActive
  // ---------------------------------------------------------------------

  /** Lines 257-259: the settings every visited object ends with. */
  const ActiveHull := RigidBody(ActiveBody, ConvexHull, true)

  /** The rigid body of each object, in order. */
  ghost function BodiesOf(objs: seq<Object>): (r: seq<Option<RigidBody>>)
    reads objs
    ensures |r| == |objs| && forall k :: 0 <= k < |objs| ==> r[k] == objs[k].rigidBody
  {
    if objs == [] then [] else BodiesOf(objs[..|objs| - 1]) + [objs[|objs| - 1].rigidBody]
  }

  /**
   * The index of the first object the host cannot give a rigid body (one that
   * is not a mesh and has none yet), or |objs| when there is none.
   */
  function FirstRefusal(objs: seq<Object>, bodies: seq<Option<RigidBody>>): (f: nat)
    requires |objs| == |bodies|
    ensures f <= |objs|
    ensures forall k :: 0 <= k < f ==> objs[k].IsMesh() || bodies[k].Some?
    ensures f < |objs| ==> !objs[f].IsMesh() && bodies[f].None?
  {
    if objs == [] then 0
    else if !objs[0].IsMesh() && bodies[0].None? then 0
    else 1 + FirstRefusal(objs[1..], bodies[1..])
  }

  /** The object left active after visiting the first n objects (line 254 makes each one without a rigid body active). */
  function LastLacking(objs: seq<Object>, bodies: seq<Option<RigidBody>>, n: nat, initial: Object?): Object?
    requires |objs| == |bodies| && n <= |objs|
  {
    if n == 0 then initial
    else if bodies[n - 1].None? then objs[n - 1]
    else LastLacking(objs, bodies, n - 1, initial)
  }

  /** It is the last of the first n objects that had no rigid body, or `initial` when none of them lacked one. */
  lemma {:induction false} LastLackingIsLast(objs: seq<Object>, bodies: seq<Option<RigidBody>>, n: nat, initial: Object?)
    requires |objs| == |bodies| && n <= |objs|
    ensures (forall k :: 0 <= k < n ==> bodies[k].Some?) ==> LastLacking(objs, bodies, n, initial) == initial
    ensures (exists k :: 0 <= k < n && bodies[k].None?) ==>
              exists k :: && 0 <= k < n && LastLacking(objs, bodies, n, initial) == objs[k] && bodies[k].None?
                           && forall k' :: k < k' < n ==> bodies[k'].Some?
  {
    if n > 0 && bodies[n - 1].Some? {
      LastLackingIsLast(objs, bodies, n - 1, initial);
    }
  }

  /**
   * STRATTS_OT_MakeRigidBodyActive.execute as written (lines 243-264). An
   * empty selection cancels. Otherwise each object without a rigid body is
   * made active and given one by the host, then all three settings are
   * written. The host refuses a rigid body to an object that is not a mesh:
   * the operator call raises there, leaving the objects before it converted.
   */
  method MakeRigidBodyActive(layer: ViewLayer, selected: seq<Object>) returns (status: Status, affected: nat)
    requires Distinct(selected)
    modifies layer`active, selected`rigidBody
    ensures selected == [] ==> status == Cancelled && affected == 0 && layer.active == old(layer.active)
    ensures selected != [] ==>
              var f := FirstRefusal(selected, old(BodiesOf(selected)));
              && (status == Raised <==> f < |selected|)
              && (status == Finished <==> f == |selected|)
              && affected == f
              && (forall k :: 0 <= k < |selected| ==>
                    selected[k].rigidBody == if k < f then Some(ActiveHull) else old(selected[k].rigidBody))
    ensures status == Raised ==>
              var f := FirstRefusal(selected, old(BodiesOf(selected)));
              f < |selected| && layer.active == selected[f]
    ensures status == Finished ==> layer.active == LastLacking(selected, old(BodiesOf(selected)), |selected|, old(layer.active))
  {
    if |selected| == 0 {
      return Cancelled, 0;
    }
    ghost var bodies := BodiesOf(selected);
    ghost var f := FirstRefusal(selected, bodies);
    affected := 0;
    var i := 0;
    while i < |selected|
      invariant 0 <= i <= f
      invariant affected == i
      invariant forall k :: 0 <= k < |selected| ==>
                  selected[k].rigidBody == if k < i then Some(ActiveHull) else bodies[k]
      invariant layer.active == LastLacking(selected, bodies, i, old(layer.active))
    {
      DistinctAt(selected, i);
      var ok := ConvertOne(layer, selected[i]);
      if !ok {
        return Raised, affected;
      }
      affected := affected + 1;
      i := i + 1;
    }
    status := Finished;
  }

  /**
   * Lines 253-259 for one object: one without a rigid body is made active and
   * given one by the host, which refuses (raises) unless it is a mesh; then the
   * three settings are written.
   */
  method ConvertOne(layer: ViewLayer, obj: Object) returns (ok: bool)
    modifies layer`active, obj`rigidBody
    ensures ok <==> obj.IsMesh() || old(obj.rigidBody).Some?
    ensures obj.rigidBody == if ok then Some(ActiveHull) else old(obj.rigidBody)
    ensures layer.active == if old(obj.rigidBody).None? then obj else old(layer.active)
  {
    ok := true;
    if obj.rigidBody.None? {
      layer.active := obj;
      ok := ObjectAddRigidBody(layer);
      if !ok {
        return;
      }
    }
    obj.rigidBody := Some(ActiveHull);
  }

  /**
   * The evident intent of lines 252-261: give the selected meshes active
   * convex-hull rigid bodies, skipping objects the host cannot give one, and
   * count the meshes converted.
   */
  method MakeMeshesRigidBodies(layer: ViewLayer, selected: seq<Object>) returns (status: Status, affected: nat)
    requires Distinct(selected)
    modifies layer`active, selected`rigidBody
    ensures selected == [] ==> status == Cancelled && affected == 0 && layer.active == old(layer.active)
    ensures selected != [] ==> status == Finished && affected == |StrattsLighting.Meshes(selected)|
    ensures forall k :: 0 <= k < |selected| ==>
              selected[k].rigidBody == if selected != [] && selected[k].IsMesh() then Some(ActiveHull) else old(selected[k].rigidBody)
  {
    if |selected| == 0 {
      return Cancelled, 0;
    }
    ghost var bodies := BodiesOf(selected);
    affected := 0;
    var i := 0;
    while i < |selected|
      invariant 0 <= i <= |selected|
      invariant affected == |StrattsLighting.Meshes(selected[..i])|
      invariant forall k :: 0 <= k < |selected| ==>
                  selected[k].rigidBody == if k < i && selected[k].IsMesh() then Some(ActiveHull) else bodies[k]
    {
      DistinctAt(selected, i);
      var obj := selected[i];
      assert selected[..i + 1][..i] == selected[..i];
      if obj.IsMesh() {
        var ok := ConvertOne(layer, obj);
        affected := affected + 1;
      }
      i := i + 1;
    }
    assert selected[..|selected|] == selected;
    status := Finished;
  }

  /**
   * A selection holding a camera that has no rigid body: the operator as
   * written raises instead of finishing, while the corrected one finishes
   * and leaves the camera alone.
   */
  method CameraSelectionWitness() returns (asWritten: Status, corrected: Status)
    ensures asWritten == Raised && corrected == Finished
  {
    var cam := new Object("Camera", CameraData);
    var layer := new ViewLayer(null);
    var count;
    asWritten, count := MakeRigidBodyActive(layer, [cam]);
    corrected, count := MakeMeshesRigidBodies(layer, [cam]);
  }
}
