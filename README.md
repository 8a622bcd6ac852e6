# Stratts Tools and Texture Paint Helper, modelled in Dafny

This project models the decision logic inside three Blender add-ons.
Blender's own data (objects, collections, materials, keymaps) is replaced by
small records and classes in `host.dfy`, and each operator becomes a
Dafny method over them:

- `stratts_tools.py`, the first version of Stratts Tools:
  - the adaptive three-point lighting operator: a streaming per-axis
    minimum/maximum over the world-space bound-box corners of the selected
    meshes, the target and clamped radius, and the light table
    (`stratts_lighting.dfy`);
  - the specific-material and base-material operators and the rigid-body
    operator (`stratts_materials.dfy`).
- `stratts_tools_v2-3.py`, the second version: the camera, three-collections,
  "Rigid Bodies" collection and fixed light-rig operators
  (`stratts_scene.dfy`).
- `texture_paint_help_v1.py`: the panel's `poll` and where the panel
  appears, the fourteen-row shortcut table, and the module-level
  `addon_keymaps` list that `register_keymaps` fills and `unregister_keymaps`
  walks (`texture_paint.dfy`).

Host behaviour the operators rely on is modelled as follows:

- `bpy.data.collections.new` gives a clashing name the lowest free ".001"
  suffix (`host.dfy`).
- `rigidbody.object_add` works only on meshes (`host.dfy`).
- `keymaps.new` returns the existing keymap with that name and space
  (`texture_paint.dfy`).
- `keymap_items.remove` raises for an item the keymap does not hold
  (`texture_paint.dfy`).
- A panel is offered only in areas of its registered space type, where
  `poll` decides whether it is drawn (`texture_paint.dfy`).

The world matrix, vector length and quaternion-to-Euler conversion are
function parameters. Whether a new material's node tree holds a Principled
BSDF node is a boolean parameter.

`register_keymaps` takes the item table as a parameter; `unregister_keymaps`
takes only the `addon_keymaps` list. The add-on's own table is the constant
`KeymapTable`. `AddonTableAsWritten` and `AddonTableRoundTrip` apply the
general results to that table.

## Model

| member | source | states |
|---|---|---|
| Host.UniqueName | stratts_tools_v2-3.py:167 | a new data block gets its requested name when free, otherwise the lowest numbered variant not taken |
| Host.BlendData.NewCollection | stratts_tools_v2-3.py:167 | a fresh, empty, unlinked collection is appended to the file's collections under a name not yet taken |
| Host.ObjectAddRigidBody | stratts_tools.py:255 | the call succeeds exactly on a mesh, and only then gives an object without a rigid body the default one |
| StrattsLighting.Meshes | stratts_tools.py:47-48 | the selected meshes are exactly the selected objects of type MESH |
| StrattsLighting.Bounds | stratts_tools.py:53-58 | the per-axis minimum and maximum of the points taken from left to right, with no value before the first point; BoundsEnclose and BoundsAttained state what it computes |
| StrattsLighting.BoundsEnclose | stratts_tools.py:43-58 | the min/max reduction has a value exactly when there is a corner, and its box contains every corner |
| StrattsLighting.BoundsAttained | stratts_tools.py:53-58 | every face of the reduced box passes through one of the corners, so it is the smallest enclosing box |
| StrattsLighting.MeshCornersEmpty | stratts_tools.py:45-49 | corners are seen (found_mesh) exactly when the selection holds a mesh |
| StrattsLighting.OnlyMeshesContribute | stratts_tools.py:47-48 | non-mesh objects add no corners: the corners of the selection are those of its meshes |
| StrattsLighting.CornerIsCounted | stratts_tools.py:47-52 | every world corner of every selected mesh is among the corners reduced |
| StrattsLighting.SelectionBounds | stratts_tools.py:41-58 | the loop over objects and corners computes the left-to-right min/max reduction; it has a value iff a mesh is selected and then encloses every corner of every selected mesh |
| StrattsLighting.ClampedRadius | stratts_tools.py:67-68 | the radius is the larger of 1.5 diagonals and 3.0, so never below either |
| StrattsLighting.PlacementFor | stratts_tools.py:38-74 | the radius of the placement is never below 3.0 |
| StrattsLighting.CursorFallback | stratts_tools.py:69-74 | with no mesh selected (nothing, or only other objects) the target is the cursor and the radius exactly 3.0 |
| StrattsLighting.TargetIsBoxCentre | stratts_tools.py:60-68 | with a mesh selected, the target lies in the smallest box holding all corners, midway between each pair of faces, and the radius is the clamped diagonal |
| StrattsLighting.PlacementIgnoresNonMeshes | stratts_tools.py:47-48 | target and radius are the same as for the meshes of the selection alone |
| StrattsLighting.RadiusExceedsDefault | stratts_tools.py:67-68 | when the length is the Euclidean one, the radius exceeds 3.0 exactly when the diagonal is longer than 2 |
| StrattsLighting.LightSettings | stratts_tools.py:77-90 | the Key, Fill and Back rows of the light table for a placement; LightOrder, LightsAlongDirections and LightsScaleWithRadius state its contents |
| StrattsLighting.LightOrder | stratts_tools.py:77-90 | three area lights in the order Key, Fill, Back with energies 100, 50 and 70 |
| StrattsLighting.LightsAlongDirections | stratts_tools.py:77-90 | each light sits at the radius times a fixed direction from the target, and its size is the radius times a fixed factor |
| StrattsLighting.LightsScaleWithRadius | stratts_tools.py:77-90 | scaling the radius by k scales every light's offset from the target and its size by k |
| StrattsLighting.LightsAboveAndOffAxis | stratts_tools.py:106-110 | with radius at least 3.0 every light is above the target and off its vertical axis, so the look-at direction is never zero or vertical |
| StrattsLighting.AddTriLighting | stratts_tools.py:37-113 | three new lights appended to the collection in table order, each with the table's name, type, energy, colour, size and location for the computed placement |
| StrattsMaterials.GetOrCreateMaterial | stratts_tools.py:139-145 | an existing material of that name is reused unchanged; otherwise exactly one is created, with the preset only when the BSDF node exists |
| StrattsMaterials.AssignSpecific | stratts_tools.py:172-177 | the material ends up in a slot; an empty first slot is filled, otherwise one slot is appended; no other slot changes |
| StrattsMaterials.AssignSpecificAlwaysAddsWhenTaken | stratts_tools.py:176-177 | assigning the material the first slot already holds still adds a slot |
| StrattsMaterials.AddSpecificMaterial | stratts_tools.py:131-183 | the material is registered; a missing BSDF cancels only on the creation path, after registration and before any slot changes; the active mesh's slots are updated by AssignSpecific, and nothing else about it changes |
| StrattsMaterials.FirstEmpty | stratts_tools.py:218-222 | the index found is an empty slot with every earlier slot filled; none is found only when all slots are filled |
| StrattsMaterials.AssignBase | stratts_tools.py:214-224 | as written: an object with no slots gets one slot holding the material; otherwise the first empty slot is filled, or a slot is appended when none is empty |
| StrattsMaterials.BaseOutcome | stratts_tools.py:206-224 | a mesh with no material in any slot gets AssignBase; any other object keeps its slots |
| StrattsMaterials.BareSlotsGetOneMaterial | stratts_tools.py:213-224 | on slots with no material, the first slot gets the base material and it is the only filled slot; the append of line 224 is unreachable |
| StrattsMaterials.BaseOutcomeIdempotent | stratts_tools.py:205-226 | after one visit every mesh has a material, and a second visit changes nothing |
| StrattsMaterials.ScanForMaterial | stratts_tools.py:207-211 | the scan reports exactly whether some slot holds a material |
| StrattsMaterials.FindEmptySlot | stratts_tools.py:217-222 | the loop finds exactly the first empty slot |
| StrattsMaterials.GiveBaseMaterial | stratts_tools.py:206-226 | one object's slots become the base-material outcome, and it is counted exactly when it is a mesh with no material |
| StrattsMaterials.GiveBaseMaterialToAll | stratts_tools.py:205-226 | every selected mesh without a material gets the base material, every other object keeps its slots, and the count is the number of such meshes |
| StrattsMaterials.AddBaseMaterial | stratts_tools.py:191-234 | the base material is registered once; every selected mesh without a material gets it, every other object is left as it was, and the count is the number of such meshes |
| StrattsMaterials.FirstRefusal | stratts_tools.py:252-255 | the first object that is not a mesh and has no rigid body, or none |
| StrattsMaterials.LastLacking | stratts_tools.py:253-254 | the object active after the first n objects have been visited, each one without a rigid body being made active in turn; LastLackingIsLast states which object that is |
| StrattsMaterials.LastLackingIsLast | stratts_tools.py:253-254 | the object left active after the first n objects is the last of them that lacked a rigid body, with none lacking one after it; when none lacked one, it is the object active before |
| StrattsMaterials.ConvertOne | stratts_tools.py:253-259 | for one object: the step fails exactly when it is not a mesh and has no rigid body; otherwise it ends with an active convex-hull body with margin; it is made active exactly when it had no rigid body |
| StrattsMaterials.MakeRigidBodyActive | stratts_tools.py:243-264 | an empty selection cancels with nothing changed; otherwise the objects before the first refusal get an active convex-hull body with margin, the rest are untouched, and the operator raises exactly when there is a refusal, leaving the refused object active; when it finishes, the active object is the last one that lacked a rigid body |
| StrattsMaterials.MakeMeshesRigidBodies | stratts_tools.py:252-261 | every selected mesh gets an active convex-hull body with margin, other objects are untouched, and the count is the number of meshes |
| StrattsMaterials.CameraSelectionWitness | stratts_tools.py:253-257 | a selected camera without a rigid body makes the operator as written raise; the corrected one finishes |
| StrattsScene.FirstWhere | stratts_tools_v2-3.py:110-113 | the search each loop makes: the first area (or space) of type VIEW_3D, with none before it, or none at all |
| StrattsScene.ViewportSpace | stratts_tools_v2-3.py:110-118 | a view is found exactly when the first VIEW_3D area has a VIEW_3D space, and it is a VIEW_3D space of a VIEW_3D area |
| StrattsScene.FirstAreaDecides | stratts_tools_v2-3.py:117-118 | when the first VIEW_3D area has no VIEW_3D space, no later area is searched and no view is found |
| StrattsScene.OtherAreasSkipped | stratts_tools_v2-3.py:110-111 | areas of other types before the views do not change which view is found |
| StrattsScene.AddCamera | stratts_tools_v2-3.py:100-130 | a new camera linked to the scene collection, made active and selected; cursor mode copies location and rotation; viewport mode copies the found view or keeps the default transform; it always finishes |
| StrattsScene.CollectionBases | stratts_tools_v2-3.py:140 | the three collection names, Geometry_Assets, Props_Detail and Environment_Elements, in order |
| StrattsScene.CollectionTags | stratts_tools_v2-3.py:145 | the colour tags COLOR_01, COLOR_02 and COLOR_03, paired with the names by index |
| StrattsScene.AddCollections | stratts_tools_v2-3.py:138-154 | three new collections named from Geometry_Assets, Props_Detail, Environment_Elements under free names, tagged COLOR_01..03 by index and appended to the scene's children in that order |
| StrattsScene.AddRigidBodiesCollection | stratts_tools_v2-3.py:162-172 | a collection is created and linked exactly when no direct child is called "Rigid Bodies"; otherwise nothing changes |
| StrattsScene.EnsureRigidBodiesCollection | stratts_tools_v2-3.py:165-168 | afterwards a child is called exactly "Rigid Bodies"; nothing changes when one already was; otherwise exactly one collection of that name is appended to the existing children, the file's own when it has one (the file's collections unchanged), else a new one added to the file |
| StrattsScene.NumberedAfter | stratts_tools_v2-3.py:167 | with "base" to "base.(n-1)" taken and "base.n" free, a new block is named "base.n" |
| StrattsScene.RigidBodiesDuplicateWitness | stratts_tools_v2-3.py:166-168 | with a "Rigid Bodies" collection outside the scene's children, two runs as written create "Rigid Bodies.001" and ".002"; the corrected operator links the existing one once |
| StrattsScene.KeyLight | stratts_tools_v2-3.py:43-50 | the key light: Key_Light, energy 1000, size 1.0, a warm colour, at (5, -7, 5) with rotation (0.7, 0, 0.7) |
| StrattsScene.FillLight | stratts_tools_v2-3.py:54-61 | the fill light: Fill_Light, energy 400, size 1.5, a cool colour, at (-7, -5, 4) with rotation (0.8, 0, -0.8) |
| StrattsScene.RimLight | stratts_tools_v2-3.py:65-72 | the rim light: Rim_Light, energy 600, size 0.7, near white, at (0, 7, 6) with rotation (0.3, 0, 0) |
| StrattsScene.AddRigLight | stratts_tools_v2-3.py:43-50 | one new area light with the preset's settings, linked to the scene collection |
| StrattsScene.AddFixedTriLighting | stratts_tools_v2-3.py:38-82 | key, fill and rim lights with their preset values linked to the scene collection in order, and a new Tri_Lights child collection holding the same three |
| TexturePaintHelper.KeyMap.NewItem | texture_paint_help_v1.py:173 | a new item with the given settings and no brush name appended to the keymap |
| TexturePaintHelper.KeyMap.RemoveItem | texture_paint_help_v1.py:193 | removal succeeds exactly when the keymap holds the item, and leaves every other item in order |
| TexturePaintHelper.FindKeymap | texture_paint_help_v1.py:137 | the first keymap with that name and space, or none when no keymap matches |
| TexturePaintHelper.KeyConfig.Ensure | texture_paint_help_v1.py:137 | keymaps.new returns the matching keymap unchanged when there is one, otherwise a fresh empty keymap appended to the configuration |
| TexturePaintHelper.Poll | texture_paint_help_v1.py:29-32 | poll is true exactly in the two area types the shortcuts are registered for, IMAGE_EDITOR and VIEW_3D |
| TexturePaintHelper.PanelShown | texture_paint_help_v1.py:19-32 | as written, the panel appears exactly in the Image Editor; in a 3D Viewport poll holds but the panel is never offered |
| TexturePaintHelper.PanelShownInBoth | texture_paint_help_v1.py:19-32 | registered for both space types, the panel appears exactly where poll holds, which is every area a shortcut keymap serves |
| TexturePaintHelper.BrushName | texture_paint_help_v1.py:176-186 | a brush name is given exactly to a paint.brush_select item on one of the keys Q, W, E, R, T |
| TexturePaintHelper.BrushNamesByKey | texture_paint_help_v1.py:176-186 | Q, W, E, R, T select Draw, Soften, Sharpen, Smear, Fill; the four image-editor operators get no name |
| TexturePaintHelper.KeymapTable | texture_paint_help_v1.py:148-170 | the add-on's fourteen rows of operator, key, event, modifiers and target keymap; TableCounts and TableLayout state its shape |
| TexturePaintHelper.TableCounts | texture_paint_help_v1.py:148-170 | fourteen rows: nine for the Image Paint keymap and five for the 3D View keymap |
| TexturePaintHelper.TableLayout | texture_paint_help_v1.py:150-169 | four image-editor operators first, then the five brush keys each bound in both keymaps, Image Paint first |
| TexturePaintHelper.ItemsForCount | texture_paint_help_v1.py:172-173 | a keymap receives one item per table row that targets it |
| TexturePaintHelper.NameBrush | texture_paint_help_v1.py:176-186 | the brush name is set from the key exactly for brush-select items on Q to T, and left alone otherwise |
| TexturePaintHelper.AddRow | texture_paint_help_v1.py:173-188 | one fresh item made from the row, appended to the row's keymap only, and recorded as a (keymap, item) pair |
| TexturePaintHelper.AddTableItems | texture_paint_help_v1.py:172-188 | one distinct fresh item per row in order; each keymap gains exactly the items of its rows, and addon_keymaps gains the (keymap, item) pairs in table order |
| TexturePaintHelper.EnsurePaintKeymaps | texture_paint_help_v1.py:137-141 | the Image Paint and 3D View keymaps, each the existing one or a new empty one; the configuration gains exactly the new ones, in that order |
| TexturePaintHelper.RegisterKeymaps | texture_paint_help_v1.py:130-188 | without a key configuration nothing changes; otherwise the two keymaps are made or reused, each gains exactly its rows' items, addon_keymaps gains the two bare keymaps followed by one pair per row, the configuration gains only the new keymaps, and every other keymap keeps its items |
| TexturePaintHelper.RegisterKeymapPairs | texture_paint_help_v1.py:130-188 | the same registration recording only (keymap, item) pairs, with the same frame on the configuration and its other keymaps |
| TexturePaintHelper.PairsForAt | texture_paint_help_v1.py:188 | the k-th recorded pair is the k-th item with the keymap of its row |
| TexturePaintHelper.FirstBare | texture_paint_help_v1.py:192 | the first entry that cannot be unpacked as a pair, or none |
| TexturePaintHelper.StrippedIsWithout | texture_paint_help_v1.py:192-193 | removing the recorded items one at a time removes from each keymap exactly the items recorded for it |
| TexturePaintHelper.StrippedEach | texture_paint_help_v1.py:192-193 | after all removals, every entry's keymap has lost exactly the items recorded for it |
| TexturePaintHelper.StrippedKeepsLater | texture_paint_help_v1.py:192-193 | when entries are distinct pairs of held items, each later item is still in its keymap when its turn comes |
| TexturePaintHelper.RemoveRecorded | texture_paint_help_v1.py:193 | one entry: it fails exactly when it is bare or its item is already gone, and otherwise removes just that item |
| TexturePaintHelper.RemoveEach | texture_paint_help_v1.py:192-193 | entries are handled in order until the first that fails; the keymaps hold what the handled entries left |
| TexturePaintHelper.UnregisterKeymaps | texture_paint_help_v1.py:190-194 | it finishes only when every entry is a pair, then removes each keymap's recorded items and empties addon_keymaps; a bare entry makes it raise; a leading bare entry means nothing is removed; distinct pairs of held items always finish |
| TexturePaintHelper.PairsRemovable | texture_paint_help_v1.py:188-193 | the pairs registration records can all be unpacked and removed |
| TexturePaintHelper.UnregisterRestores | texture_paint_help_v1.py:188-193 | removing the recorded items gives each keymap back exactly the items it held before registration |
| TexturePaintHelper.UnregisterRegistered | texture_paint_help_v1.py:190-194 | unregistering what the corrected registration recorded finishes, empties addon_keymaps and restores both keymaps |
| TexturePaintHelper.RegisterThenUnregister | texture_paint_help_v1.py:130-194 | corrected registration then unregistration finishes and leaves addon_keymaps empty, an existing keymap with its old items, a new keymap empty, the configuration with only the new keymaps added, and every other keymap with its items |
| TexturePaintHelper.UnregisterAfterBareKeymaps | texture_paint_help_v1.py:138-193 | with the bare Image Paint keymap first, unregistration raises and changes neither addon_keymaps nor any keymap |
| TexturePaintHelper.RegisterThenUnregisterAsWritten | texture_paint_help_v1.py:130-194 | for any table, registration as written then unregistration raises, keeps all rows + 2 entries, and leaves every item bound |
| TexturePaintHelper.AddonTableAsWritten | texture_paint_help_v1.py:148-194 | with the add-on's table, 16 entries stay in addon_keymaps and 14 items stay bound after unregistration |
| TexturePaintHelper.AddonTableRoundTrip | texture_paint_help_v1.py:148-194 | with the add-on's table and only pairs recorded, unregistration finishes with no entry left and no item bound |

## Left out

- PurgeUnused (`stratts_tools.py:19-29`, `stratts_tools_v2-3.py:17-30`) and ToggleQuadView (`stratts_tools.py:266-275`) are single host calls with no logic of their own.
- Panels (`draw`), the camera-mode property group, class registration, `report` messages and `bl_info` are user interface and plumbing.
- `mode_set` (`stratts_tools.py:92-93, 249-250`) only switches the editing mode. It does not change what the operators compute.
- Principled BSDF input values (`stratts_tools.py:146-164, 200-202`) are constant writes into the host's node graph. A material records only which preset was applied.
- Object slots and mesh data slots (`obj.material_slots` versus `obj.data.materials`) are one sequence here.
- Floating point is modelled as `real`. `float('inf')` sentinels are modelled as "no value yet".
- StrattsLighting.AddTriLighting: the light rotation from `to_track_quat('-Z', 'Y').to_euler()` (`stratts_tools.py:106-110`) is not modelled, because it is floating-point rotation math in a library outside the source. LightsAboveAndOffAxis states that its input direction is never degenerate.
- StrattsLighting.AddTriLighting: lights and light objects are named exactly as the table says. The host's renaming of a taken name ("Key Light.001") is not modelled.
- StrattsScene.AddFixedTriLighting: the light objects are named exactly as the preset says, for the same reason.
- StrattsScene.AddCamera: the view rotation is converted to Euler angles by the parameter `toEuler`. The new camera data block's own name is not modelled.
- StrattsScene.AddCamera: the new object is named exactly "Camera". Object names are not registered in this model, so the host's renaming to "Camera.001" when that name is taken (as in the default scene) is not modelled.
- StrattsMaterials.AddBaseMaterial: each object has its own slots, so objects sharing one mesh are not modelled. In the source such objects share the mesh's material list: after the first of them gets the base material the others already have it, and the count includes the mesh once, where the model counts each object.
- StrattsMaterials.MakeMeshesRigidBodies: it does not state which object is left active.
- TexturePaintHelper.KeyConfig.Ensure: only name and space type identify a keymap. Region type and modal keymaps are not modelled.
- Keymap items keep only the settings the table gives them and the `name` the add-on sets on brush-select items. The item's other properties are not modelled.
- TexturePaintHelper.NameBrush: the model assumes the host accepts `kmi.properties.name` (`texture_paint_help_v1.py:178-186`). Blender's `paint.brush_select` operator defines no `name` property (it selects a brush by tool, through properties such as `image_tool`), and setting a property the operator does not define raises AttributeError. On such a host registration would stop at the first brush-select row (line 156), with five items in the Image Paint keymap and the two bare keymaps and four pairs in addon_keymaps. The model follows the evident intent of naming the brush.
- TexturePaintHelper.AddonTableAsWritten: its 16 entries and 14 bound items rest on the same assumption that registration gets past line 178. Without it, registration itself raises at line 178, and the two bare keymaps still make unregistration raise.
- `register()` and `unregister()` (`texture_paint_help_v1.py:204-214`) only add class registration and a `print` around the keymap functions.

## Findings

| source | as written | input that shows it | evidently intended | confidence | as-written member | corrected member |
|---|---|---|---|---|---|---|
| texture_paint_help_v1.py:138-193 | each keymap itself is appended to addon_keymaps (lines 138, 142), but unregister_keymaps unpacks every entry as a (keymap, item) pair | register the add-on with an add-on key configuration, then unregister it | record only (keymap, item) pairs, so unregistration removes the fourteen items and empties the list | high; not executed | TexturePaintHelper.AddonTableAsWritten | TexturePaintHelper.RegisterThenUnregister |
| stratts_tools_v2-3.py:166-168 | the duplicate check looks only at the scene collection's direct children, while `collections.new` renames a name taken anywhere in the file | a file whose "Rigid Bodies" collection is not a direct child of the scene collection, with the operator run twice | link the existing "Rigid Bodies" collection instead of creating "Rigid Bodies.001", ".002", ... | medium; not executed | StrattsScene.RigidBodiesDuplicateWitness | StrattsScene.EnsureRigidBodiesCollection |
| texture_paint_help_v1.py:19-32 | the panel class is registered for IMAGE_EDITOR only (line 23), so the host never offers it in a 3D Viewport and the VIEW_3D case of `poll` (line 31) has no effect | a 3D Viewport in texture paint mode, where the panel does not appear | the panel also appears in the 3D Viewport sidebar, as the class's description (line 20) and the add-on's location text (line 8) say | medium; not executed | TexturePaintHelper.PanelShown | TexturePaintHelper.PanelShownInBoth |
| stratts_tools.py:252-259 | `rigidbody.object_add` is called for every selected object without a rigid body, but the host gives rigid bodies only to meshes, so a camera, light or empty makes the operator raise before lines 257-259 | a selection holding a camera with no rigid body | give rigid bodies to the selected meshes and leave other objects alone | medium; not executed | StrattsMaterials.CameraSelectionWitness | StrattsMaterials.MakeMeshesRigidBodies |
