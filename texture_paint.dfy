/**
 * The Texture Paint Helper add-on: the panel's poll test and the add-on's
 * keyboard shortcuts. Registration makes (or reuses) two keymaps in the
 * add-on key configuration, adds fourteen items to them from a table, and
 * records what it made in the module-level list `addon_keymaps`, which
 * unregistration walks to remove the items again.
 */
module TexturePaintHelper {
  import opened Host

  // ---------------------------------------------------------------------
  //  Keymaps, as the host keeps them
  // ---------------------------------------------------------------------

  /** A keymap item: the operator a key press runs, and the brush `name` the add-on sets on it. */
  class KeyMapItem {
    const operator: string
    const key: char
    const value: string
    const shift: bool
    const ctrl: bool
    const alt: bool
    var brushName: Option<string>

    constructor (operator: string, key: char, value: string, shift: bool, ctrl: bool, alt: bool)
      ensures this.operator == operator && this.key == key && this.value == value
      ensures this.shift == shift && this.ctrl == ctrl && this.alt == alt
      ensures brushName == None
    {
      this.operator := operator;
      this.key := key;
      this.value := value;
      this.shift := shift;
      this.ctrl := ctrl;
      this.alt := alt;
      brushName := None;
    }
  }

  /** The items of `items` that are not in `gone`, in order. */
  function Without(items: seq<KeyMapItem>, gone: set<KeyMapItem>): (r: seq<KeyMapItem>)
    ensures |r| <= |items|
  {
    if items == [] then []
    else Without(items[..|items| - 1], gone) + (if items[|items| - 1] in gone then [] else [items[|items| - 1]])
  }

  /** Removing one set of items and then another removes their union. */
  lemma {:induction false} WithoutTwice(items: seq<KeyMapItem>, a: set<KeyMapItem>, b: set<KeyMapItem>)
    ensures Without(Without(items, a), b) == Without(items, a + b)
  {
    if items != [] {
      var init := items[..|items| - 1];
      var last := items[|items| - 1];
      WithoutTwice(init, a, b);
      WithoutAppend(Without(init, a), if last in a then [] else [last], b);
    }
  }

  /** Without distributes over concatenation. */
  lemma {:induction false} WithoutAppend(s: seq<KeyMapItem>, t: seq<KeyMapItem>, gone: set<KeyMapItem>)
    ensures Without(s + t, gone) == Without(s, gone) + Without(t, gone)
    decreases |t|
  {
    if t == [] {
      assert s + t == s;
    } else {
      var st := s + t;
      assert st[..|st| - 1] == s + t[..|t| - 1];
      WithoutAppend(s, t[..|t| - 1], gone);
    }
  }

  /** An item that is not removed is kept. */
  lemma {:induction false} WithoutKeeps(items: seq<KeyMapItem>, gone: set<KeyMapItem>, x: KeyMapItem)
    requires x in items && x !in gone
    ensures x in Without(items, gone)
  {
    if items[|items| - 1] != x {
      WithoutKeeps(items[..|items| - 1], gone, x);
    }
  }

  /** Items none of which is removed are kept as they are. */
  lemma {:induction false} WithoutNone(items: seq<KeyMapItem>, gone: set<KeyMapItem>)
    requires forall k :: 0 <= k < |items| ==> items[k] !in gone
    ensures Without(items, gone) == items
  {
    if items != [] {
      WithoutNone(items[..|items| - 1], gone);
    }
  }

  /** Items that are all removed leave nothing. */
  lemma {:induction false} WithoutAll(items: seq<KeyMapItem>, gone: set<KeyMapItem>)
    requires forall k :: 0 <= k < |items| ==> items[k] in gone
    ensures Without(items, gone) == []
  {
    if items != [] {
      WithoutAll(items[..|items| - 1], gone);
    }
  }

  /** Removing again exactly the items added after `base` gives `base` back. */
  lemma RemovingAddedRestores(base: seq<KeyMapItem>, added: seq<KeyMapItem>, gone: set<KeyMapItem>)
    requires forall k :: 0 <= k < |base| ==> base[k] !in gone
    requires forall k :: 0 <= k < |added| ==> added[k] in gone
    ensures Without(base + added, gone) == base
  {
    WithoutAppend(base, added, gone);
    WithoutNone(base, gone);
    WithoutAll(added, gone);
  }

  class KeyMap {
    const name: string
    const space: SpaceType
    var items: seq<KeyMapItem>

    constructor (name: string, space: SpaceType)
      ensures this.name == name && this.space == space && items == []
    {
      this.name := name;
      this.space := space;
      items := [];
    }

    /** keymap_items.new: a new item with no brush name, added at the end. */
    method NewItem(operator: string, key: char, value: string, shift: bool, ctrl: bool, alt: bool)
      returns (kmi: KeyMapItem)
      modifies this`items
      ensures fresh(kmi) && kmi.brushName == None
      ensures kmi.operator == operator && kmi.key == key && kmi.value == value
      ensures kmi.shift == shift && kmi.ctrl == ctrl && kmi.alt == alt
      ensures items == old(items) + [kmi]
    {
      kmi := new KeyMapItem(operator, key, value, shift, ctrl, alt);
      items := items + [kmi];
    }

    /** keymap_items.remove: fails (the host raises) when the item is not in this keymap. */
    method RemoveItem(kmi: KeyMapItem) returns (ok: bool)
      modifies this`items
      ensures ok <==> kmi in old(items)
      ensures items == Without(old(items), {kmi})
    {
      ok := kmi in items;
      items := Without(items, {kmi});
    }
  }

  /** The first keymap with that name and space type. */
  function FindKeymap(keymaps: seq<KeyMap>, name: string, space: SpaceType): (r: Option<KeyMap>)
    ensures r.Some? ==> r.value in keymaps && r.value.name == name && r.value.space == space
    ensures r.None? ==> forall k :: 0 <= k < |keymaps| ==> !(keymaps[k].name == name && keymaps[k].space == space)
  {
    if keymaps == [] then None
    else if keymaps[0].name == name && keymaps[0].space == space then Some(keymaps[0])
    else FindKeymap(keymaps[1..], name, space)
  }

  lemma {:induction false} FindKeymapFirst(keymaps: seq<KeyMap>, name: string, space: SpaceType, i: nat)
    requires i < |keymaps| && keymaps[i].name == name && keymaps[i].space == space
    requires forall k :: 0 <= k < i ==> !(keymaps[k].name == name && keymaps[k].space == space)
    ensures FindKeymap(keymaps, name, space) == Some(keymaps[i])
  {
    if i > 0 {
      FindKeymapFirst(keymaps[1..], name, space, i - 1);
    }
  }

  /** The add-on key configuration. */
  class KeyConfig {
    var keymaps: seq<KeyMap>

    constructor ()
      ensures keymaps == []
    {
      keymaps := [];
    }

    /**
     * keymaps.new: the first keymap with that name and space type when there
     * is one, otherwise a new empty keymap added to the configuration.
     */
    method Ensure(name: string, space: SpaceType) returns (km: KeyMap)
      modifies this`keymaps
      ensures km.name == name && km.space == space && km in keymaps
      ensures FindKeymap(old(keymaps), name, space).Some? ==>
                km == FindKeymap(old(keymaps), name, space).value && keymaps == old(keymaps)
      ensures FindKeymap(old(keymaps), name, space).None? ==>
                fresh(km) && km.items == [] && keymaps == old(keymaps) + [km]
    {
      var i := 0;
      while i < |keymaps|
        invariant 0 <= i <= |keymaps|
        invariant forall k :: 0 <= k < i ==> !(keymaps[k].name == name && keymaps[k].space == space)
      {
        if keymaps[i].name == name && keymaps[i].space == space {
          FindKeymapFirst(keymaps, name, space, i);
          return keymaps[i];
        }
        i := i + 1;
      }
      km := new KeyMap(name, space);
      keymaps := keymaps + [km];
    }
  }

  // ---------------------------------------------------------------------
  //  TEXTURE_PT_PaintHelper.poll
  // ---------------------------------------------------------------------

  /** Which of the two keymaps a table row goes into. */
  datatype Target = ImagePaintMap | View3DMap

  /** Lines 137 and 141: the space type of each keymap. */
  function TargetSpace(t: Target): SpaceType {
    match t
    case ImagePaintMap => ImageEditor
    case View3DMap => View3D
  }

  /**
   * Lines 29-32: poll holds in exactly the two kinds of area in which the
   * add-on's shortcuts are registered.
   */
  function Poll(areaType: SpaceType): (ok: bool)
    ensures ok <==> exists t: Target :: TargetSpace(t) == areaType
  {
    assert TargetSpace(ImagePaintMap) == ImageEditor && TargetSpace(View3DMap) == View3D;
    areaType == ImageEditor || areaType == View3D
  }

  /** Line 23: the one space type the panel class is registered for. */
  const PanelSpace := ImageEditor

  /**
   * Where the panel appears as written: the host consults poll only in areas
   * of the panel's registered space type, so the panel appears in the Image
   * Editor alone and the VIEW_3D case of poll is never reached.
   */
  function PanelShown(areaType: SpaceType): (shown: bool)
    ensures shown <==> areaType == ImageEditor
    ensures areaType == View3D ==> Poll(areaType) && !shown
  {
    areaType == PanelSpace && Poll(areaType)
  }

  /** The space types of the evident intent of line 20: the Image Editor and the 3D Viewport. */
  const PanelSpaces: seq<SpaceType> := [ImageEditor, View3D]

  /**
   * The panel registered for both space types: it appears exactly where
   * poll holds, which is every area a shortcut keymap serves.
   */
  function PanelShownInBoth(areaType: SpaceType): (shown: bool)
    ensures shown <==> Poll(areaType)
    ensures shown <==> exists t: Target :: TargetSpace(t) == areaType
  {
    areaType in PanelSpaces && Poll(areaType)
  }

  // ---------------------------------------------------------------------
  //  The shortcut table
  // ---------------------------------------------------------------------

  /** One row of the table of lines 148-170. */
  datatype ItemSpec = ItemSpec(operator: string, key: char, value: string, shift: bool, ctrl: bool, alt: bool, target: Target)

  const BrushSelect := "paint.brush_select"

  /** Lines 148-170. */
  const KeymapTable: seq<ItemSpec> := [
    ItemSpec("image.new", 'N', "PRESS", true, false, false, ImagePaintMap),
    ItemSpec("image.save_as", 'S', "PRESS", true, false, false, ImagePaintMap),
    ItemSpec("paint.sample_color", 'K', "PRESS", false, false, false, ImagePaintMap),
    ItemSpec("image.paint_fill", 'G', "PRESS", true, false, false, ImagePaintMap),
    ItemSpec(BrushSelect, 'Q', "PRESS", false, false, false, ImagePaintMap),
    ItemSpec(BrushSelect, 'Q', "PRESS", false, false, false, View3DMap),
    ItemSpec(BrushSelect, 'W', "PRESS", false, false, false, ImagePaintMap),
    ItemSpec(BrushSelect, 'W', "PRESS", false, false, false, View3DMap),
    ItemSpec(BrushSelect, 'E', "PRESS", false, false, false, ImagePaintMap),
    ItemSpec(BrushSelect, 'E', "PRESS", false, false, false, View3DMap),
    ItemSpec(BrushSelect, 'R', "PRESS", false, false, false, ImagePaintMap),
    ItemSpec(BrushSelect, 'R', "PRESS", false, false, false, View3DMap),
    ItemSpec(BrushSelect, 'T', "PRESS", false, false, false, ImagePaintMap),
    ItemSpec(BrushSelect, 'T', "PRESS", false, false, false, View3DMap)
  ]

  /** Lines 176-186: the brush a brush-select item picks, by key; other operators get no name. */
  function BrushName(operator: string, key: char): (r: Option<string>)
    ensures r.Some? ==> operator == BrushSelect && key in "QWERT"
    ensures operator == BrushSelect && key in "QWERT" ==> r.Some?
  {
    if operator != BrushSelect then None
    else if key == 'Q' then Some("Draw")
    else if key == 'W' then Some("Soften")
    else if key == 'E' then Some("Sharpen")
    else if key == 'R' then Some("Smear")
    else if key == 'T' then Some("Fill")
    else None
  }

  /** The item made for a table row, with the brush name lines 176-186 give it. */
  predicate Made(kmi: KeyMapItem, row: ItemSpec)
    reads kmi
  {
    && kmi.operator == row.operator && kmi.key == row.key && kmi.value == row.value
    && kmi.shift == row.shift && kmi.ctrl == row.ctrl && kmi.alt == row.alt
    && kmi.brushName == BrushName(row.operator, row.key)
  }

  /** The number of the first n rows of a table that go into keymap t. */
  function RowsFor(table: seq<ItemSpec>, t: Target, n: nat): (c: nat)
    requires n <= |table|
    ensures c <= n
  {
    if n == 0 then 0
    else RowsFor(table, t, n - 1) + (if table[n - 1].target == t then 1 else 0)
  }

  /** The items made for the first |made| rows of the table that go into keymap t, in order. */
  function ItemsFor(table: seq<ItemSpec>, made: seq<KeyMapItem>, t: Target): (r: seq<KeyMapItem>)
    requires |made| <= |table|
    ensures |r| <= |made|
  {
    if made == [] then []
    else
      var n := |made| - 1;
      assert table[..n + 1][..n] == table[..n];
      ItemsFor(table, made[..n], t) + (if table[n].target == t then [made[n]] else [])
  }

  /** A keymap receives one item for each of the rows that go into it. */
  lemma {:induction false} ItemsForCount(table: seq<ItemSpec>, made: seq<KeyMapItem>, t: Target)
    requires |made| <= |table|
    ensures |ItemsFor(table, made, t)| == RowsFor(table, t, |made|)
  {
    if made != [] {
      ItemsForCount(table, made[..|made| - 1], t);
    }
  }

  /**
   * Lines 148-170: fourteen rows, nine for the Image Paint keymap and five for
   * the 3D View keymap.
   */
  lemma TableCounts()
    ensures |KeymapTable| == 14
    ensures RowsFor(KeymapTable, ImagePaintMap, 14) == 9 && RowsFor(KeymapTable, View3DMap, 14) == 5
  {
    var t := KeymapTable;
    assert RowsFor(t, ImagePaintMap, 1) == 1 && RowsFor(t, View3DMap, 1) == 0;
    assert RowsFor(t, ImagePaintMap, 2) == 2 && RowsFor(t, View3DMap, 2) == 0;
    assert RowsFor(t, ImagePaintMap, 3) == 3 && RowsFor(t, View3DMap, 3) == 0;
    assert RowsFor(t, ImagePaintMap, 4) == 4 && RowsFor(t, View3DMap, 4) == 0;
    assert RowsFor(t, ImagePaintMap, 5) == 5 && RowsFor(t, View3DMap, 5) == 0;
    assert RowsFor(t, ImagePaintMap, 6) == 5 && RowsFor(t, View3DMap, 6) == 1;
    assert RowsFor(t, ImagePaintMap, 7) == 6 && RowsFor(t, View3DMap, 7) == 1;
    assert RowsFor(t, ImagePaintMap, 8) == 6 && RowsFor(t, View3DMap, 8) == 2;
    assert RowsFor(t, ImagePaintMap, 9) == 7 && RowsFor(t, View3DMap, 9) == 2;
    assert RowsFor(t, ImagePaintMap, 10) == 7 && RowsFor(t, View3DMap, 10) == 3;
    assert RowsFor(t, ImagePaintMap, 11) == 8 && RowsFor(t, View3DMap, 11) == 3;
    assert RowsFor(t, ImagePaintMap, 12) == 8 && RowsFor(t, View3DMap, 12) == 4;
    assert RowsFor(t, ImagePaintMap, 13) == 9 && RowsFor(t, View3DMap, 13) == 4;
    assert RowsFor(t, ImagePaintMap, 14) == 9 && RowsFor(t, View3DMap, 14) == 5;
  }

  /**
   * Lines 150-169: the four image-editor operators come first; the rest are
   * brush selections, each of the five brush keys bound in both keymaps.
   */
  lemma TableLayout()
    ensures forall k :: 0 <= k < 4 ==> KeymapTable[k].target == ImagePaintMap && KeymapTable[k].operator != BrushSelect
    ensures forall k :: 4 <= k < 14 ==> KeymapTable[k].operator == BrushSelect && BrushName(BrushSelect, KeymapTable[k].key).Some?
    ensures forall k :: 4 <= k < 14 ==> KeymapTable[k].target == if k % 2 == 0 then ImagePaintMap else View3DMap
    ensures forall k :: 4 <= k < 14 && k % 2 == 1 ==> KeymapTable[k - 1].key == KeymapTable[k].key
  {
  }

  /** The brush names the table gives, in key order. */
  lemma BrushNamesByKey()
    ensures BrushName(BrushSelect, 'Q') == Some("Draw") && BrushName(BrushSelect, 'W') == Some("Soften")
    ensures BrushName(BrushSelect, 'E') == Some("Sharpen") && BrushName(BrushSelect, 'R') == Some("Smear")
    ensures BrushName(BrushSelect, 'T') == Some("Fill")
    ensures forall k :: 0 <= k < 4 ==> BrushName(KeymapTable[k].operator, KeymapTable[k].key) == None
  {
  }

  // ---------------------------------------------------------------------
  //  addon_keymaps and registration
  // ---------------------------------------------------------------------

  /** An entry of addon_keymaps: a keymap on its own, or a keymap and one of its items. */
  datatype Entry = Bare(km: KeyMap) | Pair(km: KeyMap, kmi: KeyMapItem)

  /** The module-level list addon_keymaps (line 128). */
  class AddonKeymaps {
    var entries: seq<Entry>

    constructor ()
      ensures entries == []
    {
      entries := [];
    }
  }

  /** The (keymap, item) entries recorded for the items made from the table. */
  function PairsFor(table: seq<ItemSpec>, made: seq<KeyMapItem>, km: KeyMap, km3d: KeyMap): (r: seq<Entry>)
    requires |made| <= |table|
    ensures |r| == |made|
  {
    if made == [] then []
    else
      var n := |made| - 1;
      PairsFor(table, made[..n], km, km3d) + [Pair(if table[n].target == ImagePaintMap then km else km3d, made[n])]
  }

  predicate DistinctItems(s: seq<KeyMapItem>) {
    forall i, j :: 0 <= i < j < |s| ==> s[i] != s[j]
  }

  /** Each item was made from the table row of the same index. */
  predicate AllMade(made: seq<KeyMapItem>, table: seq<ItemSpec>)
    reads made
  {
    |made| <= |table| && forall k :: 0 <= k < |made| ==> Made(made[k], table[k])
  }

  lemma AllMadeStep(made: seq<KeyMapItem>, table: seq<ItemSpec>, x: KeyMapItem)
    requires AllMade(made, table) && |made| < |table| && Made(x, table[|made|])
    ensures AllMade(made + [x], table)
  {
  }

  /** Making the item for the next row adds it, after what keymap t already held, to keymap t only. */
  lemma ItemsForStep(table: seq<ItemSpec>, made: seq<KeyMapItem>, x: KeyMapItem, held: seq<KeyMapItem>, t: Target)
    requires |made| < |table|
    ensures held + ItemsFor(table, made + [x], t) ==
              (held + ItemsFor(table, made, t)) + (if table[|made|].target == t then [x] else [])
  {
    assert (made + [x])[..|made|] == made;
  }

  /** Making the item for the next row records one more pair after the entries already there. */
  lemma PairsForStep(table: seq<ItemSpec>, made: seq<KeyMapItem>, x: KeyMapItem, km: KeyMap, km3d: KeyMap, held: seq<Entry>)
    requires |made| < |table|
    ensures held + PairsFor(table, made + [x], km, km3d) ==
              (held + PairsFor(table, made, km, km3d)) + [Pair(if table[|made|].target == ImagePaintMap then km else km3d, x)]
  {
    assert (made + [x])[..|made|] == made;
  }

  /** The k-th recorded pair is the k-th item with the keymap of its row. */
  lemma {:induction false} PairsForAt(table: seq<ItemSpec>, made: seq<KeyMapItem>, km: KeyMap, km3d: KeyMap)
    requires |made| <= |table|
    ensures forall k :: 0 <= k < |made| ==>
              PairsFor(table, made, km, km3d)[k] == Pair(if table[k].target == ImagePaintMap then km else km3d, made[k])
  {
    if made != [] {
      PairsForAt(table, made[..|made| - 1], km, km3d);
    }
  }

  /** Every item made goes into the keymap of its row. */
  lemma {:induction false} ItemsForHas(table: seq<ItemSpec>, made: seq<KeyMapItem>, k: nat)
    requires k < |made| <= |table|
    ensures made[k] in ItemsFor(table, made, table[k].target)
  {
    var n := |made| - 1;
    if k < n {
      ItemsForHas(table, made[..n], k);
    }
  }

  /** Every item a keymap received is recorded in a pair with that keymap. */
  lemma {:induction false} ItemsForPaired(table: seq<ItemSpec>, made: seq<KeyMapItem>, km: KeyMap, km3d: KeyMap, t: Target)
    requires |made| <= |table| && km != km3d
    ensures forall y :: y in ItemsFor(table, made, t) ==>
              y in PairedItems(PairsFor(table, made, km, km3d), if t == ImagePaintMap then km else km3d)
  {
    if made != [] {
      var n := |made| - 1;
      ItemsForPaired(table, made[..n], km, km3d, t);
      PairedStep(PairsFor(table, made[..n], km, km3d), Pair(if table[n].target == ImagePaintMap then km else km3d, made[n]),
                 if t == ImagePaintMap then km else km3d);
    }
  }

  /** Only items that were made are recorded. */
  lemma {:induction false} PairedMade(table: seq<ItemSpec>, made: seq<KeyMapItem>, km: KeyMap, km3d: KeyMap, m: KeyMap)
    requires |made| <= |table|
    ensures forall y :: y in PairedItems(PairsFor(table, made, km, km3d), m) ==> y in made
  {
    if made != [] {
      var n := |made| - 1;
      PairedMade(table, made[..n], km, km3d, m);
      PairedStep(PairsFor(table, made[..n], km, km3d), Pair(if table[n].target == ImagePaintMap then km else km3d, made[n]), m);
    }
  }

  /**
   * Lines 172-188: one item per table row, in order, added to its keymap and
   * recorded in addon_keymaps as a (keymap, item) pair.
   */
  method AddTableItems(table: seq<ItemSpec>, km: KeyMap, km3d: KeyMap, reg: AddonKeymaps) returns (made: seq<KeyMapItem>)
    requires km != km3d
    modifies km`items, km3d`items, reg`entries
    ensures |made| == |table|
    ensures forall k :: 0 <= k < |made| ==> fresh(made[k])
    ensures AllMade(made, table)
    ensures DistinctItems(made)
    ensures km.items == old(km.items) + ItemsFor(table, made, ImagePaintMap)
    ensures km3d.items == old(km3d.items) + ItemsFor(table, made, View3DMap)
    ensures reg.entries == old(reg.entries) + PairsFor(table, made, km, km3d)
  {
    made := [];
    var i := 0;
    while i < |table|
      invariant 0 <= i <= |table| && |made| == i
      invariant forall k :: 0 <= k < i ==> fresh(made[k])
      invariant AllMade(made, table)
      invariant DistinctItems(made)
      invariant km.items == old(km.items) + ItemsFor(table, made, ImagePaintMap)
      invariant km3d.items == old(km3d.items) + ItemsFor(table, made, View3DMap)
      invariant reg.entries == old(reg.entries) + PairsFor(table, made, km, km3d)
    {
      var kmi := AddRow(table[i], km, km3d, reg);
      AllMadeStep(made, table, kmi);
      ItemsForStep(table, made, kmi, old(km.items), ImagePaintMap);
      ItemsForStep(table, made, kmi, old(km3d.items), View3DMap);
      PairsForStep(table, made, kmi, km, km3d, old(reg.entries));
      made := made + [kmi];
      i := i + 1;
    }
  }

  /** Lines 173-188 for one row: the item, added to the row's keymap, named, and recorded. */
  method AddRow(row: ItemSpec, km: KeyMap, km3d: KeyMap, reg: AddonKeymaps) returns (kmi: KeyMapItem)
    requires km != km3d
    modifies km`items, km3d`items, reg`entries
    ensures fresh(kmi) && Made(kmi, row)
    ensures km.items == old(km.items) + (if row.target == ImagePaintMap then [kmi] else [])
    ensures km3d.items == old(km3d.items) + (if row.target == View3DMap then [kmi] else [])
    ensures reg.entries == old(reg.entries) + [Pair(if row.target == ImagePaintMap then km else km3d, kmi)]
  {
    var target := if row.target == ImagePaintMap then km else km3d;
    kmi := target.NewItem(row.operator, row.key, row.value, row.shift, row.ctrl, row.alt);
    NameBrush(kmi);
    reg.entries := reg.entries + [Pair(target, kmi)];
  }

  /** Lines 176-186: set the `name` of a brush-select item from its key (the host is assumed to accept it). */
  method NameBrush(kmi: KeyMapItem)
    modifies kmi`brushName
    ensures kmi.brushName == if BrushName(kmi.operator, kmi.key).Some? then BrushName(kmi.operator, kmi.key) else old(kmi.brushName)
  {
    if kmi.operator == BrushSelect {
      if kmi.key == 'Q' {
        kmi.brushName := Some("Draw");
      } else if kmi.key == 'W' {
        kmi.brushName := Some("Soften");
      } else if kmi.key == 'E' {
        kmi.brushName := Some("Sharpen");
      } else if kmi.key == 'R' {
        kmi.brushName := Some("Smear");
      } else if kmi.key == 'T' {
        kmi.brushName := Some("Fill");
      }
    }
  }

  /** The keymaps a configuration holds, or none when there is no configuration. */
  function KeymapsIn(kc: KeyConfig?): seq<KeyMap>
    reads kc
  {
    if kc == null then [] else kc.keymaps
  }

  /**
   * Lines 137 and 141: the Image Paint and 3D View keymaps of the add-on key
   * configuration, each reused when it is already there and made otherwise.
   */
  method EnsurePaintKeymaps(kc: KeyConfig) returns (km: KeyMap, km3d: KeyMap)
    modifies kc`keymaps
    ensures km.name == "Image Paint" && km.space == ImageEditor
    ensures km3d.name == "3D View" && km3d.space == View3D
    ensures km in kc.keymaps && km3d in kc.keymaps
    ensures fresh(km) || km in old(kc.keymaps)
    ensures fresh(km3d) || km3d in old(kc.keymaps)
    ensures fresh(km) ==> km.items == []
    ensures fresh(km3d) ==> km3d.items == []
    ensures kc.keymaps == old(kc.keymaps) + (if fresh(km) then [km] else []) + (if fresh(km3d) then [km3d] else [])
  {
    km := kc.Ensure("Image Paint", ImageEditor);
    km3d := kc.Ensure("3D View", View3D);
  }

  /**
   * register_keymaps as written (lines 130-188). Without an add-on key
   * configuration nothing changes. Otherwise the Image Paint and 3D View
   * keymaps are made or reused, each keymap itself is appended to
   * addon_keymaps, and then the fourteen items of the table are added.
   */
  method RegisterKeymaps(kc: KeyConfig?, reg: AddonKeymaps, table: seq<ItemSpec>) returns (km: KeyMap?, km3d: KeyMap?, made: seq<KeyMapItem>)
    modifies kc, reg`entries, KeymapsIn(kc)
    ensures kc == null ==> reg.entries == old(reg.entries) && made == [] && km == null && km3d == null
    ensures kc != null ==>
              && km != null && km3d != null
              && km.name == "Image Paint" && km.space == ImageEditor
              && km3d.name == "3D View" && km3d.space == View3D
              && km in kc.keymaps && km3d in kc.keymaps
              && (fresh(km) || km in old(kc.keymaps)) && (fresh(km3d) || km3d in old(kc.keymaps))
              && |made| == |table|
              && (forall k :: 0 <= k < |made| ==> fresh(made[k]))
              && AllMade(made, table) && DistinctItems(made)
              && reg.entries == old(reg.entries) + [Bare(km), Bare(km3d)] + PairsFor(table, made, km, km3d)
    ensures km != null ==> km.items == (if fresh(km) then [] else old(km.items)) + ItemsFor(table, made, ImagePaintMap)
    ensures km3d != null ==> km3d.items == (if fresh(km3d) then [] else old(km3d.items)) + ItemsFor(table, made, View3DMap)
    ensures kc != null ==>
              kc.keymaps == old(kc.keymaps) + (if fresh(km) then [km] else []) + (if fresh(km3d) then [km3d] else [])
    ensures forall m :: m in old(KeymapsIn(kc)) && m != km && m != km3d ==> m.items == old(m.items)
  {
    if kc == null {
      return null, null, [];
    }
    var imagePaint, view3d := EnsurePaintKeymaps(kc);
    reg.entries := reg.entries + [Bare(imagePaint), Bare(view3d)];
    made := AddTableItems(table, imagePaint, view3d, reg);
    km, km3d := imagePaint, view3d;
  }

  /**
   * The evident intent of lines 136-142 and 188: the same registration with
   * only (keymap, item) pairs recorded, the form unregistration reads.
   */
  method RegisterKeymapPairs(kc: KeyConfig?, reg: AddonKeymaps, table: seq<ItemSpec>) returns (km: KeyMap?, km3d: KeyMap?, made: seq<KeyMapItem>)
    modifies kc, reg`entries, KeymapsIn(kc)
    ensures kc == null ==> reg.entries == old(reg.entries) && made == [] && km == null && km3d == null
    ensures kc != null ==>
              && km != null && km3d != null
              && km.name == "Image Paint" && km.space == ImageEditor
              && km3d.name == "3D View" && km3d.space == View3D
              && km in kc.keymaps && km3d in kc.keymaps
              && (fresh(km) || km in old(kc.keymaps)) && (fresh(km3d) || km3d in old(kc.keymaps))
              && |made| == |table|
              && (forall k :: 0 <= k < |made| ==> fresh(made[k]))
              && AllMade(made, table) && DistinctItems(made)
              && reg.entries == old(reg.entries) + PairsFor(table, made, km, km3d)
    ensures km != null ==> km.items == (if fresh(km) then [] else old(km.items)) + ItemsFor(table, made, ImagePaintMap)
    ensures km3d != null ==> km3d.items == (if fresh(km3d) then [] else old(km3d.items)) + ItemsFor(table, made, View3DMap)
    ensures kc != null ==>
              kc.keymaps == old(kc.keymaps) + (if fresh(km) then [km] else []) + (if fresh(km3d) then [km3d] else [])
    ensures forall m :: m in old(KeymapsIn(kc)) && m != km && m != km3d ==> m.items == old(m.items)
  {
    if kc == null {
      return null, null, [];
    }
    var imagePaint, view3d := EnsurePaintKeymaps(kc);
    made := AddTableItems(table, imagePaint, view3d, reg);
    km, km3d := imagePaint, view3d;
  }

  // ---------------------------------------------------------------------
  //  Unregistration
  // ---------------------------------------------------------------------

  /** The keymaps the entries name. */
  function EntryKeymaps(entries: seq<Entry>): (r: set<KeyMap>)
    ensures forall k :: 0 <= k < |entries| ==> entries[k].km in r
  {
    if entries == [] then {} else EntryKeymaps(entries[..|entries| - 1]) + {entries[|entries| - 1].km}
  }

  /** Entries that name only keymaps of s name no keymap outside s. */
  lemma {:induction false} EntryKeymapsWithin(entries: seq<Entry>, s: set<KeyMap>)
    requires forall k :: 0 <= k < |entries| ==> entries[k].km in s
    ensures EntryKeymaps(entries) <= s
  {
    if entries != [] {
      EntryKeymapsWithin(entries[..|entries| - 1], s);
    }
  }

  /** The items recorded in (km, item) pairs for keymap km. */
  function PairedItems(entries: seq<Entry>, km: KeyMap): set<KeyMapItem> {
    if entries == [] then {}
    else
      var e := entries[|entries| - 1];
      PairedItems(entries[..|entries| - 1], km) + (if e.Pair? && e.km == km then {e.kmi} else {})
  }

  /** Every entry is a pair whose item is in its keymap, and no item is recorded twice. */
  predicate Removable(entries: seq<Entry>)
    reads EntryKeymaps(entries)
  {
    && (forall k :: 0 <= k < |entries| ==> entries[k].Pair? && entries[k].kmi in entries[k].km.items)
    && (forall i, j :: 0 <= i < j < |entries| && entries[i].Pair? && entries[j].Pair? ==> entries[i].kmi != entries[j].kmi)
  }

  /** The index of the first entry that is a keymap on its own, or |entries| when there is none. */
  function FirstBare(entries: seq<Entry>): (f: nat)
    ensures f <= |entries|
    ensures forall k :: 0 <= k < f ==> entries[k].Pair?
    ensures f < |entries| ==> entries[f].Bare?
  {
    if entries == [] then 0
    else if entries[0].Bare? then 0
    else 1 + FirstBare(entries[1..])
  }

  /** Recording one more entry adds its item to its own keymap's set only. */
  lemma PairedStep(entries: seq<Entry>, e: Entry, m: KeyMap)
    ensures PairedItems(entries + [e], m) ==
              PairedItems(entries, m) + (if e.Pair? && e.km == m then {e.kmi} else {})
  {
    assert (entries + [e])[..|entries|] == entries;
  }

  /**
   * The contents of the keymaps after the item of each of the first n
   * (keymap, item) entries has been removed from its keymap in turn,
   * starting from `contents`.
   */
  function Stripped(contents: map<KeyMap, seq<KeyMapItem>>, entries: seq<Entry>, n: nat): (r: map<KeyMap, seq<KeyMapItem>>)
    requires n <= |entries|
    ensures r.Keys == contents.Keys
  {
    if n == 0 then contents
    else
      var before := Stripped(contents, entries, n - 1);
      var e := entries[n - 1];
      if e.Pair? && e.km in before then before[e.km := Without(before[e.km], {e.kmi})] else before
  }

  /** Removing the recorded items one by one removes, from each keymap, all the items recorded for it. */
  lemma {:induction false} StrippedIsWithout(contents: map<KeyMap, seq<KeyMapItem>>, entries: seq<Entry>, n: nat, m: KeyMap)
    requires n <= |entries| && m in contents
    ensures Stripped(contents, entries, n)[m] == Without(contents[m], PairedItems(entries[..n], m))
  {
    if n == 0 {
      WithoutNone(contents[m], {});
    } else {
      StrippedIsWithout(contents, entries, n - 1, m);
      assert entries[..n - 1] + [entries[n - 1]] == entries[..n];
      PairedStep(entries[..n - 1], entries[n - 1], m);
      var e := entries[n - 1];
      if e.Pair? && e.km == m {
        WithoutTwice(contents[m], PairedItems(entries[..n - 1], m), {e.kmi});
      } else {
        assert PairedItems(entries[..n], m) == PairedItems(entries[..n - 1], m);
      }
    }
  }

  /** Each entry's keymap, after every recorded item is removed, has lost exactly the items recorded for it. */
  lemma StrippedEach(contents: map<KeyMap, seq<KeyMapItem>>, entries: seq<Entry>)
    requires forall k :: 0 <= k < |entries| ==> entries[k].km in contents
    ensures forall k :: 0 <= k < |entries| ==>
              Stripped(contents, entries, |entries|)[entries[k].km] ==
                Without(contents[entries[k].km], PairedItems(entries, entries[k].km))
  {
    assert entries[..|entries|] == entries;
    forall k | 0 <= k < |entries| {
      StrippedIsWithout(contents, entries, |entries|, entries[k].km);
    }
  }

  /**
   * When every entry is a pair whose item its keymap holds and no item is
   * recorded twice, each item still to be removed is still there after the
   * first n removals.
   */
  lemma {:induction false} StrippedKeepsLater(contents: map<KeyMap, seq<KeyMapItem>>, entries: seq<Entry>, n: nat)
    requires n <= |entries|
    requires forall k :: 0 <= k < |entries| ==>
               entries[k].Pair? && entries[k].km in contents && entries[k].kmi in contents[entries[k].km]
    requires forall a, b :: 0 <= a < b < |entries| ==> entries[a].kmi != entries[b].kmi
    ensures forall k :: n <= k < |entries| ==> entries[k].kmi in Stripped(contents, entries, n)[entries[k].km]
  {
    if n > 0 {
      StrippedKeepsLater(contents, entries, n - 1);
      var before := Stripped(contents, entries, n - 1);
      var e := entries[n - 1];
      forall k | n <= k < |entries| && entries[k].km == e.km
        ensures entries[k].kmi in Without(before[e.km], {e.kmi})
      {
        WithoutKeeps(before[e.km], {e.kmi}, entries[k].kmi);
      }
    }
  }

  /** Every keymap of `contents` holds what the first `n` entries left of it. */
  ghost predicate StrippedHeld(contents: map<KeyMap, seq<KeyMapItem>>, entries: seq<Entry>, n: nat)
    requires n <= |entries|
    reads contents.Keys
  {
    forall m | m in contents :: m.items == Stripped(contents, entries, n)[m]
  }

  /**
   * The entry at `i` raises once the entries before it are handled: it is a
   * bare keymap, or its item is no longer in its keymap.
   */
  ghost predicate Stuck(contents: map<KeyMap, seq<KeyMapItem>>, entries: seq<Entry>, i: nat)
    requires i < |entries| && entries[i].km in contents
  {
    entries[i].Bare? || entries[i].kmi !in Stripped(contents, entries, i)[entries[i].km]
  }

  /**
   * One step of unregister_keymaps (line 193): unpack the entry at `i` as
   * (keymap, item) and remove the item from its keymap, where every keymap
   * holds what the entries before `i` left of `contents`. A bare keymap
   * cannot be unpacked and an item its keymap no longer holds cannot be
   * removed; either raises and changes nothing.
   */
  method RemoveRecorded(entries: seq<Entry>, i: nat, ghost contents: map<KeyMap, seq<KeyMapItem>>) returns (ok: bool)
    requires i < |entries| && entries[i].km in contents
    requires StrippedHeld(contents, entries, i)
    modifies entries[i].km`items
    ensures ok <==> !Stuck(contents, entries, i)
    ensures ok ==> StrippedHeld(contents, entries, i + 1)
    ensures !ok ==> StrippedHeld(contents, entries, i)
  {
    if entries[i].Bare? {
      return false;
    }
    ghost var before := Stripped(contents, entries, i);
    var e := entries[i];
    ok := e.km.RemoveItem(e.kmi);
    if !ok {
      WithoutNone(before[e.km], {e.kmi});
    }
  }

  /**
   * The loop of unregister_keymaps (lines 192-193): entries are handled in
   * order until one is a bare keymap or names an item its keymap no longer
   * holds, which raises. `done` counts the entries whose items were removed.
   */
  method RemoveEach(entries: seq<Entry>, ghost contents: map<KeyMap, seq<KeyMapItem>>) returns (ok: bool, ghost done: nat)
    requires forall k :: 0 <= k < |entries| ==> entries[k].km in contents
    requires forall m | m in contents :: m.items == contents[m]
    modifies contents.Keys`items
    ensures done <= |entries| && (ok <==> done == |entries|)
    ensures forall k :: 0 <= k < done ==> entries[k].Pair?
    ensures !ok ==> Stuck(contents, entries, done)
    ensures StrippedHeld(contents, entries, done)
  {
    var i := 0;
    ok := true;
    while ok && i < |entries|
      invariant 0 <= i <= |entries|
      invariant forall k :: 0 <= k < i ==> entries[k].Pair?
      invariant StrippedHeld(contents, entries, i)
      invariant !ok ==> i < |entries| && Stuck(contents, entries, i)
    {
      ok := RemoveRecorded(entries, i, contents);
      if ok {
        i := i + 1;
      }
    }
    done := i;
  }

  /**
   * unregister_keymaps (lines 190-194): unpack each entry as (keymap, item)
   * and remove the item from its keymap, then clear addon_keymaps. Unpacking
   * a bare keymap raises, and so does removing an item its keymap does not
   * hold; either leaves addon_keymaps as it was.
   */
  method UnregisterKeymaps(reg: AddonKeymaps) returns (status: Status)
    modifies reg`entries, EntryKeymaps(reg.entries)`items
    ensures status == Finished || status == Raised
    ensures status == Raised ==> reg.entries == old(reg.entries)
    ensures status == Finished ==>
              && reg.entries == []
              && FirstBare(old(reg.entries)) == |old(reg.entries)|
              && forall k :: 0 <= k < |old(reg.entries)| ==>
                   old(reg.entries)[k].km.items ==
                     Without(old(reg.entries[k].km.items), PairedItems(old(reg.entries), old(reg.entries)[k].km))
    ensures FirstBare(old(reg.entries)) < |old(reg.entries)| ==> status == Raised
    ensures old(reg.entries) != [] && old(reg.entries)[0].Bare? ==>
              forall k :: 0 <= k < |old(reg.entries)| ==> old(reg.entries)[k].km.items == old(reg.entries[k].km.items)
    ensures old(Removable(reg.entries)) ==> status == Finished
  {
    var entries := reg.entries;
    ghost var orig: map<KeyMap, seq<KeyMapItem>> := map m | m in EntryKeymaps(entries) :: m.items;
    ghost var removable := Removable(entries);
    var ok, done := RemoveEach(entries, orig);
    if !ok {
      if removable {
        StrippedKeepsLater(orig, entries, done);
      }
      return Raised;
    }
    StrippedEach(orig, entries);
    reg.entries := [];
    status := Finished;
  }

  // ---------------------------------------------------------------------
  //  Registration followed by unregistration
  // ---------------------------------------------------------------------

  /** What registration leaves in addon_keymaps can be unregistered. */
  lemma PairsRemovable(table: seq<ItemSpec>, made: seq<KeyMapItem>, km: KeyMap, km3d: KeyMap)
    requires |made| <= |table| && km != km3d && DistinctItems(made)
    requires forall y :: y in ItemsFor(table, made, ImagePaintMap) ==> y in km.items
    requires forall y :: y in ItemsFor(table, made, View3DMap) ==> y in km3d.items
    ensures Removable(PairsFor(table, made, km, km3d))
  {
    PairsForAt(table, made, km, km3d);
    forall k | 0 <= k < |made| {
      ItemsForHas(table, made, k);
    }
  }

  /** Unregistration takes from a keymap exactly the items registration added to it. */
  lemma UnregisterRestores(table: seq<ItemSpec>, made: seq<KeyMapItem>, km: KeyMap, km3d: KeyMap, t: Target, base: seq<KeyMapItem>)
    requires |made| <= |table| && km != km3d
    requires forall k :: 0 <= k < |base| ==> base[k] !in made
    ensures Without(base + ItemsFor(table, made, t), PairedItems(PairsFor(table, made, km, km3d), if t == ImagePaintMap then km else km3d)) == base
  {
    var gone := PairedItems(PairsFor(table, made, km, km3d), if t == ImagePaintMap then km else km3d);
    var added := ItemsFor(table, made, t);
    PairedMade(table, made, km, km3d, if t == ImagePaintMap then km else km3d);
    ItemsForPaired(table, made, km, km3d, t);
    assert forall k :: 0 <= k < |base| ==> base[k] !in gone;
    forall k | 0 <= k < |added|
      ensures added[k] in gone
    {
      assert added[k] in added;
    }
    RemovingAddedRestores(base, added, gone);
  }

  /**
   * Unregistration right after the evidently intended registration of a
   * table: it finishes, empties addon_keymaps and leaves each keymap with
   * the items it held before registration. Rows i and j show that each of
   * the two keymaps received an item.
   */
  method UnregisterRegistered(table: seq<ItemSpec>, made: seq<KeyMapItem>, km: KeyMap, km3d: KeyMap, reg: AddonKeymaps,
                              ghost base: seq<KeyMapItem>, ghost base3d: seq<KeyMapItem>, ghost i: nat, ghost j: nat)
    returns (status: Status)
    requires |made| <= |table| && km != km3d && DistinctItems(made)
    requires i < |made| && table[i].target == ImagePaintMap && j < |made| && table[j].target == View3DMap
    requires reg.entries == PairsFor(table, made, km, km3d)
    requires km.items == base + ItemsFor(table, made, ImagePaintMap)
    requires km3d.items == base3d + ItemsFor(table, made, View3DMap)
    requires forall k :: 0 <= k < |base| ==> base[k] !in made
    requires forall k :: 0 <= k < |base3d| ==> base3d[k] !in made
    modifies reg`entries, km`items, km3d`items
    ensures status == Finished && reg.entries == []
    ensures km.items == base && km3d.items == base3d
  {
    PairsRemovable(table, made, km, km3d);
    PairsForAt(table, made, km, km3d);
    EntryKeymapsWithin(reg.entries, {km, km3d});
    ghost var entries := reg.entries;
    status := UnregisterKeymaps(reg);
    UnregisterRestores(table, made, km, km3d, ImagePaintMap, base);
    UnregisterRestores(table, made, km, km3d, View3DMap, base3d);
    assert entries[i].km == km && entries[j].km == km3d;
  }

  /**
   * Registration as evidently intended followed by unregistration (lines
   * 130-194) puts everything back: unregistration finishes, addon_keymaps is
   * empty again, a keymap that was already there holds exactly its old items,
   * and a keymap that registration made is empty. Rows i and j show that the
   * table gives each keymap an item, as rows 0 and 5 of the add-on's table do.
   */
  method RegisterThenUnregister(kc: KeyConfig, reg: AddonKeymaps, table: seq<ItemSpec>, ghost i: nat, ghost j: nat)
    returns (status: Status, km: KeyMap?, km3d: KeyMap?)
    requires reg.entries == []
    requires i < |table| && table[i].target == ImagePaintMap && j < |table| && table[j].target == View3DMap
    modifies kc, reg`entries, kc.keymaps
    ensures status == Finished && reg.entries == []
    ensures km != null && km3d != null && km in kc.keymaps && km3d in kc.keymaps
    ensures km.name == "Image Paint" && km.space == ImageEditor
    ensures km3d.name == "3D View" && km3d.space == View3D
    ensures km.items == if fresh(km) then [] else old(km.items)
    ensures km3d.items == if fresh(km3d) then [] else old(km3d.items)
    ensures kc.keymaps == old(kc.keymaps) + (if fresh(km) then [km] else []) + (if fresh(km3d) then [km3d] else [])
    ensures forall m :: m in old(kc.keymaps) && m != km && m != km3d ==> m.items == old(m.items)
  {
    var made;
    km, km3d, made := RegisterKeymapPairs(kc, reg, table);
    ghost var base := if fresh(km) then [] else old(km.items);
    ghost var base3d := if fresh(km3d) then [] else old(km3d.items);
    assert reg.entries == PairsFor(table, made, km, km3d);
    status := UnregisterRegistered(table, made, km, km3d, reg, base, base3d, i, j);
  }

  /** Every row of a table goes into one of the two keymaps. */
  lemma {:induction false} RowsForSplit(table: seq<ItemSpec>, n: nat)
    requires n <= |table|
    ensures RowsFor(table, ImagePaintMap, n) + RowsFor(table, View3DMap, n) == n
  {
    if n > 0 {
      RowsForSplit(table, n - 1);
    }
  }

  /**
   * Unregistration right after registration as written: the first entry is
   * the bare Image Paint keymap, so unpacking it raises before any item is
   * removed and addon_keymaps is left as it was.
   */
  method UnregisterAfterBareKeymaps(table: seq<ItemSpec>, made: seq<KeyMapItem>, km: KeyMap, km3d: KeyMap, reg: AddonKeymaps)
    returns (status: Status)
    requires |made| <= |table|
    requires reg.entries == [Bare(km), Bare(km3d)] + PairsFor(table, made, km, km3d)
    modifies reg`entries, km`items, km3d`items
    ensures status == Raised && reg.entries == old(reg.entries)
    ensures km.items == old(km.items) && km3d.items == old(km3d.items)
  {
    PairsForAt(table, made, km, km3d);
    EntryKeymapsWithin(reg.entries, {km, km3d});
    ghost var entries := reg.entries;
    status := UnregisterKeymaps(reg);
    assert entries[0].km == km && entries[1].km == km3d;
  }

  /**
   * Registration as written followed by unregistration (lines 130-194), in
   * a fresh key configuration: unpacking the Image Paint keymap recorded
   * first raises, so addon_keymaps keeps its two bare keymaps and every
   * (keymap, item) pair, and every item made stays bound.
   */
  method RegisterThenUnregisterAsWritten(table: seq<ItemSpec>) returns (status: Status, kept: nat, bound: nat)
    ensures status == Raised && kept == |table| + 2 && bound == |table|
  {
    var kc := new KeyConfig();
    var reg := new AddonKeymaps();
    var km, km3d, made := RegisterKeymaps(kc, reg, table);
    status := UnregisterAfterBareKeymaps(table, made, km, km3d, reg);
    kept := |reg.entries|;
    ItemsForCount(table, made, ImagePaintMap);
    ItemsForCount(table, made, View3DMap);
    RowsForSplit(table, |table|);
    bound := |km.items| + |km3d.items|;
  }

  /** With the add-on's own table: sixteen entries stay in addon_keymaps and fourteen items stay bound. */
  method AddonTableAsWritten() returns (status: Status, kept: nat, bound: nat)
    ensures status == Raised && kept == 16 && bound == 14
  {
    TableCounts();
    status, kept, bound := RegisterThenUnregisterAsWritten(KeymapTable);
  }

  /**
   * With the add-on's own table and only (keymap, item) pairs recorded, in a
   * fresh key configuration: unregistration finishes, addon_keymaps is empty
   * and no item stays bound. Row 0 is an Image Paint row and row 5 a 3D View row.
   */
  method AddonTableRoundTrip() returns (status: Status, kept: nat, bound: nat)
    ensures status == Finished && kept == 0 && bound == 0
  {
    TableLayout();
    var kc := new KeyConfig();
    var reg := new AddonKeymaps();
    var km, km3d;
    status, km, km3d := RegisterThenUnregister(kc, reg, KeymapTable, 0, 5);
    kept := |reg.entries|;
    bound := |km.items| + |km3d.items|;
  }
}
