/**
 * `generate_lua_database`: the Lua source of the addon's item database.
 * Items are written in ascending id order with their optional fields
 * omitted when falsy, followed by the set of every material id, also in
 * ascending order.
 */
module LuaDatabase {
  import opened Wrappers
  import opened Text
  import opened Seqs
  import opened LuaEscape
  import opened Dom
  import opened Vendors
  import opened Materials
  import opened ItemDetails

  // ---------------------------------------------------------------------
  // Ascending order

  lemma {:induction false} MinExists(s: set<nat>)
    requires s != {}
    ensures exists m :: m in s && forall y :: y in s ==> m <= y
    decreases s
  {
    var x :| x in s;
    var smaller := set y | y in s && y < x;
    if smaller == {} {
      assert forall y :: y in s ==> x <= y by {
        forall y | y in s ensures x <= y {
          assert y < x ==> y in smaller;
        }
      }
    } else {
      assert x !in smaller;
      MinExists(smaller);
      var m :| m in smaller && forall y :: y in smaller ==> m <= y;
      forall y | y in s ensures m <= y {
        if y < x {
          assert y in smaller;
        }
      }
    }
  }

  function SetMin(s: set<nat>): (m: nat)
    requires s != {}
    ensures m in s && forall y :: y in s ==> m <= y
  {
    MinExists(s);
    var m :| m in s && forall y :: y in s ==> m <= y;
    m
  }

  /** Python's `sorted(s)` for a set of integers: its elements, each once,
      in strictly ascending order. */
  function Sorted(s: set<nat>): (r: seq<nat>)
    ensures forall i, j :: 0 <= i < j < |r| ==> r[i] < r[j]
    ensures forall x :: x in r <==> x in s
    ensures |r| == |s|
    decreases |s|
  {
    if s == {} then []
    else
      var m := SetMin(s);
      var rest := Sorted(s - {m});
      assert forall x :: x in rest ==> m < x;
      [m] + rest
  }

  // ---------------------------------------------------------------------
  // The text

  const Header :=
    "-- Housing Item Database\n-- Auto-generated by scraper_final.py\n\n" +
    "HousingItemTrackerDB = {\n    version = 2,\n    items = {\n        decorItems = {\n"
  const MaterialsOpen := "        },\n        materials = {\n"
  const Footer := "        },\n    },\n}\n"

  const I12 := "            "
  const I16 := I12 + "    "
  const I20 := I16 + "    "
  const I24 := I20 + "    "

  /** The parts, one after the other. */
  function Join(parts: seq<string>): string
  {
    if parts == [] then [] else Join(parts[..|parts| - 1]) + parts[|parts| - 1]
  }

  /** A Lua string literal holding `s`. */
  function Quoted(s: string): string { "\"" + EscapeLuaString(s) + "\"" }

  /** One `key = value,` line. */
  function Field(indent: string, key: string, value: string): string { indent + key + " = " + value + ",\n" }

  /** Python truthiness of an optional string. */
  predicate Truthy(s: Option<string>) { s.Some? && s.value != [] }

  /** A string field, written only when truthy. */
  function TextField(indent: string, key: string, s: Option<string>): string
  {
    if Truthy(s) then Field(indent, key, Quoted(s.value)) else []
  }

  /** A number field, written only when truthy (present and not zero). */
  function NumberField(indent: string, key: string, n: Option<nat>): string
  {
    if PriceTruthy(n) then Field(indent, key, NatToDecimal(n.value)) else []
  }

  /** A coordinate, written whenever it is not `None`, zero included. */
  function CoordField(key: string, c: Option<Coord>): string
  {
    if c.Some? then Field(I24, key, c.value.repr) else []
  }

  function VendorEntry(v: Vendor): string
  {
    Join(VendorParts(v))
  }

  /** The lines of a vendor entry, in the order they are written. */
  function VendorParts(v: Vendor): seq<string>
  {
    [
      I20 + "{\n",
      Field(I24, "name", Quoted(v.name)),
      TextField(I24, "location", v.location),
      NumberField(I24, "price", v.price),
      TextField(I24, "currency", v.currency),
      TextField(I24, "mapTexture", v.mapTexture),
      CoordField("coordX", v.coordX),
      CoordField("coordY", v.coordY),
      TextField(I24, "waypoint", v.waypoint),
      I20 + "},\n"]
  }

  function MaterialEntry(m: Material): string
  {
    Join([
      I20 + "{\n",
      Field(I24, "id", NatToDecimal(m.id)),
      Field(I24, "name", Quoted(m.name)),
      Field(I24, "quantity", NatToDecimal(m.quantity)),
      I20 + "},\n"])
  }

  function SourceLine(s: Source): string { I20 + Quoted(s.Name()) + ",\n" }

  function SourceLines(ss: seq<Source>): string
  {
    if ss == [] then [] else SourceLines(ss[..|ss| - 1]) + SourceLine(ss[|ss| - 1])
  }

  function VendorEntries(vs: seq<Vendor>): string
  {
    if vs == [] then [] else VendorEntries(vs[..|vs| - 1]) + VendorEntry(vs[|vs| - 1])
  }

  function MaterialEntries(ms: seq<Material>): string
  {
    if ms == [] then [] else MaterialEntries(ms[..|ms| - 1]) + MaterialEntry(ms[|ms| - 1])
  }

  /** A list-valued field, written only when the list is not empty. */
  function ListField(key: string, nonEmpty: bool, body: string): string
  {
    if nonEmpty then I16 + key + " = {\n" + body + I16 + "},\n" else []
  }

  /** The fields of an item other than its lists. */
  function ItemHead(id: nat, item: Item): string
  {
    Join(HeadParts(id, item))
  }

  function HeadParts(id: nat, item: Item): seq<string>
  {
    [
      I12 + "[" + NatToDecimal(id) + "] = {\n",
      Field(I16, "name", Quoted(item.name)),
      NumberField(I16, "decorCost", item.budgetCost),
      TextField(I16, "category", item.category),
      TextField(I16, "subcategory", item.subcategory)]
  }

  function ItemEntry(id: nat, item: Item): string
  {
    Join(ItemParts(id, item))
  }

  /** The parts of an item entry, in the order they are written. */
  function ItemParts(id: nat, item: Item): seq<string>
  {
    [
      ItemHead(id, item),
      ListField("sources", item.sources != [], SourceLines(item.sources)),
      ListField("vendors", item.vendors != [], VendorEntries(item.vendors)),
      TextField(I16, "profession", item.profession),
      TextField(I16, "achievement", item.achievement),
      TextField(I16, "quest", item.quest),
      ListField("materials", item.materials != [], MaterialEntries(item.materials)),
      I12 + "},\n"]
  }

  function ItemEntries(items: map<nat, Item>, ids: seq<nat>): string
    requires forall k :: 0 <= k < |ids| ==> ids[k] in items
  {
    if ids == [] then [] else ItemEntries(items, ids[..|ids| - 1]) + ItemEntry(ids[|ids| - 1], items[ids[|ids| - 1]])
  }

  function MaterialFlag(id: nat): string { I12 + "[" + NatToDecimal(id) + "] = true,\n" }

  function MaterialFlags(ids: seq<nat>): string
  {
    if ids == [] then [] else MaterialFlags(ids[..|ids| - 1]) + MaterialFlag(ids[|ids| - 1])
  }

  /** The ids of a list of materials. */
  function IdsOf(ms: seq<Material>): set<nat>
  {
    if ms == [] then {} else IdsOf(ms[..|ms| - 1]) + {ms[|ms| - 1].id}
  }

  /** The material ids of the items with the given keys. */
  function MaterialIdsOf(items: map<nat, Item>, ids: seq<nat>): set<nat>
    requires forall k :: 0 <= k < |ids| ==> ids[k] in items
  {
    if ids == [] then {} else MaterialIdsOf(items, ids[..|ids| - 1]) + IdsOf(items[ids[|ids| - 1]].materials)
  }

  /** Every material id of every item. */
  function AllMaterialIds(items: map<nat, Item>): set<nat>
  {
    MaterialIdsOf(items, Sorted(items.Keys))
  }

  lemma {:induction false} IdsOfSpec(ms: seq<Material>)
    ensures forall x :: x in IdsOf(ms) <==> exists m :: m in ms && m.id == x
  {
    if ms != [] {
      IdsOfSpec(ms[..|ms| - 1]);
      assert forall m :: m in ms <==> m in ms[..|ms| - 1] || m == ms[|ms| - 1] by {
        assert ms == ms[..|ms| - 1] + [ms[|ms| - 1]];
      }
    }
  }

  lemma {:induction false} MaterialIdsOfSpec(items: map<nat, Item>, ids: seq<nat>)
    requires forall k :: 0 <= k < |ids| ==> ids[k] in items
    ensures forall x :: x in MaterialIdsOf(items, ids) <==>
      exists k, m :: 0 <= k < |ids| && m in items[ids[k]].materials && m.id == x
  {
    if ids != [] {
      var init := ids[..|ids| - 1];
      MaterialIdsOfSpec(items, init);
      IdsOfSpec(items[ids[|ids| - 1]].materials);
      forall x ensures x in MaterialIdsOf(items, ids) <==>
        exists k, m :: 0 <= k < |ids| && m in items[ids[k]].materials && m.id == x
      {
        if exists k, m :: 0 <= k < |ids| && m in items[ids[k]].materials && m.id == x {
          var k, m :| 0 <= k < |ids| && m in items[ids[k]].materials && m.id == x;
          if k < |init| {
            assert init[k] == ids[k];
          }
        }
        if x in MaterialIdsOf(items, init) {
          var k, m :| 0 <= k < |init| && m in items[init[k]].materials && m.id == x;
          assert init[k] == ids[k];
        }
      }
    }
  }

  /** Some item of `items` lists a material with id `x`. */
  predicate HasMaterial(items: map<nat, Item>, x: nat)
  {
    exists k, m :: k in items && m in items[k].materials && m.id == x
  }

  /** The flagged materials are exactly the materials of the items. */
  lemma AllMaterialIdsSpec(items: map<nat, Item>)
    ensures forall x :: x in AllMaterialIds(items) <==> HasMaterial(items, x)
  {
    var ids := Sorted(items.Keys);
    MaterialIdsOfSpec(items, ids);
    forall x | HasMaterial(items, x)
      ensures exists j, m :: 0 <= j < |ids| && m in items[ids[j]].materials && m.id == x
    {
      var k, m :| k in items && m in items[k].materials && m.id == x;
      var j := IndexOf(ids, k);
    }
  }

  /** The closing `materials` table lists every material id of every item,
      each once, in ascending order. */
  lemma MaterialUniverse(items: map<nat, Item>)
    ensures var ms := Sorted(AllMaterialIds(items));
      (forall i, j :: 0 <= i < j < |ms| ==> ms[i] < ms[j]) &&
      (forall x :: x in ms <==> HasMaterial(items, x))
  {
    AllMaterialIdsSpec(items);
  }

  /** `t` occurs somewhere in `s`. */
  predicate Within(t: string, s: string)
  {
    exists i :: 0 <= i <= |s| && OccursAt(t, s, i)
  }

  lemma WithinSelf(t: string)
    ensures Within(t, t)
  {
    assert OccursAt(t, t, 0);
  }

  lemma WithinConcat(t: string, a: string, b: string)
    ensures Within(t, a) ==> Within(t, a + b)
    ensures Within(t, b) ==> Within(t, a + b)
  {
    if Within(t, a) {
      var i :| 0 <= i <= |a| && OccursAt(t, a, i);
      assert (a + b)[i..i + |t|] == a[i..i + |t|];
      assert OccursAt(t, a + b, i);
    }
    if Within(t, b) {
      var i :| 0 <= i <= |b| && OccursAt(t, b, i);
      assert (a + b)[|a| + i..|a| + i + |t|] == b[i..i + |t|];
      assert OccursAt(t, a + b, |a| + i);
    }
  }

  lemma WithinTrans(t: string, u: string, s: string)
    requires Within(t, u) && Within(u, s)
    ensures Within(t, s)
  {
    var i :| 0 <= i <= |u| && OccursAt(t, u, i);
    var j :| 0 <= j <= |s| && OccursAt(u, s, j);
    assert forall k :: 0 <= k < |u| ==> u[k] == s[j + k];
    assert s[j + i..j + i + |t|] == u[i..i + |t|];
    assert OccursAt(t, s, j + i);
  }

  /** Text inside the second or the fourth of five pieces is inside the whole. */
  lemma WithinLayout(t: string, a: string, b: string, c: string, d: string, e: string)
    ensures Within(t, b) ==> Within(t, a + b + c + d + e)
    ensures Within(t, d) ==> Within(t, a + b + c + d + e)
  {
    WithinConcat(t, a, b);
    WithinConcat(t, a + b, c);
    WithinConcat(t, a + b + c, d);
    WithinConcat(t, a + b + c + d, e);
  }

  /** Every part occurs in the joined text. */
  lemma {:induction false} JoinContains(ps: seq<string>, i: nat)
    requires i < |ps|
    ensures Within(ps[i], Join(ps))
  {
    var n := |ps| - 1;
    if i == n {
      WithinSelf(ps[n]);
    } else {
      JoinContains(ps[..n], i);
    }
    WithinConcat(ps[i], Join(ps[..n]), ps[n]);
  }

  /** A text field with the falsy value replaced by `None`. */
  function NoneIfFalsy(s: Option<string>): (r: Option<string>)
    ensures Truthy(r) == Truthy(s) && (r.Some? ==> r == s)
  {
    if Truthy(s) then s else None
  }

  /** A number field with the falsy value replaced by `None`. */
  function NoneIfZero(n: Option<nat>): (r: Option<nat>)
    ensures PriceTruthy(r) == PriceTruthy(n) && (r.Some? ==> r == n)
  {
    if PriceTruthy(n) then n else None
  }

  /** The vendor with every falsy optional field replaced by `None`. */
  function WrittenVendor(v: Vendor): Vendor
  {
    v.(location := NoneIfFalsy(v.location), price := NoneIfZero(v.price),
       currency := NoneIfFalsy(v.currency), mapTexture := NoneIfFalsy(v.mapTexture),
       waypoint := NoneIfFalsy(v.waypoint))
  }

  /** A zero price and empty strings are written like a missing value. */
  lemma FalsyVendorFieldsOmitted(v: Vendor)
    ensures VendorEntry(v) == VendorEntry(WrittenVendor(v))
  {
    assert VendorParts(v) == VendorParts(WrittenVendor(v));
  }

  /** The name is always written, a positive price is written, and so is a
      coordinate whatever its value. */
  lemma VendorFieldsWritten(v: Vendor)
    ensures Within(Field(I24, "name", Quoted(v.name)), VendorEntry(v))
    ensures PriceTruthy(v.price) ==> Within(Field(I24, "price", NatToDecimal(v.price.value)), VendorEntry(v))
    ensures v.coordX.Some? ==> Within(Field(I24, "coordX", v.coordX.value.repr), VendorEntry(v))
    ensures v.coordY.Some? ==> Within(Field(I24, "coordY", v.coordY.value.repr), VendorEntry(v))
  {
    JoinContains(VendorParts(v), 1);
    JoinContains(VendorParts(v), 3);
    JoinContains(VendorParts(v), 6);
    JoinContains(VendorParts(v), 7);
  }

  /** The item with every falsy optional field replaced by `None`. */
  function WrittenItem(item: Item): Item
  {
    item.(category := NoneIfFalsy(item.category), subcategory := NoneIfFalsy(item.subcategory),
          budgetCost := NoneIfZero(item.budgetCost), achievement := NoneIfFalsy(item.achievement),
          quest := NoneIfFalsy(item.quest), profession := NoneIfFalsy(item.profession))
  }

  /** A zero budget and empty strings are written like a missing value. */
  lemma FalsyItemFieldsOmitted(id: nat, item: Item)
    ensures ItemEntry(id, item) == ItemEntry(id, WrittenItem(item))
  {
    assert HeadParts(id, item) == HeadParts(id, WrittenItem(item));
    assert ItemParts(id, item) == ItemParts(id, WrittenItem(item));
  }

  /** The name is always written, and a positive budget is written. */
  lemma ItemFieldsWritten(id: nat, item: Item)
    ensures Within(Field(I16, "name", Quoted(item.name)), ItemEntry(id, item))
    ensures PriceTruthy(item.budgetCost) ==>
      Within(Field(I16, "decorCost", NatToDecimal(item.budgetCost.value)), ItemEntry(id, item))
  {
    JoinContains(HeadParts(id, item), 1);
    JoinContains(HeadParts(id, item), 2);
    JoinContains(ItemParts(id, item), 0);
    WithinTrans(Field(I16, "name", Quoted(item.name)), ItemHead(id, item), ItemEntry(id, item));
    if PriceTruthy(item.budgetCost) {
      WithinTrans(Field(I16, "decorCost", NatToDecimal(item.budgetCost.value)), ItemHead(id, item), ItemEntry(id, item));
    }
  }

  lemma {:induction false} ItemEntriesContain(items: map<nat, Item>, ids: seq<nat>, j: nat)
    requires forall k :: 0 <= k < |ids| ==> ids[k] in items
    requires j < |ids|
    ensures Within(ItemEntry(ids[j], items[ids[j]]), ItemEntries(items, ids))
  {
    var n := |ids| - 1;
    if j == n {
      WithinSelf(ItemEntry(ids[n], items[ids[n]]));
    } else {
      ItemEntriesContain(items, ids[..n], j);
    }
    WithinConcat(ItemEntry(ids[j], items[ids[j]]), ItemEntries(items, ids[..n]), ItemEntry(ids[n], items[ids[n]]));
  }

  lemma {:induction false} MaterialFlagsContain(ids: seq<nat>, j: nat)
    requires j < |ids|
    ensures Within(MaterialFlag(ids[j]), MaterialFlags(ids))
  {
    var n := |ids| - 1;
    if j == n {
      WithinSelf(MaterialFlag(ids[n]));
    } else {
      MaterialFlagsContain(ids[..n], j);
    }
    WithinConcat(MaterialFlag(ids[j]), MaterialFlags(ids[..n]), MaterialFlag(ids[n]));
  }

  /** Every item is written, under its own id. */
  lemma EveryItemWritten(items: map<nat, Item>, k: nat)
    requires k in items
    ensures Within(ItemEntry(k, items[k]), LuaDatabase(items))
  {
    var ks := Sorted(items.Keys);
    var j := IndexOf(ks, k);
    ItemEntriesContain(items, ks, j);
    var t := ItemEntry(k, items[k]);
    WithinLayout(t, Header, ItemEntries(items, ks), MaterialsOpen, MaterialFlags(Sorted(AllMaterialIds(items))), Footer);
  }

  /** Where a material id sits in the sorted universe. */
  lemma FlagIndex(items: map<nat, Item>, x: nat) returns (j: nat)
    requires HasMaterial(items, x)
    ensures j < |Sorted(AllMaterialIds(items))| && Sorted(AllMaterialIds(items))[j] == x
  {
    AllMaterialIdsSpec(items);
    j := IndexOf(Sorted(AllMaterialIds(items)), x);
  }

  /** Every material id of every item is flagged in the closing table. */
  lemma EveryMaterialFlagged(items: map<nat, Item>, x: nat)
    requires HasMaterial(items, x)
    ensures Within(MaterialFlag(x), LuaDatabase(items))
  {
    var ms := Sorted(AllMaterialIds(items));
    var j := FlagIndex(items, x);
    MaterialFlagsContain(ms, j);
    WithinLayout(MaterialFlag(x), Header, ItemEntries(items, Sorted(items.Keys)), MaterialsOpen, MaterialFlags(ms), Footer);
  }

  /** The database text for `items`, keyed by item id. */
  function LuaDatabase(items: map<nat, Item>): string
  {
    Header + ItemEntries(items, Sorted(items.Keys)) + MaterialsOpen + MaterialFlags(Sorted(AllMaterialIds(items))) + Footer
  }

  // ---------------------------------------------------------------------
  // Writing it

  /** `generate_lua_database(items_data)`. */
  method GenerateLuaDatabase(items: map<nat, Item>) returns (lua: string)
    ensures lua == LuaDatabase(items)
  {
    var allMaterials := CollectMaterialIds(items);
    var entries := WriteItems(items, Sorted(items.Keys));
    var flags := WriteFlags(Sorted(allMaterials));
    lua := Header + entries + MaterialsOpen + flags + Footer;
  }

  /** The item entries, in the order of `ids`. */
  method WriteItems(items: map<nat, Item>, ids: seq<nat>) returns (entries: string)
    requires forall k :: 0 <= k < |ids| ==> ids[k] in items
    ensures entries == ItemEntries(items, ids)
  {
    entries := [];
    var i := 0;
    while i < |ids|
      invariant 0 <= i <= |ids|
      invariant entries == ItemEntries(items, ids[..i])
    {
      var entry := WriteItem(ids[i], items[ids[i]]);
      ItemEntriesStep(items, ids, i);
      entries := entries + entry;
      i := i + 1;
    }
    assert ids[..|ids|] == ids;
  }

  lemma ItemEntriesStep(items: map<nat, Item>, ids: seq<nat>, i: nat)
    requires forall k :: 0 <= k < |ids| ==> ids[k] in items
    requires i < |ids|
    ensures ItemEntries(items, ids[..i + 1]) == ItemEntries(items, ids[..i]) + ItemEntry(ids[i], items[ids[i]])
  {
    assert ids[..i + 1][..i] == ids[..i];
  }

  /** The material flags, in the order of `ids`. */
  method WriteFlags(ids: seq<nat>) returns (flags: string)
    ensures flags == MaterialFlags(ids)
  {
    flags := [];
    var j := 0;
    while j < |ids|
      invariant 0 <= j <= |ids|
      invariant flags == MaterialFlags(ids[..j])
    {
      assert ids[..j + 1][..j] == ids[..j];
      flags := flags + MaterialFlag(ids[j]);
      j := j + 1;
    }
    assert ids[..|ids|] == ids;
  }

  /** The loop over the items that gathers the material ids. */
  method CollectMaterialIds(items: map<nat, Item>) returns (ids: set<nat>)
    ensures ids == AllMaterialIds(items)
  {
    ids := GatherIds(items, Sorted(items.Keys));
  }

  /** The material ids of the items with keys `keys`, item by item. */
  method GatherIds(items: map<nat, Item>, keys: seq<nat>) returns (ids: set<nat>)
    requires forall k :: 0 <= k < |keys| ==> keys[k] in items
    ensures ids == MaterialIdsOf(items, keys)
  {
    ids := {};
    var i := 0;
    while i < |keys|
      invariant 0 <= i <= |keys|
      invariant ids == MaterialIdsOf(items, keys[..i])
    {
      MaterialIdsOfStep(items, keys, i);
      ids := AddIds(ids, items[keys[i]].materials);
      i := i + 1;
    }
    assert keys[..|keys|] == keys;
  }

  lemma MaterialIdsOfStep(items: map<nat, Item>, keys: seq<nat>, i: nat)
    requires forall k :: 0 <= k < |keys| ==> keys[k] in items
    requires i < |keys|
    ensures MaterialIdsOf(items, keys[..i + 1]) == MaterialIdsOf(items, keys[..i]) + IdsOf(items[keys[i]].materials)
  {
    assert keys[..i + 1][..i] == keys[..i];
  }

  /** `for mat in item.get("materials", []): all_materials.add(mat["id"])`. */
  method AddIds(ids: set<nat>, ms: seq<Material>) returns (ids': set<nat>)
    ensures ids' == ids + IdsOf(ms)
  {
    ids' := ids;
    var j := 0;
    while j < |ms|
      invariant 0 <= j <= |ms|
      invariant ids' == ids + IdsOf(ms[..j])
    {
      assert ms[..j + 1][..j] == ms[..j];
      ids' := ids' + {ms[j].id};
      j := j + 1;
    }
    assert ms[..|ms|] == ms;
  }

  /** One item entry; each list is written only when it is not empty. */
  method WriteItem(id: nat, item: Item) returns (entry: string)
    ensures entry == ItemEntry(id, item)
  {
    var sources, vendors, materials := [], [], [];
    if item.sources != [] {
      sources := WriteSources(item.sources);
    }
    if item.vendors != [] {
      vendors := WriteVendors(item.vendors);
    }
    if item.materials != [] {
      materials := WriteMaterials(item.materials);
    }
    entry := Join([
      ItemHead(id, item),
      ListField("sources", item.sources != [], sources),
      ListField("vendors", item.vendors != [], vendors),
      TextField(I16, "profession", item.profession),
      TextField(I16, "achievement", item.achievement),
      TextField(I16, "quest", item.quest),
      ListField("materials", item.materials != [], materials),
      I12 + "},\n"]);
  }

  method WriteSources(ss: seq<Source>) returns (out: string)
    ensures out == SourceLines(ss)
  {
    out := [];
    var i := 0;
    while i < |ss|
      invariant 0 <= i <= |ss|
      invariant out == SourceLines(ss[..i])
    {
      assert ss[..i + 1][..i] == ss[..i];
      out := out + SourceLine(ss[i]);
      i := i + 1;
    }
    assert ss[..|ss|] == ss;
  }

  method WriteVendors(vs: seq<Vendor>) returns (out: string)
    ensures out == VendorEntries(vs)
  {
    out := [];
    var i := 0;
    while i < |vs|
      invariant 0 <= i <= |vs|
      invariant out == VendorEntries(vs[..i])
    {
      assert vs[..i + 1][..i] == vs[..i];
      out := out + VendorEntry(vs[i]);
      i := i + 1;
    }
    assert vs[..|vs|] == vs;
  }

  method WriteMaterials(ms: seq<Material>) returns (out: string)
    ensures out == MaterialEntries(ms)
  {
    out := [];
    var i := 0;
    while i < |ms|
      invariant 0 <= i <= |ms|
      invariant out == MaterialEntries(ms[..i])
    {
      assert ms[..i + 1][..i] == ms[..i];
      out := out + MaterialEntry(ms[i]);
      i := i + 1;
    }
    assert ms[..|ms|] == ms;
  }
}
