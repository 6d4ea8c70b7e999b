/**
 * The materials part of `scrape_item_details`: where the reagent links of
 * an item page are looked for, how each link becomes a material, and the
 * last-resort scan of the whole page for crafted items.
 */
module Materials {
  import opened Wrappers
  import opened Text
  import opened Seqs
  import opened Dom

  datatype Material = Material(id: nat, name: string, quantity: nat)

  function MaterialId(m: Material): nat { m.id }

  /** The id of an item link: it is found by `href=/items/\d+` and read by
      `re.search(r'/items/(\d+)', href)`, which then always matches. There
      is none exactly when the link has no target or `/items/` is nowhere in
      it followed by a digit. */
  function LinkedItemId(a: Anchor): (r: Option<nat>)
    ensures r.None? <==> a.href.None? || forall i :: 0 <= i <= |a.href.value| ==> !IdMarkedAt("/items/", a.href.value, i)
  {
    if a.href.None? then None
    else
      NumberAfterNone("/items/", a.href.value);
      NumberAfter("/items/", a.href.value)
  }

  /** Otherwise the id is the value of the whole digit run after the first
      `/items/` that is followed by a digit. */
  lemma LinkedItemIdFirst(a: Anchor, i: nat)
    requires a.href.Some? && IdMarkedAt("/items/", a.href.value, i)
    requires forall j :: 0 <= j < i ==> !IdMarkedAt("/items/", a.href.value, j)
    ensures LinkedItemId(a) == Some(DigitsValue(DigitsFrom(a.href.value, i + 7)))
  {
    NumberAfterFirst("/items/", a.href.value, i);
  }

  /** The quantity of a material link: the number the quantity pattern finds
      in the text of its `<li>`, and 1 without an `<li>` or a match. */
  function QuantityOf(a: Anchor): nat
  {
    if a.listItemText.None? then 1
    else
      match FirstGroup(Quantity, a.listItemText.value)
      case None => 1
      case Some(d) => DigitsValue(d)
  }

  // ---------------------------------------------------------------------
  // Where the material links are

  /** `'Reagent' in div.get_text() or 'Material' in div.get_text()`. */
  predicate MentionsReagents(b: FactBlock)
  {
    Contains(b.rawText, "Reagent") || Contains(b.rawText, "Material")
  }

  /** The index of the first block that mentions reagents. */
  function FirstReagentBlock(blocks: seq<FactBlock>): (r: Option<nat>)
    ensures r.None? <==> forall k :: 0 <= k < |blocks| ==> !MentionsReagents(blocks[k])
    ensures r.Some? ==> r.value < |blocks| && MentionsReagents(blocks[r.value])
                        && forall k :: 0 <= k < r.value ==> !MentionsReagents(blocks[k])
  {
    FirstWhere(blocks, MentionsReagents)
  }

  function ReagentAnchors(page: ItemPage): Option<seq<Anchor>>
  {
    match FirstReagentBlock(page.blocks)
    case Some(k) => Some(page.blocks[k].anchors)
    case None => page.reagentList
  }

  // ---------------------------------------------------------------------
  // Links to materials

  /** One candidate material per item link, in order. */
  function LinkedMaterials(links: seq<Anchor>): (ms: seq<Material>)
  {
    if links == [] then []
    else
      var a := links[|links| - 1];
      LinkedMaterials(links[..|links| - 1]) +
        (match LinkedItemId(a) case None => [] case Some(id) => [Material(id, a.text, QuantityOf(a))])
  }

  /** `find_all('a', href=re.compile(r'/items/\d+'))`. */
  function ItemLinks(anchors: seq<Anchor>): (r: seq<Anchor>)
    ensures forall a :: a in r <==> a in anchors && IsItemLink(a)
  {
    Filter(anchors, IsItemLink)
  }

  /** `href=re.compile(r'/items/\d+')`: the link carries an item id. */
  predicate IsItemLink(a: Anchor) { LinkedItemId(a).Some? }

  /** The item links keep document order and multiplicity, so the first
      ten of them are the first ten of the page. */
  lemma ItemLinksInOrder(a: seq<Anchor>, b: seq<Anchor>)
    ensures ItemLinks(a + b) == ItemLinks(a) + ItemLinks(b)
    ensures |b| == 1 ==> ItemLinks(b) == if IsItemLink(b[0]) then b else []
  {
    FilterConcat(a, b, IsItemLink);
    if |b| == 1 {
      assert b == [b[0]];
      FilterSingle(b[0], IsItemLink);
    }
  }

  /** The last-resort candidates: the named links among the given item
      links, each with quantity 1. */
  function FallbackMaterials(links: seq<Anchor>): (ms: seq<Material>)
  {
    if links == [] then []
    else
      var a := links[|links| - 1];
      FallbackMaterials(links[..|links| - 1]) +
        (match LinkedItemId(a) case Some(id) => (if a.text != [] then [Material(id, a.text, 1)] else []) case None => [])
  }

  /** The first ten elements, or all of them: `xs[:10]`. */
  function FirstTen<T>(xs: seq<T>): (r: seq<T>)
    ensures |r| <= 10 && IsPrefixSeq(r, xs)
    ensures |r| == if |xs| <= 10 then |xs| else 10
  {
    if |xs| <= 10 then xs else xs[..10]
  }

  predicate IsPrefixSeq<T(==)>(p: seq<T>, xs: seq<T>) { |p| <= |xs| && xs[..|p|] == p }

  /** The materials of a page: the first material per id among the links of
      the reagent anchors; when there are none and the item is crafted, the
      first named material per id among the first ten item links of the
      whole page. */
  function PageMaterials(page: ItemPage, crafted: bool): seq<Material>
  {
    var found := match ReagentAnchors(page) case None => [] case Some(links) => DedupBy(LinkedMaterials(links), MaterialId);
    if crafted && found == [] then DedupBy(FallbackMaterials(FirstTen(ItemLinks(page.anchors))), MaterialId)
    else found
  }

  /** The materials loop of `scrape_item_details`. */
  method ResolveMaterials(page: ItemPage, crafted: bool) returns (materials: seq<Material>)
    ensures materials == PageMaterials(page, crafted)
  {
    var source := FindReagentAnchors(page);
    materials := [];
    if source.Some? {
      materials := CollectLinked(source.value);
    }
    if crafted && materials == [] {
      var itemLinks := FindItemLinks(page.anchors);
      materials := CollectFallback(FirstTen(itemLinks));
    }
  }

  /** The first block mentioning reagents, else the reagent list. */
  method FindReagentAnchors(page: ItemPage) returns (source: Option<seq<Anchor>>)
    ensures source == ReagentAnchors(page)
  {
    source := None;
    var k := 0;
    while k < |page.blocks|
      invariant 0 <= k <= |page.blocks|
      invariant forall j :: 0 <= j < k ==> !MentionsReagents(page.blocks[j])
    {
      if MentionsReagents(page.blocks[k]) {
        source := Some(page.blocks[k].anchors);
        break;
      }
      k := k + 1;
    }
    if k < |page.blocks| {
      FirstReagentBlockAt(page.blocks, k);
    } else {
      source := page.reagentList;
    }
  }

  /** The first block mentioning reagents is the one the scan stops at. */
  lemma FirstReagentBlockAt(blocks: seq<FactBlock>, k: nat)
    requires k < |blocks| && MentionsReagents(blocks[k])
    requires forall j :: 0 <= j < k ==> !MentionsReagents(blocks[j])
    ensures FirstReagentBlock(blocks) == Some(k)
  {
    var r := FirstReagentBlock(blocks);
    assert r.Some? && !(r.value < k) && !(k < r.value);
  }

  /** One material per item link, skipping ids already listed. */
  method CollectLinked(links: seq<Anchor>) returns (materials: seq<Material>)
    ensures materials == DedupBy(LinkedMaterials(links), MaterialId)
  {
    materials := [];
    var i := 0;
    while i < |links|
      invariant 0 <= i <= |links|
      invariant materials == DedupBy(LinkedMaterials(links[..i]), MaterialId)
    {
      assert links[..i + 1][..i] == links[..i];
      var link := links[i];
      var id := LinkedItemId(link);
      if id.Some? {
        var m := Material(id.value, link.text, QuantityOf(link));
        ghost var before := LinkedMaterials(links[..i]);
        assert LinkedMaterials(links[..i + 1]) == before + [m];
        DedupByAppend(before, m, MaterialId);
        if !HasKey(materials, MaterialId, m.id) {
          materials := materials + [m];
        }
      } else {
        assert LinkedMaterials(links[..i + 1]) == LinkedMaterials(links[..i]);
      }
      i := i + 1;
    }
    assert links[..|links|] == links;
  }

  /** Every item link of the page, in order. */
  method FindItemLinks(anchors: seq<Anchor>) returns (itemLinks: seq<Anchor>)
    ensures itemLinks == ItemLinks(anchors)
  {
    itemLinks := [];
    var j := 0;
    while j < |anchors|
      invariant 0 <= j <= |anchors|
      invariant itemLinks == ItemLinks(anchors[..j])
    {
      assert anchors[..j + 1][..j] == anchors[..j];
      if LinkedItemId(anchors[j]).Some? {
        itemLinks := itemLinks + [anchors[j]];
      }
      j := j + 1;
    }
    assert anchors[..|anchors|] == anchors;
  }

  /** One quantity-1 material per named link, skipping ids already listed. */
  method CollectFallback(links: seq<Anchor>) returns (materials: seq<Material>)
    ensures materials == DedupBy(FallbackMaterials(links), MaterialId)
  {
    materials := [];
    var i := 0;
    while i < |links|
      invariant 0 <= i <= |links|
      invariant materials == DedupBy(FallbackMaterials(links[..i]), MaterialId)
    {
      assert links[..i + 1][..i] == links[..i];
      var link := links[i];
      var id := LinkedItemId(link);
      if id.Some? && link.text != [] {
        var m := Material(id.value, link.text, 1);
        ghost var before := FallbackMaterials(links[..i]);
        assert FallbackMaterials(links[..i + 1]) == before + [m];
        DedupByAppend(before, m, MaterialId);
        if !HasKey(materials, MaterialId, m.id) {
          materials := materials + [m];
        }
      } else {
        assert FallbackMaterials(links[..i + 1]) == FallbackMaterials(links[..i]);
      }
      i := i + 1;
    }
    assert links[..|links|] == links;
  }

  // ---------------------------------------------------------------------
  // What the materials satisfy

  /** The candidates of `LinkedMaterials` come from the links one for one:
      a candidate is an item link's id, text and quantity. */
  lemma {:induction false} LinkedMaterialsFromLinks(links: seq<Anchor>)
    ensures forall m :: m in LinkedMaterials(links) ==>
      exists a :: a in links && LinkedItemId(a) == Some(m.id) && m.name == a.text && m.quantity == QuantityOf(a)
  {
    if links != [] {
      LinkedMaterialsFromLinks(links[..|links| - 1]);
      assert forall a :: a in links[..|links| - 1] ==> a in links;
    }
  }

  /** Fallback candidates are named and have quantity 1. */
  lemma {:induction false} FallbackMaterialsNamed(links: seq<Anchor>)
    ensures forall m :: m in FallbackMaterials(links) ==>
      m.name != [] && m.quantity == 1 && exists a :: a in links && LinkedItemId(a) == Some(m.id) && m.name == a.text
  {
    if links != [] {
      FallbackMaterialsNamed(links[..|links| - 1]);
      assert forall a :: a in links[..|links| - 1] ==> a in links;
    }
  }

  /** Conversely, every item link yields a candidate with its id. */
  lemma {:induction false} LinkedMaterialsComplete(links: seq<Anchor>, a: Anchor, id: nat)
    requires a in links && LinkedItemId(a) == Some(id)
    ensures exists m :: m in LinkedMaterials(links) && m.id == id
  {
    var init := links[..|links| - 1];
    if a == links[|links| - 1] {
      assert Material(id, a.text, QuantityOf(a)) in LinkedMaterials(links);
    } else {
      assert a in init by { assert links == init + [links[|links| - 1]]; }
      LinkedMaterialsComplete(init, a, id);
    }
  }

  /** Every named item link yields a fallback candidate with its id. */
  lemma {:induction false} FallbackMaterialsComplete(links: seq<Anchor>, a: Anchor, id: nat)
    requires a in links && LinkedItemId(a) == Some(id) && a.text != []
    ensures exists m :: m in FallbackMaterials(links) && m.id == id
  {
    var init := links[..|links| - 1];
    if a == links[|links| - 1] {
      assert Material(id, a.text, 1) in FallbackMaterials(links);
    } else {
      assert a in init by { assert links == init + [links[|links| - 1]]; }
      FallbackMaterialsComplete(init, a, id);
    }
  }

  lemma {:induction false} FallbackAtMostOnePerLink(links: seq<Anchor>)
    ensures |FallbackMaterials(links)| <= |links|
  {
    if links != [] {
      FallbackAtMostOnePerLink(links[..|links| - 1]);
    }
  }

  lemma {:induction false} DedupByNoLonger<T, K>(xs: seq<T>, key: T -> K)
    ensures |DedupBy(xs, key)| <= |xs|
  {
    if xs != [] {
      DedupByNoLonger(xs[..|xs| - 1], key);
    }
  }

  /** No two materials of an item share an id; each comes from a link of
      the reagent anchors with its text and quantity, or, only for a crafted
      item with nothing found there, from one of the first ten item links of
      the page, named and with quantity 1, at most ten in all. */
  lemma MaterialsSpec(page: ItemPage, crafted: bool)
    ensures var ms := PageMaterials(page, crafted);
      && (forall i, j :: 0 <= i < j < |ms| ==> ms[i].id != ms[j].id)
      && (var found := match ReagentAnchors(page) case None => [] case Some(links) => DedupBy(LinkedMaterials(links), MaterialId);
          if crafted && found == [] then
            && |ms| <= 10
            && (forall m :: m in ms ==>
                 m.name != [] && m.quantity == 1 &&
                 exists a :: a in FirstTen(ItemLinks(page.anchors)) && LinkedItemId(a) == Some(m.id) && m.name == a.text)
            && (forall a :: a in FirstTen(ItemLinks(page.anchors)) && LinkedItemId(a).Some? && a.text != [] ==>
                 exists m :: m in ms && m.id == LinkedItemId(a).value)
          else
            && ms == found
            && (forall m :: m in ms ==>
                 ReagentAnchors(page).Some? &&
                 exists a :: a in ReagentAnchors(page).value && LinkedItemId(a) == Some(m.id) && m.name == a.text && m.quantity == QuantityOf(a))
            && (ReagentAnchors(page).Some? ==> forall a :: a in ReagentAnchors(page).value && LinkedItemId(a).Some? ==>
                 exists m :: m in ms && m.id == LinkedItemId(a).value))
  {
    var found := match ReagentAnchors(page) case None => [] case Some(links) => DedupBy(LinkedMaterials(links), MaterialId);
    if crafted && found == [] {
      var first := FirstTen(ItemLinks(page.anchors));
      DedupByDistinct(FallbackMaterials(first), MaterialId);
      FallbackMaterialsNamed(first);
      FallbackAtMostOnePerLink(first);
      DedupByNoLonger(FallbackMaterials(first), MaterialId);
      forall a | a in first && LinkedItemId(a).Some? && a.text != []
        ensures exists m :: m in DedupBy(FallbackMaterials(first), MaterialId) && m.id == LinkedItemId(a).value
      {
        FallbackMaterialsComplete(first, a, LinkedItemId(a).value);
        var c :| c in FallbackMaterials(first) && c.id == LinkedItemId(a).value;
        DedupByKeepsKeys(FallbackMaterials(first), MaterialId, c);
      }
    } else if ReagentAnchors(page).Some? {
      var links := ReagentAnchors(page).value;
      DedupByDistinct(LinkedMaterials(links), MaterialId);
      LinkedMaterialsFromLinks(links);
      forall a | a in links && LinkedItemId(a).Some?
        ensures exists m :: m in found && m.id == LinkedItemId(a).value
      {
        LinkedMaterialsComplete(links, a, LinkedItemId(a).value);
        var c :| c in LinkedMaterials(links) && c.id == LinkedItemId(a).value;
        DedupByKeepsKeys(LinkedMaterials(links), MaterialId, c);
      }
    }
  }

  /** Without a list entry, or when no `N x`, `x N` or `(N)` occurs in it,
      the quantity is 1. */
  lemma QuantityOfNone(a: Anchor)
    ensures (a.listItemText.None? || forall i: nat, w: nat, d: string :: !QuantityFormAt(a.listItemText.value, i, w, d))
      ==> QuantityOf(a) == 1
  {
    if a.listItemText.Some? && forall i: nat, w: nat, d: string :: !QuantityFormAt(a.listItemText.value, i, w, d) {
      var li := a.listItemText.value;
      forall j | 0 <= j <= |li| ensures MatchAt(Quantity, li, j).None? {
        var w, d := QuantityFormOfMatch(li, j);
      }
      SearchNone(Quantity, li);
    }
  }

  /** The quantity is the count of the leftmost `N x`, `x N` or `(N)`. */
  lemma QuantityOfFirst(a: Anchor, i: nat, w: nat, d: string)
    requires a.listItemText.Some? && QuantityFormAt(a.listItemText.value, i, w, d)
    requires forall j: nat, v: nat, e: string :: j < i ==> !QuantityFormAt(a.listItemText.value, j, v, e)
    ensures QuantityOf(a) == DigitsValue(d)
  {
    var li := a.listItemText.value;
    assert i <= |li| by {
      if CountThenX(li, i, d, w) { assert OccursAt(d, li, i); }
    }
    QuantityFormMatches(li, i, w, d);
    forall j | 0 <= j < i ensures MatchAt(Quantity, li, j).None? {
      var v, e := QuantityFormOfMatch(li, j);
    }
    SearchFirst(Quantity, li, i);
  }

  /** No quantity form starts at a character that is not a digit, an `x` or
      an opening parenthesis. */
  lemma NoQuantityFormAt(s: string, i: nat)
    requires i < |s| && !IsDigit(s[i]) && !IsX(s[i]) && s[i] != '('
    ensures forall w: nat, d: string :: !QuantityFormAt(s, i, w, d)
  {
    forall w: nat, d: string ensures !QuantityFormAt(s, i, w, d) {
      if d != [] && OccursAt(d, s, i) {
        assert s[i] == s[i..i + |d|][0];
      }
    }
  }

  /** No quantity form starts inside a plain name that starts a text. */
  lemma NoQuantityFormIn(s: string, name: string, tail: string, j: nat)
    requires PlainName(name) && s == name + tail && j < |name|
    ensures forall w: nat, d: string :: !QuantityFormAt(s, j, w, d)
  {
    assert s[j] == name[j];
    NoQuantityFormAt(s, j);
  }

  /** A list entry `<name> (<n>)`, whose name holds no digit, no `x` and
      no opening parenthesis, gives quantity n. */
  lemma ParenthesisedQuantity(a: Anchor, name: string, digits: string)
    requires PlainName(name)
    requires digits != [] && AllDigits(digits)
    requires a.listItemText == Some(name + " (" + digits + ")")
    ensures QuantityOf(a) == DigitsValue(digits)
  {
    var li := name + " (" + digits + ")";
    var at := |name| + 1;
    forall j: nat, v: nat, e: string | j < at ensures !QuantityFormAt(li, j, v, e) {
      if j < |name| {
        NoQuantityFormIn(li, name, " (" + digits + ")", j);
      } else {
        assert li[j] == ' ';
        NoQuantityFormAt(li, j);
      }
    }
    assert li[at] == '(' && li[at + 1..at + 1 + |digits|] == digits && li[at + 1 + |digits|] == ')';
    assert CountInParens(li, at, digits);
    QuantityOfFirst(a, at, 0, digits);
  }

  /** A list entry `<digits> x <rest>` gives the leading count. */
  lemma LeadingCountQuantity(a: Anchor, digits: string, rest: string)
    requires digits != [] && AllDigits(digits)
    requires a.listItemText == Some(digits + " x " + rest)
    ensures QuantityOf(a) == DigitsValue(digits)
  {
    var li := digits + " x " + rest;
    var n := |digits|;
    assert li[0..n] == digits;
    assert li[n] == ' ' && li[n + 1] == 'x';
    assert CountThenX(li, 0, digits, 1);
    QuantityOfFirst(a, 0, 1, digits);
  }

  /** A list entry `<name> x <digits>` gives the trailing count. */
  lemma TrailingCountQuantity(a: Anchor, name: string, digits: string)
    requires PlainName(name)
    requires digits != [] && AllDigits(digits)
    requires a.listItemText == Some(name + " x " + digits)
    ensures QuantityOf(a) == DigitsValue(digits)
  {
    var li := name + " x " + digits;
    var at := |name| + 1;
    forall j: nat, v: nat, e: string | j < at ensures !QuantityFormAt(li, j, v, e) {
      if j < |name| {
        NoQuantityFormIn(li, name, " x " + digits, j);
      } else {
        assert li[j] == ' ';
        NoQuantityFormAt(li, j);
      }
    }
    assert li[at] == 'x' && li[at + 1] == ' ' && li[at + 2..] == digits;
    assert li[at + 2..at + 2 + |digits|] == digits;
    assert XThenCount(li, at, 1, digits);
    QuantityOfFirst(a, at, 1, digits);
  }

  /** The list entry `Linen Cloth (5)` gives quantity 5. */
  lemma LinenClothQuantity(a: Anchor)
    requires a.listItemText == Some("Linen Cloth (5)")
    ensures QuantityOf(a) == 5
  {
    LinenClothParts();
    ParenthesisedQuantity(a, "Linen Cloth", "5");
  }

  /** The pieces of `Linen Cloth (5)`. */
  lemma LinenClothParts()
    ensures PlainName("Linen Cloth")
    ensures "Linen Cloth (5)" == "Linen Cloth" + " (" + "5" + ")"
    ensures AllDigits("5") && DigitsValue("5") == 5
  {
    assert DigitsValue("5") == DigitsValue("") * 10 + DigitValue('5');
  }

  /** A name without digits, `x`/`X` or opening parentheses, so that no
      quantity pattern can start inside it. */
  predicate PlainName(name: string)
  {
    forall k :: 0 <= k < |name| ==> !IsDigit(name[k]) && !IsX(name[k]) && name[k] != '('
  }
}
