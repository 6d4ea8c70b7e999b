/**
 * `scrape_item_details`: the record of one decor item, built from the fact
 * blocks of its detail page. Each non-empty block is sorted by the first
 * rule of a fixed chain that it meets; the rule tags an acquisition source
 * (at most once per kind) and fills the fields it owns. The materials are
 * resolved afterwards.
 */
module ItemDetails {
  import opened Wrappers
  import opened Text
  import opened Seqs
  import opened Dom
  import opened MapAssets
  import opened Vendors
  import opened Materials

  /** The acquisition sources an item can be tagged with. */
  datatype Source = VendorSource | AchievementSource | QuestSource | CraftingSource | DropSource | TreasureSource | EncounterSource
  {
    /** The name written into the database. */
    function Name(): string
    {
      match this
      case VendorSource => "Vendor"
      case AchievementSource => "Achievement"
      case QuestSource => "Quest"
      case CraftingSource => "Crafting"
      case DropSource => "Drop"
      case TreasureSource => "Treasure"
      case EncounterSource => "Encounter"
    }
  }

  datatype Item = Item(
    id: nat,
    name: string,
    category: Option<string>,
    subcategory: Option<string>,
    budgetCost: Option<nat>,
    sources: seq<Source>,
    vendors: seq<Vendor>,
    materials: seq<Material>,
    achievement: Option<string>,
    quest: Option<string>,
    profession: Option<string>)

  /** The record an item starts from, and the one returned when its page
      does not load. */
  function Blank(id: nat): Item
  {
    Item(id, "", None, None, None, [], [], [], None, None, None)
  }

  const Professions: seq<string> :=
    ["Alchemy", "Blacksmithing", "Cooking", "Enchanting", "Engineering", "Inscription", "Jewelcrafting", "Leatherworking", "Tailoring"]

  // ---------------------------------------------------------------------
  // Sorting a block

  /** The rule a block falls under: the branches of the source's chain. */
  datatype Rule = VendorRule | AchievementRule | QuestRule | CraftingRule | DropRule | TreasureRule | EncounterRule
                | CategoryRule | SubcategoryRule | BudgetRule | NoRule

  predicate NamesProfession(text: string)
  {
    exists k :: 0 <= k < |Professions| && Contains(text, Professions[k])
  }

  /** The texts that put a block under a source rule other than the three
      whose test is a prefix. */
  predicate MentionsSourceKeyword(text: string)
  {
    || Contains(text, "Profession:") || NamesProfession(text)
    || Contains(text, "Drop:") || Contains(text, "Dropped by")
    || Contains(text, "Treasure:") || Contains(text, "Encounter:")
  }

  function Classify(text: string): Rule
  {
    if IsPrefix("Vendor:", text) then VendorRule
    else if IsPrefix("Achievement:", text) then AchievementRule
    else if IsPrefix("Quest:", text) then QuestRule
    else if Contains(text, "Profession:") || NamesProfession(text) then CraftingRule
    else if Contains(text, "Drop:") || Contains(text, "Dropped by") then DropRule
    else if Contains(text, "Treasure:") then TreasureRule
    else if Contains(text, "Encounter:") then EncounterRule
    else if IsPrefix("Category:", text) then CategoryRule
    else if IsPrefix("Subcategory:", text) then SubcategoryRule
    else if IsPrefix("Budget Cost:", text) then BudgetRule
    else NoRule
  }

  /** The source a rule tags, if it tags one. */
  function SourceOf(rule: Rule): Option<Source>
  {
    match rule
    case VendorRule => Some(VendorSource)
    case AchievementRule => Some(AchievementSource)
    case QuestRule => Some(QuestSource)
    case CraftingRule => Some(CraftingSource)
    case DropRule => Some(DropSource)
    case TreasureRule => Some(TreasureSource)
    case EncounterRule => Some(EncounterSource)
    case _ => None
  }

  lemma NotPrefixWhenHeadsDiffer(p: string, text: string)
    requires p != [] && text != [] && text[0] != p[0]
    ensures !IsPrefix(p, text)
  {
    if |p| <= |text| {
      assert text[..|p|][0] != p[0];
    }
  }

  /** The field rules come last: a block starting with `Category:` sets the
      category exactly when its text mentions none of the source keywords
      (a profession's name among them). */
  lemma CategoryIsShadowed(text: string)
    requires IsPrefix("Category:", text)
    ensures Classify(text) == CategoryRule <==> !MentionsSourceKeyword(text)
    ensures MentionsSourceKeyword(text) ==> SourceOf(Classify(text)).Some?
    ensures Classify(text) ==
      if Contains(text, "Profession:") || NamesProfession(text) then CraftingRule
      else if Contains(text, "Drop:") || Contains(text, "Dropped by") then DropRule
      else if Contains(text, "Treasure:") then TreasureRule
      else if Contains(text, "Encounter:") then EncounterRule
      else CategoryRule
  {
    NoPrefixRule(text, 'C');
  }

  /** A text that starts with `p` starts with `p`'s first character. */
  lemma HeadOfPrefix(p: string, text: string)
    requires p != [] && IsPrefix(p, text)
    ensures text != [] && text[0] == p[0]
  {
    assert text[..|p|][0] == text[0];
  }

  /** A text whose first character is none of `V`, `A` and `Q` falls under
      none of the three rules whose test is a prefix. */
  lemma NoPrefixRule(text: string, head: char)
    requires text != [] && text[0] == head && head != 'V' && head != 'A' && head != 'Q'
    ensures !IsPrefix("Vendor:", text) && !IsPrefix("Achievement:", text) && !IsPrefix("Quest:", text)
  {
    NotPrefixWhenHeadsDiffer("Vendor:", text);
    NotPrefixWhenHeadsDiffer("Achievement:", text);
    NotPrefixWhenHeadsDiffer("Quest:", text);
  }

  /** A block tags the vendor source exactly when it starts with `Vendor:`. */
  lemma VendorRuleIffPrefix(b: FactBlock)
    ensures BlockSource(b) == Some(VendorSource) <==> b.text != [] && IsPrefix("Vendor:", b.text)
  {
  }

  /** The first profession of the list, in list order, that the text names. */
  function FirstProfession(text: string): (r: Option<string>)
    ensures r.None? <==> !NamesProfession(text)
    ensures r.Some? ==> exists k :: 0 <= k < |Professions| && r.value == Professions[k] && Contains(text, Professions[k])
                                    && forall j :: 0 <= j < k ==> !Contains(text, Professions[j])
  {
    FirstNamedFrom(text, Professions, 0)
  }

  /** The first of `names` from index `k` on that the text contains. */
  function FirstNamedFrom(text: string, names: seq<string>, k: nat): (r: Option<string>)
    requires k <= |names|
    ensures r.None? <==> forall j :: k <= j < |names| ==> !Contains(text, names[j])
    ensures r.Some? ==> exists i :: k <= i < |names| && r.value == names[i] && Contains(text, names[i])
                                    && forall j :: k <= j < i ==> !Contains(text, names[j])
    decreases |names| - k
  {
    if k == |names| then None
    else if Contains(text, names[k]) then Some(names[k])
    else FirstNamedFrom(text, names, k + 1)
  }

  /** `div.find('a', href=re.compile(marker))`: the first link of the block
      whose target contains `marker`. */
  function LinkTo(anchors: seq<Anchor>, marker: string): (r: Option<Anchor>)
    ensures r.None? <==> forall k :: 0 <= k < |anchors| ==> !(anchors[k].href.Some? && Contains(anchors[k].href.value, marker))
    ensures r.Some? ==> exists k :: 0 <= k < |anchors| && anchors[k] == r.value
                                    && r.value.href.Some? && Contains(r.value.href.value, marker)
                                    && forall j :: 0 <= j < k ==> !(anchors[j].href.Some? && Contains(anchors[j].href.value, marker))
  {
    if anchors == [] then None
    else if anchors[0].href.Some? && Contains(anchors[0].href.value, marker) then Some(anchors[0])
    else
      var r := LinkTo(anchors[1..], marker);
      assert forall k :: 1 <= k < |anchors| ==> anchors[k] == anchors[1..][k - 1];
      r
  }

  /** `if "X" not in sources: sources.append("X")`. */
  function Tag(sources: seq<Source>, s: Source): seq<Source>
  {
    if s in sources then sources else sources + [s]
  }

  lemma TagMembers(sources: seq<Source>, s: Source)
    ensures forall x :: x in Tag(sources, s) <==> x in sources || x == s
  {
  }

  /** The effect of one non-empty block on the record, for every rule but
      the vendor rule (whose records come from the vendor parser). */
  function ApplyRule(item: Item, rule: Rule, b: FactBlock): Item
  {
    match rule
    case AchievementRule =>
      var link := LinkTo(b.anchors, "/achievements/");
      item.(sources := Tag(item.sources, AchievementSource),
            achievement := if link.Some? then Some(link.value.text) else item.achievement)
    case QuestRule =>
      var link := LinkTo(b.anchors, "/quests/");
      item.(sources := Tag(item.sources, QuestSource),
            quest := if link.Some? then Some(link.value.text) else item.quest)
    case CraftingRule =>
      var prof := FirstProfession(b.text);
      item.(sources := Tag(item.sources, CraftingSource),
            profession := if prof.Some? then prof else item.profession)
    case DropRule => item.(sources := Tag(item.sources, DropSource))
    case TreasureRule => item.(sources := Tag(item.sources, TreasureSource))
    case EncounterRule => item.(sources := Tag(item.sources, EncounterSource))
    case CategoryRule => if b.anchors == [] then item else item.(category := Some(b.anchors[0].text))
    case SubcategoryRule => if b.anchors == [] then item else item.(subcategory := Some(b.anchors[0].text))
    case BudgetRule =>
      var n := FirstNumber(b.text);
      if n.Some? then item.(budgetCost := n) else item
    case _ => item
  }

  // ---------------------------------------------------------------------
  // The whole page

  /** The record so far, and the texture store the vendor parser leaves. */
  datatype Scan = Scan(item: Item, files: set<string>, fetches: nat)

  function ScanBlock(s: Scan, b: FactBlock, fetchOk: string -> bool, parseFloat: string -> Option<Coord>): Scan
  {
    if b.text == [] then s
    else
      var rule := Classify(b.text);
      if rule == VendorRule then
        var r := ParseVendors(Some(b.anchors), s.files, fetchOk, parseFloat);
        Scan(s.item.(sources := Tag(s.item.sources, VendorSource), vendors := s.item.vendors + r.candidates),
             r.files, s.fetches + r.fetches)
      else Scan(ApplyRule(s.item, rule, b), s.files, s.fetches)
  }

  function ScanBlocks(blocks: seq<FactBlock>, s: Scan, fetchOk: string -> bool, parseFloat: string -> Option<Coord>): Scan
  {
    if blocks == [] then s
    else ScanBlock(ScanBlocks(blocks[..|blocks| - 1], s, fetchOk, parseFloat), blocks[|blocks| - 1], fetchOk, parseFloat)
  }

  /** The record `scrape_item_details` returns, and the texture store it
      leaves; `page` is `None` when the page's heading never appeared. */
  function ItemDetails(itemId: nat, page: Option<ItemPage>, files: set<string>, fetchOk: string -> bool, parseFloat: string -> Option<Coord>): Scan
  {
    if page.None? then Scan(Blank(itemId), files, 0)
    else
      var p := page.value;
      var s := ScanBlocks(p.blocks, Scan(Blank(itemId).(name := p.title.GetOr("")), files, 0), fetchOk, parseFloat);
      Scan(s.item.(materials := PageMaterials(p, CraftingSource in s.item.sources)), s.files, s.fetches)
  }

  /** `scrape_item_details(driver, item_id, item_url)` once the page is in
      hand: the block loop, then the materials. */
  method ScrapeItemDetails(itemId: nat, page: Option<ItemPage>, store: AssetStore, fetchOk: string -> bool, parseFloat: string -> Option<Coord>)
    returns (item: Item)
    modifies store
    ensures var r := ItemDetails(itemId, page, old(store.files), fetchOk, parseFloat);
            item == r.item && store.files == r.files && store.fetches == old(store.fetches) + r.fetches
  {
    item := Blank(itemId);
    if page.None? {
      return;
    }
    var p := page.value;
    if p.title.Some? {
      item := item.(name := p.title.value);
    }
    ghost var s0 := Scan(item, store.files, 0);
    assert s0 == Scan(Blank(itemId).(name := p.title.GetOr("")), old(store.files), 0);
    ghost var fetches0 := store.fetches;
    var i := 0;
    while i < |p.blocks|
      invariant 0 <= i <= |p.blocks|
      invariant var s := ScanBlocks(p.blocks[..i], s0, fetchOk, parseFloat);
                item == s.item && store.files == s.files && store.fetches == fetches0 + s.fetches
    {
      ScanBlocksStep(p.blocks, i, s0, fetchOk, parseFloat);
      item := ScrapeBlock(item, p.blocks[i], store, fetchOk, parseFloat, ScanBlocks(p.blocks[..i], s0, fetchOk, parseFloat));
      i := i + 1;
    }
    assert p.blocks[..|p.blocks|] == p.blocks;
    ghost var s := ScanBlocks(p.blocks, s0, fetchOk, parseFloat);
    assert item == s.item && store.files == s.files;
    var materials := ResolveMaterials(p, CraftingSource in item.sources);
    item := item.(materials := materials);
  }

  /** The body of the block loop: classify one block and apply its rule;
      a Vendor block runs the vendor parser against the store. */
  method ScrapeBlock(item: Item, b: FactBlock, store: AssetStore, fetchOk: string -> bool, parseFloat: string -> Option<Coord>, ghost s: Scan)
    returns (item': Item)
    requires s.item == item && s.files == store.files
    modifies store
    ensures var s' := ScanBlock(s, b, fetchOk, parseFloat);
            item' == s'.item && store.files == s'.files && store.fetches + s.fetches == old(store.fetches) + s'.fetches
  {
    item' := item;
    if b.text != [] {
      var rule := Classify(b.text);
      if rule == VendorRule {
        item' := item'.(sources := Tag(item'.sources, VendorSource));
        var found := ParseVendorDiv(Some(b.anchors), store, fetchOk, parseFloat);
        item' := item'.(vendors := item'.vendors + found);
      } else {
        item' := ApplyRule(item', rule, b);
      }
    }
  }

  // ---------------------------------------------------------------------
  // What one block sets

  /** A non-empty block outside the vendor rule only applies its rule to
      the record. */
  lemma ScanBlockByRule(s: Scan, b: FactBlock, fetchOk: string -> bool, parseFloat: string -> Option<Coord>)
    requires b.text != [] && Classify(b.text) != VendorRule
    ensures ScanBlock(s, b, fetchOk, parseFloat) == Scan(ApplyRule(s.item, Classify(b.text), b), s.files, s.fetches)
  {
  }

  /** An `Achievement:` block tags the source and records the text of its
      first link to an achievement, if it has one; nothing else changes. */
  lemma AchievementCaptured(s: Scan, b: FactBlock, fetchOk: string -> bool, parseFloat: string -> Option<Coord>)
    requires IsPrefix("Achievement:", b.text)
    ensures var link := LinkTo(b.anchors, "/achievements/");
      ScanBlock(s, b, fetchOk, parseFloat) ==
        Scan(s.item.(sources := Tag(s.item.sources, AchievementSource),
                     achievement := if link.Some? then Some(link.value.text) else s.item.achievement),
             s.files, s.fetches)
  {
    HeadOfPrefix("Achievement:", b.text);
    NotPrefixWhenHeadsDiffer("Vendor:", b.text);
    ScanBlockByRule(s, b, fetchOk, parseFloat);
  }

  /** A `Quest:` block tags the source and records the text of its first
      link to a quest, if it has one; nothing else changes. */
  lemma QuestCaptured(s: Scan, b: FactBlock, fetchOk: string -> bool, parseFloat: string -> Option<Coord>)
    requires IsPrefix("Quest:", b.text)
    ensures var link := LinkTo(b.anchors, "/quests/");
      ScanBlock(s, b, fetchOk, parseFloat) ==
        Scan(s.item.(sources := Tag(s.item.sources, QuestSource),
                     quest := if link.Some? then Some(link.value.text) else s.item.quest),
             s.files, s.fetches)
  {
    HeadOfPrefix("Quest:", b.text);
    NotPrefixWhenHeadsDiffer("Vendor:", b.text);
    NotPrefixWhenHeadsDiffer("Achievement:", b.text);
    ScanBlockByRule(s, b, fetchOk, parseFloat);
  }

  /** A block that mentions a profession and misses the three prefix rules
      tags the Crafting source and records the first listed profession it
      names, if any; nothing else changes. */
  lemma ProfessionCaptured(s: Scan, b: FactBlock, fetchOk: string -> bool, parseFloat: string -> Option<Coord>)
    requires !IsPrefix("Vendor:", b.text) && !IsPrefix("Achievement:", b.text) && !IsPrefix("Quest:", b.text)
    requires Contains(b.text, "Profession:") || NamesProfession(b.text)
    ensures var prof := FirstProfession(b.text);
      ScanBlock(s, b, fetchOk, parseFloat) ==
        Scan(s.item.(sources := Tag(s.item.sources, CraftingSource),
                     profession := if prof.Some? then prof else s.item.profession),
             s.files, s.fetches)
  {
    ScanBlockByRule(s, b, fetchOk, parseFloat);
  }

  /** A `Category:` block that mentions no source keyword sets the category
      to the text of its first link, if it has one; nothing else changes. */
  lemma CategoryCaptured(s: Scan, b: FactBlock, fetchOk: string -> bool, parseFloat: string -> Option<Coord>)
    requires IsPrefix("Category:", b.text) && !MentionsSourceKeyword(b.text)
    ensures ScanBlock(s, b, fetchOk, parseFloat) ==
      Scan(s.item.(category := if b.anchors != [] then Some(b.anchors[0].text) else s.item.category), s.files, s.fetches)
  {
    HeadOfPrefix("Category:", b.text);
    CategoryIsShadowed(b.text);
    ScanBlockByRule(s, b, fetchOk, parseFloat);
  }

  /** A `Subcategory:` block that mentions no source keyword sets the
      subcategory to the text of its first link, if it has one; nothing
      else changes. */
  lemma SubcategoryCaptured(s: Scan, b: FactBlock, fetchOk: string -> bool, parseFloat: string -> Option<Coord>)
    requires IsPrefix("Subcategory:", b.text) && !MentionsSourceKeyword(b.text)
    ensures ScanBlock(s, b, fetchOk, parseFloat) ==
      Scan(s.item.(subcategory := if b.anchors != [] then Some(b.anchors[0].text) else s.item.subcategory), s.files, s.fetches)
  {
    HeadOfPrefix("Subcategory:", b.text);
    NoPrefixRule(b.text, 'S');
    NotPrefixWhenHeadsDiffer("Category:", b.text);
    ScanBlockByRule(s, b, fetchOk, parseFloat);
  }

  /** A `Budget Cost:` block that mentions no source keyword sets the budget
      to the value of the first digit run of its text, if it has one;
      nothing else changes. */
  lemma BudgetCaptured(s: Scan, b: FactBlock, fetchOk: string -> bool, parseFloat: string -> Option<Coord>)
    requires IsPrefix("Budget Cost:", b.text) && !MentionsSourceKeyword(b.text)
    ensures var n := FirstNumber(b.text);
      ScanBlock(s, b, fetchOk, parseFloat) ==
        Scan(s.item.(budgetCost := if n.Some? then n else s.item.budgetCost), s.files, s.fetches)
  {
    HeadOfPrefix("Budget Cost:", b.text);
    NoPrefixRule(b.text, 'B');
    NotPrefixWhenHeadsDiffer("Category:", b.text);
    NotPrefixWhenHeadsDiffer("Subcategory:", b.text);
    ScanBlockByRule(s, b, fetchOk, parseFloat);
  }

  lemma ScanBlocksStep(blocks: seq<FactBlock>, i: nat, s: Scan, fetchOk: string -> bool, parseFloat: string -> Option<Coord>)
    requires i < |blocks|
    ensures ScanBlocks(blocks[..i + 1], s, fetchOk, parseFloat) ==
      ScanBlock(ScanBlocks(blocks[..i], s, fetchOk, parseFloat), blocks[i], fetchOk, parseFloat)
  {
    assert blocks[..i + 1][..i] == blocks[..i];
  }

  // ---------------------------------------------------------------------
  // What the record satisfies

  /** The source a block tags: that of its rule, if its text is not empty. */
  function BlockSource(b: FactBlock): Option<Source>
  {
    if b.text == [] then None else SourceOf(Classify(b.text))
  }

  /** One block changes the sources only by tagging its own. */
  lemma ScanBlockSources(s: Scan, b: FactBlock, fetchOk: string -> bool, parseFloat: string -> Option<Coord>)
    ensures ScanBlock(s, b, fetchOk, parseFloat).item.sources ==
      if BlockSource(b).Some? then Tag(s.item.sources, BlockSource(b).value) else s.item.sources
  {
  }

  /** The sources the blocks trigger, one per block that tags one, in block
      order. */
  function Triggered(blocks: seq<FactBlock>): seq<Source>
  {
    Present(blocks, BlockSource)
  }

  lemma TriggeredMembers(blocks: seq<FactBlock>, src: Source)
    ensures src in Triggered(blocks) <==> exists k :: 0 <= k < |blocks| && BlockSource(blocks[k]) == Some(src)
  {
    PresentMembers(blocks, BlockSource, src);
  }

  /** Scanning leaves the sources as the triggered ones, each once, in the
      order they were first triggered. */
  lemma {:induction false} ScanSources(blocks: seq<FactBlock>, s: Scan, fetchOk: string -> bool, parseFloat: string -> Option<Coord>)
    requires s.item.sources == []
    ensures ScanBlocks(blocks, s, fetchOk, parseFloat).item.sources == Dedup(Triggered(blocks))
  {
    if blocks != [] {
      var init, b := blocks[..|blocks| - 1], blocks[|blocks| - 1];
      ScanSources(init, s, fetchOk, parseFloat);
      ScanBlockSources(ScanBlocks(init, s, fetchOk, parseFloat), b, fetchOk, parseFloat);
      if BlockSource(b).Some? {
        assert Triggered(blocks) == Triggered(init) + [BlockSource(b).value];
        assert (Triggered(init) + [BlockSource(b).value])[..|Triggered(init)|] == Triggered(init);
      } else {
        assert Triggered(blocks) == Triggered(init);
      }
    }
  }

  /** Each source is listed at most once, in the order it was first met,
      and exactly the sources some non-empty block's rule tags are listed. */
  lemma SourcesSpec(itemId: nat, page: ItemPage, files: set<string>, fetchOk: string -> bool, parseFloat: string -> Option<Coord>)
    ensures var srcs := ItemDetails(itemId, Some(page), files, fetchOk, parseFloat).item.sources;
      && srcs == Dedup(Triggered(page.blocks))
      && Distinct(srcs)
      && forall src :: src in srcs <==> exists k :: 0 <= k < |page.blocks| && BlockSource(page.blocks[k]) == Some(src)
  {
    ScanSources(page.blocks, Scan(Blank(itemId).(name := page.title.GetOr("")), files, 0), fetchOk, parseFloat);
    DedupSpec(Triggered(page.blocks));
    forall src {
      TriggeredMembers(page.blocks, src);
    }
  }

  /** An item is tagged as sold by a vendor exactly when one of its blocks
      starts with `Vendor:`. */
  lemma VendorTaggedIff(itemId: nat, page: ItemPage, files: set<string>, fetchOk: string -> bool, parseFloat: string -> Option<Coord>)
    ensures VendorSource in ItemDetails(itemId, Some(page), files, fetchOk, parseFloat).item.sources <==>
      exists k :: 0 <= k < |page.blocks| && page.blocks[k].text != [] && IsPrefix("Vendor:", page.blocks[k].text)
  {
    SourcesSpec(itemId, page, files, fetchOk, parseFloat);
    forall k | 0 <= k < |page.blocks| {
      VendorRuleIffPrefix(page.blocks[k]);
    }
  }

  /** What the block loop keeps true of the record: vendors only under a
      Vendor tag, every vendor named, and a profession from the list only
      under a Crafting tag. */
  predicate ScanSound(it: Item)
  {
    && (it.vendors != [] ==> VendorSource in it.sources)
    && (forall v :: v in it.vendors ==> v.name != [])
    && (it.profession.Some? ==> it.profession.value in Professions)
    && (it.profession.Some? ==> CraftingSource in it.sources)
  }

  lemma ScanBlockSound(t: Scan, b: FactBlock, fetchOk: string -> bool, parseFloat: string -> Option<Coord>)
    requires ScanSound(t.item)
    ensures ScanSound(ScanBlock(t, b, fetchOk, parseFloat).item)
  {
    if b.text != [] {
      var rule := Classify(b.text);
      if rule == VendorRule {
        NoDuplicateVendors(Some(b.anchors), t.files, fetchOk, parseFloat);
        var found := ParseVendors(Some(b.anchors), t.files, fetchOk, parseFloat).candidates;
        var it := t.item.(sources := Tag(t.item.sources, VendorSource), vendors := t.item.vendors + found);
        TagMembers(t.item.sources, VendorSource);
        assert forall v :: v in it.vendors ==> v in t.item.vendors || v in found;
        assert ScanSound(it);
      } else {
        ApplyRuleSound(t.item, rule, b);
      }
    }
  }

  lemma ApplyRuleSound(item: Item, rule: Rule, b: FactBlock)
    requires ScanSound(item)
    ensures ScanSound(ApplyRule(item, rule, b))
  {
  }

  lemma {:induction false} ScanFields(blocks: seq<FactBlock>, s: Scan, fetchOk: string -> bool, parseFloat: string -> Option<Coord>)
    requires s.item.vendors == [] && s.item.profession.None?
    ensures ScanSound(ScanBlocks(blocks, s, fetchOk, parseFloat).item)
  {
    if blocks != [] {
      var init := blocks[..|blocks| - 1];
      ScanFields(init, s, fetchOk, parseFloat);
      ScanBlockSound(ScanBlocks(init, s, fetchOk, parseFloat), blocks[|blocks| - 1], fetchOk, parseFloat);
    }
  }

  /** A page that never loads yields the blank record and touches no
      texture; a loaded one keeps its id and heading, names every vendor,
      and records a profession only for a crafted item. */
  lemma ItemDetailsSpec(itemId: nat, page: Option<ItemPage>, files: set<string>, fetchOk: string -> bool, parseFloat: string -> Option<Coord>)
    ensures var r := ItemDetails(itemId, page, files, fetchOk, parseFloat);
      && (page.None? ==> r.item == Blank(itemId) && r.files == files && r.fetches == 0)
      && r.item.id == itemId
      && (page.Some? ==> r.item.name == page.value.title.GetOr(""))
      && (r.item.vendors != [] ==> VendorSource in r.item.sources)
      && (forall v :: v in r.item.vendors ==> v.name != [])
      && (r.item.profession.Some? ==> r.item.profession.value in Professions && CraftingSource in r.item.sources)
      && (page.Some? ==> r.item.materials == PageMaterials(page.value, CraftingSource in r.item.sources))
  {
    if page.Some? {
      var s0 := Scan(Blank(itemId).(name := page.value.title.GetOr("")), files, 0);
      ScanFields(page.value.blocks, s0, fetchOk, parseFloat);
      ScanKeepsIdAndName(page.value.blocks, s0, fetchOk, parseFloat);
    }
  }

  lemma {:induction false} ScanKeepsIdAndName(blocks: seq<FactBlock>, s: Scan, fetchOk: string -> bool, parseFloat: string -> Option<Coord>)
    ensures ScanBlocks(blocks, s, fetchOk, parseFloat).item.id == s.item.id
    ensures ScanBlocks(blocks, s, fetchOk, parseFloat).item.name == s.item.name
  {
    if blocks != [] {
      var init := blocks[..|blocks| - 1];
      ScanKeepsIdAndName(init, s, fetchOk, parseFloat);
      ScanBlockKeepsIdAndName(ScanBlocks(init, s, fetchOk, parseFloat), blocks[|blocks| - 1], fetchOk, parseFloat);
    }
  }

  lemma ScanBlockKeepsIdAndName(t: Scan, b: FactBlock, fetchOk: string -> bool, parseFloat: string -> Option<Coord>)
    ensures ScanBlock(t, b, fetchOk, parseFloat).item.id == t.item.id
    ensures ScanBlock(t, b, fetchOk, parseFloat).item.name == t.item.name
  {
  }
}
