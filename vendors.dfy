/**
 * `parse_vendor_div`: one vendor record per NPC link of a `Vendor:` fact
 * block, with the fields read from the link's container, and later records
 * with an already-seen (name, location) pair dropped.
 */
module Vendors {
  import opened Wrappers
  import opened Text
  import opened Seqs
  import opened Dom
  import opened MapAssets

  datatype Vendor = Vendor(
    name: string,
    location: Option<string>,
    price: Option<nat>,
    currency: Option<string>,
    mapTexture: Option<string>,
    waypoint: Option<string>,
    coordX: Option<Coord>,
    coordY: Option<Coord>)

  /** The pair two vendors are compared by for duplicates. */
  function Key(v: Vendor): (string, Option<string>) { (v.name, v.location) }

  /** Python truthiness of an optional number or coordinate. */
  predicate PriceTruthy(p: Option<nat>) { p.Some? && p.value != 0 }
  predicate CoordTruthy(c: Option<Coord>) { c.Some? && c.value.IsTruthy() }

  /** `int(re.search(r'(\d+)', t).group(1))`, or `None` without a digit. */
  function FirstNumber(t: string): (r: Option<nat>)
    ensures r.None? <==> forall k :: 0 <= k < |t| ==> !IsDigit(t[k])
    ensures r.Some? ==> exists d :: d != [] && AllDigits(d) && (exists i :: DigitRunAt(t, i, d)) && r.value == DigitsValue(d)
  {
    match FirstDigitRun(t)
    case None => None
    case Some(d) => Some(DigitsValue(d))
  }

  // ---------------------------------------------------------------------
  // The fields of one vendor

  /** The fields read from a container, before the map is downloaded;
      `mapUrl` is the absolute URL of the map image, if there is one. */
  datatype Fields = Fields(
    location: Option<string>,
    price: Option<nat>,
    currency: Option<string>,
    mapUrl: Option<string>,
    waypoint: Option<string>,
    coordX: Option<Coord>,
    coordY: Option<Coord>)

  const NoFields := Fields(None, None, None, None, None, None, None)

  /** The location: the first parenthesised text of the container, stripped. */
  function LocationIn(text: string): Option<string>
  {
    match FirstGroup(Parenthesised, text)
    case None => None
    case Some(g) => Some(Strip(g))
  }

  /** No location exactly when no `(` is followed by at least one other
      character and then a `)`. */
  lemma LocationInNone(text: string)
    ensures LocationIn(text).None? <==> forall i: nat, j: nat :: !ParenGroupAt(text, i, j)
  {
    SearchNone(Parenthesised, text);
    if LocationIn(text).None? {
      forall i: nat, j: nat ensures !ParenGroupAt(text, i, j) {
        if i <= |text| {
          ParenGroupMatches(text, i, j);
        }
      }
    } else {
      var j := ParenGroupOfMatch(text, Search(Parenthesised, text).value.at);
    }
  }

  /** The location is the stripped text inside the leftmost parenthesised
      group, which ends at the first `)` after its `(`. */
  lemma LocationInFirst(text: string, i: nat, j: nat)
    requires ParenGroupAt(text, i, j)
    requires forall k: nat, m: nat :: k < i ==> !ParenGroupAt(text, k, m)
    ensures LocationIn(text) == Some(Strip(text[i + 1..j]))
  {
    ParenGroupMatches(text, i, j);
    forall k | 0 <= k < i ensures MatchAt(Parenthesised, text, k).None? {
      var m := ParenGroupOfMatch(text, k);
    }
    SearchFirst(Parenthesised, text, i);
  }

  /** The price before the gold fallback: the first number in `<strong>`. */
  function StrongPrice(c: Container): Option<nat>
  {
    if c.strongText.None? then None else FirstNumber(c.strongText.value)
  }

  /** The coordinates from the map pin: both attributes must be non-empty;
      `float(x)` failing assigns nothing, `float(y)` failing leaves only x. */
  function PinCoords(pin: Option<Pin>, parseFloat: string -> Option<Coord>): (Option<Coord>, Option<Coord>)
  {
    if pin.Some? && pin.value.dataX.Some? && pin.value.dataX.value != [] && pin.value.dataY.Some? && pin.value.dataY.value != [] then
      match parseFloat(pin.value.dataX.value)
      case None => (None, None)
      case Some(x) => (Some(x), parseFloat(pin.value.dataY.value))
    else (None, None)
  }

  /** The waypoint's two numbers, if the container's text holds one. */
  function WaypointGroups(text: string): (r: Option<(string, string)>)
    ensures r.Some? <==> Search(Waypoint, text).Some?
    ensures r.Some? ==> r.value.0 != [] && r.value.1 != []
  {
    GroupPair(Search(Waypoint, text))
  }

  /** The first two groups of a search result, `(m.group(1), m.group(2))`. */
  function GroupPair(r: Option<Found>): Option<(string, string)>
    requires r.Some? ==> |r.value.groups| >= 2
  {
    match r
    case None => None
    case Some(f) => Some((f.groups[0], f.groups[1]))
  }

  /** The groups of a match found as the two runs of a waypoint form are
      the runs' substrings. */
  lemma GroupPairOfRuns(r: Option<Found>, s: string, i: nat, w1: nat, n1: nat, w2: nat, n2: nat)
    requires var a := i + 4 + w1; var c := a + n1 + w2;
      c + n2 <= |s| && r == Some(Found(i, RunPair(s, (a, n1), (c, n2))))
    ensures var a := i + 4 + w1; var c := a + n1 + w2;
      && GroupPair(r).Some?
      && GroupPair(r).value.0 == s[a..a + n1] && GroupPair(r).value.1 == s[c..c + n2]
  {
  }

  /** No waypoint exactly when `/way`, whitespace, digits and dots,
      whitespace, digits and dots occur nowhere in the text. */
  lemma WaypointGroupsNone(text: string)
    ensures WaypointGroups(text).None? <==>
      forall i: nat, w1: nat, n1: nat, w2: nat, n2: nat :: i <= |text| ==> !WaypointFormAt(text, i, w1, n1, w2, n2)
  {
    SearchNone(Waypoint, text);
    if WaypointGroups(text).None? {
      forall i: nat, w1: nat, n1: nat, w2: nat, n2: nat | i <= |text| ensures !WaypointFormAt(text, i, w1, n1, w2, n2) {
        WaypointMatchAt(text, i);
        WaypointFormMatches(text, i, w1, n1, w2, n2);
      }
    } else {
      var f := Search(Waypoint, text).value;
      MatchIsForm(text, f.at);
    }
  }

  /** The waypoint's numbers are the two runs of digits and dots of the
      leftmost waypoint form. */
  lemma WaypointGroupsFirst(text: string, i: nat, w1: nat, n1: nat, w2: nat, n2: nat)
    requires WaypointFormAt(text, i, w1, n1, w2, n2)
    requires forall j: nat, v1: nat, m1: nat, v2: nat, m2: nat :: j < i ==> !WaypointFormAt(text, j, v1, m1, v2, m2)
    ensures var a := i + 4 + w1; var c := a + n1 + w2;
      && c + n2 <= |text| && WaypointGroups(text).Some?
      && WaypointGroups(text).value.0 == text[a..a + n1] && WaypointGroups(text).value.1 == text[c..c + n2]
  {
    WaypointSearchFirst(text, i, w1, n1, w2, n2);
    GroupPairOfRuns(Search(Waypoint, text), text, i, w1, n1, w2, n2);
  }

  /** A waypoint match at `k` is a waypoint form there. */
  lemma MatchIsForm(text: string, k: nat)
    requires k <= |text| && MatchAt(Waypoint, text, k).Some?
    ensures exists w1, n1, w2, n2 :: WaypointFormAt(text, k, w1, n1, w2, n2)
  {
    WaypointMatchAt(text, k);
    var w1, n1, w2, n2 := WaypointFormOfMatch(text, k);
  }

  /** Back-filling from the waypoint, done only when neither coordinate is
      truthy; `float` failing on x assigns nothing, on y keeps the old y. */
  function Backfill(cx: Option<Coord>, cy: Option<Coord>, g: (string, string), parseFloat: string -> Option<Coord>): (r: (Option<Coord>, Option<Coord>))
    ensures CoordTruthy(cx) || CoordTruthy(cy) ==> r == (cx, cy)
    ensures !CoordTruthy(cx) && !CoordTruthy(cy) ==>
      && r.0 == (if parseFloat(g.0).Some? then parseFloat(g.0) else cx)
      && r.1 == (if parseFloat(g.0).Some? && parseFloat(g.1).Some? then parseFloat(g.1) else cy)
  {
    if CoordTruthy(cx) || CoordTruthy(cy) then (cx, cy)
    else
      match parseFloat(g.0)
      case None => (cx, cy)
      case Some(x) => (Some(x), if parseFloat(g.1).Some? then parseFloat(g.1) else cy)
  }

  /** The coordinates before the back-fill: the pin's, which are only looked
      at when a map image is found. */
  function Pinned(c: Container, parseFloat: string -> Option<Coord>): (Option<Coord>, Option<Coord>)
  {
    if c.mapImageSrc.Some? then PinCoords(c.pin, parseFloat) else (None, None)
  }

  /** The fields of one NPC link, read from its container (all absent when
      there is none). The pin is only looked at when a map image is found. */
  function ExtractFields(container: Option<Container>, parseFloat: string -> Option<Coord>): Fields
  {
    if container.None? then NoFields
    else
      var c := container.value;
      var price0 := StrongPrice(c);
      var currency :=
        if c.currencyLinkText.Some? then c.currencyLinkText
        else if c.goldImageParentText.Some? then Some("Gold")
        else None;
      var price :=
        if c.currencyLinkText.None? && c.goldImageParentText.Some? && !PriceTruthy(price0)
        then (if FirstNumber(c.goldImageParentText.value).Some? then FirstNumber(c.goldImageParentText.value) else price0)
        else price0;
      var mapUrl := if c.mapImageSrc.Some? then Some(AbsoluteMapUrl(c.mapImageSrc.value)) else None;
      var pinned := Pinned(c, parseFloat);
      match WaypointGroups(c.text)
      case None => Fields(LocationIn(c.text), price, currency, mapUrl, None, pinned.0, pinned.1)
      case Some(g) =>
        var coords := Backfill(pinned.0, pinned.1, g, parseFloat);
        Fields(LocationIn(c.text), price, currency, mapUrl, Some("/way " + g.0 + " " + g.1), coords.0, coords.1)
  }

  /** Which source each field of a vendor is taken from, and which wins. */
  lemma ExtractFieldsSpec(container: Option<Container>, parseFloat: string -> Option<Coord>)
    ensures var f := ExtractFields(container, parseFloat);
      // no container: nothing
      && (container.None? ==> f == NoFields)
      && (container.Some? ==> ExtractedFrom(container.value, parseFloat, f))
  {
  }

  /** The fields `f` read from container `c`. */
  predicate ExtractedFrom(c: Container, parseFloat: string -> Option<Coord>, f: Fields)
  {
    // currency: the currency link, else "Gold" for a gold image, else none
    && (c.currencyLinkText.Some? ==> f.currency == c.currencyLinkText)
    && (c.currencyLinkText.None? && c.goldImageParentText.Some? ==> f.currency == Some("Gold"))
    && (c.currencyLinkText.None? && c.goldImageParentText.None? ==> f.currency.None?)
    // price: from <strong>; the digits beside the gold image only when that
    // price is missing or zero, there is no currency link and they exist
    && ((PriceTruthy(StrongPrice(c)) || c.currencyLinkText.Some? || c.goldImageParentText.None?)
        ==> f.price == StrongPrice(c))
    && (c.currencyLinkText.None? && c.goldImageParentText.Some? && !PriceTruthy(StrongPrice(c)) ==>
          f.price == if FirstNumber(c.goldImageParentText.value).Some? then FirstNumber(c.goldImageParentText.value) else StrongPrice(c))
    // location: the first parenthesised text, stripped
    && f.location == LocationIn(c.text)
    // map: the image's src made absolute
    && (c.mapImageSrc.Some? ==> f.mapUrl == Some(AbsoluteMapUrl(c.mapImageSrc.value)))
    && (c.mapImageSrc.None? ==> f.mapUrl.None?)
    // waypoint: "/way X Y" with the two numbers found in the text
    && (f.waypoint.Some? <==> WaypointGroups(c.text).Some?)
    && (f.waypoint.Some? ==> f.waypoint.value == "/way " + WaypointGroups(c.text).value.0 + " " + WaypointGroups(c.text).value.1)
    // coordinates: the pin's when one of them is truthy or there is no
    // waypoint, otherwise back-filled from the waypoint's numbers
    && ((CoordTruthy(Pinned(c, parseFloat).0) || CoordTruthy(Pinned(c, parseFloat).1) || WaypointGroups(c.text).None?)
        ==> (f.coordX, f.coordY) == Pinned(c, parseFloat))
    && (!CoordTruthy(Pinned(c, parseFloat).0) && !CoordTruthy(Pinned(c, parseFloat).1) && WaypointGroups(c.text).Some? ==>
          (f.coordX, f.coordY) == Backfill(Pinned(c, parseFloat).0, Pinned(c, parseFloat).1, WaypointGroups(c.text).value, parseFloat))
  }

  /** Without a map image the pin is never read, so a waypoint in the text
      supplies the coordinates: x when its number parses, y when both do. */
  lemma WaypointCoordinatesWithoutMap(c: Container, parseFloat: string -> Option<Coord>)
    requires c.mapImageSrc.None? && WaypointGroups(c.text).Some?
    ensures var f := ExtractFields(Some(c), parseFloat); var g := WaypointGroups(c.text).value;
      && f.waypoint == Some("/way " + g.0 + " " + g.1)
      && (parseFloat(g.0).Some? ==> f.coordX == parseFloat(g.0))
      && (parseFloat(g.0).Some? && parseFloat(g.1).Some? ==> f.coordY == parseFloat(g.1))
      && (parseFloat(g.0).None? || parseFloat(g.1).None? ==> f.coordY.None?)
      && (parseFloat(g.0).None? ==> f.coordX.None?)
  {
    ExtractFieldsSpec(Some(c), parseFloat);
  }

  function VendorOf(name: string, f: Fields, mapTexture: Option<string>): Vendor
  {
    Vendor(name, f.location, f.price, f.currency, mapTexture, f.waypoint, f.coordX, f.coordY)
  }

  // ---------------------------------------------------------------------
  // The links of a block

  /** `find_all('a', href=re.compile(r'/npcs/\d+'))`. */
  predicate IsNpcLink(a: Anchor) { a.href.Some? && Search(IdAfter("/npcs/"), a.href.value).Some? }

  /** The NPC links of a block, in document order. */
  function NpcLinks(anchors: seq<Anchor>): (r: seq<Anchor>)
    ensures forall a :: a in r <==> a in anchors && IsNpcLink(a)
  {
    Filter(anchors, IsNpcLink)
  }

  /** The NPC links keep document order and multiplicity: those of two
      stretches of links are those of the first followed by those of the
      second, and a single link is kept exactly when it is an NPC link. */
  lemma NpcLinksInOrder(a: seq<Anchor>, b: seq<Anchor>)
    ensures NpcLinks(a + b) == NpcLinks(a) + NpcLinks(b)
    ensures |b| == 1 ==> NpcLinks(b) == if IsNpcLink(b[0]) then b else []
  {
    FilterConcat(a, b, IsNpcLink);
    if |b| == 1 {
      assert b == [b[0]];
      FilterSingle(b[0], IsNpcLink);
    }
  }

  /** The candidate records of the links, in order, before duplicates are
      dropped, and the texture store after their maps were resolved. Links
      with an empty name are skipped. Every candidate's map is resolved,
      even one that turns out to be a duplicate. */
  datatype Batch = Batch(candidates: seq<Vendor>, files: set<string>, fetches: nat)

  /** One link's contribution: skipped without a name, otherwise its map is
      resolved against the store and its record appended. */
  function AddCandidate(b: Batch, link: Anchor, fetchOk: string -> bool, parseFloat: string -> Option<Coord>): Batch
  {
    if link.text == [] then b
    else
      var f := ExtractFields(link.container, parseFloat);
      var r := if f.mapUrl.Some? then ResolveMap(b.files, f.mapUrl.value, fetchOk) else Resolution(None, b.files, false);
      Batch(b.candidates + [VendorOf(link.text, f, r.path)], r.files, b.fetches + if r.fetched then 1 else 0)
  }

  function Candidates(links: seq<Anchor>, files: set<string>, fetchOk: string -> bool, parseFloat: string -> Option<Coord>): (b: Batch)
    ensures forall v :: v in b.candidates ==> v.name != []
  {
    if links == [] then Batch([], files, 0)
    else AddCandidate(Candidates(links[..|links| - 1], files, fetchOk, parseFloat), links[|links| - 1], fetchOk, parseFloat)
  }

  lemma CandidatesStep(links: seq<Anchor>, i: nat, files: set<string>, fetchOk: string -> bool, parseFloat: string -> Option<Coord>)
    requires i < |links|
    ensures Candidates(links[..i + 1], files, fetchOk, parseFloat) ==
      AddCandidate(Candidates(links[..i], files, fetchOk, parseFloat), links[i], fetchOk, parseFloat)
  {
    assert links[..i + 1][..i] == links[..i];
  }

  /** The result of `parse_vendor_div` and the store it leaves. */
  function ParseVendors(block: Option<seq<Anchor>>, files: set<string>, fetchOk: string -> bool, parseFloat: string -> Option<Coord>): Batch
  {
    if block.None? then Batch([], files, 0)
    else
      var b := Candidates(NpcLinks(block.value), files, fetchOk, parseFloat);
      Batch(DedupBy(b.candidates, Key), b.files, b.fetches)
  }

  /** `parse_vendor_div(div_text, div_soup)`; `block` is `None` when there
      is no block element. `div_text` is unused by the source. */
  method ParseVendorDiv(block: Option<seq<Anchor>>, store: AssetStore, fetchOk: string -> bool, parseFloat: string -> Option<Coord>)
    returns (vendors: seq<Vendor>)
    modifies store
    ensures var r := ParseVendors(block, old(store.files), fetchOk, parseFloat);
            vendors == r.candidates && store.files == r.files && store.fetches == old(store.fetches) + r.fetches
  {
    vendors := [];
    if block.None? {
      return;
    }
    var npcLinks := NpcLinks(block.value);
    ghost var files0, fetches0 := store.files, store.fetches;
    var i := 0;
    while i < |npcLinks|
      invariant 0 <= i <= |npcLinks|
      invariant var b := Candidates(npcLinks[..i], files0, fetchOk, parseFloat);
                vendors == DedupBy(b.candidates, Key) && store.files == b.files && store.fetches == fetches0 + b.fetches
    {
      CandidatesStep(npcLinks, i, files0, fetchOk, parseFloat);
      ghost var b := Candidates(npcLinks[..i], files0, fetchOk, parseFloat);
      var v := VisitLink(npcLinks[i], store, fetchOk, parseFloat, b);
      if v.Some? {
        DedupByAppend(b.candidates, v.value, Key);
        if !HasKey(vendors, Key, Key(v.value)) {
          vendors := vendors + [v.value];
        }
      }
      i := i + 1;
    }
    assert npcLinks[..|npcLinks|] == npcLinks;
  }

  /** The body of the loop for one NPC link: its record, built after its map
      has been resolved against the store; `None` for a link without a name. */
  method VisitLink(link: Anchor, store: AssetStore, fetchOk: string -> bool, parseFloat: string -> Option<Coord>, ghost b: Batch)
    returns (v: Option<Vendor>)
    requires store.files == b.files
    modifies store
    ensures var b' := AddCandidate(b, link, fetchOk, parseFloat);
            store.files == b'.files && store.fetches + b.fetches == old(store.fetches) + b'.fetches
            && (if v.None? then link.text == [] && b' == b else b'.candidates == b.candidates + [v.value])
  {
    if link.text == [] {
      return None;
    }
    var f := ExtractFields(link.container, parseFloat);
    var mapTexture := None;
    if f.mapUrl.Some? {
      mapTexture := store.DownloadAndConvertMap(f.mapUrl.value, fetchOk);
    }
    v := Some(VendorOf(link.text, f, mapTexture));
  }

  // ---------------------------------------------------------------------
  // What the parser guarantees

  /** No two vendors returned for one block share a (name, location) pair,
      and a missing block yields none. */
  lemma NoDuplicateVendors(block: Option<seq<Anchor>>, files: set<string>, fetchOk: string -> bool, parseFloat: string -> Option<Coord>)
    ensures block.None? ==> ParseVendors(block, files, fetchOk, parseFloat).candidates == []
    ensures var vs := ParseVendors(block, files, fetchOk, parseFloat).candidates;
            forall i, j :: 0 <= i < j < |vs| ==> Key(vs[i]) != Key(vs[j])
    ensures forall v :: v in ParseVendors(block, files, fetchOk, parseFloat).candidates ==> v.name != []
  {
    if block.Some? {
      DedupByDistinct(Candidates(NpcLinks(block.value), files, fetchOk, parseFloat).candidates, Key);
    }
  }

  /** Vendors come out in the order their (name, location) pair first
      occurs among the named NPC links, each as that first record. */
  lemma VendorsInFirstOccurrenceOrder(block: seq<Anchor>, files: set<string>, fetchOk: string -> bool, parseFloat: string -> Option<Coord>)
    ensures var cs := Candidates(NpcLinks(block), files, fetchOk, parseFloat).candidates;
            var vs := ParseVendors(Some(block), files, fetchOk, parseFloat).candidates;
            && (forall k :: k in Keys(vs, Key) <==> k in Keys(cs, Key))
            && (forall i, j :: 0 <= i < j < |vs| ==> IndexOf(Keys(cs, Key), Key(vs[i])) < IndexOf(Keys(cs, Key), Key(vs[j])))
            && (forall i :: 0 <= i < |vs| ==> vs[i] == cs[IndexOf(Keys(cs, Key), Key(vs[i]))])
  {
    var cs := Candidates(NpcLinks(block), files, fetchOk, parseFloat).candidates;
    DedupBySpec(cs, Key);
    DedupSpec(Keys(cs, Key));
  }
}
