/**
 * `extract_item_id` and the deduplicating loop of `collect_item_urls`:
 * walking the listing pages and recording each decor id once, with the URL
 * of its first sighting.
 */
module ItemUrls {
  import opened Wrappers
  import opened Text
  import opened Seqs
  import opened Dom

  /** `extract_item_id`: the number after the first `/decor/` that is
      followed by digits, or `None` when there is no such place. */
  function ExtractItemId(url: string): Option<nat>
  {
    NumberAfter("/decor/", url)
  }

  lemma ExtractItemIdNone(url: string)
    ensures ExtractItemId(url).None? <==> forall i :: 0 <= i <= |url| ==> !IdMarkedAt("/decor/", url, i)
  {
    NumberAfterNone("/decor/", url);
  }

  lemma ExtractItemIdFirst(url: string, i: nat)
    requires IdMarkedAt("/decor/", url, i)
    requires forall j :: 0 <= j < i ==> !IdMarkedAt("/decor/", url, j)
    ensures ExtractItemId(url) == Some(DigitsValue(DigitsFrom(url, i + 7)))
  {
    NumberAfterFirst("/decor/", url, i);
  }

  // ---------------------------------------------------------------------
  // The collector's state and one step of its loop

  /** `seen_ids`, `all_items`, and the insertion order of `all_items`. */
  datatype Collected = Collected(seen: set<nat>, items: map<nat, string>, order: seq<nat>)

  const Start := Collected({}, map[], [])

  /** The collector's invariant: the dictionary's keys are the seen ids,
      its order lists each of them once, and id 0 is never recorded. */
  ghost predicate Consistent(st: Collected)
  {
    && st.items.Keys == st.seen
    && (forall id :: id in st.order <==> id in st.seen)
    && Distinct(st.order)
    && 0 !in st.seen
  }

  /** The id an anchor is sighted with, if any. An unreadable `href` makes
      `extract_item_id` raise, and the loop skips that link. */
  function SightedId(href: Option<string>): Option<nat>
  {
    if href.None? then None else ExtractItemId(href.value)
  }

  /** One link: `if item_id and item_id not in seen_ids: ...`. */
  function See(st: Collected, href: Option<string>): Collected
  {
    match SightedId(href)
    case Some(id) =>
      if id != 0 && id !in st.seen then Collected(st.seen + {id}, st.items[id := href.value], st.order + [id])
      else st
    case None => st
  }

  function SeeAll(st: Collected, hrefs: seq<Option<string>>): Collected
  {
    if hrefs == [] then st else See(SeeAll(st, hrefs[..|hrefs| - 1]), hrefs[|hrefs| - 1])
  }

  function LinksOf(page: ListingPage): seq<Option<string>>
  {
    match page
    case TimedOut => []
    case Listing(hrefs) => hrefs
  }

  /** The state after the listing pages `pages`, in page order. */
  function Run(pages: seq<ListingPage>): Collected
  {
    if pages == [] then Start else SeeAll(Run(pages[..|pages| - 1]), LinksOf(pages[|pages| - 1]))
  }

  /** Every link of every page, in the order the loop meets them. */
  function Hrefs(pages: seq<ListingPage>): seq<Option<string>>
  {
    if pages == [] then [] else Hrefs(pages[..|pages| - 1]) + LinksOf(pages[|pages| - 1])
  }

  /** The number of ids first seen on page `k`. */
  function NewOnPage(pages: seq<ListingPage>, k: nat): nat
    requires k < |pages|
  {
    |Run(pages[..k + 1]).seen - Run(pages[..k]).seen|
  }

  /** The first link that sights `id`. */
  function FirstHref(hrefs: seq<Option<string>>, id: nat): (r: Option<string>)
    ensures r.Some? ==> Some(r.value) in hrefs && SightedId(Some(r.value)) == Some(id)
  {
    if hrefs == [] then None
    else if SightedId(hrefs[0]) == Some(id) then hrefs[0]
    else FirstHref(hrefs[1..], id)
  }

  // ---------------------------------------------------------------------
  // The loop

  /** `collect_item_urls` over the pages the browser delivered. It returns
      `all_items` with its insertion order, and for each page the number of
      new items it reports (zero for a page that timed out). */
  method CollectItemUrls(pages: seq<ListingPage>) returns (allItems: map<nat, string>, order: seq<nat>, pageCounts: seq<nat>)
    ensures allItems == Run(pages).items && order == Run(pages).order
    ensures |pageCounts| == |pages|
    ensures forall k :: 0 <= k < |pages| ==> pageCounts[k] == |Run(pages[..k + 1]).seen - Run(pages[..k]).seen|
  {
    var seenIds: set<nat> := {};
    allItems, order, pageCounts := map[], [], [];
    var p := 0;
    while p < |pages|
      invariant 0 <= p <= |pages|
      invariant Collected(seenIds, allItems, order) == Run(pages[..p])
      invariant |pageCounts| == p
      invariant forall k :: 0 <= k < p ==> pageCounts[k] == NewOnPage(pages, k)
    {
      RunStep(pages, p);
      var pageItems;
      seenIds, allItems, order, pageItems := CollectPage(seenIds, allItems, order, LinksOf(pages[p]));
      assert pageItems == NewOnPage(pages, p);
      pageCounts := pageCounts + [pageItems];
      p := p + 1;
    }
    assert pages[..|pages|] == pages;
  }

  lemma RunStep(pages: seq<ListingPage>, p: nat)
    requires p < |pages|
    ensures Run(pages[..p + 1]) == SeeAll(Run(pages[..p]), LinksOf(pages[p]))
  {
    assert pages[..p + 1][..p] == pages[..p];
  }

  /** The inner loop over one page's links; `pageItems` counts the ids that
      are new on this page. */
  method CollectPage(seen0: set<nat>, items0: map<nat, string>, order0: seq<nat>, links: seq<Option<string>>)
    returns (seenIds: set<nat>, allItems: map<nat, string>, order: seq<nat>, pageItems: nat)
    ensures Collected(seenIds, allItems, order) == SeeAll(Collected(seen0, items0, order0), links)
    ensures pageItems == |seenIds - seen0|
  {
    seenIds, allItems, order, pageItems := seen0, items0, order0, 0;
    var i := 0;
    while i < |links|
      invariant 0 <= i <= |links|
      invariant Collected(seenIds, allItems, order) == SeeAll(Collected(seen0, items0, order0), links[..i])
      invariant seen0 <= seenIds
      invariant pageItems == |seenIds - seen0|
    {
      assert links[..i + 1][..i] == links[..i];
      var href := links[i];
      if href.Some? {
        var itemId := ExtractItemId(href.value);
        if itemId.Some? && itemId.value != 0 && itemId.value !in seenIds {
          assert (seenIds + {itemId.value}) - seen0 == (seenIds - seen0) + {itemId.value};
          seenIds := seenIds + {itemId.value};
          allItems := allItems[itemId.value := href.value];
          order := order + [itemId.value];
          pageItems := pageItems + 1;
        }
      }
      i := i + 1;
    }
    assert links[..|links|] == links;
  }

  // ---------------------------------------------------------------------
  // What the loop guarantees

  lemma {:induction false} SeeAllConsistent(st: Collected, hrefs: seq<Option<string>>)
    requires Consistent(st)
    ensures Consistent(SeeAll(st, hrefs))
  {
    if hrefs != [] {
      SeeAllConsistent(st, hrefs[..|hrefs| - 1]);
    }
  }

  /** After any pages, the dictionary's keys equal `seen_ids`, each key is
      listed once in insertion order, and the falsy id 0 never appears. */
  lemma {:induction false} RunConsistent(pages: seq<ListingPage>)
    ensures Consistent(Run(pages))
  {
    if pages != [] {
      RunConsistent(pages[..|pages| - 1]);
      SeeAllConsistent(Run(pages[..|pages| - 1]), LinksOf(pages[|pages| - 1]));
    }
  }

  /** A page that timed out changes nothing. */
  lemma TimedOutPageChangesNothing(pages: seq<ListingPage>)
    ensures Run(pages + [TimedOut]) == Run(pages)
  {
    assert (pages + [TimedOut])[..|pages|] == pages;
  }

  lemma {:induction false} SeeAllConcat(st: Collected, a: seq<Option<string>>, b: seq<Option<string>>)
    ensures SeeAll(st, a + b) == SeeAll(SeeAll(st, a), b)
    decreases |b|
  {
    if b == [] {
      assert a + b == a;
    } else {
      assert (a + b)[..|a + b| - 1] == a + b[..|b| - 1];
      SeeAllConcat(st, a, b[..|b| - 1]);
    }
  }

  /** Walking the pages one by one is walking all their links in a row. */
  lemma {:induction false} RunIsSeeAll(pages: seq<ListingPage>)
    ensures Run(pages) == SeeAll(Start, Hrefs(pages))
  {
    if pages != [] {
      var init := pages[..|pages| - 1];
      RunIsSeeAll(init);
      SeeAllConcat(Start, Hrefs(init), LinksOf(pages[|pages| - 1]));
    }
  }

  lemma {:induction false} FirstHrefAppend(hrefs: seq<Option<string>>, h: Option<string>, id: nat)
    ensures FirstHref(hrefs + [h], id) ==
      if FirstHref(hrefs, id).Some? then FirstHref(hrefs, id)
      else if SightedId(h) == Some(id) then h
      else None
  {
    if hrefs == [] {
      assert ([] + [h])[1..] == [];
    } else {
      assert (hrefs + [h])[1..] == hrefs[1..] + [h];
      FirstHrefAppend(hrefs[1..], h, id);
    }
  }

  lemma {:induction false} SeeAllFirstSighting(hrefs: seq<Option<string>>)
    ensures var st := SeeAll(Start, hrefs);
      forall id :: (id in st.items <==> id != 0 && FirstHref(hrefs, id).Some?)
              && (id in st.items ==> FirstHref(hrefs, id) == Some(st.items[id]))
  {
    SeeAllConsistent(Start, hrefs);
    if hrefs != [] {
      var init, h := hrefs[..|hrefs| - 1], hrefs[|hrefs| - 1];
      assert hrefs == init + [h];
      SeeAllFirstSighting(init);
      SeeAllConsistent(Start, init);
      forall id {
        FirstHrefAppend(init, h, id);
      }
    }
  }

  /** The first sighting wins: an id is recorded exactly when some link on
      some page carries it (and it is not 0), and it maps to the `href` of
      the first such link. */
  lemma FirstSightingWins(pages: seq<ListingPage>, id: nat)
    ensures id in Run(pages).items <==> id != 0 && FirstHref(Hrefs(pages), id).Some?
    ensures id in Run(pages).items ==> FirstHref(Hrefs(pages), id) == Some(Run(pages).items[id])
  {
    RunIsSeeAll(pages);
    SeeAllFirstSighting(Hrefs(pages));
  }
}
