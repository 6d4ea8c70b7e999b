# Housing decor scraper — a Dafny model

This project models the deterministic core of `scraper_final.py`. That Python
script collects housing decor items from a web database and writes them into a
Lua table for a game addon. The browser, HTTP, image conversion and HTML
parsing layers are replaced by plain records and parameters. What remains is
proved about the logic the script runs on those records:

- the Lua string escaper (`escape_lua_string`);
- the item-id extractor (`extract_item_id`);
- the map-image URL rule and the texture-cache paths of `download_and_convert_map`;
- the dedup loop of `collect_item_urls`;
- the vendor sub-parser `parse_vendor_div`;
- the fact-block classifier and material resolver of `scrape_item_details`;
- the serializer `generate_lua_database`.

Modules, one per file:

- `Wrappers` (`wrappers.dfy`): `Option`.
- `Text` (`text.dfy`): character classes (`\d` and `\w` over ASCII, whitespace as `str.isspace` defines it). One `Pattern` value per regular expression the script uses, matched at a position, with a leftmost `Search` like Python's `re.search`. Also `str.strip`, `str.lower`, `int(...)` on digit strings and `str(n)` on naturals.
- `Seqs` (`seqs.dfy`): first-occurrence deduplication, by value and by key.
- `Dom` (`dom.dfy`): the records that stand in for the HTML. These are fact blocks, links, vendor containers, map pins and listing pages. A float is the text Python prints for it.
- `LuaEscape` (`lua_escape.dfy`): `escape_lua_string`. Also a reader of Lua short-string bodies that decodes the single-character escapes of section 3.1 of the Lua 5.4 reference manual.
- `MapAssets` (`map_assets.dfy`): the absolute-URL rule, the texture name `map_<name>` and its logical path. Also the texture store as a class: a set of existing file names plus a download counter.
- `ItemUrls` (`item_urls.dfy`): `extract_item_id`, plus `collect_item_urls` as a loop over listing pages. The state is the seen-id set, the id→URL dictionary and its insertion order.
- `Vendors` (`vendors.dfy`): `parse_vendor_div`, with its field precedence and its (name, location) deduplication.
- `Materials` (`materials.dfy`): the tiered reagent lookup, the quantity formats and the page-wide fallback.
- `ItemDetails` (`item_details.dfy`): the block loop of `scrape_item_details` (the `if/elif` classification chain), giving the item record.
- `LuaDatabase` (`lua_database.dfy`): `generate_lua_database`, as a method that builds the text. It is specified by the function `LuaDatabase`.

Each loop of the script that builds up a result — a list, a dictionary, a
set or the output text — is a `method` with a `while` loop, proved equal to a
left-fold specification function. The profession loop with its `break`
(`scraper_final.py:371-374`) only picks one value, and it is the recursive
function `ItemDetails.FirstNamedFrom`. The properties are lemmas about those
functions. The store that `download_and_convert_map` writes to is the class
`MapAssets.AssetStore`. The methods that call it (`ParseVendorDiv`,
`ScrapeItemDetails`) modify it. Their contracts say which files it holds
afterwards and how many downloads were issued.

Two details of the code shape the model:

- The pin coordinates are only read when the container has a map image. The pin lookup is nested inside the map-image branch (`scraper_final.py:229-257`).
- `extract_item_id` returns the digits after the first `/decor/` that is directly followed by a digit. A `/decor/` without digits after it is skipped, as `re.search` does.

## Model

| member | source | states |
|---|---|---|
| LuaEscape.EscapeIsPerCharacter | scraper_final.py:43-47 | the four chained replacements, backslash first, equal escaping each character on its own: `\` to `\\`, `"` to `\"`, LF to `\n`, CR to `\r`; the empty string gives the empty string |
| LuaEscape.ChainIsEach | scraper_final.py:45-47 | the replacement chain distributes over concatenation and agrees with the per-character escape |
| LuaEscape.ReplaceConcat | scraper_final.py:45-47 | replacing one character distributes over concatenation |
| LuaEscape.ChainConcat | scraper_final.py:45-47 | the whole chain distributes over concatenation |
| LuaEscape.ChainOne | scraper_final.py:45-47 | the chain on one character is that character's escape |
| LuaEscape.EscapeRoundTrip | scraper_final.py:43-47 | decoding the escaped text by the Lua short-string rules gives back exactly the input |
| LuaEscape.EachRoundTrip | scraper_final.py:43-47 | the same round trip for the per-character escape |
| LuaEscape.EscapedIsOneLine | scraper_final.py:43-47 | the escaped text contains no raw LF and no raw CR |
| LuaEscape.EachIsOneLine | scraper_final.py:43-47 | the same for the per-character escape |
| Text.NumberAfterNone | scraper_final.py:101-104 | no number is found exactly when no occurrence of the marker is followed by a digit |
| Text.NumberAfterFirst | scraper_final.py:101-104 | at the first occurrence of the marker followed by a digit, the result is the value of the whole digit run there |
| ItemUrls.ExtractItemIdNone | scraper_final.py:101-104 | `extract_item_id` gives None exactly when no `/decor/` is followed by a digit |
| ItemUrls.ExtractItemIdFirst | scraper_final.py:101-104 | otherwise, `int` of the digit run after the first `/decor/` that has one |
| Text.DigitsFrom | scraper_final.py:103 | the run taken after the marker consists of digits |
| ItemUrls.FirstHref | scraper_final.py:139-151 | the first href naming an id is one of the hrefs, and it names that id |
| ItemUrls.CollectItemUrls | scraper_final.py:106-163 | the dictionary and its order are those of the page-by-page fold; `page_items` of page k is the number of ids new on page k |
| ItemUrls.CollectPage | scraper_final.py:138-151 | one page's link loop performs the fold over its links, and its count is the number of ids it adds to the seen set |
| ItemUrls.RunStep | scraper_final.py:117-158 | the fold over the first p+1 pages is one page step after the fold over the first p |
| ItemUrls.SeeAllConsistent | scraper_final.py:139-151 | the link loop keeps the dictionary's keys equal to the seen set, each listed once in order, and never records id 0 |
| ItemUrls.RunConsistent | scraper_final.py:106-163 | that invariant holds after any sequence of pages |
| ItemUrls.TimedOutPageChangesNothing | scraper_final.py:121-127 | a page whose listing times out leaves the set, the dictionary and the order unchanged |
| ItemUrls.SeeAllConcat | scraper_final.py:138-151 | folding over two link lists in turn equals folding over their concatenation |
| ItemUrls.RunIsSeeAll | scraper_final.py:117-158 | the page-by-page run is one fold over all hrefs of all pages in order |
| ItemUrls.FirstHrefAppend | scraper_final.py:139-151 | appending a link changes the first sighting of an id only when the id had none and the new link names it |
| ItemUrls.SeeAllFirstSighting | scraper_final.py:139-151 | an id is recorded exactly when it is nonzero and some href names it, and it maps to the first such href |
| ItemUrls.FirstSightingWins | scraper_final.py:106-163 | the same across pages: the first sighting wins and id 0 is never kept |
| MapAssets.AbsoluteMapUrl | scraper_final.py:248-252 | an empty src or one starting with `http` is unchanged; `//x` becomes `https://x`; `/p` and `p` both become the base URL, `/`, then `p` |
| MapAssets.AbsoluteMapUrlIdempotent | scraper_final.py:248-252 | applying the rule twice is the same as once |
| MapAssets.LastSegment | scraper_final.py:60 | the segment after the last `/`: it contains no `/`, ends the URL, and a `/` precedes it |
| MapAssets.WithoutExtension | scraper_final.py:61 | cut at the last `.`: a prefix of the segment, the whole segment when it has no `.` |
| MapAssets.Sanitise | scraper_final.py:64 | one character for one: word characters, whitespace and `-` kept, every other character becomes `_` |
| MapAssets.SafeLower | scraper_final.py:64 | one character for one: each character is replaced by `_` unless it is a word character, whitespace or `-`, then lower-cased; the result holds only lower-case safe characters |
| MapAssets.SafeLowerIdempotent | scraper_final.py:64-65 | sanitising and lower-casing a second time changes nothing |
| MapAssets.DerivedName | scraper_final.py:60-65 | `map_` followed by the lower-cased, sanitised last segment of the URL without its extension; it holds no `/` and no `.` |
| MapAssets.DerivedNameOfFile | scraper_final.py:60-65 | the texture of `<dir>/<base>.<ext>`, with no slash or dot in the extension and no slash in the base, is `map_` + lower(sanitise(base)) |
| MapAssets.SafeLowerExample | scraper_final.py:58-65 | `2351_Razorwind_Shores` becomes `2351_razorwind_shores` |
| MapAssets.ResolveMap | scraper_final.py:49-99 | empty URL: None and no download; a download exactly when the texture file is missing; a cached file gives its path; after a download the path is present exactly when the fetch succeeds; a path is always `Interface\AddOns\...\map_<name>` and its file is then present |
| MapAssets.RepeatedCallIsCached | scraper_final.py:68-71 | after a call that returned a path, the same URL returns the same path without downloading, whatever the network does |
| MapAssets.SameBaseNameSharesTexture | scraper_final.py:60-71 | two URLs with the same base name share one texture and the second one is not downloaded |
| MapAssets.AssetStore.DownloadAndConvertMap | scraper_final.py:49-99 | the store and the returned path follow `ResolveMap`; the download counter goes up by one exactly when a download is attempted |
| Vendors.FirstNumber | scraper_final.py:200-205 | None exactly when the text has no digit; otherwise the value of its first maximal digit run |
| Vendors.LocationInNone | scraper_final.py:194-197 | no location exactly when no `(` is followed by at least one other character and then a `)` |
| Vendors.LocationInFirst | scraper_final.py:194-197 | the location is the stripped text inside the leftmost such group, which ends at the first `)` after its `(` |
| Vendors.WaypointGroups | scraper_final.py:260-262 | two numbers exactly when the waypoint pattern matches somewhere in the text; both are nonempty |
| Vendors.WaypointGroupsNone | scraper_final.py:260-262 | no waypoint exactly when `/way`, whitespace, digits and dots, whitespace, digits and dots occur nowhere |
| Vendors.WaypointGroupsFirst | scraper_final.py:260-262 | the two numbers are the two runs of digits and dots of the leftmost such form |
| Vendors.Backfill | scraper_final.py:263-269 | a truthy coordinate blocks the back-fill; otherwise x becomes the parsed first number when it parses, and y the parsed second number when both parse; a failed parse keeps the old value |
| Vendors.ExtractFieldsSpec | scraper_final.py:184-269 | the currency is the link text, else `Gold` when there is a gold icon, else none. The price comes from `<strong>`; when that price is missing or 0, there is no currency link and there is a gold icon, the first number beside the icon replaces it if there is one. The location is the first parenthesised text, stripped. The map URL is the image src made absolute. The waypoint is `/way X Y`. The pin coordinates (read only with a map image) are kept when either is truthy or there is no waypoint; otherwise they are back-filled from the waypoint |
| Vendors.WaypointCoordinatesWithoutMap | scraper_final.py:229-269 | without a map image the waypoint supplies the coordinates: x when its first number parses, y when both do, and neither when the first fails |
| Vendors.NpcLinks | scraper_final.py:173 | exactly the links whose href contains `/npcs/` followed by digits |
| Vendors.NpcLinksInOrder | scraper_final.py:173 | the NPC links keep document order and multiplicity: those of a concatenation are those of the parts in turn, and one link is kept exactly when it is an NPC link |
| Vendors.Candidates | scraper_final.py:175-280 | every vendor record built has a nonempty name |
| Vendors.CandidatesStep | scraper_final.py:175-280 | the first i+1 links give one candidate step after the first i |
| Vendors.VisitLink | scraper_final.py:175-280 | one NPC link: skipped when its text is empty, otherwise one record appended, with the store updated by that record's map download |
| Vendors.ParseVendorDiv | scraper_final.py:165-291 | the returned list and the store's new files and download count are those of `ParseVendors` |
| Vendors.NoDuplicateVendors | scraper_final.py:169-178 | a missing block gives `[]`; no two returned vendors share (name, location); every name is nonempty |
| Vendors.VendorsInFirstOccurrenceOrder | scraper_final.py:173-289 | the returned vendors are the first record of each (name, location) key, in the order the keys first appear |
| Materials.LinkedItemId | scraper_final.py:428-433 | no id exactly when the link has no href or no `/items/` in it is followed by a digit |
| Materials.LinkedItemIdFirst | scraper_final.py:428-433 | otherwise the id is the value of the digit run after the first `/items/` followed by a digit |
| Materials.QuantityOfNone | scraper_final.py:436-444 | without a list entry, or when no `N x`, `x N` or `(N)` occurs in it, the quantity is 1 |
| Materials.QuantityOfFirst | scraper_final.py:436-444 | otherwise the quantity is the count of the leftmost of those forms, the alternatives tried in that order at each position |
| Materials.NoQuantityFormAt | scraper_final.py:442 | no quantity form starts at a character that is not a digit, an `x` or a `(` |
| Materials.ParenthesisedQuantity | scraper_final.py:436-444 | `<name> (<N>)` gives N |
| Materials.LeadingCountQuantity | scraper_final.py:436-444 | `<N> x <rest>` gives N |
| Materials.TrailingCountQuantity | scraper_final.py:436-444 | `<name> x <N>` gives N |
| Materials.LinenClothQuantity | scraper_final.py:436-444 | the list entry `Linen Cloth (5)` gives quantity 5 |
| Materials.FirstReagentBlock | scraper_final.py:411-415 | the first fact block mentioning `Reagent` or `Material`, or None when there is none |
| Materials.ItemLinks | scraper_final.py:456 | exactly the page's links that carry an item id |
| Materials.ItemLinksInOrder | scraper_final.py:456 | the item links keep document order and multiplicity, so `FirstTen` takes the first ten of the page |
| Materials.FirstTen | scraper_final.py:457 | `xs[:10]`: a prefix of `xs` of length ten, or all of `xs` when it is shorter |
| Materials.FindReagentAnchors | scraper_final.py:411-421 | the links come from that block if there is one, else from the reagent list |
| Materials.CollectLinked | scraper_final.py:423-452 | the loop gives the material list, first entry per id |
| Materials.FindItemLinks | scraper_final.py:456 | the loop keeps exactly the item links, in order |
| Materials.CollectFallback | scraper_final.py:457-467 | the fallback loop gives the named materials, first entry per id |
| Materials.ResolveMaterials | scraper_final.py:409-467 | the resolved list is `PageMaterials` |
| Materials.LinkedMaterialsFromLinks | scraper_final.py:423-452 | each linked material has its id, name and quantity from one of the links |
| Materials.FallbackMaterialsNamed | scraper_final.py:457-467 | each fallback material has a nonempty name, quantity 1, and comes from one of the links |
| Materials.FallbackAtMostOnePerLink | scraper_final.py:457-467 | the fallback yields at most one material per link |
| Materials.DedupByNoLonger | scraper_final.py:447 | deduplication never lengthens a list |
| Materials.MaterialsSpec | scraper_final.py:409-467 | ids are pairwise distinct. The page-wide fallback is used only for a crafted item with no materials found. It gives at most ten named materials of quantity 1 from the first ten item links, and every named link among those ten gives a material with its id. Otherwise the list is the deduplicated reagent materials: each is taken from a reagent link, and every reagent link with an id gives a material with that id |
| Materials.LinkedMaterialsComplete | scraper_final.py:423-452 | every reagent link with an item id gives a candidate material with that id |
| Materials.FallbackMaterialsComplete | scraper_final.py:457-467 | every named item link gives a fallback candidate with its id |
| ItemDetails.FirstNamedFrom | scraper_final.py:371-374 | the first name of the list, from position k on, that occurs in the text, or None when none does |
| ItemDetails.FirstProfession | scraper_final.py:368-374 | the profession is the first one in the fixed list order that the text names; None exactly when it names none |
| ItemDetails.LinkTo | scraper_final.py:351-365 | the first link whose href contains the marker, or None when no link does |
| ItemDetails.VendorRuleIffPrefix | scraper_final.py:342-348 | a block is a Vendor block exactly when its text is nonempty and starts with `Vendor:` |
| ItemDetails.CategoryIsShadowed | scraper_final.py:368-395 | a `Category:` block is read as a category exactly when it mentions none of the source keywords; otherwise the first rule of the chain whose keyword it mentions decides: profession, then Drop, Treasure, Encounter |
| ItemDetails.TagMembers | scraper_final.py:343-389 | tagging adds the source and keeps every other |
| ItemDetails.ScanBlockSources | scraper_final.py:335-407 | one block tags at most one source: the one its rule names |
| ItemDetails.TriggeredMembers | scraper_final.py:335-407 | a source was triggered exactly when some block's rule names it |
| ItemDetails.ScanSources | scraper_final.py:335-407 | starting from no sources, the sources are the triggered ones, each once, in the order first triggered |
| ItemDetails.SourcesSpec | scraper_final.py:335-407 | for a loaded page: each source kind once, in first-trigger order, present exactly when some block triggers it |
| ItemDetails.VendorTaggedIff | scraper_final.py:342-348 | `Vendor` is a source exactly when some nonempty block starts with `Vendor:` |
| ItemDetails.ScanBlockSound | scraper_final.py:335-407 | one block keeps the record sound |
| ItemDetails.ScanBlockByRule | scraper_final.py:338-407 | a nonempty block outside the vendor rule only applies its rule to the record; the store is untouched |
| ItemDetails.AchievementCaptured | scraper_final.py:351-357 | an `Achievement:` block tags the source and records the text of its first achievement link, if any; nothing else changes |
| ItemDetails.QuestCaptured | scraper_final.py:359-365 | a `Quest:` block tags the source and records the text of its first quest link, if any; nothing else changes |
| ItemDetails.ProfessionCaptured | scraper_final.py:367-374 | a block mentioning a profession, outside the prefix rules, tags Crafting and records the first listed profession it names; nothing else changes |
| ItemDetails.CategoryCaptured | scraper_final.py:391-395 | a `Category:` block without source keywords sets the category to its first link's text, if any; nothing else changes |
| ItemDetails.SubcategoryCaptured | scraper_final.py:397-401 | the same for a `Subcategory:` block and the subcategory |
| ItemDetails.BudgetCaptured | scraper_final.py:403-407 | a `Budget Cost:` block without source keywords sets the budget to the value of its first digit run, if any; nothing else changes |
| ItemDetails.ApplyRuleSound | scraper_final.py:351-407 | each non-vendor rule keeps the record sound |
| ItemDetails.ScanFields | scraper_final.py:335-407 | after all blocks: vendors only with the Vendor tag, vendor names nonempty, the profession one of the list and only with the Crafting tag |
| ItemDetails.ScanBlockKeepsIdAndName | scraper_final.py:335-407 | one block leaves the id and the name alone |
| ItemDetails.ScanKeepsIdAndName | scraper_final.py:335-407 | the block loop leaves the id and the name alone |
| ItemDetails.ScanBlocksStep | scraper_final.py:335-407 | the first i+1 blocks are one block step after the first i |
| ItemDetails.ItemDetailsSpec | scraper_final.py:293-480 | a page whose `h1` never appears gives the blank record and no download. The id is kept, and the name is the `h1` text. Vendors only with the Vendor tag, names nonempty; a profession is one of the list and comes with the Crafting tag; the materials are those of the page, with the fallback allowed exactly when the item is crafted |
| ItemDetails.ScrapeBlock | scraper_final.py:335-407 | one block of the loop updates the record and the store as `ScanBlock` says |
| ItemDetails.ScrapeItemDetails | scraper_final.py:293-480 | the record and the store's new files and download count are those of `ItemDetails` |
| LuaDatabase.SetMin | scraper_final.py:502 | the least element of a nonempty set |
| LuaDatabase.Sorted | scraper_final.py:502 | `sorted(...)`: strictly ascending, with the same elements and the same number of them |
| LuaDatabase.IdsOfSpec | scraper_final.py:496-499 | an id is collected from one item exactly when one of its materials has it |
| LuaDatabase.MaterialIdsOfSpec | scraper_final.py:496-499 | an id is collected from a list of items exactly when one of their materials has it |
| LuaDatabase.AllMaterialIdsSpec | scraper_final.py:496-499 | the collected set is exactly the ids of all materials of all items |
| LuaDatabase.MaterialUniverse | scraper_final.py:496-565 | the `materials` universe is written in strictly ascending order, each id once, and holds exactly the ids of all materials of all items |
| LuaDatabase.NoneIfFalsy | scraper_final.py:507-547 | the emptied optional text is just as truthy as the original and equal to it when present |
| LuaDatabase.NoneIfZero | scraper_final.py:507-528 | the same for a number, where 0 is falsy |
| LuaDatabase.FalsyVendorFieldsOmitted | scraper_final.py:523-539 | a vendor entry does not depend on the falsy optional fields: an empty location, currency, texture or waypoint, or a price of 0 |
| LuaDatabase.VendorFieldsWritten | scraper_final.py:523-539 | the name line is always written; the price line when the price is truthy; `coordX` and `coordY` whenever present, even when 0 |
| LuaDatabase.FalsyItemFieldsOmitted | scraper_final.py:504-560 | an item entry does not depend on its falsy optional fields: empty category, subcategory, achievement, quest, profession, or a budget of 0 |
| LuaDatabase.ItemFieldsWritten | scraper_final.py:505-508 | the name line is always written and the `decorCost` line when the budget is truthy |
| LuaDatabase.JoinContains | scraper_final.py:505-559 | each line of an entry occurs in the entry |
| LuaDatabase.ItemEntriesContain | scraper_final.py:502-560 | each item's entry occurs in the text of all entries |
| LuaDatabase.MaterialFlagsContain | scraper_final.py:564-565 | each id's flag line occurs in the text of all flags |
| LuaDatabase.EveryItemWritten | scraper_final.py:484-569 | every item's entry occurs in the generated file |
| LuaDatabase.FlagIndex | scraper_final.py:564-565 | each material id has a position in the sorted universe |
| LuaDatabase.EveryMaterialFlagged | scraper_final.py:484-569 | every material id of every item is flagged in the generated file |
| LuaDatabase.GenerateLuaDatabase | scraper_final.py:484-569 | the text built is `LuaDatabase(items)`: header, item entries in ascending id order, the sorted material universe, footer; it depends on the items alone |
| LuaDatabase.WriteItems | scraper_final.py:502-560 | the item loop writes the entries of the given ids in order |
| LuaDatabase.ItemEntriesStep | scraper_final.py:502-560 | the entries of the first i+1 ids are those of the first i followed by the next entry |
| LuaDatabase.WriteFlags | scraper_final.py:564-565 | the flag loop writes one flag per id in order |
| LuaDatabase.CollectMaterialIds | scraper_final.py:496-499 | the nested loop collects exactly the material-id set |
| LuaDatabase.GatherIds | scraper_final.py:496-499 | the outer loop over items collects their material ids |
| LuaDatabase.MaterialIdsOfStep | scraper_final.py:496-499 | one more item adds the ids of its materials |
| LuaDatabase.AddIds | scraper_final.py:498-499 | the inner loop adds the ids of one item's materials |
| LuaDatabase.WriteItem | scraper_final.py:504-560 | one item's entry |
| LuaDatabase.WriteSources | scraper_final.py:514-518 | the source lines of one item |
| LuaDatabase.WriteVendors | scraper_final.py:520-540 | the vendor entries of one item |
| LuaDatabase.WriteMaterials | scraper_final.py:550-558 | the material entries of one item |
| Seqs.IndexOf | scraper_final.py:283-289 | the first position of a present element |
| Seqs.DedupSpec | scraper_final.py:343-389 | first-occurrence deduplication keeps each element once, in first-occurrence order |
| Seqs.DedupBySpec | scraper_final.py:283-289 | deduplication by key keeps the first element of each key, in first-occurrence order |
| Seqs.DedupByKeepsKeys | scraper_final.py:283-289 | deduplication by key drops no key: some kept element carries the key of each input element |
| Seqs.DedupByDistinct | scraper_final.py:283-289 | after deduplication by key, no two elements share a key |
| Seqs.DedupByAppend | scraper_final.py:283-289 | appending an element keeps it exactly when its key is new |
| Seqs.FirstWhere | scraper_final.py:412-415 | the first position whose element satisfies the test, or None exactly when none does |
| Seqs.Filter | scraper_final.py:173 | the kept elements are exactly those that pass the test |
| Seqs.FilterConcat | scraper_final.py:173 | filtering keeps order: the filter of a concatenation is the concatenation of the filters |
| Materials.FirstReagentBlockAt | scraper_final.py:412-415 | the scan stops at the first block mentioning reagents, and that block is the one chosen |
| Seqs.PresentMembers | scraper_final.py:335-407 | a value is among the present results exactly when some element yields it |
| Text.SearchFrom | scraper_final.py:103 | the leftmost match at or after a position, or None when nothing matches there or later |
| Text.SearchNone | scraper_final.py:103 | the search finds nothing exactly when the pattern matches at no position |
| Text.SearchFirst | scraper_final.py:103 | the search reports the leftmost position where the pattern matches, with that match's groups |
| Text.FirstGroup | scraper_final.py:195-197 | the first group of the leftmost match |
| Text.Contains | scraper_final.py:337-389 | `t in s` holds exactly when t occurs at some position of s |
| Text.FirstDigitRun | scraper_final.py:405-407 | None exactly when there is no digit; otherwise the first maximal digit run |
| Text.DigitsAt | scraper_final.py:103 | `(\d+)` at a position is the maximal digit run there |
| Text.NatToDecimal | scraper_final.py:504-508 | `str(n)`: decimal digits without leading zeros |
| Text.DecimalRoundTrip | scraper_final.py:504-508 | reading the decimal text of n gives back n |
| Text.Strip | scraper_final.py:197 | `strip()`: the text with leading and trailing whitespace (as `str.isspace` defines it) removed, starting and ending in no whitespace |
| Text.TrailingSpaces | scraper_final.py:197 | the count of whitespace characters that end a string |

## Left out

- Browser control is not modelled: driver setup, page loads, waits, scrolling and the `time.sleep` pauses (`scraper_final.py:28-41, 117-136, 310-322`). A listing page is either `TimedOut` or its list of hrefs. An item page is either missing (its `h1` never appeared) or a record.
- HTTP, PIL and TGA conversion are not modelled: the download, image decode, resize, RGBA conversion and TGA save (`scraper_final.py:74-90`). Whether they succeed for a URL is the parameter `fetchOk`; any exception among them gives None, as the code's handler does.
- The directory creation (`scraper_final.py:56`) is not modelled; the store's file set stands for the directory.
- BeautifulSoup traversal (`find`, `find_all`, `find_parent`, `get_text`) is not modelled. Its results are the fields of the `Dom` records, with link texts already stripped.
- Float parsing of pin and waypoint coordinates is the parameter `parseFloat`, which may fail. A coordinate is the text Python prints for the float, and it is written to Lua as that text.
- The regular-expression engine is not modelled. Each pattern the code uses is a `Text.Pattern` case with its own matcher. `\d` and `\w` are their ASCII ranges, not Unicode: a non-ASCII digit or letter is outside them. `\s` is the whitespace of `str.isspace`, as in Python.
- Lower: `str.lower()` is modelled on ASCII letters only. Where the code uses it, in the texture name, sanitising has already replaced every non-ASCII character, since `\w` is ASCII here.
- `Text.SearchFrom`: the leftmost-match rule is as in Python, but backtracking inside a pattern is written out per pattern, not derived from a general regex semantics.
- `LuaEscape.EscapeRoundTrip`: the reader decodes only the single-character escapes the escaper can produce, not the numeric, `\z` or `\u{}` escapes of Lua.
- `main` is not modelled: JSON dumps, the checkpoint every 50 items, the final files, statistics and the keyboard-interrupt handler (`scraper_final.py:571-644`).
- All `print` logging is left out.
- The `vendor_name` and `location` arguments of `download_and_convert_map` are not modelled; the code does not use them.
- The exceptions of `collect_item_urls` are not modelled as exceptions; their effects are. The per-link `except: continue` (`scraper_final.py:148-149`) skips a link whose `href` cannot be read, like a `None` href (`ItemUrls.SightedId`). A page that fails before its link loop (`scraper_final.py:156-158`) adds nothing, so it counts as `TimedOut`.
- `ItemDetails.ItemDetailsSpec`: the outer exception handler of `scrape_item_details` is not modelled. An exception raised after the `h1` appeared would return the record filled so far; inside the model no step raises.
- `LuaDatabase.GenerateLuaDatabase`: `item.get('name', 'Unknown')` and `material.get('quantity', 1)` are modelled with the field always present, since `scrape_item_details` always sets both.
- `LuaDatabase.CollectMaterialIds`: the items are visited in ascending id order, not in the dictionary's insertion order. The resulting set does not depend on the order.
- Items are written in ascending id order because `GenerateLuaDatabase` iterates over `Sorted(items.Keys)`. No separate lemma relates the positions of two entries in the output text.
- Python's integers and Dafny's `nat` are both unbounded, so no width is modelled.
