/**
 * The page content the scraper reads, as plain records.
 *
 * The browser and the HTML parser are not modelled. Each record holds
 * exactly the facts the scraper asks the parsed tree for: texts as
 * `get_text` returns them, attribute values, and the first descendant that
 * matches each of its queries.
 */
module Dom {
  import opened Wrappers

  /** A number that Python's `float()` returned, kept as its `str()` text. */
  datatype Coord = Coord(repr: string)
  {
    /** Python truthiness of the float: only zero is false, and a zero
        float prints as `0.0` or `-0.0`. */
    predicate IsTruthy()
    {
      repr != "0.0" && repr != "-0.0"
    }
  }

  /** A `div.map-pin`: its `data-x` and `data-y` attributes. */
  datatype Pin = Pin(dataX: Option<string>, dataY: Option<string>)

  /** The element around one vendor link, and the answers to the queries
      the vendor parser puts to it. */
  datatype Container = Container(
    text: string,                         // get_text()
    strongText: Option<string>,           // first <strong>, get_text(strip=True)
    currencyLinkText: Option<string>,     // first a[href~/currencies/\d+], its stripped text
    goldImageParentText: Option<string>,  // first img[alt~gold, any case]: get_text() of its parent
    mapImageSrc: Option<string>,          // first img[src~map|location, any case]: its src
    pin: Option<Pin>)                     // first div.map-pin

  /** An `<a>` element. `listItemText` is the text of its nearest `<li>`
      ancestor; `container` is the vendor container located from it
      (nearest `div.mb-3`, else its parent). */
  datatype Anchor = Anchor(
    href: Option<string>,
    text: string,                         // get_text(strip=True)
    listItemText: Option<string>,
    container: Option<Container>)

  /** A `div.mb-3` fact block of an item page. `text` is
      `get_text(separator=' ', strip=True)`, `rawText` is `get_text()`. */
  datatype FactBlock = FactBlock(text: string, rawText: string, anchors: seq<Anchor>)

  /** A loaded item detail page. */
  datatype ItemPage = ItemPage(
    title: Option<string>,                // the <h1>, stripped
    blocks: seq<FactBlock>,               // every div.mb-3, in document order
    reagentList: Option<seq<Anchor>>,     // anchors of the first ul.(list-unstyled|mb-0)
    anchors: seq<Anchor>)                 // every <a> of the page, in document order

  /** One page of the decor listing, as the browser delivered it: either no
      item anchor appeared before the wait timed out (or the page failed to
      load), or the `href` of every anchor whose target contains `/decor/`;
      `None` stands for an anchor whose attribute could not be read. */
  datatype ListingPage = TimedOut | Listing(hrefs: seq<Option<string>>)
}
