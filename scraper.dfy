/** The response mapping of the scheduled scraper (scheduled_scraper.py:41-241):
    the external scraper's decoded JSON response comes in one of four shapes,
    and each becomes a list of listing records, all carrying the query they
    were scraped for. */
module Scraper {
  import opened Wrappers
  import opened Json

  /** One listing record of the scrape result. The dictionary literals name
      `edition`, `year` and `language` twice with the same value; each is one
      field here. */
  datatype ScrapedItem = ScrapedItem(
    rawTitle: Json,
    rawDescription: Json,
    source: Json,
    sourceListingId: Json,
    url: Json,
    currency: Json,
    price: Json,
    endedAt: Json,
    images: Json,
    franchise: Json,
    setName: Json,
    edition: Json,
    number: Json,
    year: Json,
    language: Json,
    gradingCompany: Json,
    grade: Json,
    rarity: Json,
    isHolo: Json,
    tags: Json,
    rawQuery: string,
    categoryGuess: Json,
    title: Json,
    id: Json,
    sold: Json,
    imageUrl: Json,
    shippingPrice: Json,
    totalPrice: Json,
    bids: Json,
    condition: Json,
    canonicalKey: Json,
    setField: Json,   // the field `set`
    grader: Json,
    gradeValue: Json)

  /** The dictionary `scrape` returns; `scrapedAt` is the clock reading it is given. */
  datatype ScrapeResult = ScrapeResult(query: string, items: seq<ScrapedItem>, scrapedAt: string)

  /** `.get` on a list element that is not a dictionary raises; the index is
      that of the first such element. */
  datatype ScrapeError = EntryNotObject(index: nat)

  /** A record the scraper makes up from the query alone (the price-entry,
      price and average formats): source "ebay", currency "USD", the given
      title and price, everything else `None`. */
  function Synthetic(query: string, title: Json, price: Json): ScrapedItem
  {
    ScrapedItem(
      rawTitle := title, rawDescription := JNull, source := JStr("ebay"), sourceListingId := JNull,
      url := JNull, currency := JStr("USD"), price := price, endedAt := JNull, images := JNull,
      franchise := JNull, setName := JNull, edition := JNull, number := JNull, year := JNull,
      language := JNull, gradingCompany := JNull, grade := JNull, rarity := JNull, isHolo := JNull,
      tags := JNull, rawQuery := query, categoryGuess := JNull, title := title, id := JNull,
      sold := JNull, imageUrl := JNull, shippingPrice := JNull, totalPrice := JNull, bids := JNull,
      condition := JNull, canonicalKey := JNull, setField := JNull, grader := JNull, gradeValue := JNull)
  }

  /** The record of one element of `items` (scheduled_scraper.py:48-99). */
  function FromListing(query: string, o: Object): ScrapedItem
  {
    var imageUrl := Get(o, "image_url");
    ScrapedItem(
      rawTitle := GetOr(o, "title", JStr("")),
      rawDescription := Get(o, "description"),
      source := GetOr(o, "source", JStr("ebay")),
      sourceListingId := if Truthy(Get(o, "id")) then Get(o, "id") else Get(o, "source_listing_id"),
      url := Get(o, "url"),
      currency := Get(o, "currency"),
      price := Get(o, "price"),
      endedAt := Get(o, "ended_at"),
      images := if Truthy(imageUrl) then JArr([imageUrl]) else JNull,
      franchise := Get(o, "franchise"),
      setName := Get(o, "set_name"),
      edition := Get(o, "edition"),
      number := Get(o, "number"),
      year := Get(o, "year"),
      language := Get(o, "language"),
      gradingCompany := Get(o, "grading_company"),
      grade := Get(o, "grade"),
      rarity := Get(o, "rarity"),
      isHolo := Get(o, "is_holo"),
      tags := Get(o, "tags"),
      rawQuery := query,
      categoryGuess := Get(o, "category_guess"),
      title := Get(o, "title"),
      id := Get(o, "id"),
      sold := Get(o, "sold"),
      imageUrl := imageUrl,
      shippingPrice := Get(o, "shipping_price"),
      totalPrice := Get(o, "total_price"),
      bids := Get(o, "bids"),
      condition := Get(o, "condition"),
      canonicalKey := Get(o, "canonical_key"),
      setField := Get(o, "set"),
      grader := Get(o, "grader"),
      gradeValue := Get(o, "grade_value"))
  }

  /** The record of one element of `price_entries` (scheduled_scraper.py:105-144). */
  function FromPriceEntry(query: string, o: Object): ScrapedItem
  {
    Synthetic(query, GetOr(o, "title", JStr(query)), Get(o, "price"))
  }

  /** The record of one numeric element of `prices` (scheduled_scraper.py:151-190). */
  function FromPrice(query: string, x: real): ScrapedItem
  {
    Synthetic(query, JStr(query), JFloat(x))
  }

  /** The four response formats the scraper understands, tried in order. */
  datatype Shape =
    | Listings(listings: seq<Json>)
    | PriceEntries(entries: seq<Json>)
    | Prices(prices: seq<Json>)
    | Average(average: Json)
    | Unrecognized

  /** `key in resp and isinstance(resp[key], list)`. */
  predicate HasList(resp: Object, key: string) {
    key in resp && resp[key].JArr?
  }

  /** The `if`/`elif` chain of scheduled_scraper.py:45, 102, 147 and 193. */
  function ShapeOf(resp: Object): (sh: Shape)
    ensures sh.Listings? <==> HasList(resp, "items")
    ensures sh.PriceEntries? <==> !HasList(resp, "items") && HasList(resp, "price_entries")
    ensures sh.Prices? <==>
      !HasList(resp, "items") && !HasList(resp, "price_entries") && HasList(resp, "prices")
    ensures sh.Average? <==>
      !HasList(resp, "items") && !HasList(resp, "price_entries") && !HasList(resp, "prices") &&
      "average" in resp
  {
    if HasList(resp, "items") then Listings(resp["items"].elems)
    else if HasList(resp, "price_entries") then PriceEntries(resp["price_entries"].elems)
    else if HasList(resp, "prices") then Prices(resp["prices"].elems)
    else if "average" in resp then Average(resp["average"])
    else Unrecognized
  }

  /** All elements of `es` are dictionaries. */
  predicate AllObjects(es: seq<Json>) {
    forall i :: 0 <= i < |es| ==> es[i].JObj?
  }

  /** The loop over `items`: one record per element, in order, or the error
      at the first element that is not a dictionary. */
  function MapListings(query: string, es: seq<Json>): (r: Result<seq<ScrapedItem>, ScrapeError>)
    ensures r.Ok? <==> AllObjects(es)
    ensures r.Ok? ==> |r.value| == |es|
    ensures r.Ok? ==> forall i :: 0 <= i < |es| ==> r.value[i] == FromListing(query, es[i].fields)
    ensures r.Err? ==> r.error.index < |es| && !es[r.error.index].JObj? && AllObjects(es[..r.error.index])
    decreases |es|
  {
    if es == [] then Ok([])
    else
      var init := es[..|es| - 1];
      var last := es[|es| - 1];
      assert forall i :: 0 <= i < |init| ==> init[i] == es[i];
      match MapListings(query, init)
      case Err(e) =>
        assert es[..e.index] == init[..e.index];
        Err(e)
      case Ok(items) =>
        if last.JObj? then Ok(items + [FromListing(query, last.fields)])
        else
          assert es[..|es| - 1] == init;
          Err(EntryNotObject(|es| - 1))
  }

  /** The loop over `price_entries`, likewise. */
  function MapPriceEntries(query: string, es: seq<Json>): (r: Result<seq<ScrapedItem>, ScrapeError>)
    ensures r.Ok? <==> AllObjects(es)
    ensures r.Ok? ==> |r.value| == |es|
    ensures r.Ok? ==> forall i :: 0 <= i < |es| ==> r.value[i] == FromPriceEntry(query, es[i].fields)
    ensures r.Err? ==> r.error.index < |es| && !es[r.error.index].JObj? && AllObjects(es[..r.error.index])
    decreases |es|
  {
    if es == [] then Ok([])
    else
      var init := es[..|es| - 1];
      var last := es[|es| - 1];
      assert forall i :: 0 <= i < |init| ==> init[i] == es[i];
      match MapPriceEntries(query, init)
      case Err(e) =>
        assert es[..e.index] == init[..e.index];
        Err(e)
      case Ok(items) =>
        if last.JObj? then Ok(items + [FromPriceEntry(query, last.fields)])
        else
          assert es[..|es| - 1] == init;
          Err(EntryNotObject(|es| - 1))
  }

  /** `float(p)` of the elements of `es` that are numbers, in order. */
  function Numbers(es: seq<Json>): (r: seq<real>)
    ensures |r| <= |es|
    ensures AllNumbers(es) ==> |r| == |es| && forall i :: 0 <= i < |es| ==> r[i] == FloatValue(es[i])
    decreases |es|
  {
    if es == [] then []
    else
      var init := es[..|es| - 1];
      var last := es[|es| - 1];
      assert forall i :: 0 <= i < |init| ==> init[i] == es[i];
      Numbers(init) + (if IsNumber(last) then [FloatValue(last)] else [])
  }

  predicate AllNumbers(es: seq<Json>) {
    forall i :: 0 <= i < |es| ==> IsNumber(es[i])
  }

  /** The loop over `prices`: one record per numeric element, in order, the
      others skipped. The numeric element at `j` gives the record at
      `CountNumeric(es[..j])`, and every record comes from such an element. */
  function MapPrices(query: string, es: seq<Json>): (r: seq<ScrapedItem>)
    ensures |r| == CountNumeric(es)
    ensures forall j :: 0 <= j < |es| && IsNumber(es[j]) ==>
      CountNumeric(es[..j]) < |r| && r[CountNumeric(es[..j])] == FromPrice(query, FloatValue(es[j]))
    ensures forall i :: 0 <= i < |r| ==>
      r[i].price.JFloat? && r[i] == FromPrice(query, r[i].price.f) && NthNumberValue(es, i, r[i].price.f)
  {
    NumbersCount(es);
    NumbersAt(es);
    NumbersFrom(es);
    seq(|Numbers(es)|, i requires 0 <= i < |Numbers(es)| => FromPrice(query, Numbers(es)[i]))
  }

  /** One more element of `prices` adds a record exactly when it is a number. */
  lemma MapPricesStep(query: string, es: seq<Json>, i: nat)
    requires i < |es|
    ensures MapPrices(query, es[..i + 1]) ==
      MapPrices(query, es[..i]) + (if IsNumber(es[i]) then [FromPrice(query, FloatValue(es[i]))] else [])
  {
    assert es[..i + 1][..i] == es[..i];
    assert Numbers(es[..i + 1]) == Numbers(es[..i]) + (if IsNumber(es[i]) then [FloatValue(es[i])] else []);
  }

  /** The record list for a response, or the error `.get` raises. */
  function ScrapeItems(resp: Object, query: string): Result<seq<ScrapedItem>, ScrapeError>
  {
    match ShapeOf(resp)
    case Listings(es) => MapListings(query, es)
    case PriceEntries(es) => MapPriceEntries(query, es)
    case Prices(es) => Ok(MapPrices(query, es))
    case Average(v) => Ok([Synthetic(query, JStr(query), v)])
    case Unrecognized => Ok([])
  }

  /** What `scrape` returns for a decoded response `resp`, the query and the
      clock reading `now`. */
  function ScrapeSpec(resp: Object, query: string, now: string): Result<ScrapeResult, ScrapeError>
  {
    match ScrapeItems(resp, query)
    case Ok(items) => Ok(ScrapeResult(query, items, now))
    case Err(e) => Err(e)
  }

  /** The loop of scheduled_scraper.py:46-100. */
  method ListingsLoop(query: string, es: seq<Json>) returns (r: Result<seq<ScrapedItem>, ScrapeError>)
    ensures r == MapListings(query, es)
  {
    var items: seq<ScrapedItem> := [];
    var i := 0;
    while i < |es|
      invariant 0 <= i <= |es|
      invariant MapListings(query, es[..i]) == Ok(items)
    {
      assert es[..i + 1][..i] == es[..i];
      if !es[i].JObj? {
        assert AllObjects(es[..i]);
        return Err(EntryNotObject(i));
      }
      items := items + [FromListing(query, es[i].fields)];
      i := i + 1;
    }
    assert es[..i] == es;
    return Ok(items);
  }

  /** The loop of scheduled_scraper.py:104-145. */
  method PriceEntriesLoop(query: string, es: seq<Json>) returns (r: Result<seq<ScrapedItem>, ScrapeError>)
    ensures r == MapPriceEntries(query, es)
  {
    var items: seq<ScrapedItem> := [];
    var i := 0;
    while i < |es|
      invariant 0 <= i <= |es|
      invariant MapPriceEntries(query, es[..i]) == Ok(items)
    {
      assert es[..i + 1][..i] == es[..i];
      if !es[i].JObj? {
        assert AllObjects(es[..i]);
        return Err(EntryNotObject(i));
      }
      var title := GetOr(es[i].fields, "title", JStr(query));
      items := items + [Synthetic(query, title, Get(es[i].fields, "price"))];
      i := i + 1;
    }
    assert es[..i] == es;
    return Ok(items);
  }

  /** The loop of scheduled_scraper.py:149-191. */
  method PricesLoop(query: string, es: seq<Json>) returns (items: seq<ScrapedItem>)
    ensures items == MapPrices(query, es)
  {
    items := [];
    var i := 0;
    while i < |es|
      invariant 0 <= i <= |es|
      invariant items == MapPrices(query, es[..i])
    {
      MapPricesStep(query, es, i);
      if IsNumber(es[i]) {
        items := items + [FromPrice(query, FloatValue(es[i]))];
      }
      i := i + 1;
    }
    assert es[..i] == es;
  }

  /** The mapping block of `scrape` (scheduled_scraper.py:41-241). */
  method Scrape(resp: Object, query: string, now: string) returns (r: Result<ScrapeResult, ScrapeError>)
    ensures r == ScrapeSpec(resp, query, now)
  {
    var items: seq<ScrapedItem> := [];
    if "items" in resp && resp["items"].JArr? {
      var res := ListingsLoop(query, resp["items"].elems);
      if res.Err? {
        return Err(res.error);
      }
      items := res.value;
    } else if "price_entries" in resp && resp["price_entries"].JArr? {
      var res := PriceEntriesLoop(query, resp["price_entries"].elems);
      if res.Err? {
        return Err(res.error);
      }
      items := res.value;
    } else if "prices" in resp && resp["prices"].JArr? {
      items := PricesLoop(query, resp["prices"].elems);
    } else if "average" in resp {
      items := [Synthetic(query, JStr(query), Get(resp, "average"))];
    }
    return Ok(ScrapeResult(query, items, now));
  }

  // ---------------------------------------------------------------------
  // Properties of the mapping
  // ---------------------------------------------------------------------

  /** The result carries the query it was given and the clock reading, and
      every record of it carries the query as `raw_query`. */
  lemma ScrapeCarriesQuery(resp: Object, query: string, now: string)
    requires ScrapeSpec(resp, query, now).Ok?
    ensures ScrapeSpec(resp, query, now).value.query == query
    ensures ScrapeSpec(resp, query, now).value.scrapedAt == now
    ensures forall i :: 0 <= i < |ScrapeSpec(resp, query, now).value.items| ==>
      ScrapeSpec(resp, query, now).value.items[i].rawQuery == query
  {
  }

  /** A listing record: `raw_query` is the query; the source defaults to
      "ebay" only when the key is absent; the listing id is `id` when that is
      truthy and `source_listing_id` otherwise; `images` wraps a truthy
      `image_url` and is `None` otherwise; `raw_title` defaults to "" while
      `title` is `None` when the key is absent. */
  lemma ListingFields(query: string, o: Object)
    ensures var it := FromListing(query, o);
      it.rawQuery == query &&
      ("source" in o ==> it.source == o["source"]) && ("source" !in o ==> it.source == JStr("ebay")) &&
      (Truthy(Get(o, "id")) ==> it.sourceListingId == o["id"]) &&
      (!Truthy(Get(o, "id")) ==> it.sourceListingId == Get(o, "source_listing_id")) &&
      (Truthy(Get(o, "image_url")) ==> it.images == JArr([o["image_url"]])) &&
      (!Truthy(Get(o, "image_url")) ==> it.images == JNull) &&
      ("title" in o ==> it.rawTitle == o["title"] && it.title == o["title"]) &&
      ("title" !in o ==> it.rawTitle == JStr("") && it.title == JNull)
  {
  }

  /** A price-entry record: the title defaults to the query, source "ebay",
      currency "USD", no url and no id, the price copied from the entry. */
  lemma PriceEntryFields(query: string, o: Object)
    ensures var it := FromPriceEntry(query, o);
      it.rawQuery == query && it.title == it.rawTitle &&
      ("title" in o ==> it.title == o["title"]) && ("title" !in o ==> it.title == JStr(query)) &&
      it.source == JStr("ebay") && it.currency == JStr("USD") &&
      it.url == JNull && it.id == JNull && it.sourceListingId == JNull &&
      it.price == Get(o, "price")
  {
  }

  /** How many elements of `es` are numbers, counted from the front. */
  function CountNumeric(es: seq<Json>): nat
  {
    if es == [] then 0 else (if IsNumber(es[0]) then 1 else 0) + CountNumeric(es[1..])
  }

  /** The element at `j` is a number, and the `i`-th number of `es`, counted from 0. */
  predicate NthNumber(es: seq<Json>, j: int, i: int) {
    0 <= j < |es| && IsNumber(es[j]) && CountNumeric(es[..j]) == i
  }

  /** `v` is `float` of the `i`-th numeric element of `es`. */
  ghost predicate NthNumberValue(es: seq<Json>, i: int, v: real) {
    exists j :: NthNumber(es, j, i) && v == FloatValue(es[j])
  }

  lemma {:induction false} CountNumericSnoc(es: seq<Json>, x: Json)
    ensures CountNumeric(es + [x]) == CountNumeric(es) + (if IsNumber(x) then 1 else 0)
    decreases |es|
  {
    if es == [] {
      assert [x][1..] == [];
    } else {
      assert (es + [x])[1..] == es[1..] + [x];
      CountNumericSnoc(es[1..], x);
    }
  }

  lemma {:induction false} NumbersCount(es: seq<Json>)
    ensures |Numbers(es)| == CountNumeric(es)
    decreases |es|
  {
    if es != [] {
      var init := es[..|es| - 1];
      NumbersCount(init);
      CountNumericSnoc(init, es[|es| - 1]);
      assert init + [es[|es| - 1]] == es;
    }
  }

  /** Every numeric element of `es` is kept: the one at `j` comes out at
      position `CountNumeric(es[..j])`, the number of numeric elements
      before it. */
  lemma {:induction false} NumbersAt(es: seq<Json>)
    ensures forall j :: 0 <= j < |es| && IsNumber(es[j]) ==>
      CountNumeric(es[..j]) < |Numbers(es)| && Numbers(es)[CountNumeric(es[..j])] == FloatValue(es[j])
    decreases |es|
  {
    if es != [] {
      var init := es[..|es| - 1];
      var x := es[|es| - 1];
      NumbersAt(init);
      NumbersCount(init);
      assert Numbers(es) == Numbers(init) + (if IsNumber(x) then [FloatValue(x)] else []);
      forall j | 0 <= j < |es| && IsNumber(es[j])
        ensures CountNumeric(es[..j]) < |Numbers(es)| && Numbers(es)[CountNumeric(es[..j])] == FloatValue(es[j])
      {
        if j < |init| {
          assert es[..j] == init[..j];
          assert es[j] == init[j];
        } else {
          assert es[..j] == init;
        }
      }
    }
  }

  /** Nothing but numeric elements is kept: each value that comes out is
      the `i`-th numeric element of `es`. */
  lemma {:induction false} NumbersFrom(es: seq<Json>)
    ensures forall i :: 0 <= i < |Numbers(es)| ==> NthNumberValue(es, i, Numbers(es)[i])
    decreases |es|
  {
    if es != [] {
      var init := es[..|es| - 1];
      var x := es[|es| - 1];
      var ns := Numbers(init);
      NumbersFrom(init);
      NumbersCount(init);
      assert Numbers(es) == ns + (if IsNumber(x) then [FloatValue(x)] else []);
      forall i | 0 <= i < |Numbers(es)|
        ensures NthNumberValue(es, i, Numbers(es)[i])
      {
        if i < |ns| {
          assert ns[i] == Numbers(init)[i];
          assert NthNumberValue(init, i, ns[i]);
          var j :| NthNumber(init, j, i) && ns[i] == FloatValue(init[j]);
          assert es[..j] == init[..j];
          assert es[j] == init[j];
          assert NthNumber(es, j, i);
        } else {
          assert es[..|init|] == init;
          assert NthNumber(es, |init|, i) && Numbers(es)[i] == FloatValue(es[|init|]);
        }
      }
    }
  }

  /** The prices format gives one record per numeric element, in order,
      each priced as that number and titled with the query; elements that
      are not numbers give none. */
  lemma PricesCount(resp: Object, query: string, now: string)
    requires ShapeOf(resp).Prices?
    ensures ScrapeSpec(resp, query, now).Ok?
    ensures var es := resp["prices"].elems;
      var items := ScrapeSpec(resp, query, now).value.items;
      |items| == CountNumeric(es) &&
      (forall j :: 0 <= j < |es| && IsNumber(es[j]) ==>
        CountNumeric(es[..j]) < |items| &&
        items[CountNumeric(es[..j])].price == JFloat(FloatValue(es[j]))) &&
      (forall i :: 0 <= i < |items| ==> items[i].price.JFloat? && items[i].title == JStr(query))
  {
  }

  /** The average format gives exactly one record, priced at the average. */
  lemma AverageGivesOne(resp: Object, query: string, now: string)
    requires ShapeOf(resp).Average?
    ensures ScrapeSpec(resp, query, now).Ok?
    ensures var items := ScrapeSpec(resp, query, now).value.items;
      |items| == 1 && items[0].price == resp["average"] && items[0].title == JStr(query) &&
      items[0].source == JStr("ebay") && items[0].currency == JStr("USD")
  {
  }

  /** A response in none of the four formats gives no records. */
  lemma UnrecognizedGivesNone(resp: Object, query: string, now: string)
    requires ShapeOf(resp).Unrecognized?
    ensures ScrapeSpec(resp, query, now) == Ok(ScrapeResult(query, [], now))
  {
  }

  /** Precedence: a list under "items" decides the result whatever else the
      response holds, and so does a list under "price_entries" when there is
      no list under "items". */
  lemma ListFormatsWin(resp: Object, es: seq<Json>, query: string)
    ensures ScrapeItems(resp["items" := JArr(es)], query) == MapListings(query, es)
    ensures !HasList(resp, "items") ==>
      ScrapeItems(resp["price_entries" := JArr(es)], query) == MapPriceEntries(query, es)
  {
    if !HasList(resp, "items") {
      assert !HasList(resp["price_entries" := JArr(es)], "items");
    }
  }

  /** The list formats: the listings and price-entry formats give one record
      per element, in order, and fail exactly when an element is not a
      dictionary. */
  lemma ListFormatsCount(resp: Object, query: string, now: string)
    requires ShapeOf(resp).Listings? || ShapeOf(resp).PriceEntries?
    ensures var es := if ShapeOf(resp).Listings? then resp["items"].elems else resp["price_entries"].elems;
      (ScrapeSpec(resp, query, now).Ok? <==> AllObjects(es)) &&
      (ScrapeSpec(resp, query, now).Ok? ==> |ScrapeSpec(resp, query, now).value.items| == |es|)
  {
  }
}
