# Trading-card listing normalizer and scraper mapping, in Dafny

This project models the core of a service that collects Pokémon trading-card
listings (from eBay and similar sources) and prepares them for de-duplication.
It covers two parts of that service.

- **The card normalizer** (`normalizer.py`). It builds three reverse lookups
  from constant tables (sets, grading companies, editions). It parses a
  listing title into hints: set, edition, grading company and grade, year,
  card number and holo flag. It extracts a card name and builds the
  `|`-separated canonical key. It scores how much of the title it
  understood, and assembles a normalized item from a raw listing
  dictionary.
- **The scraper's response mapping** (`scheduled_scraper.py`). The external
  scraper answers in one of four JSON shapes: a list of listings, a list of
  price entries, a list of bare prices, or an average price. Each shape is
  turned into a list of listing records. Every record carries the query it
  was scraped for.

Module layout:

| file | module | contents |
|---|---|---|
| `wrappers.dfy` | `Wrappers` | `Option`, `Result` |
| `json.dfy` | `Json` | decoded JSON values, `dict.get`, truthiness, `isinstance(x, (int, float))` |
| `text.dfy` | `Text` | ASCII character classes, `lower`, `replace`, `strip`, `re.sub` clean-ups, `join`/`split`, `str(int)`, `int(str)` |
| `tables.dfy` | `Tables` | the three constant tables, copied entry by entry |
| `lookup.dfy` | `Lookup` | insertion-ordered dictionaries, `__init__`'s lookup construction, the first-match search loop |
| `scanners.dfy` | `Scanners` | the three regular-expression searches and the holo check of `parse_title` |
| `normalizer.dfy` | `Normalizer` | `ParsedHints`, `parse_title`, `_extract_card_name`, `generate_canonical_key`, `compute_confidence`, `normalize_item` |
| `scraper.dfy` | `Scraper` | the shape dispatch and item mapping of `scrape` |

Each loop of the source is a method with loop invariants. The method is proved
equal to a specification function, and the properties are proved as lemmas
about that function. This holds for:

- the nested loops of `__init__`;
- the three search loops with `break` in `parse_title`;
- the common-word loop of `_extract_card_name`;
- the three append loops of `scrape`.

A Python dictionary that is built by insertion and then iterated is a sequence
of pairs. Assigning to a present key keeps its position and replaces the
value; assigning to a new key appends it. The search order of `parse_title`
follows from this.

## Model

| member | source | states |
|---|---|---|
| Lookup.Put | normalizer.py:204 | `d[k] = v`: a present key keeps its position and takes the new value, an absent key is appended, every other entry is unchanged |
| Lookup.ReverseLookup | normalizer.py:199-214 | the nested loops of `__init__` build exactly the lookup `BuildLookup` of the table |
| Lookup.BuildLookupDistinct | normalizer.py:199-214 | every reverse lookup holds each variant key once |
| Lookup.BuildLookupSound | normalizer.py:199-214 | every entry of a reverse lookup maps a lower-cased variant to a canonical name that lists that variant |
| Lookup.BuildLookupComplete | normalizer.py:199-214 | every variant of the table, lower-cased, is a key of its reverse lookup |
| Lookup.BuildLookupOrder | normalizer.py:199-214 | every key of a reverse lookup is a listed variant, and the keys stand in the order in which the table first lists them, entry by entry and variant by variant |
| Lookup.BuildLookupLast | normalizer.py:199-214 | the value of each key is the canonical name of the last listing of that variant in the table: the last write wins |
| Lookup.FirstMatchListed | normalizer.py:225-228 | the search of a reverse lookup finds nothing exactly when no listed variant occurs, and otherwise stops at the key of the first listed variant, in declaration order, that occurs |
| Lookup.FirstMatchFrom | normalizer.py:225-228 | the search returns the first key, in dictionary order, that occurs in the string, and none exactly when no key occurs |
| Lookup.FindFirstVariant | normalizer.py:225-244 | the loop with `break` returns what the first-match search specifies |
| Lookup.Shadowed | normalizer.py:225-244 | a key containing an earlier key is never the first match |
| Tables.TablesSegmentSafe | normalizer.py:63-197 | no canonical name in the three tables is empty or holds a bar character |
| Scanners.GradeFromIsLeftmost | normalizer.py:241-243 | the grade is a non-empty run of digits written after the variant and optional whitespace, taken at the leftmost such match |
| Scanners.YearFrom | normalizer.py:247-249 | a year found lies in 1980..2029 |
| Scanners.YearFromIsLeftmost | normalizer.py:247-249 | the year is read from the leftmost `19[89]d` or `20[0-2]d` standing between word boundaries, and there is none exactly when the title has no such match |
| Scanners.NumberLengthAtComplete | normalizer.py:252 | trying three, two, then one digits finds every one-to-three-digit token at a position |
| Scanners.FindNumberIsFirstToken | normalizer.py:252-254 | the number is the first one-to-three-digit token no word character touches; there is none exactly when the title has no such token |
| Scanners.HoloIndicatorIsHolo | normalizer.py:257-258 | the indicator check holds exactly when "holo" occurs in the lower-cased title |
| Normalizer.NewCardNormalizer | normalizer.py:199-214 | construction builds the three reverse lookups of the constant tables |
| Normalizer.ParseTitle | normalizer.py:216-260 | the parser with its three search loops computes `Parse` |
| Normalizer.EmptyTitle | normalizer.py:218-219 | an empty title gives no hints at all, not even the holo flag, and the franchise "pokemon" |
| Normalizer.HoloFlag | normalizer.py:256-258 | for a non-empty title the holo flag is always set, and is true exactly when an indicator (equivalently "holo") occurs in the lower-cased title |
| Normalizer.MatchedNameIsFirst | normalizer.py:225-228 | a lookup search finds a name exactly when some variant of the table occurs; the name is the one that lists last the first listed variant, in declaration order, that occurs |
| Normalizer.FirstMatchWins | normalizer.py:224-244 | set name, edition and grading company each come from the first variant of their table, in declaration order, that occurs in the lower-cased title, and are absent when none occurs |
| Normalizer.BaseMeansBaseSet | normalizer.py:63-228 | with the source's tables, any title containing "base" gets the set "base set", because "base" is the first set variant listed and is listed only there |
| Normalizer.LastCanonicalShadowed | normalizer.py:225-234 | a canonical name listed last, and nowhere earlier, is never found when each of its variants is new to the lookup and contains one variant `h` listed earlier, because the search reaches `h` first |
| Normalizer.NonHoloNeverDetected | normalizer.py:190-197 | with the source's tables, the edition "non-holo" is never reported, because each of its variants contains "holo" and "holo" is searched first |
| Normalizer.NonHoloTitleIsHolo | normalizer.py:256-258 | a title saying "non-holo" gets the holo flag true |
| Normalizer.NumericFields | normalizer.py:236-254 | a grade exists only with a grading company and is all digits; a year lies in 1980..2029; a number is one to three digits and a token of the title |
| Normalizer.StrippedTitle | normalizer.py:313-321 | after the set-name and common-word deletions no upper-case letter remains |
| Normalizer.CleanUp | normalizer.py:323-325 | after the clean-up only lower-case letters, digits, `_` and spaces remain |
| Normalizer.CardName | normalizer.py:308-330 | the card name is never empty; it is "unknown" for an empty title or an empty clean-up, otherwise the cleaned title, and holds no bar character |
| Normalizer.ExtractCardName | normalizer.py:308-330 | the method with its common-word loop computes `CardName` |
| Normalizer.SegmentsSafe | normalizer.py:264-304 | the eight key parts are non-empty and free of the bar character when the hints are |
| Normalizer.KeyShape | normalizer.py:262-306 | the key splits at the bar character back into its eight parts, the first "pokemon", each missing field replaced by its placeholder |
| Normalizer.ParsedKeySafe | normalizer.py:216-260 | hints parsed with tables whose names are free of the bar character are free of the bar character |
| Normalizer.DefaultKeyShape | normalizer.py:262-306 | with the source's tables every title's key has exactly eight non-empty parts, the first "pokemon" |
| Normalizer.ExtractedFields | normalizer.py:340-350 | at most four fields count |
| Normalizer.ComputeConfidence | normalizer.py:332-357 | zero scores for an empty title; otherwise `title_parse` is the count of present fields over 4, and `overall` lies in [0.2, 1] |
| Normalizer.ConfidenceOrder | normalizer.py:352-355 | for non-empty titles, more fields found give strictly higher scores in both measures |
| Normalizer.ConfidenceExtremes | normalizer.py:352-355 | `title_parse` is 1 exactly when all four fields are present, 0 exactly when none is, and 0 exactly when `overall` is 0.2 |
| Normalizer.NormalizeItem | normalizer.py:359-411 | fails exactly on a truthy non-string title; otherwise the hints, key and scores come from the title's text |
| Normalizer.NormalizeItemDefaults | normalizer.py:361-394 | currency and source default to "USD" and "ebay" only when their key is absent; the title is kept as given |
| Normalizer.NormalizeItemCopies | normalizer.py:373-411 | every other field is the input's value under its key, or `None` when the key is absent; grading company and grade come from the input |
| Normalizer.NormalizeDependsOnTitleOnly | normalizer.py:361-370 | two items with the same title get the same hints, key and scores |
| Normalizer.NormalizedKeyShape | normalizer.py:359-411 | with the source's tables every normalized item's key has eight non-empty parts, the first "pokemon" |
| Normalizer.MissingTitle | normalizer.py:361-370 | an item without a title gets no hints, zero scores and the key of the empty title, card name "unknown" |
| Scraper.ShapeOf | scheduled_scraper.py:45-193 | a list under "items" is taken first, then one under "price_entries", then one under "prices", then an "average" key |
| Scraper.MapListings | scheduled_scraper.py:46-100 | one record per listing, in order; fails exactly when some listing is not an object, at the first such one |
| Scraper.MapPriceEntries | scheduled_scraper.py:104-145 | one record per price entry, in order; fails exactly when some entry is not an object, at the first such one |
| Scraper.MapPrices | scheduled_scraper.py:149-191 | as many records as numeric elements; the numeric element at j gives the record at position `CountNumeric(es[..j])`, priced at its float value; every record comes from such an element |
| Scraper.ListingsLoop | scheduled_scraper.py:46-100 | the append loop computes `MapListings` |
| Scraper.PriceEntriesLoop | scheduled_scraper.py:104-145 | the append loop computes `MapPriceEntries` |
| Scraper.PricesLoop | scheduled_scraper.py:149-191 | the filtering append loop computes `MapPrices` |
| Scraper.Scrape | scheduled_scraper.py:41-241 | the mapping block computes `ScrapeSpec` |
| Scraper.ScrapeCarriesQuery | scheduled_scraper.py:237-241 | the result carries the query and the clock reading, and every record's `raw_query` is the query |
| Scraper.ListingFields | scheduled_scraper.py:48-99 | source defaults to "ebay" only when absent; the listing id is `id` when truthy, else `source_listing_id`; `images` wraps a truthy `image_url`; `raw_title` defaults to "" |
| Scraper.PriceEntryFields | scheduled_scraper.py:105-144 | the title defaults to the query; source "ebay", currency "USD", no url, no id; the price is copied |
| Scraper.NumbersCount | scheduled_scraper.py:149-150 | the numeric prices are exactly as many as the elements that are numbers |
| Scraper.NumbersAt | scheduled_scraper.py:149-150 | every numeric element is kept, in order: the one at j comes out after the numeric elements before it |
| Scraper.NumbersFrom | scheduled_scraper.py:149-150 | nothing else is kept: the i-th value is the float of the i-th numeric element |
| Scraper.PricesCount | scheduled_scraper.py:147-191 | the prices format gives as many records as there are numeric elements, in order, each priced at its element's float value and titled with the query |
| Scraper.AverageGivesOne | scheduled_scraper.py:193-235 | the average format gives exactly one record, priced at the average |
| Scraper.UnrecognizedGivesNone | scheduled_scraper.py:42-241 | a response in none of the formats gives an empty list |
| Scraper.ListFormatsWin | scheduled_scraper.py:45-102 | a list under "items" decides the result whatever else the response holds; without one, a list under "price_entries" does |
| Scraper.ListFormatsCount | scheduled_scraper.py:45-145 | the list formats succeed exactly when every element is an object, and then give one record per element |

## Left out

- The HTTP request, `raise_for_status` and the JSON decoding of the response in `scrape` are not modelled. The model starts from the decoded response, which it takes to be a JSON object. A top-level list or scalar is not modelled.
- The `SCRAPER_BASE_URL` configuration check is not modelled.
- `now_iso()` is a clock reading, so `Scrape` takes it as a parameter.
- `post_to_edge_function`, the scheduling loop, sleeping and the other scripts of the repository are not part of this model. They do I/O and concurrency only.
- Character classes use ASCII semantics:
  - `\w`, `\d` and `\s` in the regular expressions, `str.lower()` and `str.strip()` are modelled on ASCII characters only. Whitespace is the ASCII set Python uses: space, tab, line feed, carriage return, form feed, vertical tab and U+001C..U+001F. Python applies Unicode rules to non-ASCII letters, digits and spaces, which the model does not.
  - Scanners.GradeFromIsLeftmost, Scanners.YearFromIsLeftmost, Scanners.FindNumberIsFirstToken: their statements hold for these ASCII classes, which is weaker than Python on non-ASCII titles.
- Floats are modelled as real numbers, with no rounding.
  - Normalizer.ComputeConfidence: the scores are exact reals. In Python, `0.8 * x + 0.2` is rounded to the nearest float.
  - Scraper.MapPrices: `float(p)` of an integer is exact here. Python rounds it, and raises for integers too large for a float.
- A call that raises in Python is a `Result` error here:
  - `Normalizer.NormalizeItem` fails on a title that is truthy but not a string, where `title.lower()` raises.
  - `Scraper.MapListings` and `Scraper.MapPriceEntries` fail on a list element that is not an object, where `.get` raises.
  - The error records only where the failure happened, not Python's exception type.
- `NormalizedItem.confidence` is a pair of reals, not a dictionary with the keys `title_parse` and `overall`.
- The dictionary built in `scrape` repeats `edition`, `year` and `language` with the same value. For each, the record has one field.
