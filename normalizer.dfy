/** The card-title normalizer (normalizer.py): parsing a listing title into
    hints, the card name, the canonical key, the confidence scores and the
    assembly of a normalized item. */
module Normalizer {
  import opened Wrappers
  import opened Text
  import opened Json
  import opened Tables
  import opened Lookup
  import opened Scanners

  /** `ParsedHints` (normalizer.py:10-30); every field but `franchise` may be absent. */
  datatype ParsedHints = ParsedHints(
    setName: Option<string>,
    edition: Option<string>,
    number: Option<string>,
    year: Option<int>,
    gradingCompany: Option<string>,
    grade: Option<string>,
    isHolo: Option<bool>,
    franchise: string,
    canonicalKey: Option<string>,
    rarity: Option<string>,
    tags: Option<seq<Json>>,
    sold: Option<bool>,
    setField: Option<string>,   // the field `set`
    language: Option<string>,
    grader: Option<string>,
    gradeValue: Option<int>)

  /** `ParsedHints()`: the defaults of the dataclass. */
  const NoHints := ParsedHints(None, None, None, None, None, None, None, "pokemon",
                               None, None, None, None, None, None, None, None)

  /** Python truthiness of an optional string. */
  predicate Present(o: Option<string>) { o.Some? && o.value != "" }

  /** A `CardNormalizer` after construction: its three reverse lookups. */
  datatype CardNormalizer = CardNormalizer(setLookup: Dict, gradingLookup: Dict, editionLookup: Dict)

  /** The normalizer whose lookups are built from the given tables. */
  function FromTables(sets: Table, grading: Table, editions: Table): CardNormalizer
  {
    CardNormalizer(BuildLookup(sets), BuildLookup(grading), BuildLookup(editions))
  }

  /** The module-level `normalizer` instance, built from the constant tables. */
  const Default := FromTables(PokemonSets, GradingCompanies, Editions)

  /** `CardNormalizer.__init__` (normalizer.py:199-214). */
  method NewCardNormalizer() returns (n: CardNormalizer)
    ensures n == Default
  {
    var setLookup := ReverseLookup(PokemonSets);
    var gradingLookup := ReverseLookup(GradingCompanies);
    var editionLookup := ReverseLookup(Editions);
    n := CardNormalizer(setLookup, gradingLookup, editionLookup);
  }

  // ---------------------------------------------------------------------
  // parse_title
  // ---------------------------------------------------------------------

  /** The canonical name of the first variant of `d` that occurs in `s`. */
  function MatchedName(d: Dict, s: string): Option<string>
  {
    match FirstMatch(d, s)
    case Some(i) => Some(d[i].1)
    case None => None
  }

  /** The grade of a title: the digits after the first grading variant found,
      when that variant is somewhere followed by digits. */
  function MatchedGrade(d: Dict, s: string): Option<string>
  {
    match FirstMatch(d, s)
    case Some(i) => FindGrade(s, d[i].0)
    case None => None
  }

  /** `parse_title` (normalizer.py:216-260). The lookups are searched in the
      lower-cased title, the year and the number in the title as given. */
  function Parse(n: CardNormalizer, title: string): ParsedHints
  {
    if title == "" then NoHints
    else
      var low := Lower(title);
      NoHints.(
        setName := MatchedName(n.setLookup, low),
        edition := MatchedName(n.editionLookup, low),
        gradingCompany := MatchedName(n.gradingLookup, low),
        grade := MatchedGrade(n.gradingLookup, low),
        year := FindYear(title),
        number := FindNumber(title),
        isHolo := Some(HasHoloIndicator(low)))
  }

  /** `parse_title` as the source runs it: three search loops with `break`,
      then the regular-expression searches and the holo check. */
  method ParseTitle(n: CardNormalizer, title: string) returns (hints: ParsedHints)
    ensures hints == Parse(n, title)
  {
    if title == "" {
      return NoHints;
    }
    var low := Lower(title);
    hints := NoHints;
    var s := FindFirstVariant(n.setLookup, low);
    if s.Some? {
      hints := hints.(setName := Some(n.setLookup[s.value].1));
    }
    var e := FindFirstVariant(n.editionLookup, low);
    if e.Some? {
      hints := hints.(edition := Some(n.editionLookup[e.value].1));
    }
    var g := FindFirstVariant(n.gradingLookup, low);
    if g.Some? {
      var (variant, canonical) := n.gradingLookup[g.value];
      hints := hints.(gradingCompany := Some(canonical));
      var grade := FindGrade(low, variant);
      if grade.Some? {
        hints := hints.(grade := grade);
      }
    }
    hints := hints.(year := FindYear(title), number := FindNumber(title));
    hints := hints.(isHolo := Some(HasHoloIndicator(low)));
  }

  /** An empty title yields the defaults: nothing found, not even the holo
      flag, and the franchise "pokemon". */
  lemma EmptyTitle(n: CardNormalizer)
    ensures var h := Parse(n, "");
      h.setName.None? && h.edition.None? && h.number.None? && h.year.None? &&
      h.gradingCompany.None? && h.grade.None? && h.isHolo.None? && h.franchise == "pokemon"
  {
  }

  /** For a non-empty title the holo flag is always set, and it is true
      exactly when "holo" occurs in the lower-cased title. */
  lemma HoloFlag(n: CardNormalizer, title: string)
    requires title != ""
    ensures Parse(n, title).isHolo == Some(Contains(Lower(title), "holo"))
    ensures Parse(n, title).isHolo == Some(exists i :: 0 <= i < |HoloIndicators| && Contains(Lower(title), HoloIndicators[i]))
  {
    HoloIndicatorIsHolo(Lower(title));
  }

  /** `r` is what the first-match search of `BuildLookup(t)` gives for `s`,
      stated on the table: absent exactly when no listed variant occurs in
      `s`; otherwise the canonical name that lists last the first listed
      variant occurring in `s` (Python's last write wins). */
  ghost predicate FirstVariantMatch(t: Table, s: string, r: Option<string>) {
    (r.None? <==> forall a, b :: Listed(t, a, b) ==> !Contains(s, Lower(t[a].1[b]))) &&
    (r.Some? ==> exists a, b :: FirstOccurring(t, s, a, b) && ListsLast(t, (Lower(t[a].1[b]), r.value)))
  }

  /** The search of a reverse lookup finds the first listed variant of its table. */
  lemma MatchedNameIsFirst(t: Table, s: string)
    ensures FirstVariantMatch(t, s, MatchedName(BuildLookup(t), s))
  {
    var d := BuildLookup(t);
    FirstMatchListed(t, s);
    BuildLookupLast(t);
    match FirstMatch(d, s)
    case Some(i) =>
      var a, b :| FirstOccurring(t, s, a, b) && d[i].0 == Lower(t[a].1[b]);
      assert ListsLast(t, d[i]);
    case None =>
  }

  /** First match wins: the set name, the edition and the grading company of
      a non-empty title each come from the first variant of their table that
      occurs in the lower-cased title, and are absent when none occurs. */
  lemma FirstMatchWins(sets: Table, grading: Table, editions: Table, title: string)
    requires title != ""
    ensures var h := Parse(FromTables(sets, grading, editions), title);
      FirstVariantMatch(sets, Lower(title), h.setName) &&
      FirstVariantMatch(editions, Lower(title), h.edition) &&
      FirstVariantMatch(grading, Lower(title), h.gradingCompany)
  {
    MatchedNameIsFirst(sets, Lower(title));
    MatchedNameIsFirst(editions, Lower(title));
    MatchedNameIsFirst(grading, Lower(title));
  }

  /** Every listing of the lower-cased variant `k` in `t` is under the canonical name `c`. */
  predicate ListedOnlyUnder(t: Table, k: string, c: string) {
    forall a, b :: 0 <= a < |t| && 0 <= b < |t[a].1| && Lower(t[a].1[b]) == k ==> t[a].0 == c
  }

  lemma ListedOnlyUnderAppend(t: Table, u: Table, k: string, c: string)
    requires ListedOnlyUnder(t, k, c) && ListedOnlyUnder(u, k, c)
    ensures ListedOnlyUnder(t + u, k, c)
  {
    forall a, b | 0 <= a < |t + u| && 0 <= b < |(t + u)[a].1| && Lower((t + u)[a].1[b]) == k
      ensures (t + u)[a].0 == c
    {
      if a >= |t| { assert (t + u)[a] == u[a - |t|]; }
    }
  }

  // One check per constant, so that each stays small.
  lemma BaseInWizardsSets() ensures ListedOnlyUnder(WizardsSets, "base", "base set") {}
  lemma BaseInExSets() ensures ListedOnlyUnder(ExSets, "base", "base set") {}
  lemma BaseInDiamondPearlSets() ensures ListedOnlyUnder(DiamondPearlSets, "base", "base set") {}
  lemma BaseInHeartGoldSets() ensures ListedOnlyUnder(HeartGoldSets, "base", "base set") { assert Lower("hgss")[0] == 'h'; }
  lemma BaseInBlackWhiteSets() ensures ListedOnlyUnder(BlackWhiteSets, "base", "base set") {}
  lemma BaseInXYSets() ensures ListedOnlyUnder(XYSets, "base", "base set") {}
  lemma BaseInSunMoonSets() ensures ListedOnlyUnder(SunMoonSets, "base", "base set") {}
  lemma BaseInSwordShieldSets() ensures ListedOnlyUnder(SwordShieldSets, "base", "base set") {}
  lemma BaseInScarletVioletSets() ensures ListedOnlyUnder(ScarletVioletSets, "base", "base set") {}

  /** "base", the first variant of the set table, is listed under "base set" only. */
  lemma BaseListedOnce()
    ensures ListedOnlyUnder(PokemonSets, "base", "base set")
  {
    BaseInWizardsSets();
    BaseInExSets();
    BaseInDiamondPearlSets();
    BaseInHeartGoldSets();
    BaseInBlackWhiteSets();
    BaseInXYSets();
    BaseInSunMoonSets();
    BaseInSwordShieldSets();
    BaseInScarletVioletSets();
    var t := WizardsSets;
    ListedOnlyUnderAppend(t, ExSets, "base", "base set");
    t := t + ExSets;
    ListedOnlyUnderAppend(t, DiamondPearlSets, "base", "base set");
    t := t + DiamondPearlSets;
    ListedOnlyUnderAppend(t, HeartGoldSets, "base", "base set");
    t := t + HeartGoldSets;
    ListedOnlyUnderAppend(t, BlackWhiteSets, "base", "base set");
    t := t + BlackWhiteSets;
    ListedOnlyUnderAppend(t, XYSets, "base", "base set");
    t := t + XYSets;
    ListedOnlyUnderAppend(t, SunMoonSets, "base", "base set");
    t := t + SunMoonSets;
    ListedOnlyUnderAppend(t, SwordShieldSets, "base", "base set");
    t := t + SwordShieldSets;
    ListedOnlyUnderAppend(t, ScarletVioletSets, "base", "base set");
  }

  /** "base" is listed first among all set variants, and only under "base
      set", so any title containing "base" gets the set "base set". */
  lemma BaseMeansBaseSet(title: string)
    requires Contains(Lower(title), "base")
    ensures Parse(Default, title).setName == Some("base set")
  {
    var s := Lower(title);
    var t := PokemonSets;
    assert title != "";
    assert t[0] == ("base set", ["base", "base set", "base set unlimited"]);
    assert Lower(t[0].1[0]) == "base";
    MatchedNameIsFirst(t, s);
    var r := MatchedName(BuildLookup(t), s);
    assert Parse(Default, title).setName == r;
    assert r.Some?;
    var a, b :| FirstOccurring(t, s, a, b) && ListsLast(t, (Lower(t[a].1[b]), r.value));
    assert a == 0 && b == 0;
    var a2, b2 :| LastListing(t, a2, b2, "base") && t[a2].0 == r.value;
    BaseListedOnce();
  }

  /** The variants of the first five editions, none of which starts with "n". */
  lemma EarlyEditionVariants()
    ensures forall a, b :: 0 <= a < 5 && 0 <= b < |Editions[a].1| ==>
      Editions[a].1[b] != [] && Editions[a].1[b][0] != 'n' && !IsUpper(Editions[a].1[b][0])
  {
  }

  /** The keys the first five editions put in the edition lookup start with
      something other than "n". */
  lemma EarlyEditionKeys()
    ensures forall k :: 0 <= k < |BuildLookup(Editions[..5])| ==>
      BuildLookup(Editions[..5])[k].0 != [] && BuildLookup(Editions[..5])[k].0[0] != 'n'
  {
    var t := Editions[..5];
    var d := BuildLookup(t);
    BuildLookupSound(t);
    EarlyEditionVariants();
    forall k | 0 <= k < |d| ensures d[k].0 != [] && d[k].0[0] != 'n' {
      var a, b :| 0 <= a < |t| && 0 <= b < |t[a].1| && t[a].0 == d[k].1 && Lower(t[a].1[b]) == d[k].0;
      assert t[a] == Editions[a];
    }
  }

  /** The variants of "non-holo", lower-cased, start with "n" and contain "holo". */
  lemma NonHoloVariants()
    ensures forall b :: 0 <= b < |Editions[5].1| ==>
      Lower(Editions[5].1[b]) != [] && Lower(Editions[5].1[b])[0] == 'n' &&
      Contains(Lower(Editions[5].1[b]), "holo")
  {
    assert Lower("non-holo") == "non-holo";
    assert Lower("non holo") == "non holo";
    assert Lower("non-holographic") == "non-holographic";
    assert StartsAt("non-holo", 4, "holo");
    assert StartsAt("non holo", 4, "holo");
    assert StartsAt("non-holographic", 4, "holo");
  }

  /** A canonical name listed last in its table, and nowhere earlier, is never
      found when each of its variants is new to the lookup and contains one
      variant `h` listed earlier: the search reaches `h` first. */
  lemma {:induction false} LastCanonicalShadowed(t: Table, c: string, vs: seq<string>, s: string, h: string)
    requires |t| >= 1 && t[|t| - 1] == (c, vs)
    requires forall a :: 0 <= a < |t| - 1 ==> t[a].0 != c
    requires HasKey(BuildLookup(t[..|t| - 1]), h)
    requires forall b :: 0 <= b < |vs| ==>
      !HasKey(BuildLookup(t[..|t| - 1]), Lower(vs[b])) && Contains(Lower(vs[b]), h)
    ensures MatchedName(BuildLookup(t), s) != Some(c)
  {
    var p := BuildLookup(t[..|t| - 1]);
    var d := BuildLookup(t);
    assert d == PutVariants(p, c, vs);
    var i :| 0 <= i < |p| && p[i].0 == h;
    PutVariantsKeeps(p, c, vs);
    BuildLookupSound(t);
    match FirstMatch(d, s)
    case None =>
    case Some(j) =>
      if d[j].1 == c {
        var a, b :| 0 <= a < |t| && 0 <= b < |t[a].1| && t[a].0 == c && Lower(t[a].1[b]) == d[j].0;
        assert a == |t| - 1;
        assert j >= |p|;
        Shadowed(d, s, i, j);
      }
  }

  /** The search of the edition lookup never ends at a variant of
      "non-holo": each of them contains "holo", a variant of the earlier
      edition "holo". */
  lemma {:induction false} NonHoloShadowed(s: string)
    ensures MatchedName(BuildLookup(Editions), s) != Some("non-holo")
  {
    var prefix := Editions[..5];
    var vs := Editions[5].1;
    var p := BuildLookup(prefix);
    assert |Editions| == 6 && Editions[5] == ("non-holo", vs);
    assert Editions[..|Editions| - 1] == prefix;
    assert HasKey(p, "holo") by {
      assert Lower("holo") == "holo";
      BuildLookupComplete(prefix);
      assert prefix[4].1[0] == "holo";
    }
    EarlyEditionKeys();
    NonHoloVariants();
    forall b | 0 <= b < |vs| ensures !HasKey(p, Lower(vs[b])) {
      forall k | 0 <= k < |p| ensures p[k].0 != Lower(vs[b]) {
        assert p[k].0[0] != 'n';
      }
    }
    LastCanonicalShadowed(Editions, "non-holo", vs, s, "holo");
  }

  /** The edition "non-holo" is never reported, whatever the title: the
      search of the edition lookup always stops at "holo" or an earlier
      variant before it reaches a variant of "non-holo". */
  lemma NonHoloNeverDetected(title: string)
    ensures Parse(Default, title).edition != Some("non-holo")
  {
    if title != "" {
      NonHoloShadowed(Lower(title));
    }
  }

  /** A title that says "non-holo" is flagged as holo. */
  lemma NonHoloTitleIsHolo(n: CardNormalizer, title: string)
    requires Contains(Lower(title), "non-holo")
    ensures Parse(n, title).isHolo == Some(true)
  {
    assert StartsAt("non-holo", 4, "holo");
    ContainsTransitive(Lower(title), "non-holo", "holo");
    HoloFlag(n, title);
  }

  /** The numeric fields: a grade is only found with a grading company and is
      a run of digits written after that company's variant; a year lies in
      1980..2029; a number is one to three digits that no word character
      touches, the first such token of the title. */
  lemma NumericFields(n: CardNormalizer, title: string)
    ensures var h := Parse(n, title);
      (h.grade.Some? ==> h.gradingCompany.Some? && h.grade.value != "" && AllDigits(h.grade.value)) &&
      (h.year.Some? ==> 1980 <= h.year.value <= 2029) &&
      (h.number.Some? ==>
         1 <= |h.number.value| <= 3 && AllDigits(h.number.value) &&
         exists q :: 0 <= q <= |title| && NumberToken(title, q, h.number.value))
  {
    if title != "" {
      FindNumberIsFirstToken(title);
    }
  }

  // ---------------------------------------------------------------------
  // _extract_card_name
  // ---------------------------------------------------------------------

  /** The words `_extract_card_name` deletes from the title (normalizer.py:319). */
  const CommonWords: seq<string> := ["pokemon", "card", "trading", "game", "holo", "holographic", "1st", "edition", "unlimited"]

  /** A character a card name may hold: a lower-case letter, a digit, `_` or a space. */
  predicate NameChar(c: char) { IsLower(c) || IsDigit(c) || c == '_' || c == ' ' }

  /** Delete each of `words` in turn. */
  function RemoveWords(s: string, words: seq<string>): (r: string)
    ensures forall c :: c in r ==> c in s
    decreases |words|
  {
    if words == [] then s else Remove(RemoveWords(s, words[..|words| - 1]), words[|words| - 1])
  }

  /** The title after the deletions, before the clean-up. */
  function StrippedTitle(title: string, setName: Option<string>): (r: string)
    ensures forall c :: c in r ==> !IsUpper(c)
  {
    var low := Lower(title);
    var noSet := if Present(setName) then Remove(low, Lower(setName.value)) else low;
    var r := RemoveWords(noSet, CommonWords);
    assert forall c :: c in r ==> c in low;
    r
  }

  /** The clean-up: whitespace runs collapsed, the ends stripped, then every
      character that is neither a word character nor whitespace deleted. */
  function CleanUp(s: string): (r: string)
    requires forall c :: c in s ==> !IsUpper(c)
    ensures forall c :: c in r ==> NameChar(c)
  {
    var collapsed := CollapseSpace(s);
    var stripped := Strip(collapsed);
    var r := KeepWordAndSpace(stripped);
    assert forall c :: c in r ==> c in collapsed && (IsWordChar(c) || IsSpace(c));
    r
  }

  /** `_extract_card_name` (normalizer.py:308-330). The result is never
      empty: "unknown" stands for an empty title or an empty cleaned name;
      otherwise it holds only lower-case letters, digits, `_` and spaces, and
      so never a `|`. */
  function CardName(title: string, setName: Option<string>): (r: string)
    ensures r != ""
    ensures forall c :: c in r ==> NameChar(c)
    ensures title == "" ==> r == "unknown"
    ensures title != "" && CleanUp(StrippedTitle(title, setName)) != "" ==> r == CleanUp(StrippedTitle(title, setName))
    ensures title != "" && CleanUp(StrippedTitle(title, setName)) == "" ==> r == "unknown"
  {
    if title == "" then "unknown"
    else
      var cleaned := CleanUp(StrippedTitle(title, setName));
      if cleaned == "" then "unknown" else cleaned
  }

  /** `_extract_card_name` as the source runs it, rebinding the working title
      once per common word. */
  method ExtractCardName(title: string, setName: Option<string>) returns (name: string)
    ensures name == CardName(title, setName)
  {
    if title == "" {
      return "unknown";
    }
    var clean := Lower(title);
    if setName.Some? && setName.value != "" {
      clean := Remove(clean, Lower(setName.value));
    }
    ghost var start := clean;
    var i := 0;
    while i < |CommonWords|
      invariant 0 <= i <= |CommonWords|
      invariant clean == RemoveWords(start, CommonWords[..i])
    {
      assert CommonWords[..i + 1][..i] == CommonWords[..i];
      clean := Remove(clean, CommonWords[i]);
      i := i + 1;
    }
    assert CommonWords[..i] == CommonWords;
    assert clean == StrippedTitle(title, setName);
    clean := CleanUp(clean);
    if clean == "" {
      return "unknown";
    }
    return clean;
  }

  // ---------------------------------------------------------------------
  // generate_canonical_key
  // ---------------------------------------------------------------------

  /** `s.lower().replace(" ", "_")`. */
  function Underscored(s: string): string
  {
    ReplaceChar(Lower(s), ' ', '_')
  }

  /** The eight parts of `generate_canonical_key` (normalizer.py:262-306),
      given the card name extracted from the title. */
  function KeySegments(name: string, p: ParsedHints): seq<string>
  {
    [ "pokemon",
      if Present(p.setName) then Underscored(p.setName.value) else "unknown_set",
      Underscored(name),
      if Present(p.edition) then Underscored(p.edition.value) else "unknown_edition",
      if Present(p.number) then p.number.value else "unknown_number",
      if p.year.Some? && p.year.value != 0 then IntToString(p.year.value) else "unknown_year",
      if Present(p.gradingCompany) then Lower(p.gradingCompany.value) else "ungraded",
      if Present(p.grade) then p.grade.value else "ungraded" ]
  }

  /** `generate_canonical_key`: the parts joined with `|`. */
  function CanonicalKey(title: string, p: ParsedHints): string
  {
    Join('|', KeySegments(CardName(title, p.setName), p))
  }

  /** None of the text fields the key uses holds a `|`. */
  predicate KeySafe(p: ParsedHints) {
    (Present(p.setName) ==> '|' !in p.setName.value) &&
    (Present(p.edition) ==> '|' !in p.edition.value) &&
    (Present(p.number) ==> '|' !in p.number.value) &&
    (Present(p.gradingCompany) ==> '|' !in p.gradingCompany.value) &&
    (Present(p.grade) ==> '|' !in p.grade.value)
  }

  lemma LowerKeepsBar(s: string)
    ensures '|' in Lower(s) <==> '|' in s
  {
    if '|' in Lower(s) {
      var i :| 0 <= i < |s| && Lower(s)[i] == '|';
    }
    if '|' in s {
      var i :| 0 <= i < |s| && s[i] == '|';
      assert Lower(s)[i] == '|';
    }
  }

  lemma UnderscoredKeepsBar(s: string)
    ensures '|' in Underscored(s) <==> '|' in s
    ensures |Underscored(s)| == |s|
  {
    LowerKeepsBar(s);
    var u := Underscored(s);
    if '|' in u {
      var i :| 0 <= i < |u| && u[i] == '|';
      assert Lower(s)[i] == '|';
    }
    if '|' in Lower(s) {
      var i :| 0 <= i < |s| && Lower(s)[i] == '|';
      assert u[i] == '|';
    }
  }

  /** A present name, once underscored, is a safe key part when it holds no `|`. */
  lemma UnderscoredSafe(s: string)
    requires s != [] && '|' !in s
    ensures SegmentSafe(Underscored(s))
  {
    UnderscoredKeepsBar(s);
  }

  lemma CardNameSafe(title: string, setName: Option<string>)
    ensures SegmentSafe(CardName(title, setName))
  {
    assert !NameChar('|');
  }

  lemma YearPartSafe(y: int)
    ensures SegmentSafe(IntToString(y))
  {
    var r := IntToString(y);
    assert forall k :: 0 <= k < |r| ==> r[k] != '|';
  }

  lemma LowerSafe(s: string)
    requires s != [] && '|' !in s
    ensures SegmentSafe(Lower(s))
  {
    LowerKeepsBar(s);
  }

  lemma PlaceholdersSafe()
    ensures SegmentSafe("pokemon") && SegmentSafe("unknown_set") && SegmentSafe("unknown_edition")
    ensures SegmentSafe("unknown_number") && SegmentSafe("unknown_year") && SegmentSafe("ungraded")
  {
  }

  /** Each of the eight parts is non-empty and free of `|`. */
  lemma {:induction false} SegmentsSafe(name: string, p: ParsedHints)
    requires SegmentSafe(name) && KeySafe(p)
    ensures |KeySegments(name, p)| == 8
    ensures forall k :: 0 <= k < 8 ==> SegmentSafe(KeySegments(name, p)[k])
  {
    PlaceholdersSafe();
    if Present(p.setName) { UnderscoredSafe(p.setName.value); }
    UnderscoredSafe(name);
    if Present(p.edition) { UnderscoredSafe(p.edition.value); }
    if p.year.Some? { YearPartSafe(p.year.value); }
    if Present(p.gradingCompany) { LowerSafe(p.gradingCompany.value); }
  }

  /** The key shape for a given card name: as long as the name and the
      hints hold no `|`, the joined parts split at `|` into exactly the
      eight parts, none of them empty, the first "pokemon", each missing
      field replaced by its fixed placeholder. */
  lemma SegmentsSplit(name: string, p: ParsedHints)
    requires SegmentSafe(name) && KeySafe(p)
    ensures var parts := Split(Join('|', KeySegments(name, p)), '|');
      parts == KeySegments(name, p) && |parts| == 8 && parts[0] == "pokemon" &&
      (forall k :: 0 <= k < 8 ==> parts[k] != "") &&
      (!Present(p.setName) ==> parts[1] == "unknown_set") &&
      (!Present(p.edition) ==> parts[3] == "unknown_edition") &&
      (!Present(p.number) ==> parts[4] == "unknown_number") &&
      (p.year.None? ==> parts[5] == "unknown_year") &&
      (!Present(p.gradingCompany) ==> parts[6] == "ungraded") &&
      (!Present(p.grade) ==> parts[7] == "ungraded")
  {
    SegmentsSafe(name, p);
    SplitJoin('|', KeySegments(name, p));
  }

  /** The key shape: as long as the hints hold no `|`, the key splits at `|`
      into exactly its eight parts, none of them empty, the first "pokemon",
      each missing field replaced by its fixed placeholder. */
  lemma {:induction false} KeyShape(title: string, p: ParsedHints)
    requires KeySafe(p)
    ensures var parts := Split(CanonicalKey(title, p), '|');
      parts == KeySegments(CardName(title, p.setName), p) && |parts| == 8 && parts[0] == "pokemon" &&
      (forall k :: 0 <= k < 8 ==> parts[k] != "") &&
      (!Present(p.setName) ==> parts[1] == "unknown_set") &&
      (!Present(p.edition) ==> parts[3] == "unknown_edition") &&
      (!Present(p.number) ==> parts[4] == "unknown_number") &&
      (p.year.None? ==> parts[5] == "unknown_year") &&
      (!Present(p.gradingCompany) ==> parts[6] == "ungraded") &&
      (!Present(p.grade) ==> parts[7] == "ungraded")
  {
    CardNameSafe(title, p.setName);
    SegmentsSplit(CardName(title, p.setName), p);
  }

  lemma DigitsHaveNoBar(s: string)
    requires AllDigits(s)
    ensures '|' !in s
  {
    assert forall k :: 0 <= k < |s| ==> s[k] != '|';
  }

  /** What a parse can hold is segment-safe as long as its tables' canonical
      names are. */
  lemma ParsedKeySafe(sets: Table, grading: Table, editions: Table, title: string)
    requires NamesSegmentSafe(sets) && NamesSegmentSafe(grading) && NamesSegmentSafe(editions)
    ensures KeySafe(Parse(FromTables(sets, grading, editions), title))
  {
    if title != "" {
      var h := Parse(FromTables(sets, grading, editions), title);
      FirstMatchWins(sets, grading, editions, title);
      NumericFields(FromTables(sets, grading, editions), title);
      if h.number.Some? { DigitsHaveNoBar(h.number.value); }
      if h.grade.Some? { DigitsHaveNoBar(h.grade.value); }
    }
  }

  /** For the source's own tables, every title's key has exactly eight
      non-empty `|`-separated parts, the first "pokemon". */
  lemma DefaultKeyShape(title: string)
    ensures var parts := Split(CanonicalKey(title, Parse(Default, title)), '|');
      |parts| == 8 && parts[0] == "pokemon" && forall k :: 0 <= k < 8 ==> parts[k] != ""
  {
    TablesSegmentSafe();
    ParsedKeySafe(PokemonSets, GradingCompanies, Editions, title);
    KeyShape(title, Parse(Default, title));
  }

  // ---------------------------------------------------------------------
  // compute_confidence
  // ---------------------------------------------------------------------

  /** The scores of `compute_confidence`, as reals. */
  datatype Confidence = Confidence(titleParse: real, overall: real)

  /** How many of set name, edition, grading company and grade are present. */
  function ExtractedFields(p: ParsedHints): (k: nat)
    ensures k <= 4
  {
    (if Present(p.setName) then 1 else 0) + (if Present(p.edition) then 1 else 0) +
    (if Present(p.gradingCompany) then 1 else 0) + (if Present(p.grade) then 1 else 0)
  }

  /** `compute_confidence` (normalizer.py:332-357): nothing for an empty
      title; otherwise the fraction of the four fields present, and an overall
      score that maps it affinely onto [0.2, 1]. */
  function ComputeConfidence(title: string, p: ParsedHints): (c: Confidence)
    ensures 0.0 <= c.titleParse <= 1.0 && 0.0 <= c.overall <= 1.0
    ensures title == "" ==> c == Confidence(0.0, 0.0)
    ensures title != "" ==> 0.2 <= c.overall && c.titleParse * 4.0 == ExtractedFields(p) as real
  {
    if title == "" then Confidence(0.0, 0.0)
    else
      var tp := ExtractedFields(p) as real / 4.0;
      Confidence(tp, tp * 0.8 + 0.2)
  }

  /** The scores rank titles by fields found: for non-empty titles, more
      fields give strictly higher scores, and the same number the same. */
  lemma ConfidenceOrder(t1: string, p1: ParsedHints, t2: string, p2: ParsedHints)
    requires t1 != "" && t2 != ""
    ensures ExtractedFields(p1) < ExtractedFields(p2) <==>
      ComputeConfidence(t1, p1).titleParse < ComputeConfidence(t2, p2).titleParse
    ensures ComputeConfidence(t1, p1).titleParse < ComputeConfidence(t2, p2).titleParse <==>
      ComputeConfidence(t1, p1).overall < ComputeConfidence(t2, p2).overall
  {
  }

  /** The extremes: a non-empty title scores 1 exactly when all four fields
      are present and 0 (overall 0.2) exactly when none is. */
  lemma ConfidenceExtremes(title: string, p: ParsedHints)
    requires title != ""
    ensures ComputeConfidence(title, p).titleParse == 1.0 <==>
      Present(p.setName) && Present(p.edition) && Present(p.gradingCompany) && Present(p.grade)
    ensures ComputeConfidence(title, p).titleParse == 0.0 <==>
      !Present(p.setName) && !Present(p.edition) && !Present(p.gradingCompany) && !Present(p.grade)
    ensures ComputeConfidence(title, p).titleParse == 0.0 <==> ComputeConfidence(title, p).overall == 0.2
  {
  }

  // ---------------------------------------------------------------------
  // normalize_item
  // ---------------------------------------------------------------------

  /** `NormalizedItem` (normalizer.py:32-57); `title` keeps the value found
      in the input, the other pass-through fields too. */
  datatype NormalizedItem = NormalizedItem(
    title: Json,
    canonicalKey: string,
    confidence: Confidence,
    parsed: ParsedHints,
    url: Json,
    price: Json,
    currency: Json,
    endedAt: Json,
    id: Json,
    source: Json,
    rarity: Json,
    gradingCompany: Json,
    grade: Json,
    tags: Json,
    sold: Json,
    setField: Json,   // the field `set`
    edition: Json,
    year: Json,
    language: Json,
    grader: Json,
    gradeValue: Json)

  /** `title.lower()` fails on a truthy title that is not a string. */
  datatype NormalizeError = TitleNotText(title: Json)

  /** The text the parser works on: a string as it is, and any falsy value as
      the empty title (`not title` holds for it); none for any other value. */
  function TitleText(v: Json): Option<string>
  {
    if v.JStr? then Some(v.s)
    else if !Truthy(v) then Some("")
    else None
  }

  /** `normalize_item` (normalizer.py:359-411). */
  function NormalizeItem(n: CardNormalizer, item: Object): (r: Result<NormalizedItem, NormalizeError>)
    ensures r.Err? <==> TitleText(GetOr(item, "title", JStr(""))).None?
    ensures r.Ok? ==>
      var t := TitleText(GetOr(item, "title", JStr(""))).value;
      r.value.parsed == Parse(n, t) &&
      r.value.canonicalKey == CanonicalKey(t, Parse(n, t)) &&
      r.value.confidence == ComputeConfidence(t, Parse(n, t))
  {
    var title := GetOr(item, "title", JStr(""));
    match TitleText(title)
    case None => Err(TitleNotText(title))
    case Some(t) =>
      var parsed := Parse(n, t);
      Ok(NormalizedItem(
        title := title,
        canonicalKey := CanonicalKey(t, parsed),
        confidence := ComputeConfidence(t, parsed),
        parsed := parsed,
        url := Get(item, "url"),
        price := Get(item, "price"),
        currency := GetOr(item, "currency", JStr("USD")),
        endedAt := Get(item, "ended_at"),
        id := Get(item, "id"),
        source := GetOr(item, "source", JStr("ebay")),
        rarity := Get(item, "rarity"),
        gradingCompany := Get(item, "grading_company"),
        grade := Get(item, "grade"),
        tags := Get(item, "tags"),
        sold := Get(item, "sold"),
        setField := Get(item, "set"),
        edition := Get(item, "edition"),
        year := Get(item, "year"),
        language := Get(item, "language"),
        grader := Get(item, "grader"),
        gradeValue := Get(item, "grade_value")))
  }

  /** Assembly: `currency` and `source` take the input's value when the key
      is present and default to "USD" and "ebay" only when it is absent; the
      title is kept as given; the grading company and the grade come from the
      input, never from the parse. */
  lemma NormalizeItemDefaults(n: CardNormalizer, item: Object)
    requires NormalizeItem(n, item).Ok?
    ensures var it := NormalizeItem(n, item).value;
      ("currency" in item ==> it.currency == item["currency"]) &&
      ("currency" !in item ==> it.currency == JStr("USD")) &&
      ("source" in item ==> it.source == item["source"]) &&
      ("source" !in item ==> it.source == JStr("ebay")) &&
      ("title" in item ==> it.title == item["title"]) &&
      ("title" !in item ==> it.title == JStr(""))
  {
  }

  /** Assembly: every other field is copied from the input under its key,
      and is `None` when the key is absent. */
  lemma NormalizeItemCopies(n: CardNormalizer, item: Object)
    requires NormalizeItem(n, item).Ok?
    ensures var it := NormalizeItem(n, item).value;
      it.url == Get(item, "url") && it.price == Get(item, "price") &&
      it.endedAt == Get(item, "ended_at") && it.id == Get(item, "id") &&
      it.rarity == Get(item, "rarity") && it.gradingCompany == Get(item, "grading_company") &&
      it.grade == Get(item, "grade") && it.tags == Get(item, "tags") &&
      it.sold == Get(item, "sold") && it.setField == Get(item, "set") &&
      it.edition == Get(item, "edition") && it.year == Get(item, "year") &&
      it.language == Get(item, "language") && it.grader == Get(item, "grader") &&
      it.gradeValue == Get(item, "grade_value")
  {
  }

  /** Only the title feeds the parse: two items with the same title get the
      same key, scores and hints, whatever else they hold. */
  lemma NormalizeDependsOnTitleOnly(n: CardNormalizer, a: Object, b: Object)
    requires GetOr(a, "title", JStr("")) == GetOr(b, "title", JStr(""))
    requires NormalizeItem(n, a).Ok?
    ensures NormalizeItem(n, b).Ok?
    ensures NormalizeItem(n, a).value.canonicalKey == NormalizeItem(n, b).value.canonicalKey
    ensures NormalizeItem(n, a).value.parsed == NormalizeItem(n, b).value.parsed
    ensures NormalizeItem(n, a).value.confidence == NormalizeItem(n, b).value.confidence
  {
  }

  /** With the source's tables, every normalized item's key has eight
      non-empty `|`-separated parts, the first "pokemon". */
  lemma NormalizedKeyShape(item: Object)
    requires NormalizeItem(Default, item).Ok?
    ensures var parts := Split(NormalizeItem(Default, item).value.canonicalKey, '|');
      |parts| == 8 && parts[0] == "pokemon" && forall k :: 0 <= k < 8 ==> parts[k] != ""
  {
    DefaultKeyShape(TitleText(GetOr(item, "title", JStr(""))).value);
  }

  lemma UnderscoredUnknown()
    ensures Underscored("unknown") == "unknown"
  {
    assert Lower("unknown") == "unknown";
  }

  /** An item without a title is parsed, keyed and scored as the empty title:
      no hints, the card name "unknown" and zero scores. */
  lemma MissingTitle(n: CardNormalizer, item: Object)
    requires "title" !in item
    ensures NormalizeItem(n, item).Ok?
    ensures NormalizeItem(n, item).value.parsed == NoHints
    ensures NormalizeItem(n, item).value.confidence == Confidence(0.0, 0.0)
    ensures Split(NormalizeItem(n, item).value.canonicalKey, '|') ==
      ["pokemon", "unknown_set", "unknown", "unknown_edition", "unknown_number", "unknown_year", "ungraded", "ungraded"]
  {
    UnderscoredUnknown();
    KeyShape("", NoHints);
  }
}
