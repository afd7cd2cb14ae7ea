/** Hand-written scanners for the three regular-expression searches of the
    title parser (normalizer.py:241, 247, 252) and its holo keyword check
    (normalizer.py:257-258). Each search returns the match at the leftmost
    position where the pattern matches, as `re.search` does. */
module Scanners {
  import opened Wrappers
  import opened Text

  /** The first position at or after `i` that does not hold whitespace. */
  function SkipSpace(s: string, i: nat): (j: nat)
    requires i <= |s|
    ensures i <= j <= |s|
    ensures forall k :: i <= k < j ==> IsSpace(s[k])
    ensures j == |s| || !IsSpace(s[j])
    decreases |s| - i
  {
    if i < |s| && IsSpace(s[i]) then SkipSpace(s, i + 1) else i
  }

  /** The first position at or after `i` that does not hold a digit. */
  function SkipDigits(s: string, i: nat): (j: nat)
    requires i <= |s|
    ensures i <= j <= |s|
    ensures AllDigits(s[i..j])
    ensures j == |s| || !IsDigit(s[j])
    decreases |s| - i
  {
    if i < |s| && IsDigit(s[i]) then SkipDigits(s, i + 1) else i
  }

  // ---------------------------------------------------------------------
  // The grade: re.search(re.escape(v) + r'\s*(\d+)', s).group(1)
  // ---------------------------------------------------------------------

  /** The pattern matched at position `p`: `v` occurs there and is followed by
      optional whitespace and at least one digit; the group is the whole run of
      digits. (A shorter run of whitespace never helps `\s*`, since the next
      character must be a digit.) */
  function GradeAt(s: string, v: string, p: nat): (r: Option<string>)
    requires p <= |s|
    ensures r.Some? ==> StartsAt(s, p, v)
    ensures r.Some? ==> r.value != [] && AllDigits(r.value)
  {
    if !StartsAt(s, p, v) then None
    else
      var j := SkipSpace(s, p + |v|);
      var e := SkipDigits(s, j);
      if j < e then Some(s[j..e]) else None
  }

  /** The match at the leftmost position at or after `p` where there is one. */
  function GradeFrom(s: string, v: string, p: nat): (r: Option<string>)
    requires p <= |s|
    ensures r.Some? ==> r.value != [] && AllDigits(r.value)
    decreases |s| - p
  {
    match GradeAt(s, v, p)
    case Some(g) => Some(g)
    case None => if p == |s| then None else GradeFrom(s, v, p + 1)
  }

  /** `GradeFrom` is the leftmost match: the pattern matches there and at no
      earlier position, and there is none exactly when it matches nowhere. */
  lemma {:induction false} GradeFromIsLeftmost(s: string, v: string, p: nat)
    requires p <= |s|
    ensures GradeFrom(s, v, p).Some? ==>
      exists q :: p <= q <= |s| && GradeAt(s, v, q) == GradeFrom(s, v, p) &&
        forall q' :: p <= q' < q ==> GradeAt(s, v, q').None?
    ensures GradeFrom(s, v, p).None? ==> forall q :: p <= q <= |s| ==> GradeAt(s, v, q).None?
    decreases |s| - p
  {
    if GradeAt(s, v, p).Some? {
      assert GradeAt(s, v, p) == GradeFrom(s, v, p);
    } else if p < |s| {
      GradeFromIsLeftmost(s, v, p + 1);
      if GradeFrom(s, v, p).Some? {
        var q :| p + 1 <= q <= |s| && GradeAt(s, v, q) == GradeFrom(s, v, p + 1) &&
          forall q' :: p + 1 <= q' < q ==> GradeAt(s, v, q').None?;
        assert forall q' :: p <= q' < q ==> GradeAt(s, v, q').None?;
      }
    }
  }

  /** The grade written after the grading-company variant `v` in `s`. */
  function FindGrade(s: string, v: string): Option<string>
  {
    GradeFrom(s, v, 0)
  }

  // ---------------------------------------------------------------------
  // Word boundaries
  // ---------------------------------------------------------------------

  /** `\b` just before a word character at position `p`. */
  predicate BoundaryBefore(s: string, p: nat)
    requires p <= |s|
  {
    p == 0 || !IsWordChar(s[p - 1])
  }

  /** `\b` just after a word character ending at position `e`. */
  predicate BoundaryAfter(s: string, e: nat)
    requires e <= |s|
  {
    e == |s| || !IsWordChar(s[e])
  }

  // ---------------------------------------------------------------------
  // The year: re.search(r'\b(19[89]\d|20[0-2]\d)\b', s)
  // ---------------------------------------------------------------------

  /** `19[89]\d|20[0-2]\d`. */
  predicate YearText(y: string) {
    |y| == 4 && AllDigits(y) &&
    ((y[0] == '1' && y[1] == '9' && (y[2] == '8' || y[2] == '9')) ||
     (y[0] == '2' && y[1] == '0' && '0' <= y[2] <= '2'))
  }

  /** The pattern, with its word boundaries, matches at position `p`. */
  predicate YearAt(s: string, p: nat) {
    p + 4 <= |s| && BoundaryBefore(s, p) && YearText(s[p..p + 4]) && BoundaryAfter(s, p + 4)
  }

  lemma YearTextValue(y: string)
    requires YearText(y)
    ensures 1980 <= DigitsValue(y) <= 2029
  {
    assert y[..3][..2][..1][..0] == [];
    assert DigitsValue(y[..1]) == y[0] as int - '0' as int;
    assert DigitsValue(y[..2]) == DigitsValue(y[..2][..1]) * 10 + (y[1] as int - '0' as int);
    assert y[..2][..1] == y[..1] && y[..3][..2] == y[..2] && y[..4] == y;
  }

  /** The year of the leftmost match at or after position `p`. */
  function YearFrom(s: string, p: nat): (r: Option<int>)
    requires p <= |s|
    ensures r.Some? ==> 1980 <= r.value <= 2029
    decreases |s| - p
  {
    if YearAt(s, p) then
      YearTextValue(s[p..p + 4]);
      Some(DigitsValue(s[p..p + 4]))
    else if p == |s| then None
    else YearFrom(s, p + 1)
  }

  /** `YearFrom` reads the leftmost match, and there is none exactly when the
      pattern matches nowhere. */
  lemma {:induction false} YearFromIsLeftmost(s: string, p: nat)
    requires p <= |s|
    ensures YearFrom(s, p).Some? ==>
      exists q :: p <= q <= |s| && YearAt(s, q) && YearFrom(s, p).value == DigitsValue(s[q..q + 4]) &&
        forall q' :: p <= q' < q ==> !YearAt(s, q')
    ensures YearFrom(s, p).None? ==> forall q :: p <= q <= |s| ==> !YearAt(s, q)
    decreases |s| - p
  {
    if !YearAt(s, p) && p < |s| {
      YearFromIsLeftmost(s, p + 1);
      if YearFrom(s, p).Some? {
        var q :| p + 1 <= q <= |s| && YearAt(s, q) && YearFrom(s, p + 1).value == DigitsValue(s[q..q + 4]) &&
          forall q' :: p + 1 <= q' < q ==> !YearAt(s, q');
        assert forall q' :: p <= q' < q ==> !YearAt(s, q');
      }
    }
  }

  /** `int(...)` of the first plausible release year in `s`. */
  function FindYear(s: string): Option<int>
  {
    YearFrom(s, 0)
  }

  // ---------------------------------------------------------------------
  // The card number: re.search(r'\b(\d{1,3})\b', s)
  // ---------------------------------------------------------------------

  /** `k` digits from position `p`, then a word boundary. */
  predicate DigitsThenBoundary(s: string, p: nat, k: nat) {
    p + k <= |s| && AllDigits(s[p..p + k]) && BoundaryAfter(s, p + k)
  }

  /** A token of one to three digits at position `q`, with no word character
      right before or right after it. */
  predicate NumberToken(s: string, q: nat, t: string) {
    1 <= |t| <= 3 && StartsAt(s, q, t) && AllDigits(t) && BoundaryBefore(s, q) && BoundaryAfter(s, q + |t|)
  }

  /** The regex engine at position `p`: `\b`, then `\d{1,3}` tried greedily
      (three digits, then two, then one), then `\b`. */
  function NumberLengthAt(s: string, p: nat): (r: Option<nat>)
    requires p <= |s|
    ensures r.Some? ==> p + r.value <= |s| && NumberToken(s, p, s[p..p + r.value])
  {
    if !BoundaryBefore(s, p) then None
    else if DigitsThenBoundary(s, p, 3) then Some(3)
    else if DigitsThenBoundary(s, p, 2) then Some(2)
    else if DigitsThenBoundary(s, p, 1) then Some(1)
    else None
  }

  /** The greedy backtracking finds every token there is: a token at `q` is
      the one `NumberLengthAt` returns. */
  lemma NumberLengthAtComplete(s: string, q: nat, t: string)
    requires q <= |s| && NumberToken(s, q, t)
    ensures NumberLengthAt(s, q) == Some(|t|)
  {
    assert s[q..q + |t|] == t;
    forall k | |t| < k <= 3 ensures !DigitsThenBoundary(s, q, k) {
      if q + k <= |s| { assert s[q..q + k][|t|] == s[q + |t|]; }
    }
    forall k | 1 <= k < |t| ensures !DigitsThenBoundary(s, q, k) {
      assert s[q + k] == t[k];
    }
  }

  /** The token of the leftmost match at or after position `p`. */
  function NumberFrom(s: string, p: nat): (r: Option<string>)
    requires p <= |s|
    decreases |s| - p
  {
    match NumberLengthAt(s, p)
    case Some(k) => Some(s[p..p + k])
    case None => if p == |s| then None else NumberFrom(s, p + 1)
  }

  /** `NumberFrom` is a token at the leftmost position where the engine
      matches, and there is none exactly when it matches nowhere. */
  lemma {:induction false} NumberFromIsLeftmost(s: string, p: nat)
    requires p <= |s|
    ensures NumberFrom(s, p).Some? ==>
      exists q :: p <= q <= |s| && NumberToken(s, q, NumberFrom(s, p).value) &&
        forall q' :: p <= q' < q ==> NumberLengthAt(s, q').None?
    ensures NumberFrom(s, p).None? ==> forall q :: p <= q <= |s| ==> NumberLengthAt(s, q).None?
    decreases |s| - p
  {
    if NumberLengthAt(s, p).Some? {
      assert NumberToken(s, p, NumberFrom(s, p).value);
    } else if p < |s| {
      NumberFromIsLeftmost(s, p + 1);
      if NumberFrom(s, p).Some? {
        var q :| p + 1 <= q <= |s| && NumberToken(s, q, NumberFrom(s, p + 1).value) &&
          forall q' :: p + 1 <= q' < q ==> NumberLengthAt(s, q').None?;
        assert forall q' :: p <= q' < q ==> NumberLengthAt(s, q').None?;
      }
    }
  }

  /** The first one-to-three-digit token of `s`. */
  function FindNumber(s: string): Option<string>
  {
    NumberFrom(s, 0)
  }

  /** The number found is the first token of one to three digits in `s` that
      no word character touches, and there is none when `s` has no such token. */
  lemma FindNumberIsFirstToken(s: string)
    ensures FindNumber(s).Some? ==>
      exists q :: 0 <= q <= |s| && NumberToken(s, q, FindNumber(s).value) &&
        forall q', t :: 0 <= q' < q ==> !NumberToken(s, q', t)
    ensures FindNumber(s).None? ==> forall q, t :: 0 <= q <= |s| ==> !NumberToken(s, q, t)
  {
    NumberFromIsLeftmost(s, 0);
    forall q, t | 0 <= q <= |s| && NumberToken(s, q, t) ensures NumberLengthAt(s, q).Some? {
      NumberLengthAtComplete(s, q, t);
    }
  }

  // ---------------------------------------------------------------------
  // The holo flag
  // ---------------------------------------------------------------------

  /** The indicator list of normalizer.py:257, duplicate included. */
  const HoloIndicators: seq<string> := ["holo", "holographic", "holographic", "reverse holo", "reverse holographic"]

  /** `any(indicator in s for indicator in holo_indicators)`. */
  predicate HasHoloIndicator(s: string) {
    exists i :: 0 <= i < |HoloIndicators| && Contains(s, HoloIndicators[i])
  }

  /** Every indicator contains "holo", so the check is a test for "holo". */
  lemma HoloIndicatorIsHolo(s: string)
    ensures HasHoloIndicator(s) <==> Contains(s, "holo")
  {
    assert Contains("holo", "holo") by { assert StartsAt("holo", 0, "holo"); }
    if HasHoloIndicator(s) {
      var i :| 0 <= i < |HoloIndicators| && Contains(s, HoloIndicators[i]);
      var ind := HoloIndicators[i];
      assert Contains(ind, "holo") by {
        if i <= 2 { assert ind[0..4] == "holo"; assert StartsAt(ind, 0, "holo"); }
        else { assert ind[8..12] == "holo"; assert StartsAt(ind, 8, "holo"); }
      }
      ContainsTransitive(s, ind, "holo");
    } else {
      assert !Contains(s, HoloIndicators[0]);
    }
  }
}
