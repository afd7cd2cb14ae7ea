/** The reverse lookups of the card normalizer: Python dictionaries from a
    lower-cased variant to its canonical name, which keep their keys in first
    insertion order, and the first-match search the title parser runs over
    them (normalizer.py:199-214, 225-244). */
module Lookup {
  import opened Wrappers
  import opened Text
  import opened Tables

  /** An insertion-ordered dictionary from variant to canonical name. */
  type Dict = seq<(string, string)>

  predicate DistinctKeys(d: Dict) {
    forall i, j :: 0 <= i < j < |d| ==> d[i].0 != d[j].0
  }

  predicate HasKey(d: Dict, k: string) {
    exists i :: 0 <= i < |d| && d[i].0 == k
  }

  /** The position of key `k`, if it is present. */
  function Find(d: Dict, k: string): (r: Option<nat>)
    ensures r.Some? ==> r.value < |d| && d[r.value].0 == k
    ensures r.Some? ==> forall i :: 0 <= i < r.value ==> d[i].0 != k
    ensures r.None? ==> forall i :: 0 <= i < |d| ==> d[i].0 != k
  {
    if d == [] then None
    else if d[0].0 == k then Some(0)
    else match Find(d[1..], k)
      case None => None
      case Some(i) => Some(i + 1)
  }

  /** `d[k] = v`: a present key keeps its position and gets the new value,
      an absent key is appended. */
  function Put(d: Dict, k: string, v: string): (r: Dict)
    ensures |d| <= |r| <= |d| + 1
    ensures HasKey(d, k) ==> |r| == |d|
    ensures !HasKey(d, k) ==> r == d + [(k, v)]
    ensures forall i :: 0 <= i < |d| && d[i].0 != k ==> r[i] == d[i]
    ensures forall i :: 0 <= i < |d| ==> r[i].0 == d[i].0
    ensures exists i :: 0 <= i < |r| && r[i] == (k, v)
    ensures forall i :: 0 <= i < |r| ==> r[i] == (k, v) || (i < |d| && r[i] == d[i])
  {
    match Find(d, k)
    case Some(i) => d[i := (k, v)]
    case None => assert (d + [(k, v)])[|d|] == (k, v); d + [(k, v)]
  }

  /** The canonical name `c` lists `k`, once lower-cased, among its variants. */
  ghost predicate ListsVariant(t: Table, c: string, k: string) {
    exists a, b :: 0 <= a < |t| && 0 <= b < |t[a].1| && t[a].0 == c && Lower(t[a].1[b]) == k
  }

  /** The inner loop of `__init__`: every variant of canonical `c`, in order. */
  function PutVariants(d: Dict, c: string, vs: seq<string>): Dict
    decreases |vs|
  {
    if vs == [] then d else Put(PutVariants(d, c, vs[..|vs| - 1]), Lower(vs[|vs| - 1]), c)
  }

  /** The two nested loops of `__init__` over one table. */
  function BuildLookup(t: Table): Dict
    decreases |t|
  {
    if t == [] then [] else PutVariants(BuildLookup(t[..|t| - 1]), t[|t| - 1].0, t[|t| - 1].1)
  }

  /** `__init__`'s nested loops, filling one reverse lookup. */
  method ReverseLookup(t: Table) returns (d: Dict)
    ensures d == BuildLookup(t)
  {
    d := [];
    var i := 0;
    while i < |t|
      invariant 0 <= i <= |t|
      invariant d == BuildLookup(t[..i])
    {
      var (canonical, variants) := t[i];
      ghost var before := d;
      var j := 0;
      while j < |variants|
        invariant 0 <= j <= |variants|
        invariant d == PutVariants(before, canonical, variants[..j])
      {
        assert variants[..j + 1][..j] == variants[..j];
        d := Put(d, Lower(variants[j]), canonical);
        j := j + 1;
      }
      assert variants[..j] == variants;
      assert t[..i + 1][..i] == t[..i];
      i := i + 1;
    }
    assert t[..i] == t;
  }

  lemma {:induction false} PutVariantsDistinct(d: Dict, c: string, vs: seq<string>)
    requires DistinctKeys(d)
    ensures DistinctKeys(PutVariants(d, c, vs))
    decreases |vs|
  {
    if vs != [] {
      var prev := PutVariants(d, c, vs[..|vs| - 1]);
      PutVariantsDistinct(d, c, vs[..|vs| - 1]);
      var k := Lower(vs[|vs| - 1]);
      if !HasKey(prev, k) {
        assert Put(prev, k, c) == prev + [(k, c)];
      }
    }
  }

  /** Every reverse lookup has each key once. */
  lemma {:induction false} BuildLookupDistinct(t: Table)
    ensures DistinctKeys(BuildLookup(t))
    decreases |t|
  {
    if t != [] {
      BuildLookupDistinct(t[..|t| - 1]);
      PutVariantsDistinct(BuildLookup(t[..|t| - 1]), t[|t| - 1].0, t[|t| - 1].1);
    }
  }

  lemma {:induction false} PutVariantsSound(t: Table, a: nat, d: Dict, vs: seq<string>)
    requires a < |t| && |vs| <= |t[a].1| && vs == t[a].1[..|vs|]
    requires forall i :: 0 <= i < |d| ==> ListsVariant(t, d[i].1, d[i].0)
    ensures forall i :: 0 <= i < |PutVariants(d, t[a].0, vs)| ==>
      ListsVariant(t, PutVariants(d, t[a].0, vs)[i].1, PutVariants(d, t[a].0, vs)[i].0)
    decreases |vs|
  {
    if vs != [] {
      var init := vs[..|vs| - 1];
      assert init == t[a].1[..|init|];
      PutVariantsSound(t, a, d, init);
      var prev := PutVariants(d, t[a].0, init);
      var b := |vs| - 1;
      assert t[a].1[b] == vs[b];
      assert ListsVariant(t, t[a].0, Lower(vs[b]));
    }
  }

  lemma {:induction false} BuildLookupSoundPrefix(t: Table, n: nat)
    requires n <= |t|
    ensures forall i :: 0 <= i < |BuildLookup(t[..n])| ==>
      ListsVariant(t, BuildLookup(t[..n])[i].1, BuildLookup(t[..n])[i].0)
  {
    if n > 0 {
      BuildLookupSoundPrefix(t, n - 1);
      assert t[..n][..n - 1] == t[..n - 1];
      assert t[..n][n - 1] == t[n - 1];
      PutVariantsSound(t, n - 1, BuildLookup(t[..n - 1]), t[n - 1].1);
      assert t[n - 1].1[..|t[n - 1].1|] == t[n - 1].1;
    }
  }

  /** Every entry of a reverse lookup pairs a variant with a canonical name
      that lists it. */
  lemma BuildLookupSound(t: Table)
    ensures forall i :: 0 <= i < |BuildLookup(t)| ==>
      ListsVariant(t, BuildLookup(t)[i].1, BuildLookup(t)[i].0)
  {
    BuildLookupSoundPrefix(t, |t|);
    assert t[..|t|] == t;
  }

  lemma {:induction false} PutVariantsKeeps(d: Dict, c: string, vs: seq<string>)
    ensures |PutVariants(d, c, vs)| >= |d|
    ensures forall i :: 0 <= i < |d| ==> PutVariants(d, c, vs)[i].0 == d[i].0
    ensures forall j :: 0 <= j < |vs| ==> HasKey(PutVariants(d, c, vs), Lower(vs[j]))
    decreases |vs|
  {
    if vs != [] {
      var init := vs[..|vs| - 1];
      PutVariantsKeeps(d, c, init);
      var prev := PutVariants(d, c, init);
      var r := PutVariants(d, c, vs);
      assert r == Put(prev, Lower(vs[|vs| - 1]), c);
      forall i | 0 <= i < |d| ensures i < |r| && r[i].0 == d[i].0 {
        assert prev[i].0 == d[i].0;
      }
      forall j | 0 <= j < |vs| ensures HasKey(PutVariants(d, c, vs), Lower(vs[j])) {
        if j < |init| {
          assert init[j] == vs[j];
          var i :| 0 <= i < |prev| && prev[i].0 == Lower(init[j]);
          assert PutVariants(d, c, vs)[i].0 == prev[i].0;
        }
      }
    }
  }

  lemma {:induction false} BuildLookupKeeps(t: Table, n: nat)
    requires n <= |t|
    ensures forall a, b :: 0 <= a < n && 0 <= b < |t[a].1| ==> HasKey(BuildLookup(t[..n]), Lower(t[a].1[b]))
  {
    if n > 0 {
      BuildLookupKeeps(t, n - 1);
      var prev := BuildLookup(t[..n - 1]);
      assert t[..n][..n - 1] == t[..n - 1];
      assert t[..n][n - 1] == t[n - 1];
      PutVariantsKeeps(prev, t[n - 1].0, t[n - 1].1);
      forall a, b | 0 <= a < n && 0 <= b < |t[a].1| ensures HasKey(BuildLookup(t[..n]), Lower(t[a].1[b])) {
        if a < n - 1 {
          var i :| 0 <= i < |prev| && prev[i].0 == Lower(t[a].1[b]);
          assert BuildLookup(t[..n])[i].0 == prev[i].0;
        }
      }
    }
  }

  /** Every variant of the table, lower-cased, is a key of its reverse lookup. */
  lemma BuildLookupComplete(t: Table)
    ensures forall a, b :: 0 <= a < |t| && 0 <= b < |t[a].1| ==> HasKey(BuildLookup(t), Lower(t[a].1[b]))
  {
    BuildLookupKeeps(t, |t|);
    assert t[..|t|] == t;
  }

  /** The loop `for variant, canonical in d.items(): if variant in s: ... break`,
      from position `i` on: the index of the first key that occurs in `s`. */
  function FirstMatchFrom(d: Dict, s: string, i: nat): (r: Option<nat>)
    requires i <= |d|
    ensures r.Some? ==> i <= r.value < |d| && Contains(s, d[r.value].0)
    ensures r.Some? ==> forall j :: i <= j < r.value ==> !Contains(s, d[j].0)
    ensures r.None? ==> forall j :: i <= j < |d| ==> !Contains(s, d[j].0)
    decreases |d| - i
  {
    if i == |d| then None
    else if Contains(s, d[i].0) then Some(i)
    else FirstMatchFrom(d, s, i + 1)
  }

  /** The index of the first key, in dictionary order, that occurs in `s`. */
  function FirstMatch(d: Dict, s: string): (r: Option<nat>)
  {
    FirstMatchFrom(d, s, 0)
  }

  /** A key that contains an earlier key is never the first match: any
      string holding it also holds the earlier one. */
  lemma Shadowed(d: Dict, s: string, i: nat, j: nat)
    requires i < j < |d| && Contains(d[j].0, d[i].0)
    ensures FirstMatch(d, s) != Some(j)
  {
    if FirstMatch(d, s) == Some(j) {
      ContainsTransitive(s, d[j].0, d[i].0);
    }
  }

  /** The search loop with its `break`, as the parser runs it. */
  method FindFirstVariant(d: Dict, s: string) returns (r: Option<nat>)
    ensures r == FirstMatch(d, s)
  {
    var i := 0;
    while i < |d|
      invariant 0 <= i <= |d|
      invariant FirstMatch(d, s) == FirstMatchFrom(d, s, i)
    {
      if Contains(s, d[i].0) {
        return Some(i);
      }
      i := i + 1;
    }
    return None;
  }

  // ---------------------------------------------------------------------
  // The lookup in terms of the table's declaration order
  // ---------------------------------------------------------------------

  /** The pairs `(variant.lower(), canonical)` for one canonical name, in order. */
  function VariantPairs(c: string, vs: seq<string>): (r: seq<(string, string)>)
    ensures |r| == |vs|
    ensures forall b :: 0 <= b < |vs| ==> r[b] == (Lower(vs[b]), c)
  {
    seq(|vs|, b requires 0 <= b < |vs| => (Lower(vs[b]), c))
  }

  /** The assignments `d[variant.lower()] = canonical` that the nested loops
      of `__init__` perform, in the order they perform them. */
  function Assignments(t: Table): seq<(string, string)>
    decreases |t|
  {
    if t == [] then [] else Assignments(t[..|t| - 1]) + VariantPairs(t[|t| - 1].0, t[|t| - 1].1)
  }

  /** The assignments of `ps` performed one after the other. */
  function PutAll(d: Dict, ps: seq<(string, string)>): Dict
    decreases |ps|
  {
    if ps == [] then d else Put(PutAll(d, ps[..|ps| - 1]), ps[|ps| - 1].0, ps[|ps| - 1].1)
  }

  lemma {:induction false} PutVariantsIsPutAll(d: Dict, c: string, vs: seq<string>)
    ensures PutVariants(d, c, vs) == PutAll(d, VariantPairs(c, vs))
    decreases |vs|
  {
    if vs != [] {
      var init := vs[..|vs| - 1];
      PutVariantsIsPutAll(d, c, init);
      assert VariantPairs(c, vs)[..|vs| - 1] == VariantPairs(c, init);
    }
  }

  lemma {:induction false} PutAllAppend(d: Dict, ps: seq<(string, string)>, qs: seq<(string, string)>)
    ensures PutAll(d, ps + qs) == PutAll(PutAll(d, ps), qs)
    decreases |qs|
  {
    if qs == [] {
      assert ps + qs == ps;
    } else {
      var init := qs[..|qs| - 1];
      PutAllAppend(d, ps, init);
      assert (ps + qs)[..|ps + qs| - 1] == ps + init;
      assert (ps + qs)[|ps + qs| - 1] == qs[|qs| - 1];
    }
  }

  /** Building a reverse lookup performs the table's assignments in order. */
  lemma {:induction false} BuildLookupIsPutAll(t: Table)
    ensures BuildLookup(t) == PutAll([], Assignments(t))
    decreases |t|
  {
    if t != [] {
      var init := t[..|t| - 1];
      var (c, vs) := t[|t| - 1];
      BuildLookupIsPutAll(init);
      PutVariantsIsPutAll(BuildLookup(init), c, vs);
      PutAllAppend([], Assignments(init), VariantPairs(c, vs));
    }
  }

  /** Step `q` is the last assignment to the key of `e`, and it assigns `e`. */
  ghost predicate LastAssignment(ps: seq<(string, string)>, q: int, e: (string, string)) {
    0 <= q < |ps| && ps[q] == e && forall q' :: q < q' < |ps| ==> ps[q'].0 != e.0
  }

  /** Some step of `ps` is the last assignment to the key of `e`, and assigns `e`. */
  ghost predicate LastAssigned(ps: seq<(string, string)>, e: (string, string)) {
    exists q :: LastAssignment(ps, q, e)
  }

  /** The first assignment to `k` in `ps + [x]`. */
  lemma FindSnoc(ps: seq<(string, string)>, x: (string, string), k: string)
    ensures Find(ps + [x], k) ==
      if Find(ps, k).Some? then Find(ps, k) else if x.0 == k then Some(|ps|) else None
  {
    var r0 := Find(ps, k);
    if r0.Some? {
      assert (ps + [x])[r0.value] == ps[r0.value];
    } else if x.0 == k {
      assert (ps + [x])[|ps|] == x;
    }
  }

  lemma {:induction false} PutAllKeys(ps: seq<(string, string)>)
    ensures forall i :: 0 <= i < |PutAll([], ps)| ==> Find(ps, PutAll([], ps)[i].0).Some?
    ensures forall q :: 0 <= q < |ps| ==> HasKey(PutAll([], ps), ps[q].0)
    decreases |ps|
  {
    if ps != [] {
      var init := ps[..|ps| - 1];
      var x := ps[|ps| - 1];
      var prev := PutAll([], init);
      var d := PutAll([], ps);
      PutAllKeys(init);
      assert d == Put(prev, x.0, x.1);
      assert init + [x] == ps;
      forall i | 0 <= i < |d| ensures Find(ps, d[i].0).Some? {
        FindSnoc(init, x, d[i].0);
        if d[i] != x {
          assert d[i] == prev[i];
        }
      }
      forall q | 0 <= q < |ps| ensures HasKey(d, ps[q].0) {
        if q < |init| {
          assert ps[q] == init[q];
          var i :| 0 <= i < |prev| && prev[i].0 == init[q].0;
          assert d[i].0 == prev[i].0;
        }
      }
    }
  }

  lemma {:induction false} PutAllDistinct(ps: seq<(string, string)>)
    ensures DistinctKeys(PutAll([], ps))
    decreases |ps|
  {
    if ps != [] {
      var init := ps[..|ps| - 1];
      var (k, v) := ps[|ps| - 1];
      var prev := PutAll([], init);
      PutAllDistinct(init);
      if !HasKey(prev, k) {
        assert Put(prev, k, v) == prev + [(k, v)];
      }
    }
  }

  /** The keys of `d` come in the order in which `ps` first assigns them. */
  ghost predicate InAssignmentOrder(ps: seq<(string, string)>, d: Dict) {
    forall i, j :: 0 <= i < j < |d| ==> AssignedInOrder(ps, d[i].0, d[j].0)
  }

  /** Both keys are assigned in `ps`, `k` first. */
  predicate AssignedInOrder(ps: seq<(string, string)>, k: string, k2: string) {
    Find(ps, k).Some? && Find(ps, k2).Some? && Find(ps, k).value < Find(ps, k2).value
  }

  /** Appending an assignment to a key already present keeps the order. */
  lemma OrderStepOld(init: seq<(string, string)>, x: (string, string), i: nat, j: nat)
    requires InAssignmentOrder(init, PutAll([], init))
    requires i < j < |PutAll([], init)|
    ensures var d := Put(PutAll([], init), x.0, x.1);
      AssignedInOrder(init + [x], d[i].0, d[j].0)
  {
    var prev := PutAll([], init);
    var d := Put(prev, x.0, x.1);
    assert d[i].0 == prev[i].0 && d[j].0 == prev[j].0;
    FindSnoc(init, x, prev[i].0);
    FindSnoc(init, x, prev[j].0);
  }

  /** Appending an assignment to a new key puts it after all others. */
  lemma OrderStepNew(init: seq<(string, string)>, x: (string, string), i: nat)
    requires !HasKey(PutAll([], init), x.0)
    requires i < |PutAll([], init)|
    ensures var d := Put(PutAll([], init), x.0, x.1);
      |d| == |PutAll([], init)| + 1 && AssignedInOrder(init + [x], d[i].0, d[|d| - 1].0)
  {
    var prev := PutAll([], init);
    var d := Put(prev, x.0, x.1);
    PutAllKeys(init);
    assert d == prev + [x];
    FindSnoc(init, x, prev[i].0);
    FindSnoc(init, x, x.0);
  }

  /** Keys come in the order of their first assignment. */
  lemma {:induction false} PutAllOrder(ps: seq<(string, string)>)
    ensures InAssignmentOrder(ps, PutAll([], ps))
    decreases |ps|
  {
    if ps != [] {
      var init := ps[..|ps| - 1];
      var x := ps[|ps| - 1];
      var prev := PutAll([], init);
      PutAllOrder(init);
      assert init + [x] == ps;
      var d := PutAll([], ps);
      assert d == Put(prev, x.0, x.1);
      forall i, j | 0 <= i < j < |d| ensures AssignedInOrder(ps, d[i].0, d[j].0) {
        if j < |prev| {
          OrderStepOld(init, x, i, j);
        } else {
          OrderStepNew(init, x, i);
        }
      }
      assert InAssignmentOrder(ps, d);
    }
  }

  /** Every entry holds the value of the last assignment to its key. */
  lemma {:induction false} PutAllLast(ps: seq<(string, string)>)
    ensures forall i :: 0 <= i < |PutAll([], ps)| ==> LastAssigned(ps, PutAll([], ps)[i])
    decreases |ps|
  {
    if ps != [] {
      var init := ps[..|ps| - 1];
      var (k, v) := ps[|ps| - 1];
      var prev := PutAll([], init);
      var d := PutAll([], ps);
      PutAllLast(init);
      PutAllDistinct(ps);
      assert d == Put(prev, k, v);
      forall i | 0 <= i < |d| ensures LastAssigned(ps, d[i]) {
        if d[i] == (k, v) {
          assert LastAssignment(ps, |ps| - 1, d[i]);
        } else {
          assert i < |prev| && d[i] == prev[i];
          assert LastAssigned(init, prev[i]);
          var q :| LastAssignment(init, q, prev[i]);
          assert ps[q] == init[q];
          assert LastAssignment(ps, q, d[i]);
        }
      }
    }
  }

  /** The first-match search of `PutAll([], ps)` ends at the key of the first
      assignment whose key occurs in `s`, and finds nothing exactly when no
      assigned key occurs. */
  lemma {:induction false} FirstMatchAssigned(ps: seq<(string, string)>, s: string)
    ensures var d := PutAll([], ps);
      (FirstMatch(d, s).None? <==> FirstMatch(ps, s).None?) &&
      (FirstMatch(d, s).Some? ==> d[FirstMatch(d, s).value].0 == ps[FirstMatch(ps, s).value].0)
  {
    var d := PutAll([], ps);
    PutAllKeys(ps);
    match FirstMatch(d, s)
    case None =>
    case Some(i) =>
      var q0 := Find(ps, d[i].0).value;
      assert Contains(s, ps[q0].0);
      var p := FirstMatch(ps, s).value;
      assert p <= q0;
      var i' :| 0 <= i' < |d| && d[i'].0 == ps[p].0;
      assert i <= i';
      if i < i' {
        PutAllOrderAt(ps, i, i');
      }
  }

  lemma PutAllOrderAt(ps: seq<(string, string)>, i: nat, j: nat)
    requires i < j < |PutAll([], ps)|
    ensures AssignedInOrder(ps, PutAll([], ps)[i].0, PutAll([], ps)[j].0)
  {
    PutAllOrder(ps);
  }

  /** `(a, b)` names variant `b` of entry `a` of the table. */
  predicate Listed(t: Table, a: int, b: int) {
    0 <= a < |t| && 0 <= b < |t[a].1|
  }

  /** Variant `(a, b)` is listed before variant `(a2, b2)`. */
  predicate Earlier(a: int, b: int, a2: int, b2: int) {
    a < a2 || (a == a2 && b < b2)
  }

  /** The step of the nested loops of `__init__` that assigns variant `(a, b)`. */
  function Step(t: Table, a: nat, b: nat): nat
    requires a < |t|
  {
    |Assignments(t[..a])| + b
  }

  lemma {:induction false} AssignmentsPrefix(t: Table, n: nat)
    requires n <= |t|
    ensures |Assignments(t[..n])| <= |Assignments(t)|
    ensures Assignments(t)[..|Assignments(t[..n])|] == Assignments(t[..n])
    decreases |t|
  {
    if n == |t| {
      assert t[..n] == t;
    } else {
      var init := t[..|t| - 1];
      assert init[..n] == t[..n];
      AssignmentsPrefix(init, n);
    }
  }

  /** Step `Step(t, a, b)` assigns the lower-cased variant `(a, b)` its canonical name. */
  lemma AssignmentAt(t: Table, a: nat, b: nat)
    requires Listed(t, a, b)
    ensures Step(t, a, b) < |Assignments(t)|
    ensures Assignments(t)[Step(t, a, b)] == (Lower(t[a].1[b]), t[a].0)
  {
    assert t[..a + 1][..a] == t[..a];
    assert t[..a + 1][a] == t[a];
    AssignmentsPrefix(t, a + 1);
    assert Assignments(t)[..|Assignments(t[..a + 1])|][Step(t, a, b)] == Assignments(t)[Step(t, a, b)];
  }

  /** Every step assigns some listed variant. */
  lemma {:induction false} AssignmentOrigin(t: Table, q: nat)
    requires q < |Assignments(t)|
    ensures exists a: nat, b: nat :: Listed(t, a, b) && q == Step(t, a, b)
    decreases |t|
  {
    var init := t[..|t| - 1];
    var a := |t| - 1;
    if q < |Assignments(init)| {
      AssignmentOrigin(init, q);
      var a': nat, b': nat :| Listed(init, a', b') && q == Step(init, a', b');
      assert init[..a'] == t[..a'];
      assert Listed(t, a', b') && q == Step(t, a', b');
    } else {
      assert t[..a] == init;
      assert Listed(t, a, q - |Assignments(init)|) && q == Step(t, a, q - |Assignments(init)|);
    }
  }

  /** The steps follow declaration order. */
  lemma StepOrder(t: Table, a: nat, b: nat, a2: nat, b2: nat)
    requires Listed(t, a, b) && Listed(t, a2, b2)
    ensures Earlier(a, b, a2, b2) <==> Step(t, a, b) < Step(t, a2, b2)
  {
    if a < a2 {
      assert t[..a2][..a + 1] == t[..a + 1];
      assert t[..a + 1][..a] == t[..a];
      AssignmentsPrefix(t[..a2], a + 1);
    } else if a2 < a {
      assert t[..a][..a2 + 1] == t[..a2 + 1];
      assert t[..a2 + 1][..a2] == t[..a2];
      AssignmentsPrefix(t[..a], a2 + 1);
    }
  }

  /** `(a, b)` is the first listing of the lower-cased variant `k`. */
  ghost predicate FirstListing(t: Table, a: int, b: int, k: string) {
    Listed(t, a, b) && Lower(t[a].1[b]) == k &&
    forall a', b' :: Listed(t, a', b') && Earlier(a', b', a, b) ==> Lower(t[a'].1[b']) != k
  }

  /** `(a, b)` is the last listing of the lower-cased variant `k`. */
  ghost predicate LastListing(t: Table, a: int, b: int, k: string) {
    Listed(t, a, b) && Lower(t[a].1[b]) == k &&
    forall a', b' :: Listed(t, a', b') && Earlier(a, b, a', b') ==> Lower(t[a'].1[b']) != k
  }

  /** `(a, b)` is the first listed variant whose lower-cased form occurs in `s`. */
  ghost predicate FirstOccurring(t: Table, s: string, a: int, b: int) {
    Listed(t, a, b) && Contains(s, Lower(t[a].1[b])) &&
    forall a', b' :: Listed(t, a', b') && Earlier(a', b', a, b) ==> !Contains(s, Lower(t[a'].1[b']))
  }

  /** The first step assigning `k` is that of the first listing of `k`. */
  lemma FirstStep(t: Table, k: string)
    requires Find(Assignments(t), k).Some?
    ensures exists a: nat, b: nat :: FirstListing(t, a, b, k) && Find(Assignments(t), k).value == Step(t, a, b)
  {
    var ps := Assignments(t);
    var q := Find(ps, k).value;
    AssignmentOrigin(t, q);
    var a: nat, b: nat :| Listed(t, a, b) && q == Step(t, a, b);
    AssignmentAt(t, a, b);
    forall a', b' | Listed(t, a', b') && Earlier(a', b', a, b) ensures Lower(t[a'].1[b']) != k {
      AssignmentAt(t, a', b');
      StepOrder(t, a', b', a, b);
    }
    assert FirstListing(t, a, b, k);
  }

  /** A lower-cased variant has at most one first listing. */
  lemma FirstListingUnique(t: Table, k: string, a: int, b: int, a2: int, b2: int)
    requires FirstListing(t, a, b, k) && FirstListing(t, a2, b2, k)
    ensures a == a2 && b == b2
  {
  }

  lemma FirstListingsOrdered(t: Table, i: nat, j: nat, a: nat, b: nat, a2: nat, b2: nat)
    requires i < j < |BuildLookup(t)|
    requires FirstListing(t, a, b, BuildLookup(t)[i].0) && FirstListing(t, a2, b2, BuildLookup(t)[j].0)
    ensures Earlier(a, b, a2, b2)
  {
    var d := BuildLookup(t);
    var ps := Assignments(t);
    BuildLookupIsPutAll(t);
    PutAllOrder(ps);
    assert AssignedInOrder(ps, d[i].0, d[j].0);
    FirstStep(t, d[i].0);
    var x: nat, y: nat :| FirstListing(t, x, y, d[i].0) && Find(ps, d[i].0).value == Step(t, x, y);
    FirstListingUnique(t, d[i].0, a, b, x, y);
    FirstStep(t, d[j].0);
    var x2: nat, y2: nat :| FirstListing(t, x2, y2, d[j].0) && Find(ps, d[j].0).value == Step(t, x2, y2);
    FirstListingUnique(t, d[j].0, a2, b2, x2, y2);
    StepOrder(t, a, b, a2, b2);
  }

  /** The lower-cased variant `k` is listed somewhere in the table. */
  ghost predicate HasFirstListing(t: Table, k: string) {
    exists a, b :: FirstListing(t, a, b, k)
  }

  lemma KeyFirstListed(t: Table, i: nat)
    requires i < |BuildLookup(t)|
    ensures HasFirstListing(t, BuildLookup(t)[i].0)
  {
    BuildLookupIsPutAll(t);
    PutAllKeys(Assignments(t));
    FirstStep(t, BuildLookup(t)[i].0);
  }

  /** A reverse lookup holds its keys in the order in which the table first
      lists them: every key has a first listing, and of two keys the earlier
      one is first listed earlier. */
  lemma BuildLookupOrder(t: Table)
    ensures forall i :: 0 <= i < |BuildLookup(t)| ==> HasFirstListing(t, BuildLookup(t)[i].0)
    ensures var d := BuildLookup(t);
      forall i, j, a, b, a2, b2 :: 0 <= i < j < |d| && FirstListing(t, a, b, d[i].0) && FirstListing(t, a2, b2, d[j].0) ==>
        Earlier(a, b, a2, b2)
  {
    var d := BuildLookup(t);
    forall i | 0 <= i < |d| ensures HasFirstListing(t, d[i].0) {
      KeyFirstListed(t, i);
    }
    forall i, j, a, b, a2, b2 | 0 <= i < j < |d| && FirstListing(t, a, b, d[i].0) && FirstListing(t, a2, b2, d[j].0)
      ensures Earlier(a, b, a2, b2)
    {
      FirstListingsOrdered(t, i, j, a, b, a2, b2);
    }
  }

  /** The canonical name `e.1` lists the variant `e.0` last in the table. */
  ghost predicate ListsLast(t: Table, e: (string, string)) {
    exists a, b :: LastListing(t, a, b, e.0) && t[a].0 == e.1
  }

  lemma LastListingOf(t: Table, i: nat)
    requires i < |BuildLookup(t)|
    ensures ListsLast(t, BuildLookup(t)[i])
  {
    var d := BuildLookup(t);
    var ps := Assignments(t);
    BuildLookupIsPutAll(t);
    PutAllLast(ps);
    assert LastAssigned(ps, d[i]);
    var q :| LastAssignment(ps, q, d[i]);
    AssignmentOrigin(t, q);
    var a: nat, b: nat :| Listed(t, a, b) && q == Step(t, a, b);
    AssignmentAt(t, a, b);
    forall a', b' | Listed(t, a', b') && Earlier(a, b, a', b') ensures Lower(t[a'].1[b']) != d[i].0 {
      AssignmentAt(t, a', b');
      StepOrder(t, a, b, a', b');
    }
    assert LastListing(t, a, b, d[i].0);
  }

  /** Python's last write wins: the value of each key is the canonical name
      of the last listing of that variant. */
  lemma BuildLookupLast(t: Table)
    ensures forall i :: 0 <= i < |BuildLookup(t)| ==> ListsLast(t, BuildLookup(t)[i])
  {
    forall i | 0 <= i < |BuildLookup(t)| ensures ListsLast(t, BuildLookup(t)[i]) {
      LastListingOf(t, i);
    }
  }

  /** The first-match search of a reverse lookup, in table terms: it finds
      nothing exactly when no listed variant occurs in `s`, and otherwise
      ends at the key of the first listed variant that occurs. */
  lemma FirstMatchListed(t: Table, s: string)
    ensures var d := BuildLookup(t);
      (FirstMatch(d, s).None? <==> forall a, b :: Listed(t, a, b) ==> !Contains(s, Lower(t[a].1[b]))) &&
      (FirstMatch(d, s).Some? ==>
        exists a, b :: FirstOccurring(t, s, a, b) && d[FirstMatch(d, s).value].0 == Lower(t[a].1[b]))
  {
    var d := BuildLookup(t);
    var ps := Assignments(t);
    BuildLookupIsPutAll(t);
    FirstMatchAssigned(ps, s);
    if FirstMatch(d, s).None? {
      forall a, b | Listed(t, a, b) ensures !Contains(s, Lower(t[a].1[b])) {
        AssignmentAt(t, a, b);
      }
    } else {
      var p := FirstMatch(ps, s).value;
      AssignmentOrigin(t, p);
      var a: nat, b: nat :| Listed(t, a, b) && p == Step(t, a, b);
      AssignmentAt(t, a, b);
      forall a', b' | Listed(t, a', b') && Earlier(a', b', a, b) ensures !Contains(s, Lower(t[a'].1[b'])) {
        AssignmentAt(t, a', b');
        StepOrder(t, a', b', a, b);
      }
      assert FirstOccurring(t, s, a, b);
    }
  }
}
