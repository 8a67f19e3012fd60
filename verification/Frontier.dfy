/** The prefix-drop frontier and its optimality over all subsets of the trim candidates. */
module Frontier {
  // Of all subsets that pay back their cache rewrite and clear the character floor, a suffix in
  // branch order saves the most.

  import opened Wrappers
  import opened Branch
  import opened Economics

  /** One archivable entry: its text, the marker replacing it, and the net characters saved. */
  datatype Candidate = Candidate(id: Id, text: string, marker: string, saved: int)

  /** A candidate with its message position and the tokens its edit saves. */
  datatype Placed = Placed(candidate: Candidate, index: nat, tokens: nat)

  datatype Economy = Economy(cost: Option<Rates>, wholePrompt: bool, limit: Option<real>)

  const AUTO_TRIM_BREAK_EVEN_REQUESTS := 24.0
  const ABSENT := 9007199254740991

  function LimitOf(e: Economy): real {
    if e.limit.Some? then e.limit.value else AUTO_TRIM_BREAK_EVEN_REQUESTS
  }

  // ---------------------------------------------------------------- placing and sorting

  /** The last of the first n messages that comes from this entry. */
  function PositionOf(p: seq<Projected>, id: Id, n: nat): (r: Option<nat>)
    requires n <= |p|
    ensures r.Some? ==> r.value < n && p[r.value].source.id == id
    ensures r.None? ==> forall i | 0 <= i < n :: p[i].source.id != id
  {
    if n == 0 then None else if p[n - 1].source.id == id then Some(n - 1) else PositionOf(p, id, n - 1)
  }

  function Place(h: Host, p: seq<Projected>, c: Candidate): Placed {
    match PositionOf(p, c.id, |p|)
    case None => Placed(c, ABSENT, 0)
    case Some(at) =>
      var saved := Raw(h, p, at) - Kept(h, p, at, c.marker);
      Placed(c, at, if saved > 0 then saved else 0)
  }

  function PlaceAll(h: Host, p: seq<Projected>, cs: seq<Candidate>): seq<Placed> {
    seq(|cs|, i requires 0 <= i < |cs| => Place(h, p, cs[i]))
  }

  /** Stable insertion by position. */
  function Insert(s: seq<Placed>, x: Placed): seq<Placed> {
    if s == [] || s[|s| - 1].index <= x.index then s + [x]
    else Insert(s[..|s| - 1], x) + [s[|s| - 1]]
  }

  function Sort(s: seq<Placed>): seq<Placed> {
    if s == [] then [] else Insert(Sort(s[..|s| - 1]), s[|s| - 1])
  }

  predicate Sorted(s: seq<Placed>) {
    forall i, j | 0 <= i < j < |s| :: s[i].index <= s[j].index
  }

  /** Distinct entries at distinct positions; only absent candidates share one. */
  predicate Apart(a: Placed, b: Placed) {
    a.candidate.id != b.candidate.id && (a.index != b.index || a.index == ABSENT)
  }

  predicate AllApart(s: seq<Placed>) {
    forall i, j | 0 <= i < j < |s| :: Apart(s[i], s[j])
  }

  lemma {:induction false} InsertMembers(s: seq<Placed>, x: Placed)
    ensures |Insert(s, x)| == |s| + 1
    ensures forall y :: y in Insert(s, x) <==> y in s || y == x
  {
    if !(s == [] || s[|s| - 1].index <= x.index) {
      var n := |s| - 1;
      InsertMembers(s[..n], x);
      assert s == s[..n] + [s[n]];
    }
  }

  lemma AppendSorted(t: seq<Placed>, z: Placed)
    requires Sorted(t) && AllApart(t)
    requires forall y | y in t :: y.index <= z.index && Apart(y, z)
    ensures Sorted(t + [z]) && AllApart(t + [z])
  {
    forall i, j | 0 <= i < j < |t + [z]|
      ensures (t + [z])[i].index <= (t + [z])[j].index && Apart((t + [z])[i], (t + [z])[j])
    {
      if j == |t| { assert t[i] in t; }
    }
  }

  lemma {:induction false} InsertProperties(s: seq<Placed>, x: Placed)
    requires Sorted(s) && AllApart(s) && forall i | 0 <= i < |s| :: Apart(s[i], x)
    ensures Sorted(Insert(s, x)) && AllApart(Insert(s, x))
  {
    if s == [] || s[|s| - 1].index <= x.index {
      AppendSorted(s, x);
    } else {
      var n := |s| - 1;
      var t := Insert(s[..n], x);
      InsertProperties(s[..n], x);
      InsertMembers(s[..n], x);
      forall y | y in t ensures y.index <= s[n].index && Apart(y, s[n]) {
        if y != x {
          var k :| 0 <= k < n && s[..n][k] == y;
          assert Apart(s[k], s[n]);
        } else {
          assert Apart(s[n], x);
        }
      }
      AppendSorted(t, s[n]);
    }
  }

  predicate DistinctIds(cs: seq<Candidate>) {
    forall i, j | 0 <= i < j < |cs| :: cs[i].id != cs[j].id
  }

  lemma {:induction false} SortProperties(s: seq<Placed>)
    requires AllApart(s)
    ensures Sorted(Sort(s)) && AllApart(Sort(s)) && |Sort(s)| == |s|
    ensures forall y :: y in Sort(s) <==> y in s
  {
    if s != [] {
      var n := |s| - 1;
      var t := Sort(s[..n]);
      SortProperties(s[..n]);
      forall i | 0 <= i < |t| ensures Apart(t[i], s[n]) {
        assert t[i] in t;
        var k :| 0 <= k < n && s[..n][k] == t[i];
        assert Apart(s[k], s[n]);
      }
      InsertProperties(t, s[n]);
      InsertMembers(t, s[n]);
      assert s == s[..n] + [s[n]];
    }
  }

  lemma PlacedApart(h: Host, p: seq<Projected>, cs: seq<Candidate>)
    requires DistinctIds(cs) && |p| <= ABSENT
    ensures AllApart(PlaceAll(h, p, cs))
  {
  }

  /** Each placed candidate is placed where the branch shows it. */
  lemma PlacedTrue(h: Host, p: seq<Projected>, cs: seq<Candidate>, x: Placed)
    requires x in Sort(PlaceAll(h, p, cs)) && DistinctIds(cs) && |p| <= ABSENT
    ensures x == Place(h, p, x.candidate) && x.candidate in cs
  {
    var s := PlaceAll(h, p, cs);
    PlacedApart(h, p, cs);
    SortProperties(s);
    assert x in s;
  }

  // ---------------------------------------------------------------- the scan

  function SuffixTokens(q: seq<Placed>, j: nat): nat
    decreases |q| - j
  {
    if j >= |q| then 0 else q[j].tokens + SuffixTokens(q, j + 1)
  }

  function SuffixChars(q: seq<Placed>, j: nat): int
    decreases |q| - j
  {
    if j >= |q| then 0 else q[j].candidate.saved + SuffixChars(q, j + 1)
  }

  /** Whether edits that save these tokens and characters, the first at message `first`,
      pay back within the limit and clear the floor. */
  predicate Pays(h: Host, p: seq<Projected>, e: Economy, floor: int, first: nat, tokens: nat, chars: int) {
    && e.cost.Some? && first < |p|
    && (var price := BreakEven(e.cost.value, tokens, RawFrom(h, p, if e.wholePrompt then 0 else first) - tokens);
        price.Some? && price.value <= LimitOf(e))
    && floor <= chars
  }

  predicate SuffixPays(h: Host, p: seq<Projected>, e: Economy, floor: int, q: seq<Placed>, j: nat)
    requires j < |q|
  {
    Pays(h, p, e, floor, q[j].index, SuffixTokens(q, j), SuffixChars(q, j))
  }

  datatype Best = Best(at: int, chars: int)

  /** The best suffix among those starting at j or later; later ones win ties. */
  function BestFrom(h: Host, p: seq<Projected>, e: Economy, floor: int, q: seq<Placed>, j: nat): Best
    decreases |q| - j
  {
    if j >= |q| then Best(-1, -1)
    else
      var b := BestFrom(h, p, e, floor, q, j + 1);
      if SuffixPays(h, p, e, floor, q, j) && SuffixChars(q, j) > b.chars then Best(j, SuffixChars(q, j)) else b
  }

  lemma {:induction false} BestRange(h: Host, p: seq<Projected>, e: Economy, floor: int, q: seq<Placed>, j: nat)
    ensures var b := BestFrom(h, p, e, floor, q, j);
            b.at == -1 == b.chars || (j <= b.at < |q| && SuffixPays(h, p, e, floor, q, b.at) && b.chars == SuffixChars(q, b.at))
    ensures forall k | j <= k < |q| && SuffixPays(h, p, e, floor, q, k) ::
              SuffixChars(q, k) <= BestFrom(h, p, e, floor, q, j).chars
    decreases |q| - j
  {
    if j < |q| {
      BestRange(h, p, e, floor, q, j + 1);
    }
  }

  function Candidates(q: seq<Placed>): seq<Candidate> {
    seq(|q|, i requires 0 <= i < |q| => q[i].candidate)
  }

  /** The candidates worth trimming. */
  function SelectFrontier(h: Host, p: seq<Projected>, cs: seq<Candidate>, e: Economy, floor: int): seq<Candidate> {
    if cs == [] || e.cost.None? then cs
    else
      var q := Sort(PlaceAll(h, p, cs));
      var best := BestFrom(h, p, e, floor, q, 0);
      BestRange(h, p, e, floor, q, 0);
      Candidates(if best.at < 0 then q else q[best.at..])
  }

  /** The scan as the program runs it: prefix sums, one position and saving per candidate,
      then one descending pass. */
  method FindFrontier(h: Host, p: seq<Projected>, cs: seq<Candidate>, e: Economy, floor: int)
    returns (r: seq<Candidate>)
    requires |p| <= ABSENT
    ensures r == SelectFrontier(h, p, cs, e, floor)
  {
    if cs == [] || e.cost.None? { return cs; }
    var prefixRaw := PrefixSums(h, p);
    var placed: seq<Placed> := [];
    for i := 0 to |cs|
      invariant placed == PlaceAll(h, p, cs)[..i]
    {
      placed := placed + [Place(h, p, cs[i])];
    }
    assert PlaceAll(h, p, cs)[..|cs|] == PlaceAll(h, p, cs);
    var q := Sort(placed);
    var bestSuffix := ScanSuffixes(h, p, e, floor, q, prefixRaw);
    BestRange(h, p, e, floor, q, 0);
    r := Candidates(if bestSuffix < 0 then q else q[bestSuffix..]);
  }

  method PrefixSums(h: Host, p: seq<Projected>) returns (prefixRaw: array<nat>)
    ensures fresh(prefixRaw) && prefixRaw.Length == |p| + 1
    ensures forall k {:trigger prefixRaw[k]} | 0 <= k <= |p| :: prefixRaw[k] == PrefixRaw(h, p, k)
  {
    prefixRaw := new nat[|p| + 1];
    prefixRaw[0] := 0;
    var sum := 0;
    for i := 0 to |p|
      invariant sum == PrefixRaw(h, p, i)
      invariant forall k {:trigger prefixRaw[k]} | 0 <= k <= i :: prefixRaw[k] == PrefixRaw(h, p, k)
    {
      sum := sum + Raw(h, p, i);
      prefixRaw[i + 1] := sum;
    }
  }

  method ScanSuffixes(h: Host, p: seq<Projected>, e: Economy, floor: int, q: seq<Placed>, prefixRaw: array<nat>)
    returns (bestSuffix: int)
    requires e.cost.Some? && prefixRaw.Length == |p| + 1
    requires forall k {:trigger prefixRaw[k]} | 0 <= k <= |p| :: prefixRaw[k] == PrefixRaw(h, p, k)
    ensures bestSuffix == BestFrom(h, p, e, floor, q, 0).at
  {
    var totalRaw := prefixRaw[|p|];
    bestSuffix := -1;
    var bestChars := -1;
    var suffixTokens: nat, suffixChars: int := 0, 0;
    var j := |q|;
    while j > 0
      invariant 0 <= j <= |q|
      invariant suffixTokens == SuffixTokens(q, j) && suffixChars == SuffixChars(q, j)
      invariant Best(bestSuffix, bestChars) == BestFrom(h, p, e, floor, q, j)
    {
      j := j - 1;
      suffixTokens := suffixTokens + q[j].tokens;
      suffixChars := suffixChars + q[j].candidate.saved;
      var first := q[j].index;
      if first >= |p| { continue; }
      RawSplit(h, p, first);
      RawSplit(h, p, 0);
      var tail := totalRaw - (if e.wholePrompt then 0 else prefixRaw[first]) - suffixTokens;
      var price := BreakEven(e.cost.value, suffixTokens, tail);
      if price.None? || price.value > LimitOf(e) || suffixChars < floor { continue; }
      if suffixChars > bestChars {
        bestChars, bestSuffix := suffixChars, j;
      }
    }
  }

  // ---------------------------------------------------------------- optimality over all subsets

  /** A subset of the sorted candidates, one flag each. */
  function PickedTokens(q: seq<Placed>, mask: seq<bool>, j: nat): nat
    requires |mask| == |q|
    decreases |q| - j
  {
    if j >= |q| then 0 else (if mask[j] then q[j].tokens else 0) + PickedTokens(q, mask, j + 1)
  }

  function PickedChars(q: seq<Placed>, mask: seq<bool>, j: nat): int
    requires |mask| == |q|
    decreases |q| - j
  {
    if j >= |q| then 0 else (if mask[j] then q[j].candidate.saved else 0) + PickedChars(q, mask, j + 1)
  }

  function FirstPicked(mask: seq<bool>, j: nat): (f: nat)
    requires j <= |mask|
    ensures j <= f <= |mask| && (f < |mask| ==> mask[f]) && forall i | j <= i < f :: !mask[i]
    decreases |mask| - j
  {
    if j == |mask| || mask[j] then j else FirstPicked(mask, j + 1)
  }

  predicate PickPays(h: Host, p: seq<Projected>, e: Economy, floor: int, q: seq<Placed>, mask: seq<bool>)
    requires |mask| == |q|
  {
    var f := FirstPicked(mask, 0);
    f < |q| && Pays(h, p, e, floor, q[f].index, PickedTokens(q, mask, 0), PickedChars(q, mask, 0))
  }

  lemma {:induction false} PickedAtMostSuffix(q: seq<Placed>, mask: seq<bool>, j: nat)
    requires |mask| == |q| && forall i | 0 <= i < |q| :: q[i].candidate.saved >= 0
    ensures PickedTokens(q, mask, j) <= SuffixTokens(q, j) && PickedChars(q, mask, j) <= SuffixChars(q, j)
    decreases |q| - j
  {
    if j < |q| {
      PickedAtMostSuffix(q, mask, j + 1);
    }
  }

  lemma {:induction false} PickedSkips(q: seq<Placed>, mask: seq<bool>, j: nat, f: nat)
    requires |mask| == |q| && j <= f <= |q| && forall i | j <= i < f :: !mask[i]
    ensures PickedTokens(q, mask, j) == PickedTokens(q, mask, f) && PickedChars(q, mask, j) == PickedChars(q, mask, f)
    decreases f - j
  {
    if j < f {
      PickedSkips(q, mask, j + 1, f);
    }
  }

  /** What the placed candidates promise about tokens. */
  predicate Grounded(h: Host, p: seq<Projected>, q: seq<Placed>) {
    forall i | 0 <= i < |q| ::
      if q[i].index < |p| then q[i].tokens <= Raw(h, p, q[i].index) else q[i].index == ABSENT && q[i].tokens == 0
  }

  /** Savings never exceed the messages they come from. */
  lemma {:induction false} SavedWithinTail(h: Host, p: seq<Projected>, q: seq<Placed>, j: nat, m: nat)
    requires Sorted(q) && AllApart(q) && Grounded(h, p, q) && j <= |q| && |p| <= ABSENT
    requires forall i | j <= i < |q| :: m <= q[i].index
    ensures SuffixTokens(q, j) <= RawFrom(h, p, m)
    decreases |q| - j
  {
    if j < |q| {
      if q[j].index < |p| {
        var n := q[j].index;
        forall i | j + 1 <= i < |q| ensures n + 1 <= q[i].index {
          assert Apart(q[j], q[i]);
        }
        SavedWithinTail(h, p, q, j + 1, n + 1);
        RawFromMonotone(h, p, m, n);
      } else {
        SavedWithinTail(h, p, q, j + 1, m);
      }
    }
  }

  /** Everything from the first pick on pays whenever the pick does. */
  lemma SuffixPaysToo(h: Host, p: seq<Projected>, e: Economy, floor: int, q: seq<Placed>, mask: seq<bool>, j: nat)
    requires Sorted(q) && AllApart(q) && Grounded(h, p, q) && |p| <= ABSENT && 0.0 <= LimitOf(e)
    requires |mask| == |q| && forall i | 0 <= i < |q| :: q[i].candidate.saved >= 0
    requires PickPays(h, p, e, floor, q, mask)
    requires j <= FirstPicked(mask, 0) && (j == FirstPicked(mask, 0) || e.wholePrompt)
    ensures SuffixPays(h, p, e, floor, q, j) && PickedChars(q, mask, 0) <= SuffixChars(q, j)
  {
    var f := FirstPicked(mask, 0);
    PickedSkips(q, mask, 0, j);
    PickedAtMostSuffix(q, mask, j);
    assert q[j].index <= q[f].index;
    var start := if e.wholePrompt then 0 else q[j].index;
    SavedWithinTail(h, p, q, j, start);
    var tokens, suffix := PickedTokens(q, mask, 0), SuffixTokens(q, j);
    BreakEvenMonotone(e.cost.value, tokens, RawFrom(h, p, start) - tokens, suffix, RawFrom(h, p, start) - suffix, LimitOf(e));
  }

  lemma PlacedGrounded(h: Host, p: seq<Projected>, cs: seq<Candidate>)
    requires DistinctIds(cs) && |p| <= ABSENT
    ensures var q := Sort(PlaceAll(h, p, cs));
            Sorted(q) && AllApart(q) && Grounded(h, p, q) && |q| == |cs|
  {
    var q := Sort(PlaceAll(h, p, cs));
    PlacedApart(h, p, cs);
    SortProperties(PlaceAll(h, p, cs));
    forall i | 0 <= i < |q|
      ensures if q[i].index < |p| then q[i].tokens <= Raw(h, p, q[i].index) else q[i].index == ABSENT && q[i].tokens == 0
    {
      assert q[i] in q;
      PlacedTrue(h, p, cs, q[i]);
    }
  }

  function SavedChars(cs: seq<Candidate>): int {
    if cs == [] then 0 else cs[0].saved + SavedChars(cs[1..])
  }

  lemma {:induction false} SuffixIsSaved(q: seq<Placed>, j: nat)
    requires j <= |q|
    ensures SavedChars(Candidates(q[j..])) == SuffixChars(q, j)
    decreases |q| - j
  {
    if j < |q| {
      SuffixIsSaved(q, j + 1);
      assert Candidates(q[j..])[1..] == Candidates(q[j + 1..]);
    }
  }

  /** Among all subsets of the candidates that pay back and clear the floor, the selected
      suffix saves the most characters; when no subset does, everything is selected. */
  lemma FrontierOptimal(h: Host, p: seq<Projected>, cs: seq<Candidate>, e: Economy, floor: int, mask: seq<bool>)
    requires DistinctIds(cs) && |p| <= ABSENT && e.cost.Some? && 0.0 <= LimitOf(e)
    requires forall i | 0 <= i < |cs| :: cs[i].saved >= 0
    requires |mask| == |cs|
    ensures var q := Sort(PlaceAll(h, p, cs));
            && |q| == |cs|
            && (PickPays(h, p, e, floor, q, mask) ==>
                  && PickedChars(q, mask, 0) <= SavedChars(SelectFrontier(h, p, cs, e, floor))
                  && exists j :: 0 <= j < |q| && SuffixPays(h, p, e, floor, q, j)
                                 && SelectFrontier(h, p, cs, e, floor) == Candidates(q[j..]))
            && ((forall m: seq<bool> | |m| == |q| :: !PickPays(h, p, e, floor, q, m)) ==>
                  SelectFrontier(h, p, cs, e, floor) == Candidates(q))
  {
    var q := Sort(PlaceAll(h, p, cs));
    PlacedGrounded(h, p, cs);
    BestRange(h, p, e, floor, q, 0);
    var best := BestFrom(h, p, e, floor, q, 0);
    if cs == [] {
      assert q == [];
    } else {
      NonNegative(h, p, cs);
      if PickPays(h, p, e, floor, q, mask) {
        SuffixPaysToo(h, p, e, floor, q, mask, FirstPicked(mask, 0));
        PickedNonNegative(q, mask, 0);
        SuffixIsSaved(q, best.at);
      }
      if best.at >= 0 {
        SuffixIsPick(h, p, e, floor, q, best.at);
      }
    }
  }

  /** A whole-prompt miss makes the cost independent of position: if any subset pays, the
      full set is selected. */
  lemma WholePromptTakesAll(h: Host, p: seq<Projected>, cs: seq<Candidate>, e: Economy, floor: int, mask: seq<bool>)
    requires DistinctIds(cs) && |p| <= ABSENT && e.cost.Some? && 0.0 <= LimitOf(e) && e.wholePrompt
    requires forall i | 0 <= i < |cs| :: cs[i].saved > 0
    requires |mask| == |Sort(PlaceAll(h, p, cs))| && PickPays(h, p, e, floor, Sort(PlaceAll(h, p, cs)), mask)
    ensures SelectFrontier(h, p, cs, e, floor) == Candidates(Sort(PlaceAll(h, p, cs)))
  {
    hide Sort, PlaceAll, Grounded, Sorted, AllApart, PickPays, BestFrom, SuffixPays, SelectFrontier, Candidates;
    var q := Sort(PlaceAll(h, p, cs));
    PlacedGrounded(h, p, cs);
    NonNegative(h, p, cs);
    FirstPickedExists(h, p, e, floor, q, mask);
    SuffixPaysToo(h, p, e, floor, q, mask, 0);
    FirstSuffixBest(h, p, e, floor, q);
    FullSelected(h, p, cs, e, floor);
  }

  lemma FullSelected(h: Host, p: seq<Projected>, cs: seq<Candidate>, e: Economy, floor: int)
    requires cs != [] && e.cost.Some? && BestFrom(h, p, e, floor, Sort(PlaceAll(h, p, cs)), 0).at == 0
    ensures SelectFrontier(h, p, cs, e, floor) == Candidates(Sort(PlaceAll(h, p, cs)))
  {
    hide Sort, PlaceAll, BestFrom;
    var q := Sort(PlaceAll(h, p, cs));
    BestRange(h, p, e, floor, q, 0);
    assert q[0..] == q;
  }

  lemma FirstPickedExists(h: Host, p: seq<Projected>, e: Economy, floor: int, q: seq<Placed>, mask: seq<bool>)
    requires |mask| == |q| && PickPays(h, p, e, floor, q, mask)
    ensures FirstPicked(mask, 0) < |q|
  {
  }

  /** When every candidate saves something and the full set pays, no shorter suffix is better. */
  lemma FirstSuffixBest(h: Host, p: seq<Projected>, e: Economy, floor: int, q: seq<Placed>)
    requires q != [] && SuffixPays(h, p, e, floor, q, 0) && forall i | 0 <= i < |q| :: q[i].candidate.saved > 0
    ensures BestFrom(h, p, e, floor, q, 0).at == 0
  {
    hide SuffixPays;
    BestRange(h, p, e, floor, q, 1);
    var later := BestFrom(h, p, e, floor, q, 1);
    ShorterSavesLess(q, 0, |q|);
    if later.at >= 0 {
      ShorterSavesLess(q, 0, later.at);
    }
  }

  lemma {:induction false} ShorterSavesLess(q: seq<Placed>, j: nat, k: nat)
    requires j <= k <= |q| && forall i | 0 <= i < |q| :: q[i].candidate.saved > 0
    ensures j < k ==> SuffixChars(q, k) < SuffixChars(q, j)
    decreases k - j
  {
    if j < k {
      ShorterSavesLess(q, j + 1, k);
    }
  }

  lemma NonNegative(h: Host, p: seq<Projected>, cs: seq<Candidate>)
    requires DistinctIds(cs) && |p| <= ABSENT
    ensures var q := Sort(PlaceAll(h, p, cs));
            forall i | 0 <= i < |q| :: q[i].candidate in cs
  {
    var q := Sort(PlaceAll(h, p, cs));
    forall i | 0 <= i < |q| ensures q[i].candidate in cs {
      assert q[i] in q;
      PlacedTrue(h, p, cs, q[i]);
    }
  }

  lemma {:induction false} PickedNonNegative(q: seq<Placed>, mask: seq<bool>, j: nat)
    requires |mask| == |q| && forall i | 0 <= i < |q| :: q[i].candidate.saved >= 0
    ensures 0 <= PickedChars(q, mask, j)
    decreases |q| - j
  {
    if j < |q| {
      PickedNonNegative(q, mask, j + 1);
    }
  }

  /** A suffix is one of the subsets. */
  lemma SuffixIsPick(h: Host, p: seq<Projected>, e: Economy, floor: int, q: seq<Placed>, j: nat)
    requires j < |q| && SuffixPays(h, p, e, floor, q, j)
    ensures exists m: seq<bool> :: |m| == |q| && PickPays(h, p, e, floor, q, m)
  {
    var m := seq(|q|, i => i >= j);
    PickedSkips(q, m, 0, j);
    SuffixPicked(q, m, j);
    assert FirstPicked(m, 0) == j;
    assert PickPays(h, p, e, floor, q, m);
  }

  lemma {:induction false} SuffixPicked(q: seq<Placed>, m: seq<bool>, j: nat)
    requires |m| == |q| && forall i | j <= i < |q| :: m[i]
    ensures PickedTokens(q, m, j) == SuffixTokens(q, j) && PickedChars(q, m, j) == SuffixChars(q, j)
    decreases |q| - j
  {
    if j < |q| {
      SuffixPicked(q, m, j + 1);
    }
  }
}
