/**
 What every accepted trim plan keeps.

 Its targets, its boundaries, thinking and recovery.
 */
module TrimSafety {
  import opened Wrappers
  import opened Branch
  import opened ToolGroups
  import opened Inspect
  import opened Economics
  import opened Frontier
  import opened Markers
  import opened Thinking
  import opened TrimPlan

  // ---------------------------------------------------------------- what is chosen

  lemma {:induction false} OfRankSource(h: Host, s: Scope, n: nat, rank: nat, c: Candidate) returns (i: nat)
    requires n <= |s.p| && c in OfRank(h, s, n, rank)
    ensures i < n && CandidateAt(h, s, i) == Some((c, rank))
  {
    if c in OfRank(h, s, n - 1, rank) {
      i := OfRankSource(h, s, n - 1, rank, c);
    } else {
      i := n - 1;
    }
  }

  lemma {:induction false} OfRankDistinct(h: Host, s: Scope, n: nat, rank: nat)
    requires n <= |s.p| && UniqueSources(s.p)
    ensures DistinctIds(OfRank(h, s, n, rank))
  {
    if n > 0 {
      OfRankDistinct(h, s, n - 1, rank);
      var before := OfRank(h, s, n - 1, rank);
      forall k | 0 <= k < |before| ensures before[k].id != s.p[n - 1].source.id {
        var i := OfRankSource(h, s, n - 1, rank, before[k]);
      }
    }
  }

  /** Candidates of different ranks come from different entries. */
  lemma RanksApart(h: Host, s: Scope, n: nat, r1: nat, r2: nat, a: Candidate, b: Candidate)
    requires n <= |s.p| && UniqueSources(s.p) && r1 != r2
    requires a in OfRank(h, s, n, r1) && b in OfRank(h, s, n, r2)
    ensures a.id != b.id
  {
    var i := OfRankSource(h, s, n, r1, a);
    var j := OfRankSource(h, s, n, r2, b);
  }

  lemma DistinctConcat(xs: seq<Candidate>, ys: seq<Candidate>)
    requires DistinctIds(xs) && DistinctIds(ys) && forall a, b | a in xs && b in ys :: a.id != b.id
    ensures DistinctIds(xs + ys)
  {
  }

  lemma EligibleDistinct(h: Host, s: Scope)
    requires UniqueSources(s.p)
    ensures DistinctIds(Eligible(h, s))
  {
    var n := Cutoff(s.p);
    var a, b, c := OfRank(h, s, n, 0), OfRank(h, s, n, 1), OfRank(h, s, n, 2);
    OfRankDistinct(h, s, n, 0);
    OfRankDistinct(h, s, n, 1);
    OfRankDistinct(h, s, n, 2);
    forall x, y | x in a && y in b ensures x.id != y.id { RanksApart(h, s, n, 0, 1, x, y); }
    DistinctConcat(a, b);
    forall x, y | x in a + b && y in c ensures x.id != y.id {
      if x in a { RanksApart(h, s, n, 0, 2, x, y); } else { RanksApart(h, s, n, 1, 2, x, y); }
    }
    DistinctConcat(a + b, c);
  }

  lemma EligibleSource(h: Host, s: Scope, c: Candidate) returns (i: nat, rank: nat)
    requires c in Eligible(h, s)
    ensures i < Cutoff(s.p) && CandidateAt(h, s, i) == Some((c, rank))
  {
    var n := Cutoff(s.p);
    var r0, r1, r2 := OfRank(h, s, n, 0), OfRank(h, s, n, 1), OfRank(h, s, n, 2);
    assert c in r0 + r1 + r2;
    rank := if c in r0 then 0 else if c in r1 then 1 else 2;
    i := OfRankSource(h, s, n, rank, c);
  }

  lemma SuffixCandidates(q: seq<Placed>, a: nat)
    requires AllApart(q) && a <= |q|
    ensures DistinctIds(Candidates(q[a..])) && |Candidates(q[a..])| == |q| - a
    ensures forall c | c in Candidates(q[a..]) :: exists i :: a <= i < |q| && q[i].candidate == c
  {
    var r := q[a..];
    forall i, j | 0 <= i < j < |r| ensures r[i].candidate.id != r[j].candidate.id {
      assert Apart(q[i + a], q[j + a]);
    }
    forall c | c in Candidates(r) ensures exists i :: a <= i < |q| && q[i].candidate == c {
      var i :| 0 <= i < |r| && Candidates(r)[i] == c;
      assert q[i + a].candidate == c;
    }
  }

  /** The frontier only drops and reorders candidates. */
  lemma SelectSubset(h: Host, p: seq<Projected>, cs: seq<Candidate>, e: Economy, floor: int)
    requires DistinctIds(cs) && |p| <= ABSENT
    ensures var r := SelectFrontier(h, p, cs, e, floor);
            DistinctIds(r) && |r| <= |cs| && forall c | c in r :: c in cs
  {
    if !(cs == [] || e.cost.None?) {
      var q := Sort(PlaceAll(h, p, cs));
      PlacedGrounded(h, p, cs);
      NonNegative(h, p, cs);
      BestRange(h, p, e, floor, q, 0);
      var best := BestFrom(h, p, e, floor, q, 0);
      var a: nat := if best.at < 0 then 0 else best.at;
      SuffixCandidates(q, a);
      assert q[0..] == q;
      assert SelectFrontier(h, p, cs, e, floor) == Candidates(q[a..]);
    }
  }

  /** Where a chosen candidate comes from: entry k of the branch, shown unedited as message i
      older than the recent turns, outside every boundary, with at least the minimum text. */
  ghost predicate ComesFrom(h: Host, b: seq<Entry>, after: Option<Id>, o: TrimOptions, c: Candidate, k: nat, i: nat) {
    var p := Project(b);
    && k < |b| && Shows(b[k]) && i < Cutoff(p) && p[i] == Projected(b[k], b[k].message)
    && b[k].id == c.id && NewestEdit(b, c.id).None?
    && ArchivableContent(b[k]) == Some(Content(c.text, true)) && |c.text| >= MIN_TRIM_CHARS
    && !AtOrBefore(b, c.id, Given(after)) && !AtOrBefore(b, c.id, AnchorBoundary(b, o))
    && (exists rank :: c.marker == Marker(h, p[i], rank)) && c.saved == |c.text| - |c.marker|
    && (IsNotice(p, i) ==> SignedAt(p, o.reader, |p|) <= i)
  }

  lemma ChosenSource(h: Host, b: seq<Entry>, after: Option<Id>, o: TrimOptions, c: Candidate) returns (k: nat, i: nat)
    requires UniqueIds(b) && |Project(b)| <= ABSENT && c in Chosen(h, b, after, o)
    ensures ComesFrom(h, b, after, o, c, k, i)
  {
    var s := ScopeOf(b, after, o);
    ProjectUniqueSources(b, b);
    EligibleDistinct(h, s);
    SelectSubset(h, s.p, Eligible(h, s), EconomyOf(o), FloorOf(o));
    var rank;
    i, rank := EligibleSource(h, s, c);
    k := ProjectSource(b, b, i);
    assert c == Propose(h, s.p[i], rank);
    assert c.marker == Marker(h, s.p[i], rank);
  }

  lemma ChosenDistinct(h: Host, b: seq<Entry>, after: Option<Id>, o: TrimOptions)
    requires UniqueIds(b) && |Project(b)| <= ABSENT
    ensures DistinctIds(Chosen(h, b, after, o)) && |Chosen(h, b, after, o)| <= MAX_TRIM_EDITS
  {
    var s := ScopeOf(b, after, o);
    ProjectUniqueSources(b, b);
    EligibleDistinct(h, s);
    SelectSubset(h, s.p, Eligible(h, s), EconomyOf(o), FloorOf(o));
  }

  /** Every retrieval line of the branch is within the marker limit. */
  predicate HeadsFit(h: Host, p: seq<Projected>) {
    forall i | 0 <= i < |p| :: |h.markerHead(p[i].message)(p[i].source.id)| <= TRIM_MARKER_MAX_CHARS
  }

  /** With retrieval lines within the limit, each candidate saves at least 1648 characters. */
  lemma EachEditSaves(h: Host, b: seq<Entry>, after: Option<Id>, o: TrimOptions, c: Candidate)
    requires HeadsFit(h, Project(b)) && c in Eligible(h, ScopeOf(b, after, o))
    ensures c.saved >= MIN_TRIM_CHARS - TRIM_MARKER_MAX_CHARS == 1648
  {
    var s := ScopeOf(b, after, o);
    var i, rank := EligibleSource(h, s, c);
    var x := s.p[i];
    MarkerBounded(h, h.markerHead(x.message)(x.source.id), h.markerLines(x.message)(rank));
    assert c == Propose(h, x, rank);
  }

  /** An accepted plan with known prices saves at least as much as any subset of the eligible
      outputs that pays back its rewrite and clears the floor. */
  lemma PlanSavesMost(h: Host, b: seq<Entry>, after: Option<Id>, o: TrimOptions, mask: seq<bool>)
    requires UniqueIds(b) && |Project(b)| <= ABSENT && HeadsFit(h, Project(b))
    requires EconomyOf(o).cost.Some? && 0.0 <= LimitOf(EconomyOf(o))
    requires PlanTrim(h, b, after, o).Ok? && !PlanTrim(h, b, after, o).value.blocked
    requires |mask| == |Eligible(h, ScopeOf(b, after, o))|
    ensures var s := ScopeOf(b, after, o);
            var q := Sort(PlaceAll(h, s.p, Eligible(h, s)));
            |q| == |mask| && (PickPays(h, s.p, EconomyOf(o), FloorOf(o), q, mask) ==>
                                PickedChars(q, mask, 0) <= PlanTrim(h, b, after, o).value.saved)
  {
    var s := ScopeOf(b, after, o);
    var cs := Eligible(h, s);
    ProjectUniqueSources(b, b);
    EligibleDistinct(h, s);
    PlacedGrounded(h, s.p, cs);
    forall i | 0 <= i < |cs| ensures cs[i].saved >= 0 {
      EachEditSaves(h, b, after, o, cs[i]);
    }
    FrontierOptimal(h, s.p, cs, EconomyOf(o), FloorOf(o), mask);
  }

  // ---------------------------------------------------------------- anchors

  lemma {:induction false} NewestAnchor(b: seq<Entry>, j: nat) returns (m: nat)
    requires j < |b| && Shows(b[j]) && b[j].anchor
    ensures j <= m < |b| && LastAnchor(b) == Some(b[m].id)
  {
    var e := b[|b| - 1];
    if Shows(e) && e.anchor {
      m := |b| - 1;
    } else {
      m := NewestAnchor(b[..|b| - 1], j);
    }
  }

  /** Under the default boundary a trim touches nothing at or before any anchor. */
  lemma AnchorsUntouched(h: Host, b: seq<Entry>, after: Option<Id>, o: TrimOptions, c: Candidate, j: nat, k: nat)
    requires UniqueIds(b) && |Project(b)| <= ABSENT && o.boundary.None? && c in Chosen(h, b, after, o)
    requires forall i | 0 <= i < |b| :: b[i].id != ""
    requires j < |b| && Shows(b[j]) && b[j].anchor && k < |b| && b[k].id == c.id
    ensures j < k
  {
    var m := NewestAnchor(b, j);
    var x, i := ChosenSource(h, b, after, o, c);
    assert x == k;
    IndexOfUnique(b, m);
    IndexOfUnique(b, k);
  }

  // ---------------------------------------------------------------- notices never cause a refusal

  lemma {:induction false} EditsOfFind(cs: seq<Candidate>, id: Id)
    requires DistinctIds(cs)
    ensures (forall k | 0 <= k < |cs| :: cs[k].id != id) ==> DraftEdit(EditsOf(cs), id).None?
    ensures forall k | 0 <= k < |cs| && cs[k].id == id :: DraftEdit(EditsOf(cs), id) == Some(Some(cs[k].marker))
  {
    if cs != [] {
      var n := |cs| - 1;
      assert EditsOf(cs)[..n] == EditsOf(cs[..n]);
      EditsOfFind(cs[..n], id);
    }
  }

  predicate FromNotice(p: seq<Projected>, c: Candidate) {
    exists i | 0 <= i < |p| :: p[i].source.id == c.id && IsNotice(p, i)
  }

  function WithoutNotices(p: seq<Projected>, cs: seq<Candidate>): seq<Candidate> {
    if cs == [] then []
    else WithoutNotices(p, cs[..|cs| - 1]) + if FromNotice(p, cs[|cs| - 1]) then [] else [cs[|cs| - 1]]
  }

  lemma {:induction false} WithoutNoticesMembers(p: seq<Projected>, cs: seq<Candidate>)
    requires DistinctIds(cs)
    ensures forall c :: c in WithoutNotices(p, cs) <==> c in cs && !FromNotice(p, c)
    ensures DistinctIds(WithoutNotices(p, cs))
  {
    if cs != [] {
      var n := |cs| - 1;
      WithoutNoticesMembers(p, cs[..n]);
      assert cs == cs[..n] + [cs[n]];
      var w := WithoutNotices(p, cs[..n]);
      forall i | 0 <= i < |w| ensures w[i].id != cs[n].id {
        assert w[i] in cs[..n];
      }
    }
  }

  lemma {:induction false} SignedAtLast(p: seq<Projected>, reader: Reader, n: nat, k: nat)
    requires n <= |p| && k < n && Signed(p[k].message) && !reader.OtherReader?
    ensures k <= SignedAt(p, reader, n)
  {
    if k < n - 1 {
      SignedAtLast(p, reader, n - 1, k);
    }
  }

  /** Dropping every notice from the edits of a plan does not change whether it is refused. */
  lemma NoticesNeverBlock(h: Host, b: seq<Entry>, after: Option<Id>, o: TrimOptions)
    requires UniqueIds(b) && |Project(b)| <= ABSENT
    ensures var p := Project(b);
            var cs := Chosen(h, b, after, o);
            ThinkingBlocks(p, EditsOf(cs), o.reader) <==> ThinkingBlocks(p, EditsOf(WithoutNotices(p, cs)), o.reader)
  {
    var p := Project(b);
    var cs := Chosen(h, b, after, o);
    var fewer := WithoutNotices(p, cs);
    ProjectUniqueSources(b, b);
    ChosenDistinct(h, b, after, o);
    WithoutNoticesMembers(p, cs);
    if !o.reader.OtherReader? {
      forall i | 0 <= i < |p|
        ensures || DraftEdit(EditsOf(cs), p[i].source.id) == DraftEdit(EditsOf(fewer), p[i].source.id)
                || (DraftEdit(EditsOf(fewer), p[i].source.id).None? && forall k | i <= k < |p| :: !Signed(p[k].message))
      {
        NoticeEditIsLate(h, b, after, o, i);
      }
      LateEditsDoNotBlock(p, EditsOf(cs), EditsOf(fewer), o.reader);
    }
  }

  lemma NoticeEditIsLate(h: Host, b: seq<Entry>, after: Option<Id>, o: TrimOptions, i: nat)
    requires UniqueIds(b) && |Project(b)| <= ABSENT && i < |Project(b)| && !o.reader.OtherReader?
    ensures var p := Project(b);
            var cs := Chosen(h, b, after, o);
            var fewer := EditsOf(WithoutNotices(p, cs));
            || DraftEdit(EditsOf(cs), p[i].source.id) == DraftEdit(fewer, p[i].source.id)
            || (DraftEdit(fewer, p[i].source.id).None? && forall k | i <= k < |p| :: !Signed(p[k].message))
  {
    var p := Project(b);
    var cs := Chosen(h, b, after, o);
    var fewer := WithoutNotices(p, cs);
    var id := p[i].source.id;
    ChosenDistinct(h, b, after, o);
    WithoutNoticesMembers(p, cs);
    EditsOfFind(cs, id);
    EditsOfFind(fewer, id);
    if c :| c in cs && c.id == id && !FromNotice(p, c) {
      assert c in fewer;
    } else {
      forall m | 0 <= m < |fewer| ensures fewer[m].id != id { assert fewer[m] in fewer; }
      if c :| c in cs && c.id == id {
        ChosenNoticeIsLate(h, b, after, o, c, i);
      }
    }
  }

  lemma ChosenNoticeIsLate(h: Host, b: seq<Entry>, after: Option<Id>, o: TrimOptions, c: Candidate, i: nat)
    requires UniqueIds(b) && |Project(b)| <= ABSENT && i < |Project(b)| && !o.reader.OtherReader?
    requires c in Chosen(h, b, after, o) && c.id == Project(b)[i].source.id && FromNotice(Project(b), c)
    ensures forall k | i <= k < |Project(b)| :: !Signed(Project(b)[k].message)
  {
    hide Chosen, SignedAt, Cutoff, NewestEdit, ProjectUnder;
    var p := Project(b);
    ProjectUniqueSources(b, b);
    var k, x := ChosenSource(h, b, after, o, c);
    assert x == i;
    forall j | i <= j < |p| ensures !Signed(p[j].message) {
      if Signed(p[j].message) { SignedAtLast(p, o.reader, |p|, j); }
    }
  }

  // ---------------------------------------------------------------- signed thinking

  /** The drafts of a trim edit what its plan edits: the control record edits nothing. */
  lemma TrimEntriesEdit(plan: Plan, cause: Cause, id: Id)
    ensures DraftEdit(TrimEntries(plan, cause), id) == DraftEdit(plan.edits, id)
  {
    if plan.edits != [] {
      var record := [ControlDraft(TrimControl(plan.references, plan.archives, cause))];
      DraftEditAbsent(record, id);
      DraftEditConcat(plan.edits, record, id);
    }
  }

  /** A trim replaces and never removes, and it edits only what no edit has touched. */
  lemma TrimEditOf(h: Host, b: seq<Entry>, after: Option<Id>, o: TrimOptions, id: Id)
    requires UniqueIds(b) && |Project(b)| <= ABSENT
    ensures var edit := DraftEdit(EditsOf(Chosen(h, b, after, o)), id);
            edit.Some? ==> edit.value.Some? && NewestEdit(b, id).None?
  {
    hide Project, Chosen;
    var cs := Chosen(h, b, after, o);
    ChosenDistinct(h, b, after, o);
    EditsOfFind(cs, id);
    if m :| 0 <= m < |cs| && cs[m].id == id {
      var k, i := ChosenSource(h, b, after, o, cs[m]);
    }
  }

  /** Every signed message has the same prefix, itself included, before and after an accepted
      trim is committed. */
  lemma TrimKeepsThinking(h: Host, b: seq<Entry>, after: Option<Id>, o: TrimOptions, cause: Cause, ids: seq<Id>, k: nat)
    requires UniqueIds(b) && |Project(b)| <= ABSENT && !o.reader.OtherReader?
    requires PlanTrim(h, b, after, o).Ok?
    requires |ids| == |TrimEntries(PlanTrim(h, b, after, o).value, cause)|
    requires k < |Project(b)| && Signed(Project(b)[k].message)
    ensures Project(b)[..k + 1] <= Project(b + StampAll(TrimEntries(PlanTrim(h, b, after, o).value, cause), ids))
  {
    hide Project, Chosen, ThinkingBlocks, DraftEdit, NewestEdit;
    var plan := PlanTrim(h, b, after, o).value;
    var ds := TrimEntries(plan, cause);
    var edits := EditsOf(Chosen(h, b, after, o));
    if plan.blocked {
      assert ds == [] && b + StampAll(ds, ids) == b;
    } else {
      forall id ensures DraftEdit(ds, id) == DraftEdit(edits, id)
                        && (DraftEdit(ds, id).Some? ==> DraftEdit(ds, id).value.Some? && NewestEdit(b, id).None?) {
        TrimEntriesEdit(plan, cause, id);
        TrimEditOf(h, b, after, o, id);
      }
      LateEditsDoNotBlock(Project(b), ds, edits, o.reader);
      AcceptedKeepsPrefix(b, ds, ids, o.reader, k);
    }
  }

  // ---------------------------------------------------------------- recovery

  lemma {:induction false} EvidenceOfChosen(h: Host, cs: seq<Candidate>, k: nat)
    requires DistinctIds(cs) && k < |cs|
    ensures EvidenceIn(ArchivesOf(h, cs), cs[k].id) == Some(Evidence(h.digest(cs[k].text), |cs[k].text|))
  {
    var n := |cs| - 1;
    assert ArchivesOf(h, cs)[..n] == ArchivesOf(h, cs[..n]);
    if k < n {
      EvidenceOfChosen(h, cs[..n], k);
    }
  }

  predicate FitsRecord(ids: seq<Id>) {
    forall i | 0 <= i < |ids| :: |ids[i]| <= MAX_ID_LENGTH
  }

  lemma PlanRecordValid(h: Host, cs: seq<Candidate>, cause: Cause)
    requires |cs| <= MAX_TRIM_EDITS
    ensures ValidControl(TrimControl(IdsOf(cs), ArchivesOf(h, cs), cause)) <==> FitsRecord(IdsOf(cs))
  {
    if FitsRecord(IdsOf(cs)) {
      forall i | 0 <= i < |cs| ensures |ArchivesOf(h, cs)[i].id| <= MAX_ID_LENGTH { assert IdsOf(cs)[i] == cs[i].id; }
    }
  }

  /** After a committed trim every reference reads back as the exact original text, provided
      the record the host keeps is valid: an id too long for a record makes the whole record
      unreadable, and only that does. */
  lemma TrimRoundTrip(h: Host, b: seq<Entry>, after: Option<Id>, o: TrimOptions, cause: Cause, ids: seq<Id>, session: string)
    requires |Project(b)| <= ABSENT
    requires PlanTrim(h, b, after, o).Ok? && PlanTrim(h, b, after, o).value.edits != []
    requires |ids| == |TrimEntries(PlanTrim(h, b, after, o).value, cause)|
    requires UniqueIds(b + StampAll(TrimEntries(PlanTrim(h, b, after, o).value, cause), ids))
    ensures var plan := PlanTrim(h, b, after, o).value;
            var b' := b + StampAll(TrimEntries(plan, cause), ids);
            (forall id | id in plan.references ::
               HasId(b, id) && ArchivableContent(b[IndexOf(b, id)]).Some?
               && ReadReference(h, b', session, id) == Ok(ArchivableContent(b[IndexOf(b, id)]).value.text))
            <==> FitsRecord(plan.references)
  {
    var plan := PlanTrim(h, b, after, o).value;
    var cs := Chosen(h, b, after, o);
    var drafts := TrimEntries(plan, cause);
    var b' := b + StampAll(drafts, ids);
    forall i, j | 0 <= i < j < |b| ensures b[i].id != b[j].id { assert b'[i].id != b'[j].id; }
    ChosenDistinct(h, b, after, o);
    PlanRecordValid(h, cs, cause);
    if FitsRecord(plan.references) {
      forall id | id in plan.references
        ensures HasId(b, id) && ArchivableContent(b[IndexOf(b, id)]).Some?
                && ReadReference(h, b', session, id) == Ok(ArchivableContent(b[IndexOf(b, id)]).value.text)
      {
        var m :| 0 <= m < |cs| && cs[m].id == id;
        ReadBack(h, b, after, o, cause, ids, session, m);
      }
    } else {
      var m :| 0 <= m < |plan.references| && |plan.references[m]| > MAX_ID_LENGTH;
      LongIdNeverReadable(h, b', session, plan.references[m]);
      assert plan.references[m] in plan.references;
    }
  }

  lemma ReadBack(h: Host, b: seq<Entry>, after: Option<Id>, o: TrimOptions, cause: Cause, ids: seq<Id>, session: string, m: nat)
    requires |Project(b)| <= ABSENT && UniqueIds(b)
    requires PlanTrim(h, b, after, o).Ok? && PlanTrim(h, b, after, o).value.edits != []
    requires |ids| == |TrimEntries(PlanTrim(h, b, after, o).value, cause)|
    requires m < |Chosen(h, b, after, o)| && FitsRecord(PlanTrim(h, b, after, o).value.references)
    ensures var id := Chosen(h, b, after, o)[m].id;
            && HasId(b, id) && ArchivableContent(b[IndexOf(b, id)]).Some?
            && ReadReference(h, b + StampAll(TrimEntries(PlanTrim(h, b, after, o).value, cause), ids), session, id)
               == Ok(ArchivableContent(b[IndexOf(b, id)]).value.text)
  {
    var cs := Chosen(h, b, after, o);
    var plan := PlanTrim(h, b, after, o).value;
    var drafts := TrimEntries(plan, cause);
    var b' := b + StampAll(drafts, ids);
    var j := |b'| - 1;
    var id := cs[m].id;
    ChosenDistinct(h, b, after, o);
    PlanRecordValid(h, cs, cause);
    EvidenceOfChosen(h, cs, m);
    var k, i := ChosenSource(h, b, after, o, cs[m]);
    IndexOfUnique(b, k);
    assert b'[k] == b[k];
    forall x | 0 <= x < k ensures b'[x].id != id { assert b'[x] == b[x]; }
    assert b'[j] == ControlEntry(ids[|ids| - 1], TrimControl(plan.references, plan.archives, cause));
    assert plan.references[m] == id;
    assert NewestIsRecord(b', id, j);
    assert ReadsFrom(h, b', id, k, j);
    ReadableExactly(h, b', session, id);
  }

  /** A control record only lists identifiers that fit. */
  lemma RecordedFits(e: Entry, id: Id)
    ensures Records(e, id) ==> |id| <= MAX_ID_LENGTH
  {
    if Records(e, id) {
      var refs := ControlOf(e).value.references;
      var x :| 0 <= x < |refs| && refs[x] == id;
    }
  }

  lemma LongIdNeverReadable(h: Host, b: seq<Entry>, session: string, id: Id)
    requires |id| > MAX_ID_LENGTH
    ensures ReadReference(h, b, session, id).Err?
  {
    AuthorizedByNewest(b, id);
    forall j | 0 <= j < |b| ensures Records(b[j], id) ==> |id| <= MAX_ID_LENGTH {
      RecordedFits(b[j], id);
    }
  }
}
