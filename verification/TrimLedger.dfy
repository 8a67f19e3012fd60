/**
 The books of committed trims, one trim at a time.

 What a commit saves, what it touches, how far it is from the trims before it, and that the
 savings report of the extended branch is the old one plus the plan's net saving. Whole runs
 of commits build on it.
 */
module TrimLedger {
  import opened Wrappers
  import opened Branch
  import opened Inspect
  import opened Frontier
  import opened TrimPlan
  import opened TrimSafety

  /** A committed trim: where its control record lies and whether it was automatic. */
  datatype Mark = Mark(pos: nat, automatic: bool)

  /** A branch with the sum of the committed plans' savings, the ids they trimmed, and their marks. */
  datatype History = History(b: seq<Entry>, saved: int, trimmed: seq<Id>, marks: seq<Mark>)

  /** What one commit appended: the chosen candidates and the ids the host gave. */
  datatype Committed = Committed(cs: seq<Candidate>, ids: seq<Id>, record: Id, cause: Cause, automatic: bool)

  predicate WellFormed(d: Committed) {
    |d.ids| == |d.cs| <= MAX_TRIM_EDITS && DistinctIds(d.cs) && FitsRecord(IdsOf(d.cs))
  }

  function EditEntries(d: Committed): seq<Entry>
    requires WellFormed(d)
  {
    StampAll(EditsOf(d.cs), d.ids)
  }

  function RecordEntry(h: Host, d: Committed): Entry {
    ControlEntry(d.record, TrimControl(IdsOf(d.cs), ArchivesOf(h, d.cs), d.cause))
  }

  /** s' is s after appending d: edits then their record, and when automatic no cooldown left. */
  predicate Lands(h: Host, s: History, s': History, d: Committed) {
    && WellFormed(d)
    && s'.b == s.b + EditEntries(d) + [RecordEntry(h, d)]
    && s'.marks == s.marks + [Mark(|s'.b| - 1, d.automatic)]
    && (d.automatic ==> CooldownTurns(s.b) == 0)
  }

  /** s' is s after committing d: it lands, its targets are fresh, and it is booked. */
  predicate Commits(h: Host, s: History, s': History, d: Committed) {
    && Lands(h, s, s', d)
    && (forall i | 0 <= i < |d.cs| :: d.cs[i].id !in s.trimmed && NewestEdit(s.b, d.cs[i].id).None?
                                      && d.cs[i].saved == |d.cs[i].text| - |d.cs[i].marker|)
    && s'.trimmed == s.trimmed + IdsOf(d.cs) && s'.saved == s.saved + SavedChars(d.cs)
  }

  /** An entry other than a context edit, a trim record or a rewind record: checkpoints, control
      records that do not parse, compactions and messages all keep the books. */
  predicate KeepsBooks(e: Entry) {
    !e.ContextEdit? && (ControlOf(e).None? || ControlOf(e).value.CheckpointControl?)
  }

  predicate DistinctSeq(xs: seq<Id>) {
    forall i, j | 0 <= i < j < |xs| :: xs[i] != xs[j]
  }

  /** The walk authorizes exactly the trimmed ids, every edit is the marker of one of them,
      and the books balance. */
  predicate Balanced(s: History) {
    var w := WalkTo(s.b);
    && w.references == s.trimmed && DistinctSeq(s.trimmed)
    && (forall i | 0 <= i < |s.b| && s.b[i].ContextEdit? :: s.b[i].target in s.trimmed)
    && (forall id | id in s.trimmed :: NewestEdit(s.b, id).Some?)
    && ArchivedChars(s.trimmed, w.archives) - MarkerChars(s.b, s.trimmed) == s.saved
  }

  // ---------------------------------------------------------------- sums

  lemma {:induction false} ArchivedConcat(xs: seq<Id>, ys: seq<Id>, m: map<Id, Evidence>)
    ensures ArchivedChars(xs + ys, m) == ArchivedChars(xs, m) + ArchivedChars(ys, m)
  {
    if ys == [] {
      assert xs + ys == xs;
    } else {
      assert (xs + ys)[..|xs + ys| - 1] == xs + ys[..|ys| - 1];
      ArchivedConcat(xs, ys[..|ys| - 1], m);
    }
  }

  lemma {:induction false} ArchivedSame(xs: seq<Id>, m: map<Id, Evidence>, n: map<Id, Evidence>)
    requires forall x | x in xs :: (x in m <==> x in n) && (x in m ==> m[x] == n[x])
    ensures ArchivedChars(xs, m) == ArchivedChars(xs, n)
  {
    if xs != [] {
      ArchivedSame(xs[..|xs| - 1], m, n);
    }
  }

  lemma {:induction false} MarkerSame(b: seq<Entry>, xs: seq<Id>, ys: seq<Id>)
    requires forall i | 0 <= i < |b| && b[i].ContextEdit? :: b[i].target in xs <==> b[i].target in ys
    ensures MarkerChars(b, xs) == MarkerChars(b, ys)
  {
    if b != [] {
      MarkerSame(b[..|b| - 1], xs, ys);
    }
  }

  lemma {:induction false} MarkerConcat(a: seq<Entry>, b: seq<Entry>, xs: seq<Id>)
    ensures MarkerChars(a + b, xs) == MarkerChars(a, xs) + MarkerChars(b, xs)
  {
    if b == [] {
      assert a + b == a;
    } else {
      assert (a + b)[..|a + b| - 1] == a + b[..|b| - 1];
      MarkerConcat(a, b[..|b| - 1], xs);
    }
  }

  function TextChars(cs: seq<Candidate>): nat {
    if cs == [] then 0 else TextChars(cs[..|cs| - 1]) + |cs[|cs| - 1].text|
  }

  function MarkersOf(cs: seq<Candidate>): nat {
    if cs == [] then 0 else MarkersOf(cs[..|cs| - 1]) + |cs[|cs| - 1].marker|
  }

  lemma {:induction false} SavedSplit(xs: seq<Candidate>, c: Candidate)
    ensures SavedChars(xs + [c]) == SavedChars(xs) + c.saved
  {
    if xs == [] {
      assert xs + [c] == [c];
      assert [c][1..] == [];
    } else {
      assert (xs + [c])[1..] == xs[1..] + [c];
      SavedSplit(xs[1..], c);
    }
  }

  lemma {:induction false} SavedIsDifference(cs: seq<Candidate>)
    requires forall i | 0 <= i < |cs| :: cs[i].saved == |cs[i].text| - |cs[i].marker|
    ensures SavedChars(cs) == TextChars(cs) - MarkersOf(cs)
  {
    if cs != [] {
      var n := |cs| - 1;
      SavedIsDifference(cs[..n]);
      SavedSplit(cs[..n], cs[n]);
      assert cs == cs[..n] + [cs[n]];
    }
  }

  // ---------------------------------------------------------------- one committed trim

  /** The markers of a trim, as committed entries. */
  lemma {:induction false} StampedChars(cs: seq<Candidate>, ids: seq<Id>, xs: seq<Id>)
    requires |ids| == |cs| && forall i | 0 <= i < |cs| :: cs[i].id in xs
    ensures MarkerChars(StampAll(EditsOf(cs), ids), xs) == MarkersOf(cs)
  {
    if cs != [] {
      var n := |cs| - 1;
      var es := StampAll(EditsOf(cs), ids);
      StampedChars(cs[..n], ids[..n], xs);
      assert es[..n] == StampAll(EditsOf(cs[..n]), ids[..n]);
    }
  }

  lemma {:induction false} WithoutAbsent(refs: seq<Id>, id: Id)
    requires id !in refs
    ensures Without(refs, id) == refs
  {
    if refs != [] {
      WithoutAbsent(refs[1..], id);
    }
  }

  /** Edits of entries nobody has archived leave the references and evidence alone. */
  lemma {:induction false} WalkEdits(b: seq<Entry>, cs: seq<Candidate>, ids: seq<Id>)
    requires |ids| == |cs| && forall i | 0 <= i < |cs| :: cs[i].id !in WalkTo(b).references
    ensures var w := WalkTo(b + StampAll(EditsOf(cs), ids));
            w.references == WalkTo(b).references && w.archives == WalkTo(b).archives
  {
    var es := StampAll(EditsOf(cs), ids);
    if cs == [] {
      assert b + es == b;
    } else {
      var n := |cs| - 1;
      WalkEdits(b, cs[..n], ids[..n]);
      assert (b + es)[..|b + es| - 1] == b + StampAll(EditsOf(cs[..n]), ids[..n]);
      WithoutAbsent(WalkTo(b).references, cs[n].id);
    }
  }

  /** A record of fresh ids appends them to the references. */
  lemma {:induction false} AddFresh(w: Walk, refs: seq<Id>, archives: seq<Archive>)
    requires DistinctSeq(refs) && forall x | x in refs :: x !in w.references
    ensures AddReferences(w, refs, archives).references == w.references + refs
  {
    if refs == [] {
      assert w.references + refs == w.references;
    } else {
      var n := |refs| - 1;
      AddFresh(w, refs[..n], archives);
      assert refs == refs[..n] + [refs[n]];
      assert refs[n] !in refs[..n];
      assert w.references + refs[..n] + [refs[n]] == w.references + refs;
    }
  }

  lemma {:induction false} ArchivedOfChosen(cs: seq<Candidate>, m: map<Id, Evidence>)
    requires forall i | 0 <= i < |cs| :: cs[i].id in m && m[cs[i].id].chars == |cs[i].text|
    ensures ArchivedChars(IdsOf(cs), m) == TextChars(cs)
  {
    if cs != [] {
      var n := |cs| - 1;
      assert IdsOf(cs)[..n] == IdsOf(cs[..n]);
      ArchivedOfChosen(cs[..n], m);
    }
  }

  /** The record of a trim: the walk after it. */
  lemma WalkRecord(h: Host, b: seq<Entry>, d: Committed)
    requires WellFormed(d) && forall i | 0 <= i < |d.cs| :: d.cs[i].id !in WalkTo(b).references
    ensures var w := WalkTo(b + EditEntries(d) + [RecordEntry(h, d)]);
            && w.references == WalkTo(b).references + IdsOf(d.cs)
            && ArchivedChars(w.references, w.archives)
               == ArchivedChars(WalkTo(b).references, WalkTo(b).archives) + TextChars(d.cs)
  {
    var cs, c := d.cs, RecordEntry(h, d);
    var es := b + EditEntries(d);
    var before := WalkTo(es);
    WalkEdits(b, cs, d.ids);
    PlanRecordValid(h, cs, d.cause);
    assert (es + [c])[..|es + [c]| - 1] == es;
    var w := AddReferences(before, IdsOf(cs), ArchivesOf(h, cs));
    assert WalkTo(es + [c]) == w;
    forall i | 0 <= i < |IdsOf(cs)| ensures IdsOf(cs)[i] !in before.references {
      assert IdsOf(cs)[i] == cs[i].id;
    }
    AddFresh(before, IdsOf(cs), ArchivesOf(h, cs));
    forall i | 0 <= i < |cs| ensures cs[i].id in w.archives && w.archives[cs[i].id].chars == |cs[i].text| {
      AddReferencesMembers(before, IdsOf(cs), ArchivesOf(h, cs), cs[i].id);
      EvidenceOfChosen(h, cs, i);
      assert IdsOf(cs)[i] == cs[i].id;
    }
    ArchivedOfChosen(cs, w.archives);
    forall x | x in before.references
      ensures (x in w.archives <==> x in before.archives) && (x in w.archives ==> w.archives[x] == before.archives[x])
    {
      AddReferencesMembers(before, IdsOf(cs), ArchivesOf(h, cs), x);
    }
    ArchivedSame(before.references, w.archives, before.archives);
    ArchivedConcat(before.references, IdsOf(cs), w.archives);
  }

  /** Such an entry leaves the walk's references and evidence alone. */
  lemma WalkAppend(b: seq<Entry>, e: Entry)
    requires KeepsBooks(e)
    ensures WalkTo(b + [e]).references == WalkTo(b).references && WalkTo(b + [e]).archives == WalkTo(b).archives
  {
    assert (b + [e])[..|b + [e]| - 1] == b;
  }

  lemma MarkersAppend(b: seq<Entry>, e: Entry, xs: seq<Id>)
    requires !e.ContextEdit?
    ensures MarkerChars(b + [e], xs) == MarkerChars(b, xs)
  {
    assert (b + [e])[..|b + [e]| - 1] == b;
  }

  lemma NewestAppend(b: seq<Entry>, e: Entry, id: Id)
    requires !e.ContextEdit?
    ensures NewestEdit(b + [e], id) == NewestEdit(b, id)
  {
    assert (b + [e])[..|b + [e]| - 1] == b;
  }

  lemma AppendBalanced(s: History, e: Entry)
    requires Balanced(s) && KeepsBooks(e)
    ensures Balanced(s.(b := s.b + [e]))
  {
    hide WalkTo, MarkerChars, ArchivedChars, NewestEdit;
    WalkAppend(s.b, e);
    MarkersAppend(s.b, e, s.trimmed);
    forall id | id in s.trimmed ensures NewestEdit(s.b + [e], id).Some? {
      NewestAppend(s.b, e, id);
    }
  }

  lemma CommitBooks(h: Host, s: History, s': History, d: Committed)
    requires Balanced(s) && Commits(h, s, s', d)
    ensures WalkTo(s'.b).references == s'.trimmed
    ensures ArchivedChars(s'.trimmed, WalkTo(s'.b).archives) - MarkerChars(s'.b, s'.trimmed) == s'.saved
  {
    var cs, edits, c := d.cs, EditEntries(d), RecordEntry(h, d);
    WalkRecord(h, s.b, d);
    SavedIsDifference(cs);
    forall i | 0 <= i < |cs| ensures cs[i].id in s'.trimmed { assert IdsOf(cs)[i] in IdsOf(cs); }
    StampedChars(cs, d.ids, s'.trimmed);
    CommitMarkers(s, cs, edits, c, s'.trimmed);
  }

  lemma CommitBalanced(h: Host, s: History, s': History, d: Committed)
    requires Balanced(s) && Commits(h, s, s', d)
    ensures Balanced(s')
  {
    CommitBooks(h, s, s', d);
    TrimmedDistinct(s.trimmed, d.cs);
    CommitEdits(s, d.cs, EditEntries(d), RecordEntry(h, d), s'.trimmed);
  }

  lemma TrimmedDistinct(xs: seq<Id>, cs: seq<Candidate>)
    requires DistinctSeq(xs) && DistinctIds(cs) && forall i | 0 <= i < |cs| :: cs[i].id !in xs
    ensures DistinctSeq(xs + IdsOf(cs))
  {
  }

  lemma CommitMarkers(s: History, cs: seq<Candidate>, edits: seq<Entry>, c: Entry, all: seq<Id>)
    requires Balanced(s) && c.ControlEntry? && all == s.trimmed + IdsOf(cs)
    requires forall i | 0 <= i < |cs| :: NewestEdit(s.b, cs[i].id).None?
    ensures MarkerChars(s.b + edits + [c], all) == MarkerChars(s.b, s.trimmed) + MarkerChars(edits, all)
  {
    MarkerConcat(s.b, edits, all);
    MarkerConcat(s.b + edits, [c], all);
    assert [c][..0] == [];
    assert MarkerChars([c], all) == 0;
    forall i | 0 <= i < |s.b| && s.b[i].ContextEdit? ensures s.b[i].target in all <==> s.b[i].target in s.trimmed {
      assert s.b[i].target in s.trimmed;
    }
    MarkerSame(s.b, all, s.trimmed);
  }

  lemma CommitEdits(s: History, cs: seq<Candidate>, edits: seq<Entry>, c: Entry, all: seq<Id>)
    requires Balanced(s) && c.ControlEntry? && all == s.trimmed + IdsOf(cs)
    requires |edits| == |cs| && forall i | 0 <= i < |cs| :: edits[i].ContextEdit? && edits[i].target == cs[i].id
    ensures forall i | 0 <= i < |s.b + edits + [c]| && (s.b + edits + [c])[i].ContextEdit? :: (s.b + edits + [c])[i].target in all
    ensures forall id | id in all :: NewestEdit(s.b + edits + [c], id).Some?
  {
    var b' := s.b + edits + [c];
    forall i | 0 <= i < |b'| && b'[i].ContextEdit? ensures b'[i].target in all {
      if i < |s.b| {
        assert b'[i] == s.b[i];
      } else {
        assert b'[i] == edits[i - |s.b|];
        assert IdsOf(cs)[i - |s.b|] in IdsOf(cs);
      }
    }
    forall id | id in all ensures NewestEdit(b', id).Some? {
      NewestEditAbsent(b', id);
      if id in s.trimmed {
        NewestEditAbsent(s.b, id);
        var i :| 0 <= i < |s.b| && s.b[i].ContextEdit? && s.b[i].target == id;
        assert b'[i] == s.b[i];
      } else {
        var i :| 0 <= i < |cs| && IdsOf(cs)[i] == id;
        assert b'[|s.b| + i] == edits[i];
      }
    }
  }

  // ---------------------------------------------------------------- spacing of automatic trims

  lemma {:induction false} TurnsSplit(b: seq<Entry>, i: nat, j: nat, k: nat)
    requires i <= j <= k <= |b|
    ensures AssistantTurns(b, i, k) == AssistantTurns(b, i, j) + AssistantTurns(b, j, k)
    decreases j - i
  {
    if i < j {
      TurnsSplit(b, i + 1, j, k);
    }
  }

  lemma {:induction false} TurnsPrefix(b: seq<Entry>, c: seq<Entry>, i: nat, j: nat)
    requires i <= j <= |b| && b <= c
    ensures AssistantTurns(b, i, j) == AssistantTurns(c, i, j)
    decreases j - i
  {
    if i < j {
      assert b[i] == c[i];
      TurnsPrefix(b, c, i + 1, j);
    }
  }

  lemma NoCooldown(b: seq<Entry>, c: nat)
    requires CooldownTurns(b) == 0 && c < |b| && ChangesContext(b[c])
    ensures AssistantTurns(b, c + 1, |b|) >= AUTO_TRIM_COOLDOWN_TURNS
  {
    var last := LastChange(b, |b|);
    TurnsSplit(b, c + 1, last + 1, |b|);
  }

  predicate Changes(b: seq<Entry>, m: Mark) {
    m.pos < |b| && ChangesContext(b[m.pos])
  }

  /** An automatic mark is at least eight assistant messages after every context change before it. */
  predicate Isolated(b: seq<Entry>, m: Mark)
    requires m.pos < |b|
  {
    m.automatic ==>
      forall c | 0 <= c < m.pos && ChangesContext(b[c]) :: AssistantTurns(b, c + 1, m.pos) >= AUTO_TRIM_COOLDOWN_TURNS
  }

  predicate Spaced(b: seq<Entry>, marks: seq<Mark>) {
    && (forall i | 0 <= i < |marks| :: Changes(b, marks[i]) && Isolated(b, marks[i]))
    && (forall i, j | 0 <= i < j < |marks| :: marks[i].pos < marks[j].pos)
  }

  lemma ExtendIsolated(b: seq<Entry>, c: seq<Entry>, m: Mark)
    requires b <= c && Changes(b, m) && Isolated(b, m)
    ensures Changes(c, m) && Isolated(c, m)
  {
    if m.automatic {
      forall x | 0 <= x < m.pos && ChangesContext(c[x]) ensures AssistantTurns(c, x + 1, m.pos) >= AUTO_TRIM_COOLDOWN_TURNS {
        assert c[x] == b[x];
        TurnsPrefix(b, c, x + 1, m.pos);
      }
    }
  }

  lemma ExtendSpaced(b: seq<Entry>, tail: seq<Entry>, marks: seq<Mark>)
    requires Spaced(b, marks)
    ensures Spaced(b + tail, marks)
  {
    forall i | 0 <= i < |marks| ensures Changes(b + tail, marks[i]) && Isolated(b + tail, marks[i]) {
      ExtendIsolated(b, b + tail, marks[i]);
    }
  }

  lemma LaterTurns(b: seq<Entry>, c: seq<Entry>, i: nat, j: nat)
    requires b <= c && i <= |b| <= j <= |c|
    ensures AssistantTurns(c, i, j) >= AssistantTurns(b, i, |b|)
  {
    TurnsPrefix(b, c, i, |b|);
    TurnsSplit(c, i, |b|, j);
  }

  lemma EditsChangeNothing(b: seq<Entry>, edits: seq<Entry>, c: nat)
    requires c < |b + edits| && forall i | 0 <= i < |edits| :: edits[i].ContextEdit?
    ensures ChangesContext((b + edits)[c]) ==> c < |b|
  {
  }

  /** The record of a new trim, after its edits, is apart from all that changed the context before. */
  lemma RecordIsolated(b: seq<Entry>, edits: seq<Entry>, e: Entry, automatic: bool)
    requires forall i | 0 <= i < |edits| :: edits[i].ContextEdit?
    requires automatic ==> CooldownTurns(b) == 0
    ensures Isolated(b + edits + [e], Mark(|b + edits|, automatic))
  {
    var all := b + edits + [e];
    if automatic {
      forall c | 0 <= c < |b + edits| && ChangesContext(all[c])
        ensures AssistantTurns(all, c + 1, |b + edits|) >= AUTO_TRIM_COOLDOWN_TURNS
      {
        assert all[c] == (b + edits)[c];
        EditsChangeNothing(b, edits, c);
        NoCooldown(b, c);
        LaterTurns(b, all, c + 1, |b + edits|);
      }
    }
  }

  lemma CommitSpaced(h: Host, s: History, s': History, d: Committed)
    requires Spaced(s.b, s.marks) && Lands(h, s, s', d)
    ensures Spaced(s'.b, s'.marks)
  {
    var edits, record := EditEntries(d), RecordEntry(h, d);
    var m := Mark(|s'.b| - 1, d.automatic);
    RecordIsolated(s.b, edits, record, d.automatic);
    PlanRecordValid(h, d.cs, d.cause);
    assert s'.b == s.b + (edits + [record]);
    ExtendSpaced(s.b, edits + [record], s.marks);
    assert Changes(s'.b, m);
    forall i | 0 <= i < |s.marks| ensures s.marks[i].pos < m.pos {
      assert Changes(s.b, s.marks[i]);
    }
  }
}
