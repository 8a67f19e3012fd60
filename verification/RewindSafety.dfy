/**
 What every accepted rewind keeps.

 Paired calls, signed thinking, and recovery.
 */
module RewindSafety {
  import opened Wrappers
  import opened Branch
  import opened ToolGroups
  import opened Inspect
  import opened Thinking
  import opened RewindPlan

  // ---------------------------------------------------------------- the edits of a rewind

  lemma {:induction false} TargetsMembers(es: seq<Entry>, research: map<Id, Option<Call>>, id: Id)
    ensures id in TargetsIn(es, research) <==> exists i :: 0 <= i < |es| && es[i].id == id && IsTarget(es[i], research)
  {
    if es != [] {
      TargetsMembers(es[1..], research, id);
      if i :| 0 <= i < |es| && es[i].id == id && IsTarget(es[i], research) && i > 0 {
        assert es[1..][i - 1] == es[i];
      }
      if i :| 0 <= i < |es[1..]| && es[1..][i].id == id && IsTarget(es[1..][i], research) {
        assert es[i + 1] == es[1..][i];
      }
    }
  }

  lemma {:induction false} RemovalsFind(targets: seq<Id>, id: Id)
    ensures DraftEdit(Removals(targets), id) == if id in targets then Some(None) else None
  {
    if targets != [] {
      var n := |targets| - 1;
      assert Removals(targets)[..n] == Removals(targets[..n]);
      assert targets == targets[..n] + [targets[n]];
      RemovalsFind(targets[..n], id);
    }
  }

  lemma ReplacementFind(outputs: seq<Output>, id: Id)
    ensures DraftEdit(Replacements(outputs), id).Some? ==>
              exists o :: o in outputs && o.id == id && DraftEdit(Replacements(outputs), id) == Some(Some(o.marker))
  {
    var ds := Replacements(outputs);
    if DraftEdit(ds, id).Some? {
      DraftEditWitness(ds, id);
      var i :| 0 <= i < |ds| && ds[i] == EditDraft(id, DraftEdit(ds, id).value);
      assert outputs[i] in outputs;
    }
  }

  lemma {:induction false} StrandedSource(h: Host, p: seq<Projected>, k: nat, b: seq<Entry>, from: nat, targets: seq<Id>, o: Output)
    returns (i: nat)
    requires k <= |p| && from <= |b| && o in Stranded(h, p, k, b, from, targets)
    ensures i < k && StrandedAt(h, p, i, b, from, targets) == Some(o)
  {
    if o in Stranded(h, p, k - 1, b, from, targets) {
      i := StrandedSource(h, p, k - 1, b, from, targets, o);
    } else {
      i := k - 1;
    }
  }

  lemma {:induction false} InsertOutputMembers(s: seq<Output>, x: Output)
    ensures forall o :: o in InsertOutput(s, x) <==> o in s || o == x
  {
    if !(s == [] || |s[|s| - 1].text| >= |x.text|) {
      InsertOutputMembers(s[..|s| - 1], x);
      assert s == s[..|s| - 1] + [s[|s| - 1]];
    }
  }

  lemma {:induction false} SortOutputsMembers(s: seq<Output>)
    ensures forall o :: o in SortOutputs(s) <==> o in s
  {
    if s != [] {
      SortOutputsMembers(s[..|s| - 1]);
      InsertOutputMembers(SortOutputs(s[..|s| - 1]), s[|s| - 1]);
      assert s == s[..|s| - 1] + [s[|s| - 1]];
    }
  }

  lemma ArchivedIsStranded(h: Host, b: seq<Entry>, state: Inspection, reader: Reader, o: Output)
    requires 0 <= state.index < |b| && o in Archived(h, b, state, reader)
    ensures o in Stranded(h, Project(b), |Project(b)|, b, state.index + 1, TargetsOf(b, state))
  {
    hide Stranded, SortOutputs, TargetsOf, Project, ThinkingBlocks;
    SortOutputsMembers(Stranded(h, Project(b), |Project(b)|, b, state.index + 1, TargetsOf(b, state)));
  }

  /** A replaced output is a tool result shown unedited after the checkpoint, and no target. */
  lemma ArchivedSource(h: Host, b: seq<Entry>, state: Inspection, reader: Reader, o: Output) returns (i: nat)
    requires 0 <= state.index < |b| && o in Archived(h, b, state, reader)
    ensures i < |Project(b)| && Project(b)[i].source.id == o.id && Project(b)[i].message.ToolResult?
    ensures NewestEdit(b, o.id).None? && o.id !in TargetsOf(b, state)
    ensures Project(b)[i].message.content == Content(o.text, true)
  {
    hide Archived, TargetsOf, Project;
    ArchivedIsStranded(h, b, state, reader, o);
    i := StrandedSource(h, Project(b), |Project(b)|, b, state.index + 1, TargetsOf(b, state), o);
  }

  /** What the drafts of a rewind do to one id. */
  predicate RewindEdits(b: seq<Entry>, state: Inspection, ds: seq<Draft>, id: Id)
    requires 0 <= state.index < |b|
  {
    if id in TargetsOf(b, state) then DraftEdit(ds, id) == Some(None)
    else DraftEdit(ds, id) == None || (DraftEdit(ds, id).value.Some? && NewestEdit(b, id).None?
                                       && forall i | 0 <= i < |Project(b)| && Project(b)[i].source.id == id :: Project(b)[i].message.ToolResult?)
  }

  lemma EntriesEdit(r: Rewind, id: Id)
    ensures DraftEdit(RewindEntries(r), id) == DraftEdit(r.edits, id)
  {
    var tail := [ReportDraft(r.report), ControlDraft(RewindControl(ArchiveIds(r.archives), r.archives))];
    DraftEditAbsent(tail, id);
    DraftEditConcat(r.edits, tail, id);
  }

  lemma PlanEdits(h: Host, b: seq<Entry>, state: Inspection, reader: Reader, id: Id)
    requires 0 <= state.index < |b| && UniqueIds(b)
    ensures RewindEdits(b, state, Removals(TargetsOf(b, state)) + Replacements(Archived(h, b, state, reader)), id)
  {
    var targets, outputs := TargetsOf(b, state), Archived(h, b, state, reader);
    DraftEditConcat(Removals(targets), Replacements(outputs), id);
    RemovalsFind(targets, id);
    ReplacementFind(outputs, id);
    if DraftEdit(Replacements(outputs), id).Some? {
      var o :| o in outputs && o.id == id;
      var i := ArchivedSource(h, b, state, reader, o);
      ProjectUniqueSources(b, b);
    }
  }

  // ---------------------------------------------------------------- pairing

  lemma {:induction false} OverlayShape(p: seq<Projected>, ds: seq<Draft>, gone: set<Id>)
    requires forall i | 0 <= i < |p| ::
               && (DraftEdit(ds, p[i].source.id) == Some(None) <==> p[i].source.id in gone)
               && (DraftEdit(ds, p[i].source.id).Some? && DraftEdit(ds, p[i].source.id).value.Some? ==> p[i].message.ToolResult?)
    ensures SameShape(Keep(p, gone), Overlay(p, ds))
  {
    if p != [] {
      OverlayShape(p[1..], ds, gone);
    }
  }

  lemma {:induction false} PairedCustom(open: set<string>, tail: seq<Projected>)
    requires forall i | 0 <= i < |tail| :: tail[i].message.Custom?
    ensures Paired(open, tail) <==> open == {}
  {
    if tail != [] {
      PairedCustom(open, tail[1..]);
    }
  }

  /** Custom messages at the end do not matter. */
  lemma CustomTail(p: seq<Projected>, tail: seq<Projected>)
    requires forall i | 0 <= i < |tail| :: tail[i].message.Custom?
    ensures Paired({}, p + tail) <==> Paired({}, p)
  {
    PairedSplit({}, p, tail);
    PairedSplit({}, p, []);
    assert p + [] == p;
    PairedCustom(OpenAfter({}, p), tail);
  }

  lemma {:induction false} StampedShowsCustom(es: seq<Entry>, b: seq<Entry>)
    requires forall i | 0 <= i < |es| :: Shows(es[i]) ==> es[i].message.Custom?
    ensures forall i | 0 <= i < |ProjectUnder(es, b)| :: ProjectUnder(es, b)[i].message.Custom?
  {
    if es != [] {
      StampedShowsCustom(es[1..], b);
    }
  }

  /** Where the projection of the checkpoint's prefix ends. */
  function BoundaryOf(b: seq<Entry>, state: Inspection): nat
    requires 0 <= state.index < |b|
  {
    |ProjectUnder(b[..state.index + 1], b)|
  }

  lemma BoundarySplits(b: seq<Entry>, state: Inspection)
    requires 0 <= state.index < |b|
    ensures var c := BoundaryOf(b, state);
            && c <= |Project(b)|
            && Project(b)[..c] == ProjectUnder(b[..state.index + 1], b)
            && Project(b)[c..] == ProjectUnder(b[state.index + 1..], b)
  {
    assert b == b[..state.index + 1] + b[state.index + 1..];
    ProjectUnderConcat(b[..state.index + 1], b[state.index + 1..], b);
  }

  lemma BeforeBoundary(b: seq<Entry>, cut: nat, research: map<Id, Option<Call>>, j: nat)
    requires UniqueIds(b) && cut <= |b| && j < |ProjectUnder(b[..cut], b)|
    ensures ProjectUnder(b[..cut], b)[j].source.id !in TargetsIn(b[cut..], research)
  {
    var i := ProjectSource(b[..cut], b, j);
    BeforeCutNoTarget(b, cut, research, i);
  }

  /** An entry shown as anything but a custom message is a target by its group alone. */
  lemma NotCustomTarget(e: Entry, edit: Option<Option<string>>, p: Projected, research: map<Id, Option<Call>>)
    requires Show(e, edit) == [p] && !p.message.Custom?
    ensures p.source == e && (IsTarget(e, research) <==> e.id in research)
  {
  }

  lemma AfterBoundary(b: seq<Entry>, cut: nat, research: map<Id, Option<Call>>, j: nat)
    requires UniqueIds(b) && cut <= |b| && j < |ProjectUnder(b[cut..], b)|
    requires !ProjectUnder(b[cut..], b)[j].message.Custom?
    ensures var id := ProjectUnder(b[cut..], b)[j].source.id;
            id in TargetsIn(b[cut..], research) <==> id in research
  {
    hide ProjectUnder, TargetsIn, NewestEdit;
    var i := ProjectSource(b[cut..], b, j);
    AfterCutTarget(b, cut, research, cut + i);
    assert b[cut..][i] == b[cut + i];
    NotCustomTarget(b[cut + i], NewestEdit(b, b[cut + i].id), ProjectUnder(b[cut..], b)[j], research);
  }

  /** The targets of a rewind are whole removable groups after the checkpoint, and notices. */
  lemma TargetsAreGroups(b: seq<Entry>, state: Inspection)
    requires 0 <= state.index < |b| && UniqueIds(b)
    ensures BoundaryOf(b, state) <= |Project(b)|
    ensures TakesGroupsAfter(Project(b), BoundaryOf(b, state), Removable, set id | id in TargetsOf(b, state))
  {
    hide Groups, TargetsIn, ProjectUnder;
    var p := Project(b);
    var c := BoundaryOf(b, state);
    var cut := state.index + 1;
    var research := Groups(p, |p|, Removable);
    BoundarySplits(b, state);
    forall j | 0 <= j < c ensures p[j].source.id !in TargetsOf(b, state) {
      assert p[j] == ProjectUnder(b[..cut], b)[j];
      BeforeBoundary(b, cut, research, j);
    }
    forall j | c <= j < |p| && !p[j].message.Custom?
      ensures p[j].source.id in TargetsOf(b, state) <==> p[j].source.id in research
    {
      assert p[j] == ProjectUnder(b[cut..], b)[j - c];
      AfterBoundary(b, cut, research, j - c);
    }
  }

  lemma BeforeCutNoTarget(b: seq<Entry>, cut: nat, research: map<Id, Option<Call>>, i: nat)
    requires UniqueIds(b) && i < cut <= |b|
    ensures b[i].id !in TargetsIn(b[cut..], research)
  {
    TargetsMembers(b[cut..], research, b[i].id);
    forall k | 0 <= k < |b[cut..]| ensures b[cut..][k].id != b[i].id {
      assert b[cut..][k] == b[cut + k];
    }
  }

  lemma AfterCutTarget(b: seq<Entry>, cut: nat, research: map<Id, Option<Call>>, i: nat)
    requires UniqueIds(b) && cut <= i < |b|
    ensures b[i].id in TargetsIn(b[cut..], research) <==> IsTarget(b[i], research)
  {
    TargetsMembers(b[cut..], research, b[i].id);
    assert b[cut..][i - cut] == b[i];
    forall k | 0 <= k < |b[cut..]| && b[cut..][k].id == b[i].id ensures k == i - cut {
      assert b[cut..][k] == b[cut + k];
    }
  }

  /** A rewind of a paired context leaves it paired, no orphan result and no unanswered call,
      exactly when the checkpoint does not cut a removable batch in two. */
  lemma RewindKeepsPairing(h: Host, b: seq<Entry>, session: string, cp: Id, report: string, reader: Reader, ids: seq<Id>)
    requires UniqueIds(b) && Paired({}, Project(b))
    requires PlanRewind(h, b, session, cp, report, reader).Ok?
    requires |ids| == |RewindEntries(PlanRewind(h, b, session, cp, report, reader).value)|
    ensures var state := InspectBranch(h, b, session);
            && 0 <= state.index < |b| && BoundaryOf(b, state) <= |Project(b)|
            && (Paired({}, Project(b + StampAll(RewindEntries(PlanRewind(h, b, session, cp, report, reader).value), ids)))
                <==> !Straddles(Project(b), BoundaryOf(b, state), Removable))
  {
    hide PlanRewind, InspectBranch, Archived, TargetsOf, BoundaryOf, Project, Straddles;
    AcceptedIs(h, b, session, cp, report, reader);
    var state := InspectBranch(h, b, session);
    var plan := PlanRewind(h, b, session, cp, report, reader).value;
    CommittedPairing(h, b, state, plan, reader, ids);
  }

  lemma CommittedPairing(h: Host, b: seq<Entry>, state: Inspection, plan: Rewind, reader: Reader, ids: seq<Id>)
    requires UniqueIds(b) && Paired({}, Project(b)) && 0 <= state.index < |b|
    requires plan.edits == Removals(TargetsOf(b, state)) + Replacements(Archived(h, b, state, reader))
    requires |ids| == |RewindEntries(plan)|
    ensures BoundaryOf(b, state) <= |Project(b)|
    ensures Paired({}, Project(b + StampAll(RewindEntries(plan), ids)))
            <==> !Straddles(Project(b), BoundaryOf(b, state), Removable)
  {
    var p, ds := Project(b), RewindEntries(plan);
    var gone := set id | id in TargetsOf(b, state);
    var tail := StampAll(ds, ids);
    forall id ensures RewindEdits(b, state, ds, id) {
      EntriesEdit(plan, id);
      PlanEdits(h, b, state, reader, id);
    }
    CommittedShape(b, state, ds, ids);
    forall i | 0 <= i < |p|
      ensures (DraftEdit(ds, p[i].source.id) == Some(None) <==> p[i].source.id in gone)
      ensures DraftEdit(ds, p[i].source.id).Some? && DraftEdit(ds, p[i].source.id).value.Some? ==> p[i].message.ToolResult?
    {
      assert RewindEdits(b, state, ds, p[i].source.id);
    }
    OverlayShape(p, ds, gone);
    PairedShape({}, Keep(p, gone), Overlay(p, ds));
    CustomTail(Overlay(p, ds), ProjectUnder(tail, b + tail));
    TargetsAreGroups(b, state);
    ProjectUniqueSources(b, b);
    RemovalKeepsPairing(p, BoundaryOf(b, state), Removable, gone);
  }

  lemma CommittedShape(b: seq<Entry>, state: Inspection, ds: seq<Draft>, ids: seq<Id>)
    requires 0 <= state.index < |b| && |ids| == |ds| && forall id :: RewindEdits(b, state, ds, id)
    ensures RevivesNothing(b, ds)
    ensures var tail := StampAll(ds, ids);
            && Project(b + tail) == Overlay(Project(b), ds) + ProjectUnder(tail, b + tail)
            && forall i | 0 <= i < |ProjectUnder(tail, b + tail)| :: ProjectUnder(tail, b + tail)[i].message.Custom?
  {
    hide TargetsOf, Project, ProjectUnder, DraftEdit, NewestEdit, Overlay;
    forall i | 0 <= i < |b| && NewestEdit(b, b[i].id) == Some(None)
      ensures DraftEdit(ds, b[i].id) == None || DraftEdit(ds, b[i].id) == Some(None)
    {
      assert RewindEdits(b, state, ds, b[i].id);
    }
    ProjectCommitted(b, ds, ids);
    StampedShowsCustom(StampAll(ds, ids), b + StampAll(ds, ids));
  }

  // ---------------------------------------------------------------- checkpoints at a turn boundary

  /** A checkpoint as the program writes it: its snapshot is that of the context it follows. */
  predicate Recorded(h: Host, b: seq<Entry>, at: nat, cp: Checkpoint)
    requires at <= |b|
  {
    var shown := Project(b[..at]);
    cp.snapshot == Snapshot(|shown|, h.fingerprint(shown))
  }

  /** The fingerprint tells the recorded context from what is now shown in its place. */
  predicate Distinguishes(h: Host, b: seq<Entry>, at: nat)
    requires at <= |b|
  {
    var shown, now := Project(b[..at]), Project(b);
    |shown| <= |now| && h.fingerprint(now[..|shown|]) == h.fingerprint(shown) ==> now[..|shown|] == shown
  }

  /** The active checkpoint was recorded so, while no call was open. */
  predicate AtTurnBoundary(h: Host, b: seq<Entry>, state: Inspection) {
    && 0 <= state.index < |b| && state.checkpoint.Some?
    && Recorded(h, b, state.index, state.checkpoint.value) && Distinguishes(h, b, state.index)
    && OpenAfter({}, Project(b[..state.index])) == {}
  }

  lemma {:induction false} OpenAfterConcat(open: set<string>, p: seq<Projected>, q: seq<Projected>)
    ensures OpenAfter(open, p + q) == OpenAfter(OpenAfter(open, p), q)
    decreases |p|
  {
    if p == [] {
      assert p + q == q;
    } else {
      assert (p + q)[1..] == p[1..] + q;
      match p[0].message
      case Assistant(_, _, calls, _) => OpenAfterConcat(CallIds(calls), p[1..], q);
      case User(_) => OpenAfterConcat({}, p[1..], q);
      case ToolResult(callId, _, _, _) => OpenAfterConcat(open - {callId}, p[1..], q);
      case Custom(_, _, _) => OpenAfterConcat(open, p[1..], q);
    }
  }

  /** Messages without calls open none. */
  lemma {:induction false} NoCallsOpen(q: seq<Projected>)
    requires forall i | 0 <= i < |q| && q[i].message.Assistant? :: q[i].message.calls == []
    ensures OpenAfter({}, q) == {}
  {
    if q != [] {
      NoCallsOpen(q[1..]);
      assert CallIds([]) == {};
      assert forall c: string :: {} - {c} == {};
    }
  }

  /** An entry shown now, beyond what the recorded context showed, was removed then. */
  lemma RemovedThen(b: seq<Entry>, at: nat, i: nat, j: nat)
    requires UniqueIds(b) && i < at <= |b| && Project(b[..at]) <= ProjectUnder(b[..at], b)
    requires |Project(b[..at])| <= j < |ProjectUnder(b[..at], b)| && ProjectUnder(b[..at], b)[j].source == b[i] && Shows(b[i])
    ensures NewestEdit(b[..at], b[i].id) == Some(None)
  {
    ProjectUniqueSources(b[..at], b);
    if NewestEdit(b[..at], b[i].id) != Some(None) {
      var k := ProjectShows(b[..at], b[..at], i);
      assert false;
    }
  }

  lemma EditedHasNoCalls(e: Entry, edit: Option<Option<string>>, p: Projected)
    requires edit.Some? && Show(e, edit) == [p]
    ensures p.message.Assistant? ==> p.message.calls == []
  {
  }

  /** What the checkpoint's prefix shows beyond the recorded context has a replacement text now,
      so it has no calls. */
  lemma RevivedHasNoCalls(b: seq<Entry>, at: nat, j: nat)
    requires UniqueIds(b) && at <= |b| && Project(b[..at]) <= ProjectUnder(b[..at], b)
    requires |Project(b[..at])| <= j < |ProjectUnder(b[..at], b)|
    ensures var m := ProjectUnder(b[..at], b)[j].message; m.Assistant? ==> m.calls == []
  {
    var i := ProjectSource(b[..at], b, j);
    RemovedThen(b, at, i, j);
    assert b == b[..at] + b[at..];
    NewestEditAppend(b[..at], b[at..], b[i].id);
    EditedHasNoCalls(b[i], NewestEdit(b, b[i].id), ProjectUnder(b[..at], b)[j]);
  }

  /** With no call open when the checkpoint was recorded, none is open at its boundary. */
  lemma NothingOpenAtBoundary(b: seq<Entry>, at: nat)
    requires UniqueIds(b) && at <= |b| && OpenAfter({}, Project(b[..at])) == {}
    requires Project(b[..at]) <= ProjectUnder(b[..at], b)
    ensures OpenAfter({}, ProjectUnder(b[..at], b)) == {}
  {
    hide Project, ProjectUnder, OpenAfter;
    var shown, now := Project(b[..at]), ProjectUnder(b[..at], b);
    var rest := now[|shown|..];
    assert now == shown + rest;
    OpenAfterConcat({}, shown, rest);
    forall j | 0 <= j < |rest| && rest[j].message.Assistant? ensures rest[j].message.calls == [] {
      RevivedHasNoCalls(b, at, |shown| + j);
      assert rest[j] == now[|shown| + j];
    }
    NoCallsOpen(rest);
  }

  /** A message shown after those of a prefix comes from no entry of the prefix. */
  lemma SourceAfter(b: seq<Entry>, at: nat, k: nat)
    requires UniqueIds(b) && at <= |b| && |ProjectUnder(b[..at], b)| <= k < |Project(b)|
    ensures forall i | 0 <= i < at :: b[i] != Project(b)[k].source
  {
    var now := ProjectUnder(b[..at], b);
    assert b == b[..at] + b[at..];
    ProjectUnderConcat(b[..at], b[at..], b);
    var x := ProjectSource(b[at..], b, k - |now|);
    assert b[at..][x] == b[at + x];
    forall i | 0 <= i < at ensures b[i] != b[at + x] {
      assert b[i].id != b[at + x].id;
    }
  }

  /** What is shown in place of the recorded context comes from the checkpoint's prefix. */
  lemma RecordedPrefix(b: seq<Entry>, at: nat)
    requires UniqueIds(b) && at <= |b| && Project(b[..at]) <= Project(b)
    ensures Project(b[..at]) <= ProjectUnder(b[..at], b)
  {
    hide ProjectUnder, NewestEdit;
    var shown, now := Project(b[..at]), ProjectUnder(b[..at], b);
    assert b == b[..at] + b[at..];
    ProjectUnderConcat(b[..at], b[at..], b);
    if |now| < |shown| {
      var i := ProjectSource(b[..at], b[..at], |now|);
      SourceAfter(b, at, |now|);
      assert false;
    }
  }

  lemma ActiveCheckpointHolds(h: Host, b: seq<Entry>, session: string)
    requires InspectBranch(h, b, session).checkpoint.Some?
    ensures var state := InspectBranch(h, b, session);
            && 0 <= state.index < |b| && b[state.index].ControlEntry?
            && CheckpointHolds(h, b, session, state.checkpoint.value, state.index)
  {
    WalkIndex(b);
  }

  /** What an active checkpoint recorded is still shown. */
  lemma RecordedStillShown(h: Host, b: seq<Entry>, session: string)
    requires AtTurnBoundary(h, b, InspectBranch(h, b, session))
    ensures Project(b[..InspectBranch(h, b, session).index]) <= Project(b)
  {
    hide Project, InspectBranch, OpenAfter;
    ActiveCheckpointHolds(h, b, session);
  }

  lemma ShowsOne(e: Entry, b: seq<Entry>)
    ensures ProjectUnder([e], b) == Show(e, NewestEdit(b, e.id))
  {
    assert [e][1..] == [];
  }

  lemma ControlShowsNothing(b: seq<Entry>, at: nat)
    requires at < |b| && b[at].ControlEntry?
    ensures ProjectUnder(b[..at + 1], b) == ProjectUnder(b[..at], b)
  {
    hide ProjectUnder, NewestEdit;
    assert b[..at + 1] == b[..at] + [b[at]];
    ProjectUnderConcat(b[..at], [b[at]], b);
    ShowsOne(b[at], b);
    assert Show(b[at], NewestEdit(b, b[at].id)) == [];
  }

  /** A checkpoint recorded while no call was open never cuts a batch in two. */
  lemma CheckpointNeverStraddles(h: Host, b: seq<Entry>, session: string)
    requires UniqueIds(b) && AtTurnBoundary(h, b, InspectBranch(h, b, session))
    ensures BoundaryOf(b, InspectBranch(h, b, session)) <= |Project(b)|
    ensures !Straddles(Project(b), BoundaryOf(b, InspectBranch(h, b, session)), Removable)
  {
    hide Project, ProjectUnder, InspectBranch, OpenAfter, Recorded, Distinguishes;
    var state := InspectBranch(h, b, session);
    BoundarySplits(b, state);
    RecordedStillShown(h, b, session);
    RecordedPrefix(b, state.index);
    NothingOpenAtBoundary(b, state.index);
    ActiveCheckpointHolds(h, b, session);
    ControlShowsNothing(b, state.index);
  }

  /** Every accepted rewind to a checkpoint the program recorded at a turn boundary leaves a
      paired context paired. */
  lemma TurnBoundaryKeepsPairing(h: Host, b: seq<Entry>, session: string, cp: Id, report: string, reader: Reader, ids: seq<Id>)
    requires UniqueIds(b) && Paired({}, Project(b))
    requires PlanRewind(h, b, session, cp, report, reader).Ok?
    requires |ids| == |RewindEntries(PlanRewind(h, b, session, cp, report, reader).value)|
    requires AtTurnBoundary(h, b, InspectBranch(h, b, session))
    ensures Paired({}, Project(b + StampAll(RewindEntries(PlanRewind(h, b, session, cp, report, reader).value), ids)))
  {
    RewindKeepsPairing(h, b, session, cp, report, reader, ids);
    CheckpointNeverStraddles(h, b, session);
  }

  // ---------------------------------------------------------------- a checkpoint inside a batch

  const CALLED := "a"
  const NOTED := "k"
  const ANSWERED := "r"
  const PLAIN := Content("", true)

  function CallingTurn(tool: Tool): Entry {
    MessageEntry(CALLED, Assistant(PLAIN, true, [Call("c", [tool], None)], false), false)
  }

  const ANSWER := MessageEntry(ANSWERED, ToolResult("c", PLAIN, false, false), false)

  function Shown(e: Entry): Projected
    requires Shows(e)
  {
    Projected(e, e.message)
  }

  function InnerCheckpoint(h: Host, tool: Tool): Checkpoint {
    Checkpoint(NOTED, 0, "s", CALLED, Snapshot(1, h.fingerprint([Shown(CallingTurn(tool))])))
  }

  /** A call, a checkpoint recorded while it is open, and its answer. */
  function CutBatch(h: Host, tool: Tool): seq<Entry> {
    [CallingTurn(tool), ControlEntry(NOTED, CheckpointControl(InnerCheckpoint(h, tool))), ANSWER]
  }

  lemma CutBatchShows(h: Host, tool: Tool)
    ensures var b := CutBatch(h, tool);
            && Project(b) == [Shown(CallingTurn(tool)), Shown(ANSWER)]
            && Project(b[..1]) == ProjectUnder(b[..2], b) == [Shown(CallingTurn(tool))]
  {
    var b := CutBatch(h, tool);
    NewestEditAbsent(b, CALLED);
    NewestEditAbsent(b, ANSWERED);
    NewestEditAbsent(b[..1], CALLED);
    ShowsOne(CallingTurn(tool), b);
    ShowsOne(CallingTurn(tool), b[..1]);
    ShowsOne(ANSWER, b);
    ShowsOne(b[1], b);
    ProjectUnderConcat([b[0]], [b[1]], b);
    ProjectUnderConcat([b[0]] + [b[1]], [b[2]], b);
    assert b == [b[0]] + [b[1]] + [b[2]] && b[..2] == [b[0]] + [b[1]] && b[..1] == [b[0]];
  }

  lemma CutBatchStraddles(tool: Tool)
    requires tool.removable
    ensures var p := [Shown(CallingTurn(tool)), Shown(ANSWER)]; Paired({}, p) && Straddles(p, 1, Removable)
  {
    var call := Call("c", [tool], None);
    var x, y := Shown(CallingTurn(tool)), Shown(ANSWER);
    var p := [x, y];
    assert p[1..] == [y] && [y][1..] == [] && p[..1] == [x] && [x][1..] == [];
    assert CallIds([call]) == {"c"};
    assert Paired({}, []) && Paired({"c"}, [y]);
    assert OpenAfter({}, p[..1]) == OpenAfter({"c"}, []) == {"c"};
    assert [call][..|[call]| - 1] == [] && CallMap([]) == map[];
    var s := Scan(CallMap([call]), false, []);
    assert s.pending == map["c" := call];
    assert ScanBatch(p, 2, ScanStep(y, s)) == ScanStep(y, s);
    assert ScanBatch(p, 1, s) == ScanStep(y, s);
    assert GroupAt(p, 0, Removable).Some?;
    assert LastTurn(p, 1) == 0;
  }

  lemma {:induction false} TargetsAtMost(es: seq<Entry>, research: map<Id, Option<Call>>)
    ensures |TargetsIn(es, research)| <= |es|
  {
    if es != [] {
      TargetsAtMost(es[1..], research);
    }
  }

  lemma CutBatchInspects(h: Host, tool: Tool)
    ensures InspectBranch(h, CutBatch(h, tool), "s")
            == Inspection(Some(InnerCheckpoint(h, tool)), 1, true, [], map[])
  {
    var b := CutBatch(h, tool);
    CutBatchShows(h, tool);
    assert b[..2][..1] == b[..1] && b[..1][..0] == [];
    assert WalkTo(b[..1]) == START;
    assert WalkTo(b[..2]) == Walk(Some(InnerCheckpoint(h, tool)), 1, false, [], map[]);
    assert WalkTo(b) == WalkTo(b[..2]);
    assert b[..1][0].id == CALLED;
    assert Project(b)[..1] == [Shown(CallingTurn(tool))];
  }

  lemma CutBatchAccepted(h: Host, tool: Tool, report: string, reader: Reader)
    ensures PlanRewind(h, CutBatch(h, tool), "s", NOTED, report, reader).Ok?
  {
    var b := CutBatch(h, tool);
    var state := InspectBranch(h, b, "s");
    CutBatchInspects(h, tool);
    CutBatchShows(h, tool);
    hide InspectBranch, Project, ProjectUnder, Groups;
    TargetsAtMost(b[2..], Groups(Project(b), |Project(b)|, Removable));
    BlockedExactly(Project(b), Removals(TargetsOf(b, state)), reader);
    hide TargetsIn, BlockedFrom, Archived, Recovered;
  }

  /** A checkpoint recorded inside a batch, in all other respects as the program writes it: the
      rewind to it is accepted and leaves the call without its answer, for every host. */
  lemma StraddleExample(h: Host, tool: Tool, report: string, reader: Reader, ids: seq<Id>)
    requires tool.removable
    ensures var b := CutBatch(h, tool);
            var r := PlanRewind(h, b, "s", NOTED, report, reader);
            && UniqueIds(b) && Paired({}, Project(b)) && Recorded(h, b, 1, InnerCheckpoint(h, tool))
            && r.Ok?
            && (|ids| == |RewindEntries(r.value)| ==> !Paired({}, Project(b + StampAll(RewindEntries(r.value), ids))))
  {
    var b := CutBatch(h, tool);
    CutBatchInspects(h, tool);
    CutBatchShows(h, tool);
    CutBatchStraddles(tool);
    CutBatchAccepted(h, tool, report, reader);
    hide Project, ProjectUnder, InspectBranch, PlanRewind, Straddles, Paired;
    if |ids| == |RewindEntries(PlanRewind(h, b, "s", NOTED, report, reader).value)| {
      RewindKeepsPairing(h, b, "s", NOTED, report, reader, ids);
    }
  }

  // ---------------------------------------------------------------- signed thinking

  /** Every signed message an accepted rewind keeps has the same prefix before and after it. */
  lemma RewindKeepsThinking(h: Host, b: seq<Entry>, session: string, cp: Id, report: string, reader: Reader, ids: seq<Id>, k: nat)
    requires UniqueIds(b) && !reader.OtherReader?
    requires PlanRewind(h, b, session, cp, report, reader).Ok?
    requires |ids| == |RewindEntries(PlanRewind(h, b, session, cp, report, reader).value)|
    requires k < |Project(b)| && Signed(Project(b)[k].message)
    requires !Removed(PlanRewind(h, b, session, cp, report, reader).value.edits, Project(b)[k].source.id)
    ensures Project(b)[..k + 1] <= Project(b + StampAll(RewindEntries(PlanRewind(h, b, session, cp, report, reader).value), ids))
  {
    hide PlanRewind, InspectBranch, TargetsOf, Project, ThinkingBlocks;
    AcceptedIs(h, b, session, cp, report, reader);
    var state := InspectBranch(h, b, session);
    var plan := PlanRewind(h, b, session, cp, report, reader).value;
    var p, ds := Project(b), RewindEntries(plan);
    OutputsDoNotBlock(h, b, state, reader);
    hide Archived;
    SameEditsSameVerdict(p, plan, reader);
    forall id ensures RewindEdits(b, state, ds, id) {
      EntriesEdit(plan, id);
      PlanEdits(h, b, state, reader, id);
    }
    CommittedShape(b, state, ds, ids);
    EntriesEdit(plan, p[k].source.id);
    AcceptedKeepsPrefix(b, ds, ids, reader, k);
  }

  /** Archiving outputs never adds a reason to refuse. */
  lemma OutputsDoNotBlock(h: Host, b: seq<Entry>, state: Inspection, reader: Reader)
    requires 0 <= state.index < |b| && !ThinkingBlocks(Project(b), Removals(TargetsOf(b, state)), reader)
    ensures !ThinkingBlocks(Project(b), Removals(TargetsOf(b, state)) + Replacements(Archived(h, b, state, reader)), reader)
  {
    hide ThinkingBlocks, TargetsOf, Project, Stranded, SortOutputs;
    var targets := TargetsOf(b, state);
    assert Removals(targets) + Replacements([]) == Removals(targets);
  }

  lemma SameEditsSameVerdict(p: seq<Projected>, r: Rewind, reader: Reader)
    ensures ThinkingBlocks(p, RewindEntries(r), reader) <==> ThinkingBlocks(p, r.edits, reader)
  {
    forall i | 0 <= i < |p| ensures DraftEdit(RewindEntries(r), p[i].source.id) == DraftEdit(r.edits, p[i].source.id) {
      EntriesEdit(r, p[i].source.id);
    }
    LateEditsDoNotBlock(p, RewindEntries(r), r.edits, reader);
  }

  // ---------------------------------------------------------------- recovery

  lemma {:induction false} RecoveredSource(h: Host, b: seq<Entry>, state: Inspection, targets: seq<Id>, n: nat, k: nat)
    returns (i: nat)
    requires n <= |b| && k < |Recovered(h, b, state, targets, n)|
    ensures i < n && Recoverable(h, b, state, targets, b[i]) == Some(Recovered(h, b, state, targets, n)[k])
  {
    var before := Recovered(h, b, state, targets, n - 1);
    if k < |before| {
      i := RecoveredSource(h, b, state, targets, n - 1, k);
    } else {
      i := n - 1;
    }
  }

  /** Every archive record of a rewind holds the digest of the entry's own text. */
  predicate RecordsOwnText(h: Host, b: seq<Entry>, a: Archive, i: nat) {
    && i < |b| && b[i].id == a.id && ArchivableContent(b[i]).Some?
    && (var text := ArchivableContent(b[i]).value.text; a.sha == h.digest(text) && a.chars == |text|)
  }

  lemma RecoveredOwn(h: Host, b: seq<Entry>, state: Inspection, targets: seq<Id>, k: nat) returns (i: nat)
    requires k < |Recovered(h, b, state, targets, |b|)|
    ensures RecordsOwnText(h, b, Recovered(h, b, state, targets, |b|)[k], i)
  {
    i := RecoveredSource(h, b, state, targets, |b|, k);
  }

  lemma OutputOwn(h: Host, b: seq<Entry>, state: Inspection, reader: Reader, k: nat) returns (i: nat)
    requires 0 <= state.index < |b| && k < |Archived(h, b, state, reader)|
    ensures RecordsOwnText(h, b, OutputArchives(h, Archived(h, b, state, reader))[k], i)
  {
    var o := Archived(h, b, state, reader)[k];
    var x := ArchivedSource(h, b, state, reader, o);
    i := ProjectSource(b, b, x);
  }

  predicate HasOwnText(h: Host, b: seq<Entry>, a: Archive) {
    exists i | 0 <= i < |b| :: RecordsOwnText(h, b, a, i)
  }

  /** Every archive record comes from an entry of the branch. */
  predicate OwnArchives(h: Host, b: seq<Entry>, archives: seq<Archive>) {
    forall a | a in archives :: HasOwnText(h, b, a)
  }

  lemma ArchivesOwn(h: Host, b: seq<Entry>, state: Inspection, reader: Reader)
    requires 0 <= state.index < |b|
    ensures OwnArchives(h, b, Recovered(h, b, state, TargetsOf(b, state), |b|) + OutputArchives(h, Archived(h, b, state, reader)))
  {
    var targets := TargetsOf(b, state);
    var first, second := Recovered(h, b, state, targets, |b|), OutputArchives(h, Archived(h, b, state, reader));
    forall a | a in first + second ensures HasOwnText(h, b, a) {
      if a in first {
        var k :| 0 <= k < |first| && first[k] == a;
        var i := RecoveredOwn(h, b, state, targets, k);
      } else {
        var k :| 0 <= k < |second| && second[k] == a;
        var i := OutputOwn(h, b, state, reader, k);
      }
    }
  }

  lemma PlanOwnArchives(h: Host, b: seq<Entry>, session: string, cp: Id, report: string, reader: Reader)
    requires PlanRewind(h, b, session, cp, report, reader).Ok?
    ensures OwnArchives(h, b, PlanRewind(h, b, session, cp, report, reader).value.archives)
  {
    hide PlanRewind, InspectBranch, Archived, TargetsOf, Recovered, OwnArchives;
    AcceptedIs(h, b, session, cp, report, reader);
    ArchivesOwn(h, b, InspectBranch(h, b, session), reader);
  }

  lemma {:induction false} EvidenceWitness(archives: seq<Archive>, id: Id)
    requires exists k :: 0 <= k < |archives| && archives[k].id == id
    ensures exists k :: 0 <= k < |archives| && archives[k].id == id
                        && EvidenceIn(archives, id) == Some(Evidence(archives[k].sha, archives[k].chars))
  {
    var n := |archives| - 1;
    if archives[n].id != id {
      var k :| 0 <= k < |archives| && archives[k].id == id;
      assert archives[..n][k].id == id;
      EvidenceWitness(archives[..n], id);
    }
  }

  lemma {:induction false} TargetsConcat(xs: seq<Entry>, ys: seq<Entry>, research: map<Id, Option<Call>>)
    ensures TargetsIn(xs + ys, research) == TargetsIn(xs, research) + TargetsIn(ys, research)
  {
    if xs == [] {
      assert xs + ys == ys;
    } else {
      hide TargetOf;
      assert (xs + ys)[1..] == xs[1..] + ys;
      TargetsConcat(xs[1..], ys, research);
    }
  }

  /** One more entry after the cut adds at most its own id to the targets. */
  lemma TargetsGrow(b: seq<Entry>, cut: nat, n: nat, research: map<Id, Option<Call>>)
    requires cut < n <= |b|
    ensures |TargetsIn(b[cut..n], research)|
            == |TargetsIn(b[cut..n - 1], research)| + if IsTarget(b[n - 1], research) then 1 else 0
  {
    var e := b[n - 1];
    assert b[cut..n] == b[cut..n - 1] + [e];
    TargetsConcat(b[cut..n - 1], [e], research);
    assert [e][1..] == [];
  }

  /** A recovery record is for a target after the cut. */
  lemma RecoverableIsTarget(h: Host, b: seq<Entry>, state: Inspection, cut: nat, i: nat, research: map<Id, Option<Call>>)
    requires UniqueIds(b) && cut <= |b| && i < |b|
    ensures Recoverable(h, b, state, TargetsIn(b[cut..], research), b[i]).Some? ==> cut <= i && IsTarget(b[i], research)
  {
    if i < cut {
      BeforeCutNoTarget(b, cut, research, i);
    } else {
      AfterCutTarget(b, cut, research, i);
    }
  }

  lemma RecoveredOneMore(h: Host, b: seq<Entry>, state: Inspection, targets: seq<Id>, n: nat)
    requires 0 < n <= |b|
    ensures |Recovered(h, b, state, targets, n)|
            == |Recovered(h, b, state, targets, n - 1)| + if Recoverable(h, b, state, targets, b[n - 1]).Some? then 1 else 0
  {
  }

  /** The targets among the first n entries. */
  function TargetsBefore(b: seq<Entry>, cut: nat, n: nat, research: map<Id, Option<Call>>): nat
    requires cut <= |b| && n <= |b|
  {
    if n <= cut then 0 else |TargetsIn(b[cut..n], research)|
  }

  lemma TargetsBeforeGrow(b: seq<Entry>, cut: nat, n: nat, research: map<Id, Option<Call>>)
    requires cut <= |b| && 0 < n <= |b|
    ensures TargetsBefore(b, cut, n, research)
            >= TargetsBefore(b, cut, n - 1, research) + if cut < n && IsTarget(b[n - 1], research) then 1 else 0
  {
    if cut < n { TargetsGrow(b, cut, n, research); }
    hide IsTarget;
  }

  /** At most one recovery record for each target. */
  lemma {:induction false} RecoveredAtMost(h: Host, b: seq<Entry>, state: Inspection, cut: nat, n: nat, research: map<Id, Option<Call>>)
    requires UniqueIds(b) && cut <= |b| && n <= |b|
    ensures |Recovered(h, b, state, TargetsIn(b[cut..], research), n)| <= TargetsBefore(b, cut, n, research)
  {
    hide TargetsBefore, TargetsIn, Recoverable, IsTarget, UniqueIds;
    if n > 0 {
      RecoveredOneMore(h, b, state, TargetsIn(b[cut..], research), n);
      RecoveredAtMost(h, b, state, cut, n - 1, research);
      RecoverableIsTarget(h, b, state, cut, n - 1, research);
      TargetsBeforeGrow(b, cut, n, research);
    }
  }

  lemma OutputsFit(h: Host, b: seq<Entry>, state: Inspection, reader: Reader)
    requires 0 <= state.index < |b| && |TargetsOf(b, state)| <= MAX_CONTEXT_EDITS
    ensures |TargetsOf(b, state)| + |Archived(h, b, state, reader)| <= MAX_CONTEXT_EDITS
  {
    hide ThinkingBlocks, Stranded, SortOutputs, TargetsOf, Project;
  }

  /** A rewind records no more outputs than it may edit entries. */
  lemma ArchivesBounded(h: Host, b: seq<Entry>, session: string, cp: Id, report: string, reader: Reader)
    requires UniqueIds(b) && PlanRewind(h, b, session, cp, report, reader).Ok?
    ensures |PlanRewind(h, b, session, cp, report, reader).value.archives| <= MAX_CONTEXT_EDITS
  {
    hide PlanRewind, InspectBranch, Archived, Recovered, UniqueIds;
    AcceptedIs(h, b, session, cp, report, reader);
    var state := InspectBranch(h, b, session);
    var cut := state.index + 1;
    OutputsFit(h, b, state, reader);
    RecoveredAtMost(h, b, state, cut, |b|, Groups(Project(b), |Project(b)|, Removable));
    assert b[cut..|b|] == b[cut..];
    hide Groups, TargetsIn, Project;
  }

  predicate FitsIds(items: seq<Archive>) {
    forall i | 0 <= i < |items| :: |items[i].id| <= MAX_ID_LENGTH
  }

  lemma RecordValid(items: seq<Archive>)
    requires |items| <= MAX_CONTEXT_EDITS
    ensures ValidControl(RewindControl(ArchiveIds(items), items)) <==> FitsIds(items)
  {
    forall i | 0 <= i < |items| ensures |ArchiveIds(items)[i]| == |items[i].id| {
    }
  }

  /** After a committed rewind every id it offers reads back as the original text, whenever that
      content is text only, provided all ids fit a record; one id too long makes the whole record
      unreadable, and then none of them reads back. */
  lemma RewindRoundTrip(h: Host, b: seq<Entry>, session: string, cp: Id, report: string, reader: Reader, ids: seq<Id>, k: nat)
    requires UniqueIds(b) && PlanRewind(h, b, session, cp, report, reader).Ok?
    requires var r := PlanRewind(h, b, session, cp, report, reader).value;
             |ids| == |RewindEntries(r)| && k < |r.archives|
    ensures var r := PlanRewind(h, b, session, cp, report, reader).value;
            var id := r.archives[k].id;
            if FitsIds(r.archives) then OffersText(h, b, r, ids, session, id)
            else ReadReference(h, b + StampAll(RewindEntries(r), ids), session, id).Err?
  {
    hide PlanRewind;
    var r := PlanRewind(h, b, session, cp, report, reader).value;
    ArchivesBounded(h, b, session, cp, report, reader);
    RecordValid(r.archives);
    if FitsIds(r.archives) {
      PlanOwnArchives(h, b, session, cp, report, reader);
      OwnArchivesReadBack(h, b, r, ids, session, k);
    } else {
      ArchivesEdited(h, b, session, cp, report, reader, k);
      LostRecord(h, b, r, ids, session, r.archives[k].id);
    }
  }

  /** Whatever a rewind archives, it also edits. */
  lemma ArchivesEdited(h: Host, b: seq<Entry>, session: string, cp: Id, report: string, reader: Reader, k: nat)
    requires UniqueIds(b) && PlanRewind(h, b, session, cp, report, reader).Ok?
    requires k < |PlanRewind(h, b, session, cp, report, reader).value.archives|
    ensures var r := PlanRewind(h, b, session, cp, report, reader).value;
            DraftEdit(r.edits, r.archives[k].id).Some? && forall i | 0 <= i < |r.edits| :: r.edits[i].EditDraft?
  {
    hide PlanRewind, InspectBranch, TargetsOf, Recovered, Archived;
    AcceptedIs(h, b, session, cp, report, reader);
    var state := InspectBranch(h, b, session);
    var targets, outputs := TargetsOf(b, state), Archived(h, b, state, reader);
    var first := Recovered(h, b, state, targets, |b|);
    var id := (first + OutputArchives(h, outputs))[k].id;
    DraftEditConcat(Removals(targets), Replacements(outputs), id);
    if k < |first| {
      var i := RecoveredSource(h, b, state, targets, |b|, k);
      RemovalsFind(targets, id);
    } else {
      DraftEditAbsent(Replacements(outputs), id);
      assert Replacements(outputs)[k - |first|].target == id;
    }
  }

  /** With an unreadable record the edit of an id is the newest event about it. */
  lemma LostRecord(h: Host, b: seq<Entry>, r: Rewind, ids: seq<Id>, session: string, id: Id)
    requires |ids| == |RewindEntries(r)| && DraftEdit(r.edits, id).Some?
    requires forall i | 0 <= i < |r.edits| :: r.edits[i].EditDraft?
    requires !ValidControl(RewindControl(ArchiveIds(r.archives), r.archives))
    ensures ReadReference(h, b + StampAll(RewindEntries(r), ids), session, id).Err?
  {
    var tail := StampAll(RewindEntries(r), ids);
    DraftEditWitness(r.edits, id);
    var m :| 0 <= m < |r.edits| && r.edits[m] == EditDraft(id, DraftEdit(r.edits, id).value);
    assert RewindEntries(r)[m] == r.edits[m];
    assert b + tail == b + tail[..m] + [tail[m]] + tail[m + 1..];
    forall k | 0 <= k < |tail| ensures !Records(tail[k], id) {
      assert k < |r.edits| ==> RewindEntries(r)[k] == r.edits[k];
    }
    ForeignEditRevokes(h, b + tail[..m], tail[m], tail[m + 1..], session, id);
  }

  /** The id names a result of the branch, and its text comes back if it is text only. */
  predicate OffersText(h: Host, b: seq<Entry>, r: Rewind, ids: seq<Id>, session: string, id: Id)
    requires |ids| == |RewindEntries(r)|
  {
    && HasId(b, id) && ArchivableContent(b[IndexOf(b, id)]).Some?
    && (var content := ArchivableContent(b[IndexOf(b, id)]).value;
        content.plain ==> ReadReference(h, b + StampAll(RewindEntries(r), ids), session, id) == Ok(content.text))
  }

  lemma OwnArchivesReadBack(h: Host, b: seq<Entry>, r: Rewind, ids: seq<Id>, session: string, k: nat)
    requires UniqueIds(b) && OwnArchives(h, b, r.archives)
    requires |ids| == |RewindEntries(r)| && k < |r.archives| && ValidControl(RewindControl(ArchiveIds(r.archives), r.archives))
    ensures OffersText(h, b, r, ids, session, r.archives[k].id)
  {
    var id := r.archives[k].id;
    EvidenceWitness(r.archives, id);
    var m :| 0 <= m < |r.archives| && r.archives[m].id == id
             && EvidenceIn(r.archives, id) == Some(Evidence(r.archives[m].sha, r.archives[m].chars));
    assert HasOwnText(h, b, r.archives[m]);
    var i :| 0 <= i < |b| && RecordsOwnText(h, b, r.archives[m], i);
    IndexOfUnique(b, i);
    assert ArchiveIds(r.archives)[k] == id;
    if ArchivableContent(b[i]).value.plain {
      ReadsLastRecord(h, b, r, ids, session, id, i);
    }
  }

  lemma ReadsLastRecord(h: Host, b: seq<Entry>, r: Rewind, ids: seq<Id>, session: string, id: Id, i: nat)
    requires |ids| == |RewindEntries(r)| && ValidControl(RewindControl(ArchiveIds(r.archives), r.archives))
    requires i < |b| && i == IndexOf(b, id) && ArchivableContent(b[i]).Some? && ArchivableContent(b[i]).value.plain
    requires var text := ArchivableContent(b[i]).value.text;
             EvidenceIn(r.archives, id) == Some(Evidence(h.digest(text), |text|))
    requires id in ArchiveIds(r.archives)
    ensures ReadReference(h, b + StampAll(RewindEntries(r), ids), session, id) == Ok(ArchivableContent(b[i]).value.text)
  {
    var b' := b + StampAll(RewindEntries(r), ids);
    var j := |b'| - 1;
    assert b'[j] == ControlEntry(ids[|ids| - 1], RewindControl(ArchiveIds(r.archives), r.archives));
    assert b'[i] == b[i];
    forall x | 0 <= x < i ensures b'[x].id != id { assert b'[x] == b[x]; }
    assert NewestIsRecord(b', id, j);
    assert ReadsFrom(h, b', id, i, j);
    ReadableExactly(h, b', session, id);
  }
}
