/** The life of every summary across preparation, slot and commit store, over whole runs. */
module Lifecycle {
  // Preparation, slot and desk move together: a prepared cost is in exactly one place from the
  // moment it is known, and an answer given after instructions is made of work begun after them.

  import opened Wrappers
  import P = Preparation
  import S = PendingSlot
  import C = CommitStore
  import D = CommitDesk
  import opened Handoff

  /** Everything that can happen. Preparations and slots are asked only by the two compaction
      events, which alone stage summaries. */
  datatype Event =
    | Prepare(p: P.Event)
    | Slot(v: S.Event)
    | Desk(d: D.Event)
    | Invalidate(session: string, reason: P.Reason, t: C.Clock)
    | Ask(r: Request)
    | Finished(captured: nat, r: Request)
    | HostCompacted(applied: Option<string>, session: string, now: int, t: C.Clock)

  /** The bounds of the slot and of the store, and how summaries are staged. */
  datatype Setup = Setup(forms: Forms, slots: nat, max: nat)

  /** The run id of a summary goes with it. */
  ghost predicate Proper(u: Setup) {
    u.slots >= 1 && u.max >= 1 && forall m: P.Summary :: u.forms.prepared(m).runId == m.runId
  }

  predicate Possible(s: System, e: Event) {
    match e
    case Prepare(p) => !p.Take? && !p.Unused? && P.Possible(s.prep, p)
    case Slot(v) => !v.ConsumeEvent?
    case Desk(d) => !d.Submit? && !d.Compacted?
    case _ => true
  }

  function SlotStep(es: seq<S.Entry>, v: S.Event, slots: nat): seq<S.Entry> {
    S.Step(S.State(es, {}, []), v, slots).entries
  }

  function Answered(s: System, e: Event, u: Setup): Outcome
    requires P.Grounded(s.prep) && u.max >= 1 && (e.Ask? || e.Finished?)
  {
    match e
    case Ask(r) => BeforeCompact(s, r, u.forms, u.max)
    case Finished(captured, r) => AfterRun(s, captured, r, u.forms, u.max)
  }

  function Step(s: System, e: Event, u: Setup): System
    requires P.Grounded(s.prep) && u.max >= 1 && Possible(s, e)
  {
    match e
    case Prepare(p) => s.(prep := P.Step(s.prep, p))
    case Slot(v) => s.(slot := SlotStep(s.slot, v, u.slots))
    case Desk(d) => s.(desk := D.Step(s.desk, d, u.max))
    case Invalidate(session, reason, t) => Invalidated(s, session, reason, t, u.max)
    case HostCompacted(applied, session, now, t) => Compacted(s, applied, session, now, t, u.max)
    case _ => Answered(s, e, u).system
  }

  /** The run id an event brings into the world. */
  function Made(e: Event, u: Setup): Option<string> {
    match e
    case Prepare(Finish(_, Some(m), _)) => Some(m.runId)
    case Slot(SetEvent(p, _, _)) => Some(u.forms.stored(p).runId)
    case _ => None
  }

  function Names(es: seq<Event>, u: Setup): set<string> {
    set i | 0 <= i < |es| && Made(es[i], u).Some? :: Made(es[i], u).value
  }

  /** Every run draws an id of its own. */
  predicate FreshIds(es: seq<Event>, u: Setup) {
    forall i, j | 0 <= i < j < |es| && Made(es[i], u).Some? && Made(es[j], u).Some? :: Made(es[i], u) != Made(es[j], u)
  }

  predicate IsRun(states: seq<System>, es: seq<Event>, u: Setup)
    requires u.max >= 1
  {
    && |states| == |es| + 1 && states[0] == EMPTY
    && forall i | 0 <= i < |es| ::
         P.Grounded(states[i].prep) && Possible(states[i], es[i]) && states[i + 1] == Step(states[i], es[i], u)
  }

  // ---------------------------------------------------------------- where every run id is

  predicate HasRun(p: P.Prep, id: nat) {
    id < |p.tasks| && p.tasks[id].pending.Some?
  }

  function RunOf(p: P.Prep, id: nat): string
    requires HasRun(p, id)
  {
    p.tasks[id].pending.value.runId
  }

  /** Tasks have run ids of their own, all of them known. */
  ghost predicate TasksNamed(p: P.Prep, names: set<string>) {
    && (forall id | HasRun(p, id) :: RunOf(p, id) in names)
    && (forall i, j | i < j && HasRun(p, i) && HasRun(p, j) :: RunOf(p, i) != RunOf(p, j))
  }

  /** A task's run was submitted exactly when its summary is out, but for those still in hand. */
  ghost predicate TasksSubmitted(p: P.Prep, submitted: set<string>, inHand: set<nat>) {
    forall id | HasRun(p, id) :: RunOf(p, id) in submitted <==> id in p.out && id !in inHand
  }

  /** A known run id that no task has and that was never submitted. */
  ghost predicate Free(p: P.Prep, submitted: set<string>, names: set<string>, runId: string) {
    runId in names && runId !in submitted && forall id | HasRun(p, id) :: RunOf(p, id) != runId
  }

  ghost predicate SlotFree(s: System, names: set<string>, u: Setup) {
    && S.Keyed(s.slot)
    && (forall e | e in s.slot :: Free(s.prep, D.SubmittedRuns(s.desk), names, u.forms.stored(e.value).runId))
    && (forall e, f | e in s.slot && f in s.slot && u.forms.stored(e.value).runId == u.forms.stored(f.value).runId :: e == f)
  }

  /** How often a run is among some candidates. */
  function Times(cs: seq<C.Candidate>, runId: string): nat {
    if cs == [] then 0 else Times(cs[..|cs| - 1], runId) + if cs[|cs| - 1].runId == runId then 1 else 0
  }

  /** No run is submitted twice. */
  ghost predicate SubmittedOnce(d: D.Desk) {
    forall r :: Times(d.staged, r) + Times(d.rejected, r) == if r in D.SubmittedRuns(d) then 1 else 0
  }

  ghost predicate DeskOk(d: D.Desk, names: set<string>, max: nat) {
    D.Conserved(d, max) && D.OneFate(d) && D.SubmittedRuns(d) <= names && SubmittedOnce(d)
  }

  /** What holds between any two steps; inHand are the tasks whose summary the handler is holding. */
  ghost predicate Linked(s: System, names: set<string>, inHand: set<nat>, u: Setup) {
    && P.Invariant(s.prep) && DeskOk(s.desk, names, u.max)
    && TasksNamed(s.prep, names) && TasksSubmitted(s.prep, D.SubmittedRuns(s.desk), inHand)
    && SlotFree(s, names, u)
  }

  // ---------------------------------------------------------------- one part moves

  /** The preparation moved without handing over, taking back or completing a summary. */
  predicate SameSummaries(p: P.Prep, q: P.Prep) {
    && |p.tasks| <= |q.tasks| && q.out == p.out
    && (forall id | 0 <= id < |p.tasks| :: q.tasks[id].pending == p.tasks[id].pending)
    && (forall id | |p.tasks| <= id < |q.tasks| :: q.tasks[id].pending.None?)
  }

  lemma SameRuns(p: P.Prep, q: P.Prep)
    requires SameSummaries(p, q)
    ensures forall id :: (HasRun(q, id) <==> HasRun(p, id)) && (HasRun(p, id) ==> RunOf(q, id) == RunOf(p, id))
  {
  }

  lemma PrepMoves(s: System, q: P.Prep, names: set<string>, inHand: set<nat>, u: Setup)
    requires Linked(s, names, inHand, u) && P.Invariant(q) && SameSummaries(s.prep, q)
    ensures Linked(s.(prep := q), names, inHand, u)
  {
    SameRuns(s.prep, q);
    hide P.Invariant, SameSummaries, HasRun, RunOf, DeskOk, S.Keyed;
  }

  lemma CancelSame(p: P.Prep, reason: P.Reason)
    requires P.Grounded(p)
    ensures SameSummaries(p, P.CancelStep(p, reason))
  {
  }

  lemma SameTwice(p: P.Prep, q: P.Prep, r: P.Prep)
    requires SameSummaries(p, q) && SameSummaries(q, r)
    ensures SameSummaries(p, r)
  {
  }

  lemma PhaseSame(p: P.Prep, id: nat, phase: P.Phase)
    requires id < |p.tasks|
    ensures SameSummaries(p, P.SetPhase(p, id, phase))
  {
  }

  lemma ObserveSame(p: P.Prep, env: P.Env, now: int)
    requires P.Grounded(p)
    ensures SameSummaries(p, P.ObserveStep(p, env, now))
  {
    var invalid := if p.current.Some? then P.Invalidation(p.tasks[p.current.value], env, now) else None;
    var q := if invalid.Some? then P.CancelStep(p, invalid.value) else p;
    if invalid.Some? { CancelSame(p, invalid.value); }
    hide P.CancelStep, P.Invalidation, P.Admits;
    assert SameSummaries(q, P.ObserveStep(p, env, now));
    SameTwice(p, q, P.ObserveStep(p, env, now));
  }

  lemma BeginSame(p: P.Prep, id: nat, env: P.Env, now: int)
    requires P.Grounded(p) && id < |p.tasks|
    ensures SameSummaries(p, P.BeginStep(p, id, env, now))
  {
    CancelSame(p, P.Config);
    PhaseSame(p, id, P.Returned);
    PhaseSame(p, id, P.Calling);
    var q := P.CancelStep(p, P.Config);
    hide P.CancelStep, P.Invalidation, P.SetPhase;
    PhaseSame(q, id, P.Returned);
    SameTwice(p, q, P.SetPhase(q, id, P.Returned));
    hide SameSummaries;
  }

  /** A task that settles without a summary. */
  lemma SettleSame(p: P.Prep, id: nat, now: int)
    requires P.Invariant(p) && P.MayFinish(p, id, None)
    ensures SameSummaries(p, P.FinishStep(p, id, None, now))
  {
    assert P.TaskOk(p, id);
    PhaseSame(p, id, P.Settled);
    var q := P.SetPhase(p, id, P.Settled);
    assert q.tasks[id] == p.tasks[id].(phase := P.Settled) && q.tasks[id].pending.None?;
    CancelSame(q, P.Cancelled);
    SameTwice(p, q, P.CancelStep(q, P.Cancelled));
    hide SameSummaries, P.CancelStep, P.Invariant;
  }

  lemma FailSame(p: P.Prep, id: nat)
    requires P.Grounded(p) && id < |p.tasks|
    ensures SameSummaries(p, P.FailStep(p, id))
  {
    PhaseSame(p, id, P.Settled);
    var q := P.SetPhase(p, id, P.Settled);
    CancelSame(q, P.Cancelled);
    SameTwice(p, q, P.CancelStep(q, P.Cancelled));
    hide SameSummaries, P.CancelStep;
  }

  lemma NoteSame(p: P.Prep, session: string, now: int)
    requires P.Grounded(p)
    ensures SameSummaries(p, P.NoteCompactionStep(p, session, now))
  {
    CancelSame(p, P.Superseded);
    hide P.CancelStep;
  }

  lemma PrepSame(p: P.Prep, e: P.Event)
    requires P.Invariant(p) && P.Possible(p, e) && !e.Take? && !e.Unused? && !(e.Finish? && e.result.Some?)
    ensures SameSummaries(p, P.Step(p, e))
  {
    assert P.Grounded(p);
    hide SameSummaries, P.Invariant, P.ObserveStep, P.BeginStep, P.FinishStep, P.FailStep, P.CancelStep, P.NoteCompactionStep;
    match e
    case Observe(env, now) => ObserveSame(p, env, now);
    case Begin(id, env, now) => BeginSame(p, id, env, now);
    case Finish(id, _, now) => SettleSame(p, id, now);
    case Fail(id) => FailSame(p, id);
    case Cancel(reason) => CancelSame(p, reason);
    case NoteCompaction(session, now) => NoteSame(p, session, now);
  }

  /** A completion gives its own task a summary, and no other. */
  lemma FinishGives(p: P.Prep, id: nat, m: P.Summary, now: int)
    requires P.Invariant(p) && P.MayFinish(p, id, Some(m))
    ensures !HasRun(p, id) && id !in p.out
    ensures var q := P.FinishStep(p, id, Some(m), now);
            && q.out == p.out && HasRun(q, id) && RunOf(q, id) == m.runId
            && forall x | x != id :: (HasRun(q, x) <==> HasRun(p, x)) && (HasRun(p, x) ==> RunOf(q, x) == RunOf(p, x))
  {
    assert P.TaskOk(p, id);
  }

  lemma FinishLinked(s: System, id: nat, m: P.Summary, now: int, names: set<string>, u: Setup)
    requires Linked(s, names, {}, u) && P.MayFinish(s.prep, id, Some(m)) && m.runId !in names
    ensures Linked(s.(prep := P.FinishStep(s.prep, id, Some(m), now)), names + {m.runId}, {}, u)
  {
    FinishGives(s.prep, id, m, now);
    P.FinishOk(s.prep, id, Some(m), now);
    hide P.Invariant, P.FinishStep, P.MayFinish, HasRun, RunOf, S.Keyed, D.Conserved, D.OneFate;
  }

  /** Entries that leave the slot leave nothing behind. */
  lemma SlotShrinks(s: System, left: seq<S.Entry>, names: set<string>, inHand: set<nat>, u: Setup)
    requires Linked(s, names, inHand, u) && S.Keyed(left) && forall e | e in left :: e in s.slot
    ensures Linked(s.(slot := left), names, inHand, u)
  {
    hide P.Invariant, DeskOk, Free, S.Keyed;
  }

  lemma ClearShrinks(es: seq<S.Entry>, session: string)
    requires S.Keyed(es)
    ensures S.Keyed(ClearedSlot(es, session)) && forall e | e in ClearedSlot(es, session) :: e in es && e.value.session != session
  {
    S.DeleteIs(es, session);
  }

  lemma SlotGrows(s: System, p: S.Payload, now: int, l: S.Limits, names: set<string>, u: Setup)
    requires Linked(s, names, {}, u) && u.slots >= 1 && u.forms.stored(p).runId !in names
    ensures Linked(s.(slot := S.Put(s.slot, p, now, l, u.slots)), names + {u.forms.stored(p).runId}, {}, u)
  {
    S.PutIs(s.slot, p, now, l, u.slots);
    hide P.Invariant, S.Put, S.Keyed, D.Conserved, D.OneFate;
  }

  lemma SlotKeeps(s: System, v: S.Event, names: set<string>, u: Setup)
    requires Linked(s, names, {}, u) && !v.ConsumeEvent? && !v.SetEvent?
    ensures Linked(s.(slot := SlotStep(s.slot, v, u.slots)), names, {}, u)
  {
    hide P.Invariant;
    match v
    case ClearEvent(target) =>
      if target.Some? { S.DeleteIs(s.slot, target.value); }
      SlotShrinks(s, SlotStep(s.slot, v, u.slots), names, {}, u);
    case ViewEvent(now, l) =>
      S.PruneIs(s.slot, now, l);
      SlotShrinks(s, SlotStep(s.slot, v, u.slots), names, {}, u);
  }

  /** The desk moved without a submission. */
  lemma DeskKeeps(s: System, d: D.Event, names: set<string>, inHand: set<nat>, u: Setup)
    requires Linked(s, names, inHand, u) && u.max >= 1 && !d.Submit?
    ensures Linked(s.(desk := D.Step(s.desk, d, u.max)), names, inHand, u)
  {
    D.QuietOneFate(s.desk, d, u.max);
    D.QuietConserved(s.desk, d, u.max);
    var _ := D.QuietStep(s.desk, d, u.max);
    hide P.Invariant, D.Step, D.Conserved, D.OneFate, D.SubmittedRuns;
  }

  lemma InvalidateLinked(s: System, session: string, reason: P.Reason, t: C.Clock, names: set<string>, u: Setup)
    requires Linked(s, names, {}, u) && u.max >= 1
    ensures Linked(Invalidated(s, session, reason, t, u.max), names, {}, u)
  {
    var q, left, d := P.CancelStep(s.prep, reason), ClearedSlot(s.slot, session), D.Invalidate(session, t);
    P.CancelOk(s.prep, reason);
    CancelSame(s.prep, reason);
    ClearShrinks(s.slot, session);
    hide SameSummaries, P.CancelStep, ClearedSlot, P.Invariant;
    PrepMoves(s, q, names, {}, u);
    SlotShrinks(s.(prep := q), left, names, {}, u);
    DeskKeeps(s.(prep := q, slot := left), d, names, {}, u);
    GenerationLinked(s.(prep := q, slot := left, desk := D.Step(s.desk, d, u.max)), s.generation + 1, names, u);
  }

  lemma GenerationLinked(s: System, generation: nat, names: set<string>, u: Setup)
    requires Linked(s, names, {}, u)
    ensures Linked(s.(generation := generation), names, {}, u)
  {
    hide P.Invariant, DeskOk, TasksNamed, TasksSubmitted;
  }

  // ---------------------------------------------------------------- the two compaction events

  function InHand(prepared: Option<P.Summary>, p: P.Prep): set<nat> {
    if prepared.Some? && p.handedOff.Some? then {p.handedOff.value.task} else {}
  }

  /** The summary in hand is that of the last handed-off task. */
  predicate Holds(p: P.Prep, prepared: Option<P.Summary>) {
    prepared.Some? ==>
      && p.handedOff.Some? && HasRun(p, p.handedOff.value.task) && p.handedOff.value.task in p.out
      && p.tasks[p.handedOff.value.task].pending == prepared && p.handedOff.value.runId == prepared.value.runId
  }

  lemma TakeGives(p: P.Prep, r: Request)
    requires P.Invariant(p)
    ensures var (q, prepared) := P.TakeStep(p, r.env, r.now, r.matches, r.fits);
            && P.Invariant(q) && Holds(q, prepared)
            && if prepared.None? then SameSummaries(p, q)
               else
                 && SameSummaries(p, q.(out := p.out)) && q.out == p.out + InHand(prepared, q)
                 && p.current.Some? && InHand(prepared, q) == {p.current.value} && p.current.value !in p.out
  {
    P.TakeOk(p, r.env, r.now, r.matches, r.fits);
    if p.current.Some? {
      assert P.TaskOk(p, p.current.value);
      CancelSame(p, P.Cancelled);
      CancelSame(p, P.BranchChanged);
      var invalid := P.Invalidation(p.tasks[p.current.value], r.env, r.now);
      if invalid.Some? { CancelSame(p, invalid.value); }
    }
  }

  lemma TakeLinked(s: System, r: Request, names: set<string>, u: Setup)
    requires Linked(s, names, {}, u)
    ensures var (q, prepared) := P.TakeStep(s.prep, r.env, r.now, r.matches, r.fits);
            Linked(s.(prep := q), names, InHand(prepared, q), u) && Holds(q, prepared)
  {
    TakeGives(s.prep, r);
    var (q, prepared) := P.TakeStep(s.prep, r.env, r.now, r.matches, r.fits);
    hide P.TakeStep, P.Invariant, DeskOk, S.Keyed;
    if prepared.None? {
      PrepMoves(s, q, names, {}, u);
    } else {
      SameRuns(s.prep, q.(out := s.prep.out));
      hide SameSummaries;
      assert forall id :: HasRun(q, id) <==> HasRun(q.(out := s.prep.out), id);
    }
  }

  lemma AskLinked(s: System, r: Request, names: set<string>, u: Setup)
    requires Linked(s, names, {}, u) && u.max >= 1
    ensures var (s1, prepared) := Asked(s, r, u.max);
            Linked(s1, names, InHand(prepared, s1.prep), u) && Holds(s1.prep, prepared)
  {
    InvalidateLinked(s, r.env.session, P.Superseded, r.clock, names, u);
    var s1 := if r.instructed then Invalidated(s, r.env.session, P.Superseded, r.clock, u.max) else s;
    TakeLinked(s1, r, names, u);
    hide Linked, Invalidated, P.TakeStep;
  }

  /** A summary from the slot is free to be submitted, and gone from the slot. */
  ghost predicate FreeOnce(s: System, names: set<string>, c: C.Candidate, u: Setup) {
    && Free(s.prep, D.SubmittedRuns(s.desk), names, c.runId)
    && forall e | e in s.slot :: u.forms.stored(e.value).runId != c.runId
  }

  lemma ConsumeLinked(s: System, r: Request, names: set<string>, inHand: set<nat>, u: Setup)
    requires Linked(s, names, inHand, u)
    ensures var (s1, got) := Consumed(s, r, u.forms);
            Linked(s1, names, inHand, u) && (got.Some? ==> FreeOnce(s1, names, got.value, u))
  {
    S.TakeIs(s.slot, r.env.session, r.now, r.limits, r.certified);
    hide S.Take, P.Invariant, DeskOk, TasksNamed, TasksSubmitted, Free, S.Find;
  }

  /** A summary that goes back to the preparation is out no more, as if never handed over. */
  lemma UnusedLinked(s: System, prepared: P.Summary, reason: P.Reason, names: set<string>, u: Setup)
    requires Linked(s, names, InHand(Some(prepared), s.prep), u) && Holds(s.prep, Some(prepared))
    ensures Linked(s.(prep := P.UnusedStep(s.prep, prepared.runId, reason)), names, {}, u)
  {
    var id := s.prep.handedOff.value.task;
    UnusedWritten(s.prep, id, reason);
    var q := P.UnusedStep(s.prep, prepared.runId, reason);
    SameTasks(s.prep, q);
    hide P.UnusedStep, P.Invariant, DeskOk, S.Keyed;
  }

  /** One more run is submitted, and the tasks in hand shrink accordingly. */
  lemma MoreSubmitted(p: P.Prep, submitted: set<string>, inHand: set<nat>, runId: string, left: set<nat>)
    requires TasksSubmitted(p, submitted, inHand)
    requires forall id | HasRun(p, id) :: if RunOf(p, id) == runId then id in p.out && id !in left else id in left <==> id in inHand
    ensures TasksSubmitted(p, submitted + {runId}, left)
  {
    hide HasRun, RunOf;
  }

  /** The slot stays free when the submitted run is in none of its entries. */
  lemma SlotStaysFree(s: System, d: D.Desk, runId: string, names: set<string>, u: Setup)
    requires SlotFree(s, names, u) && D.SubmittedRuns(d) == D.SubmittedRuns(s.desk) + {runId}
    requires forall e | e in s.slot :: u.forms.stored(e.value).runId != runId
    ensures SlotFree(s.(desk := d), names, u)
  {
    hide HasRun, RunOf, D.SubmittedRuns, S.Keyed;
  }

  /** Submitting a summary of the slot. */
  lemma SubmitSlotLinked(s: System, c: C.Candidate, r: Request, names: set<string>, u: Setup)
    requires Linked(s, names, {}, u) && u.max >= 1 && FreeOnce(s, names, c, u)
    ensures Linked(s.(desk := D.Step(s.desk, D.Submit(c, r.aborted, r.clock), u.max)), names, {}, u)
  {
    SubmittedOk(s.desk, c, r, names, u);
    var d := D.Step(s.desk, D.Submit(c, r.aborted, r.clock), u.max);
    MoreSubmitted(s.prep, D.SubmittedRuns(s.desk), {}, c.runId, {});
    SlotStaysFree(s, d, c.runId, names, u);
    hide P.Invariant, DeskOk, D.Step, D.SubmittedRuns, SlotFree, TasksSubmitted, TasksNamed;
  }

  lemma TimesAppend(cs: seq<C.Candidate>, c: C.Candidate, runId: string)
    ensures Times(cs + [c], runId) == Times(cs, runId) + if c.runId == runId then 1 else 0
  {
    assert (cs + [c])[..|cs|] == cs;
  }

  lemma SubmitLists(d: D.Desk, e: D.Event, max: nat)
    requires e.Submit? && max >= 1
    ensures var d' := D.Step(d, e, max);
            if C.Staged(d.store, e.c, e.t, max).1 then d'.staged == d.staged + [e.c] && d'.rejected == d.rejected
            else d'.staged == d.staged && d'.rejected == d.rejected + [e.c]
  {
    hide C.Staged;
  }

  lemma SubmitOnce(d: D.Desk, e: D.Event, max: nat)
    requires SubmittedOnce(d) && e.Submit? && max >= 1 && e.c.runId !in D.SubmittedRuns(d)
    requires D.SubmittedRuns(D.Step(d, e, max)) == D.SubmittedRuns(d) + {e.c.runId}
    ensures SubmittedOnce(D.Step(d, e, max))
  {
    hide D.SubmittedRuns, C.Staged, D.Step, Times;
    SubmitLists(d, e, max);
    var d' := D.Step(d, e, max);
    forall r ensures Times(d'.staged, r) + Times(d'.rejected, r) == if r in D.SubmittedRuns(d') then 1 else 0 {
      TimesAppend(d.staged, e.c, r);
      TimesAppend(d.rejected, e.c, r);
      assert Times(d.staged, r) + Times(d.rejected, r) == if r in D.SubmittedRuns(d) then 1 else 0;
    }
  }

  lemma SubmittedOk(d: D.Desk, c: C.Candidate, r: Request, names: set<string>, u: Setup)
    requires DeskOk(d, names, u.max) && u.max >= 1 && c.runId in names && c.runId !in D.SubmittedRuns(d)
    ensures var d' := D.Step(d, D.Submit(c, r.aborted, r.clock), u.max);
            DeskOk(d', names, u.max) && D.SubmittedRuns(d') == D.SubmittedRuns(d) + {c.runId}
  {
    hide D.Step, D.SubmittedRuns, D.OneFate, D.Conserved;
    D.SubmitConserved(d, D.Submit(c, r.aborted, r.clock), u.max);
    D.SubmitOneFate(d, D.Submit(c, r.aborted, r.clock), u.max);
    SubmitOnce(d, D.Submit(c, r.aborted, r.clock), u.max);
  }

  lemma OnlyRun(p: P.Prep, names: set<string>, id: nat)
    requires TasksNamed(p, names) && HasRun(p, id)
    ensures forall x: nat | HasRun(p, x) && RunOf(p, x) == RunOf(p, id) :: x == id
  {
    hide HasRun, RunOf;
    forall x: nat | HasRun(p, x) ensures x < id ==> RunOf(p, x) != RunOf(p, id) {
    }
  }

  /** Submitting the prepared summary in hand. */
  lemma SubmitPreparedLinked(s: System, prepared: P.Summary, r: Request, names: set<string>, u: Setup)
    requires Linked(s, names, InHand(Some(prepared), s.prep), u) && Holds(s.prep, Some(prepared)) && Proper(u)
    ensures Linked(s.(desk := D.Step(s.desk, D.Submit(u.forms.prepared(prepared), r.aborted, r.clock), u.max)), names, {}, u)
  {
    var c, id := u.forms.prepared(prepared), s.prep.handedOff.value.task;
    assert c.runId == prepared.runId == RunOf(s.prep, id);
    SubmittedOk(s.desk, c, r, names, u);
    var d := D.Step(s.desk, D.Submit(c, r.aborted, r.clock), u.max);
    OnlyRun(s.prep, names, id);
    MoreSubmitted(s.prep, D.SubmittedRuns(s.desk), {id}, c.runId, {});
    SlotStaysFree(s, d, c.runId, names, u);
    hide P.Invariant, DeskOk, D.Step, D.SubmittedRuns, SlotFree, TasksSubmitted, TasksNamed;
  }

  lemma OfferLinked(s: System, foreground: Option<C.Candidate>, r: Request, names: set<string>, u: Setup)
    requires Linked(s, names, {}, u) && u.max >= 1 && (foreground.Some? ==> FreeOnce(s, names, foreground.value, u))
    ensures Linked(Offered(s, foreground, r, u.max).system, names, {}, u)
  {
    if foreground.Some? && r.revalidates {
      SubmitSlotLinked(s, foreground.value, r, names, u);
    }
    hide D.Step, Linked;
  }

  /** Giving the prepared summary back, or submitting it, empties the handler's hands. */
  lemma SettleLinked(s: System, prepared: Option<P.Summary>, foreground: Option<C.Candidate>, r: Request, names: set<string>, u: Setup)
    requires Linked(s, names, InHand(prepared, s.prep), u) && Holds(s.prep, prepared) && Proper(u)
    requires foreground.Some? ==> FreeOnce(s, names, foreground.value, u)
    ensures var s1 := s.(prep := ReportUnused(s.prep, prepared, foreground.Some?, r.revalidates));
            Linked(Offered(s1, Candidate(prepared, foreground, u.forms), r, u.max).system, names, {}, u)
  {
    var s1 := s.(prep := ReportUnused(s.prep, prepared, foreground.Some?, r.revalidates));
    if prepared.None? {
      assert s1 == s;
      OfferLinked(s, foreground, r, names, u);
    } else if foreground.Some? || !r.revalidates {
      var reason := if foreground.Some? then P.Superseded else P.Stale;
      UnusedLinked(s, prepared.value, reason, names, u);
      UnusedFree(s, prepared.value, reason, foreground, names, u);
      hide Linked, D.Step, P.UnusedStep, FreeOnce;
      if foreground.Some? { OfferLinked(s1, foreground, r, names, u); }
    } else {
      SubmitPreparedLinked(s, prepared.value, r, names, u);
      hide Linked, D.Step;
    }
  }

  lemma UnusedFree(s: System, prepared: P.Summary, reason: P.Reason, foreground: Option<C.Candidate>, names: set<string>, u: Setup)
    requires P.Invariant(s.prep) && Holds(s.prep, Some(prepared))
    requires foreground.Some? ==> FreeOnce(s, names, foreground.value, u)
    ensures foreground.Some? ==> FreeOnce(s.(prep := P.UnusedStep(s.prep, prepared.runId, reason)), names, foreground.value, u)
  {
    UnusedWritten(s.prep, s.prep.handedOff.value.task, reason);
    SameTasks(s.prep, P.UnusedStep(s.prep, prepared.runId, reason));
    hide P.UnusedStep, P.Invariant, HasRun, RunOf;
  }

  lemma SameTasks(p: P.Prep, q: P.Prep)
    requires p.tasks == q.tasks
    ensures forall id :: (HasRun(q, id) <==> HasRun(p, id)) && (HasRun(p, id) ==> RunOf(q, id) == RunOf(p, id))
  {
  }

  lemma BeforeCompactLinked(s: System, r: Request, names: set<string>, u: Setup)
    requires Linked(s, names, {}, u) && Proper(u)
    ensures Linked(BeforeCompact(s, r, u.forms, u.max).system, names, {}, u)
  {
    if !r.pivot {
      AskLinked(s, r, names, u);
      var (s1, prepared) := Asked(s, r, u.max);
      ConsumeLinked(s1, r, names, InHand(prepared, s1.prep), u);
      var (s2, foreground) := Consumed(s1, r, u.forms);
      ConsumedKeeps(s1, r, u.forms);
      hide Linked, Asked, Consumed, Offered, Holds, FreeOnce, Proper;
      SettleLinked(s2, prepared, foreground, r, names, u);
    }
  }

  lemma AfterRunLinked(s: System, captured: nat, r: Request, names: set<string>, u: Setup)
    requires Linked(s, names, {}, u) && Proper(u)
    ensures Linked(AfterRun(s, captured, r, u.forms, u.max).system, names, {}, u)
  {
    if captured != s.generation || r.pivot {
      ClearShrinks(s.slot, r.env.session);
      SlotShrinks(s, ClearedSlot(s.slot, r.env.session), names, {}, u);
    } else {
      ConsumeLinked(s, r, names, {}, u);
      hide Linked, Consumed, Offered, FreeOnce;
      OfferLinked(Consumed(s, r, u.forms).0, Consumed(s, r, u.forms).1, r, names, u);
    }
  }

  // ---------------------------------------------------------------- whole runs

  lemma PrepareLinked(s: System, e: P.Event, names: set<string>, u: Setup)
    requires Linked(s, names, {}, u) && !e.Take? && !e.Unused? && P.Possible(s.prep, e)
    requires e.Finish? && e.result.Some? ==> e.result.value.runId !in names
    ensures Linked(s.(prep := P.Step(s.prep, e)), if e.Finish? && e.result.Some? then names + {e.result.value.runId} else names, {}, u)
  {
    if e.Finish? && e.result.Some? {
      FinishLinked(s, e.id, e.result.value, e.now, names, u);
    } else {
      P.StepOk(s.prep, e);
      PrepSame(s.prep, e);
      hide P.Invariant, P.Step, SameSummaries;
      PrepMoves(s, P.Step(s.prep, e), names, {}, u);
    }
  }

  lemma CompactedLinked(s: System, applied: Option<string>, session: string, now: int, t: C.Clock, names: set<string>, u: Setup)
    requires Linked(s, names, {}, u) && u.max >= 1
    ensures Linked(Compacted(s, applied, session, now, t, u.max), names, {}, u)
  {
    PrepareLinked(s, P.NoteCompaction(session, now), names, u);
    hide Linked;
    DeskKeeps(s.(prep := P.NoteCompactionStep(s.prep, session, now)), D.Compacted(applied, session, t), names, {}, u);
  }

  function MoreNames(names: set<string>, e: Event, u: Setup): set<string> {
    if Made(e, u).Some? then names + {Made(e, u).value} else names
  }

  lemma PrepareStepLinked(s: System, p: P.Event, names: set<string>, u: Setup)
    requires Linked(s, names, {}, u) && Possible(s, Prepare(p))
    requires Made(Prepare(p), u).Some? ==> Made(Prepare(p), u).value !in names
    ensures Linked(s.(prep := P.Step(s.prep, p)), MoreNames(names, Prepare(p), u), {}, u)
  {
    hide Linked, P.Step, P.Possible;
    PrepareLinked(s, p, names, u);
  }

  lemma SlotStepLinked(s: System, v: S.Event, names: set<string>, u: Setup)
    requires Linked(s, names, {}, u) && Proper(u) && Possible(s, Slot(v))
    requires Made(Slot(v), u).Some? ==> Made(Slot(v), u).value !in names
    ensures Linked(s.(slot := SlotStep(s.slot, v, u.slots)), MoreNames(names, Slot(v), u), {}, u)
  {
    hide Linked, S.Put;
    if v.SetEvent? {
      SlotGrows(s, v.p, v.now, v.l, names, u);
      SlotSets(s.slot, v, u.slots);
    } else {
      SlotKeeps(s, v, names, u);
    }
  }

  lemma StepLinked(s: System, e: Event, names: set<string>, u: Setup)
    requires Linked(s, names, {}, u) && Proper(u) && Possible(s, e)
    requires Made(e, u).Some? ==> Made(e, u).value !in names
    ensures Linked(Step(s, e, u), MoreNames(names, e, u), {}, u)
  {
    assert P.Grounded(s.prep);
    if e.Prepare? {
      PrepareStepLinked(s, e.p, names, u);
    } else if e.Slot? {
      SlotStepLinked(s, e.v, names, u);
    } else {
      OtherLinked(s, e, names, u);
    }
    hide Linked, P.Step, SlotStep, P.Possible, MoreNames, Made, D.Step, Invalidated, BeforeCompact, AfterRun, Compacted;
  }

  lemma AnsweredLinked(s: System, e: Event, names: set<string>, u: Setup)
    requires Linked(s, names, {}, u) && Proper(u) && (e.Ask? || e.Finished?)
    ensures P.Grounded(s.prep) && Linked(Answered(s, e, u).system, names, {}, u)
  {
    assert P.Grounded(s.prep);
    hide Linked, BeforeCompact, AfterRun;
    if e.Ask? { BeforeCompactLinked(s, e.r, names, u); } else { AfterRunLinked(s, e.captured, e.r, names, u); }
  }

  lemma OtherLinked(s: System, e: Event, names: set<string>, u: Setup)
    requires Linked(s, names, {}, u) && Proper(u) && Possible(s, e) && !e.Prepare? && !e.Slot?
    ensures Linked(Step(s, e, u), names, {}, u)
  {
    assert P.Grounded(s.prep);
    hide Linked, Compacted, Invalidated, Answered, P.Step, D.Step;
    match e
    case Desk(d) => DeskKeeps(s, d, names, {}, u);
    case Invalidate(session, reason, t) => InvalidateLinked(s, session, reason, t, names, u);
    case Ask(_) => AnsweredLinked(s, e, names, u);
    case Finished(_, _) => AnsweredLinked(s, e, names, u);
    case HostCompacted(applied, session, now, t) => CompactedLinked(s, applied, session, now, t, names, u);
  }

  lemma SlotSets(es: seq<S.Entry>, v: S.Event, slots: nat)
    requires v.SetEvent?
    ensures SlotStep(es, v, slots) == S.Put(es, v.p, v.now, v.l, slots)
  {
  }

  lemma NamesAppend(es: seq<Event>, u: Setup)
    requires es != []
    ensures Names(es, u) == MoreNames(Names(es[..|es| - 1], u), es[|es| - 1], u)
  {
    var p := es[..|es| - 1];
    assert forall i | 0 <= i < |p| :: p[i] == es[i];
    forall x ensures x in Names(es, u) <==> x in MoreNames(Names(p, u), es[|es| - 1], u) {
      if x in Names(p, u) {
        var i :| 0 <= i < |p| && Made(p[i], u) == Some(x);
        assert Made(es[i], u) == Some(x);
      }
      if x in Names(es, u) {
        var i :| 0 <= i < |es| && Made(es[i], u) == Some(x);
        assert i < |p| ==> Made(p[i], u) == Some(x);
      }
    }
  }

  lemma FreshStep(es: seq<Event>, u: Setup)
    requires FreshIds(es, u) && es != []
    ensures FreshIds(es[..|es| - 1], u)
    ensures Made(es[|es| - 1], u).Some? ==> Made(es[|es| - 1], u).value !in Names(es[..|es| - 1], u)
  {
    var n := |es| - 1;
    assert forall i | 0 <= i < n :: es[..n][i] == es[i];
  }

  lemma EmptyLinked(u: Setup)
    ensures Linked(EMPTY, {}, {}, u)
  {
    assert SubmittedOnce(D.EMPTY);
    assert D.Committed([]) == [] && D.Cands([]) == [] && D.Noticed([]) == [];
  }

  lemma {:induction false} RunLinked(states: seq<System>, es: seq<Event>, u: Setup, n: nat)
    requires n <= |es| && Proper(u) && IsRun(states, es, u) && FreshIds(es[..n], u)
    ensures Linked(states[n], Names(es[..n], u), {}, u)
  {
    hide Linked, Step, FreshIds, Made, Names;
    if n == 0 {
      EmptyLinked(u);
      assert es[..0] == [];
      NoNames(u);
    } else {
      var p := es[..n];
      assert p[..n - 1] == es[..n - 1] && p[n - 1] == es[n - 1];
      FreshStep(p, u);
      RunLinked(states, es, u, n - 1);
      StepLinked(states[n - 1], es[n - 1], Names(es[..n - 1], u), u);
      NamesAppend(p, u);
      assert states[n - 1 + 1] == Step(states[n - 1], es[n - 1], u);
    }
  }

  lemma NoNames(u: Setup)
    ensures Names([], u) == {}
  {
  }

  // ---------------------------------------------------------------- every cost in one place

  lemma {:induction false} TimesConcat(a: seq<C.Candidate>, b: seq<C.Candidate>, runId: string)
    ensures Times(a + b, runId) == Times(a, runId) + Times(b, runId)
  {
    if b == [] {
      assert a + b == a;
    } else {
      assert a + b == a + b[..|b| - 1] + [b[|b| - 1]] && b == b[..|b| - 1] + [b[|b| - 1]];
      TimesConcat(a, b[..|b| - 1], runId);
      TimesAppend(a + b[..|b| - 1], b[|b| - 1], runId);
    }
  }

  lemma TimesCut(b: seq<C.Candidate>, k: nat, runId: string)
    requires k < |b|
    ensures Times(b, runId) == Times(b[..k] + b[k + 1..], runId) + if b[k].runId == runId then 1 else 0
  {
    hide Times;
    assert b == b[..k] + [b[k]] + b[k + 1..];
    TimesConcat(b[..k], b[k + 1..], runId);
    TimesAppend(b[..k], b[k], runId);
    TimesConcat(b[..k] + [b[k]], b[k + 1..], runId);
  }

  lemma MultisetCut(b: seq<C.Candidate>, k: nat)
    requires k < |b|
    ensures multiset(b[..k] + b[k + 1..]) == multiset(b) - multiset{b[k]}
  {
    assert b == b[..k] + [b[k]] + b[k + 1..];
  }

  /** The order does not matter. */
  lemma {:induction false} TimesOrder(a: seq<C.Candidate>, b: seq<C.Candidate>, runId: string)
    requires multiset(a) == multiset(b)
    ensures Times(a, runId) == Times(b, runId)
  {
    if a == [] {
      assert |multiset(b)| == 0;
    } else {
      var n := |a| - 1;
      assert a[n] in multiset(b);
      var k :| 0 <= k < |b| && b[k] == a[n];
      hide Times;
      MultisetCut(a, n);
      MultisetCut(b, k);
      TimesCut(a, n, runId);
      TimesCut(b, k, runId);
      TimesOrder(a[..n] + a[n + 1..], b[..k] + b[k + 1..], runId);
    }
  }

  /** How often the desk has a run: held, committed, or recorded as failed. */
  function DeskTimes(d: D.Desk, runId: string): nat {
    Times(D.Cands(d.store.held), runId) + Times(D.Committed(d.commits), runId)
    + Times(D.Noticed(d.store.notices), runId) + Times(d.rejected, runId)
  }

  lemma DeskHasOnce(d: D.Desk, names: set<string>, max: nat, runId: string)
    requires DeskOk(d, names, max)
    ensures DeskTimes(d, runId) == if runId in D.SubmittedRuns(d) then 1 else 0
  {
    hide D.OneFate, D.SubmittedRuns;
    var held, noticed, committed := D.Cands(d.store.held), D.Noticed(d.store.notices), D.Committed(d.commits);
    assert multiset(d.staged) == multiset(held + noticed + committed);
    TimesOrder(d.staged, held + noticed + committed, runId);
    TimesConcat(held + noticed, committed, runId);
    TimesConcat(held, noticed, runId);
    assert Times(d.staged, runId) + Times(d.rejected, runId) == if runId in D.SubmittedRuns(d) then 1 else 0;
  }

  /** Over every run of the whole lifecycle, the cost of a prepared summary is counted in exactly
      one place: held by the preparation, discarded, held by the store, committed, noticed by the
      store, or refused; and there once. */
  lemma EveryCostOnce(states: seq<System>, es: seq<Event>, u: Setup, n: nat, id: nat)
    requires n <= |es| && Proper(u) && IsRun(states, es, u) && FreshIds(es[..n], u)
    requires id < |states[n].prep.tasks| && P.Costs(states[n].prep.tasks[id])
    ensures var s := states[n];
            (if s.prep.current == Some(id) then 1 else 0) + P.Count(s.prep.log, id) + DeskTimes(s.desk, RunOf(s.prep, id)) == 1
  {
    RunLinked(states, es, u, n);
    var s := states[n];
    assert P.TaskOk(s.prep, id);
    assert HasRun(s.prep, id);
    DeskHasOnce(s.desk, Names(es[..n], u), u.max, RunOf(s.prep, id));
    hide Step, D.Conserved, D.OneFate, D.SubmittedRuns, P.Possible, SlotFree;
  }

  // ---------------------------------------------------------------- instructions get a fresh summary

  predicate Puts(e: Event, p: S.Payload) {
    e.Slot? && e.v.SetEvent? && e.v.p == p
  }

  /** What a step leaves in the slot was there before or is put there now. */
  lemma StepSlot(s: System, e: Event, u: Setup)
    requires P.Grounded(s.prep) && u.max >= 1 && u.slots >= 1 && Possible(s, e) && S.Keyed(s.slot)
    ensures S.Keyed(Step(s, e, u).slot)
    ensures forall x | x in Step(s, e, u).slot :: x in s.slot || Puts(e, x.value)
  {
    hide S.Take, S.Put, S.Delete, S.Prune, P.CancelStep, P.TakeStep, D.Step, Offered, P.Step, ReportUnused;
    match e
    case Slot(v) => SlotEventSlot(s.slot, v, u.slots);
    case Invalidate(session, _, _) => ClearShrinks(s.slot, session);
    case Ask(r) => if !r.pivot { AskSlot(s, r, u); }
    case Finished(captured, r) =>
      ClearShrinks(s.slot, r.env.session);
      ConsumeSlot(s, r, u);
      OfferedKeeps(Consumed(s, r, u.forms).0, Consumed(s, r, u.forms).1, r, u);
    case _ =>
  }

  lemma SlotEventSlot(es: seq<S.Entry>, v: S.Event, slots: nat)
    requires S.Keyed(es) && slots >= 1 && !v.ConsumeEvent?
    ensures S.Keyed(SlotStep(es, v, slots))
    ensures forall x | x in SlotStep(es, v, slots) :: x in es || (v.SetEvent? && x.value == v.p)
  {
    match v
    case SetEvent(p, now, l) => S.PutIs(es, p, now, l, slots);
    case ClearEvent(target) => if target.Some? { S.DeleteIs(es, target.value); }
    case ViewEvent(now, l) => S.PruneIs(es, now, l);
  }

  lemma OfferedKeeps(s: System, candidate: Option<C.Candidate>, r: Request, u: Setup)
    requires u.max >= 1
    ensures Offered(s, candidate, r, u.max).system == s.(desk := Offered(s, candidate, r, u.max).system.desk)
  {
  }

  lemma ConsumeSlot(s: System, r: Request, u: Setup)
    requires S.Keyed(s.slot)
    ensures var (s1, got) := Consumed(s, r, u.forms);
            && S.Keyed(s1.slot) && (forall x | x in s1.slot :: x in s.slot)
            && (got.Some? ==> exists x :: x in s.slot && x.value.session == r.env.session && got == Some(u.forms.stored(x.value)))
            && ((forall x | x in s.slot :: x.value.session != r.env.session) ==> got.None?)
  {
    S.TakeIs(s.slot, r.env.session, r.now, r.limits, r.certified);
    S.FindIs(s.slot, r.env.session);
    hide S.Find;
  }

  lemma AskSlot(s: System, r: Request, u: Setup)
    requires P.Grounded(s.prep) && u.max >= 1 && S.Keyed(s.slot) && !r.pivot
    ensures var t := BeforeCompact(s, r, u.forms, u.max).system;
            && S.Keyed(t.slot) && (forall x | x in t.slot :: x in s.slot)
            && (r.instructed ==> forall x | x in t.slot :: x.value.session != r.env.session)
  {
    ClearShrinks(s.slot, r.env.session);
    var (s1, prepared) := Asked(s, r, u.max);
    ConsumeSlot(s1, r, u);
    var (s2, foreground) := Consumed(s1, r, u.forms);
    OfferedKeeps(s2.(prep := ReportUnused(s2.prep, prepared, foreground.Some?, r.revalidates)), Candidate(prepared, foreground, u.forms), r, u);
    hide P.TakeStep, Consumed, Offered, ReportUnused, P.CancelStep, D.Step, S.Keyed;
  }

  lemma {:induction false} RunKeyed(states: seq<System>, es: seq<Event>, u: Setup, n: nat)
    requires n <= |es| && u.max >= 1 && u.slots >= 1 && IsRun(states, es, u)
    ensures S.Keyed(states[n].slot)
  {
    hide Step;
    if n > 0 {
      RunKeyed(states, es, u, n - 1);
      StepSlot(states[n - 1], es[n - 1], u);
      assert states[n - 1 + 1] == Step(states[n - 1], es[n - 1], u);
    }
  }

  /** After a request with instructions the slot has, for its session, only what was put there since. */
  lemma {:induction false} SlotSince(states: seq<System>, es: seq<Event>, u: Setup, i: nat, n: nat, x: S.Entry) returns (k: nat)
    requires i < n <= |es| && u.max >= 1 && u.slots >= 1 && IsRun(states, es, u)
    requires es[i].Ask? && es[i].r.instructed && !es[i].r.pivot && x in states[n].slot && x.value.session == es[i].r.env.session
    ensures i < k < n && Puts(es[k], x.value)
  {
    hide Step;
    RunKeyed(states, es, u, n - 1);
    assert states[n - 1 + 1] == Step(states[n - 1], es[n - 1], u);
    if n == i + 1 {
      AskSlot(states[i], es[i].r, u);
      AskStep(states[i], es[i], u);
      assert false;
    } else {
      StepSlot(states[n - 1], es[n - 1], u);
      if Puts(es[n - 1], x.value) {
        k := n - 1;
      } else {
        k := SlotSince(states, es, u, i, n - 1, x);
      }
    }
  }

  lemma AskStep(s: System, e: Event, u: Setup)
    requires P.Grounded(s.prep) && u.max >= 1 && e.Ask?
    ensures Step(s, e, u) == BeforeCompact(s, e.r, u.forms, u.max).system
  {
  }

  /** A request with its own instructions is not answered with anything made before it, and the
      fresh run that follows is answered only with a summary put in the slot since. */
  lemma InstructionsGetFreshSummary(states: seq<System>, es: seq<Event>, u: Setup, i: nat, j: nat)
    requires i < j < |es| && u.max >= 1 && u.slots >= 1 && IsRun(states, es, u)
    requires es[i].Ask? && es[i].r.instructed && !es[i].r.pivot
    requires es[j].Finished? && es[j].r.env.session == es[i].r.env.session
    ensures Answered(states[i], es[i], u).answer.NotSupplied?
    ensures var a := Answered(states[j], es[j], u).answer;
            a.Supplied? ==> exists k, p :: i < k < j && Puts(es[k], p) && p.session == es[i].r.env.session && a.c == u.forms.stored(p)
  {
    hide Step;
    RunKeyed(states, es, u, i);
    RunKeyed(states, es, u, j);
    InstructedNotSupplied(states[i], es[i].r, u);
    var s, r := states[j], es[j].r;
    if Answered(s, es[j], u).answer.Supplied? {
      ConsumeSlot(s, r, u);
      OfferedIs(Consumed(s, r, u.forms).0, Consumed(s, r, u.forms).1, r, u.max);
      var x :| x in s.slot && x.value.session == r.env.session && Consumed(s, r, u.forms).1 == Some(u.forms.stored(x.value));
      var k := SlotSince(states, es, u, i, j, x);
    }
  }

  lemma InstructedNotSupplied(s: System, r: Request, u: Setup)
    requires P.Grounded(s.prep) && u.max >= 1 && S.Keyed(s.slot) && r.instructed && !r.pivot
    ensures BeforeCompact(s, r, u.forms, u.max).answer.NotSupplied?
  {
    ClearShrinks(s.slot, r.env.session);
    var (s1, prepared) := Asked(s, r, u.max);
    assert prepared.None?;
    ConsumeSlot(s1, r, u);
    hide Consumed, Asked;
  }

  // ---------------------------------------------------------------- an invalidation cancels the run's answer

  predicate Invalidates(e: Event) {
    e.Invalidate? || (e.Ask? && e.r.instructed && !e.r.pivot)
  }

  lemma StepGeneration(s: System, e: Event, u: Setup)
    requires P.Grounded(s.prep) && u.max >= 1 && Possible(s, e)
    ensures Step(s, e, u).generation == s.generation + if Invalidates(e) then 1 else 0
  {
    hide S.Take, P.CancelStep, P.TakeStep, D.Step, P.Step, ReportUnused, ClearedSlot;
  }

  lemma {:induction false} GenerationCounts(states: seq<System>, es: seq<Event>, u: Setup, m: nat, n: nat)
    requires m <= n <= |es| && u.max >= 1 && IsRun(states, es, u)
    ensures states[m].generation <= states[n].generation
    ensures states[m].generation == states[n].generation <==> forall k | m <= k < n :: !Invalidates(es[k])
  {
    hide Step, Invalidates;
    if m < n {
      GenerationCounts(states, es, u, m, n - 1);
      StepGeneration(states[n - 1], es[n - 1], u);
      assert states[n - 1 + 1] == Step(states[n - 1], es[n - 1], u);
    }
  }

  /** A fresh run's answer cancels the host exactly when a pivot is pending or the session's
      preparation was invalidated while it ran. */
  lemma CancelledExactly(states: seq<System>, es: seq<Event>, u: Setup, i: nat, j: nat)
    requires i < j < |es| && u.max >= 1 && IsRun(states, es, u)
    requires es[i].Ask? && es[j].Finished? && es[j].captured == states[i + 1].generation
    ensures Answered(states[j], es[j], u).answer.HostCancelled?
            <==> es[j].r.pivot || exists k :: i < k < j && Invalidates(es[k])
  {
    GenerationCounts(states, es, u, i + 1, j);
    hide Step, Consumed, Offered;
    if es[j].captured == states[j].generation && !es[j].r.pivot {
      OfferedIs(Consumed(states[j], es[j].r, u.forms).0, Consumed(states[j], es[j].r, u.forms).1, es[j].r, u.max);
    }
  }
}
