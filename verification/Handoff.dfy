/** The answer to the host's before-compact event, across preparation, slot and commit store. */
module Handoff {
  // The handler asks the background preparation and the pending slot and stages at most one of
  // their summaries. When it has none to give, a fresh run may follow, and its answer comes later.

  import opened Wrappers
  import P = Preparation
  import S = PendingSlot
  import C = CommitStore
  import D = CommitDesk

  /** What the handler reads: whether a pivot holds the host back, whether the request carries its
      own instructions, the preparation's two gates, the slot's limits and whether what it serves is
      still on the branch, and the last revalidation with the host's reserve. */
  datatype Request = Request(pivot: bool, instructed: bool, env: P.Env, now: int, matches: bool, fits: bool,
                             limits: S.Limits, certified: bool, onBranch: bool, revalidates: bool, aborted: bool, clock: C.Clock)

  /** What a prepared and what a stored summary is staged as. */
  datatype Forms = Forms(prepared: P.Summary -> C.Candidate, stored: S.Payload -> C.Candidate)

  /** The parts the handlers share; the generation counts the invalidations. */
  datatype System = System(prep: P.Prep, slot: seq<S.Entry>, desk: D.Desk, generation: nat)

  const EMPTY := System(P.EMPTY, [], D.EMPTY, 0)

  datatype Answer = HostCancelled | Supplied(c: C.Candidate) | NotSupplied

  datatype Outcome = Outcome(system: System, answer: Answer)

  function ClearedSlot(es: seq<S.Entry>, session: string): seq<S.Entry> {
    if session != "" then S.Delete(es, session) else []
  }

  /** Whatever was made for the session goes: the task in force, its slot, its staged summaries. */
  function Invalidated(s: System, session: string, reason: P.Reason, t: C.Clock, max: nat): System
    requires P.Grounded(s.prep) && max >= 1
  {
    System(P.CancelStep(s.prep, reason), ClearedSlot(s.slot, session), D.Step(s.desk, D.Invalidate(session, t), max), s.generation + 1)
  }

  /** What asking the preparation gives, after the instructions were heeded. */
  function Asked(s: System, r: Request, max: nat): (a: (System, Option<P.Summary>))
    requires P.Grounded(s.prep) && max >= 1
    ensures P.Grounded(a.0.prep)
  {
    var s1 := if r.instructed then Invalidated(s, r.env.session, P.Superseded, r.clock, max) else s;
    var (p, prepared) := P.TakeStep(s1.prep, r.env, r.now, r.matches, r.fits);
    (s1.(prep := p), prepared)
  }

  /** The slot's summary for the session, if it still stands on the branch. */
  function Consumed(s: System, r: Request, forms: Forms): (System, Option<C.Candidate>) {
    var (left, got) := S.Take(s.slot, r.env.session, r.now, r.limits, r.certified);
    (s.(slot := left), if got.Served? && r.onBranch then Some(forms.stored(got.pending)) else None)
  }

  /** A prepared summary that is not staged goes back to the preparation as unused. */
  function ReportUnused(p: P.Prep, prepared: Option<P.Summary>, foreground: bool, revalidates: bool): P.Prep
    requires P.Grounded(p)
  {
    if prepared.None? then p
    else if foreground then P.UnusedStep(p, prepared.value.runId, P.Superseded)
    else if !revalidates then P.UnusedStep(p, prepared.value.runId, P.Stale)
    else p
  }

  /** The summary to apply: the slot's comes before the prepared one. */
  function Candidate(prepared: Option<P.Summary>, foreground: Option<C.Candidate>, forms: Forms): Option<C.Candidate> {
    if foreground.Some? then foreground else if prepared.Some? then Some(forms.prepared(prepared.value)) else None
  }

  /** Stage what revalidated and hand it to the host. */
  function Offered(s: System, candidate: Option<C.Candidate>, r: Request, max: nat): Outcome
    requires max >= 1
  {
    if candidate.None? || !r.revalidates then Outcome(s, NotSupplied)
    else
      var d := D.Step(s.desk, D.Submit(candidate.value, r.aborted, r.clock), max);
      Outcome(s.(desk := d), if |d.staged| > |s.desk.staged| && !r.aborted then Supplied(candidate.value) else NotSupplied)
  }

  /** The before-compact event, up to its answer or to the fresh run it starts. */
  function BeforeCompact(s: System, r: Request, forms: Forms, max: nat): Outcome
    requires P.Grounded(s.prep) && max >= 1
  {
    if r.pivot then Outcome(s, HostCancelled)
    else
      var (s1, prepared) := Asked(s, r, max);
      var (s2, foreground) := Consumed(s1, r, forms);
      var s3 := s2.(prep := ReportUnused(s2.prep, prepared, foreground.Some?, r.revalidates));
      Offered(s3, Candidate(prepared, foreground, forms), r, max)
  }

  /** The end of the fresh run: an invalidation or a pivot meanwhile cancels the host, otherwise the
      run's summary is taken from the slot. */
  function AfterRun(s: System, captured: nat, r: Request, forms: Forms, max: nat): Outcome
    requires max >= 1
  {
    if captured != s.generation || r.pivot then Outcome(s.(slot := ClearedSlot(s.slot, r.env.session)), HostCancelled)
    else
      var (s1, generated) := Consumed(s, r, forms);
      Offered(s1, generated, r, max)
  }

  /** The compacted event: preparation for the session ends, and the applied run is committed. */
  function Compacted(s: System, applied: Option<string>, session: string, now: int, t: C.Clock, max: nat): System
    requires P.Grounded(s.prep) && max >= 1
  {
    s.(prep := P.NoteCompactionStep(s.prep, session, now), desk := D.Step(s.desk, D.Compacted(applied, session, t), max))
  }

  predicate Submitted(before: D.Desk, after: D.Desk, c: C.Candidate) {
    after.staged == before.staged + [c] || after.rejected == before.rejected + [c]
  }

  /** The task whose summary is being handed over. */
  predicate Hands(s: System, r: Request, max: nat, id: nat)
    requires P.Grounded(s.prep) && max >= 1
  {
    var (s1, prepared) := Asked(s, r, max);
    prepared.Some? && s1.prep.handedOff == Some(P.Handoff(prepared.value.runId, id))
  }

  /** Asking keeps the preparation's invariant; a summary it gives is out with its task's run. */
  lemma AskedOk(s: System, r: Request, max: nat)
    requires P.Invariant(s.prep) && max >= 1
    ensures P.Invariant(Asked(s, r, max).0.prep)
    ensures Asked(s, r, max).1.Some? ==>
              var p1 := Asked(s, r, max).0.prep;
              p1.handedOff.Some? && p1.handedOff.value.runId == Asked(s, r, max).1.value.runId
  {
    var p := if r.instructed then P.CancelStep(s.prep, P.Superseded) else s.prep;
    P.CancelOk(s.prep, P.Superseded);
    P.TakeOk(p, r.env, r.now, r.matches, r.fits);
  }

  lemma TakenWithCost(p: P.Prep, id: nat)
    requires P.Invariant(p) && p.handedOff.Some? && p.handedOff.value.task == id
    ensures id < |p.tasks| && id in p.out && P.Count(p.log, id) == 0
  {
    assert P.TaskOk(p, id);
  }

  /** A summary reported unused leaves for good: its cost is written once, and it is out no more. */
  lemma UnusedWritten(p: P.Prep, id: nat, reason: P.Reason)
    requires P.Invariant(p) && p.handedOff.Some? && p.handedOff.value.task == id
    ensures var p' := P.UnusedStep(p, p.handedOff.value.runId, reason);
            && P.Invariant(p') && p'.tasks == p.tasks && p'.out == p.out - {id}
            && id < |p'.tasks| && P.Count(p'.log, id) == (if P.Costs(p'.tasks[id]) then 1 else 0)
  {
    TakenWithCost(p, id);
    P.UnusedOk(p, p.handedOff.value.runId, reason);
    P.WriteCounts(p.(handedOff := None, out := p.out - {id}), id, reason, id);
  }

  /** The handler's whole effect on a prepared summary it takes: displaced by the slot's summary or
      no longer valid, its cost is recorded as discarded, once, and it is not staged; otherwise it is
      submitted to the commit store and nothing is recorded against it. */
  lemma PreparedLeavesOnce(s: System, r: Request, forms: Forms, max: nat, id: nat)
    requires P.Invariant(s.prep) && max >= 1 && !r.pivot && Hands(s, r, max, id)
    ensures var ((s1, prepared), o) := (Asked(s, r, max), BeforeCompact(s, r, forms, max).system);
            && P.Invariant(o.prep) && id < |o.prep.tasks|
            && (if Consumed(s1, r, forms).1.Some? || !r.revalidates then
                  id !in o.prep.out && P.Count(o.prep.log, id) == (if P.Costs(o.prep.tasks[id]) then 1 else 0)
                else
                  id in o.prep.out && P.Count(o.prep.log, id) == 0 && Submitted(s1.desk, o.desk, forms.prepared(prepared.value)))
  {
    assert P.Grounded(s.prep);
    hide P.Invariant, P.UnusedStep, Asked, Consumed;
    var (s1, prepared) := Asked(s, r, max);
    AskedOk(s, r, max);
    TakenWithCost(s1.prep, id);
    UnusedWritten(s1.prep, id, P.Superseded);
    UnusedWritten(s1.prep, id, P.Stale);
    ConsumedKeeps(s1, r, forms);
  }

  lemma ConsumedKeeps(s: System, r: Request, forms: Forms)
    ensures Consumed(s, r, forms).0 == s.(slot := Consumed(s, r, forms).0.slot)
  {
  }

  /** A pending pivot holds the host back and touches nothing. */
  lemma PivotHoldsBack(s: System, r: Request, forms: Forms, max: nat)
    requires P.Invariant(s.prep) && max >= 1
    ensures BeforeCompact(s, r, forms, max).answer.HostCancelled? <==> r.pivot
    ensures r.pivot ==> BeforeCompact(s, r, forms, max).system == s
  {
    hide Asked, Consumed;
  }

  /** What staging gives back: a summary is given exactly when the store took it and the request was
      not aborted, and the summary given is the one staged, with its abort listener armed. */
  lemma OfferedIs(s: System, candidate: Option<C.Candidate>, r: Request, max: nat)
    requires max >= 1
    ensures var o := Offered(s, candidate, r, max);
            && (o.answer.Supplied? ==> candidate == Some(o.answer.c) && !r.aborted && r.revalidates
                                       && o.system.desk.staged == s.desk.staged + [o.answer.c]
                                       && o.answer.c.runId in o.system.desk.listeners)
            && (!o.answer.Supplied? && !r.aborted ==> o.system.desk.staged == s.desk.staged)
            && !o.answer.HostCancelled? && o.system == s.(desk := o.system.desk)
  {
    hide C.Staged;
  }

  /** The host is given a summary exactly when one was found, it revalidated, the store took it
      and the request was not aborted; a summary given is the one staged, and the slot's if it had one. */
  lemma SuppliesExactlyStaged(s: System, r: Request, forms: Forms, max: nat)
    requires P.Invariant(s.prep) && max >= 1 && !r.pivot
    ensures var (o, s1) := (BeforeCompact(s, r, forms, max), Asked(s, r, max).0);
            var foreground := Consumed(s1, r, forms).1;
            && (o.answer.Supplied? ==> o.system.desk.staged == s1.desk.staged + [o.answer.c] && !r.aborted && r.revalidates
                                       && o.answer.c.runId in o.system.desk.listeners
                                       && (foreground.Some? ==> o.answer.c == foreground.value))
            && (!o.answer.Supplied? && !r.aborted ==> o.system.desk.staged == s1.desk.staged)
  {
    hide Offered, Asked;
    AskedOk(s, r, max);
    var (s1, prepared) := Asked(s, r, max);
    var (s2, foreground) := Consumed(s1, r, forms);
    hide Consumed;
    ConsumedKeeps(s1, r, forms);
    OfferedIs(s2.(prep := ReportUnused(s2.prep, prepared, foreground.Some?, r.revalidates)), Candidate(prepared, foreground, forms), r, max);
  }
}
