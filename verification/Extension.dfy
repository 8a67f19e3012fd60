/** The extension's event handlers on the objects they share, updated in place. */
module Extension {
  // The background preparation, the pending slot and the commit store are objects; each handler
  // refines the step of the values behind them.

  import opened Wrappers
  import P = Preparation
  import S = PendingSlot
  import C = CommitStore
  import D = CommitDesk
  import H = Handoff

  class Handlers {
    const background: P.Background
    const slot: S.Slot
    const store: C.CommitStore
    var generation: nat
    var listeners: set<string>
    ghost var staged: seq<C.Candidate>
    ghost var commits: seq<D.Commit>
    ghost var rejected: seq<C.Candidate>

    ghost predicate Valid()
      reads this, background, slot, store
    {
      background.Valid() && slot.Valid() && store.Valid()
    }

    ghost function View(): H.System
      reads this, background, slot, store
    {
      H.System(background.View(), slot.entries, Desk(), generation)
    }

    ghost function Desk(): D.Desk
      reads this, store
    {
      D.Desk(store.View(), staged, commits, rejected, listeners)
    }

    constructor (maxPending: int, maxEntries: int)
      ensures Valid() && fresh(background) && fresh(slot) && fresh(store) && View() == H.EMPTY
    {
      background := new P.Background();
      slot := new S.Slot(maxPending);
      store := new C.CommitStore(maxEntries);
      generation := 0;
      listeners, staged, commits, rejected := {}, [], [], [];
    }

    /** Stage a candidate and arm its abort listener; false when nothing may be supplied. */
    method StageForNativeApply(c: C.Candidate, aborted: bool, t: C.Clock) returns (ok: bool)
      requires Valid()
      modifies this, store
      ensures Valid() && Desk() == D.Step(old(Desk()), D.Submit(c, aborted, t), store.max)
      ensures ok <==> |staged| > |old(staged)| && !aborted
      ensures background.View() == old(background.View()) && generation == old(generation)
    {
      var accepted := store.Stage(c, t);
      if !accepted {
        rejected := rejected + [c];
        return false;
      }
      staged := staged + [c];
      if aborted {
        var _ := store.Discard(c.runId, C.Aborted, t);
      } else {
        listeners := listeners + {c.runId};
      }
      ok := !aborted;
    }

    method OnAbort(runId: string, t: C.Clock)
      requires Valid()
      modifies this, store
      ensures Valid() && Desk() == D.Step(old(Desk()), D.AbortSignal(runId, t), store.max)
    {
      if runId !in listeners { return; }
      listeners := listeners - {runId};
      var _ := store.Discard(runId, C.Aborted, t);
    }

    /** The host compacted: preparation for the session ends; a compaction without a run id of
        ours displaces what is staged, any other commits its run. */
    method OnCompacted(applied: Option<string>, session: string, now: int, t: C.Clock) returns (committed: Option<C.Candidate>)
      requires Valid()
      modifies this, background, store
      ensures Valid() && View() == H.Compacted(old(View()), applied, session, now, t, store.max)
      ensures committed.Some? ==> commits == old(commits) + [D.Commit(committed.value, session)]
      ensures committed.None? ==> commits == old(commits)
    {
      hide P.NoteCompactionStep, P.Invariant;
      background.NoteCompaction(session, now);
      if applied.None? || applied.value == "" {
        var _ := store.ClearSession(session, C.Foreign, t);
        return None;
      }
      committed := store.Take(applied.value, session, t);
      if committed.Some? { commits := commits + [D.Commit(committed.value, session)]; }
    }

    method OnCompactFailed(session: string, byUser: bool, t: C.Clock)
      requires Valid()
      modifies this, store
      ensures Valid() && Desk() == D.Step(old(Desk()), D.CompactFailed(session, byUser, t), store.max)
    {
      var _ := store.ClearSession(session, if byUser then C.Aborted else C.ApplyError, t);
    }

    method OnNativeApplyError(runId: string, t: C.Clock) returns (known: bool)
      requires Valid()
      modifies this, store
      ensures Valid() && Desk() == D.Step(old(Desk()), D.ApplyFailed(runId, t), store.max)
    {
      var removed := store.Discard(runId, C.ApplyError, t);
      known := removed.Some?;
    }

    method InvalidateSession(session: string, reason: P.Reason, t: C.Clock)
      requires Valid()
      modifies this, background, slot, store
      ensures Valid() && View() == H.Invalidated(old(View()), session, reason, t, store.max)
    {
      hide P.CancelStep, S.Delete;
      generation := generation + 1;
      background.Cancel(reason);
      slot.Clear(Some(session));
      var _ := store.ClearSession(session, C.Aborted, t);
    }

    /** Heed the request's instructions, then ask the preparation. */
    method AskPreparation(r: H.Request) returns (prepared: Option<P.Summary>)
      requires Valid()
      modifies this, background, slot, store
      ensures Valid() && (View(), prepared) == H.Asked(old(View()), r, store.max)
    {
      hide H.Invalidated, P.TakeStep;
      if r.instructed { InvalidateSession(r.env.session, P.Superseded, r.clock); }
      prepared := background.Take(r.env, r.now, r.matches, r.fits);
    }

    /** The slot's summary, unless the branch has moved on. */
    method ConsumePending(r: H.Request, forms: H.Forms) returns (foreground: Option<C.Candidate>)
      requires Valid()
      modifies slot
      ensures Valid() && (View(), foreground) == H.Consumed(old(View()), r, forms)
    {
      hide S.Take;
      var got := slot.Consume(r.env.session, r.now, r.limits, r.certified);
      foreground := if got.Served? && r.onBranch then Some(forms.stored(got.pending)) else None;
    }

    /** A prepared summary that is displaced or stale goes back as unused. */
    method GiveBack(prepared: Option<P.Summary>, foreground: bool, revalidates: bool)
      requires Valid()
      modifies background
      ensures Valid() && background.View() == H.ReportUnused(old(background.View()), prepared, foreground, revalidates)
    {
      hide P.UnusedStep;
      if prepared.Some? && foreground { background.NoteHandoffUnused(prepared.value.runId, P.Superseded); }
      if !revalidates && prepared.Some? && !foreground { background.NoteHandoffUnused(prepared.value.runId, P.Stale); }
    }

    /** Stage a summary that revalidated and answer with it. */
    method Offer(candidate: Option<C.Candidate>, r: H.Request) returns (answer: H.Answer)
      requires Valid()
      modifies this, store
      ensures Valid() && H.Outcome(View(), answer) == H.Offered(old(View()), candidate, r, store.max)
    {
      hide D.Step;
      if candidate.None? || !r.revalidates { return H.NotSupplied; }
      var ok := StageForNativeApply(candidate.value, r.aborted, r.clock);
      answer := if ok then H.Supplied(candidate.value) else H.NotSupplied;
    }

    /** The host's before-compact event, up to its answer or to the fresh run. */
    method OnBeforeCompact(r: H.Request, forms: H.Forms) returns (answer: H.Answer)
      requires Valid()
      modifies this, background, slot, store
      ensures Valid() && H.Outcome(View(), answer) == H.BeforeCompact(old(View()), r, forms, store.max)
    {
      hide H.Asked, H.Consumed, H.ReportUnused, H.Offered, P.Invariant;
      if r.pivot { return H.HostCancelled; }
      var prepared := AskPreparation(r);
      var foreground := ConsumePending(r, forms);
      GiveBack(prepared, foreground.Some?, r.revalidates);
      answer := Offer(H.Candidate(prepared, foreground, forms), r);
    }

    /** The fresh run is over; `captured` is the generation at its start. */
    method OnRunFinished(captured: nat, r: H.Request, forms: H.Forms) returns (answer: H.Answer)
      requires Valid()
      modifies this, slot, store
      ensures Valid() && H.Outcome(View(), answer) == H.AfterRun(old(View()), captured, r, forms, store.max)
    {
      hide H.Consumed, H.Offered, P.Invariant;
      if captured != generation || r.pivot {
        slot.Clear(Some(r.env.session));
        return H.HostCancelled;
      }
      var generated := ConsumePending(r, forms);
      answer := Offer(generated, r);
    }
  }
}
