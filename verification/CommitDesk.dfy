/** The extension's handlers around the commit store, over whole runs. */
module CommitDesk {
  // Staging with an abort listener, commits, foreign compactions, apply errors and invalidation.

  import opened Wrappers
  import opened CommitStore

  datatype Commit = Commit(c: Candidate, session: string)

  /** The store, what was staged, committed and refused, and the abort listeners still armed. */
  datatype Desk = Desk(store: Store, staged: seq<Candidate>, commits: seq<Commit>, rejected: seq<Candidate>, listeners: set<string>)

  datatype Event =
    | Submit(c: Candidate, aborted: bool, t: Clock)
    | AbortSignal(runId: string, t: Clock)
    | Compacted(applied: Option<string>, session: string, t: Clock)
    | CompactFailed(session: string, byUser: bool, t: Clock)
    | ApplyFailed(runId: string, t: Clock)
    | Invalidate(session: string, t: Clock)
    | Look(t: Clock)

  /** A compaction without a run id of ours: another extension's, or the host's own. */
  predicate IsForeign(applied: Option<string>) {
    applied.None? || applied.value == ""
  }

  function Step(d: Desk, e: Event, max: nat): Desk
    requires max >= 1
  {
    match e
    case Submit(c, aborted, t) =>
      var (store, ok) := Staged(d.store, c, t, max);
      if !ok then d.(store := store, rejected := d.rejected + [c])
      else if aborted then d.(store := Discarded(store, c.runId, Aborted, t), staged := d.staged + [c])
      else d.(store := store, staged := d.staged + [c], listeners := d.listeners + {c.runId})
    case AbortSignal(runId, t) =>
      if runId in d.listeners then d.(store := Discarded(d.store, runId, Aborted, t), listeners := d.listeners - {runId}) else d
    case Compacted(applied, session, t) =>
      if IsForeign(applied) then d.(store := Cleared(d.store, session, Foreign, t))
      else
        var (store, r) := Taken(d.store, applied.value, session, t);
        d.(store := store, commits := if r.Some? then d.commits + [Commit(r.value, session)] else d.commits)
    case CompactFailed(session, byUser, t) => d.(store := Cleared(d.store, session, if byUser then Aborted else ApplyError, t))
    case ApplyFailed(runId, t) => d.(store := Discarded(d.store, runId, ApplyError, t))
    case Invalidate(session, t) => d.(store := Cleared(d.store, session, Aborted, t))
    case Look(t) => d.(store := Swept(d.store, t))
  }

  const EMPTY := Desk(Store([], []), [], [], [], {})

  function RunFrom(d: Desk, es: seq<Event>, max: nat): Desk
    requires max >= 1
  {
    if es == [] then d else Step(RunFrom(d, es[..|es| - 1], max), es[|es| - 1], max)
  }

  // ---------------------------------------------------------------- nothing is lost

  function Cands(es: seq<Held>): seq<Candidate> {
    seq(|es|, i requires 0 <= i < |es| => es[i].c)
  }

  function Noticed(ns: seq<Notice>): seq<Candidate> {
    seq(|ns|, i requires 0 <= i < |ns| => ns[i].c)
  }

  function Committed(cs: seq<Commit>): seq<Candidate> {
    seq(|cs|, i requires 0 <= i < |cs| => cs[i].c)
  }

  /** The candidates a store holds or has given notice of, with multiplicity. */
  function Mass(s: Store): multiset<Candidate> {
    multiset(Cands(s.held)) + multiset(Noticed(s.notices))
  }

  lemma ConsMass(h: Held, es: seq<Held>)
    ensures multiset(Cands([h] + es)) == multiset{h.c} + multiset(Cands(es))
  {
    assert Cands([h] + es) == [h.c] + Cands(es);
  }

  lemma {:induction false} KeepDropMass(es: seq<Held>, p: Held -> bool)
    ensures multiset(Cands(es)) == multiset(Cands(Keep(es, p))) + multiset(Cands(Drop(es, p)))
  {
    if es != [] {
      KeepDropMass(es[1..], p);
      ConsMass(es[0], es[1..]);
      assert es == [es[0]] + es[1..];
      ConsMass(es[0], if p(es[0]) then Keep(es[1..], p) else Drop(es[1..], p));
      assert Keep(es, p) == if p(es[0]) then [es[0]] + Keep(es[1..], p) else Keep(es[1..], p);
      assert Drop(es, p) == if p(es[0]) then Drop(es[1..], p) else [es[0]] + Drop(es[1..], p);
    }
  }

  lemma NoticesMass(ns: seq<Notice>, es: seq<Held>, reason: Reason)
    ensures multiset(Noticed(ns + Notices(es, reason))) == multiset(Noticed(ns)) + multiset(Cands(es))
  {
    assert Noticed(ns + Notices(es, reason)) == Noticed(ns) + Cands(es);
  }

  lemma ShedMass(s: Store, p: Held -> bool, reason: Reason)
    ensures Mass(Shed(s, p, reason)) == Mass(s)
  {
    KeepDropMass(s.held, p);
    NoticesMass(s.notices, Drop(s.held, p), reason);
  }

  lemma RoomMass(s: Store, max: nat)
    requires max >= 1
    ensures Mass(MakeRoom(s, max)) == Mass(s)
  {
    if |s.held| >= max {
      var n := |s.held| - max + 1;
      NoticesMass(s.notices, s.held[..n], Evicted);
      assert Cands(s.held) == Cands(s.held[..n]) + Cands(s.held[n..]);
    }
  }

  lemma AppendMass(s: Store, h: Held)
    ensures Mass(s.(held := s.held + [h])) == Mass(s) + multiset{h.c}
  {
    assert Cands(s.held + [h]) == Cands(s.held) + [h.c];
  }

  lemma StagedMass(s: Store, c: Candidate, t: Clock, max: nat)
    requires max >= 1
    ensures var (s', ok) := Staged(s, c, t, max); Mass(s') == Mass(s) + if ok then multiset{c} else multiset{}
  {
    hide Mass, MakeRoom;
    var swept := Swept(s, t);
    ShedMass(s, Alive(t), ExpiredReason);
    RoomMass(swept, max);
    AppendMass(MakeRoom(swept, max), Held(c, t.now));
  }

  /** Taking a run out of the store takes its candidate and no other. */
  lemma OutMass(s: Store, runId: string)
    requires Keyed(s.held) && FindRun(s.held, runId).Some?
    ensures Mass(s) == Mass(s.(held := Keep(s.held, OtherRun(runId)))) + multiset{FindRun(s.held, runId).value}
  {
    KeepDropMass(s.held, OtherRun(runId));
    DropRun(s.held, runId);
    assert Cands(Drop(s.held, OtherRun(runId))) == [FindRun(s.held, runId).value];
    hide Keep, Drop, FindRun, Cands, Noticed;
  }

  lemma TakenMass(s: Store, runId: string, session: string, t: Clock)
    requires Keyed(s.held)
    ensures var (s', r) := Taken(s, runId, session, t);
            Mass(s) == Mass(s') + if r.Some? then multiset{r.value} else multiset{}
  {
    var swept := Swept(s, t);
    ShedMass(s, Alive(t), ExpiredReason);
    KeepMembers(s.held, Alive(t));
    ShedMass(swept, OtherRun(runId), SessionMismatch);
    if FindRun(swept.held, runId).Some? { OutMass(swept, runId); }
    hide Mass, Keep, Drop, FindRun, Keyed;
  }

  lemma DiscardedMass(s: Store, runId: string, reason: Reason, t: Clock)
    ensures Mass(Discarded(s, runId, reason, t)) == Mass(s)
  {
    ShedMass(s, Alive(t), ExpiredReason);
    ShedMass(Swept(s, t), OtherRun(runId), reason);
  }

  lemma ClearedMass(s: Store, session: string, reason: Reason, t: Clock)
    ensures Mass(Cleared(s, session, reason, t)) == Mass(s)
  {
    ShedMass(s, Alive(t), ExpiredReason);
    ShedMass(Swept(s, t), OtherSession(session), reason);
  }

  // ---------------------------------------------------------------- where the runs are

  function HeldRuns(s: Store): set<string> {
    set h | h in s.held :: h.c.runId
  }

  function NoticeRuns(s: Store): set<string> {
    set n | n in s.notices :: n.c.runId
  }

  /** From s to s' the store only lost entries: the runs in `out` left with their caller, the
      others with a notice. */
  predicate Loses(s: Store, s': Store, out: set<string>) {
    && Keyed(s.held) && Keyed(s'.held) && |s'.held| <= |s.held|
    && HeldRuns(s') + out <= HeldRuns(s) && out !! HeldRuns(s')
    && NoticeRuns(s') == NoticeRuns(s) + (HeldRuns(s) - HeldRuns(s') - out)
  }

  lemma LosesTwice(a: Store, b: Store, c: Store, out: set<string>)
    requires Loses(a, b, {}) && Loses(b, c, out)
    ensures Loses(a, c, out)
  {
  }

  lemma SameRunSameEntry(es: seq<Held>, x: Held, y: Held)
    requires Keyed(es) && x in es && y in es && x.c.runId == y.c.runId
    ensures x == y
  {
  }

  lemma NoticeRunsAppend(ns: seq<Notice>, es: seq<Held>, reason: Reason, held: seq<Held>)
    ensures NoticeRuns(Store(held, ns + Notices(es, reason))) == NoticeRuns(Store(held, ns)) + set h | h in es :: h.c.runId
  {
    var more := Notices(es, reason);
    forall r | r in (set h | h in es :: h.c.runId) ensures r in NoticeRuns(Store(held, ns + more)) {
      var h :| h in es && h.c.runId == r;
      var i :| 0 <= i < |es| && es[i] == h;
      assert more[i] == Notice(h.c, reason);
      assert more[i] in ns + more;
    }
    forall r | r in NoticeRuns(Store(held, ns)) ensures r in NoticeRuns(Store(held, ns + more)) {
      var n :| n in ns && n.c.runId == r;
      assert n in ns + more;
    }
    forall r | r in NoticeRuns(Store(held, ns + more)) ensures r in NoticeRuns(Store(held, ns)) + set h | h in es :: h.c.runId {
      var n :| n in ns + more && n.c.runId == r;
      if n !in ns {
        var i :| 0 <= i < |more| && more[i] == n;
        assert es[i] in es;
      }
    }
  }

  /** Splitting the entries into kept and gone splits their runs. */
  lemma SplitRuns(s: Store, kept: seq<Held>, gone: seq<Held>, reason: Reason)
    requires Keyed(s.held) && Keyed(kept) && |kept| <= |s.held|
    requires forall h :: h in s.held <==> h in kept || h in gone
    requires forall h | h in gone :: h !in kept
    ensures Loses(s, Store(kept, s.notices + Notices(gone, reason)), {})
  {
    var s' := Store(kept, s.notices + Notices(gone, reason));
    NoticeRunsAppend(s.notices, gone, reason, kept);
    forall h, k | h in gone && k in kept ensures k.c.runId != h.c.runId {
      if k.c.runId == h.c.runId { SameRunSameEntry(s.held, h, k); }
    }
    assert HeldRuns(s) - HeldRuns(s') == set h | h in gone :: h.c.runId;
  }

  lemma ShedRuns(s: Store, p: Held -> bool, reason: Reason)
    requires Keyed(s.held)
    ensures Loses(s, Shed(s, p, reason), {})
  {
    KeepMembers(s.held, p);
    SplitRuns(s, Keep(s.held, p), Drop(s.held, p), reason);
  }

  lemma RoomRuns(s: Store, max: nat)
    requires Keyed(s.held) && max >= 1
    ensures Loses(s, MakeRoom(s, max), {}) && |MakeRoom(s, max).held| < max
  {
    if |s.held| >= max {
      var n := |s.held| - max + 1;
      var gone, kept := s.held[..n], s.held[n..];
      assert s.held == gone + kept;
      forall h | h in gone ensures h !in kept {
        var i :| 0 <= i < n && s.held[i] == h;
        assert forall k | 0 <= k < |kept| :: kept[k] == s.held[k + n];
      }
      SplitRuns(s, kept, gone, Evicted);
    }
  }

  lemma TakenRuns(s: Store, runId: string, session: string, t: Clock)
    requires Keyed(s.held)
    ensures var (s', r) := Taken(s, runId, session, t);
            && Loses(s, s', if r.Some? then {runId} else {})
            && (r.Some? ==> r.value.session == session && r.value.runId == runId)
  {
    var swept := Swept(s, t);
    ShedRuns(s, Alive(t), ExpiredReason);
    ShedRuns(swept, OtherRun(runId), SessionMismatch);
    FindRunIs(swept.held, runId);
    KeepMembers(swept.held, OtherRun(runId));
    var (s', r) := Taken(s, runId, session, t);
    if r.Some? {
      var h :| h in swept.held && h.c == r.value;
      assert runId in HeldRuns(swept);
      forall x | x in HeldRuns(swept) && x != runId ensures x in HeldRuns(s') {
        var k :| k in swept.held && k.c.runId == x;
        assert k in s'.held;
      }
      assert Loses(swept, s', {runId});
      LosesTwice(s, swept, s', {runId});
    }
  }

  lemma DiscardedRuns(s: Store, runId: string, reason: Reason, t: Clock)
    requires Keyed(s.held)
    ensures Loses(s, Discarded(s, runId, reason, t), {})
  {
    ShedRuns(s, Alive(t), ExpiredReason);
    ShedRuns(Swept(s, t), OtherRun(runId), reason);
    LosesTwice(s, Swept(s, t), Discarded(s, runId, reason, t), {});
  }

  lemma ClearedRuns(s: Store, session: string, reason: Reason, t: Clock)
    requires Keyed(s.held)
    ensures Loses(s, Cleared(s, session, reason, t), {})
  {
    ShedRuns(s, Alive(t), ExpiredReason);
    ShedRuns(Swept(s, t), OtherSession(session), reason);
    LosesTwice(s, Swept(s, t), Cleared(s, session, reason, t), {});
  }

  // ---------------------------------------------------------------- the desk's invariant

  function RunsOf(cs: seq<Candidate>): set<string> {
    set c | c in cs :: c.runId
  }

  function CommittedRuns(d: Desk): set<string> {
    set k | k in d.commits :: k.c.runId
  }

  function FailedRuns(d: Desk): set<string> {
    NoticeRuns(d.store) + RunsOf(d.rejected)
  }

  function SubmittedRuns(d: Desk): set<string> {
    RunsOf(d.staged) + RunsOf(d.rejected)
  }

  /** Every staged candidate is held, committed or noticed, counted with multiplicity; commits
      are for the candidate's own session; the store is within its bound. */
  predicate Conserved(d: Desk, max: nat) {
    && multiset(d.staged) == Mass(d.store) + multiset(Committed(d.commits))
    && Keyed(d.store.held) && |d.store.held| <= max
    && forall i | 0 <= i < |d.commits| :: d.commits[i].c.session == d.commits[i].session
  }

  /** Every submitted run is in exactly one place: held, committed, or recorded as failed. */
  predicate OneFate(d: Desk) {
    && HeldRuns(d.store) + CommittedRuns(d) + FailedRuns(d) == SubmittedRuns(d)
    && HeldRuns(d.store) !! CommittedRuns(d) && HeldRuns(d.store) !! FailedRuns(d) && CommittedRuns(d) !! FailedRuns(d)
  }

  /** The store of d after e when e is no submission, and the run e commits. */
  lemma QuietStep(d: Desk, e: Event, max: nat) returns (out: Option<Candidate>)
    requires max >= 1 && Keyed(d.store.held) && !e.Submit?
    ensures var d' := Step(d, e, max);
            && Loses(d.store, d'.store, if out.Some? then {out.value.runId} else {})
            && Mass(d.store) == Mass(d'.store) + (if out.Some? then multiset{out.value} else multiset{})
            && d'.staged == d.staged && d'.rejected == d.rejected
            && d'.commits == (if out.Some? then d.commits + [Commit(out.value, out.value.session)] else d.commits)
  {
    out := None;
    match e
    case AbortSignal(runId, t) =>
      DiscardedRuns(d.store, runId, Aborted, t);
      DiscardedMass(d.store, runId, Aborted, t);
    case Compacted(applied, session, t) =>
      if IsForeign(applied) {
        ClearedRuns(d.store, session, Foreign, t);
        ClearedMass(d.store, session, Foreign, t);
      } else {
        TakenRuns(d.store, applied.value, session, t);
        TakenMass(d.store, applied.value, session, t);
        out := Taken(d.store, applied.value, session, t).1;
      }
    case CompactFailed(session, byUser, t) =>
      ClearedRuns(d.store, session, if byUser then Aborted else ApplyError, t);
      ClearedMass(d.store, session, if byUser then Aborted else ApplyError, t);
    case ApplyFailed(runId, t) =>
      DiscardedRuns(d.store, runId, ApplyError, t);
      DiscardedMass(d.store, runId, ApplyError, t);
    case Invalidate(session, t) =>
      ClearedRuns(d.store, session, Aborted, t);
      ClearedMass(d.store, session, Aborted, t);
    case Look(t) =>
      ShedRuns(d.store, Alive(t), ExpiredReason);
      ShedMass(d.store, Alive(t), ExpiredReason);
  }

  lemma QuietConserved(d: Desk, e: Event, max: nat)
    requires max >= 1 && Conserved(d, max) && !e.Submit?
    ensures Conserved(Step(d, e, max), max)
  {
    hide Mass, HeldRuns, NoticeRuns;
    var out := QuietStep(d, e, max);
    hide Step;
    var d' := Step(d, e, max);
    if out.Some? {
      assert Committed(d'.commits) == Committed(d.commits) + [out.value];
    }
  }

  lemma QuietOneFate(d: Desk, e: Event, max: nat)
    requires max >= 1 && Keyed(d.store.held) && OneFate(d) && !e.Submit?
    ensures OneFate(Step(d, e, max)) && SubmittedRuns(Step(d, e, max)) == SubmittedRuns(d)
  {
    var out := QuietStep(d, e, max);
    var d' := Step(d, e, max);
    if out.Some? {
      CommitRunsAppend(d.commits, Commit(out.value, out.value.session));
      assert CommittedRuns(d') == CommittedRuns(d) + {out.value.runId};
    }
  }

  lemma CommitRunsAppend(cs: seq<Commit>, k: Commit)
    ensures (set x | x in cs + [k] :: x.c.runId) == (set x | x in cs :: x.c.runId) + {k.c.runId}
  {
    assert k in cs + [k];
    assert forall x :: x in cs + [k] <==> x in cs || x == k;
  }

  lemma RunsAppend(cs: seq<Candidate>, c: Candidate)
    ensures RunsOf(cs + [c]) == RunsOf(cs) + {c.runId}
  {
    assert c in cs + [c];
    assert forall x :: x in cs + [c] <==> x in cs || x == c;
  }

  /** The store after a staging attempt. */
  lemma StagedRuns(s: Store, c: Candidate, t: Clock, max: nat) returns (room: Store)
    requires max >= 1 && Keyed(s.held) && |s.held| <= max
    ensures var (s', ok) := Staged(s, c, t, max);
            && Loses(s, room, {}) && Keyed(s'.held) && |s'.held| <= max
            && (if ok then s' == room.(held := room.held + [Held(c, t.now)]) && c.runId !in HeldRuns(room) else s' == room)
  {
    var swept := Swept(s, t);
    ShedRuns(s, Alive(t), ExpiredReason);
    RoomRuns(swept, max);
    FindRunIs(swept.held, c.runId);
    if Staged(s, c, t, max).1 {
      room := MakeRoom(swept, max);
      LosesTwice(s, swept, room, {});
      RoomKeyed(swept, max, Held(c, t.now));
      assert c.runId !in HeldRuns(swept);
    } else {
      room := swept;
    }
  }

  lemma HeldAppend(s: Store, h: Held)
    ensures HeldRuns(s.(held := s.held + [h])) == HeldRuns(s) + {h.c.runId}
    ensures NoticeRuns(s.(held := s.held + [h])) == NoticeRuns(s)
  {
    assert h in s.held + [h];
    assert forall x :: x in s.held + [h] <==> x in s.held || x == h;
  }

  lemma SubmitConserved(d: Desk, e: Event, max: nat)
    requires max >= 1 && Conserved(d, max) && e.Submit?
    ensures Conserved(Step(d, e, max), max)
  {
    var room := StagedRuns(d.store, e.c, e.t, max);
    StagedMass(d.store, e.c, e.t, max);
    var (store, ok) := Staged(d.store, e.c, e.t, max);
    if ok && e.aborted {
      DiscardedMass(store, e.c.runId, Aborted, e.t);
      DiscardedRuns(store, e.c.runId, Aborted, e.t);
    }
  }

  /** A store that only lost entries, each with its notice, keeps every run in one place. */
  lemma LosesFate(d: Desk, s: Store)
    requires OneFate(d) && Loses(d.store, s, {})
    ensures OneFate(d.(store := s)) && SubmittedRuns(d.(store := s)) == SubmittedRuns(d)
  {
    hide HeldRuns, NoticeRuns, RunsOf, CommittedRuns;
    assert CommittedRuns(d.(store := s)) == CommittedRuns(d) by { SameCommits(d, d.(store := s)); }
  }

  lemma SameCommits(d: Desk, e: Desk)
    requires d.commits == e.commits
    ensures CommittedRuns(d) == CommittedRuns(e)
  {
  }

  lemma RejectFate(d: Desk, c: Candidate)
    requires OneFate(d) && c.runId !in SubmittedRuns(d)
    ensures OneFate(d.(rejected := d.rejected + [c]))
    ensures SubmittedRuns(d.(rejected := d.rejected + [c])) == SubmittedRuns(d) + {c.runId}
  {
    hide HeldRuns, NoticeRuns, RunsOf, CommittedRuns;
    RunsAppend(d.rejected, c);
    SameCommits(d, d.(rejected := d.rejected + [c]));
  }

  function HoldMore(d: Desk, h: Held): Desk {
    d.(store := d.store.(held := d.store.held + [h]), staged := d.staged + [h.c])
  }

  lemma HoldFate(d: Desk, h: Held)
    requires OneFate(d) && h.c.runId !in SubmittedRuns(d)
    ensures OneFate(HoldMore(d, h)) && SubmittedRuns(HoldMore(d, h)) == SubmittedRuns(d) + {h.c.runId}
  {
    hide HeldRuns, NoticeRuns, RunsOf, CommittedRuns;
    RunsAppend(d.staged, h.c);
    HeldAppend(d.store, h);
    SameCommits(d, HoldMore(d, h));
  }

  lemma ListenersFate(d: Desk, e: Desk)
    requires OneFate(d) && e == d.(listeners := e.listeners)
    ensures OneFate(e) && SubmittedRuns(e) == SubmittedRuns(d)
  {
    SameCommits(d, e);
  }

  /** A submission under a new run id keeps every run in one place. */
  lemma SubmitOneFate(d: Desk, e: Event, max: nat)
    requires max >= 1 && Conserved(d, max) && OneFate(d) && e.Submit? && e.c.runId !in SubmittedRuns(d)
    ensures OneFate(Step(d, e, max)) && SubmittedRuns(Step(d, e, max)) == SubmittedRuns(d) + {e.c.runId}
  {
    var room := StagedRuns(d.store, e.c, e.t, max);
    var (store, ok) := Staged(d.store, e.c, e.t, max);
    hide OneFate, Loses, SubmittedRuns, Staged, Discarded, Conserved;
    LosesFate(d, room);
    var kept := d.(store := room);
    if !ok {
      RejectFate(kept, e.c);
    } else {
      var mid := HoldMore(kept, Held(e.c, e.t.now));
      HoldFate(kept, Held(e.c, e.t.now));
      if e.aborted {
        DiscardedRuns(store, e.c.runId, Aborted, e.t);
        LosesFate(mid, Discarded(store, e.c.runId, Aborted, e.t));
      } else {
        ListenersFate(mid, Step(d, e, max));
      }
    }
  }

  // ---------------------------------------------------------------- whole runs

  /** Conservation over every run, whatever run ids are submitted. */
  lemma {:induction false} RunConserves(es: seq<Event>, max: nat)
    requires max >= 1
    ensures Conserved(RunFrom(EMPTY, es, max), max)
  {
    if es == [] {
      assert Committed([]) == [] && Cands([]) == [] && Noticed([]) == [];
    } else {
      var n := |es| - 1;
      RunConserves(es[..n], max);
      if es[n].Submit? {
        SubmitConserved(RunFrom(EMPTY, es[..n], max), es[n], max);
      } else {
        QuietConserved(RunFrom(EMPTY, es[..n], max), es[n], max);
      }
    }
  }

  /** Each submission uses a run id of its own. */
  predicate FreshRuns(es: seq<Event>) {
    forall i, j | 0 <= i < j < |es| && es[i].Submit? && es[j].Submit? :: es[i].c.runId != es[j].c.runId
  }

  predicate Submits(es: seq<Event>, runId: string) {
    exists i | 0 <= i < |es| :: es[i].Submit? && es[i].c.runId == runId
  }

  lemma FreshPrefix(es: seq<Event>, n: nat)
    requires n <= |es| && FreshRuns(es)
    ensures FreshRuns(es[..n])
  {
    forall i, j | 0 <= i < j < n && es[..n][i].Submit? && es[..n][j].Submit? ensures es[..n][i].c.runId != es[..n][j].c.runId {
      assert es[i] == es[..n][i] && es[j] == es[..n][j];
    }
  }

  /** When no run id is submitted twice, no run is ever both committed and recorded as failed,
      and the submitted runs are exactly those held, committed or failed. */
  lemma {:induction false} NeverBoth(es: seq<Event>, max: nat)
    requires max >= 1 && FreshRuns(es)
    ensures OneFate(RunFrom(EMPTY, es, max))
    ensures forall r :: r in SubmittedRuns(RunFrom(EMPTY, es, max)) <==> Submits(es, r)
  {
    if es != [] {
      var n := |es| - 1;
      var d, e := RunFrom(EMPTY, es[..n], max), es[n];
      FreshPrefix(es, n);
      NeverBoth(es[..n], max);
      RunConserves(es[..n], max);
      assert forall i | 0 <= i < n :: es[..n][i] == es[i];
      if e.Submit? {
        assert !Submits(es[..n], e.c.runId);
        SubmitOneFate(d, e, max);
      } else {
        QuietOneFate(d, e, max);
      }
      forall r ensures Submits(es, r) <==> Submits(es[..n], r) || (e.Submit? && e.c.runId == r) {
        SubmitsAppend(es, r);
      }
    }
  }

  lemma SubmitsAppend(es: seq<Event>, r: string)
    requires es != []
    ensures var n := |es| - 1; Submits(es, r) <==> Submits(es[..n], r) || (es[n].Submit? && es[n].c.runId == r)
  {
    var n := |es| - 1;
    if i :| 0 <= i < |es| && es[i].Submit? && es[i].c.runId == r && i < n {
      assert es[..n][i] == es[i];
    }
    if i :| 0 <= i < n && es[..n][i].Submit? && es[..n][i].c.runId == r {
      assert es[i] == es[..n][i];
    }
  }

  // ---------------------------------------------------------------- exactly when both can happen

  predicate Both(d: Desk, r: string) {
    r in CommittedRuns(d) && r in FailedRuns(d)
  }

  predicate Quiet(es: seq<Event>) {
    forall i | 0 <= i < |es| :: !es[i].Submit?
  }

  lemma {:induction false} RunJoin(es: seq<Event>, more: seq<Event>, max: nat)
    requires max >= 1
    ensures RunFrom(EMPTY, es + more, max) == RunFrom(RunFrom(EMPTY, es, max), more, max)
  {
    if more == [] {
      assert es + more == es;
    } else {
      assert (es + more)[..|es + more| - 1] == es + more[..|more| - 1];
      RunJoin(es, more[..|more| - 1], max);
    }
  }

  lemma {:induction false} KeepTwice(es: seq<Held>, p: Held -> bool)
    ensures Keep(Keep(es, p), p) == Keep(es, p)
  {
    if es != [] {
      KeepTwice(es[1..], p);
      var rest := Keep(es[1..], p);
      if p(es[0]) {
        assert Keep(es, p)[1..] == rest;
      } else {
        assert Keep(es, p) == rest;
      }
    }
  }

  lemma {:induction false} FindLast(es: seq<Held>, h: Held)
    requires forall x | x in es :: x.c.runId != h.c.runId
    ensures FindRun(es + [h], h.c.runId) == Some(h.c)
  {
    if es == [] {
      assert es + [h] == [h];
    } else {
      assert (es + [h])[1..] == es[1..] + [h];
      FindLast(es[1..], h);
    }
  }

  lemma {:induction false} KeepAppend(es: seq<Held>, h: Held, p: Held -> bool)
    requires p(h)
    ensures Keep(es + [h], p) == Keep(es, p) + [h]
  {
    if es == [] {
      assert es + [h] == [h];
      assert [h][1..] == [];
    } else {
      var first := if p(es[0]) then [es[0]] else [];
      assert (es + [h])[1..] == es[1..] + [h];
      KeepAppend(es[1..], h, p);
      assert Keep(es + [h], p) == first + Keep(es[1..] + [h], p);
      assert Keep(es, p) == first + Keep(es[1..], p);
      assert first + (Keep(es[1..], p) + [h]) == first + Keep(es[1..], p) + [h];
    }
  }

  /** A run held at time t and alive can be taken at time t by its own session. */
  lemma TakeHeld(d: Desk, r: string, c: Candidate, t: Clock, max: nat)
    requires max >= 1 && r != "" && Keyed(d.store.held) && FindRun(Swept(d.store, t).held, r) == Some(c)
    ensures r in CommittedRuns(Step(d, Compacted(Some(r), c.session, t), max))
    ensures FailedRuns(d) <= FailedRuns(Step(d, Compacted(Some(r), c.session, t), max))
  {
    var e := Compacted(Some(r), c.session, t);
    var out := QuietStep(d, e, max);
    FindRunIs(Swept(d.store, t).held, r);
    var d' := Step(d, e, max);
    assert d'.commits == d.commits + [Commit(c, c.session)];
    CommitRunsAppend(d.commits, Commit(c, c.session));
  }

  /** A run found in the store leaves it with a notice. */
  lemma OutNoticed(s: Store, r: string, reason: Reason)
    requires Keyed(s.held) && FindRun(s.held, r).Some?
    ensures r in NoticeRuns(Shed(s, OtherRun(r), reason))
  {
    DropRun(s.held, r);
    FindRunIs(s.held, r);
    var gone := Drop(s.held, OtherRun(r));
    NoticeRunsAppend(s.notices, gone, reason, Keep(s.held, OtherRun(r)));
    assert gone[0] in gone && gone[0].c.runId == r;
    hide NoticeRuns, Keep, Drop;
  }

  /** Discarding a run held and alive records it as failed. */
  lemma FailHeld(d: Desk, r: string, c: Candidate, t: Clock, max: nat)
    requires max >= 1 && Keyed(d.store.held) && FindRun(Swept(d.store, t).held, r) == Some(c)
    ensures r in FailedRuns(Step(d, ApplyFailed(r, t), max))
    ensures CommittedRuns(d) == CommittedRuns(Step(d, ApplyFailed(r, t), max))
  {
    KeepMembers(d.store.held, Alive(t));
    OutNoticed(Swept(d.store, t), r, ApplyError);
    SameCommits(d, Step(d, ApplyFailed(r, t), max));
    hide NoticeRuns, RunsOf, CommittedRuns, FindRun, Shed;
  }

  lemma StagedIsFound(s: Store, c: Candidate, t: Clock, max: nat)
    requires max >= 1 && Keyed(s.held) && |s.held| <= max && Staged(s, c, t, max).1
    ensures FindRun(Swept(Staged(s, c, t, max).0, t).held, c.runId) == Some(c)
  {
    var room := StagedRuns(s, c, t, max);
    var h := Held(c, t.now);
    KeepAppend(room.held, h, Alive(t));
    KeepMembers(room.held, Alive(t));
    forall x | x in Keep(room.held, Alive(t)) ensures x.c.runId != c.runId {
      assert x.c.runId in HeldRuns(room);
    }
    FindLast(Keep(room.held, Alive(t)), h);
  }

  /** After any run of distinct submissions, submitting a well-formed candidate opens a way for
      its run to end both committed and recorded as failed exactly when that run id had been
      submitted before. */
  lemma ResubmissionExactly(es: seq<Event>, c: Candidate, t: Clock, max: nat)
    requires max >= 1 && FreshRuns(es) && WellNamed(c)
    ensures Submits(es, c.runId)
            <==> exists more: seq<Event> :: Quiet(more) && Both(RunFrom(EMPTY, es + [Submit(c, false, t)] + more, max), c.runId)
  {
    var e := Submit(c, false, t);
    if Submits(es, c.runId) {
      var more := WayToBoth(es, c, t, max);
      RunJoin(es + [e], more, max);
      RunJoin(es, [e], max);
    } else {
      forall more: seq<Event> | Quiet(more) ensures !Both(RunFrom(EMPTY, es + [e] + more, max), c.runId) {
        FreshAppend(es, e, more);
        NeverBoth(es + [e] + more, max);
      }
    }
  }

  lemma FreshAppend(es: seq<Event>, e: Event, more: seq<Event>)
    requires FreshRuns(es) && Quiet(more) && e.Submit? && !Submits(es, e.c.runId)
    ensures FreshRuns(es + [e] + more)
  {
    var all := es + [e] + more;
    forall j | |es| < j < |all| ensures !all[j].Submit? {
      assert all[j] == more[j - |es| - 1];
    }
    assert forall i | 0 <= i < |es| :: all[i] == es[i];
  }

  lemma WayToBoth(es: seq<Event>, c: Candidate, t: Clock, max: nat) returns (more: seq<Event>)
    requires max >= 1 && FreshRuns(es) && WellNamed(c) && Submits(es, c.runId)
    ensures Quiet(more)
    ensures Both(RunFrom(RunFrom(RunFrom(EMPTY, es, max), [Submit(c, false, t)], max), more, max), c.runId)
  {
    var d := RunFrom(EMPTY, es, max);
    var e := Submit(c, false, t);
    RunConserves(es, max);
    NeverBoth(es, max);
    var d' := Step(d, e, max);
    var r := c.runId;
    assert [e][..0] == [] && RunFrom(d, [e], max) == d';
    var room := StagedRuns(d.store, c, t, max);
    RunsAppend(d.rejected, c);
    if !Staged(d.store, c, t, max).1 {
      KeepTwice(d.store.held, Alive(t));
      var held := FindRun(Swept(d.store, t).held, r).value;
      TakeHeld(d', r, held, t, max);
      more := [Compacted(Some(r), held.session, t)];
    } else {
      StagedIsFound(d.store, c, t, max);
      HeldAppend(room, Held(c, t.now));
      if r in CommittedRuns(d) {
        FailHeld(d', r, c, t, max);
        more := [ApplyFailed(r, t)];
      } else {
        TakeHeld(d', r, c, t, max);
        more := [Compacted(Some(r), c.session, t)];
      }
    }
    assert more[..0] == [] && RunFrom(d', more, max) == Step(d', more[0], max);
  }
}
