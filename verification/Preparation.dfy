/** Speculative preparation and the one fate of every cost it produces. */
module Preparation {
  // At most one task runs ahead of the host's own compaction, and the cost of whatever it produces
  // is accounted for exactly once.

  import opened Wrappers

  const MIN_TOKEN_THRESHOLD := 5000.0
  const MIN_LEAD := 8192.0
  const MAX_LEAD := 32000.0

  function Max(a: real, b: real): real {
    if a >= b then a else b
  }

  function Min(a: real, b: real): real {
    if a <= b then a else b
  }

  // ---------------------------------------------------------------- token windows

  function StartTokens(applyTokens: real): real {
    var lead := Min(MAX_LEAD, Max(MIN_LEAD, (applyTokens * 0.125).Floor as real));
    Max(MIN_TOKEN_THRESHOLD, applyTokens - lead)
  }

  datatype Window = Window(start: real, apply: real)

  /** An explicit start percentage below the apply gate is used as it is; otherwise the lead adapts. */
  function PreparationWindow(minPercent: real, prepare: Option<real>, window: real): Window {
    var apply := window * minPercent / 100.0;
    var explicit := prepare.Some? && 0.0 <= prepare.value < minPercent;
    Window(if explicit then Max(MIN_TOKEN_THRESHOLD, window * prepare.value / 100.0) else StartTokens(apply), apply)
  }

  function Ceil(x: real): int {
    -((-x).Floor)
  }

  datatype Pressure = Pressure(cleanup: bool, compaction: bool)

  /** Unknown usage or window is no pressure. */
  function ContextPressure(tokens: Option<real>, window: Option<real>, minPercent: real, prepare: Option<real>): Pressure {
    if tokens.None? || tokens.value < 0.0 || window.None? || window.value <= 0.0 then Pressure(false, false)
    else
      var w := PreparationWindow(minPercent, prepare, window.value);
      Pressure(tokens.value >= Ceil(w.start) as real, tokens.value >= Ceil(Max(MIN_TOKEN_THRESHOLD, w.apply)) as real)
  }

  lemma Scale(a: real, b: real, window: real)
    requires a <= b && window > 0.0
    ensures window * a / 100.0 <= window * b / 100.0
  {
    assert window * (b - a) >= 0.0;
  }

  /** The start of the window is never above the apply gate. */
  lemma WindowOrdered(minPercent: real, prepare: Option<real>, window: real)
    requires window > 0.0
    ensures var w := PreparationWindow(minPercent, prepare, window);
            MIN_TOKEN_THRESHOLD <= w.start <= Max(MIN_TOKEN_THRESHOLD, w.apply)
  {
    if prepare.Some? && 0.0 <= prepare.value < minPercent {
      Scale(prepare.value, minPercent, window);
    }
  }

  lemma CeilMonotone(a: real, b: real)
    requires a <= b
    ensures Ceil(a) <= Ceil(b)
  {
  }

  /** Pressure to compact is always pressure to clean up as well. */
  lemma CompactionImpliesCleanup(tokens: Option<real>, window: Option<real>, minPercent: real, prepare: Option<real>)
    ensures var p := ContextPressure(tokens, window, minPercent, prepare); p.compaction ==> p.cleanup
  {
    hide PreparationWindow, Ceil;
    if window.Some? && window.value > 0.0 {
      var w := PreparationWindow(minPercent, prepare, window.value);
      WindowOrdered(minPercent, prepare, window.value);
      CeilMonotone(w.start, Max(MIN_TOKEN_THRESHOLD, w.apply));
    }
  }

  // ---------------------------------------------------------------- tasks

  datatype Reason = Config | Session | TimeToLive | BranchChanged | Cancelled | Superseded | Stale

  /** A prepared summary; metrics says whether its run recorded a cost. */
  datatype Summary = Summary(runId: string, session: string, metrics: bool)

  /** Waiting for its microtask, inside the prepare call, returned without one, or settled. */
  datatype Phase = Waiting | Calling | Returned | Settled

  datatype Task = Task(session: string, origin: string, signature: nat, createdAt: int, readyAt: Option<int>,
                       pending: Option<Summary>, reason: Option<Reason>, aborted: bool, phase: Phase)

  /** The live session at a call; intact says whether an origin entry is still on the branch
      with no edit or compaction after it. */
  datatype Env = Env(enabled: bool, session: string, unresolved: bool, signature: nat, ttl: int, hasModel: bool,
                     tokens: Option<real>, window: Option<real>, minPercent: real, prepare: Option<real>,
                     lastId: Option<string>, intact: string -> bool, cooldown: int)

  datatype Handoff = Handoff(runId: string, task: nat)

  datatype Attempt = Attempt(session: string, at: int)

  /** One recorded discard. */
  datatype Discard = Discard(task: nat, reason: Reason)

  /** All tasks ever started, the one in force, the last handoff, the last attempt, the log of
      discards, and every handoff made with those not reported back. */
  datatype Prep = Prep(tasks: seq<Task>, current: Option<nat>, handedOff: Option<Handoff>, lastAttempt: Option<Attempt>,
                       log: seq<Discard>, handed: seq<nat>, out: set<nat>)

  const EMPTY := Prep([], None, None, None, [], [], {})

  predicate Grounded(s: Prep) {
    (s.current.Some? ==> s.current.value < |s.tasks|) && (s.handedOff.Some? ==> s.handedOff.value.task < |s.tasks|)
  }

  /** The cost of a task, if it produced a summary with metrics, is written once per call. */
  function WriteDiscard(s: Prep, id: nat, reason: Reason): Prep
    requires id < |s.tasks|
  {
    var p := s.tasks[id].pending;
    if p.Some? && p.value.metrics then s.(log := s.log + [Discard(id, reason)]) else s
  }

  function CancelStep(s: Prep, reason: Reason): Prep
    requires Grounded(s)
  {
    if s.current.None? then s
    else
      var id := s.current.value;
      WriteDiscard(s.(current := None, tasks := s.tasks[id := s.tasks[id].(reason := Some(reason), aborted := true)]), id, reason)
  }

  function Invalidation(t: Task, env: Env, now: int): Option<Reason> {
    if !env.enabled then Some(Config)
    else if t.session != env.session then Some(Session)
    else if t.signature != env.signature then Some(Config)
    else if now - (if t.readyAt.Some? then t.readyAt.value else t.createdAt) > env.ttl then Some(TimeToLive)
    else if env.intact(t.origin) then None else Some(BranchChanged)
  }

  /** May a new task start: none in force, the gates open, and the tokens inside the window. */
  predicate Admits(s: Prep, env: Env, now: int) {
    && s.current.None? && env.enabled && env.hasModel && !env.unresolved
    && !(s.lastAttempt.Some? && s.lastAttempt.value.session == env.session && now - s.lastAttempt.value.at < env.cooldown)
    && env.tokens.Some? && env.window.Some? && env.window.value > 0.0
    && (var w := PreparationWindow(env.minPercent, env.prepare, env.window.value); w.start <= env.tokens.value < w.apply)
    && env.lastId.Some? && env.lastId.value != ""
  }

  function ObserveStep(s: Prep, env: Env, now: int): Prep
    requires Grounded(s)
  {
    var invalid := if s.current.Some? then Invalidation(s.tasks[s.current.value], env, now) else None;
    var s1 := if invalid.Some? then CancelStep(s, invalid.value) else s;
    if !Admits(s1, env, now) then s1
    else s1.(tasks := s1.tasks + [Task(env.session, env.lastId.value, env.signature, now, None, None, None, false, Waiting)],
             current := Some(|s1.tasks|), lastAttempt := Some(Attempt(env.session, now)))
  }

  function SetPhase(s: Prep, id: nat, phase: Phase): Prep
    requires id < |s.tasks|
  {
    s.(tasks := s.tasks[id := s.tasks[id].(phase := phase)])
  }

  /** The task's microtask: call prepare, or return when it was superseded meanwhile. */
  function BeginStep(s: Prep, id: nat, env: Env, now: int): Prep
    requires Grounded(s) && id < |s.tasks|
  {
    if s.current != Some(id) || s.tasks[id].aborted then SetPhase(s, id, Returned)
    else if Invalidation(s.tasks[id], env, now).Some? then SetPhase(CancelStep(s, Config), id, Returned)
    else SetPhase(s, id, Calling)
  }

  /** The task's completion with what prepare returned. */
  function FinishStep(s: Prep, id: nat, result: Option<Summary>, now: int): Prep
    requires Grounded(s) && id < |s.tasks|
  {
    var t := s.tasks[id];
    var t1 := if result.Some? then t.(pending := result, readyAt := Some(now)) else t;
    var s1 := s.(tasks := s.tasks[id := t1.(phase := Settled)]);
    if s.current != Some(id) || t.aborted then
      WriteDiscard(s1, id, if t.reason.Some? then t.reason.value else Superseded)
    else if result.None? then CancelStep(s1, Cancelled) else s1
  }

  function FailStep(s: Prep, id: nat): Prep
    requires Grounded(s) && id < |s.tasks|
  {
    var s1 := SetPhase(s, id, Settled);
    if s.current == Some(id) then CancelStep(s1, Cancelled) else s1
  }

  /** Hand the ready candidate to the host; `fits` is the last gate's answer. */
  function TakeStep(s: Prep, env: Env, now: int, matches: bool, fits: bool): (Prep, Option<Summary>)
    requires Grounded(s)
  {
    if s.current.None? then (s, None)
    else
      var id := s.current.value;
      var t := s.tasks[id];
      var invalid := Invalidation(t, env, now);
      if t.pending.None? then (CancelStep(s, Cancelled), None)
      else if invalid.Some? then (CancelStep(s, invalid.value), None)
      else if !matches then (CancelStep(s, BranchChanged), None)
      else
        var s1 := s.(current := None, handedOff := None);
        if !fits then (WriteDiscard(s1, id, Stale), None)
        else (s1.(handedOff := Some(Handoff(t.pending.value.runId, id)), handed := s1.handed + [id], out := s1.out + {id}),
              Some(t.pending.value))
  }

  function UnusedStep(s: Prep, runId: string, reason: Reason): Prep
    requires Grounded(s)
  {
    if s.handedOff.None? || s.handedOff.value.runId != runId then s
    else
      var id := s.handedOff.value.task;
      WriteDiscard(s.(handedOff := None, out := s.out - {id}), id, reason)
  }

  function NoteCompactionStep(s: Prep, session: string, now: int): Prep
    requires Grounded(s)
  {
    var s1 := if s.current.Some? && s.tasks[s.current.value].session == session then CancelStep(s, Superseded) else s;
    s1.(lastAttempt := Some(Attempt(session, now)))
  }

  // ---------------------------------------------------------------- one fate for every cost

  function Count(log: seq<Discard>, id: nat): nat {
    if log == [] then 0 else Count(log[..|log| - 1], id) + if log[|log| - 1].task == id then 1 else 0
  }

  lemma CountAppend(log: seq<Discard>, d: Discard, id: nat)
    ensures Count(log + [d], id) == Count(log, id) + if d.task == id then 1 else 0
  {
    assert (log + [d])[..|log + [d]| - 1] == log;
  }

  predicate Costs(t: Task) {
    t.pending.Some? && t.pending.value.metrics
  }

  /** A cost is held, out with the host, or discarded: exactly one of these, and discarded once. */
  predicate OneFate(s: Prep, id: nat)
    requires id < |s.tasks|
  {
    && (Costs(s.tasks[id]) ==> Count(s.log, id) + (if s.current == Some(id) then 1 else 0) + (if id in s.out then 1 else 0) == 1)
    && (!Costs(s.tasks[id]) ==> Count(s.log, id) == 0)
  }

  /** What holds of a task in every reachable state. */
  predicate TaskOk(s: Prep, id: nat)
    requires id < |s.tasks|
  {
    var t := s.tasks[id];
    && OneFate(s, id)
    && (t.pending.Some? ==> t.phase.Settled?)
    && (t.aborted ==> s.current != Some(id) && id !in s.out && t.reason.Some?)
    && (s.current == Some(id) ==> id !in s.out && id !in s.handed)
    && (id in s.out ==> t.pending.Some? && id in s.handed)
    && (t.phase.Settled? && t.pending.None? ==> s.current != Some(id))
    && (!t.phase.Settled? ==> id !in s.handed)
    && (t.phase.Returned? ==> s.current != Some(id))
  }

  predicate Invariant(s: Prep) {
    && Grounded(s)
    && (forall id | 0 <= id < |s.tasks| :: TaskOk(s, id))
    && (forall d | d in s.log :: d.task < |s.tasks|)
    && (forall id | id in s.out :: id < |s.tasks|)
    && (forall id | id in s.handed :: id < |s.tasks|)
    && (s.handedOff.Some? ==> s.handedOff.value.task in s.out)
    && (forall i, j | 0 <= i < j < |s.handed| :: s.handed[i] != s.handed[j])
  }

  /** Writing one discard: every other task's count is unchanged. */
  lemma WriteCounts(s: Prep, id: nat, reason: Reason, x: nat)
    requires id < |s.tasks|
    ensures Count(WriteDiscard(s, id, reason).log, x) == Count(s.log, x) + if x == id && Costs(s.tasks[id]) then 1 else 0
  {
    CountAppend(s.log, Discard(id, reason), x);
  }

  lemma CancelOk(s: Prep, reason: Reason)
    requires Invariant(s)
    ensures Invariant(CancelStep(s, reason)) && CancelStep(s, reason).current.None?
    ensures |CancelStep(s, reason).tasks| == |s.tasks|
  {
    if s.current.Some? {
      var s' := CancelStep(s, reason);
      var id := s.current.value;
      var mid := s.(current := None, tasks := s.tasks[id := s.tasks[id].(reason := Some(reason), aborted := true)]);
      assert TaskOk(s, id);
      forall x | 0 <= x < |s'.tasks| ensures TaskOk(s', x) {
        WriteCounts(mid, id, reason, x);
        assert TaskOk(s, x);
      }
    }
  }

  lemma {:induction false} NoCount(log: seq<Discard>, id: nat)
    requires forall d | d in log :: d.task != id
    ensures Count(log, id) == 0
  {
    if log != [] {
      NoCount(log[..|log| - 1], id);
    }
  }

  lemma ObserveOk(s: Prep, env: Env, now: int)
    requires Invariant(s)
    ensures Invariant(ObserveStep(s, env, now))
  {
    var invalid := if s.current.Some? then Invalidation(s.tasks[s.current.value], env, now) else None;
    if invalid.Some? { CancelOk(s, invalid.value); }
    var s1 := if invalid.Some? then CancelStep(s, invalid.value) else s;
    if Admits(s1, env, now) {
      StartOk(s1, env, now);
    }
  }

  lemma StartOk(s: Prep, env: Env, now: int)
    requires Invariant(s) && s.current.None? && env.lastId.Some?
    ensures Invariant(s.(tasks := s.tasks + [Task(env.session, env.lastId.value, env.signature, now, None, None, None, false, Waiting)],
                         current := Some(|s.tasks|), lastAttempt := Some(Attempt(env.session, now))))
  {
    var s' := s.(tasks := s.tasks + [Task(env.session, env.lastId.value, env.signature, now, None, None, None, false, Waiting)],
                 current := Some(|s.tasks|), lastAttempt := Some(Attempt(env.session, now)));
    NoCount(s.log, |s.tasks|);
    forall x | 0 <= x < |s'.tasks| ensures TaskOk(s', x) {
      if x < |s.tasks| { assert TaskOk(s, x); }
    }
  }

  lemma PhaseOk(s: Prep, id: nat, phase: Phase)
    requires Invariant(s) && id < |s.tasks| && !s.tasks[id].phase.Settled?
    requires phase.Calling? || s.current != Some(id)
    ensures Invariant(SetPhase(s, id, phase))
  {
    var s' := SetPhase(s, id, phase);
    forall x | 0 <= x < |s'.tasks| ensures TaskOk(s', x) {
      assert TaskOk(s, x);
    }
  }

  lemma BeginOk(s: Prep, id: nat, env: Env, now: int)
    requires Invariant(s) && id < |s.tasks| && s.tasks[id].phase.Waiting?
    ensures Invariant(BeginStep(s, id, env, now))
  {
    assert TaskOk(s, id);
    if s.current != Some(id) || s.tasks[id].aborted {
      PhaseOk(s, id, Returned);
    } else if Invalidation(s.tasks[id], env, now).Some? {
      CancelOk(s, Config);
      PhaseOk(CancelStep(s, Config), id, Returned);
    } else {
      PhaseOk(s, id, Calling);
    }
  }

  /** A completion: from inside the call with any result, or after an early return with none. */
  predicate MayFinish(s: Prep, id: nat, result: Option<Summary>) {
    id < |s.tasks| && (s.tasks[id].phase.Calling? || (s.tasks[id].phase.Returned? && result.None?))
  }

  lemma FinishOk(s: Prep, id: nat, result: Option<Summary>, now: int)
    requires Invariant(s) && MayFinish(s, id, result)
    ensures Invariant(FinishStep(s, id, result, now))
  {
    var t := s.tasks[id];
    assert TaskOk(s, id);
    var t1 := if result.Some? then t.(pending := result, readyAt := Some(now)) else t;
    var s1 := s.(tasks := s.tasks[id := t1.(phase := Settled)]);
    if s.current != Some(id) || t.aborted {
      LateFinishOk(s, s1, id, if t.reason.Some? then t.reason.value else Superseded);
    } else if result.None? {
      var s2 := CancelStep(s1, Cancelled);
      NoneFinishOk(s, id);
    } else {
      forall x | 0 <= x < |s1.tasks| ensures TaskOk(s1, x) {
        assert TaskOk(s, x);
      }
    }
  }

  /** A completion after the task left: its cost, if any, is written now. */
  lemma LateFinishOk(s: Prep, s1: Prep, id: nat, reason: Reason)
    requires Invariant(s) && id < |s.tasks| && !s.tasks[id].phase.Settled? && s.current != Some(id)
    requires |s1.tasks| == |s.tasks| && s1.tasks[id].phase.Settled? && s1 == s.(tasks := s.tasks[id := s1.tasks[id]])
    requires s1.tasks[id].aborted == s.tasks[id].aborted && s1.tasks[id].reason == s.tasks[id].reason
    ensures Invariant(WriteDiscard(s1, id, reason))
  {
    var s' := WriteDiscard(s1, id, reason);
    forall x | 0 <= x < |s'.tasks| ensures TaskOk(s', x) {
      assert TaskOk(s, x);
      WriteCounts(s1, id, reason, x);
    }
  }

  /** A settled task without a summary leaves nothing behind. */
  lemma NoneFinishOk(s: Prep, id: nat)
    requires Invariant(s) && id < |s.tasks| && !s.tasks[id].phase.Settled? && s.current == Some(id)
    ensures Invariant(CancelStep(SetPhase(s, id, Settled), Cancelled))
  {
    assert TaskOk(s, id);
    var s1 := SetPhase(s, id, Settled);
    var mid := s1.(current := None, tasks := s1.tasks[id := s1.tasks[id].(reason := Some(Cancelled), aborted := true)]);
    var s' := CancelStep(s1, Cancelled);
    assert s' == mid;
    forall x | 0 <= x < |s'.tasks| ensures TaskOk(s', x) {
      assert TaskOk(s, x);
    }
  }

  lemma FailOk(s: Prep, id: nat)
    requires Invariant(s) && id < |s.tasks| && !s.tasks[id].phase.Settled?
    ensures Invariant(FailStep(s, id))
  {
    if s.current == Some(id) {
      NoneFinishOk(s, id);
    } else {
      PhaseOk(s, id, Settled);
    }
  }

  lemma TakeOk(s: Prep, env: Env, now: int, matches: bool, fits: bool)
    requires Invariant(s)
    ensures Invariant(TakeStep(s, env, now, matches, fits).0)
  {
    if s.current.Some? {
      var id := s.current.value;
      var t := s.tasks[id];
      var invalid := Invalidation(t, env, now);
      assert TaskOk(s, id);
      if t.pending.None? {
        CancelOk(s, Cancelled);
      } else if invalid.Some? {
        CancelOk(s, invalid.value);
      } else if !matches {
        CancelOk(s, BranchChanged);
      } else {
        LeaveOk(s, id, fits);
      }
    }
  }

  lemma LeaveOk(s: Prep, id: nat, fits: bool)
    requires Invariant(s) && s.current == Some(id) && s.tasks[id].pending.Some?
    ensures var s1 := s.(current := None, handedOff := None);
            Invariant(if !fits then WriteDiscard(s1, id, Stale)
                      else s1.(handedOff := Some(Handoff(s.tasks[id].pending.value.runId, id)), handed := s1.handed + [id], out := s1.out + {id}))
  {
    var s1 := s.(current := None, handedOff := None);
    var s' := if !fits then WriteDiscard(s1, id, Stale)
              else s1.(handedOff := Some(Handoff(s.tasks[id].pending.value.runId, id)), handed := s1.handed + [id], out := s1.out + {id});
    assert TaskOk(s, id);
    forall x | 0 <= x < |s'.tasks| ensures TaskOk(s', x) {
      assert TaskOk(s, x);
      WriteCounts(s1, id, Stale, x);
    }
  }

  lemma UnusedOk(s: Prep, runId: string, reason: Reason)
    requires Invariant(s)
    ensures Invariant(UnusedStep(s, runId, reason))
  {
    if s.handedOff.Some? && s.handedOff.value.runId == runId {
      var id := s.handedOff.value.task;
      var s1 := s.(handedOff := None, out := s.out - {id});
      var s' := UnusedStep(s, runId, reason);
      assert TaskOk(s, id);
      forall x | 0 <= x < |s'.tasks| ensures TaskOk(s', x) {
        assert TaskOk(s, x);
        WriteCounts(s1, id, reason, x);
      }
    }
  }

  lemma NoteOk(s: Prep, session: string, now: int)
    requires Invariant(s)
    ensures Invariant(NoteCompactionStep(s, session, now))
  {
    CancelOk(s, Superseded);
    var s1 := if s.current.Some? && s.tasks[s.current.value].session == session then CancelStep(s, Superseded) else s;
    var s' := NoteCompactionStep(s, session, now);
    forall x | 0 <= x < |s'.tasks| ensures TaskOk(s', x) {
      assert TaskOk(s1, x);
    }
  }

  // ---------------------------------------------------------------- the controller as the program keeps it

  datatype Status = Idle | Preparing | Ready

  class Background {
    var tasks: seq<Task>
    var current: Option<nat>
    var handedOff: Option<Handoff>
    var lastAttempt: Option<Attempt>
    var log: seq<Discard>
    ghost var handed: seq<nat>
    ghost var out: set<nat>

    ghost function View(): Prep
      reads this
    {
      Prep(tasks, current, handedOff, lastAttempt, log, handed, out)
    }

    ghost predicate Valid()
      reads this
    {
      Invariant(View())
    }

    constructor ()
      ensures Valid() && View() == EMPTY
    {
      tasks, current, handedOff, lastAttempt, log, handed, out := [], None, None, None, [], [], {};
    }

    method RecordDiscard(id: nat, reason: Reason)
      requires id < |tasks|
      modifies this`log
      ensures View() == WriteDiscard(old(View()), id, reason)
    {
      var pending := tasks[id].pending;
      if pending.Some? && pending.value.metrics { log := log + [Discard(id, reason)]; }
    }

    method Cancel(reason: Reason)
      requires Grounded(View())
      modifies this
      ensures View() == CancelStep(old(View()), reason)
      ensures Invariant(old(View())) ==> Valid()
    {
      if Invariant(View()) { CancelOk(View(), reason); }
      var was := current;
      current := None;
      if was.None? { return; }
      tasks := tasks[was.value := tasks[was.value].(reason := Some(reason))];
      RecordDiscard(was.value, reason);
      tasks := tasks[was.value := tasks[was.value].(aborted := true)];
    }

    method Observe(env: Env, now: int)
      requires Valid()
      modifies this
      ensures Valid() && View() == ObserveStep(old(View()), env, now)
    {
      ObserveOk(View(), env, now);
      if current.Some? {
        var reason := Invalidation(tasks[current.value], env, now);
        if reason.Some? { Cancel(reason.value); }
      }
      if current.Some? || !env.enabled || !env.hasModel { return; }
      if env.unresolved
        || (lastAttempt.Some? && lastAttempt.value.session == env.session && now - lastAttempt.value.at < env.cooldown) { return; }
      if env.tokens.None? || env.window.None? || env.window.value <= 0.0 { return; }
      var w := PreparationWindow(env.minPercent, env.prepare, env.window.value);
      if env.tokens.value < w.start || env.tokens.value >= w.apply { return; }
      if env.lastId.None? || env.lastId.value == "" { return; }
      tasks := tasks + [Task(env.session, env.lastId.value, env.signature, now, None, None, None, false, Waiting)];
      current := Some(|tasks| - 1);
      lastAttempt := Some(Attempt(env.session, now));
    }

    method Begin(id: nat, env: Env, now: int) returns (called: bool)
      requires Valid() && id < |tasks| && tasks[id].phase.Waiting?
      modifies this
      ensures Valid() && View() == BeginStep(old(View()), id, env, now)
      ensures called <==> tasks[id].phase.Calling?
    {
      BeginOk(View(), id, env, now);
      if current != Some(id) || tasks[id].aborted {
        tasks := tasks[id := tasks[id].(phase := Returned)];
        return false;
      }
      if Invalidation(tasks[id], env, now).Some? {
        Cancel(Config);
        tasks := tasks[id := tasks[id].(phase := Returned)];
        return false;
      }
      tasks := tasks[id := tasks[id].(phase := Calling)];
      called := true;
    }

    method Finish(id: nat, result: Option<Summary>, now: int)
      requires Valid() && MayFinish(View(), id, result)
      modifies this
      ensures Valid() && View() == FinishStep(old(View()), id, result, now)
    {
      FinishOk(View(), id, result, now);
      ghost var before := tasks;
      tasks := tasks[id := tasks[id].(phase := Settled)];
      if result.Some? { tasks := tasks[id := tasks[id].(pending := result, readyAt := Some(now))]; }
      assert tasks == before[id := tasks[id]];
      if current != Some(id) || tasks[id].aborted {
        RecordDiscard(id, if tasks[id].reason.Some? then tasks[id].reason.value else Superseded);
        return;
      }
      if result.None? { Cancel(Cancelled); }
    }

    method Fail(id: nat)
      requires Valid() && id < |tasks| && !tasks[id].phase.Settled?
      modifies this
      ensures Valid() && View() == FailStep(old(View()), id)
    {
      FailOk(View(), id);
      tasks := tasks[id := tasks[id].(phase := Settled)];
      if current == Some(id) { Cancel(Cancelled); }
    }

    method Take(env: Env, now: int, matches: bool, fits: bool) returns (r: Option<Summary>)
      requires Valid()
      modifies this
      ensures Valid() && (View(), r) == TakeStep(old(View()), env, now, matches, fits)
    {
      TakeOk(View(), env, now, matches, fits);
      if current.None? { return None; }
      var id := current.value;
      var pending := tasks[id].pending;
      if pending.None? { Cancel(Cancelled); return None; }
      var invalid := Invalidation(tasks[id], env, now);
      if invalid.Some? { Cancel(invalid.value); return None; }
      if !matches { Cancel(BranchChanged); return None; }
      current, handedOff := None, None;
      if !fits { RecordDiscard(id, Stale); return None; }
      handedOff := Some(Handoff(pending.value.runId, id));
      handed, out := handed + [id], out + {id};
      r := pending;
    }

    method NoteHandoffUnused(runId: string, reason: Reason)
      requires Valid()
      modifies this
      ensures Valid() && View() == UnusedStep(old(View()), runId, reason)
    {
      UnusedOk(View(), runId, reason);
      if handedOff.None? || handedOff.value.runId != runId { return; }
      var id := handedOff.value.task;
      handedOff, out := None, out - {id};
      RecordDiscard(id, reason);
    }

    method NoteCompaction(session: string, now: int)
      requires Valid()
      modifies this
      ensures Valid() && View() == NoteCompactionStep(old(View()), session, now)
    {
      NoteOk(View(), session, now);
      if current.Some? && tasks[current.value].session == session { Cancel(Superseded); }
      lastAttempt := Some(Attempt(session, now));
    }

    method StatusOf(session: string) returns (status: Status)
      requires Valid()
      ensures status.Idle? <==> current.None? || tasks[current.value].session != session
      ensures status.Ready? ==> tasks[current.value].phase.Settled?
      ensures status.Preparing? ==> !tasks[current.value].phase.Settled?
    {
      if current.None? || tasks[current.value].session != session { return Idle; }
      assert TaskOk(View(), current.value);
      status := if tasks[current.value].pending.Some? then Ready else Preparing;
    }
  }

  // ---------------------------------------------------------------- every interleaving

  datatype Event =
    | Observe(env: Env, now: int)
    | Begin(id: nat, env: Env, now: int)
    | Finish(id: nat, result: Option<Summary>, now: int)
    | Fail(id: nat)
    | Cancel(reason: Reason)
    | Take(env: Env, now: int, matches: bool, fits: bool)
    | Unused(runId: string, reason: Reason)
    | NoteCompaction(session: string, now: int)

  /** Completions come only from tasks that are at that point; other events come at any time. */
  predicate Possible(s: Prep, e: Event) {
    match e
    case Begin(id, _, _) => id < |s.tasks| && s.tasks[id].phase.Waiting?
    case Finish(id, result, _) => MayFinish(s, id, result)
    case Fail(id) => id < |s.tasks| && !s.tasks[id].phase.Settled?
    case _ => true
  }

  function Step(s: Prep, e: Event): Prep
    requires Grounded(s) && Possible(s, e)
  {
    match e
    case Observe(env, now) => ObserveStep(s, env, now)
    case Begin(id, env, now) => BeginStep(s, id, env, now)
    case Finish(id, result, now) => FinishStep(s, id, result, now)
    case Fail(id) => FailStep(s, id)
    case Cancel(reason) => CancelStep(s, reason)
    case Take(env, now, matches, fits) => TakeStep(s, env, now, matches, fits).0
    case Unused(runId, reason) => UnusedStep(s, runId, reason)
    case NoteCompaction(session, now) => NoteCompactionStep(s, session, now)
  }

  lemma StepOk(s: Prep, e: Event)
    requires Invariant(s) && Possible(s, e)
    ensures Invariant(Step(s, e))
  {
    match e
    case Observe(env, now) => ObserveOk(s, env, now);
    case Begin(id, env, now) => BeginOk(s, id, env, now);
    case Finish(id, result, now) => FinishOk(s, id, result, now);
    case Fail(id) => FailOk(s, id);
    case Cancel(reason) => CancelOk(s, reason);
    case Take(env, now, matches, fits) => TakeOk(s, env, now, matches, fits);
    case Unused(runId, reason) => UnusedOk(s, runId, reason);
    case NoteCompaction(session, now) => NoteOk(s, session, now);
  }

  /** The states of a run: each is the start or one possible step after the one before. */
  predicate IsRun(states: seq<Prep>, es: seq<Event>) {
    && |states| == |es| + 1 && states[0] == EMPTY
    && forall i | 0 <= i < |es| :: Grounded(states[i]) && Possible(states[i], es[i]) && states[i + 1] == Step(states[i], es[i])
  }

  lemma {:induction false} RunInvariant(states: seq<Prep>, es: seq<Event>, n: nat)
    requires IsRun(states, es) && n < |states|
    ensures Invariant(states[n])
  {
    if n > 0 {
      RunInvariant(states, es, n - 1);
      StepOk(states[n - 1], es[n - 1]);
      assert states[n - 1 + 1] == Step(states[n - 1], es[n - 1]);
    }
  }

  /** Over every interleaving, a preparation that produced a summary with metrics is in exactly
      one of three states: still held, out with the host, or recorded as discarded; it is never
      discarded twice, handed off twice, and its cost is never lost. */
  lemma CostHasOneFate(states: seq<Prep>, es: seq<Event>, n: nat, id: nat)
    requires IsRun(states, es) && n < |states| && id < |states[n].tasks| && Costs(states[n].tasks[id])
    ensures var s := states[n];
            && Count(s.log, id) <= 1
            && (Count(s.log, id) == 1 <==> s.current != Some(id) && id !in s.out)
            && !(s.current == Some(id) && id in s.out)
            && (forall i, j | 0 <= i < j < |s.handed| :: s.handed[i] != s.handed[j])
  {
    RunInvariant(states, es, n);
    assert TaskOk(states[n], id);
  }

  /** Once nothing is in force or in flight, every cost was handed off for good or discarded. */
  lemma QuiescentAccounted(states: seq<Prep>, es: seq<Event>, n: nat, id: nat)
    requires IsRun(states, es) && n < |states| && id < |states[n].tasks| && states[n].current.None?
    ensures var s := states[n];
            && (s.tasks[id].pending.Some? ==> s.tasks[id].phase.Settled?)
            && (Costs(s.tasks[id]) ==> (id in s.out) != (Count(s.log, id) == 1))
            && (!Costs(s.tasks[id]) ==> Count(s.log, id) == 0)
  {
    RunInvariant(states, es, n);
    assert TaskOk(states[n], id);
  }
}
