/** The pivot protocol: queued by a tool or applied at once for a person, over asynchronous navigation. */
module Pivot {
  // A pivot asked for by a tool is queued until its batch has settled and is then applied by a
  // command it sends itself. Every handler may run while a navigation is in flight.

  import opened Wrappers

  /** One pivot; the id stands for its random nonce. A tool's pivot has its call, a person's has none. */
  datatype Operation = Operation(id: nat, session: string, origin: string, target: string, call: Option<string>,
                                 message: bool, readyLeaf: Option<string>, dispatched: bool)

  /** What the handlers read from the host at an event. */
  datatype Env = Env(session: string, leaf: Option<string>, pending: bool, navigation: bool, pivots: bool, tools: bool,
                     active: bool, entries: set<string>, aborted: set<nat>)

  /** The caller's part of a pivot: its resolved target, and whether its texts and the other
      controllers allow it. */
  datatype Request = Request(target: Option<string>, message: bool, textsOk: bool, blocked: bool)

  /** A call of the host's tree navigation: the operation and the session leaf at that moment. */
  datatype Call = Call(op: Operation, leaf: Option<string>)

  /** A tool batch that completed uncontested for an operation, and the leaf it left. */
  datatype Batch = Batch(id: nat, leaf: Option<string>)

  datatype State = State(queued: Option<Operation>, applying: Option<Operation>, timer: Option<nat>, next: nat,
                         calls: seq<Call>, inFlight: set<nat>, batches: seq<Batch>, edited: seq<nat>, continued: seq<nat>)

  const EMPTY := State(None, None, None, 0, [], {}, [], [], [])

  function Cancel(s: State): State {
    s.(timer := None, queued := None)
  }

  predicate Allowed(op: Operation, env: Env) {
    op.call.None? || (env.tools && env.active)
  }

  /** The leaf the session must still be at. */
  function ExpectedLeaf(op: Operation): string {
    if op.readyLeaf.Some? then op.readyLeaf.value else op.origin
  }

  predicate ValidNow(op: Operation, env: Env) {
    && op.id !in env.aborted && op.session == env.session && env.navigation && env.pivots && !env.pending
    && env.leaf == Some(ExpectedLeaf(op)) && op.target in env.entries && Allowed(op, env)
  }

  function Prepare(s: State, r: Request, env: Env, call: Option<string>): Option<Operation> {
    if !env.navigation || !env.pivots || s.queued.Some? || s.applying.Some? || r.blocked || env.pending || !r.textsOk then None
    else if r.target.None? || r.target.value == "" || env.leaf.None? || env.leaf.value == "" || env.leaf == r.target then None
    else Some(Operation(s.next, env.session, env.leaf.value, r.target.value, call, r.message, None, false))
  }

  function ToolPivot(s: State, r: Request, env: Env, call: string, aborted: bool): State {
    if aborted || !env.tools || !env.active then s
    else
      var op := Prepare(s, r, env, Some(call));
      if op.None? then s else s.(queued := op, next := s.next + 1)
  }

  /** Start navigating, unless something changed since the operation was ready. */
  function Apply(s: State, op: Operation, env: Env): State {
    if !ValidNow(op, env) then s
    else s.(applying := Some(op), calls := s.calls + [Call(op, env.leaf)], inFlight := s.inFlight + {op.id})
  }

  function HumanPivot(s: State, r: Request, env: Env): State {
    var op := Prepare(s, r, env, None);
    if op.None? then s else Apply(s.(next := s.next + 1), op.value, env)
  }

  /** A finished turn: its outcome, whether anything else was added or is pending, and the calls
      that succeeded in it. */
  datatype Turn = Turn(completed: bool, entries: bool, pending: bool, succeeded: set<string>)

  function TurnEnd(s: State, t: Turn, env: Env): State {
    if s.queued.None? then s
    else
      var op := s.queued.value;
      if !t.completed || op.id in env.aborted || t.entries || t.pending || op.call.None? || op.call.value !in t.succeeded
      then Cancel(s)
      else
        var ready := op.(readyLeaf := env.leaf);
        var s1 := s.(queued := Some(ready), batches := s.batches + [Batch(op.id, env.leaf)]);
        if ValidNow(ready, env) then s1 else Cancel(s1)
  }

  function Settled(s: State): State {
    if s.queued.None? || s.queued.value.readyLeaf.None? || s.queued.value.readyLeaf.value == "" || s.queued.value.dispatched
       || s.timer.Some?
    then s else s.(timer := Some(s.queued.value.id))
  }

  /** The zero-delay timer sends the command that applies the pivot; sent says the send did not throw. */
  function TimerFires(s: State, idle: bool, env: Env, sent: bool): State {
    if s.timer.None? then s
    else
      var s1 := s.(timer := None);
      if s.queued.None? || s.queued.value.id != s.timer.value then s1
      else if !idle || !ValidNow(s.queued.value, env) || !sent then Cancel(s1)
      else s1.(queued := Some(s.queued.value.(dispatched := true)))
  }

  function Command(s: State, nonce: nat, env: Env): State {
    if s.queued.None? || s.queued.value.id != nonce || !s.queued.value.dispatched then s
    else Apply(s.(queued := None), s.queued.value, env)
  }

  /** A navigation call came back. Only the operation still being applied, in its own session,
      goes on to its next message. */
  function Navigated(s: State, op: Operation, cancelled: bool, session: string): State {
    var done := s.(inFlight := s.inFlight - {op.id});
    var mine := s.applying.Some? && s.applying.value.id == op.id;
    var s1 := if mine then done.(applying := None) else done;
    var s2 := if !cancelled && session == op.session then s1.(edited := s1.edited + [op.id]) else s1;
    if cancelled || !mine || session != op.session || !op.message then s2 else s2.(continued := s2.continued + [op.id])
  }

  /** The host is about to navigate: ours, or someone else's, which takes priority. The answer
      says whether the host is told to cancel. */
  function BeforeTree(s: State, target: string, env: Env): (State, bool) {
    if s.applying.None? || s.applying.value.session != env.session || s.applying.value.target != target then (Cancel(s), false)
    else (s, s.applying.value.id in env.aborted || !env.navigation || !env.pivots)
  }

  /** The nonce of an input that is an apply command, if it is one. */
  function Input(s: State, nonce: Option<nat>): State {
    if s.queued.Some? && nonce != Some(s.queued.value.id) then Cancel(s) else s
  }

  function Refresh(s: State, env: Env): State {
    if s.queued.Some? && (!env.navigation || !env.pivots || !env.tools || !env.active) then Cancel(s) else s
  }

  function Reset(s: State): State {
    Cancel(s).(applying := None)
  }

  predicate BlocksCompaction(s: State, session: string) {
    || (s.queued.Some? && s.queued.value.session == session)
    || (s.applying.Some? && s.applying.value.session == session)
  }

  // ---------------------------------------------------------------- every interleaving

  datatype Event =
    | ToolPivotEvent(r: Request, env: Env, call: string, aborted: bool)
    | HumanPivotEvent(r: Request, env: Env)
    | TurnEndEvent(t: Turn, env: Env)
    | SettledEvent
    | TimerEvent(idle: bool, env: Env, sent: bool)
    | CommandEvent(nonce: nat, env: Env)
    | NavigatedEvent(k: nat, cancelled: bool, session: string)
    | BeforeTreeEvent(target: string, env: Env)
    | InputEvent(typed: Option<nat>)
    | RefreshEvent(env: Env)
    | ResetEvent

  function Step(s: State, e: Event): State {
    match e
    case ToolPivotEvent(r, env, call, aborted) => ToolPivot(s, r, env, call, aborted)
    case HumanPivotEvent(r, env) => HumanPivot(s, r, env)
    case TurnEndEvent(t, env) => TurnEnd(s, t, env)
    case SettledEvent => Settled(s)
    case TimerEvent(idle, env, sent) => TimerFires(s, idle, env, sent)
    case CommandEvent(nonce, env) => Command(s, nonce, env)
    case NavigatedEvent(k, cancelled, session) =>
      if k < |s.calls| && s.calls[k].op.id in s.inFlight then Navigated(s, s.calls[k].op, cancelled, session) else s
    case BeforeTreeEvent(target, env) => BeforeTree(s, target, env).0
    case InputEvent(typed) => Input(s, typed)
    case RefreshEvent(env) => Refresh(s, env)
    case ResetEvent => Reset(s)
  }

  function Run(es: seq<Event>): State {
    if es == [] then EMPTY else Step(Run(es[..|es| - 1]), es[|es| - 1])
  }

  // ---------------------------------------------------------------- the invariant

  predicate Called(s: State, id: nat) {
    exists k :: 0 <= k < |s.calls| && s.calls[k].op.id == id
  }

  /** The session was at the leaf its batch left, for a tool; at the origin, for a person. */
  predicate CallOk(s: State, c: Call) {
    && c.op.id < s.next && c.leaf == Some(ExpectedLeaf(c.op))
    && (c.op.call.Some? ==> c.op.readyLeaf.Some? && Batch(c.op.id, c.leaf) in s.batches)
    && (c.op.call.None? ==> c.leaf == Some(c.op.origin))
  }

  predicate QueuedOk(s: State, op: Operation) {
    && op.id < s.next && op.call.Some? && !Called(s, op.id)
    && (op.readyLeaf.Some? ==> Batch(op.id, op.readyLeaf) in s.batches)
    && (op.dispatched ==> op.readyLeaf.Some?)
  }

  predicate Distinct(q: seq<nat>) {
    forall i, j | 0 <= i < j < |q| :: q[i] != q[j]
  }

  predicate Invariant(s: State) {
    && !(s.queued.Some? && s.applying.Some?)
    && (s.queued.Some? ==> QueuedOk(s, s.queued.value))
    && (s.timer.Some? ==> s.timer.value < s.next && (s.queued.Some? && s.queued.value.id == s.timer.value ==> s.queued.value.readyLeaf.Some?))
    && (s.applying.Some? ==> Called(s, s.applying.value.id) && s.applying.value.id in s.inFlight)
    && (forall k | 0 <= k < |s.calls| :: CallOk(s, s.calls[k]))
    && (forall i, j | 0 <= i < j < |s.calls| :: s.calls[i].op.id != s.calls[j].op.id)
    && (forall id | id in s.inFlight :: Called(s, id))
    && Distinct(s.edited) && Distinct(s.continued)
    && (forall id | id in s.edited :: Called(s, id) && id !in s.inFlight)
    && (forall id | id in s.continued :: id in s.edited)
  }

  /** Leaving the queue changes nothing else. */
  lemma CancelKeeps(s: State)
    requires Invariant(s)
    ensures Invariant(Cancel(s))
  {
  }

  lemma ApplyKeeps(s: State, op: Operation, env: Env)
    requires Invariant(s) && s.queued.None? && s.applying.None? && op.id < s.next && !Called(s, op.id)
    requires op.call.Some? ==> op.readyLeaf.Some? && Batch(op.id, op.readyLeaf) in s.batches
    requires op.call.None? ==> op.readyLeaf.None?
    ensures Invariant(Apply(s, op, env))
  {
    if ValidNow(op, env) {
      var s' := Apply(s, op, env);
      assert forall k | 0 <= k < |s.calls| :: s'.calls[k] == s.calls[k];
      assert s'.calls[|s.calls|] == Call(op, env.leaf);
      assert forall id :: Called(s, id) ==> Called(s', id);
    }
  }

  lemma NextKeeps(s: State)
    requires Invariant(s)
    ensures Invariant(s.(next := s.next + 1)) && !Called(s, s.next)
  {
    var s' := s.(next := s.next + 1);
    assert forall id :: Called(s, id) ==> Called(s', id);
    assert forall k | 0 <= k < |s.calls| :: CallOk(s, s.calls[k]);
    if s.queued.Some? { assert !Called(s, s.queued.value.id); }
  }

  lemma ToolPivotKeeps(s: State, r: Request, env: Env, call: string, aborted: bool)
    requires Invariant(s)
    ensures Invariant(ToolPivot(s, r, env, call, aborted))
  {
    NextKeeps(s);
    var s' := ToolPivot(s, r, env, call, aborted);
    assert forall id :: Called(s', id) ==> Called(s, id);
  }

  lemma HumanPivotKeeps(s: State, r: Request, env: Env)
    requires Invariant(s)
    ensures Invariant(HumanPivot(s, r, env))
  {
    NextKeeps(s);
    var op := Prepare(s, r, env, None);
    if op.Some? {
      assert !Called(s.(next := s.next + 1), s.next);
      ApplyKeeps(s.(next := s.next + 1), op.value, env);
    }
  }

  lemma TurnEndKeeps(s: State, t: Turn, env: Env)
    requires Invariant(s)
    ensures Invariant(TurnEnd(s, t, env))
  {
    if s.queued.Some? {
      var op := s.queued.value;
      var ready := op.(readyLeaf := env.leaf);
      var s1 := s.(queued := Some(ready), batches := s.batches + [Batch(op.id, env.leaf)]);
      assert Batch(op.id, env.leaf) in s1.batches;
      assert forall b | b in s.batches :: b in s1.batches;
      assert forall id :: Called(s1, id) <==> Called(s, id);
      forall k | 0 <= k < |s.calls| ensures CallOk(s1, s1.calls[k]) {
        assert CallOk(s, s.calls[k]);
      }
    }
  }

  lemma TimerKeeps(s: State, idle: bool, env: Env, sent: bool)
    requires Invariant(s)
    ensures Invariant(TimerFires(s, idle, env, sent))
  {
    var s' := TimerFires(s, idle, env, sent);
    assert forall id :: Called(s', id) <==> Called(s, id);
  }

  lemma CommandKeeps(s: State, nonce: nat, env: Env)
    requires Invariant(s)
    ensures Invariant(Command(s, nonce, env))
  {
    if s.queued.Some? && s.queued.value.dispatched {
      var s1 := s.(queued := None);
      assert forall id :: Called(s1, id) <==> Called(s, id);
      ApplyKeeps(s1, s.queued.value, env);
    }
  }

  lemma FlightEnds(s: State, id: nat)
    requires Invariant(s) && id in s.inFlight
    ensures Invariant(s.(inFlight := s.inFlight - {id}, applying := if s.applying.Some? && s.applying.value.id == id then None else s.applying))
    ensures Called(s, id) && id !in s.edited && id !in s.continued
  {
    var s' := s.(inFlight := s.inFlight - {id}, applying := if s.applying.Some? && s.applying.value.id == id then None else s.applying);
    assert forall x :: Called(s', x) <==> Called(s, x);
    forall k | 0 <= k < |s.calls| ensures CallOk(s', s'.calls[k]) { assert CallOk(s, s.calls[k]); }
  }

  lemma EditKeeps(s: State, id: nat, more: bool)
    requires Invariant(s) && Called(s, id) && id !in s.inFlight && id !in s.edited && id !in s.continued
    ensures Invariant(s.(edited := s.edited + [id], continued := if more then s.continued + [id] else s.continued))
  {
    var s' := s.(edited := s.edited + [id], continued := if more then s.continued + [id] else s.continued);
    assert forall x :: Called(s', x) <==> Called(s, x);
    forall k | 0 <= k < |s.calls| ensures CallOk(s', s'.calls[k]) { assert CallOk(s, s.calls[k]); }
  }

  lemma NavigatedKeeps(s: State, op: Operation, cancelled: bool, session: string)
    requires Invariant(s) && op.id in s.inFlight
    ensures Invariant(Navigated(s, op, cancelled, session))
  {
    FlightEnds(s, op.id);
    var mine := s.applying.Some? && s.applying.value.id == op.id;
    var s1 := s.(inFlight := s.inFlight - {op.id}, applying := if mine then None else s.applying);
    assert Called(s1, op.id) by { var k :| 0 <= k < |s.calls| && s.calls[k].op.id == op.id; assert s1.calls[k].op.id == op.id; }
    hide Invariant, Called;
    if !cancelled && session == op.session { EditKeeps(s1, op.id, mine && op.message); }
  }

  lemma StepKeeps(s: State, e: Event)
    requires Invariant(s)
    ensures Invariant(Step(s, e))
  {
    match e
    case ToolPivotEvent(r, env, call, aborted) => ToolPivotKeeps(s, r, env, call, aborted);
    case HumanPivotEvent(r, env) => HumanPivotKeeps(s, r, env);
    case TurnEndEvent(t, env) => TurnEndKeeps(s, t, env);
    case SettledEvent =>
      assert forall id :: Called(Settled(s), id) <==> Called(s, id);
    case TimerEvent(idle, env, sent) => TimerKeeps(s, idle, env, sent);
    case CommandEvent(nonce, env) => CommandKeeps(s, nonce, env);
    case NavigatedEvent(k, cancelled, session) =>
      if k < |s.calls| && s.calls[k].op.id in s.inFlight { NavigatedKeeps(s, s.calls[k].op, cancelled, session); }
    case BeforeTreeEvent(target, env) => CancelKeeps(s);
    case InputEvent(_) => CancelKeeps(s);
    case RefreshEvent(env) => CancelKeeps(s);
    case ResetEvent =>
      CancelKeeps(s);
      assert forall id :: Called(Reset(s), id) <==> Called(s, id);
  }

  lemma {:induction false} RunKeeps(es: seq<Event>)
    ensures Invariant(Run(es))
  {
    if es != [] {
      RunKeeps(es[..|es| - 1]);
      StepKeeps(Run(es[..|es| - 1]), es[|es| - 1]);
    }
  }

  /** Over every interleaving at most one pivot is queued or being applied; no pivot reaches tree
      navigation twice; and each call finds the session at the leaf recorded when the pivot's own
      batch completed, or at its origin for a person's pivot. */
  lemma PivotProtocol(es: seq<Event>)
    ensures var s := Run(es);
            && !(s.queued.Some? && s.applying.Some?)
            && (forall i, j | 0 <= i < j < |s.calls| :: s.calls[i].op.id != s.calls[j].op.id)
            && (forall k | 0 <= k < |s.calls| ::
                  var c := s.calls[k];
                  if c.op.call.Some? then c.op.readyLeaf.Some? && c.leaf == c.op.readyLeaf && Batch(c.op.id, c.leaf) in s.batches
                  else c.leaf == Some(c.op.origin))
  {
    RunKeeps(es);
    forall k | 0 <= k < |Run(es).calls| ensures CallOk(Run(es), Run(es).calls[k]) {}
  }

  /** A pivot's next message is sent at most once, only after its own navigation came back, and
      the edit is reported at most once per navigation. */
  lemma ContinuesOnce(es: seq<Event>, id: nat)
    ensures var s := Run(es);
            && Distinct(s.continued) && Distinct(s.edited)
            && (id in s.continued ==> id in s.edited)
            && (id in s.edited ==> Called(s, id) && id !in s.inFlight)
  {
    RunKeeps(es);
  }

  /** A step navigates at most once, and only with the pivot just taken from the queue or with a
      person's new one: what was cancelled never navigates later. */
  lemma NavigatesFromQueue(s: State, e: Event)
    ensures var s' := Step(s, e);
            || s'.calls == s.calls
            || (|s'.calls| == |s.calls| + 1 && s'.calls[..|s.calls|] == s.calls && s'.queued.None?
                && var op := s'.calls[|s.calls|].op; s'.applying == Some(op) && (s.queued == Some(op) || op.id == s.next))
  {
  }

  // ---------------------------------------------------------------- navigations in flight

  predicate HasReset(es: seq<Event>) {
    ResetEvent in es
  }

  /** Without a session event, at most the pivot being applied is in flight. */
  lemma {:induction false} OneInFlight(es: seq<Event>)
    requires !HasReset(es)
    ensures var s := Run(es); s.inFlight == if s.applying.Some? then {s.applying.value.id} else {}
  {
    if es != [] {
      var (before, e) := (es[..|es| - 1], es[|es| - 1]);
      OneInFlight(before);
      RunKeeps(before);
      assert e in es;
      var s := Run(before);
      if e.CommandEvent? && s.queued.Some? { assert s.applying.None?; }
    }
  }

  const READY := Env("s", Some("leaf"), false, true, true, true, true, {"target"}, {})
  const ASKED := Request(Some("target"), false, true, false)

  /** A session event lets a person's next pivot start at once, whatever is still in flight. */
  lemma StartsAfterReset(s: State)
    ensures var s' := HumanPivot(Reset(s), ASKED, READY);
            s'.applying.Some? && s'.inFlight == s.inFlight + {s.next} && s'.next == s.next + 1
  {
  }

  /** So two navigations can be in flight together. */
  lemma OverlapExample()
    ensures var h := HumanPivotEvent(ASKED, READY);
            Run([ResetEvent, h, ResetEvent, h]).applying.Some? && Run([ResetEvent, h, ResetEvent, h]).inFlight == {0, 1}
  {
    var h := HumanPivotEvent(ASKED, READY);
    var empty: seq<Event> := [];
    ResetThenPivot(empty);
    ResetThenPivot([ResetEvent, h]);
    hide HumanPivot, Reset;
    assert empty + [ResetEvent, h] == [ResetEvent, h] && [ResetEvent, h] + [ResetEvent, h] == [ResetEvent, h, ResetEvent, h];
    assert Run(empty).inFlight == {} && Run(empty).next == 0;
  }

  lemma ResetThenPivot(es: seq<Event>)
    ensures var (s, s') := (Run(es), Run(es + [ResetEvent, HumanPivotEvent(ASKED, READY)]));
            s'.applying.Some? && s'.inFlight == s.inFlight + {s.next} && s'.next == s.next + 1
  {
    var h := HumanPivotEvent(ASKED, READY);
    Unroll(es, ResetEvent);
    Unroll(es + [ResetEvent], h);
    assert es + [ResetEvent] + [h] == es + [ResetEvent, h];
    StartsAfterReset(Run(es));
    hide HumanPivot, Run;
  }

  lemma Unroll(es: seq<Event>, e: Event)
    ensures Run(es + [e]) == Step(Run(es), e)
  {
    assert (es + [e])[..|es + [e]| - 1] == es;
  }

  // ---------------------------------------------------------------- the controller as the program keeps it

  class Navigation {
    var queued: Option<Operation>
    var applying: Option<Operation>
    var timer: Option<nat>
    var next: nat
    ghost var calls: seq<Call>
    ghost var inFlight: set<nat>
    ghost var batches: seq<Batch>
    ghost var edited: seq<nat>
    ghost var continued: seq<nat>

    ghost function View(): State
      reads this
    {
      State(queued, applying, timer, next, calls, inFlight, batches, edited, continued)
    }

    constructor ()
      ensures View() == EMPTY
    {
      queued, applying, timer, next := None, None, None, 0;
      calls, inFlight, batches, edited, continued := [], {}, [], [], [];
    }

    method CancelQueued()
      modifies this`timer, this`queued
      ensures View() == Cancel(old(View()))
    {
      timer := None;
      queued := None;
    }

    method PreparePivot(r: Request, env: Env, call: Option<string>) returns (op: Option<Operation>)
      ensures op == Prepare(View(), r, env, call)
    {
      if !env.navigation || !env.pivots { return None; }
      if queued.Some? || applying.Some? || r.blocked { return None; }
      if env.pending || !r.textsOk { return None; }
      if r.target.None? || r.target.value == "" { return None; }
      if env.leaf.None? || env.leaf.value == "" || env.leaf.value == r.target.value { return None; }
      op := Some(Operation(next, env.session, env.leaf.value, r.target.value, call, r.message, None, false));
    }

    method Execute(r: Request, env: Env, call: string, aborted: bool)
      modifies this
      ensures View() == ToolPivot(old(View()), r, env, call, aborted)
    {
      if aborted || !env.tools || !env.active { return; }
      var op := PreparePivot(r, env, Some(call));
      if op.None? { return; }
      next := next + 1;
      queued := op;
    }

    /** Up to the point where navigation is in flight; OnNavigated is the rest. */
    method ApplyPivot(op: Operation, env: Env) returns (started: bool)
      modifies this
      ensures View() == Apply(old(View()), op, env) && (started <==> ValidNow(op, env))
    {
      if !ValidNow(op, env) { return false; }
      applying := Some(op);
      calls, inFlight := calls + [Call(op, env.leaf)], inFlight + {op.id};
      started := true;
    }

    method PanelPivot(r: Request, env: Env)
      modifies this
      ensures View() == HumanPivot(old(View()), r, env)
    {
      var op := PreparePivot(r, env, None);
      if op.None? { return; }
      next := next + 1;
      var _ := ApplyPivot(op.value, env);
    }

    method OnTurnEnd(t: Turn, env: Env)
      modifies this
      ensures View() == TurnEnd(old(View()), t, env)
    {
      if queued.None? { return; }
      var op := queued.value;
      if !t.completed || op.id in env.aborted || t.entries || t.pending || op.call.None? || op.call.value !in t.succeeded {
        CancelQueued();
        return;
      }
      queued := Some(op.(readyLeaf := env.leaf));
      batches := batches + [Batch(op.id, env.leaf)];
      if !ValidNow(queued.value, env) { CancelQueued(); }
    }

    method OnSettled()
      modifies this
      ensures View() == Settled(old(View()))
    {
      if queued.None? || queued.value.readyLeaf.None? || queued.value.readyLeaf.value == "" { return; }
      if queued.value.dispatched || timer.Some? { return; }
      timer := Some(queued.value.id);
    }

    method OnTimer(idle: bool, env: Env, sent: bool)
      requires timer.Some?
      modifies this
      ensures View() == TimerFires(old(View()), idle, env, sent)
    {
      var id := timer.value;
      timer := None;
      if queued.None? || queued.value.id != id { return; }
      if !idle || !ValidNow(queued.value, env) { CancelQueued(); return; }
      queued := Some(queued.value.(dispatched := true));
      if !sent { CancelQueued(); }
    }

    method HandleCommand(nonce: nat, env: Env) returns (started: bool)
      modifies this
      ensures View() == Command(old(View()), nonce, env)
      ensures started <==> View().calls != old(View()).calls
    {
      if queued.None? || queued.value.id != nonce || !queued.value.dispatched { return false; }
      var op := queued.value;
      queued := None;
      started := ApplyPivot(op, env);
    }

    /** What follows the await in ApplyPivot. */
    method OnNavigated(op: Operation, cancelled: bool, session: string)
      modifies this
      ensures View() == Navigated(old(View()), op, cancelled, session)
    {
      inFlight := inFlight - {op.id};
      if !cancelled && session == op.session { edited := edited + [op.id]; }
      if applying.None? || applying.value.id != op.id { return; }
      applying := None;
      if cancelled || session != op.session { return; }
      if op.message { continued := continued + [op.id]; }
    }

    method OnBeforeTree(target: string, env: Env) returns (cancelHost: bool)
      modifies this
      ensures (View(), cancelHost) == BeforeTree(old(View()), target, env)
    {
      if applying.None? || applying.value.session != env.session || applying.value.target != target {
        CancelQueued();
        return false;
      }
      cancelHost := applying.value.id in env.aborted || !env.navigation || !env.pivots;
    }

    method OnInput(typed: Option<nat>)
      modifies this
      ensures View() == Input(old(View()), typed)
    {
      if queued.Some? && typed != Some(queued.value.id) { CancelQueued(); }
    }

    method OnRefresh(env: Env)
      modifies this
      ensures View() == Refresh(old(View()), env)
    {
      if queued.Some? && (!env.navigation || !env.pivots || !env.tools || !env.active) { CancelQueued(); }
    }

    method OnReset()
      modifies this
      ensures View() == Reset(old(View()))
    {
      CancelQueued();
      applying := None;
    }

    method OnBeforeCompact(session: string) returns (cancelHost: bool)
      ensures cancelHost <==> BlocksCompaction(View(), session)
    {
      cancelHost := (queued.Some? && queued.value.session == session) || (applying.Some? && applying.value.session == session);
    }
  }
}
