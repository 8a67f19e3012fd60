/**
 Deferred notifications at a compaction gate, with callbacks that may re-enter every handler.

 While a compaction is under way notifications queue at a gate, and a drain hands them over
 afterwards. A drain is a frame on a stack: each step runs from one host event to the next
 callback or to the end of the drain.
 */
module Delivery {
  import opened Wrappers

  datatype Pause = NoPause | CancelledPause | DeliveryError

  /** What reading a context's session identifier gives: the gate's, another one, or an exception. */
  datatype Probe = Same | Other | Gone

  /** A gate as a value. Requests are numbered in arrival order, scopes by their token. */
  datatype GateState = GateState(id: nat, session: string, scopes: set<nat>, queue: seq<nat>, pause: Pause, draining: bool,
                                 timer: bool, resume: bool, native: Option<nat>)

  /** A drain whose callback is running: its gate and the requests that failed so far. */
  datatype Frame = Frame(gate: nat, failed: seq<nat>, running: nat)

  /** A callback that was started, with the gate's scopes and pause at that moment. */
  datatype Start = Start(req: nat, scopes: set<nat>, pause: Pause)

  /** An offered notification as the handler reads it. */
  datatype Offer = Offer(version: int, session: string, deferred: bool, callable: bool)

  datatype State = State(current: Option<GateState>, frames: seq<Frame>, nextGate: nat, nextReq: nat, nextToken: nat,
                         delivered: multiset<nat>, dropped: multiset<nat>, lost: multiset<nat>, started: seq<Start>)

  const EMPTY := State(None, [], 0, 0, 0, multiset{}, multiset{}, multiset{}, [])

  predicate Open(g: GateState) {
    g.scopes == {} && g.pause.NoPause?
  }

  predicate IsCurrent(s: State, gate: nat) {
    s.current.Some? && s.current.value.id == gate
  }

  function Clear(s: State): State {
    if s.current.None? then s else s.(current := None, dropped := s.dropped + multiset(s.current.value.queue))
  }

  /** Is this gate in force for its session; a context that is gone clears it. */
  function Matches(s: State, gate: nat, p: Probe): (State, bool) {
    if !IsCurrent(s, gate) || p.Other? then (s, false) else if p.Gone? then (Clear(s), false) else (s, true)
  }

  function With(s: State, g: GateState): State {
    s.(current := Some(g))
  }

  // ---------------------------------------------------------------- draining

  /** Failures go back to the head of the queue, for a later run; with nothing left the gate goes. */
  function PutBack(s: State, failed: seq<nat>): State
    requires s.current.Some?
  {
    var g := s.current.value.(queue := failed + s.current.value.queue);
    var g' := if failed != [] && Open(g) then g.(pause := DeliveryError) else g;
    if Open(g') && g'.queue == [] then Clear(With(s, g')) else With(s, g')
  }

  /** The drain's gate, if it is in force, drains no more. */
  function Quieted(s: State, gate: nat): State {
    if IsCurrent(s, gate) then With(s, s.current.value.(draining := false)) else s
  }

  /** The end of a drain. */
  function End(s: State, gate: nat, failed: seq<nat>, p: Probe): State {
    var (m, ok) := Matches(Quieted(s, gate), gate, p);
    if ok then PutBack(m, failed)
    else if IsCurrent(m, gate) then m.(lost := m.lost + multiset(failed))
    else m.(dropped := m.dropped + multiset(failed))
  }

  /** The next callback starts: its request moves from the queue to a new frame. */
  function Starting(m: State, gate: nat, failed: seq<nat>): State
    requires m.current.Some? && m.current.value.queue != []
  {
    var g := m.current.value;
    With(m, g.(queue := g.queue[1..])).(frames := m.frames + [Frame(gate, failed, g.queue[0])],
                                        started := m.started + [Start(g.queue[0], g.scopes, g.pause)])
  }

  /** The drain loop up to its next callback, or its end. */
  function Advance(s: State, gate: nat, failed: seq<nat>, p: Probe): State {
    var (m, ok) := Matches(s, gate, p);
    if ok && m.current.value.queue != [] && Open(m.current.value) then
      Starting(m, gate, failed)
    else End(m, gate, failed, p)
  }

  function Drain(s: State, gate: nat, p: Probe): State {
    var (m, ok) := Matches(s, gate, p);
    if !ok || !Open(m.current.value) || m.current.value.draining then m
    else Advance(With(m, m.current.value.(timer := false, draining := true)), gate, [], p)
  }

  /** The running callback returned, or threw. */
  function Return(s: State, ok: bool, p: Probe): State
    requires s.frames != []
  {
    var n := |s.frames| - 1;
    var f := s.frames[n];
    var popped := s.(frames := s.frames[..n]);
    if ok then Advance(popped.(delivered := popped.delivered + multiset{f.running}), f.gate, f.failed, p)
    else Advance(popped, f.gate, f.failed + [f.running], p)
  }

  // ---------------------------------------------------------------- scopes, pauses and offers

  function CheckIdle(s: State, gate: nat, p: Probe): State {
    var (m, ok) := Matches(s, gate, p);
    if !ok || !Open(m.current.value) || m.current.value.timer then m else With(m, m.current.value.(timer := true))
  }

  function FreshGate(s: State, session: string): GateState {
    GateState(s.nextGate, session, {}, [], NoPause, false, false, false, None)
  }

  /** The gate of a session, made if there is none; another session's gate is cleared first. */
  function GateFor(s: State, session: string): (State, bool) {
    var s1 := if s.current.Some? && s.current.value.session != session then Clear(s) else s;
    if s1.current.None? then (With(s1, FreshGate(s1, session)).(nextGate := s1.nextGate + 1), true) else (s1, false)
  }

  /** The gate in force with one more scope. */
  function Scoped(s: State): State
    requires s.current.Some?
  {
    var g := s.current.value;
    With(s, g.(scopes := g.scopes + {s.nextToken}, timer := false)).(nextToken := s.nextToken + 1)
  }

  /** Take a scope; the answer names the gate and the token. */
  function Acquire(s: State, session: string, p: Probe): (State, nat, nat) {
    var (s2, made) := GateFor(s, session);
    var gate := s2.current.value.id;
    ((if made then Scoped(s2) else Matches(Scoped(s2), gate, p).0), gate, s2.nextToken)
  }

  function BeforeCompact(s: State, session: string, p: Probe): State {
    var (m, gate, token) := Acquire(s, session, p);
    if IsCurrent(m, gate) then With(m, m.current.value.(native := Some(token))) else m
  }

  function Release(s: State, gate: nat, token: nat, p: Probe): State {
    var (m, ok) := Matches(s, gate, p);
    if !ok || token !in m.current.value.scopes then m
    else CheckIdle(With(m, m.current.value.(scopes := m.current.value.scopes - {token})), gate, p)
  }

  function PauseCancelled(s: State, gate: nat, p: Probe): State {
    var (m, ok) := Matches(s, gate, p);
    if ok then With(m, m.current.value.(pause := CancelledPause)) else m
  }

  /** `here` reads the event's own context, `p` the one the gate captured. When the captured
      context is gone, the handler fails after the gate was cleared. */
  function FinishNative(s: State, aborted: bool, here: Probe, p: Probe): State {
    if s.current.None? then s
    else
      var gate := s.current.value.id;
      var (m, ok) := Matches(s, gate, here);
      if !ok then m
      else
        var s1 := if aborted then PauseCancelled(m, gate, p) else With(m, m.current.value.(pause := NoPause));
        if s1.current.None? then s1 else ReleaseNative(s1, p)
  }

  function ReleaseNative(s: State, p: Probe): State
    requires s.current.Some?
  {
    var g := s.current.value;
    var s1 := With(s, g.(native := None));
    if g.native.Some? then Release(s1, g.id, g.native.value, p) else s1
  }

  function NaturalRun(s: State, here: Probe, p: Probe): State {
    if s.current.None? then s
    else
      var gate := s.current.value.id;
      var (m, ok) := Matches(s, gate, here);
      if !ok || m.current.value.draining then m
      else Drain(With(m, m.current.value.(pause := NoPause, resume := false)), gate, p)
  }

  function BeforeAgentStart(s: State, idle: bool, here: Probe, p: Probe): State {
    if s.current.None? then s
    else
      var (m, ok) := Matches(s, s.current.value.id, here);
      if ok && !m.current.value.draining && idle then With(m, m.current.value.(resume := true)) else NaturalRun(m, here, p)
  }

  function TurnStart(s: State, here: Probe, p: Probe): State {
    if s.current.Some? && s.current.value.pause.DeliveryError? && !s.current.value.resume then s else NaturalRun(s, here, p)
  }

  function AgentSettled(s: State, here: Probe, p: Probe): State {
    if s.current.None? then s
    else
      var gate := s.current.value.id;
      var (m, ok) := Matches(s, gate, here);
      if ok then CheckIdle(m, gate, p) else m
  }

  /** The idle timer, which only the gate in force can have. */
  function TimerFires(s: State, idle: bool, p: Probe): State {
    if s.current.None? || !s.current.value.timer then s
    else
      var gate := s.current.value.id;
      var (m, ok) := Matches(With(s, s.current.value.(timer := false)), gate, p);
      if !ok || !Open(m.current.value) then m
      else if idle then Drain(m, gate, p) else CheckIdle(m, gate, p)
  }

  /** The queue with the next request at its end. */
  function Accepted(m: State): State
    requires m.current.Some?
  {
    With(m, m.current.value.(queue := m.current.value.queue + [m.nextReq])).(nextReq := m.nextReq + 1)
  }

  /** A request is taken over unless it is malformed, for another session, or arrives while a
      failed sender keeps an otherwise open gate alive. */
  function Defer(s: State, o: Offer, p: Probe): (State, bool) {
    if s.current.None? || o.version != 1 || o.deferred || o.session != s.current.value.session || !o.callable then (s, false)
    else
      var (m, ok) := Matches(s, s.current.value.id, p);
      if !ok || (m.current.value.scopes == {} && m.current.value.pause.DeliveryError?) then (m, false)
      else (Accepted(m), true)
  }

  // ---------------------------------------------------------------- the invariant

  /** The requests a stack of drains holds: each frame's failures and its running request. */
  function HeldIn(fs: seq<Frame>): multiset<nat> {
    if fs == [] then multiset{}
    else HeldIn(fs[..|fs| - 1]) + multiset(fs[|fs| - 1].failed) + multiset{fs[|fs| - 1].running}
  }

  function Queued(s: State): multiset<nat> {
    if s.current.Some? then multiset(s.current.value.queue) else multiset{}
  }

  /** How often a request is in one of the places an accepted request can be. */
  function Everywhere(s: State, r: nat): nat {
    s.delivered[r] + s.dropped[r] + s.lost[r] + HeldIn(s.frames)[r] + Queued(s)[r]
  }

  predicate Ordered(q: seq<nat>, bound: nat) {
    (forall i, j | 0 <= i < j < |q| :: q[i] < q[j]) && forall i | 0 <= i < |q| :: q[i] < bound
  }

  /** A stack of drains, each of a later gate than the one below. */
  predicate Stacked(fs: seq<Frame>, bound: nat) {
    (forall i, j | 0 <= i < j < |fs| :: fs[i].gate < fs[j].gate) && forall i | 0 <= i < |fs| :: fs[i].gate < bound
  }

  /** The gate's requests in the order they will be tried again: failed, running, queued. */
  function Line(s: State): seq<nat>
    requires s.current.Some? && (s.current.value.draining ==> s.frames != [])
  {
    var g := s.current.value;
    if g.draining then s.frames[|s.frames| - 1].failed + [s.frames[|s.frames| - 1].running] + g.queue else g.queue
  }

  predicate OpenStarts(ss: seq<Start>) {
    forall i | 0 <= i < |ss| :: ss[i].scopes == {} && ss[i].pause.NoPause?
  }

  /** Gates, stack and draining flag agree. */
  predicate Shaped(s: State) {
    && Stacked(s.frames, s.nextGate) && OpenStarts(s.started)
    && (s.current.Some? ==>
          var g := s.current.value;
          && g.id < s.nextGate && Stacked(s.frames, g.id + 1)
          && (g.draining <==> s.frames != [] && s.frames[|s.frames| - 1].gate == g.id))
  }

  ghost predicate Balanced(s: State, inHand: seq<nat>) {
    forall r: nat :: Everywhere(s, r) + multiset(inHand)[r] == if r < s.nextReq then 1 else 0
  }

  ghost predicate Invariant(s: State) {
    && Shaped(s) && Balanced(s, [])
    && (s.current.Some? ==> Ordered(Line(s), s.nextReq))
  }

  /** Between two callbacks of a drain: its frame is off the stack and its failures are in hand. */
  predicate BetweenShape(s: State, gate: nat) {
    && Stacked(s.frames, gate) && gate < s.nextGate && OpenStarts(s.started)
    && (s.current.Some? ==> gate <= s.current.value.id < s.nextGate && (s.current.value.draining <==> s.current.value.id == gate))
  }

  ghost predicate Between(s: State, gate: nat, failed: seq<nat>) {
    && BetweenShape(s, gate) && Balanced(s, failed)
    && (s.current.Some? ==> Ordered(if s.current.value.id == gate then failed + s.current.value.queue else s.current.value.queue, s.nextReq))
  }

  /** A change of the gate's scopes, pause, timer and flags. */
  predicate SameQueue(g: GateState, h: GateState) {
    g.id == h.id && g.queue == h.queue && g.draining == h.draining
  }

  predicate SameRest(s: State, s': State) {
    s'.frames == s.frames && s'.started == s.started && s'.delivered == s.delivered && s'.lost == s.lost && s'.nextReq == s.nextReq
  }

  predicate SameGate(s: State, s': State) {
    if s.current.Some? then s'.current.Some? && SameQueue(s.current.value, s'.current.value) else s'.current.None?
  }

  /** The gate keeps its queue, or is cleared. */
  predicate KeepsGate(s: State, s': State) {
    && SameRest(s, s') && s'.nextGate == s.nextGate
    && if s'.dropped == s.dropped && SameGate(s, s') then true else s'.dropped == Clear(s).dropped && s'.current.None?
  }

  /** A new empty gate stands in the place of the cleared one. */
  predicate Regates(s: State, s': State) {
    && SameRest(s, s') && s'.nextGate == s.nextGate + 1 && s'.dropped == Clear(s).dropped && s'.current.Some?
    && s'.current.value.id == s.nextGate && s'.current.value.queue == [] && !s'.current.value.draining
  }

  /** A step that starts no callback and accepts no request: the gate keeps its queue, or is
      cleared, perhaps with a new empty one in its place. */
  predicate Calm(s: State, s': State) {
    KeepsGate(s, s') || Regates(s, s')
  }

  /** A calm step moves the queue to the dropped requests or leaves both as they are. */
  lemma CalmPlaces(s: State, s': State)
    requires Calm(s, s')
    ensures SameRest(s, s') && s'.dropped + Queued(s') == s.dropped + Queued(s)
  {
  }

  lemma PlacesCount(s: State, s': State, r: nat)
    requires SameRest(s, s') && s'.dropped + Queued(s') == s.dropped + Queued(s)
    ensures Everywhere(s', r) == Everywhere(s, r)
  {
    hide HeldIn, Queued;
    assert (s'.dropped + Queued(s'))[r] == (s.dropped + Queued(s))[r];
  }

  lemma CalmBalanced(s: State, s': State)
    requires Balanced(s, []) && Calm(s, s')
    ensures Balanced(s', [])
  {
    hide Calm, Everywhere, Queued;
    CalmPlaces(s, s');
    forall r: nat ensures Everywhere(s', r) == Everywhere(s, r) {
      PlacesCount(s, s', r);
    }
  }

  lemma CalmKeeps(s: State, s': State)
    requires Invariant(s) && Calm(s, s')
    ensures Invariant(s')
  {
    CalmBalanced(s, s');
    hide Balanced, OpenStarts, Clear;
    if s'.current.Some? && s.current.Some? && SameQueue(s.current.value, s'.current.value) { assert Line(s') == Line(s); }
  }

  lemma MatchesKeeps(s: State, gate: nat, p: Probe)
    requires Invariant(s)
    ensures Invariant(Matches(s, gate, p).0)
  {
    assert Calm(s, Matches(s, gate, p).0) by { hide Invariant; }
    CalmKeeps(s, Matches(s, gate, p).0);
  }

  lemma ClearBalanced(s: State, inHand: seq<nat>)
    requires Balanced(s, inHand)
    ensures Balanced(Clear(s), inHand)
  {
    hide Everywhere;
    forall r: nat ensures Everywhere(Clear(s), r) == Everywhere(s, r) {
      PlacesCount(s, Clear(s), r);
    }
  }

  lemma MatchesBetween(s: State, gate: nat, failed: seq<nat>, p: Probe)
    requires Between(s, gate, failed)
    ensures Between(Matches(s, gate, p).0, gate, failed)
  {
    ClearBalanced(s, failed);
    hide Balanced, Ordered, Stacked, OpenStarts;
  }

  /** Putting the failures back at the head of the queue. */
  lemma RequeueBalanced(s: State, g: GateState, failed: seq<nat>)
    requires Balanced(s, failed) && s.current.Some? && g.queue == failed + s.current.value.queue
    ensures Balanced(With(s, g), [])
  {
    hide HeldIn;
    forall r: nat ensures Everywhere(With(s, g), r) == Everywhere(s, r) + multiset(failed)[r] {
      assert multiset(g.queue) == multiset(failed) + multiset(s.current.value.queue);
    }
  }

  /** Giving the failures up. */
  lemma LoseBalanced(s: State, failed: seq<nat>)
    requires Balanced(s, failed)
    ensures Balanced(s.(lost := s.lost + multiset(failed)), [])
    ensures Balanced(s.(dropped := s.dropped + multiset(failed)), [])
  {
    hide HeldIn;
    forall r: nat ensures Everywhere(s.(lost := s.lost + multiset(failed)), r) == Everywhere(s, r) + multiset(failed)[r] {}
    forall r: nat ensures Everywhere(s.(dropped := s.dropped + multiset(failed)), r) == Everywhere(s, r) + multiset(failed)[r] {}
  }

  lemma QuietBalanced(s: State, g: GateState, inHand: seq<nat>)
    requires Balanced(s, inHand) && s.current.Some? && g.queue == s.current.value.queue
    ensures Balanced(With(s, g), inHand)
  {
    forall r: nat ensures Everywhere(With(s, g), r) == Everywhere(s, r) {}
  }

  lemma EndBalanced(s: State, gate: nat, failed: seq<nat>, p: Probe)
    requires Balanced(s, failed)
    ensures Balanced(End(s, gate, failed, p), [])
  {
    hide Balanced;
    var quiet := if IsCurrent(s, gate) then With(s, s.current.value.(draining := false)) else s;
    if IsCurrent(s, gate) { QuietBalanced(s, s.current.value.(draining := false), failed); }
    ClearBalanced(quiet, failed);
    var (m, ok) := Matches(quiet, gate, p);
    if ok {
      var g := m.current.value.(queue := failed + m.current.value.queue);
      var g' := if failed != [] && Open(g) then g.(pause := DeliveryError) else g;
      RequeueBalanced(m, g', failed);
      ClearBalanced(With(m, g'), []);
    } else {
      LoseBalanced(m, failed);
    }
  }

  lemma PutBackGate(s: State, failed: seq<nat>)
    requires s.current.Some?
    ensures var s' := PutBack(s, failed);
            && s'.frames == s.frames && s'.started == s.started && s'.nextGate == s.nextGate && s'.nextReq == s.nextReq
            && (s'.current.Some? ==>
                  && s'.current.value.id == s.current.value.id && s'.current.value.draining == s.current.value.draining
                  && s'.current.value.queue == failed + s.current.value.queue)
  {
  }

  /** What a drain's end leaves of the gate in force. */
  lemma EndGate(s: State, gate: nat, failed: seq<nat>, p: Probe)
    ensures var s' := End(s, gate, failed, p);
            && s'.frames == s.frames && s'.started == s.started && s'.nextGate == s.nextGate && s'.nextReq == s.nextReq
            && (s'.current.Some? ==>
                  && s.current.Some? && s'.current.value.id == s.current.value.id
                  && (s.current.value.id == gate ==> !s'.current.value.draining)
                  && (s.current.value.id != gate ==> s'.current == s.current)
                  && (s'.current.value.queue == s.current.value.queue
                      || (s.current.value.id == gate && s'.current.value.queue == failed + s.current.value.queue)))
  {
    var (m, ok) := Matches(Quieted(s, gate), gate, p);
    if ok { PutBackGate(m, failed); }
    hide PutBack;
  }

  lemma EndShaped(s: State, gate: nat, failed: seq<nat>, p: Probe)
    requires BetweenShape(s, gate)
    ensures Shaped(End(s, gate, failed, p))
  {
    EndGate(s, gate, failed, p);
    hide End;
  }

  lemma EndKeeps(s: State, gate: nat, failed: seq<nat>, p: Probe)
    requires Between(s, gate, failed)
    ensures Invariant(End(s, gate, failed, p))
  {
    EndBalanced(s, gate, failed, p);
    EndShaped(s, gate, failed, p);
    EndGate(s, gate, failed, p);
    hide Balanced, Shaped, Stacked, OpenStarts, End;
    if IsCurrent(s, gate) {
      TailOrdered(failed, s.current.value.queue, s.nextReq);
    }
    hide Ordered;
  }

  lemma TailOrdered(a: seq<nat>, b: seq<nat>, bound: nat)
    requires Ordered(a + b, bound)
    ensures Ordered(b, bound)
  {
    forall i | 0 <= i < |b| ensures b[i] == (a + b)[|a| + i] {}
  }

  lemma HeldMore(fs: seq<Frame>, f: Frame, r: nat)
    ensures HeldIn(fs + [f])[r] == HeldIn(fs)[r] + multiset(f.failed)[r] + multiset{f.running}[r]
  {
    assert (fs + [f])[..|fs|] == fs;
  }

  lemma HeadCount(q: seq<nat>, r: nat)
    requires q != []
    ensures multiset(q)[r] == multiset{q[0]}[r] + multiset(q[1..])[r]
  {
    assert q == [q[0]] + q[1..];
  }

  lemma StartPlaces(m: State, gate: nat, failed: seq<nat>, r: nat)
    requires m.current.Some? && m.current.value.queue != []
    ensures Everywhere(Starting(m, gate, failed), r) == Everywhere(m, r) + multiset(failed)[r]
  {
    hide HeldIn;
    HeldMore(m.frames, Frame(gate, failed, m.current.value.queue[0]), r);
    HeadCount(m.current.value.queue, r);
  }

  lemma StartBalanced(m: State, gate: nat, failed: seq<nat>)
    requires m.current.Some? && m.current.value.queue != [] && Balanced(m, failed)
    ensures Balanced(Starting(m, gate, failed), [])
  {
    hide Everywhere;
    var s' := Starting(m, gate, failed);
    forall r: nat ensures Everywhere(s', r) + multiset([])[r] == if r < s'.nextReq then 1 else 0 {
      StartPlaces(m, gate, failed, r);
    }
  }

  lemma StartShaped(m: State, gate: nat, failed: seq<nat>)
    requires BetweenShape(m, gate) && IsCurrent(m, gate) && m.current.value.queue != [] && Open(m.current.value)
    ensures Shaped(Starting(m, gate, failed)) && Line(Starting(m, gate, failed)) == failed + m.current.value.queue
  {
    var q, s' := m.current.value.queue, Starting(m, gate, failed);
    assert failed + [q[0]] + q[1..] == failed + q;
    assert Stacked(s'.frames, gate + 1);
    assert OpenStarts(s'.started);
  }

  lemma StartKeeps(m: State, gate: nat, failed: seq<nat>)
    requires Between(m, gate, failed) && IsCurrent(m, gate) && m.current.value.queue != [] && Open(m.current.value)
    ensures Invariant(Starting(m, gate, failed))
  {
    StartBalanced(m, gate, failed);
    StartShaped(m, gate, failed);
    hide Balanced, Shaped, Line, Stacked, OpenStarts, Ordered;
  }

  lemma AdvanceKeeps(s: State, gate: nat, failed: seq<nat>, p: Probe)
    requires Between(s, gate, failed)
    ensures Invariant(Advance(s, gate, failed, p))
  {
    var (m, ok) := Matches(s, gate, p);
    MatchesBetween(s, gate, failed, p);
    hide Between, Invariant;
    if ok && m.current.value.queue != [] && Open(m.current.value) {
      assert m == s && p.Same?;
      StartKeeps(m, gate, failed);
    } else {
      EndKeeps(m, gate, failed, p);
    }
  }

  lemma EntersDrain(s: State, gate: nat)
    requires Invariant(s) && IsCurrent(s, gate) && !s.current.value.draining
    ensures Between(With(s, s.current.value.(timer := false, draining := true)), gate, [])
  {
    hide HeldIn;
    var s1 := With(s, s.current.value.(timer := false, draining := true));
    assert [] + s1.current.value.queue == s1.current.value.queue;
    var n := |s.frames| - 1;
    assert forall i | 0 <= i < |s.frames| :: s.frames[i].gate <= s.frames[n].gate;
    assert Stacked(s.frames, gate);
  }

  /** An idle open gate goes straight into its drain. */
  lemma DrainEnters(s: State)
    requires s.current.Some? && Open(s.current.value) && !s.current.value.draining
    ensures var g := s.current.value;
            Drain(s, g.id, Same) == Advance(With(s, g.(timer := false, draining := true)), g.id, [], Same)
  {
    hide Advance;
  }

  lemma DrainKeeps(s: State, gate: nat, p: Probe)
    requires Invariant(s)
    ensures Invariant(Drain(s, gate, p))
  {
    hide Invariant, Between;
    MatchesKeeps(s, gate, p);
    var (m, ok) := Matches(s, gate, p);
    if ok && Open(m.current.value) && !m.current.value.draining {
      EntersDrain(m, gate);
      AdvanceKeeps(With(m, m.current.value.(timer := false, draining := true)), gate, [], p);
    }
  }

  /** The state when the top callback is done and its drain is about to go on. */
  function Popped(s: State, ok: bool): State
    requires s.frames != []
  {
    var n := |s.frames| - 1;
    s.(frames := s.frames[..n], delivered := if ok then s.delivered + multiset{s.frames[n].running} else s.delivered)
  }

  function Failures(f: Frame, ok: bool): seq<nat> {
    if ok then f.failed else f.failed + [f.running]
  }

  lemma PoppedHeld(fs: seq<Frame>)
    requires fs != []
    ensures HeldIn(fs) == HeldIn(fs[..|fs| - 1]) + multiset(fs[|fs| - 1].failed) + multiset{fs[|fs| - 1].running}
  {
  }

  lemma PoppedPlaces(s: State, ok: bool, r: nat)
    requires s.frames != []
    ensures Everywhere(s, r) == Everywhere(Popped(s, ok), r) + multiset(Failures(s.frames[|s.frames| - 1], ok))[r]
  {
    var f := s.frames[|s.frames| - 1];
    PoppedHeld(s.frames);
    hide HeldIn;
    if !ok { assert multiset(f.failed + [f.running]) == multiset(f.failed) + multiset{f.running}; }
  }

  lemma PoppedBalanced(s: State, ok: bool)
    requires Balanced(s, []) && s.frames != []
    ensures Balanced(Popped(s, ok), Failures(s.frames[|s.frames| - 1], ok))
  {
    hide Everywhere;
    forall r: nat ensures Everywhere(s, r) == Everywhere(Popped(s, ok), r) + multiset(Failures(s.frames[|s.frames| - 1], ok))[r] {
      PoppedPlaces(s, ok, r);
    }
    assert Popped(s, ok).nextReq == s.nextReq;
  }

  lemma PoppedShape(s: State, ok: bool)
    requires Shaped(s) && s.frames != []
    ensures BetweenShape(Popped(s, ok), s.frames[|s.frames| - 1].gate)
  {
  }

  lemma PoppedBetween(s: State, ok: bool)
    requires Invariant(s) && s.frames != []
    ensures var f := s.frames[|s.frames| - 1];
            Between(Popped(s, ok), f.gate, Failures(f, ok))
  {
    var f := s.frames[|s.frames| - 1];
    PoppedBalanced(s, ok);
    PoppedShape(s, ok);
    hide Balanced, Stacked, OpenStarts;
    if s.current.Some? && s.current.value.id == f.gate {
      var q := s.current.value.queue;
      assert Line(s) == f.failed + [f.running] + q;
      if ok { SkipOne(f.failed, f.running, q, s.nextReq); }
    }
  }

  lemma ReturnKeeps(s: State, ok: bool, p: Probe)
    requires Invariant(s) && s.frames != []
    ensures Invariant(Return(s, ok, p))
  {
    var f := s.frames[|s.frames| - 1];
    PoppedBetween(s, ok);
    AdvanceKeeps(Popped(s, ok), f.gate, Failures(f, ok), p);
    assert Return(s, ok, p) == Advance(Popped(s, ok), f.gate, Failures(f, ok), p) by { hide Advance; }
  }

  lemma SkipOne(a: seq<nat>, x: nat, b: seq<nat>, bound: nat)
    requires Ordered(a + [x] + b, bound)
    ensures Ordered(a + b, bound)
  {
    var long, short := a + [x] + b, a + b;
    forall i | 0 <= i < |short| ensures short[i] == long[if i < |a| then i else i + 1] {}
  }

  lemma NaturalRunKeeps(s: State, here: Probe, p: Probe)
    requires Invariant(s)
    ensures Invariant(NaturalRun(s, here, p))
  {
    hide Invariant, Drain;
    if s.current.Some? {
      var gate := s.current.value.id;
      var (m, ok) := Matches(s, gate, here);
      if ok && !m.current.value.draining {
        var s1 := With(m, m.current.value.(pause := NoPause, resume := false));
        CalmKeeps(s, s1);
        DrainKeeps(s1, gate, p);
      } else {
        CalmKeeps(s, m);
      }
    }
  }

  lemma BeforeAgentKeeps(s: State, idle: bool, here: Probe, p: Probe)
    requires Invariant(s)
    ensures Invariant(BeforeAgentStart(s, idle, here, p))
  {
    hide Invariant, NaturalRun;
    if s.current.Some? {
      var (m, ok) := Matches(s, s.current.value.id, here);
      if ok && !m.current.value.draining && idle {
        CalmKeeps(s, BeforeAgentStart(s, idle, here, p));
      } else {
        CalmKeeps(s, m);
        NaturalRunKeeps(m, here, p);
      }
    } else {
      NaturalRunKeeps(s, here, p);
    }
  }

  lemma TimerKeeps(s: State, idle: bool, p: Probe)
    requires Invariant(s)
    ensures Invariant(TimerFires(s, idle, p))
  {
    hide Invariant, Drain;
    if s.current.Some? && s.current.value.timer {
      var gate := s.current.value.id;
      var (m, ok) := Matches(With(s, s.current.value.(timer := false)), gate, p);
      if ok && Open(m.current.value) && idle {
        CalmKeeps(s, m);
        DrainKeeps(m, gate, p);
      } else {
        CalmKeeps(s, TimerFires(s, idle, p));
      }
    }
  }

  lemma AcceptBalanced(m: State)
    requires Balanced(m, []) && m.current.Some?
    ensures Balanced(Accepted(m), [])
  {
    hide HeldIn;
    var s', q := Accepted(m), m.current.value.queue;
    forall r: nat ensures Everywhere(s', r) == Everywhere(m, r) + if r == m.nextReq then 1 else 0 {
      assert multiset(q + [m.nextReq]) == multiset(q) + multiset{m.nextReq};
    }
  }

  lemma LastOrdered(q: seq<nat>, bound: nat)
    requires Ordered(q, bound)
    ensures Ordered(q + [bound], bound + 1)
  {
  }

  /** A new request joins the end of the line. */
  lemma AcceptLine(m: State)
    requires m.current.Some? && (m.current.value.draining ==> m.frames != [])
    ensures Line(Accepted(m)) == Line(m) + [m.nextReq]
  {
    var g := m.current.value;
    if g.draining {
      var f := m.frames[|m.frames| - 1];
      assert f.failed + [f.running] + (g.queue + [m.nextReq]) == f.failed + [f.running] + g.queue + [m.nextReq];
    }
  }

  lemma AcceptShaped(m: State)
    requires Shaped(m) && m.current.Some?
    ensures Shaped(Accepted(m)) && Accepted(m).nextReq == m.nextReq + 1 && Accepted(m).current.Some?
  {
    hide Stacked, OpenStarts;
  }

  lemma AcceptKeeps(m: State)
    requires Invariant(m) && m.current.Some?
    ensures Invariant(Accepted(m))
  {
    AcceptShaped(m);
    AcceptBalanced(m);
    AcceptLine(m);
    LastOrdered(Line(m), m.nextReq);
    hide Accepted, Balanced, Shaped, Ordered, Line;
  }

  lemma DeferKeeps(s: State, o: Offer, p: Probe)
    requires Invariant(s)
    ensures Invariant(Defer(s, o, p).0)
  {
    hide Invariant;
    if s.current.Some? {
      MatchesKeeps(s, s.current.value.id, p);
      var m := Matches(s, s.current.value.id, p).0;
      if Defer(s, o, p).1 { AcceptKeeps(m); }
    }
  }

  // ---------------------------------------------------------------- whole runs

  datatype Event =
    | DeferEvent(offer: Offer, p: Probe)
    | AcquireEvent(session: string, p: Probe)
    | BeforeCompactEvent(session: string, p: Probe)
    | ReleaseEvent(gate: nat, token: nat, p: Probe)
    | RunCancelledEvent(gate: nat, p: Probe)
    | FinishNativeEvent(aborted: bool, here: Probe, p: Probe)
    | BeforeAgentEvent(idle: bool, here: Probe, p: Probe)
    | TurnStartEvent(here: Probe, p: Probe)
    | SettledEvent(here: Probe, p: Probe)
    | TimerEvent(idle: bool, p: Probe)
    | SessionEvent
    | ReturnEvent(ok: bool, p: Probe)

  function Step(s: State, e: Event): State {
    match e
    case DeferEvent(offer, p) => Defer(s, offer, p).0
    case AcquireEvent(session, p) => Acquire(s, session, p).0
    case BeforeCompactEvent(session, p) => BeforeCompact(s, session, p)
    case ReleaseEvent(gate, token, p) => Release(s, gate, token, p)
    case RunCancelledEvent(gate, p) => PauseCancelled(s, gate, p)
    case FinishNativeEvent(aborted, here, p) => FinishNative(s, aborted, here, p)
    case BeforeAgentEvent(idle, here, p) => BeforeAgentStart(s, idle, here, p)
    case TurnStartEvent(here, p) => TurnStart(s, here, p)
    case SettledEvent(here, p) => AgentSettled(s, here, p)
    case TimerEvent(idle, p) => TimerFires(s, idle, p)
    case SessionEvent => Clear(s)
    case ReturnEvent(ok, p) => if s.frames == [] then s else Return(s, ok, p)
  }

  function Run(es: seq<Event>): State {
    if es == [] then EMPTY else Step(Run(es[..|es| - 1]), es[|es| - 1])
  }

  /** Events that start no callback and offer no request. */
  predicate IsCalm(e: Event) {
    match e
    case AcquireEvent(_, _) => true
    case BeforeCompactEvent(_, _) => true
    case ReleaseEvent(_, _, _) => true
    case RunCancelledEvent(_, _) => true
    case FinishNativeEvent(_, _, _) => true
    case SettledEvent(_, _) => true
    case SessionEvent => true
    case _ => false
  }

  lemma GateThen(s: State, t: State, u: State)
    requires KeepsGate(s, t) && KeepsGate(t, u)
    ensures KeepsGate(s, u)
  {
  }

  lemma MatchesGate(s: State, gate: nat, p: Probe)
    ensures KeepsGate(s, Matches(s, gate, p).0)
    ensures Matches(s, gate, p).1 ==> IsCurrent(s, gate) && Matches(s, gate, p).0 == s
  {
  }

  lemma WithGate(s: State, g: GateState)
    requires s.current.Some? && SameQueue(s.current.value, g)
    ensures KeepsGate(s, With(s, g))
  {
  }

  lemma CheckIdleGate(s: State, gate: nat, p: Probe)
    ensures KeepsGate(s, CheckIdle(s, gate, p))
  {
    hide Matches, KeepsGate, With;
    MatchesGate(s, gate, p);
    if Matches(s, gate, p).1 { WithGate(s, s.current.value.(timer := true)); }
  }

  lemma ReleaseGate(s: State, gate: nat, token: nat, p: Probe)
    ensures KeepsGate(s, Release(s, gate, token, p))
  {
    hide Matches, KeepsGate, With, CheckIdle;
    MatchesGate(s, gate, p);
    if Matches(s, gate, p).1 && token in s.current.value.scopes {
      var t := With(s, s.current.value.(scopes := s.current.value.scopes - {token}));
      WithGate(s, s.current.value.(scopes := s.current.value.scopes - {token}));
      CheckIdleGate(t, gate, p);
      GateThen(s, t, CheckIdle(t, gate, p));
    }
  }

  lemma PauseGate(s: State, gate: nat, p: Probe)
    ensures KeepsGate(s, PauseCancelled(s, gate, p))
  {
    hide Matches, KeepsGate, With;
    MatchesGate(s, gate, p);
    if Matches(s, gate, p).1 { WithGate(s, s.current.value.(pause := CancelledPause)); }
  }

  lemma ReleaseNativeGate(s: State, p: Probe)
    requires s.current.Some?
    ensures KeepsGate(s, ReleaseNative(s, p))
  {
    hide KeepsGate, With, Release;
    var g := s.current.value;
    var t := With(s, g.(native := None));
    WithGate(s, g.(native := None));
    if g.native.Some? {
      ReleaseGate(t, g.id, g.native.value, p);
      GateThen(s, t, Release(t, g.id, g.native.value, p));
    }
  }

  lemma FinishNativeGate(s: State, aborted: bool, here: Probe, p: Probe)
    ensures KeepsGate(s, FinishNative(s, aborted, here, p))
  {
    if s.current.Some? {
      hide Matches, KeepsGate, With, PauseCancelled, ReleaseNative;
      var gate := s.current.value.id;
      MatchesGate(s, gate, here);
      if Matches(s, gate, here).1 {
        var t := if aborted then PauseCancelled(s, gate, p) else With(s, s.current.value.(pause := NoPause));
        PauseGate(s, gate, p);
        WithGate(s, s.current.value.(pause := NoPause));
        if t.current.Some? {
          ReleaseNativeGate(t, p);
          GateThen(s, t, ReleaseNative(t, p));
        }
      }
    } else {
      assert KeepsGate(s, s);
    }
  }

  lemma SettledGate(s: State, here: Probe, p: Probe)
    ensures KeepsGate(s, AgentSettled(s, here, p))
  {
    if s.current.Some? {
      hide Matches, KeepsGate, CheckIdle;
      MatchesGate(s, s.current.value.id, here);
      CheckIdleGate(s, s.current.value.id, p);
    } else {
      assert KeepsGate(s, s);
    }
  }

  lemma GateForCalm(s: State, session: string)
    ensures var (t, made) := GateFor(s, session);
            t.current.Some? && if made then Regates(s, t) else t == s
  {
  }

  lemma ScopedCalm(s: State, t: State)
    requires t.current.Some?
    ensures (Regates(s, t) ==> Regates(s, Scoped(t))) && KeepsGate(t, Scoped(t))
  {
  }

  /** Taking a scope leaves a gate standing, unless the one in force is found gone. */
  lemma AcquireCalm(s: State, session: string, p: Probe)
    ensures Calm(s, Acquire(s, session, p).0)
  {
    hide Matches, KeepsGate, Scoped, GateFor, Regates;
    GateForCalm(s, session);
    var (t, made) := GateFor(s, session);
    ScopedCalm(s, t);
    if !made {
      MatchesGate(Scoped(t), t.current.value.id, p);
      GateThen(s, Scoped(t), Matches(Scoped(t), t.current.value.id, p).0);
    }
  }

  lemma WithCalm(s: State, t: State, g: GateState)
    requires Calm(s, t) && t.current.Some? && SameQueue(t.current.value, g)
    ensures Calm(s, With(t, g))
  {
  }

  lemma BeforeCompactCalm(s: State, session: string, p: Probe)
    ensures Calm(s, BeforeCompact(s, session, p))
  {
    hide Acquire, Calm, With;
    AcquireCalm(s, session, p);
    var (m, gate, token) := Acquire(s, session, p);
    if IsCurrent(m, gate) { WithCalm(s, m, m.current.value.(native := Some(token))); }
  }

  lemma ClearCalm(s: State)
    ensures KeepsGate(s, Clear(s))
  {
  }

  lemma CalmSteps(s: State, e: Event)
    requires IsCalm(e)
    ensures Calm(s, Step(s, e))
  {
    hide Acquire, BeforeCompact, Release, FinishNative, AgentSettled, PauseCancelled, Clear, KeepsGate, Regates, Defer, NaturalRun,
         TimerFires, TurnStart, BeforeAgentStart, Return;
    match e
    case AcquireEvent(session, p) => AcquireCalm(s, session, p);
    case BeforeCompactEvent(session, p) => BeforeCompactCalm(s, session, p);
    case ReleaseEvent(gate, token, p) => ReleaseGate(s, gate, token, p);
    case RunCancelledEvent(gate, p) => PauseGate(s, gate, p);
    case FinishNativeEvent(aborted, here, p) => FinishNativeGate(s, aborted, here, p);
    case SettledEvent(here, p) => SettledGate(s, here, p);
    case SessionEvent => ClearCalm(s);
  }

  lemma StepKeeps(s: State, e: Event)
    requires Invariant(s)
    ensures Invariant(Step(s, e))
  {
    hide Invariant, Calm, NaturalRun, TimerFires, Return, Defer, Drain, Acquire, BeforeCompact, Release, FinishNative, AgentSettled;
    match e
    case DeferEvent(offer, p) => DeferKeeps(s, offer, p);
    case BeforeAgentEvent(idle, here, p) => BeforeAgentKeeps(s, idle, here, p);
    case TurnStartEvent(here, p) => NaturalRunKeeps(s, here, p);
    case TimerEvent(idle, p) => TimerKeeps(s, idle, p);
    case ReturnEvent(ok, p) => if s.frames != [] { ReturnKeeps(s, ok, p); }
    case _ =>
      CalmSteps(s, e);
      CalmKeeps(s, Step(s, e));
  }

  lemma {:induction false} RunKeeps(es: seq<Event>)
    ensures Invariant(Run(es))
  {
    if es != [] {
      RunKeeps(es[..|es| - 1]);
      StepKeeps(Run(es[..|es| - 1]), es[|es| - 1]);
    }
  }

  /** Over every run, callbacks re-entering as they like: each accepted request is in exactly one
      place, counted once; and a gate's failed, running and queued requests stand in arrival order. */
  lemma DeliveryConserves(es: seq<Event>, r: nat)
    ensures var s := Run(es);
            && s.delivered[r] + s.dropped[r] + s.lost[r] + HeldIn(s.frames)[r] + Queued(s)[r] == (if r < s.nextReq then 1 else 0)
            && (s.current.Some? ==> (s.current.value.draining ==> s.frames != []) && Ordered(Line(s), s.nextReq))
  {
    RunKeeps(es);
    var s := Run(es);
    assert Balanced(s, []);
    assert Everywhere(s, r) == if r < s.nextReq then 1 else 0;
  }

  /** No callback is ever started while a scope is held or the gate is paused. */
  lemma StartsOnlyWhenOpen(es: seq<Event>, i: nat)
    requires i < |Run(es).started|
    ensures Run(es).started[i].scopes == {} && Run(es).started[i].pause.NoPause?
  {
    RunKeeps(es);
  }

  // ---------------------------------------------------------------- what is lost

  /** A drain of the gate in force ends with failures in hand while the captured context reports
      another session: the failures are neither put back nor cleared. */
  predicate Strays(s: State, e: Event) {
    && e.ReturnEvent? && e.p.Other? && s.frames != []
    && IsCurrent(s, s.frames[|s.frames| - 1].gate)
    && Failures(s.frames[|s.frames| - 1], e.ok) != []
  }

  lemma EndLost(s: State, gate: nat, failed: seq<nat>, p: Probe)
    ensures End(s, gate, failed, p).lost == if IsCurrent(s, gate) && p.Other? then s.lost + multiset(failed) else s.lost
  {
  }

  lemma AdvanceLost(s: State, gate: nat, failed: seq<nat>, p: Probe)
    ensures Advance(s, gate, failed, p).lost == if IsCurrent(s, gate) && p.Other? then s.lost + multiset(failed) else s.lost
  {
    var (m, ok) := Matches(s, gate, p);
    EndLost(m, gate, failed, p);
    hide End;
  }

  lemma DrainLost(s: State, gate: nat, p: Probe)
    ensures Drain(s, gate, p).lost == s.lost
  {
    hide Advance;
    var (m, ok) := Matches(s, gate, p);
    if ok && Open(m.current.value) && !m.current.value.draining {
      AdvanceLost(With(m, m.current.value.(timer := false, draining := true)), gate, [], p);
    }
  }

  lemma NaturalRunLost(s: State, here: Probe, p: Probe)
    ensures NaturalRun(s, here, p).lost == s.lost
  {
    hide Drain;
    if s.current.Some? {
      var gate := s.current.value.id;
      var (m, ok) := Matches(s, gate, here);
      if ok { DrainLost(With(m, m.current.value.(pause := NoPause, resume := false)), gate, p); }
    }
  }

  lemma TimerLost(s: State, idle: bool, p: Probe)
    ensures TimerFires(s, idle, p).lost == s.lost
  {
    hide Drain;
    if s.current.Some? {
      var gate := s.current.value.id;
      DrainLost(Matches(With(s, s.current.value.(timer := false)), gate, p).0, gate, p);
    }
  }

  lemma ReturnLost(s: State, ok: bool, p: Probe)
    requires s.frames != []
    ensures var f := s.frames[|s.frames| - 1];
            Return(s, ok, p).lost == if IsCurrent(s, f.gate) && p.Other? then s.lost + multiset(Failures(f, ok)) else s.lost
  {
    var f := s.frames[|s.frames| - 1];
    AdvanceLost(Popped(s, ok), f.gate, Failures(f, ok), p);
    hide Advance;
    assert Return(s, ok, p) == Advance(Popped(s, ok), f.gate, Failures(f, ok), p);
  }

  lemma StepLost(s: State, e: Event)
    ensures Step(s, e).lost == if Strays(s, e) then s.lost + multiset(Failures(s.frames[|s.frames| - 1], e.ok)) else s.lost
  {
    hide Advance, End, Drain, NaturalRun, TimerFires, Return, Acquire, BeforeCompact, Release, FinishNative, AgentSettled;
    match e
    case DeferEvent(offer, p) =>
    case BeforeAgentEvent(idle, here, p) =>
      if s.current.Some? { NaturalRunLost(Matches(s, s.current.value.id, here).0, here, p); }
    case TurnStartEvent(here, p) => NaturalRunLost(s, here, p);
    case TimerEvent(idle, p) => TimerLost(s, idle, p);
    case ReturnEvent(ok, p) => if s.frames != [] { ReturnLost(s, ok, p); }
    case _ => CalmSteps(s, e);
  }

  lemma StrayLoses(s: State, e: Event)
    requires Strays(s, e)
    ensures Step(s, e).lost != multiset{}
  {
    StepLost(s, e);
    hide Step;
    var failures := Failures(s.frames[|s.frames| - 1], e.ok);
    assert failures[0] in multiset(failures);
  }

  predicate NeverStrays(es: seq<Event>) {
    es == [] || (NeverStrays(es[..|es| - 1]) && !Strays(Run(es[..|es| - 1]), es[|es| - 1]))
  }

  /** A request is lost exactly when some drain strays; with no such step, every accepted request
      is queued, held by a drain, delivered, or dropped by a session clear. */
  lemma {:induction false} NothingLostExactly(es: seq<Event>)
    ensures Run(es).lost == multiset{} <==> NeverStrays(es)
  {
    if es != [] {
      var (before, e) := (es[..|es| - 1], es[|es| - 1]);
      NothingLostExactly(before);
      StepLost(Run(before), e);
      if Strays(Run(before), e) { StrayLoses(Run(before), e); }
      hide Step, Strays;
    }
  }

  // ---------------------------------------------------------------- a drain nobody interrupts

  function FailedOf(q: seq<nat>, oks: seq<bool>): seq<nat>
    requires |oks| == |q|
  {
    if q == [] then [] else (if oks[0] then [] else [q[0]]) + FailedOf(q[1..], oks[1..])
  }

  function SentOf(q: seq<nat>, oks: seq<bool>): seq<nat>
    requires |oks| == |q|
  {
    if q == [] then [] else (if oks[0] then [q[0]] else []) + SentOf(q[1..], oks[1..])
  }

  function Started(q: seq<nat>): seq<Start> {
    seq(|q|, i requires 0 <= i < |q| => Start(q[i], {}, NoPause))
  }

  /** The callbacks of a drain answer one after the other, with no other event between. */
  function Replies(s: State, oks: seq<bool>): State
    decreases |oks|
  {
    if oks == [] || s.frames == [] then s else Replies(Return(s, oks[0], Same), oks[1..])
  }

  /** The state in which a drain has tried all it can. */
  function Tried(s: State, oks: seq<bool>): State
    requires s.current.Some? && |oks| == |s.current.value.queue|
  {
    var q := s.current.value.queue;
    With(s, s.current.value.(queue := [])).(delivered := s.delivered + multiset(SentOf(q, oks)), started := s.started + Started(q))
  }

  /** The state after the first queued request was tried. */
  function TriedOne(s: State, ok: bool): State
    requires s.current.Some? && s.current.value.queue != []
  {
    var g := s.current.value;
    var r := g.queue[0];
    With(s, g.(queue := g.queue[1..])).(started := s.started + [Start(r, {}, NoPause)],
                                        delivered := if ok then s.delivered + multiset{r} else s.delivered)
  }

  lemma SentMore(d: multiset<nat>, q: seq<nat>, oks: seq<bool>)
    requires |oks| == |q| && q != []
    ensures (if oks[0] then d + multiset{q[0]} else d) + multiset(SentOf(q[1..], oks[1..])) == d + multiset(SentOf(q, oks))
  {
    var more := SentOf(q[1..], oks[1..]);
    if oks[0] { assert multiset([q[0]] + more) == multiset{q[0]} + multiset(more); }
    else { assert SentOf(q, oks) == more; }
  }

  lemma TriedAll(s: State, oks: seq<bool>)
    requires s.current.Some? && |oks| == |s.current.value.queue| && oks != []
    ensures Tried(TriedOne(s, oks[0]), oks[1..]) == Tried(s, oks)
  {
    var q := s.current.value.queue;
    SentMore(s.delivered, q, oks);
    hide FailedOf, SentOf;
    assert s.started + [Start(q[0], {}, NoPause)] + Started(q[1..]) == s.started + Started(q);
  }

  lemma FailedMore(failed: seq<nat>, q: seq<nat>, oks: seq<bool>)
    requires |oks| == |q| && q != []
    ensures (if oks[0] then failed else failed + [q[0]]) + FailedOf(q[1..], oks[1..]) == failed + FailedOf(q, oks)
  {
  }

  lemma QuietEnd(s: State, gate: nat, failed: seq<nat>, oks: seq<bool>)
    requires IsCurrent(s, gate) && s.current.value.queue == [] && oks == []
    ensures Advance(s, gate, failed, Same) == End(Tried(s, oks), gate, failed + FailedOf([], oks), Same)
  {
    hide End;
    assert Tried(s, oks) == s by { assert s.started + Started([]) == s.started; }
    assert failed + [] == failed;
  }

  lemma {:induction false} QuietDrain(s: State, gate: nat, failed: seq<nat>, oks: seq<bool>)
    requires IsCurrent(s, gate) && Open(s.current.value) && |oks| == |s.current.value.queue|
    ensures Replies(Advance(s, gate, failed, Same), oks) == End(Tried(s, oks), gate, failed + FailedOf(s.current.value.queue, oks), Same)
    decreases |oks|
  {
    hide Advance, End, Tried, Return;
    var q := s.current.value.queue;
    if q == [] {
      QuietEnd(s, gate, failed, oks);
    } else {
      var kept := if oks[0] then failed else failed + [q[0]];
      var next := TriedOne(s, oks[0]);
      QuietStep(s, gate, failed, oks[0], kept);
      QuietDrain(next, gate, kept, oks[1..]);
      TriedAll(s, oks);
      FailedMore(failed, q, oks);
      hide TriedOne, FailedOf;
      assert Replies(Advance(s, gate, failed, Same), oks) == Replies(Advance(next, gate, kept, Same), oks[1..]);
    }
  }

  /** One callback of a quiet drain. */
  lemma QuietStep(s: State, gate: nat, failed: seq<nat>, ok: bool, kept: seq<nat>)
    requires IsCurrent(s, gate) && Open(s.current.value) && s.current.value.queue != []
    requires kept == if ok then failed else failed + [s.current.value.queue[0]]
    ensures var a := Advance(s, gate, failed, Same);
            a.frames != [] && Return(a, ok, Same) == Advance(TriedOne(s, ok), gate, kept, Same)
  {
    var a := Advance(s, gate, failed, Same);
    assert a.frames == s.frames + [Frame(gate, failed, s.current.value.queue[0])];
    assert a.frames[..|a.frames| - 1] == s.frames;
    assert Popped(a, ok) == TriedOne(s, ok);
    hide Advance;
  }

  lemma {:induction false} SentOrFailed(q: seq<nat>, oks: seq<bool>, r: nat)
    requires |oks| == |q|
    ensures multiset(q)[r] == multiset(FailedOf(q, oks))[r] + multiset(SentOf(q, oks))[r]
  {
    if q != [] {
      SentOrFailed(q[1..], oks[1..], r);
      assert q == [q[0]] + q[1..];
      assert multiset(q)[r] == multiset([q[0]])[r] + multiset(q[1..])[r];
    }
  }

  /** A drain that nothing interrupts tries every queued request once, in arrival order, delivers
      all whose callback succeeds, and leaves exactly the failed ones, in order: a failing sender
      never keeps a healthy one waiting. With none left the gate is gone. */
  lemma UninterruptedDrain(s: State, oks: seq<bool>)
    requires s.current.Some? && Open(s.current.value) && !s.current.value.draining && |oks| == |s.current.value.queue|
    ensures var (g, q) := (s.current.value, s.current.value.queue);
            var (s', left) := (Replies(Drain(s, g.id, Same), oks), FailedOf(q, oks));
            && s'.frames == s.frames && s'.started == s.started + Started(q)
            && s'.delivered == s.delivered + multiset(SentOf(q, oks)) && s'.dropped == s.dropped && s'.lost == s.lost
            && (left == [] ==> s'.current.None?)
            && (left != [] ==> s'.current == Some(g.(queue := left, pause := DeliveryError, timer := false)))
  {
    hide Advance, Replies, End, FailedOf, SentOf, Started;
    var g := s.current.value;
    var s1 := With(s, g.(timer := false, draining := true));
    QuietDrain(s1, g.id, [], oks);
    var left := FailedOf(g.queue, oks);
    assert [] + left == left;
    DrainEnters(s);
    hide Drain;
    QuietEndIs(Tried(s1, oks), left);
  }

  /** The end of a drain that emptied the queue. */
  lemma QuietEndIs(t: State, left: seq<nat>)
    requires t.current.Some? && Open(t.current.value) && t.current.value.queue == []
    ensures var (g, s') := (t.current.value, End(t, t.current.value.id, left, Same));
            && s'.frames == t.frames && s'.started == t.started && s'.delivered == t.delivered && s'.dropped == t.dropped
            && s'.lost == t.lost && (left == [] ==> s'.current.None?)
            && (left != [] ==> s'.current == Some(g.(queue := left, pause := DeliveryError, draining := false)))
  {
    assert left + [] == left;
  }

  // ---------------------------------------------------------------- a concrete run

  lemma Unroll(es: seq<Event>, e: Event)
    ensures Run(es + [e]) == Step(Run(es), e)
  {
    assert (es + [e])[..|es + [e]| - 1] == es;
  }

  /** The example's states. */
  const TAKEN := State(Some(GateState(0, "a", {0}, [], NoPause, false, false, false, None)), [], 1, 0, 1, multiset{}, multiset{}, multiset{}, [])
  const HOLDING := State(Some(GateState(0, "a", {0}, [0], NoPause, false, false, false, None)), [], 1, 1, 1, multiset{}, multiset{}, multiset{}, [])
  const ARMED := State(Some(GateState(0, "a", {}, [0], NoPause, false, true, false, None)), [], 1, 1, 1, multiset{}, multiset{}, multiset{}, [])
  const CALLING := State(Some(GateState(0, "a", {}, [], NoPause, true, false, false, None)), [Frame(0, [], 0)], 1, 1, 1,
                         multiset{}, multiset{}, multiset{}, [Start(0, {}, NoPause)])

  lemma LossTaken()
    ensures Acquire(EMPTY, "a", Same).0 == TAKEN
  {
    var none: set<nat> := {};
    assert none + {0} == {0};
  }

  lemma LossHolding()
    ensures Defer(TAKEN, Offer(1, "a", false, true), Same).0 == HOLDING
  {
    var empty: seq<nat> := [];
    assert empty + [0] == [0];
  }

  lemma LossArmed()
    ensures Release(HOLDING, 0, 0, Same) == ARMED
  {
    var none: set<nat> := {};
    assert {0} - {0} == none;
  }

  lemma LossDrain()
    ensures TimerFires(ARMED, true, Same) == CALLING
  {
    var s := With(ARMED, ARMED.current.value.(timer := false));
    assert TimerFires(ARMED, true, Same) == Drain(s, 0, Same) by { hide Drain; }
    assert Drain(s, 0, Same) == Advance(With(s, s.current.value.(draining := true)), 0, [], Same) by { hide Advance; }
    var empty: seq<nat>, nobody: seq<Frame>, unstarted: seq<Start> := [], [], [];
    assert [0 as nat][1..] == empty && nobody + [Frame(0, [], 0)] == [Frame(0, [], 0)]
      && unstarted + [Start(0, {}, NoPause)] == [Start(0, {}, NoPause)];
  }

  lemma LossAfter()
    ensures var s := Return(CALLING, false, Other);
            s.lost == multiset{0} && s.current.Some? && s.current.value.queue == []
  {
    var popped := CALLING.(frames := CALLING.frames[..0]);
    var empty: seq<nat> := [];
    assert empty + [0] == [0];
    assert Return(CALLING, false, Other) == Advance(popped, 0, [0], Other) by { hide Advance; }
    AdvanceLost(popped, 0, [0], Other);
  }

  /** One request fails, and the drain ends while the captured context reports another session. */
  lemma LossExample()
    ensures var es := [AcquireEvent("a", Same), DeferEvent(Offer(1, "a", false, true), Same), ReleaseEvent(0, 0, Same),
                       TimerEvent(true, Same), ReturnEvent(false, Other)];
            Run(es).lost == multiset{0} && Run(es).current.Some? && Run(es).current.value.queue == []
  {
    hide Acquire, Defer, Release, TimerFires, Return;
    var a, d, r := AcquireEvent("a", Same), DeferEvent(Offer(1, "a", false, true), Same), ReleaseEvent(0, 0, Same);
    var t, f := TimerEvent(true, Same), ReturnEvent(false, Other);
    LossTaken();
    LossHolding();
    LossArmed();
    LossDrain();
    LossAfter();
    Unroll([], a);
    Unroll([a], d);
    Unroll([a, d], r);
    Unroll([a, d, r], t);
    Unroll([a, d, r, t], f);
    assert [] + [a] == [a] && [a] + [d] == [a, d] && [a, d] + [r] == [a, d, r] && [a, d, r] + [t] == [a, d, r, t];
    assert [a, d, r, t] + [f] == [a, d, r, t, f];
    assert Run([a]) == TAKEN;
    assert Run([a, d]) == HOLDING;
    assert Run([a, d, r]) == ARMED;
    assert Run([a, d, r, t]) == CALLING;
  }
}
