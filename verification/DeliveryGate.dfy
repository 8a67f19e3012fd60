/** The delivery gate as the program keeps it, updated in place. */
module DeliveryGate {
  // Gate objects, with the drains whose callbacks are running on a stack. Every method refines its
  // step on the gate's value.

  import opened Wrappers
  import opened Delivery

  class Gate {
    ghost const id: nat
    const session: string
    var scopes: set<nat>
    var queue: seq<nat>
    var pause: Pause
    var draining: bool
    var timer: bool
    var resume: bool
    var native: Option<nat>

    constructor (ghost id: nat, session: string)
      ensures this.id == id && this.session == session
      ensures View() == GateState(id, session, {}, [], NoPause, false, false, false, None)
    {
      this.id, this.session := id, session;
      scopes, queue, pause, draining, timer, resume, native := {}, [], NoPause, false, false, false, None;
    }

    ghost function View(): GateState
      reads this
    {
      GateState(id, session, scopes, queue, pause, draining, timer, resume, native)
    }
  }

  /** A drain on the stack, by its gate object. */
  datatype Running = Running(gate: Gate, failed: seq<nat>, req: nat)

  ghost function Frames(rs: seq<Running>): seq<Frame> {
    seq(|rs|, i requires 0 <= i < |rs| => Frame(rs[i].gate.id, rs[i].failed, rs[i].req))
  }

  class Inbox {
    var current: Gate?
    var stack: seq<Running>
    var nextReq: nat
    var nextToken: nat
    ghost var gates: seq<Gate>
    ghost var delivered: multiset<nat>
    ghost var dropped: multiset<nat>
    ghost var lost: multiset<nat>
    ghost var started: seq<Start>

    /** Every gate object ever made stands at its own number, so a number names one object. */
    ghost predicate Valid()
      reads this, gates
    {
      && (forall i | 0 <= i < |gates| :: gates[i].id == i)
      && (current != null ==> current in gates)
      && (forall f | f in stack :: f.gate in gates)
    }

    ghost function View(): State
      reads this, current
    {
      State(if current == null then None else Some(current.View()), Frames(stack), |gates|, nextReq, nextToken,
            delivered, dropped, lost, started)
    }

    constructor ()
      ensures Valid() && View() == EMPTY
    {
      current, stack, nextReq, nextToken := null, [], 0, 0;
      gates, delivered, dropped, lost, started := [], multiset{}, multiset{}, multiset{}, [];
    }

    lemma NamesOne(g: Gate)
      requires Valid() && g in gates && current != null
      ensures g.id == current.id <==> g == current
    {
    }

    method ClearGate()
      requires Valid()
      modifies this`current, this`dropped
      ensures Valid() && View() == Clear(old(View()))
    {
      if current != null { dropped := dropped + multiset(current.queue); }
      current := null;
    }

    method IsFor(gate: Gate, p: Probe) returns (ok: bool)
      requires Valid() && gate in gates
      modifies this`current, this`dropped
      ensures Valid() && (View(), ok) == Matches(old(View()), gate.id, p)
      ensures if ok then current == gate == old(current) else current == null || current == old(current)
    {
      if current != null { NamesOne(gate); }
      if current != gate { return false; }
      match p
      case Same => ok := true;
      case Other => ok := false;
      case Gone => ClearGate(); ok := false;
    }

    method Requeue(failed: seq<nat>)
      requires Valid() && current != null
      modifies this`current, this`dropped, current
      ensures Valid() && View() == PutBack(old(View()), failed)
    {
      var gate := current;
      gate.queue := failed + gate.queue;
      if failed != [] && gate.scopes == {} && gate.pause.NoPause? { gate.pause := DeliveryError; }
      if gate.scopes == {} && gate.queue == [] && gate.pause.NoPause? { ClearGate(); }
    }

    method EndDrain(gate: Gate, failed: seq<nat>, p: Probe)
      requires Valid() && gate in gates
      modifies this, gate
      ensures Valid() && gates == old(gates) && stack == old(stack) && View() == End(old(View()), gate.id, failed, p)
    {
      hide PutBack, Matches;
      if current != null { NamesOne(gate); }
      gate.draining := false;
      assert View() == Quieted(old(View()), gate.id);
      hide Quieted;
      var ok := IsFor(gate, p);
      if ok {
        Requeue(failed);
      } else if current == gate {
        lost := lost + multiset(failed);
      } else {
        dropped := dropped + multiset(failed);
      }
    }

    /** The loop of a drain, up to the next callback. */
    method GoOn(gate: Gate, failed: seq<nat>, p: Probe)
      requires Valid() && gate in gates
      modifies this, gate
      ensures Valid() && gates == old(gates) && View() == Advance(old(View()), gate.id, failed, p)
    {
      hide End, Matches;
      var ok := IsFor(gate, p);
      if ok && gate.queue != [] && gate.scopes == {} && gate.pause.NoPause? {
        var r := gate.queue[0];
        gate.queue := gate.queue[1..];
        stack := stack + [Running(gate, failed, r)];
        started := started + [Start(r, gate.scopes, gate.pause)];
      } else {
        EndDrain(gate, failed, p);
      }
    }

    method DrainGate(gate: Gate, p: Probe)
      requires Valid() && gate in gates
      modifies this, gate
      ensures Valid() && gates == old(gates) && View() == Drain(old(View()), gate.id, p)
    {
      var ok := IsFor(gate, p);
      if !ok || gate.scopes != {} || !gate.pause.NoPause? || gate.draining { return; }
      gate.timer, gate.draining := false, true;
      GoOn(gate, [], p);
    }

    /** The callback on top of the stack returned, or threw. */
    method CallbackDone(ok: bool, p: Probe)
      requires Valid() && stack != []
      modifies this, stack[|stack| - 1].gate
      ensures Valid() && gates == old(gates) && View() == Return(old(View()), ok, p)
    {
      hide Advance;
      var top := stack[|stack| - 1];
      assert Frames(stack[..|stack| - 1]) == Frames(stack)[..|stack| - 1];
      stack := stack[..|stack| - 1];
      if ok {
        delivered := delivered + multiset{top.req};
        GoOn(top.gate, top.failed, p);
      } else {
        GoOn(top.gate, top.failed + [top.req], p);
      }
    }

    method StartIdleCheck(gate: Gate, p: Probe)
      requires Valid() && gate in gates
      modifies this, gate
      ensures Valid() && gates == old(gates) && View() == CheckIdle(old(View()), gate.id, p)
    {
      var ok := IsFor(gate, p);
      if !ok || gate.scopes != {} || !gate.pause.NoPause? || gate.timer { return; }
      gate.timer := true;
    }

    method EnsureGate(session: string) returns (made: bool)
      requires Valid()
      modifies this`current, this`dropped, this`gates
      ensures Valid() && current != null && old(gates) <= gates && fresh(set g | g in gates && g !in old(gates))
      ensures current == old(current) || fresh(current)
      ensures (View(), made) == GateFor(old(View()), session)
    {
      if current != null && current.session != session { ClearGate(); }
      made := current == null;
      ghost var t := View();
      assert t == if old(View()).current.Some? && old(View()).current.value.session != session then Clear(old(View())) else old(View());
      hide Clear;
      if made {
        current := new Gate(|gates|, session);
        gates := gates + [current];
        assert View() == With(t, FreshGate(t, session)).(nextGate := t.nextGate + 1);
      }
    }

    method AcquireScope(session: string, p: Probe) returns (gate: Gate, token: nat)
      requires Valid()
      modifies this, current
      ensures Valid() && gate in gates && old(gates) <= gates && fresh(set g | g in gates && g !in old(gates))
      ensures (View(), gate.id, token) == Acquire(old(View()), session, p)
    {
      hide Matches, GateFor;
      var made := EnsureGate(session);
      gate := current;
      token := nextToken;
      ghost var t := View();
      nextToken := nextToken + 1;
      gate.scopes := gate.scopes + {token};
      gate.timer := false;
      assert View() == Scoped(t);
      hide Scoped, With;
      if !made {
        var _ := IsFor(gate, p);
      }
    }

    method SessionBeforeCompact(session: string, p: Probe)
      requires Valid()
      modifies this, current
      ensures Valid() && View() == BeforeCompact(old(View()), session, p)
    {
      var gate, token := AcquireScope(session, p);
      if current != null { NamesOne(gate); }
      gate.native := Some(token);
    }

    method ReleaseScope(gate: Gate, token: nat, p: Probe)
      requires Valid() && gate in gates
      modifies this, gate
      ensures Valid() && gates == old(gates) && View() == Release(old(View()), gate.id, token, p)
    {
      var ok := IsFor(gate, p);
      if !ok || token !in gate.scopes { return; }
      gate.scopes := gate.scopes - {token};
      StartIdleCheck(gate, p);
    }

    method Pause(gate: Gate, p: Probe)
      requires Valid() && gate in gates
      modifies this, gate
      ensures Valid() && gates == old(gates) && View() == PauseCancelled(old(View()), gate.id, p)
      ensures current == null || current == old(current)
    {
      var ok := IsFor(gate, p);
      if ok { gate.pause := CancelledPause; }
    }

    method SessionCompacted(aborted: bool, here: Probe, p: Probe)
      requires Valid()
      modifies this, current
      ensures Valid() && View() == FinishNative(old(View()), aborted, here, p)
    {
      if current == null { return; }
      var gate := current;
      var ok := IsFor(gate, here);
      if !ok { return; }
      if aborted { Pause(gate, p); } else { gate.pause := NoPause; }
      if current == null { return; }
      FreeNative(p);
    }

    method FreeNative(p: Probe)
      requires Valid() && current != null
      modifies this, current
      ensures Valid() && View() == ReleaseNative(old(View()), p)
    {
      var gate := current;
      var native := gate.native;
      gate.native := None;
      if native.Some? { ReleaseScope(gate, native.value, p); }
    }

    method RunNaturally(here: Probe, p: Probe)
      requires Valid()
      modifies this, current
      ensures Valid() && View() == NaturalRun(old(View()), here, p)
    {
      if current == null { return; }
      var gate := current;
      var ok := IsFor(gate, here);
      if !ok || gate.draining { return; }
      gate.pause, gate.resume := NoPause, false;
      DrainGate(gate, p);
    }

    method OnBeforeAgentStart(idle: bool, here: Probe, p: Probe)
      requires Valid()
      modifies this, current
      ensures Valid() && View() == BeforeAgentStart(old(View()), idle, here, p)
    {
      if current == null { return; }
      var gate := current;
      var ok := IsFor(gate, here);
      if ok && !gate.draining && idle { gate.resume := true; return; }
      RunNaturally(here, p);
    }

    method OnTurnStart(here: Probe, p: Probe)
      requires Valid()
      modifies this, current
      ensures Valid() && View() == TurnStart(old(View()), here, p)
    {
      if current == null || !current.pause.DeliveryError? || current.resume { RunNaturally(here, p); }
    }

    method OnAgentSettled(here: Probe, p: Probe)
      requires Valid()
      modifies this, current
      ensures Valid() && View() == AgentSettled(old(View()), here, p)
    {
      if current == null { return; }
      var gate := current;
      var ok := IsFor(gate, here);
      if ok { StartIdleCheck(gate, p); }
    }

    method OnTimer(idle: bool, p: Probe)
      requires Valid() && current != null && current.timer
      modifies this, current
      ensures Valid() && View() == TimerFires(old(View()), idle, p)
    {
      hide Drain, CheckIdle, Matches;
      var gate := current;
      gate.timer := false;
      var ok := IsFor(gate, p);
      if !ok || gate.scopes != {} || !gate.pause.NoPause? { return; }
      if idle { DrainGate(gate, p); } else { StartIdleCheck(gate, p); }
    }

    method OnDefer(o: Offer, p: Probe) returns (accepted: bool)
      requires Valid()
      modifies this, current
      ensures Valid() && (View(), accepted) == Defer(old(View()), o, p)
    {
      if current == null || o.version != 1 || o.deferred || o.session != current.session || !o.callable { return false; }
      var gate := current;
      var ok := IsFor(gate, p);
      if !ok { return false; }
      if gate.scopes == {} && gate.pause.DeliveryError? { return false; }
      gate.queue := gate.queue + [nextReq];
      nextReq := nextReq + 1;
      accepted := true;
    }

    /** One callback of the loop, which touches nothing. */
    method TryFirst(gate: Gate, succeeds: nat -> bool) returns (ok: bool)
      requires Valid() && current == gate && gate.scopes == {} && gate.pause.NoPause? && gate.queue != []
      modifies this`delivered, this`started, gate`queue
      ensures ok == succeeds(old(gate.queue[0])) && gate.queue == old(gate.queue)[1..]
      ensures View() == TriedOne(old(View()), ok)
    {
      hide Frames;
      var r := gate.queue[0];
      gate.queue := gate.queue[1..];
      started := started + [Start(r, gate.scopes, gate.pause)];
      ok := succeeds(r);
      if ok { delivered := delivered + multiset{r}; }
    }

    /** The loop of a drain whose callbacks touch nothing. */
    method TryAll(gate: Gate, succeeds: nat -> bool) returns (failed: seq<nat>)
      requires Valid() && current == gate && gate.scopes == {} && gate.pause.NoPause?
      modifies this`delivered, this`started, gate`queue
      ensures failed == FailedOf(old(gate.queue), Answers(old(gate.queue), succeeds))
      ensures View() == Tried(old(View()), Answers(old(gate.queue), succeeds))
    {
      ghost var before, q := View(), gate.queue;
      failed := [];
      assert [] + FailedOf(q, Answers(q, succeeds)) == FailedOf(q, Answers(q, succeeds));
      hide Tried, TriedOne, FailedOf, Answers, Frames;
      while gate.queue != []
        invariant Valid() && current == gate && gate.scopes == {} && gate.pause.NoPause? && View().current == Some(gate.View())
        invariant failed + FailedOf(gate.queue, Answers(gate.queue, succeeds)) == FailedOf(q, Answers(q, succeeds))
        invariant Tried(View(), Answers(gate.queue, succeeds)) == Tried(before, Answers(q, succeeds))
        decreases |gate.queue|
      {
        ghost var v, oks, tried := View(), Answers(gate.queue, succeeds), failed;
        var r := gate.queue[0];
        AnswersFirst(gate.queue, succeeds);
        var ok := TryFirst(gate, succeeds);
        if !ok { failed := failed + [r]; }
        TryStep(v, oks, View(), gate.queue, succeeds, tried);
      }
      NothingLeft(View(), succeeds, failed);
    }

    /** A drain nobody interrupts, as the program's loop runs it: every queued request is tried
        once, and what is left is what the events of the same drain leave. */
    method DrainAlone(gate: Gate, succeeds: nat -> bool) returns (failed: seq<nat>)
      requires Valid() && current == gate && gate.scopes == {} && gate.pause.NoPause? && !gate.draining
      modifies this, gate
      ensures failed == FailedOf(old(gate.queue), Answers(old(gate.queue), succeeds))
      ensures View() == Replies(Drain(old(View()), gate.id, Same), Answers(old(gate.queue), succeeds))
    {
      ghost var before, q := View(), gate.queue;
      hide Advance, Replies, Tried, FailedOf, Drain, End;
      DrainEnters(before);
      gate.timer, gate.draining := false, true;
      QuietDrain(View(), gate.id, [], Answers(q, succeeds));
      failed := TryAll(gate, succeeds);
      assert [] + failed == failed;
      EndDrain(gate, failed, Same);
    }
  }

  lemma AnswersFirst(q: seq<nat>, succeeds: nat -> bool)
    requires q != []
    ensures Answers(q, succeeds)[0] == succeeds(q[0])
  {
  }

  lemma TryStep(v: State, oks: seq<bool>, w: State, rest: seq<nat>, succeeds: nat -> bool, failed: seq<nat>)
    requires v.current.Some? && v.current.value.queue != [] && oks == Answers(v.current.value.queue, succeeds)
    requires w == TriedOne(v, oks[0]) && rest == v.current.value.queue[1..]
    ensures Tried(w, Answers(rest, succeeds)) == Tried(v, oks)
    ensures (if oks[0] then failed else failed + [v.current.value.queue[0]]) + FailedOf(rest, Answers(rest, succeeds))
            == failed + FailedOf(v.current.value.queue, oks)
  {
    assert oks[1..] == Answers(rest, succeeds);
    TriedAll(v, oks);
    hide Tried;
  }

  lemma NothingLeft(v: State, succeeds: nat -> bool, failed: seq<nat>)
    requires v.current.Some? && v.current.value.queue == []
    ensures Tried(v, Answers([], succeeds)) == v && failed + FailedOf([], Answers([], succeeds)) == failed
  {
    assert Answers([], succeeds) == [];
    assert v.started + Started([]) == v.started;
    assert failed + [] == failed;
  }

  function Answers(q: seq<nat>, succeeds: nat -> bool): (oks: seq<bool>)
    ensures |oks| == |q|
  {
    seq(|q|, i requires 0 <= i < |q| => succeeds(q[i]))
  }
}
