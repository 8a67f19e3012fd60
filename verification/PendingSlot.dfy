/** The session-scoped store of prepared summaries. */
module PendingSlot {
  // A timestamped map in insertion order with a time to live, a bound on its size, and one reader
  // per payload.

  import opened Wrappers

  /** A prepared summary; the serial tells two summaries of one session apart. */
  datatype Payload = Payload(session: string, serial: nat)

  datatype Entry = Entry(value: Payload, createdAt: int)

  /** The limits in force at a call: time to live, ceiling, and whether a probe exists. */
  datatype Limits = Limits(ttl: int, cap: int, probed: bool)

  datatype Consumed =
    | Served(pending: Payload)
    | Empty
    | Expired(age: int)
    | Mismatch(expected: string, actual: string)

  // ---------------------------------------------------------------- the ordered map

  function Find(es: seq<Entry>, session: string): Option<Entry> {
    if es == [] then None
    else if es[0].value.session == session then Some(es[0]) else Find(es[1..], session)
  }

  function Delete(es: seq<Entry>, session: string): seq<Entry> {
    if es == [] then []
    else (if es[0].value.session == session then [] else [es[0]]) + Delete(es[1..], session)
  }

  predicate Retained(e: Entry, now: int, l: Limits) {
    var age := now - e.createdAt;
    age <= l.ttl || (l.cap > 0 && l.probed && age <= l.cap)
  }

  function Prune(es: seq<Entry>, now: int, l: Limits): seq<Entry> {
    if es == [] then []
    else (if Retained(es[0], now, l) then [es[0]] else []) + Prune(es[1..], now, l)
  }

  function Newest(es: seq<Entry>): Option<string> {
    if es == [] then None else Some(es[|es| - 1].value.session)
  }

  /** The entries left when the oldest give way to the bound. */
  function Bounded(es: seq<Entry>, max: nat): seq<Entry> {
    if |es| <= max then es else es[|es| - max..]
  }

  function Put(es: seq<Entry>, p: Payload, now: int, l: Limits, max: nat): seq<Entry> {
    Bounded(Delete(Prune(es, now, l), p.session) + [Entry(p, now)], max)
  }

  /** May a payload of this age be served: within the time to live, or under the ceiling with
      the probe's certificate. */
  predicate Servable(e: Entry, now: int, l: Limits, certified: bool) {
    now - e.createdAt <= l.ttl || (l.cap > 0 && now - e.createdAt <= l.cap && l.probed && certified)
  }

  function Take(es: seq<Entry>, session: string, now: int, l: Limits, certified: bool): (seq<Entry>, Consumed) {
    match Find(es, session)
    case Some(e) =>
      if Servable(e, now, l, certified) then (Delete(es, session), Served(e.value))
      else (Prune(Delete(es, session), now, l), Expired(now - e.createdAt))
    case None =>
      var left := Prune(es, now, l);
      (left, if left == [] then Empty else Mismatch(Newest(left).value, session))
  }

  /** One entry per session. */
  predicate Keyed(es: seq<Entry>) {
    forall i, j | 0 <= i < j < |es| :: es[i].value.session != es[j].value.session
  }

  lemma {:induction false} FindIs(es: seq<Entry>, session: string)
    ensures Find(es, session).Some? ==> Find(es, session).value in es && Find(es, session).value.value.session == session
    ensures Find(es, session).None? ==> forall e | e in es :: e.value.session != session
  {
    if es != [] {
      FindIs(es[1..], session);
    }
  }

  /** Deleting keeps every other entry, in order. */
  lemma {:induction false} DeleteIs(es: seq<Entry>, session: string)
    requires Keyed(es)
    ensures Keyed(Delete(es, session)) && |Delete(es, session)| <= |es|
    ensures forall e :: e in Delete(es, session) <==> e in es && e.value.session != session
    ensures Newest(es).Some? && Newest(es) != Some(session) ==> Newest(Delete(es, session)) == Newest(es)
  {
    if es != [] {
      DeleteIs(es[1..], session);
      var rest := Delete(es[1..], session);
      forall i | 0 <= i < |rest| ensures rest[i].value.session != es[0].value.session {
        assert rest[i] in es[1..];
      }
      if |es| > 1 {
        assert Newest(es[1..]) == Newest(es);
      }
    }
  }

  lemma {:induction false} PruneIs(es: seq<Entry>, now: int, l: Limits)
    requires Keyed(es)
    ensures Keyed(Prune(es, now, l)) && |Prune(es, now, l)| <= |es|
    ensures forall e :: e in Prune(es, now, l) <==> e in es && Retained(e, now, l)
    ensures es != [] && Retained(es[|es| - 1], now, l) ==> Newest(Prune(es, now, l)) == Newest(es)
  {
    if es != [] {
      PruneIs(es[1..], now, l);
      var rest := Prune(es[1..], now, l);
      forall i | 0 <= i < |rest| ensures rest[i].value.session != es[0].value.session {
        assert rest[i] in es[1..];
      }
    }
  }

  lemma AppendKeyed(es: seq<Entry>, e: Entry)
    requires Keyed(es) && forall x | x in es :: x.value.session != e.value.session
    ensures Keyed(es + [e])
  {
    forall i | 0 <= i < |es| ensures es[i].value.session != e.value.session {
      assert es[i] in es;
    }
  }

  lemma BoundedIs(es: seq<Entry>, max: nat)
    requires Keyed(es) && max >= 1
    ensures var r := Bounded(es, max);
            Keyed(r) && |r| <= max && Newest(r) == Newest(es) && forall e | e in r :: e in es
  {
    var r := Bounded(es, max);
    var d := |es| - |r|;
    assert forall i | 0 <= i < |r| :: r[i] == es[i + d];
  }

  lemma PutIs(es: seq<Entry>, p: Payload, now: int, l: Limits, max: nat)
    requires Keyed(es) && max >= 1
    ensures var r := Put(es, p, now, l, max);
            && Keyed(r) && |r| <= max && Newest(r) == Some(p.session)
            && forall e | e in r :: e == Entry(p, now) || e in es
  {
    var pruned := Prune(es, now, l);
    PruneIs(es, now, l);
    DeleteIs(pruned, p.session);
    AppendKeyed(Delete(pruned, p.session), Entry(p, now));
    BoundedIs(Delete(pruned, p.session) + [Entry(p, now)], max);
  }

  lemma PruneNext(es: seq<Entry>, i: nat, now: int, l: Limits)
    requires i < |es|
    ensures Prune(es[i..], now, l) == (if Retained(es[i], now, l) then [es[i]] else []) + Prune(es[i + 1..], now, l)
  {
    assert es[i..][1..] == es[i + 1..];
  }

  /** The newest entry is the last one, and the only one of its session. */
  lemma NewestIsLast(es: seq<Entry>, i: nat)
    requires Keyed(es) && i < |es|
    ensures Newest(es) == Some(es[i].value.session) <==> i == |es| - 1
  {
  }

  /** The entries that stay, and whether the newest one went. */
  method KeepRetained(es: seq<Entry>, newest: Option<string>, now: int, l: Limits) returns (kept: seq<Entry>, removedNewest: bool)
    requires Keyed(es) && newest == Newest(es)
    ensures kept == Prune(es, now, l)
    ensures removedNewest <==> es != [] && !Retained(es[|es| - 1], now, l)
  {
    var extended := l.cap > 0 && l.probed;
    kept, removedNewest := [], false;
    for i := 0 to |es|
      invariant kept + Prune(es[i..], now, l) == Prune(es, now, l)
      invariant removedNewest <==> i == |es| && i > 0 && !Retained(es[i - 1], now, l)
    {
      var age := now - es[i].createdAt;
      PruneNext(es, i, now, l);
      NewestIsLast(es, i);
      hide Prune, Newest, Keyed;
      if age <= l.ttl || (extended && age <= l.cap) {
        kept := kept + [es[i]];
      } else if newest == Some(es[i].value.session) {
        removedNewest := true;
      }
    }
  }

  // ---------------------------------------------------------------- the slot as the program keeps it

  class Slot {
    const max: nat
    var entries: seq<Entry>
    var newest: Option<string>

    /** `newest` always names the last surviving insertion. */
    predicate Valid()
      reads this
    {
      max >= 1 && Keyed(entries) && |entries| <= max && newest == Newest(entries)
    }

    constructor (maxEntries: int)
      ensures Valid() && entries == [] && max == if maxEntries >= 1 then maxEntries else 1
    {
      max := if maxEntries >= 1 then maxEntries else 1;
      entries, newest := [], None;
    }

    method RefreshNewest()
      modifies this`newest
      ensures newest == Newest(entries)
    {
      newest := None;
      for i := 0 to |entries|
        invariant newest == Newest(entries[..i])
      {
        newest := Some(entries[i].value.session);
        assert entries[..i + 1][i] == entries[i];
      }
      assert entries[..|entries|] == entries;
    }

    method DeleteEntry(session: string)
      requires Valid()
      modifies this
      ensures Valid() && entries == Delete(old(entries), session)
    {
      DeleteIs(entries, session);
      FindIs(entries, session);
      var found := Find(entries, session).Some?;
      entries := Delete(entries, session);
      if found && newest == Some(session) { RefreshNewest(); }
    }

    method PruneEntries(now: int, l: Limits)
      requires Valid()
      modifies this
      ensures Valid() && entries == Prune(old(entries), now, l)
    {
      PruneIs(entries, now, l);
      var kept, removedNewest := KeepRetained(entries, newest, now, l);
      entries := kept;
      if removedNewest { RefreshNewest(); }
    }

    method Set(p: Payload, now: int, l: Limits)
      requires Valid()
      modifies this
      ensures Valid() && entries == Put(old(entries), p, now, l, max)
    {
      hide Prune, Delete, Keyed, Newest, Find;
      PutIs(entries, p, now, l, max);
      PruneEntries(now, l);
      entries := Delete(entries, p.session);
      entries := entries + [Entry(p, now)];
      newest := Some(p.session);
      ghost var all := entries;
      while |entries| > max
        invariant newest == Some(p.session) && Bounded(entries, max) == Bounded(all, max)
      {
        entries := entries[1..];
      }
    }

    method Consume(session: string, now: int, l: Limits, certified: bool) returns (r: Consumed)
      requires Valid()
      modifies this
      ensures Valid() && (entries, r) == Take(old(entries), session, now, l, certified)
    {
      var entry := Find(entries, session);
      if entry.Some? {
        var age := now - entry.value.createdAt;
        if age > l.ttl {
          if l.cap > 0 && age <= l.cap && l.probed && certified {
            DeleteEntry(session);
            return Served(entry.value.value);
          }
          DeleteEntry(session);
          PruneEntries(now, l);
          return Expired(age);
        }
        DeleteEntry(session);
        return Served(entry.value.value);
      }
      PruneEntries(now, l);
      if newest.Some? { r := Mismatch(newest.value, session); } else { r := Empty; }
    }

    method Clear(session: Option<string>)
      requires Valid()
      modifies this
      ensures Valid() && entries == if session.Some? && session.value != "" then Delete(old(entries), session.value) else []
    {
      if session.Some? && session.value != "" { DeleteEntry(session.value); }
      else { entries, newest := [], None; }
    }

    method Peek(session: Option<string>, now: int, l: Limits) returns (r: Option<Payload>)
      requires Valid()
      modifies this
      ensures Valid() && entries == Prune(old(entries), now, l)
      ensures r == if session.Some? && session.value != "" then Held(entries, session.value)
                   else if entries == [] then None else Some(entries[|entries| - 1].value)
    {
      PruneEntries(now, l);
      if session.Some? && session.value != "" { r := Held(entries, session.value); }
      else if newest.None? { r := None; }
      else {
        r := Held(entries, newest.value);
        LastFound(entries);
      }
    }
  }

  function Held(es: seq<Entry>, session: string): Option<Payload> {
    match Find(es, session) case Some(e) => Some(e.value) case None => None
  }

  lemma LastFound(es: seq<Entry>)
    requires Keyed(es) && es != []
    ensures Held(es, Newest(es).value) == Some(es[|es| - 1].value)
  {
    FindIs(es, Newest(es).value);
    assert es[|es| - 1] in es;
  }

  // ---------------------------------------------------------------- whole runs

  datatype Event =
    | SetEvent(p: Payload, now: int, l: Limits)
    | ConsumeEvent(session: string, now: int, l: Limits, certified: bool)
    | ClearEvent(target: Option<string>)
    | ViewEvent(now: int, l: Limits)

  /** A serving: what, to whom, and under which conditions. */
  datatype Serving = Serving(p: Payload, session: string, age: int, l: Limits, certified: bool)

  datatype State = State(entries: seq<Entry>, given: set<nat>, served: seq<Serving>)

  function Step(s: State, e: Event, max: nat): State {
    match e
    case SetEvent(p, now, l) => s.(entries := Put(s.entries, p, now, l, max), given := s.given + {p.serial})
    case ConsumeEvent(session, now, l, certified) =>
      var (left, r) := Take(s.entries, session, now, l, certified);
      s.(entries := left,
         served := if r.Served? then s.served + [Serving(r.pending, session, now - Find(s.entries, session).value.createdAt, l, certified)]
                   else s.served)
    case ClearEvent(session) =>
      s.(entries := if session.Some? && session.value != "" then Delete(s.entries, session.value) else [])
    case ViewEvent(now, l) => s.(entries := Prune(s.entries, now, l))
  }

  function Run(es: seq<Event>, max: nat): State {
    if es == [] then State([], {}, []) else Step(Run(es[..|es| - 1], max), es[|es| - 1], max)
  }

  /** Each stored payload has its own serial. */
  predicate FreshSerials(es: seq<Event>) {
    forall i, j | 0 <= i < j < |es| && es[i].SetEvent? && es[j].SetEvent? :: es[i].p.serial != es[j].p.serial
  }

  predicate Proper(v: Serving) {
    && v.p.session == v.session
    && (v.age <= v.l.ttl || (v.l.cap > 0 && v.age <= v.l.cap && v.l.probed && v.certified))
  }

  predicate Invariant(s: State, max: nat) {
    && Keyed(s.entries) && |s.entries| <= max
    && (forall e | e in s.entries :: e.value.serial in s.given)
    && (forall i | 0 <= i < |s.served| :: Proper(s.served[i]) && s.served[i].p.serial in s.given)
    && (forall i, e | 0 <= i < |s.served| && e in s.entries :: s.served[i].p.serial != e.value.serial)
    && (forall e, f | e in s.entries && f in s.entries && e.value.serial == f.value.serial :: e == f)
    && (forall i, j | 0 <= i < j < |s.served| :: s.served[i].p.serial != s.served[j].p.serial)
  }

  lemma ShrinkInvariant(s: State, left: seq<Entry>, max: nat)
    requires Invariant(s, max) && Keyed(left) && |left| <= |s.entries| && forall e | e in left :: e in s.entries
    ensures Invariant(s.(entries := left), max)
  {
  }

  lemma PutInvariant(s: State, e: Event, max: nat)
    requires Invariant(s, max) && e.SetEvent? && e.p.serial !in s.given && max >= 1
    ensures Invariant(Step(s, e, max), max)
  {
    PutIs(s.entries, e.p, e.now, e.l, max);
  }

  /** Serving an entry that leaves the map. */
  lemma ServeInvariant(s: State, found: Entry, left: seq<Entry>, v: Serving, max: nat)
    requires Invariant(s, max) && found in s.entries && v.p == found.value && Proper(v)
    requires Keyed(left) && |left| <= |s.entries| && forall e | e in left :: e in s.entries && e != found
    ensures Invariant(State(left, s.given, s.served + [v]), max)
  {
  }

  /** What one consume leaves and returns. */
  lemma TakeIs(es: seq<Entry>, session: string, now: int, l: Limits, certified: bool)
    requires Keyed(es)
    ensures var (left, r) := Take(es, session, now, l, certified);
            && Keyed(left) && |left| <= |es| && (forall e | e in left :: e in es)
            && (r.Served? ==> Find(es, session).Some?
                              && var found := Find(es, session).value;
                                 found in es && found !in left && r.pending == found.value && found.value.session == session
                                 && Servable(found, now, l, certified))
  {
    FindIs(es, session);
    DeleteIs(es, session);
    PruneIs(es, now, l);
    PruneIs(Delete(es, session), now, l);
  }

  lemma ConsumeInvariant(s: State, e: Event, max: nat)
    requires Invariant(s, max) && e.ConsumeEvent?
    ensures Invariant(Step(s, e, max), max)
  {
    hide Find, Prune, Delete;
    TakeIs(s.entries, e.session, e.now, e.l, e.certified);
    var (left, r) := Take(s.entries, e.session, e.now, e.l, e.certified);
    if r.Served? {
      var found := Find(s.entries, e.session).value;
      ServeInvariant(s, found, left, Serving(r.pending, e.session, e.now - found.createdAt, e.l, e.certified), max);
    } else {
      ShrinkInvariant(s, left, max);
    }
  }

  lemma {:induction false} GivenExactly(es: seq<Event>, max: nat, serial: nat)
    ensures serial in Run(es, max).given <==> exists i :: 0 <= i < |es| && es[i].SetEvent? && es[i].p.serial == serial
  {
    if es != [] {
      var n := |es| - 1;
      GivenExactly(es[..n], max, serial);
      assert es == es[..n] + [es[n]];
      if i :| 0 <= i < |es[..n]| && es[..n][i].SetEvent? && es[..n][i].p.serial == serial {
        assert es[i] == es[..n][i];
      }
      if i :| 0 <= i < n && es[i].SetEvent? && es[i].p.serial == serial {
        assert es[..n][i] == es[i];
      }
    }
  }

  /** Over every run: at most `max` payloads are held; each stored payload is served at most
      once, only to its own session, and never past its time to live without the probe's
      certificate under the ceiling. */
  lemma {:induction false} SlotSafety(es: seq<Event>, max: nat)
    requires FreshSerials(es) && max >= 1
    ensures Invariant(Run(es, max), max)
  {
    if es != [] {
      var n := |es| - 1;
      var s, e := Run(es[..n], max), es[n];
      assert FreshSerials(es[..n]) by {
        forall i, j | 0 <= i < j < n && es[..n][i].SetEvent? && es[..n][j].SetEvent? ensures es[..n][i].p.serial != es[..n][j].p.serial {
          assert es[i] == es[..n][i] && es[j] == es[..n][j];
        }
      }
      SlotSafety(es[..n], max);
      match e
      case SetEvent(p, now, l) =>
        GivenExactly(es[..n], max, p.serial);
        assert forall i | 0 <= i < n :: es[..n][i] == es[i];
        PutInvariant(s, e, max);
      case ConsumeEvent(_, _, _, _) => ConsumeInvariant(s, e, max);
      case ClearEvent(session) =>
        if session.Some? { DeleteIs(s.entries, session.value); }
        ShrinkInvariant(s, Run(es, max).entries, max);
      case ViewEvent(now, l) =>
        PruneIs(s.entries, now, l);
        ShrinkInvariant(s, Run(es, max).entries, max);
    }
  }
}
