/** Summaries held between the host's before-compact and compacted events. */
module CommitStore {
  // Nothing durable is written until a take confirms run and session; everything else ends in one
  // discard notice.

  import opened Wrappers

  /** A summary candidate of a run; the serial tells two stagings apart. */
  datatype Candidate = Candidate(runId: string, session: string, detailsRun: string, serial: nat)

  datatype Reason = ExpiredReason | Evicted | Aborted | Shutdown | ApplyError | Foreign | SessionMismatch

  datatype Held = Held(c: Candidate, createdAt: int)

  datatype Notice = Notice(c: Candidate, reason: Reason)

  /** The entries in insertion order and the discard notices sent so far. */
  datatype Store = Store(held: seq<Held>, notices: seq<Notice>)

  /** The clock reading and time to live of a call. */
  datatype Clock = Clock(now: int, ttl: int)

  function Ttl(t: Clock): int {
    if t.ttl >= 1 then t.ttl else 1
  }

  // ---------------------------------------------------------------- what stays and what goes

  function Keep(es: seq<Held>, p: Held -> bool): seq<Held> {
    if es == [] then [] else (if p(es[0]) then [es[0]] else []) + Keep(es[1..], p)
  }

  function Drop(es: seq<Held>, p: Held -> bool): seq<Held> {
    if es == [] then [] else (if p(es[0]) then [] else [es[0]]) + Drop(es[1..], p)
  }

  function Alive(t: Clock): Held -> bool {
    (h: Held) => t.now - h.createdAt <= Ttl(t)
  }

  function OtherRun(runId: string): Held -> bool {
    (h: Held) => h.c.runId != runId
  }

  function OtherSession(session: string): Held -> bool {
    (h: Held) => h.c.session != session
  }

  function Notices(es: seq<Held>, reason: Reason): seq<Notice> {
    seq(|es|, i requires 0 <= i < |es| => Notice(es[i].c, reason))
  }

  /** Dropping with a notice each. */
  function Shed(s: Store, p: Held -> bool, reason: Reason): Store {
    Store(Keep(s.held, p), s.notices + Notices(Drop(s.held, p), reason))
  }

  function Swept(s: Store, t: Clock): Store {
    Shed(s, Alive(t), ExpiredReason)
  }

  function FindRun(es: seq<Held>, runId: string): Option<Candidate> {
    if es == [] then None else if es[0].c.runId == runId then Some(es[0].c) else FindRun(es[1..], runId)
  }

  /** Room for one more: the oldest go first. */
  function MakeRoom(s: Store, max: nat): Store
    requires max >= 1
  {
    if |s.held| < max then s
    else
      var n := |s.held| - max + 1;
      Store(s.held[n..], s.notices + Notices(s.held[..n], Evicted))
  }

  predicate WellNamed(c: Candidate) {
    c.runId != "" && c.detailsRun == c.runId
  }

  /** Staging: the store afterwards and whether the candidate was accepted. */
  function Staged(s: Store, c: Candidate, t: Clock, max: nat): (Store, bool)
    requires max >= 1
  {
    var swept := Swept(s, t);
    if !WellNamed(c) || FindRun(swept.held, c.runId).Some? then (swept, false)
    else
      var room := MakeRoom(swept, max);
      (room.(held := room.held + [Held(c, t.now)]), true)
  }

  function Taken(s: Store, runId: string, session: string, t: Clock): (Store, Option<Candidate>) {
    var swept := Swept(s, t);
    match FindRun(swept.held, runId)
    case None => (swept, None)
    case Some(c) =>
      if c.session != session then (Shed(swept, OtherRun(runId), SessionMismatch), None)
      else (swept.(held := Keep(swept.held, OtherRun(runId))), Some(c))
  }

  function Discarded(s: Store, runId: string, reason: Reason, t: Clock): Store {
    Shed(Swept(s, t), OtherRun(runId), reason)
  }

  function Cleared(s: Store, session: string, reason: Reason, t: Clock): Store {
    Shed(Swept(s, t), OtherSession(session), reason)
  }

  // ---------------------------------------------------------------- the store as the program keeps it

  /** One entry per run. */
  predicate Keyed(es: seq<Held>) {
    forall i, j | 0 <= i < j < |es| :: es[i].c.runId != es[j].c.runId
  }

  lemma {:induction false} KeepMembers(es: seq<Held>, p: Held -> bool)
    requires Keyed(es)
    ensures Keyed(Keep(es, p)) && |Keep(es, p)| <= |es|
    ensures forall h :: h in Keep(es, p) <==> h in es && p(h)
    ensures forall h :: h in Drop(es, p) <==> h in es && !p(h)
  {
    if es != [] {
      KeepMembers(es[1..], p);
      var rest := Keep(es[1..], p);
      forall i | 0 <= i < |rest| ensures rest[i].c.runId != es[0].c.runId {
        assert rest[i] in es[1..];
      }
    }
  }

  lemma {:induction false} FindRunIs(es: seq<Held>, runId: string)
    ensures FindRun(es, runId).Some? ==> exists h :: h in es && h.c == FindRun(es, runId).value && h.c.runId == runId
    ensures FindRun(es, runId).None? ==> forall h | h in es :: h.c.runId != runId
  {
    if es != [] {
      FindRunIs(es[1..], runId);
    }
  }

  /** Removing a run that is held drops exactly its entry. */
  lemma {:induction false} DropRun(es: seq<Held>, runId: string)
    requires Keyed(es)
    ensures FindRun(es, runId).Some? ==> |Drop(es, OtherRun(runId))| == 1 && Drop(es, OtherRun(runId))[0].c == FindRun(es, runId).value
    ensures FindRun(es, runId).None? ==> Drop(es, OtherRun(runId)) == [] && Keep(es, OtherRun(runId)) == es
  {
    if es != [] {
      DropRun(es[1..], runId);
      if es[0].c.runId == runId {
        forall h | h in es[1..] ensures h.c.runId != runId {
          var k :| 0 <= k < |es[1..]| && es[1..][k] == h;
          assert es[k + 1] == h;
        }
        FindRunIs(es[1..], runId);
      }
    }
  }

  /** One pass over the entries, splitting off what p rejects. */
  method Partition(es: seq<Held>, p: Held -> bool) returns (kept: seq<Held>, gone: seq<Held>)
    ensures kept == Keep(es, p) && gone == Drop(es, p)
  {
    kept, gone := [], [];
    for i := 0 to |es|
      invariant kept + Keep(es[i..], p) == Keep(es, p)
      invariant gone + Drop(es[i..], p) == Drop(es, p)
    {
      assert es[i..][1..] == es[i + 1..];
      if p(es[i]) { kept := kept + [es[i]]; } else { gone := gone + [es[i]]; }
    }
  }

  /** The oldest entries give way until one more fits. */
  method EvictOldest(s: Store, max: nat) returns (r: Store)
    requires max >= 1
    ensures r == MakeRoom(s, max)
  {
    var n := 0;
    while |s.held| - n >= max
      invariant 0 <= n <= |s.held|
      invariant n > 0 ==> |s.held| - n >= max - 1
    {
      n := n + 1;
    }
    r := Store(s.held[n..], s.notices + Notices(s.held[..n], Evicted));
    if n == 0 {
      assert s.held[0..] == s.held && Notices(s.held[..0], Evicted) == [];
    }
  }

  lemma RoomKeyed(s: Store, max: nat, h: Held)
    requires max >= 1 && Keyed(s.held) && forall x | x in s.held :: x.c.runId != h.c.runId
    ensures var r := MakeRoom(s, max);
            |r.held| < max && Keyed(r.held + [h])
  {
    var r := MakeRoom(s, max);
    AppendKeyed(s.held, r.held, h);
  }

  class CommitStore {
    const max: nat
    var held: seq<Held>
    var notices: seq<Notice>

    function View(): Store
      reads this
    {
      Store(held, notices)
    }

    predicate Valid()
      reads this
    {
      max >= 1 && Keyed(held) && |held| <= max
    }

    constructor (maxEntries: int)
      ensures Valid() && View() == Store([], []) && max == if maxEntries >= 1 then maxEntries else 1
    {
      max := if maxEntries >= 1 then maxEntries else 1;
      held, notices := [], [];
    }

    /** Drop every entry p rejects, with one notice each, in insertion order. */
    method ShedAll(p: Held -> bool, reason: Reason) returns (removed: seq<Candidate>)
      requires Valid()
      modifies this
      ensures Valid() && View() == Shed(old(View()), p, reason)
      ensures removed == seq(|Drop(old(held), p)|, i requires 0 <= i < |Drop(old(held), p)| => Drop(old(held), p)[i].c)
    {
      KeepMembers(held, p);
      var kept, gone := Partition(held, p);
      held, notices := kept, notices + Notices(gone, reason);
      removed := seq(|gone|, i requires 0 <= i < |gone| => gone[i].c);
    }

    method Stage(c: Candidate, t: Clock) returns (ok: bool)
      requires Valid()
      modifies this
      ensures Valid() && (View(), ok) == Staged(old(View()), c, t, max)
    {
      var _ := ShedAll(Alive(t), ExpiredReason);
      if c.runId == "" || c.detailsRun != c.runId { return false; }
      if FindRun(held, c.runId).Some? { return false; }
      FindRunIs(held, c.runId);
      RoomKeyed(View(), max, Held(c, t.now));
      var room := EvictOldest(View(), max);
      held, notices := room.held + [Held(c, t.now)], room.notices;
      ok := true;
    }

    method Take(runId: string, session: string, t: Clock) returns (r: Option<Candidate>)
      requires Valid()
      modifies this
      ensures Valid() && (View(), r) == Taken(old(View()), runId, session, t)
    {
      var _ := ShedAll(Alive(t), ExpiredReason);
      r := FindRun(held, runId);
      if r.None? { return; }
      if r.value.session != session {
        var _ := ShedAll(OtherRun(runId), SessionMismatch);
        return None;
      }
      KeepMembers(held, OtherRun(runId));
      held := Keep(held, OtherRun(runId));
    }

    method Discard(runId: string, reason: Reason, t: Clock) returns (r: Option<Candidate>)
      requires Valid()
      modifies this
      ensures Valid() && View() == Discarded(old(View()), runId, reason, t)
      ensures r == FindRun(Swept(old(View()), t).held, runId)
    {
      var _ := ShedAll(Alive(t), ExpiredReason);
      DropRun(held, runId);
      r := FindRun(held, runId);
      var _ := ShedAll(OtherRun(runId), reason);
    }

    method ClearSession(session: string, reason: Reason, t: Clock) returns (removed: seq<Candidate>)
      requires Valid()
      modifies this
      ensures Valid() && View() == Cleared(old(View()), session, reason, t)
      ensures |removed| + |held| == |Swept(old(View()), t).held|
    {
      var _ := ShedAll(Alive(t), ExpiredReason);
      KeepDropLength(held, OtherSession(session));
      removed := ShedAll(OtherSession(session), reason);
    }

    method Size(t: Clock) returns (n: nat)
      requires Valid()
      modifies this
      ensures Valid() && View() == Swept(old(View()), t) && n == |held|
    {
      var _ := ShedAll(Alive(t), ExpiredReason);
      n := |held|;
    }
  }

  lemma {:induction false} KeepDropLength(es: seq<Held>, p: Held -> bool)
    ensures |Keep(es, p)| + |Drop(es, p)| == |es|
  {
    if es != [] {
      KeepDropLength(es[1..], p);
    }
  }

  lemma AppendKeyed(all: seq<Held>, es: seq<Held>, h: Held)
    requires Keyed(all) && |es| <= |all| && es == all[|all| - |es|..]
    requires forall x | x in all :: x.c.runId != h.c.runId
    ensures Keyed(es + [h])
  {
    var d := |all| - |es|;
    forall i | 0 <= i < |es| ensures es[i].c.runId != h.c.runId {
      assert es[i] == all[i + d] && all[i + d] in all;
    }
    forall i, j | 0 <= i < j < |es| ensures es[i].c.runId != es[j].c.runId {
      assert es[i] == all[i + d] && es[j] == all[j + d];
    }
  }
}
