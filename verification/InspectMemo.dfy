/** The memo of branch inspections, and why it always agrees with a fresh walk. */
module InspectMemo {
  // It is keyed by session, branch length and last entry id, which is enough on append-only trees.

  import opened Wrappers
  import opened Branch
  import opened Inspect

  const MEMO_MAX := 8

  /** A session log: every entry knows its parent; a branch is a path from the root. */
  datatype Node = Node(entry: Entry, parent: Option<Id>)
  type Tree = map<Id, Node>
  type Forest = map<string, Tree>

  predicate IsBranch(t: Tree, b: seq<Entry>) {
    forall i | 0 <= i < |b| :: Linked(t, b, i)
  }

  predicate Linked(t: Tree, b: seq<Entry>, i: nat)
    requires i < |b|
  {
    b[i].id in t && t[b[i].id] == Node(b[i], if i == 0 then None else Some(b[i - 1].id))
  }

  /** Logs only grow: an entry once written keeps its content and parent. */
  predicate Grows(f: Forest, g: Forest) {
    forall s | s in f :: s in g && forall id | id in f[s] :: id in g[s] && g[s][id] == f[s][id]
  }

  function LastId(b: seq<Entry>): Id {
    if b == [] then "" else b[|b| - 1].id
  }

  datatype Held = Held(length: nat, lastId: Id, result: Inspection)

  /** The memo in insertion order of its keys. */
  datatype Memo = Memo(keys: seq<string>, table: map<string, Held>)

  const EMPTY := Memo([], map[])

  ghost predicate WellFormed(m: Memo) {
    && (forall i, j | 0 <= i < j < |m.keys| :: m.keys[i] != m.keys[j])
    && (forall k :: k in m.keys <==> k in m.table)
    && |m.keys| <= MEMO_MAX
  }

  function Evict(m: Memo): Memo
    requires WellFormed(m)
    decreases |m.keys|
  {
    if |m.keys| < MEMO_MAX then m
    else
      DropOldestWellFormed(m);
      Evict(DropOldest(m))
  }

  function DropOldest(m: Memo): Memo
    requires m.keys != []
  {
    Memo(m.keys[1..], m.table - {m.keys[0]})
  }

  lemma DropOldestWellFormed(m: Memo)
    requires WellFormed(m) && m.keys != []
    ensures WellFormed(DropOldest(m))
  {
    assert m.keys == [m.keys[0]] + m.keys[1..];
  }

  predicate Hit(m: Memo, b: seq<Entry>, session: string) {
    session in m.table && m.table[session].length == |b| && m.table[session].lastId == LastId(b)
  }

  /** One call: the memo afterwards and the answer. */
  function Lookup(h: Host, m: Memo, b: seq<Entry>, session: string): (Memo, Inspection)
    requires WellFormed(m)
  {
    if Hit(m, b, session) then (m, m.table[session].result)
    else
      var result := InspectBranch(h, b, session);
      var kept := if session in m.table then m else Evict(m);
      (Memo(if session in m.table then m.keys else kept.keys + [session],
            kept.table[session := Held(|b|, LastId(b), result)]), result)
  }

  /** Every answer held is the walk of a branch of its session with that length and end. */
  ghost predicate Coherent(h: Host, m: Memo, f: Forest) {
    forall s | s in m.table :: s in f && exists b :: HeldFor(h, m.table[s], s, f[s], b)
  }

  predicate HeldFor(h: Host, held: Held, session: string, t: Tree, b: seq<Entry>) {
    IsBranch(t, b) && held == Held(|b|, LastId(b), InspectBranch(h, b, session))
  }

  lemma BranchPrefix(t: Tree, b: seq<Entry>, n: nat)
    requires IsBranch(t, b) && n <= |b|
    ensures IsBranch(t, b[..n])
  {
    forall i | 0 <= i < n ensures Linked(t, b[..n], i) {
      assert Linked(t, b, i);
      assert i > 0 ==> b[..n][i - 1] == b[i - 1];
    }
  }

  /** In a tree with unique ids the last entry determines the whole path. */
  lemma {:induction false} SamePath(t: Tree, a: seq<Entry>, b: seq<Entry>)
    requires IsBranch(t, a) && IsBranch(t, b) && a != [] && b != [] && LastId(a) == LastId(b)
    ensures a == b
    decreases |a|
  {
    var m, n := |a| - 1, |b| - 1;
    assert Linked(t, a, m) && Linked(t, b, n);
    if m > 0 && n > 0 {
      BranchPrefix(t, a, m);
      BranchPrefix(t, b, n);
      SamePath(t, a[..m], b[..n]);
    }
    assert a == a[..m] + [a[m]] && b == b[..n] + [b[n]];
  }

  lemma EvictWellFormed(m: Memo)
    requires WellFormed(m)
    ensures var e := Evict(m);
            WellFormed(e) && |e.keys| < MEMO_MAX && forall s | s in e.table :: s in m.table && e.table[s] == m.table[s]
  {
    if |m.keys| == MEMO_MAX {
      DropOldestWellFormed(m);
      assert Evict(m) == DropOldest(m);
    }
  }

  /** One call agrees with the walk and keeps the memo coherent and bounded. */
  lemma LookupAgrees(h: Host, m: Memo, f: Forest, b: seq<Entry>, session: string)
    requires WellFormed(m) && Coherent(h, m, f) && session in f && IsBranch(f[session], b)
    ensures var (m', r) := Lookup(h, m, b, session);
            r == InspectBranch(h, b, session) && WellFormed(m') && Coherent(h, m', f)
  {
    if Hit(m, b, session) {
      var a :| HeldFor(h, m.table[session], session, f[session], a);
      if b == [] {
        assert a == [];
      } else {
        SamePath(f[session], a, b);
      }
    } else {
      EvictWellFormed(m);
      var m' := Lookup(h, m, b, session).0;
      forall s | s in m'.table ensures s in f && exists x :: HeldFor(h, m'.table[s], s, f[s], x) {
        if s == session {
          assert HeldFor(h, m'.table[s], s, f[s], b);
        } else {
          assert s in m.table && m'.table[s] == m.table[s];
        }
      }
    }
  }

  lemma GrowthCoherent(h: Host, m: Memo, f: Forest, g: Forest)
    requires Coherent(h, m, f) && Grows(f, g)
    ensures Coherent(h, m, g)
  {
    forall s | s in m.table ensures s in g && exists b :: HeldFor(h, m.table[s], s, g[s], b) {
      var b :| HeldFor(h, m.table[s], s, f[s], b);
      forall i | 0 <= i < |b| ensures Linked(g[s], b, i) {
        assert Linked(f[s], b, i);
      }
      assert HeldFor(h, m.table[s], s, g[s], b);
    }
  }

  /** A call made while the logs looked like `forest`. */
  datatype Ask = Ask(forest: Forest, branch: seq<Entry>, session: string)

  predicate LegalAsk(a: Ask) {
    a.session in a.forest && IsBranch(a.forest[a.session], a.branch)
  }

  predicate LegalRun(asks: seq<Ask>) {
    && (forall i | 0 <= i < |asks| :: LegalAsk(asks[i]))
    && (forall i | 0 <= i < |asks| - 1 :: Grows(asks[i].forest, asks[i + 1].forest))
  }

  /** The memo and the answers after a run of calls. */
  function RunAsks(h: Host, asks: seq<Ask>): (r: (Memo, seq<Inspection>))
    ensures WellFormed(r.0) && |r.1| == |asks|
  {
    if asks == [] then (EMPTY, [])
    else
      var n := |asks| - 1;
      var (m, answers) := RunAsks(h, asks[..n]);
      EvictWellFormed(m);
      var (m', r) := Lookup(h, m, asks[n].branch, asks[n].session);
      (m', answers + [r])
  }

  lemma LegalPrefix(asks: seq<Ask>)
    requires LegalRun(asks) && asks != []
    ensures LegalRun(asks[..|asks| - 1])
  {
    var p := asks[..|asks| - 1];
    forall i | 0 <= i < |p| - 1 ensures Grows(p[i].forest, p[i + 1].forest) {
      assert p[i] == asks[i] && p[i + 1] == asks[i + 1];
    }
  }

  /** After a run the memo is coherent with the logs as the last call saw them. */
  lemma {:induction false} RunCoherent(h: Host, asks: seq<Ask>)
    requires LegalRun(asks) && asks != []
    ensures Coherent(h, RunAsks(h, asks).0, asks[|asks| - 1].forest)
    ensures RunAsks(h, asks).1[|asks| - 1] == InspectBranch(h, asks[|asks| - 1].branch, asks[|asks| - 1].session)
  {
    var n := |asks| - 1;
    var m := RunAsks(h, asks[..n]).0;
    LegalPrefix(asks);
    assert LegalAsk(asks[n]);
    if n > 0 {
      RunCoherent(h, asks[..n]);
      assert Grows(asks[n - 1].forest, asks[n].forest);
      GrowthCoherent(h, m, asks[n - 1].forest, asks[n].forest);
    }
    LookupAgrees(h, m, asks[n].forest, asks[n].branch, asks[n].session);
  }

  /** Over every run of calls on growing logs, through overwrites and evictions, every answer
      is the walk's and at most eight sessions are held. */
  lemma {:induction false} MemoAgrees(h: Host, asks: seq<Ask>)
    requires LegalRun(asks)
    ensures |RunAsks(h, asks).0.keys| <= MEMO_MAX
    ensures forall i | 0 <= i < |asks| ::
              RunAsks(h, asks).1[i] == InspectBranch(h, asks[i].branch, asks[i].session)
  {
    if asks != [] {
      var n := |asks| - 1;
      hide RunAsks, InspectBranch, LegalRun;
      LegalPrefix(asks);
      MemoAgrees(h, asks[..n]);
      RunCoherent(h, asks);
      RunAsksGrow(h, asks);
      forall i | 0 <= i < |asks| ensures RunAsks(h, asks).1[i] == InspectBranch(h, asks[i].branch, asks[i].session) {
        if i < n {
          assert asks[..n][i] == asks[i];
          assert RunAsks(h, asks).1[i] == RunAsks(h, asks).1[..n][i];
        }
      }
    }
  }

  /** A further call leaves the earlier answers as they are. */
  lemma RunAsksGrow(h: Host, asks: seq<Ask>)
    requires asks != []
    ensures RunAsks(h, asks).1[..|asks| - 1] == RunAsks(h, asks[..|asks| - 1]).1
    ensures |RunAsks(h, asks).0.keys| <= MEMO_MAX
  {
  }

  /** The memo as the program keeps it. */
  class InspectionMemo {
    const host: Host
    var keys: seq<string>
    var table: map<string, Held>

    function View(): Memo
      reads this
    {
      Memo(keys, table)
    }

    ghost predicate Valid()
      reads this
    {
      WellFormed(View())
    }

    constructor (h: Host)
      ensures Valid() && View() == EMPTY && host == h
    {
      host, keys, table := h, [], map[];
    }

    method Inspect(b: seq<Entry>, session: string) returns (r: Inspection)
      requires Valid()
      modifies this
      ensures Valid() && (View(), r) == Lookup(host, old(View()), b, session)
    {
      var lastId := if b == [] then "" else b[|b| - 1].id;
      if session in table && table[session].length == |b| && table[session].lastId == lastId {
        return table[session].result;
      }
      EvictWellFormed(View());
      r := InspectWalk(host, b, session);
      if session !in table {
        ghost var start := View();
        while |keys| >= MEMO_MAX
          invariant WellFormed(View()) && Evict(View()) == Evict(start) && session !in table
          decreases |keys|
        {
          var oldest := keys[0];
          DropOldestWellFormed(View());
          keys, table := keys[1..], table - {oldest};
        }
        keys := keys + [session];
      }
      table := table[session := Held(|b|, lastId, r)];
    }
  }
}
