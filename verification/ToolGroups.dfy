/** Whole tool call/result groups of a projection. */
module ToolGroups {
  // Why removing whole groups keeps every call answered and every result asked for.

  import opened Wrappers
  import opened Branch

  predicate IsTurn(p: Projected) {
    p.message.Assistant? || p.message.User?
  }

  // ---------------------------------------------------------------- specification of the group scan

  /** The state of the scan over one assistant's results. */
  datatype Scan = Scan(pending: map<string, Call>, unsafe: bool, results: seq<(Id, Call)>)

  function CallMap(calls: seq<Call>): map<string, Call> {
    if calls == [] then map[]
    else
      var c := calls[|calls| - 1];
      CallMap(calls[..|calls| - 1])[c.id := c]
  }

  function ScanStep(p: Projected, s: Scan): Scan {
    if p.message.ToolResult? && p.message.callId in s.pending then
      Scan(s.pending - {p.message.callId},
           s.unsafe || p.message.isError || !p.message.content.plain,
           s.results + [(p.source.id, s.pending[p.message.callId])])
    else s
  }

  function ScanBatch(p: seq<Projected>, k: nat, s: Scan): Scan
    requires k <= |p|
    decreases |p| - k
  {
    if k == |p| || IsTurn(p[k]) then s else ScanBatch(p, k + 1, ScanStep(p[k], s))
  }

  predicate Admitted(calls: seq<Call>, admit: Tool -> bool) {
    forall c | c in calls :: c.flat != [] && forall f | f in c.flat :: admit(f)
  }

  /** The results of a complete group whose assistant turn is p[i]; None when p[i] starts none. */
  function GroupAt(p: seq<Projected>, i: nat, admit: Tool -> bool): Option<seq<(Id, Call)>>
    requires i < |p|
  {
    var m := p[i].message;
    if !p[i].source.MessageEntry? || !m.Assistant? || !m.finished || !Admitted(m.calls, admit) then None
    else
      var s := ScanBatch(p, i + 1, Scan(CallMap(m.calls), false, []));
      if !s.unsafe && s.pending == map[] then Some(s.results) else None
  }

  function AddResults(ids: map<Id, Option<Call>>, results: seq<(Id, Call)>): map<Id, Option<Call>> {
    if results == [] then ids
    else
      var r := results[|results| - 1];
      AddResults(ids, results[..|results| - 1])[r.0 := Some(r.1)]
  }

  /** The ids of the groups that start before position n, each result with its call. */
  function Groups(p: seq<Projected>, n: nat, admit: Tool -> bool): map<Id, Option<Call>>
    requires n <= |p|
  {
    if n == 0 then map[]
    else
      var ids := Groups(p, n - 1, admit);
      match GroupAt(p, n - 1, admit)
      case None => ids
      case Some(results) => AddResults(ids[p[n - 1].source.id := None], results)
  }

  /** The scan as the program runs it: one pass over the turns, one over each turn's results. */
  method FindGroups(p: seq<Projected>, admit: Tool -> bool) returns (ids: map<Id, Option<Call>>)
    ensures ids == Groups(p, |p|, admit)
  {
    ids := map[];
    for index := 0 to |p|
      invariant ids == Groups(p, index, admit)
    {
      var m := p[index].message;
      if !p[index].source.MessageEntry? || !m.Assistant? || !m.finished { continue; }
      if !(forall c | c in m.calls :: c.flat != [] && forall f | f in c.flat :: admit(f)) { continue; }
      var pending := BuildCallMap(m.calls);
      ghost var start := Scan(pending, false, []);
      var results: seq<(Id, Call)> := [];
      var unsafe := false;
      var next := index + 1;
      while next < |p|
        invariant index + 1 <= next <= |p|
        invariant ScanBatch(p, next, Scan(pending, unsafe, results)) == ScanBatch(p, index + 1, start)
      {
        var msg := p[next].message;
        if msg.Assistant? || msg.User? { break; }
        if msg.ToolResult? && msg.callId in pending {
          var call := pending[msg.callId];
          if msg.isError || !msg.content.plain { unsafe := true; }
          pending := pending - {msg.callId};
          results := results + [(p[next].source.id, call)];
        }
        next := next + 1;
      }
      if !unsafe && pending == map[] {
        ids := ids[p[index].source.id := None];
        ghost var before := ids;
        for r := 0 to |results|
          invariant ids == AddResults(before, results[..r])
        {
          ids := ids[results[r].0 := Some(results[r].1)];
          assert results[..r + 1][..r] == results[..r];
        }
        assert results[..|results|] == results;
      }
    }
  }

  method BuildCallMap(calls: seq<Call>) returns (m: map<string, Call>)
    ensures m == CallMap(calls)
  {
    m := map[];
    for i := 0 to |calls|
      invariant m == CallMap(calls[..i])
    {
      m := m[calls[i].id := calls[i]];
      assert calls[..i + 1][..i] == calls[..i];
    }
    assert calls[..|calls|] == calls;
  }

  // ---------------------------------------------------------------- membership

  predicate InGroup(p: seq<Projected>, i: nat, admit: Tool -> bool, id: Id)
    requires i < |p|
  {
    var g := GroupAt(p, i, admit);
    g.Some? && (id == p[i].source.id || exists r | r in g.value :: r.0 == id)
  }

  lemma {:induction false} AddResultsKeys(ids: map<Id, Option<Call>>, results: seq<(Id, Call)>, id: Id)
    ensures id in AddResults(ids, results) <==> id in ids || exists r | r in results :: r.0 == id
  {
    if results != [] {
      var n := |results| - 1;
      AddResultsKeys(ids, results[..n], id);
      assert results == results[..n] + [results[n]];
    }
  }

  /** An id is grouped exactly when some complete group holds it. */
  lemma {:induction false} GroupsKeys(p: seq<Projected>, n: nat, admit: Tool -> bool, id: Id)
    requires n <= |p|
    ensures id in Groups(p, n, admit) <==> exists i :: 0 <= i < n && InGroup(p, i, admit, id)
  {
    if n > 0 {
      GroupsKeys(p, n - 1, admit, id);
      var g := GroupAt(p, n - 1, admit);
      if g.Some? {
        var ids := Groups(p, n - 1, admit)[p[n - 1].source.id := None];
        AddResultsKeys(ids, g.value, id);
        assert InGroup(p, n - 1, admit, id) <==> id == p[n - 1].source.id || exists r | r in g.value :: r.0 == id;
      }
      assert (exists i :: 0 <= i < n && InGroup(p, i, admit, id))
        <==> (exists i :: 0 <= i < n - 1 && InGroup(p, i, admit, id)) || InGroup(p, n - 1, admit, id);
    }
  }

  /** No turn at positions k to j. */
  predicate Quiet(p: seq<Projected>, k: nat, j: int)
    requires j < |p|
  {
    forall m | k <= m <= j :: !IsTurn(p[m])
  }

  /** A scan collects nothing but tool results of its own batch. */
  lemma {:induction false} ScanOnlyBatch(p: seq<Projected>, k: nat, s: Scan, r: (Id, Call)) returns (j: nat)
    requires k <= |p| && r in ScanBatch(p, k, s).results && r !in s.results
    ensures k <= j < |p| && p[j].message.ToolResult? && p[j].source.id == r.0 && Quiet(p, k, j)
    decreases |p| - k
  {
    var t := ScanStep(p[k], s);
    if r in t.results {
      j := k;
    } else {
      j := ScanOnlyBatch(p, k + 1, t, r);
    }
  }

  // ---------------------------------------------------------------- pairing

  function CallIds(calls: seq<Call>): set<string> {
    set c | c in calls :: c.id
  }

  predicate DistinctCalls(calls: seq<Call>) {
    forall i, j | 0 <= i < j < |calls| :: calls[i].id != calls[j].id
  }

  /** Reading p with the calls in `open` unanswered: each result answers an open call, and
      no call is left open when the next turn or the end comes. */
  predicate Paired(open: set<string>, p: seq<Projected>)
    decreases |p|
  {
    if p == [] then open == {}
    else match p[0].message
      case Assistant(_, _, calls, _) => open == {} && DistinctCalls(calls) && Paired(CallIds(calls), p[1..])
      case User(_) => open == {} && Paired({}, p[1..])
      case ToolResult(callId, _, _, _) => callId in open && Paired(open - {callId}, p[1..])
      case Custom(_, _, _) => Paired(open, p[1..])
  }

  /** The calls left open after a prefix. */
  function OpenAfter(open: set<string>, p: seq<Projected>): set<string>
    decreases |p|
  {
    if p == [] then open
    else match p[0].message
      case Assistant(_, _, calls, _) => OpenAfter(CallIds(calls), p[1..])
      case User(_) => OpenAfter({}, p[1..])
      case ToolResult(callId, _, _, _) => OpenAfter(open - {callId}, p[1..])
      case Custom(_, _, _) => OpenAfter(open, p[1..])
  }

  /** A prefix in which nothing is wrong yet. */
  predicate Follows(open: set<string>, p: seq<Projected>)
    decreases |p|
  {
    if p == [] then true
    else match p[0].message
      case Assistant(_, _, calls, _) => open == {} && DistinctCalls(calls) && Follows(CallIds(calls), p[1..])
      case User(_) => open == {} && Follows({}, p[1..])
      case ToolResult(callId, _, _, _) => callId in open && Follows(open - {callId}, p[1..])
      case Custom(_, _, _) => Follows(open, p[1..])
  }

  lemma {:induction false} PairedSplit(open: set<string>, p: seq<Projected>, q: seq<Projected>)
    ensures Paired(open, p + q) <==> Follows(open, p) && Paired(OpenAfter(open, p), q)
    decreases |p|
  {
    if p == [] {
      assert p + q == q;
    } else {
      assert (p + q)[1..] == p[1..] + q;
      match p[0].message
      case Assistant(_, _, calls, _) => PairedSplit(CallIds(calls), p[1..], q);
      case User(_) => PairedSplit({}, p[1..], q);
      case ToolResult(callId, _, _, _) => PairedSplit(open - {callId}, p[1..], q);
      case Custom(_, _, _) => PairedSplit(open, p[1..], q);
    }
  }

  /** Pairing reads only roles and call ids. */
  predicate SameShape(p: seq<Projected>, q: seq<Projected>) {
    |p| == |q| && forall i | 0 <= i < |p| :: SameRole(p[i].message, q[i].message)
  }

  predicate SameRole(m: Message, n: Message) {
    match m
    case User(_) => n.User?
    case Assistant(_, _, calls, _) => n.Assistant? && n.calls == calls
    case ToolResult(callId, _, _, _) => n.ToolResult? && n.callId == callId
    case Custom(_, _, _) => n.Custom?
  }

  lemma {:induction false} PairedShape(open: set<string>, p: seq<Projected>, q: seq<Projected>)
    requires SameShape(p, q)
    ensures Paired(open, p) <==> Paired(open, q)
    decreases |p|
  {
    if p != [] {
      assert SameRole(p[0].message, q[0].message);
      assert SameShape(p[1..], q[1..]);
      match p[0].message
      case Assistant(_, _, calls, _) => PairedShape(CallIds(calls), p[1..], q[1..]);
      case User(_) => PairedShape({}, p[1..], q[1..]);
      case ToolResult(callId, _, _, _) => PairedShape(open - {callId}, p[1..], q[1..]);
      case Custom(_, _, _) => PairedShape(open, p[1..], q[1..]);
    }
  }

  // ---------------------------------------------------------------- removing whole batches

  function Keep(p: seq<Projected>, gone: set<Id>): seq<Projected> {
    if p == [] then [] else (if p[0].source.id in gone then [] else [p[0]]) + Keep(p[1..], gone)
  }

  /** From here on, a result goes exactly when the turn that asked for it goes; `cur` says
      whether the turn in force goes. No user turn goes. */
  predicate Whole(p: seq<Projected>, cur: bool, gone: set<Id>) {
    if p == [] then true
    else
      var out := p[0].source.id in gone;
      match p[0].message
      case Assistant(_, _, _, _) => Whole(p[1..], out, gone)
      case User(_) => !out && Whole(p[1..], false, gone)
      case ToolResult(_, _, _, _) => out == cur && Whole(p[1..], cur, gone)
      case Custom(_, _, _) => Whole(p[1..], cur, gone)
  }

  lemma {:induction false} KeepPaired(open: set<string>, p: seq<Projected>, cur: bool, gone: set<Id>)
    requires Paired(open, p) && Whole(p, cur, gone)
    ensures Paired(if cur then {} else open, Keep(p, gone))
    decreases |p|
  {
    if p != [] {
      var out := p[0].source.id in gone;
      var rest := Keep(p[1..], gone);
      assert Keep(p, gone) == if out then rest else [p[0]] + rest;
      assert !out ==> Keep(p, gone)[1..] == rest;
      match p[0].message
      case Assistant(_, _, calls, _) => KeepPaired(CallIds(calls), p[1..], out, gone);
      case User(_) => KeepPaired({}, p[1..], false, gone);
      case ToolResult(callId, _, _, _) => KeepPaired(open - {callId}, p[1..], cur, gone);
      case Custom(_, _, _) => KeepPaired(open, p[1..], cur, gone);
    }
  }

  /** Calls left open by a kept turn whose remaining results all go are never answered. */
  lemma {:induction false} KeepStuck(open: set<string>, p: seq<Projected>, gone: set<Id>)
    requires open != {} && Whole(p, true, gone)
    ensures !Paired(open, Keep(p, gone))
  {
    if p != [] {
      var out := p[0].source.id in gone;
      var rest := Keep(p[1..], gone);
      assert Keep(p, gone) == if out then rest else [p[0]] + rest;
      assert !out ==> Keep(p, gone)[1..] == rest;
      if out || p[0].message.Custom? {
        KeepStuck(open, p[1..], gone);
      }
    }
  }

  // ---------------------------------------------------------------- groups of a paired projection are whole batches

  /** The last turn before position k, -1 when there is none. */
  function LastTurn(p: seq<Projected>, k: nat): (t: int)
    requires k <= |p|
    ensures -1 <= t < k
    ensures t >= 0 ==> IsTurn(p[t])
    ensures Quiet(p, t + 1, k - 1)
  {
    if k == 0 then -1 else if IsTurn(p[k - 1]) then k - 1 else LastTurn(p, k - 1)
  }

  lemma {:induction false} CallMapKeys(calls: seq<Call>)
    ensures CallMap(calls).Keys == CallIds(calls)
  {
    if calls != [] {
      var n := |calls| - 1;
      CallMapKeys(calls[..n]);
      assert calls == calls[..n] + [calls[n]];
    }
  }

  /** In a paired projection a scan answers every pending call and meets every result. */
  lemma {:induction false} ScanHits(p: seq<Projected>, k: nat, s: Scan)
    requires k <= |p| && Paired(s.pending.Keys, p[k..])
    ensures ScanBatch(p, k, s).pending == map[]
    ensures forall r | r in s.results :: r in ScanBatch(p, k, s).results
    ensures forall j | k <= j < |p| && p[j].message.ToolResult? && Quiet(p, k, j) ::
              exists r | r in ScanBatch(p, k, s).results :: r.0 == p[j].source.id
    decreases |p| - k
  {
    if k < |p| && !IsTurn(p[k]) {
      var t := ScanStep(p[k], s);
      assert p[k..][1..] == p[k + 1..];
      assert t.pending.Keys == if p[k].message.ToolResult? then s.pending.Keys - {p[k].message.callId} else s.pending.Keys;
      ScanHits(p, k + 1, t);
      forall j | k <= j < |p| && p[j].message.ToolResult? && Quiet(p, k, j)
        ensures exists r | r in ScanBatch(p, k, s).results :: r.0 == p[j].source.id
      {
        if j == k {
          assert t.results[|t.results| - 1] in t.results;
        } else {
          assert Quiet(p, k + 1, j);
        }
      }
    }
  }

  lemma {:induction false} PairedSuffix(p: seq<Projected>, k: nat)
    requires k <= |p| && Paired({}, p)
    ensures Follows({}, p[..k]) && Paired(OpenAfter({}, p[..k]), p[k..])
  {
    assert p == p[..k] + p[k..];
    PairedSplit({}, p[..k], p[k..]);
  }

  lemma {:induction false} OpenAfterAppend(open: set<string>, p: seq<Projected>, x: Projected)
    ensures OpenAfter(open, p + [x]) == OpenAfter(OpenAfter(open, p), [x])
    decreases |p|
  {
    if p == [] {
      assert p + [x] == [x];
    } else {
      assert (p + [x])[1..] == p[1..] + [x];
      match p[0].message
      case Assistant(_, _, calls, _) => OpenAfterAppend(CallIds(calls), p[1..], x);
      case User(_) => OpenAfterAppend({}, p[1..], x);
      case ToolResult(callId, _, _, _) => OpenAfterAppend(open - {callId}, p[1..], x);
      case Custom(_, _, _) => OpenAfterAppend(open, p[1..], x);
    }
  }

  /** The open calls before position k belong to the last turn before it. */
  lemma {:induction false} OpenBelongs(p: seq<Projected>, k: nat)
    requires k <= |p|
    ensures var t := LastTurn(p, k);
            var open := OpenAfter({}, p[..k]);
            open <= if t >= 0 && p[t].message.Assistant? then CallIds(p[t].message.calls) else {}
  {
    if k > 0 {
      assert p[..k] == p[..k - 1] + [p[k - 1]];
      OpenAfterAppend({}, p[..k - 1], p[k - 1]);
      assert [p[k - 1]][1..] == [];
      if !IsTurn(p[k - 1]) {
        OpenBelongs(p, k - 1);
      }
    }
  }

  /** A group holds no turn but its own. */
  lemma TurnOwnGroup(p: seq<Projected>, admit: Tool -> bool, i: nat, j: nat)
    requires UniqueSources(p) && i < |p| && j < |p| && IsTurn(p[j])
    ensures InGroup(p, i, admit, p[j].source.id) ==> i == j
  {
    hide GroupAt, ScanBatch, CallMap;
    var id := p[j].source.id;
    if InGroup(p, i, admit, id) && id != p[i].source.id {
      GroupOnlyResults(p, admit, i, id);
    }
  }

  /** Besides its turn a group holds tool results only. */
  lemma GroupOnlyResults(p: seq<Projected>, admit: Tool -> bool, i: nat, id: Id)
    requires i < |p| && InGroup(p, i, admit, id) && id != p[i].source.id
    ensures exists x | 0 <= x < |p| :: p[x].message.ToolResult? && p[x].source.id == id
  {
    var r :| r in GroupAt(p, i, admit).value && r.0 == id;
    var x := ScanOnlyBatch(p, i + 1, Scan(CallMap(p[i].message.calls), false, []), r);
  }

  /** Of a turn: it is grouped exactly when its own group is complete. */
  lemma TurnGrouped(p: seq<Projected>, admit: Tool -> bool, j: nat)
    requires UniqueSources(p) && j < |p| && IsTurn(p[j])
    ensures p[j].source.id in Groups(p, |p|, admit) <==> GroupAt(p, j, admit).Some?
  {
    hide GroupAt, Groups;
    var id := p[j].source.id;
    GroupsKeys(p, |p|, admit, id);
    forall i | 0 <= i < |p| ensures InGroup(p, i, admit, id) ==> i == j {
      TurnOwnGroup(p, admit, i, j);
    }
    if GroupAt(p, j, admit).Some? {
      assert InGroup(p, j, admit, id);
    }
  }

  /** A result in a paired projection answers the last turn, an assistant's. */
  lemma ResultTurn(p: seq<Projected>, j: nat) returns (t: nat)
    requires Paired({}, p) && j < |p| && p[j].message.ToolResult?
    ensures t < j && t == LastTurn(p, j) && p[t].message.Assistant? && Quiet(p, t + 1, j)
  {
    PairedSuffix(p, j);
    assert p[j..][0] == p[j];
    var callId := p[j].message.callId;
    assert callId in OpenAfter({}, p[..j]);
    OpenBelongs(p, j);
    t := LastTurn(p, j);
  }

  /** Every result of a complete group's batch is grouped. */
  lemma BatchGrouped(p: seq<Projected>, admit: Tool -> bool, t: nat, j: nat)
    requires Paired({}, p) && t < j < |p| && p[j].message.ToolResult?
    requires GroupAt(p, t, admit).Some? && Quiet(p, t + 1, j)
    ensures InGroup(p, t, admit, p[j].source.id)
  {
    var s := Scan(CallMap(p[t].message.calls), false, []);
    CallMapKeys(p[t].message.calls);
    PairedSuffix(p, t);
    assert p[t..][1..] == p[t + 1..];
    ScanHits(p, t + 1, s);
  }

  /** A group that holds the result at j starts at the last turn before it. */
  lemma HolderIsLastTurn(p: seq<Projected>, admit: Tool -> bool, i: nat, j: nat)
    requires UniqueSources(p) && i < |p| && j < |p| && p[j].message.ToolResult?
    requires InGroup(p, i, admit, p[j].source.id)
    ensures i < j && IsTurn(p[i]) && Quiet(p, i + 1, j)
  {
    var id := p[j].source.id;
    assert p[i].message.Assistant?;
    assert p[i].source.id != id;
    var r :| r in GroupAt(p, i, admit).value && r.0 == id;
    var x := ScanOnlyBatch(p, i + 1, Scan(CallMap(p[i].message.calls), false, []), r);
    assert x == j;
  }

  /** Of a result in a paired projection: it is grouped exactly when the last turn's group is complete. */
  lemma ResultGrouped(p: seq<Projected>, admit: Tool -> bool, j: nat, t: nat)
    requires UniqueSources(p) && Paired({}, p) && j < |p| && p[j].message.ToolResult?
    requires t < j && IsTurn(p[t]) && Quiet(p, t + 1, j)
    ensures p[j].source.id in Groups(p, |p|, admit) <==> GroupAt(p, t, admit).Some?
  {
    var id := p[j].source.id;
    GroupsKeys(p, |p|, admit, id);
    if GroupAt(p, t, admit).Some? {
      BatchGrouped(p, admit, t, j);
    }
    if i :| 0 <= i < |p| && InGroup(p, i, admit, id) {
      HolderIsLastTurn(p, admit, i, j);
      assert t == i;
    }
  }

  /** The ids a removal after position c takes: whole groups and custom messages, nothing before c. */
  predicate TakesGroupsAfter(p: seq<Projected>, c: nat, admit: Tool -> bool, gone: set<Id>)
    requires c <= |p|
  {
    && (forall j | 0 <= j < c :: p[j].source.id !in gone)
    && (forall j | c <= j < |p| && !p[j].message.Custom? ::
          p[j].source.id in gone <==> p[j].source.id in Groups(p, |p|, admit))
  }

  /** Whether the last turn before position k starts a complete group. */
  predicate TurnGroupOpen(p: seq<Projected>, k: nat, admit: Tool -> bool)
    requires k <= |p|
  {
    LastTurn(p, k) >= 0 && GroupAt(p, LastTurn(p, k), admit).Some?
  }

  lemma {:induction false} GroupsAreWhole(p: seq<Projected>, c: nat, k: nat, admit: Tool -> bool, gone: set<Id>)
    requires UniqueSources(p) && Paired({}, p) && c <= k <= |p| && TakesGroupsAfter(p, c, admit, gone)
    ensures Whole(p[k..], TurnGroupOpen(p, k, admit), gone)
    decreases |p| - k
  {
    if k < |p| {
      GroupsAreWhole(p, c, k + 1, admit, gone);
      assert p[k..][1..] == p[k + 1..];
      if IsTurn(p[k]) {
        TurnGrouped(p, admit, k);
      } else if p[k].message.ToolResult? {
        var t := ResultTurn(p, k);
        ResultGrouped(p, admit, k, t);
      }
    }
  }

  /** A batch the boundary cuts: calls still open at c whose group is removable. */
  predicate Straddles(p: seq<Projected>, c: nat, admit: Tool -> bool)
    requires c <= |p|
  {
    OpenAfter({}, p[..c]) != {} && TurnGroupOpen(p, c, admit)
  }

  lemma {:induction false} KeepBefore(p: seq<Projected>, gone: set<Id>)
    requires forall j | 0 <= j < |p| :: p[j].source.id !in gone
    ensures Keep(p, gone) == p
  {
    if p != [] {
      KeepBefore(p[1..], gone);
    }
  }

  lemma {:induction false} KeepConcat(p: seq<Projected>, q: seq<Projected>, gone: set<Id>)
    ensures Keep(p + q, gone) == Keep(p, gone) + Keep(q, gone)
  {
    if p == [] {
      assert p + q == q;
    } else {
      assert (p + q)[1..] == p[1..] + q;
      KeepConcat(p[1..], q, gone);
    }
  }

  /** Removing the complete groups after a boundary keeps the projection paired exactly when
      the boundary does not cut a removable batch. */
  lemma RemovalKeepsPairing(p: seq<Projected>, c: nat, admit: Tool -> bool, gone: set<Id>)
    requires UniqueSources(p) && Paired({}, p) && c <= |p| && TakesGroupsAfter(p, c, admit, gone)
    ensures Paired({}, Keep(p, gone)) <==> !Straddles(p, c, admit)
  {
    assert p == p[..c] + p[c..];
    KeepConcat(p[..c], p[c..], gone);
    KeepBefore(p[..c], gone);
    PairedSuffix(p, c);
    var open := OpenAfter({}, p[..c]);
    var kept := Keep(p[c..], gone);
    PairedSplit({}, p[..c], kept);
    GroupsAreWhole(p, c, c, admit, gone);
    if Straddles(p, c, admit) {
      KeepStuck(open, p[c..], gone);
    } else {
      KeepPaired(open, p[c..], TurnGroupOpen(p, c, admit), gone);
    }
  }
}
