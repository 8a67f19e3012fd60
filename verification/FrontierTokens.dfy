/** The frontier's prefix-sum economics against the token count of the edits themselves. */
module FrontierTokens {
  // They agree on a subset exactly when none of its markers is estimated above its message.

  import opened Wrappers
  import opened Branch
  import opened Economics
  import opened Frontier

  /** The edits of a subset: marker text by entry id. */
  function PickedMarkers(q: seq<Placed>, mask: seq<bool>, j: nat): map<Id, string>
    requires |mask| == |q|
    decreases |q| - j
  {
    if j >= |q| then map[]
    else
      var rest := PickedMarkers(q, mask, j + 1);
      if mask[j] then rest[q[j].candidate.id := q[j].candidate.marker] else rest
  }

  /** Net tokens of one placed candidate, negative when the marker is estimated larger. */
  function Net(h: Host, p: seq<Projected>, x: Placed): int {
    if x.index < |p| then Raw(h, p, x.index) - Kept(h, p, x.index, x.candidate.marker) else 0
  }

  function PickedNet(h: Host, p: seq<Projected>, q: seq<Placed>, mask: seq<bool>, j: nat): int
    requires |mask| == |q|
    decreases |q| - j
  {
    if j >= |q| then 0 else (if mask[j] then Net(h, p, q[j]) else 0) + PickedNet(h, p, q, mask, j + 1)
  }

  predicate AllPlaced(h: Host, p: seq<Projected>, q: seq<Placed>) {
    forall i | 0 <= i < |q| :: q[i] == Place(h, p, q[i].candidate)
  }

  lemma {:induction false} MarkerOfPick(q: seq<Placed>, mask: seq<bool>, j: nat, k: nat)
    requires |mask| == |q| && AllApart(q) && j <= k < |q| && mask[k]
    ensures var m := PickedMarkers(q, mask, j);
            q[k].candidate.id in m && m[q[k].candidate.id] == q[k].candidate.marker
    decreases |q| - j
  {
    if j < k {
      MarkerOfPick(q, mask, j + 1, k);
      assert Apart(q[j], q[k]);
    }
  }

  lemma {:induction false} PickOfMarker(q: seq<Placed>, mask: seq<bool>, j: nat, id: Id) returns (k: nat)
    requires |mask| == |q| && id in PickedMarkers(q, mask, j)
    ensures j <= k < |q| && mask[k] && q[k].candidate.id == id
    decreases |q| - j
  {
    if mask[j] && q[j].candidate.id == id {
      k := j;
    } else {
      k := PickOfMarker(q, mask, j + 1, id);
    }
  }

  /** A message has a marker exactly when a picked candidate is placed at it. */
  lemma MarkedExactly(h: Host, p: seq<Projected>, q: seq<Placed>, mask: seq<bool>, i: nat)
    requires |mask| == |q| && AllApart(q) && AllPlaced(h, p, q) && UniqueSources(p) && |p| <= ABSENT && i < |p|
    ensures p[i].source.id in PickedMarkers(q, mask, 0) <==> exists k :: 0 <= k < |q| && mask[k] && q[k].index == i
    ensures forall k | 0 <= k < |q| && mask[k] && q[k].index == i ::
              p[i].source.id in PickedMarkers(q, mask, 0)
              && PickedMarkers(q, mask, 0)[p[i].source.id] == q[k].candidate.marker
  {
    var id := p[i].source.id;
    if id in PickedMarkers(q, mask, 0) {
      var k := PickOfMarker(q, mask, 0, id);
      assert q[k] == Place(h, p, q[k].candidate);
      assert PositionOf(p, id, |p|) == Some(i);
    }
    forall k | 0 <= k < |q| && mask[k] && q[k].index == i
      ensures id in PickedMarkers(q, mask, 0) && PickedMarkers(q, mask, 0)[id] == q[k].candidate.marker
    {
      assert q[k] == Place(h, p, q[k].candidate);
      MarkerOfPick(q, mask, 0, k);
    }
  }

  lemma SamePlace(q: seq<Placed>, j: nat, k: nat)
    requires AllApart(q) && j < |q| && k < |q| && q[j].index == q[k].index != ABSENT
    ensures j == k
  {
  }

  /** At the position of candidate j, the marker is j's when j is picked, and none otherwise. */
  lemma MarkedAtPick(h: Host, p: seq<Projected>, q: seq<Placed>, mask: seq<bool>, j: nat)
    requires |mask| == |q| && AllApart(q) && AllPlaced(h, p, q) && UniqueSources(p) && |p| <= ABSENT
    requires j < |q| && q[j].index < |p|
    ensures var id := p[q[j].index].source.id;
            && (id in PickedMarkers(q, mask, 0) <==> mask[j])
            && (mask[j] ==> PickedMarkers(q, mask, 0)[id] == q[j].candidate.marker)
  {
    MarkedExactly(h, p, q, mask, q[j].index);
    forall k | 0 <= k < |q| && q[k].index == q[j].index ensures k == j {
      SamePlace(q, j, k);
    }
  }

  lemma {:induction false} AbsentNet(h: Host, p: seq<Projected>, q: seq<Placed>, mask: seq<bool>, j: nat)
    requires |mask| == |q| && forall i | j <= i < |q| :: q[i].index >= |p|
    ensures PickedNet(h, p, q, mask, j) == 0
    decreases |q| - j
  {
    if j < |q| {
      AbsentNet(h, p, q, mask, j + 1);
    }
  }

  /** The net saving of the edits from message m on is that of the picks from j on. */
  lemma {:induction false} SavedIsNet(h: Host, p: seq<Projected>, q: seq<Placed>, mask: seq<bool>, j: nat, m: nat)
    requires |mask| == |q| && AllApart(q) && Sorted(q) && AllPlaced(h, p, q) && UniqueSources(p) && |p| <= ABSENT
    requires j <= |q| && m <= |p|
    requires forall i | 0 <= i < |q| :: if i < j then q[i].index < m else m <= q[i].index
    ensures TokensFrom(h, p, PickedMarkers(q, mask, 0), m).saved == PickedNet(h, p, q, mask, j)
    decreases |q| - j
  {
    var markers := PickedMarkers(q, mask, 0);
    var n := if j < |q| && q[j].index < |p| then q[j].index else |p|;
    forall i | m <= i < n ensures p[i].source.id !in markers {
      MarkedExactly(h, p, q, mask, i);
    }
    SavedSkips(h, p, markers, m, n);
    if n == |p| {
      AbsentNet(h, p, q, mask, j);
    } else {
      forall i | 0 <= i < |q| ensures if i < j + 1 then q[i].index < n + 1 else n + 1 <= q[i].index {
        if i > j { assert Apart(q[j], q[i]); }
      }
      SavedIsNet(h, p, q, mask, j + 1, n + 1);
      MarkedAtPick(h, p, q, mask, j);
    }
  }

  /** Clamping each saving at zero changes the sum exactly when some saving is negative. */
  lemma {:induction false} ClampedSum(h: Host, p: seq<Projected>, q: seq<Placed>, mask: seq<bool>, j: nat)
    requires |mask| == |q| && AllPlaced(h, p, q) && |p| <= ABSENT
    ensures PickedNet(h, p, q, mask, j) <= PickedTokens(q, mask, j)
    ensures PickedNet(h, p, q, mask, j) == PickedTokens(q, mask, j)
            <==> forall i | j <= i < |q| && mask[i] :: Net(h, p, q[i]) >= 0
    decreases |q| - j
  {
    if j < |q| {
      ClampedSum(h, p, q, mask, j + 1);
      assert q[j] == Place(h, p, q[j].candidate);
    }
  }

  /** For every subset whose first pick is a message on the branch, the frontier's token
      saving and tail are those of the edits exactly when no picked marker is estimated
      above the message it replaces. */
  lemma EconomicsAgree(h: Host, p: seq<Projected>, cs: seq<Candidate>, mask: seq<bool>, wholePrompt: bool)
    requires DistinctIds(cs) && UniqueSources(p) && |p| <= ABSENT
    requires var q := Sort(PlaceAll(h, p, cs));
             |mask| == |q| && FirstPicked(mask, 0) < |q| && q[FirstPicked(mask, 0)].index < |p|
    ensures var q := Sort(PlaceAll(h, p, cs));
            var first := q[FirstPicked(mask, 0)].index;
            var tokens := PickedTokens(q, mask, 0);
            var t := TrimTokens(h, p, PickedMarkers(q, mask, 0), wholePrompt);
            t.saved == tokens && t.tail == RawFrom(h, p, if wholePrompt then 0 else first) - tokens
            <==> forall i | 0 <= i < |q| && mask[i] :: Net(h, p, q[i]) >= 0
  {
    var q := Sort(PlaceAll(h, p, cs));
    PlacedGrounded(h, p, cs);
    forall i | 0 <= i < |q| ensures q[i] == Place(h, p, q[i].candidate) {
      assert q[i] in q;
      PlacedTrue(h, p, cs, q[i]);
    }
    var f := FirstPicked(mask, 0);
    var markers := PickedMarkers(q, mask, 0);
    var first := FirstMarked(p, markers, 0);
    MarkedExactly(h, p, q, mask, q[f].index);
    if first < |p| {
      MarkedExactly(h, p, q, mask, first);
    }
    assert first == q[f].index;
    SavedIsNet(h, p, q, mask, 0, 0);
    forall i | 0 <= i < first ensures p[i].source.id !in markers {
      assert i < first;
    }
    SavedSkips(h, p, markers, 0, first);
    SavedPlusTail(h, p, markers, if wholePrompt then 0 else first);
    ClampedSum(h, p, q, mask, 0);
  }
}
