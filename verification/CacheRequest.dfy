/**
 The request object whose blocks the hook marks and unmarks in place.

 Every loop of the hook is here as a loop: listing markers, searching anchors backwards,
 lengthening and shortening lifetimes, clearing, evicting and dropping nested markers. Each
 method refines the function of the payload that the theorems are about.
 */
module CacheRequest {
  import opened Wrappers
  import opened CachePayload
  import opened CacheLimit
  import opened CacheAnchor
  import opened CacheRewrite

  /** The markers of a run of blocks, in order. */
  method ListRun(section: Section, msg: nat, bs: seq<Block>, before: seq<Marker>) returns (ms: seq<Marker>)
    ensures ms == before + ListBlocks(section, msg, bs)
  {
    ms := before;
    for i := 0 to |bs|
      invariant ms == before + ListBlocks(section, msg, bs[..i])
    {
      assert bs[..i + 1][..i] == bs[..i];
      if bs[i].cache.Some? { ms := ms + [Marker(RefAt(section, msg, i), bs[i].owned)]; }
    }
    assert bs[..|bs|] == bs;
  }

  method ListTurns(ts: seq<Message>, before: seq<Marker>) returns (ms: seq<Marker>)
    ensures ms == before + ListMessages(ts)
  {
    hide ListBlocks;
    ms := before;
    for i := 0 to |ts|
      invariant ms == before + ListMessages(ts[..i])
    {
      assert ts[..i + 1][..i] == ts[..i];
      ms := ListRun(MessageSection, i, BlocksOf(ts[i]), ms);
    }
    assert ts[..|ts|] == ts;
  }

  method ListAll(p: Payload) returns (ms: seq<Marker>)
    ensures ms == List(p)
  {
    hide ListBlocks, ListMessages;
    ms := ListRun(SystemSection, 0, p.system, []);
    ms := ListRun(ToolSection, 0, p.tools, ms);
    ms := ListTurns(p.messages, ms);
  }

  /** The newest message before `before` that renders the anchor, searched backwards. */
  method Locate(h: Host, ms: seq<Message>, a: Locator, before: nat) returns (r: Option<Spot>)
    requires before <= |ms|
    ensures r == Located(h, ms[..before], a)
  {
    var i := before;
    while i > 0
      invariant 0 <= i <= before
      invariant Located(h, ms[..before], a) == Located(h, ms[..i], a)
    {
      assert ms[..i][..i - 1] == ms[..i - 1];
      i := i - 1;
      var j := SpotIn(h, ms[i], a);
      if j.Some? { return Some(Spot(i, j.value)); }
    }
    r := None;
  }

  method FindLastAssistant(ms: seq<Message>) returns (n: nat)
    ensures n == AfterLastAssistant(ms)
  {
    n := |ms|;
    while n > 0
      invariant 0 <= n <= |ms| && AfterLastAssistant(ms[..n]) == AfterLastAssistant(ms)
    {
      assert ms[..n][..n - 1] == ms[..n - 1];
      if ms[n - 1].role == "assistant" { return; }
      n := n - 1;
    }
  }

  method TransitionBridge(h: Host, ms: seq<Message>, anchors: seq<Locator>, spot: Spot) returns (r: Option<Spot>)
    requires anchors != []
    ensures r == Bridge(h, ms, anchors, spot)
  {
    var n := FindLastAssistant(ms);
    if n == 0 || spot.msg < n - 1 { return None; }
    var before := anchors[..|anchors| - 1];
    var i := |before|;
    assert before[..i] == before;
    while i > 0
      invariant 0 <= i <= |before|
      invariant LastLocated(h, ms[..n - 1], before[..i]) == Bridge(h, ms, anchors, spot)
    {
      assert before[..i][..i - 1] == before[..i - 1];
      i := i - 1;
      r := Locate(h, ms, before[i], n - 1);
      if r.Some? { return; }
    }
    r := None;
  }

  method LengthenRun(bs: seq<Block>) returns (r: seq<Block>)
    ensures r == LongTop(bs)
  {
    r := bs;
    for i := 0 to |bs|
      invariant |r| == |bs| && r[..i] == LongTop(bs)[..i] && r[i..] == bs[i..]
    {
      r := r[i := r[i].(cache := if r[i].cache.Some? then Some(Long) else None)];
    }
  }

  method LengthenTurns(ms: seq<Message>) returns (r: seq<Message>)
    ensures r == LongMessages(ms)
  {
    r := ms;
    for i := 0 to |ms|
      invariant |r| == |ms| && r[..i] == LongMessages(ms)[..i] && r[i..] == ms[i..]
    {
      r := r[i := LongMessage(r[i])];
    }
  }

  method ShortenTurns(ms: seq<Message>, msg: nat) returns (r: seq<Message>)
    requires msg < |ms|
    ensures r == ShortMessages(ms, msg)
  {
    r := ms;
    for i := msg + 1 to |ms|
      invariant |r| == |ms| && r[..i] == ShortMessages(ms, msg)[..i] && r[i..] == ms[i..]
    {
      assert r[i] == ms[i..][0] == ms[i] && ShortMessages(ms, msg)[i] == ShortMessage(ms[i]);
      if r[i].content.Blocks? { r := r[i := ShortMessage(r[i])]; }
    }
  }

  class Request {
    var system: seq<Block>
    var tools: seq<Block>
    var messages: seq<Message>

    constructor (p: Payload)
      ensures View() == p
    {
      system, tools, messages := p.system, p.tools, p.messages;
    }

    function View(): Payload
      reads this
    {
      Payload(system, tools, messages)
    }

    method SetBlock(r: Ref, b: Block)
      requires ValidRef(View(), r)
      modifies this
      ensures View() == CachePayload.Put(old(View()), r, b)
    {
      match r.section
      case SystemSection => system := system[r.idx := b];
      case ToolSection => tools := tools[r.idx := b];
      case MessageSection =>
        messages := messages[r.idx := messages[r.idx].(content := Blocks(messages[r.idx].content.blocks[r.block := b]))];
    }

    /** Every marker the provider reads becomes long. */
    method Lengthen()
      modifies this
      ensures View() == MakeLong(old(View()))
    {
      system := LengthenRun(system);
      tools := LengthenRun(tools);
      messages := LengthenTurns(messages);
    }

    /** Markers after a message become short. */
    method Shorten(msg: nat)
      requires msg < |messages|
      modifies this
      ensures View() == ShortAfter(old(View()), msg)
    {
      messages := ShortenTurns(messages, msg);
    }

    /** Take away the listed message markers before the spot. */
    method ClearBefore(spot: Spot)
      modifies this
      ensures ListedValid(old(View()))
      ensures View() == ClearListed(old(View()), List(old(View())), spot)
    {
      ListedAll(View());
      var ms := ListAll(View());
      ghost var target := ClearListed(View(), ms, spot);
      for k := 0 to |ms|
        invariant forall i | k <= i < |ms| :: ValidRef(View(), ms[i].ref)
        invariant ClearRest(View(), ms, k, spot) == target
      {
        var r := ms[k].ref;
        assert ms[k..][1..] == ms[k + 1..] && ms[k..][0] == ms[k];
        if BeforeSpot(r, spot) {
          ghost var p := View();
          SetBlock(r, At(View(), r).(cache := None));
          forall i | k < i < |ms| ensures ValidRef(View(), ms[i].ref) { PutRefs(p, r, At(p, r).(cache := None), ms[i].ref); }
        }
      }
    }

    method PlaceMarker(spot: Spot, ttl: Ttl)
      requires ValidRef(View(), RefOf(spot))
      modifies this
      ensures View() == SetMarker(old(View()), spot, ttl)
    {
      SetBlock(RefOf(spot), At(View(), RefOf(spot)).(cache := Some(ttl), owned := true));
    }

    method EvictExcess()
      modifies this
      ensures View() == EvictTop(old(View()))
    {
      hide EvictTop, List, Evictable;
      ghost var p := View();
      var ms := ListAll(View());
      while |ms| > MARKER_LIMIT
        invariant ms == List(View()) && EvictTop(View()) == EvictTop(p)
        decreases |ms|
      {
        var out := Evictable(ms);
        if out == [] { break; }
        ghost var q := View();
        EvictShrinks(q);
        EvictNext(q);
        SetBlock(out[0].ref, At(View(), out[0].ref).(cache := None));
        ms := ListAll(View());
      }
      EvictDone(View());
    }

    method DropExcess()
      modifies this
      ensures View() == DropNested(old(View()))
    {
      hide DropNested, Markers, DropOne, ForeignMarks;
      ghost var p := View();
      var more := true;
      while more && Markers(View()) > MARKER_LIMIT
        invariant DropNested(View()) == DropNested(p)
        invariant !more ==> !DropOne(View()).1
        decreases ForeignMarks(View()) + if more then 1 else 0
      {
        DropNestedNext(View());
        var (next, hit) := DropOne(View());
        system, tools, messages := next.system, next.tools, next.messages;
        more := hit;
      }
      DropDone(View());
    }

    /** Evict until the limit holds, then drop nested markers. */
    method EnforceLimit()
      modifies this
      ensures View() == Enforce(old(View()))
    {
      EvictExcess();
      DropExcess();
    }

    /** The hook: rewrite the request in place, or leave it alone. */
    method Apply(h: Host, anchors: seq<Locator>, s: Settings) returns (applied: bool)
      modifies this
      ensures applied <==> Rewritten(h, old(View()), anchors, s).Some?
      ensures View() == if applied then Rewritten(h, old(View()), anchors, s).value else old(View())
    {
      ghost var p := View();
      if !IsAnthropic(View()) { return false; }
      var ms := ListAll(View());
      if Pick(ms, MessageSection) == [] { return false; }
      if !s.enabled || s.ignoresMessages || anchors == [] { return false; }
      assert messages[..|messages|] == messages;
      var spot := Locate(h, messages, anchors[|anchors| - 1], |messages|);
      if spot.None? { return false; }
      LocatedIs(h, messages, anchors[|anchors| - 1]);
      Rewrite(h, anchors, spot.value);
      EnforceLimit();
      applied := true;
    }

    method MoveToAnchor(spot: Spot, long: bool)
      requires ValidSpot(View(), spot) && long == HasLong(View())
      modifies this
      ensures View() == Anchored(old(View()), spot)
    {
      ghost var p := View();
      MakeLongIs(p);
      if long { Lengthen(); }
      ghost var p1 := View();
      SameRefs(p, p1);
      ListedAll(p1);
      ClearIs(p1, List(p1), spot);
      ClearBefore(spot);
      PlaceMarker(spot, if long then Long else NoTtl);
    }

    /** Mark the previous anchor as well while the newest has no reply and a marker can be spared. */
    method PlaceBridge(h: Host, anchors: seq<Locator>, spot: Spot, ttl: Ttl)
      requires anchors != []
      modifies this
      ensures var b := Placed(h, old(View()), anchors, spot);
              (b.Some? ==> ValidRef(old(View()), RefOf(b.value))) && View() == WithBridge(old(View()), b, ttl)
    {
      hide List, Evictable, SetMarker, Bridge;
      BridgeIs(h, messages, anchors, spot);
      var bridge := TransitionBridge(h, messages, anchors, spot);
      if bridge.None? { return; }
      var ms := ListAll(View());
      if |ms| - |Evictable(ms)| < MARKER_LIMIT { PlaceMarker(bridge.value, ttl); }
    }

    method Rewrite(h: Host, anchors: seq<Locator>, spot: Spot)
      requires anchors != [] && ValidSpot(View(), spot)
      modifies this
      ensures View() == Prepared(h, old(View()), anchors, spot)
    {
      hide Anchored, WithBridge, Placed, ErasePayload, HasLong;
      ghost var p := View();
      var long := HasLong(View());
      MoveToAnchor(spot, long);
      AnchoredIs(p, spot);
      SameRefs(p, View());
      PlaceBridge(h, anchors, spot, if long then Long else NoTtl);
      BridgeLength(Anchored(p, spot), Placed(h, Anchored(p, spot), anchors, spot), if long then Long else NoTtl);
      if long { Shorten(spot.msg); }
    }
  }

  lemma BridgeLength(p: Payload, bridge: Option<Spot>, ttl: Ttl)
    requires bridge.Some? ==> ValidRef(p, RefOf(bridge.value))
    ensures |WithBridge(p, bridge, ttl).messages| == |p.messages|
  {
  }

  lemma EvictNext(p: Payload)
    requires |List(p)| > MARKER_LIMIT && Evictable(List(p)) != []
    ensures var r := Evictable(List(p))[0].ref; ValidRef(p, r) && EvictTop(p) == EvictTop(Delete(p, r))
  {
    EvictShrinks(p);
  }

  lemma DropNestedNext(p: Payload)
    requires Markers(p) > MARKER_LIMIT
    ensures var (q, hit) := DropOne(p);
            && DropNested(p) == DropNested(q) && ForeignMarks(q) == ForeignMarks(p) - (if hit then 1 else 0)
            && (!hit ==> !DropOne(q).1)
  {
    DropOneIs(p);
    DropInIs(p.system);
  }

  lemma EvictDone(p: Payload)
    requires |List(p)| <= MARKER_LIMIT || Evictable(List(p)) == []
    ensures EvictTop(p) == p
  {
  }

  lemma DropDone(p: Payload)
    requires Markers(p) <= MARKER_LIMIT || !DropOne(p).1
    ensures DropNested(p) == p
  {
  }

  function ClearRest(p: Payload, ms: seq<Marker>, k: nat, spot: Spot): Payload
    requires k <= |ms| && forall i | k <= i < |ms| :: ValidRef(p, ms[i].ref)
  {
    ClearListed(p, ms[k..], spot)
  }

  predicate ListedValid(p: Payload) {
    forall i | 0 <= i < |List(p)| :: ValidRef(p, List(p)[i].ref)
  }

  lemma ListedAll(p: Payload)
    ensures ListedValid(p)
  {
    ListIs(p);
    forall i | 0 <= i < |List(p)| ensures ValidRef(p, List(p)[i].ref) { assert List(p)[i] in List(p); }
  }
}
