/**
 What the rewritten request keeps.

 Its text, apart from cache markers; the marker limit for a request that carries none of the
 hook's markers yet; the anchor's and the bridge's marker; and the order of long and short
 markers over all top-level places. All of it holds for an anchor at any existing block.
 */
module CacheRewrite {
  import opened Wrappers
  import opened CachePayload
  import opened CacheLimit
  import opened CacheAnchor

  function Mark(b: Block, owned: bool): nat {
    if b.cache.Some? && b.owned == owned then 1 else 0
  }

  // ---------------------------------------------------------------- counts through the steps

  /** Replacing a block's own marker changes the count by that marker. */
  lemma PutCounted(p: Payload, r: Ref, b: Block, owned: bool)
    requires ValidRef(p, r) && b.children == At(p, r).children
    ensures Counted(Put(p, r, b), owned) + Mark(At(p, r), owned) == Counted(p, owned) + Mark(b, owned)
  {
    match r.section
    case SystemSection => MarksUpdate(p.system, r.idx, b, owned);
    case ToolSection => MarksUpdate(p.tools, r.idx, b, owned);
    case MessageSection =>
      MarksUpdate(BlocksOf(p.messages[r.idx]), r.block, b, owned);
      MessageUpdate(p.messages, r.idx, Put(p, r, b).messages[r.idx], owned);
  }

  lemma {:induction false} LongBlockIs(b: Block)
    ensures Erase(LongBlock(b)) == Erase(b)
    ensures forall owned :: Marks(LongBlock(b), owned) == Marks(b, owned)
    decreases b
  {
    LongAllIs(b.children);
  }

  lemma {:induction false} LongAllIs(bs: seq<Block>)
    ensures EraseAll(LongAll(bs)) == EraseAll(bs)
    ensures forall owned :: MarksAll(LongAll(bs), owned) == MarksAll(bs, owned)
    decreases bs
  {
    forall i | 0 <= i < |bs| ensures Erase(LongBlock(bs[i])) == Erase(bs[i]) {
      LongBlockIs(bs[i]);
    }
    if bs != [] {
      LongBlockIs(bs[0]);
      LongAllIs(bs[1..]);
      assert LongAll(bs)[1..] == LongAll(bs[1..]);
    }
  }

  lemma {:induction false} LongTopIs(bs: seq<Block>)
    ensures EraseAll(LongTop(bs)) == EraseAll(bs)
    ensures forall owned :: TopMarks(LongTop(bs), owned) == TopMarks(bs, owned)
  {
    if bs != [] {
      LongTopIs(bs[1..]);
      assert LongTop(bs)[1..] == LongTop(bs[1..]);
    }
  }

  lemma {:induction false} LongMessagesIs(ms: seq<Message>)
    ensures forall owned :: MessageMarks(LongMessages(ms), owned) == MessageMarks(ms, owned)
  {
    if ms != [] {
      var n := |ms| - 1;
      LongMessagesIs(ms[..n]);
      LongAllIs(BlocksOf(ms[n]));
      var ns := LongMessages(ms);
      assert ns[..n] == LongMessages(ms[..n]);
      assert BlocksOf(ns[n]) == LongAll(BlocksOf(ms[n]));
    }
  }

  lemma MakeLongIs(p: Payload)
    ensures ErasePayload(MakeLong(p)) == ErasePayload(p)
    ensures forall owned :: Counted(MakeLong(p), owned) == Counted(p, owned)
  {
    LongTopIs(p.system);
    LongTopIs(p.tools);
    LongMessagesIs(p.messages);
    forall i | 0 <= i < |p.messages| ensures EraseMessage(LongMessage(p.messages[i])) == EraseMessage(p.messages[i]) {
      if p.messages[i].content.Blocks? { LongAllIs(p.messages[i].content.blocks); }
    }
    assert ErasePayload(MakeLong(p)).messages == ErasePayload(p).messages;
  }

  lemma {:induction false} ShortBlocksIs(bs: seq<Block>)
    ensures EraseAll(ShortBlocks(bs)) == EraseAll(bs)
    ensures forall owned :: MarksAll(ShortBlocks(bs), owned) == MarksAll(bs, owned)
  {
    if bs != [] {
      ShortBlocksIs(bs[1..]);
      assert ShortBlocks(bs)[1..] == ShortBlocks(bs[1..]);
    }
  }

  lemma {:induction false} ShortMessagesIs(ms: seq<Message>, msg: nat)
    ensures forall owned :: MessageMarks(ShortMessages(ms, msg), owned) == MessageMarks(ms, owned)
  {
    if ms != [] {
      var n := |ms| - 1;
      ShortMessagesIs(ms[..n], msg);
      ShortBlocksIs(BlocksOf(ms[n]));
      var ns := ShortMessages(ms, msg);
      assert ns[..n] == ShortMessages(ms[..n], msg);
      assert BlocksOf(ShortMessage(ms[n])) == ShortBlocks(BlocksOf(ms[n]));
    }
  }

  lemma ShortAfterIs(p: Payload, msg: nat)
    ensures ErasePayload(ShortAfter(p, msg)) == ErasePayload(p)
    ensures forall owned :: Counted(ShortAfter(p, msg), owned) == Counted(p, owned)
  {
    ShortMessagesIs(p.messages, msg);
    forall i | 0 <= i < |p.messages| ensures EraseMessage(ShortMessage(p.messages[i])) == EraseMessage(p.messages[i]) {
      if p.messages[i].content.Blocks? { ShortBlocksIs(p.messages[i].content.blocks); }
    }
    assert ErasePayload(ShortAfter(p, msg)).messages == ErasePayload(p).messages;
  }

  lemma {:induction false} ClearCounted(p: Payload, ms: seq<Marker>, spot: Spot, owned: bool)
    requires forall i | 0 <= i < |ms| :: ValidRef(p, ms[i].ref)
    ensures Counted(ClearListed(p, ms, spot), owned) <= Counted(p, owned)
    decreases |ms|
  {
    if ms != [] {
      var r := ms[0].ref;
      var q := if BeforeSpot(r, spot) then Delete(p, r) else p;
      PutCounted(p, r, At(p, r).(cache := None), owned);
      var rest := ms[1..];
      forall i | 0 <= i < |rest| ensures ValidRef(q, rest[i].ref) {
        assert rest[i] == ms[i + 1];
        PutRefs(p, r, At(p, r).(cache := None), rest[i].ref);
      }
      ClearCounted(q, rest, spot, owned);
    }
  }

  lemma SetMarkerIs(p: Payload, spot: Spot, ttl: Ttl)
    requires ValidRef(p, RefOf(spot))
    ensures ErasePayload(SetMarker(p, spot, ttl)) == ErasePayload(p)
    ensures Counted(SetMarker(p, spot, ttl), true) <= Counted(p, true) + 1
  {
    var b := At(p, RefOf(spot)).(cache := Some(ttl), owned := true);
    PutErases(p, RefOf(spot), b);
    PutCounted(p, RefOf(spot), b, true);
  }

  lemma AnchoredIs(p: Payload, spot: Spot)
    requires ValidSpot(p, spot)
    ensures var q := Anchored(p, spot);
            ErasePayload(q) == ErasePayload(p) && Counted(q, true) <= Counted(p, true) + 1
  {
    var p1 := if HasLong(p) then MakeLong(p) else p;
    MakeLongIs(p);
    ListIs(p1);
    var p2 := ClearListed(p1, List(p1), spot);
    ClearIs(p1, List(p1), spot);
    ClearCounted(p1, List(p1), spot, true);
    SameRefs(p, p2);
    SetMarkerIs(p2, spot, if HasLong(p) then Long else NoTtl);
  }

  /** The hook adds at most two markers of its own, and no text changes. */
  lemma PreparedIs(h: Host, p: Payload, anchors: seq<Locator>, spot: Spot)
    requires anchors != [] && ValidSpot(p, spot)
    ensures var q := Prepared(h, p, anchors, spot);
            ErasePayload(q) == ErasePayload(p) && Counted(q, true) <= Counted(p, true) + 2
  {
    var p3 := Anchored(p, spot);
    AnchoredIs(p, spot);
    var bridge := Placed(h, p3, anchors, spot);
    BridgeIs(h, p3.messages, anchors, spot);
    if bridge.Some? { SetMarkerIs(p3, bridge.value, if HasLong(p) then Long else NoTtl); }
    ShortAfterIs(WithBridge(p3, bridge, if HasLong(p) then Long else NoTtl), spot.msg);
  }

  /** No block carries a marker of the hook yet. */
  predicate Fresh(p: Payload) {
    Counted(p, true) == 0
  }

  /** What the hook returns is the payload rewritten for an existing spot. */
  lemma RewrittenIs(h: Host, p: Payload, anchors: seq<Locator>, s: Settings)
    ensures var (r, spot) := (Rewritten(h, p, anchors, s), Target(h, p, anchors, s));
            && (r.Some? <==> spot.Some?)
            && (r.Some? ==> anchors != [] && ValidSpot(p, spot.value) && r.value == Rewrite(h, p, anchors, spot.value))
  {
    if anchors != [] { LocatedIs(h, p.messages, anchors[|anchors| - 1]); }
    hide Rewrite, IsAnthropic, HasMessageMarker, Located;
  }

  /** Every rewritten request says what it said before, apart from its cache markers. It has at most
      four of them, nested ones included, exactly when the hook's own are at most four; and so always
      when the hook had at most two before, which a fresh request has. */
  lemma RewriteWithinLimit(h: Host, p: Payload, anchors: seq<Locator>, spot: Spot)
    requires anchors != [] && ValidSpot(p, spot)
    ensures var q := Rewrite(h, p, anchors, spot);
            && ErasePayload(q) == ErasePayload(p)
            && (Markers(q) <= MARKER_LIMIT <==> Counted(Prepared(h, p, anchors, spot), true) <= MARKER_LIMIT)
            && (Counted(p, true) + 2 <= MARKER_LIMIT ==> Markers(q) <= MARKER_LIMIT)
  {
    PreparedIs(h, p, anchors, spot);
    EnforceMeetsLimit(Prepared(h, p, anchors, spot));
    hide Prepared, Enforce, Counted, ErasePayload, Markers;
  }

  // ---------------------------------------------------------------- what becomes of each place

  /** The hook's own markers: the anchor, and the bridge if one is placed. */
  predicate OwnPlace(h: Host, p: Payload, anchors: seq<Locator>, spot: Spot, r: Ref)
    requires anchors != [] && ValidSpot(p, spot)
  {
    r == RefOf(spot) || (Placed(h, Anchored(p, spot), anchors, spot).Some? && r == RefOf(Placed(h, Anchored(p, spot), anchors, spot).value))
  }

  lemma LongAt(p: Payload, r: Ref)
    requires ValidRef(p, r)
    ensures ValidRef(MakeLong(p), r)
    ensures At(MakeLong(p), r).owned == At(p, r).owned
    ensures At(MakeLong(p), r).cache == if At(p, r).cache.Some? then Some(Long) else None
  {
    if r.section.MessageSection? {
      var m := p.messages[r.idx];
      assert MakeLong(p).messages[r.idx] == LongMessage(m);
      assert BlocksOf(LongMessage(m)) == LongAll(m.content.blocks);
      assert LongAll(m.content.blocks)[r.block] == LongBlock(m.content.blocks[r.block]);
    }
  }

  lemma NotLongAt(p: Payload, r: Ref)
    requires ValidRef(p, r) && !HasLong(p)
    ensures At(p, r).cache != Some(Long)
  {
    if r.section.MessageSection? {
      var bs := BlocksOf(p.messages[r.idx]);
      assert !AnyLong(bs);
      assert !LongIn(bs[r.block]);
    }
  }

  lemma ShortAt(p: Payload, msg: nat, r: Ref)
    requires ValidRef(p, r)
    ensures ValidRef(ShortAfter(p, msg), r)
    ensures var (a, b) := (At(ShortAfter(p, msg), r), At(p, r));
            a.owned == b.owned
            && a.cache == if r.section.MessageSection? && r.idx > msg && b.cache.Some? then Some(Short) else b.cache
  {
  }

  /** A place of the anchored payload: the anchor's marker, nothing before it in the messages, and
      elsewhere what was there, made long if any marker was long. */
  lemma AnchoredAt(p: Payload, spot: Spot, r: Ref)
    requires ValidSpot(p, spot) && ValidRef(p, r)
    ensures ValidRef(Anchored(p, spot), r)
    ensures var (a, b) := (At(Anchored(p, spot), r), At(p, r));
            && (r == RefOf(spot) ==> a.owned && a.cache == Some(if HasLong(p) then Long else NoTtl))
            && (r != RefOf(spot) ==>
                  && a.owned == b.owned
                  && a.cache == if BeforeSpot(r, spot) || b.cache.None? then None else if HasLong(p) then Some(Long) else b.cache)
  {
    var p1 := if HasLong(p) then MakeLong(p) else p;
    LongAt(p, r);
    MakeLongIs(p);
    SameRefs(p, p1);
    ListIs(p1);
    ClearIs(p1, List(p1), spot);
    var p2 := ClearListed(p1, List(p1), spot);
    assert ValidRef(p2, r) && ValidRef(p2, RefOf(spot));
    hide ClearListed, MakeLong;
    var c := At(p2, RefOf(spot)).(cache := Some(if HasLong(p) then Long else NoTtl), owned := true);
    PutRefs(p2, RefOf(spot), c, r);
    PutAt(p2, RefOf(spot), c, r);
    if At(p1, r).cache.Some? {
      assert Marker(r, At(p1, r).owned) in List(p1);
      assert Lists(List(p1), r);
    }
    hide HasLong, Put, List;
  }

  /** The bridge's marker. */
  lemma BridgedAt(p3: Payload, bridge: Option<Spot>, ttl: Ttl, r: Ref)
    requires ValidRef(p3, r) && (bridge.Some? ==> ValidRef(p3, RefOf(bridge.value)))
    ensures var p4 := WithBridge(p3, bridge, ttl);
            && ValidRef(p4, r)
            && (if bridge.Some? && r == RefOf(bridge.value) then At(p4, r).owned && At(p4, r).cache == Some(ttl) else At(p4, r) == At(p3, r))
  {
    if bridge.Some? {
      var b := RefOf(bridge.value);
      var c := At(p3, b).(cache := Some(ttl), owned := true);
      PutRefs(p3, b, c, r);
      PutAt(p3, b, c, r);
    }
  }

  /** The same of the prepared payload, with the bridge, and short markers after the anchor's message. */
  lemma PreparedAt(h: Host, p: Payload, anchors: seq<Locator>, spot: Spot, r: Ref)
    requires anchors != [] && ValidSpot(p, spot) && ValidRef(p, r)
    ensures ValidRef(Prepared(h, p, anchors, spot), r)
    ensures var (a, b) := (At(Prepared(h, p, anchors, spot), r), At(p, r));
            && (OwnPlace(h, p, anchors, spot, r) ==> a.owned && a.cache == Some(if HasLong(p) then Long else NoTtl))
            && (!OwnPlace(h, p, anchors, spot, r) ==>
                  && a.owned == b.owned
                  && (a.cache.Some? <==> !BeforeSpot(r, spot) && b.cache.Some?)
                  && (a.cache.Some? ==> a.cache == if !HasLong(p) then b.cache
                                                   else Some(if r.section.MessageSection? && r.idx > spot.msg then Short else Long)))
  {
    var p3 := Anchored(p, spot);
    AnchoredAt(p, spot, r);
    AnchoredIs(p, spot);
    SameRefs(p, p3);
    var bridge := Placed(h, p3, anchors, spot);
    BridgeIs(h, p3.messages, anchors, spot);
    var ttl := if HasLong(p) then Long else NoTtl;
    BridgedAt(p3, bridge, ttl, r);
    ShortAt(WithBridge(p3, bridge, ttl), spot.msg, r);
    BridgeBefore(h, p, anchors, spot);
    hide Anchored, HasLong, ShortAfter, WithBridge, At, ErasePayload, Placed, ValidRef;
  }

  lemma BridgeBefore(h: Host, p: Payload, anchors: seq<Locator>, spot: Spot)
    requires anchors != [] && ValidSpot(p, spot)
    ensures var b := Placed(h, Anchored(p, spot), anchors, spot); b.Some? ==> b.value.msg < spot.msg
  {
    BridgeIs(h, Anchored(p, spot).messages, anchors, spot);
    hide Anchored;
  }

  /** The anchor's marker survives, and so does the bridge's. */
  lemma OwnMarkersSurvive(h: Host, p: Payload, anchors: seq<Locator>, spot: Spot, r: Ref)
    requires anchors != [] && ValidSpot(p, spot) && ValidRef(p, r) && OwnPlace(h, p, anchors, spot, r)
    ensures var q := Rewrite(h, p, anchors, spot);
            ValidRef(q, r) && At(q, r).owned && At(q, r).cache == Some(if HasLong(p) then Long else NoTtl)
  {
    var m := Prepared(h, p, anchors, spot);
    PreparedAt(h, p, anchors, spot, r);
    EnforceMeetsLimit(m);
    hide Prepared, Enforce, HasLong;
  }

  // ---------------------------------------------------------------- long before short

  /** Does a place come before another in the order the provider caches: tools, system, messages. */
  predicate Earlier(a: Ref, b: Ref) {
    match (a.section, b.section)
    case (ToolSection, ToolSection) => a.idx < b.idx
    case (ToolSection, _) => true
    case (SystemSection, SystemSection) => a.idx < b.idx
    case (SystemSection, MessageSection) => true
    case (MessageSection, MessageSection) => a.idx < b.idx || (a.idx == b.idx && a.block < b.block)
    case (_, _) => false
  }

  /** A marker of the rewritten request: with a long marker anywhere, long up to the anchor's
      message and short after it; otherwise none is long. */
  lemma TtlAt(h: Host, p: Payload, anchors: seq<Locator>, spot: Spot, r: Ref)
    requires anchors != [] && ValidSpot(p, spot) && ValidRef(p, r)
    ensures var q := Rewrite(h, p, anchors, spot);
            && ValidRef(q, r)
            && (At(q, r).cache.Some? ==>
                  if HasLong(p) then At(q, r).cache == Some(if r.section.MessageSection? && r.idx > spot.msg then Short else Long)
                  else At(q, r).cache != Some(Long))
  {
    var m := Prepared(h, p, anchors, spot);
    EnforceMeetsLimit(m);
    PreparedAt(h, p, anchors, spot, r);
    LaterThanAnchor(h, p, anchors, spot, r);
    if !HasLong(p) { NotLongAt(p, r); }
    hide Prepared, Enforce, HasLong, Anchored, Placed, OwnPlace, At, ValidRef, ErasePayload;
  }

  /** No long marker comes after one that is not long, for any payload: the places compared are
      the top-level ones. */
  lemma LongNeverFollowsShort(h: Host, p: Payload, anchors: seq<Locator>, spot: Spot, a: Ref, b: Ref)
    requires anchors != [] && ValidSpot(p, spot) && ValidRef(p, a) && ValidRef(p, b) && Earlier(a, b)
    ensures var q := Rewrite(h, p, anchors, spot);
            && ValidRef(q, a) && ValidRef(q, b)
            && (At(q, a).cache.Some? && At(q, b).cache == Some(Long) ==> At(q, a).cache == Some(Long))
  {
    TtlAt(h, p, anchors, spot, a);
    TtlAt(h, p, anchors, spot, b);
    hide Rewrite, HasLong, At, ValidRef, ErasePayload;
  }

  /** What the hook sends: with a target found, the same request with other markers, within the limit
      unless the hook's own exceed it, the anchor marked, and no long marker after a short one. */
  lemma SentRequest(h: Host, p: Payload, anchors: seq<Locator>, s: Settings)
    ensures var (r, spot) := (Rewritten(h, p, anchors, s), Target(h, p, anchors, s));
            && (r.Some? <==> spot.Some?)
            && (r.Some? ==>
                  && ErasePayload(r.value) == ErasePayload(p)
                  && (Counted(p, true) + 2 <= MARKER_LIMIT ==> Markers(r.value) <= MARKER_LIMIT)
                  && ValidRef(r.value, RefOf(spot.value)) && At(r.value, RefOf(spot.value)).cache.Some?
                  && forall a, b | ValidRef(p, a) && ValidRef(p, b) && Earlier(a, b) ::
                       && ValidRef(r.value, a) && ValidRef(r.value, b)
                       && (At(r.value, a).cache.Some? && At(r.value, b).cache == Some(Long) ==> At(r.value, a).cache == Some(Long)))
  {
    RewrittenIs(h, p, anchors, s);
    hide Rewrite, Rewritten, Target, HasLong, At, ErasePayload, Earlier, Counted, Markers;
    var (r, t) := (Rewritten(h, p, anchors, s), Target(h, p, anchors, s));
    if r.Some? {
      var spot := t.value;
      RewriteWithinLimit(h, p, anchors, spot);
      OwnMarkersSurvive(h, p, anchors, spot, RefOf(spot));
      forall a, b | ValidRef(p, a) && ValidRef(p, b) && Earlier(a, b)
        ensures ValidRef(r.value, a) && ValidRef(r.value, b)
                && (At(r.value, a).cache.Some? && At(r.value, b).cache == Some(Long) ==> At(r.value, a).cache == Some(Long))
      {
        LongNeverFollowsShort(h, p, anchors, spot, a, b);
      }
    }
  }

  /** The hook's own places are not after the anchor's message. */
  lemma LaterThanAnchor(h: Host, p: Payload, anchors: seq<Locator>, spot: Spot, r: Ref)
    requires anchors != [] && ValidSpot(p, spot)
    ensures OwnPlace(h, p, anchors, spot, r) ==> r.section.MessageSection? && r.idx <= spot.msg && (r == RefOf(spot) || BeforeSpot(r, spot))
  {
    BridgeIs(h, Anchored(p, spot).messages, anchors, spot);
    hide Anchored;
  }
}
