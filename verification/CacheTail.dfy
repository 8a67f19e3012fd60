/**
 Which markers go when there are too many.

 The top-level markers that go are the first ones of the eviction order, no more than needed.
 The rolling tail is not among them: for a request without nested markers the last message
 marker outlives the whole rewrite, unless it stood before the anchor and gave way to it.
 Then the anchor itself is the last one.
 */
module CacheTail {
  import opened Wrappers
  import opened CachePayload
  import opened CacheLimit
  import opened CacheAnchor
  import opened CacheRewrite

  // ---------------------------------------------------------------- removing one marker from a list

  lemma WithoutOne(ms: seq<Marker>, m: Marker, r: Ref)
    ensures Without(ms + [m], r) == Without(ms, r) + if m.ref == r then [] else [m]
  {
    assert (ms + [m])[..|ms|] == ms;
  }

  lemma PickOne(ms: seq<Marker>, m: Marker, section: Section)
    ensures Pick(ms + [m], section) == Pick(ms, section) + if m.ref.section == section then [m] else []
  {
    assert (ms + [m])[..|ms|] == ms;
  }

  lemma {:induction false} PickWithout(ms: seq<Marker>, r: Ref, section: Section)
    ensures Pick(Without(ms, r), section) == Without(Pick(ms, section), r)
  {
    if ms != [] {
      var (init, m) := (ms[..|ms| - 1], ms[|ms| - 1]);
      PickWithout(init, r, section);
      assert ms == init + [m];
      WithoutOne(init, m, r);
      PickOne(init, m, section);
      if m.ref != r {
        PickOne(Without(init, r), m, section);
      } else {
        assert Without(init, r) + [] == Without(init, r);
      }
      if m.ref.section == section {
        WithoutOne(Pick(init, section), m, r);
      } else {
        assert Pick(init, section) + [] == Pick(init, section) && Without(Pick(init, section), r) + [] == Without(Pick(init, section), r);
      }
    }
  }

  lemma {:induction false} ForeignWithout(ms: seq<Marker>, r: Ref)
    ensures Foreign(Without(ms, r)) == Without(Foreign(ms), r)
  {
    if ms != [] {
      var (init, m) := (ms[..|ms| - 1], ms[|ms| - 1]);
      ForeignWithout(init, r);
      assert ms == init + [m];
      WithoutOne(init, m, r);
      ForeignOne(init, m);
      if m.ref != r {
        ForeignOne(Without(init, r), m);
      } else {
        assert Without(init, r) + [] == Without(init, r);
      }
      if !m.owned {
        WithoutOne(Foreign(init), m, r);
      } else {
        assert Foreign(init) + [] == Foreign(init) && Without(Foreign(init), r) + [] == Without(Foreign(init), r);
      }
    }
  }

  /** Removing a marker that is not the last one. */
  lemma KeepsLast(ms: seq<Marker>, r: Ref)
    requires ms != [] && ms[|ms| - 1].ref != r
    ensures LastOf(Without(ms, r)) == LastOf(ms) && Init(Without(ms, r)) == Without(Init(ms), r)
  {
    var (init, m) := (ms[..|ms| - 1], ms[|ms| - 1]);
    assert ms == init + [m];
    WithoutOne(init, m, r);
    var w := Without(ms, r);
    assert w == Without(init, r) + [m];
    assert w[..|w| - 1] == Without(init, r);
  }

  lemma WithoutFirst(ms: seq<Marker>)
    requires ms != [] && DistinctRefs(ms)
    ensures Without(ms, ms[0].ref) == ms[1..]
  {
    var (first, rest) := ([ms[0]], ms[1..]);
    assert ms == first + rest;
    WithoutConcat(first, rest, ms[0].ref);
    WithoutAbsent(rest, ms[0].ref);
    assert first[..0] == [];
    assert Without(first, ms[0].ref) == Without(first[..0], ms[0].ref) + [];
  }

  // ---------------------------------------------------------------- evicted in order

  /** The sections of a list are apart. */
  lemma OtherSection(ms: seq<Marker>, r: Ref, section: Section)
    requires r.section != section
    ensures Pick(Without(ms, r), section) == Pick(ms, section)
  {
    PickWithout(ms, r, section);
    PickIs(ms, section);
    var picked := Pick(ms, section);
    forall i | 0 <= i < |picked| ensures picked[i].ref != r { assert picked[i] in picked; }
    WithoutAbsent(picked, r);
  }

  lemma InitDistinct(ms: seq<Marker>)
    requires DistinctRefs(ms)
    ensures DistinctRefs(Init(ms))
  {
  }

  /** Removing the first evictable of all but the last of a section. */
  lemma EvictInit(ms: seq<Marker>, section: Section)
    requires DistinctRefs(ms) && Foreign(Init(Pick(ms, section))) != []
    ensures var (first, sec) := (Foreign(Init(Pick(ms, section)))[0], Pick(Without(ms, Foreign(Init(Pick(ms, section)))[0].ref), section));
            && first.ref.section == section
            && Foreign(Init(sec)) == Foreign(Init(Pick(ms, section)))[1..] && LastOf(sec) == LastOf(Pick(ms, section))
  {
    var sec := Pick(ms, section);
    PickIs(ms, section);
    InitDistinct(sec);
    var foreign := Foreign(Init(sec));
    ForeignIs(Init(sec));
    assert foreign[0] in foreign;
    InitMembers(sec, foreign[0]);
    PickWithout(ms, foreign[0].ref, section);
    KeepsLast(sec, foreign[0].ref);
    ForeignWithout(Init(sec), foreign[0].ref);
    WithoutFirst(foreign);
  }

  /** After the first evictable marker went, the others are evictable in the same order. */
  lemma EvictableRest(ms: seq<Marker>)
    requires DistinctRefs(ms) && Evictable(ms) != []
    ensures Evictable(Without(ms, Evictable(ms)[0].ref)) == Evictable(ms)[1..]
  {
    hide Pick, Foreign, Init, LastOf, Without;
    var (a, b) := (Foreign(Init(Pick(ms, MessageSection))), Foreign(Init(Pick(ms, SystemSection))));
    var (c, d) := (Foreign(Pick(ms, ToolSection)), Foreign(LastOf(Pick(ms, SystemSection))));
    var r := Evictable(ms)[0].ref;
    if a != [] {
      assert Evictable(ms)[0] == a[0];
      EvictInit(ms, MessageSection);
      OtherSection(ms, r, SystemSection);
      OtherSection(ms, r, ToolSection);
      assert (a + b + c + d)[1..] == a[1..] + b + c + d;
    } else if b != [] {
      assert Evictable(ms)[0] == b[0];
      EvictInit(ms, SystemSection);
      OtherSection(ms, r, MessageSection);
      OtherSection(ms, r, ToolSection);
      assert (a + b + c + d)[1..] == a + b[1..] + c + d;
    } else if c != [] {
      assert Evictable(ms)[0] == c[0];
      EvictTool(ms);
      OtherSection(ms, r, MessageSection);
      OtherSection(ms, r, SystemSection);
      assert (a + b + c + d)[1..] == a + b + c[1..] + d;
    } else {
      assert a + b + c + d == d;
      EvictLast(ms);
    }
  }

  lemma EvictTool(ms: seq<Marker>)
    requires DistinctRefs(ms) && Foreign(Pick(ms, ToolSection)) != []
    ensures var first := Foreign(Pick(ms, ToolSection))[0];
            first.ref.section == ToolSection && Foreign(Pick(Without(ms, first.ref), ToolSection)) == Foreign(Pick(ms, ToolSection))[1..]
  {
    var tools := Pick(ms, ToolSection);
    PickIs(ms, ToolSection);
    ForeignIs(tools);
    assert Foreign(tools)[0] in Foreign(tools);
    PickWithout(ms, Foreign(tools)[0].ref, ToolSection);
    ForeignWithout(tools, Foreign(tools)[0].ref);
    WithoutFirst(Foreign(tools));
  }

  lemma NoneForeign(ms: seq<Marker>)
    requires Foreign(ms) == []
    ensures Foreign(Init(ms)) == [] && Foreign(LastOf(ms)) == []
  {
    SplitLast(ms);
  }

  lemma LastForeign(ms: seq<Marker>)
    requires Foreign(LastOf(ms)) != []
    ensures ms != [] && Foreign(LastOf(ms)) == [ms[|ms| - 1]] && ms == Init(ms) + [ms[|ms| - 1]]
  {
    SplitLast(ms);
  }

  /** Taking the last away. */
  lemma WithoutLast(ms: seq<Marker>)
    requires ms != [] && DistinctRefs(ms)
    ensures Without(ms, ms[|ms| - 1].ref) == Init(ms)
  {
    var last := ms[|ms| - 1];
    assert ms == Init(ms) + [last];
    WithoutOne(Init(ms), last, last.ref);
    WithoutAbsent(Init(ms), last.ref);
  }

  /** The last system marker goes when it alone is left. */
  lemma EvictLast(ms: seq<Marker>)
    requires DistinctRefs(ms) && Foreign(Init(Pick(ms, MessageSection))) == [] && Foreign(Init(Pick(ms, SystemSection))) == []
    requires Foreign(Pick(ms, ToolSection)) == [] && Foreign(LastOf(Pick(ms, SystemSection))) != []
    ensures |Evictable(ms)| == 1 && Evictable(Without(ms, Evictable(ms)[0].ref)) == []
  {
    var sys := Pick(ms, SystemSection);
    LastForeign(sys);
    var last := sys[|sys| - 1];
    PickIs(ms, SystemSection);
    assert last in sys;
    hide Pick, Foreign, Init, LastOf, Without;
    assert Evictable(ms) == [last];
    OtherSection(ms, last.ref, MessageSection);
    OtherSection(ms, last.ref, ToolSection);
    PickWithout(ms, last.ref, SystemSection);
    WithoutLast(sys);
    NoneForeign(Init(sys));
  }

  function RemoveAll(ms: seq<Marker>, gone: seq<Marker>): seq<Marker>
    decreases |gone|
  {
    if gone == [] then ms else RemoveAll(Without(ms, gone[0].ref), gone[1..])
  }

  /** How many top-level markers have to go. */
  function Excess(p: Payload): nat {
    var over := if |List(p)| <= MARKER_LIMIT then 0 else |List(p)| - MARKER_LIMIT;
    if over <= |Evictable(List(p))| then over else |Evictable(List(p))|
  }

  lemma RemoveStep(ms: seq<Marker>, es: seq<Marker>, k: nat)
    requires 0 < k <= |es|
    ensures RemoveAll(ms, es[..k]) == RemoveAll(Without(ms, es[0].ref), es[1..][..k - 1])
  {
    assert es[..k][1..] == es[1..][..k - 1] && es[..k][0] == es[0];
  }

  /** One eviction: the list, the order and the excess each lose their first. */
  lemma EvictStep(p: Payload)
    requires |List(p)| > MARKER_LIMIT && Evictable(List(p)) != []
    ensures var e := Evictable(List(p))[0];
            && ValidRef(p, e.ref) && |List(Delete(p, e.ref))| < |List(p)|
            && EvictTop(p) == EvictTop(Delete(p, e.ref))
            && List(Delete(p, e.ref)) == Without(List(p), e.ref)
            && Evictable(List(Delete(p, e.ref))) == Evictable(List(p))[1..]
            && Excess(p) > 0 && Excess(Delete(p, e.ref)) == Excess(p) - 1
  {
    hide List, Evictable, Without, Delete, At, ValidRef;
    EvictShrinks(p);
    DistinctList(p);
    DeleteUnlists(p, Evictable(List(p))[0].ref);
    EvictableRest(List(p));
  }

  lemma DistinctList(p: Payload)
    ensures DistinctRefs(List(p))
  {
    ListIs(p);
  }

  /** Exactly the first markers of the eviction order go, no more than needed. */
  lemma {:induction false} EvictsInOrder(p: Payload)
    ensures List(EvictTop(p)) == RemoveAll(List(p), Evictable(List(p))[..Excess(p)])
    decreases |List(p)|
  {
    hide List, Evictable, Without, Delete, RemoveAll;
    if |List(p)| > MARKER_LIMIT && Evictable(List(p)) != [] {
      EvictStep(p);
      EvictsInOrder(Delete(p, Evictable(List(p))[0].ref));
      RemoveStep(List(p), Evictable(List(p)), Excess(p));
    } else {
      RemoveNone(List(p));
      assert Excess(p) == 0 && EvictTop(p) == p;
    }
  }

  lemma RemoveNone(ms: seq<Marker>)
    ensures RemoveAll(ms, []) == ms
  {
  }

  // ---------------------------------------------------------------- the rolling tail

  /** A marker that is not the last message marker stands elsewhere. */
  lemma LastRef(ms: seq<Marker>, tail: seq<Marker>, m: Marker)
    requires DistinctRefs(ms) && tail == Pick(ms, MessageSection) && tail != [] && m in ms && LastOf(tail) != [m]
    ensures tail[|tail| - 1].ref != m.ref
  {
    var last := tail[|tail| - 1];
    PickIs(ms, MessageSection);
    assert last in tail && LastOf(tail) == [last];
  }

  lemma {:induction false} TailKept(p: Payload)
    ensures LastOf(Pick(List(EvictTop(p)), MessageSection)) == LastOf(Pick(List(p), MessageSection))
    decreases |List(p)|
  {
    if |List(p)| > MARKER_LIMIT && Evictable(List(p)) != [] {
      var ms := List(p);
      var m := Evictable(ms)[0];
      EvictShrinks(p);
      ListIs(p);
      DeleteUnlists(p, m.ref);
      NextEvicted(ms);
      PickWithout(ms, m.ref, MessageSection);
      var tail := Pick(ms, MessageSection);
      if tail != [] {
        LastRef(ms, tail, m);
        KeepsLast(tail, m.ref);
      }
      TailKept(Delete(p, m.ref));
    }
  }

  lemma {:induction false} TopLast(bs: seq<Block>, owned: bool)
    requires bs != []
    ensures TopMarks(bs, owned) == TopMarks(bs[..|bs| - 1], owned) + Mark(bs[|bs| - 1], owned)
  {
    if |bs| > 1 {
      TopLast(bs[1..], owned);
      assert bs[1..][..|bs| - 2] == bs[..|bs| - 1][1..];
    }
  }

  lemma {:induction false} BlockCounts(section: Section, msg: nat, bs: seq<Block>)
    ensures |Foreign(ListBlocks(section, msg, bs))| == TopMarks(bs, false)
    ensures |ListBlocks(section, msg, bs)| == TopMarks(bs, true) + TopMarks(bs, false)
  {
    if bs != [] {
      var n := |bs| - 1;
      BlockCounts(section, msg, bs[..n]);
      TopLast(bs, true);
      TopLast(bs, false);
      var init := ListBlocks(section, msg, bs[..n]);
      if bs[n].cache.Some? {
        ForeignOne(init, Marker(RefAt(section, msg, n), bs[n].owned));
      } else {
        assert ListBlocks(section, msg, bs) == init;
      }
    }
  }

  predicate FlatBlock(b: Block) {
    MarksAll(b.children, true) == 0 && MarksAll(b.children, false) == 0
  }

  /** No markers inside blocks. */
  predicate Flat(bs: seq<Block>) {
    forall j | 0 <= j < |bs| :: FlatBlock(bs[j])
  }

  predicate NestedFree(p: Payload) {
    forall i | 0 <= i < |p.messages| :: Flat(BlocksOf(p.messages[i]))
  }

  lemma {:induction false} FlatMarks(bs: seq<Block>, owned: bool)
    ensures TopMarks(bs, owned) <= MarksAll(bs, owned) && (Flat(bs) ==> TopMarks(bs, owned) == MarksAll(bs, owned))
  {
    if bs != [] {
      FlatMarks(bs[1..], owned);
      if Flat(bs) {
        assert FlatBlock(bs[0]);
        assert forall j | 0 <= j < |bs[1..]| :: bs[1..][j] == bs[j + 1];
        assert Flat(bs[1..]);
      }
    }
  }

  lemma {:induction false} MessageCounts(ms: seq<Message>)
    ensures |ListMessages(ms)| - |Foreign(ListMessages(ms))| <= MessageMarks(ms, true)
    ensures (forall i | 0 <= i < |ms| :: Flat(BlocksOf(ms[i]))) ==> |ListMessages(ms)| == MessageMarks(ms, true) + MessageMarks(ms, false)
  {
    if ms != [] {
      var n := |ms| - 1;
      var bs := BlocksOf(ms[n]);
      MessageCounts(ms[..n]);
      BlockCounts(MessageSection, n, bs);
      FlatMarks(bs, true);
      FlatMarks(bs, false);
      ForeignConcat(ListMessages(ms[..n]), ListBlocks(MessageSection, n, bs));
    }
  }

  /** The list holds no more of the hook's markers than are counted, and without nested markers it
      holds every counted one. */
  lemma ListCounts(p: Payload)
    ensures |List(p)| - |Foreign(List(p))| <= Counted(p, true)
    ensures NestedFree(p) ==> |List(p)| == Markers(p)
  {
    var (a, b, c) := (ListBlocks(SystemSection, 0, p.system), ListBlocks(ToolSection, 0, p.tools), ListMessages(p.messages));
    BlockCounts(SystemSection, 0, p.system);
    BlockCounts(ToolSection, 0, p.tools);
    MessageCounts(p.messages);
    ForeignConcat(a + b, c);
    ForeignConcat(a, b);
  }

  /** With at most three markers of the hook, the top-level list fits the limit. */
  lemma TopFits(p: Payload)
    requires Counted(p, true) < MARKER_LIMIT
    ensures |List(EvictTop(p))| <= MARKER_LIMIT
  {
    var q := EvictTop(p);
    EvictTopFewer(p);
    EvictableCount(List(q));
    ListCounts(q);
  }

  lemma PutFlat(p: Payload, r: Ref, b: Block)
    requires ValidRef(p, r) && NestedFree(p) && b.children == At(p, r).children
    ensures NestedFree(Put(p, r, b))
  {
    var q := Put(p, r, b);
    forall i | 0 <= i < |q.messages| ensures Flat(BlocksOf(q.messages[i])) {
      assert Flat(BlocksOf(p.messages[i]));
      forall j | 0 <= j < |BlocksOf(q.messages[i])| ensures FlatBlock(BlocksOf(q.messages[i])[j]) {
        assert FlatBlock(BlocksOf(p.messages[i])[j]);
      }
    }
  }

  /** Eviction never puts a marker inside a block. */
  lemma {:induction false} EvictFlat(p: Payload)
    ensures NestedFree(p) ==> NestedFree(EvictTop(p))
    decreases |List(p)|
  {
    if NestedFree(p) && |List(p)| > MARKER_LIMIT && Evictable(List(p)) != [] {
      EvictShrinks(p);
      PutFlat(p, Evictable(List(p))[0].ref, At(p, Evictable(List(p))[0].ref).(cache := None));
      EvictFlat(Delete(p, Evictable(List(p))[0].ref));
    }
  }

  /** Without nested markers the second pass finds nothing to do. */
  lemma OnlyTopEvicts(p: Payload)
    requires NestedFree(p) && Counted(p, true) < MARKER_LIMIT
    ensures Enforce(p) == EvictTop(p)
  {
    TopFits(p);
    EvictFlat(p);
    ListCounts(EvictTop(p));
  }

  // ---------------------------------------------------------------- no nested markers appear

  lemma LongFlat(p: Payload)
    requires NestedFree(p)
    ensures NestedFree(MakeLong(p))
  {
    var q := MakeLong(p);
    forall i | 0 <= i < |q.messages| ensures Flat(BlocksOf(q.messages[i])) {
      var bs := BlocksOf(p.messages[i]);
      assert Flat(bs) && q.messages[i] == LongMessage(p.messages[i]) && BlocksOf(q.messages[i]) == LongAll(bs);
      forall j | 0 <= j < |bs| ensures FlatBlock(LongAll(bs)[j]) {
        assert FlatBlock(bs[j]) && LongAll(bs)[j] == LongBlock(bs[j]);
        LongAllIs(bs[j].children);
      }
    }
  }

  lemma ShortFlat(p: Payload, msg: nat)
    requires NestedFree(p)
    ensures NestedFree(ShortAfter(p, msg))
  {
    var q := ShortAfter(p, msg);
    forall i | 0 <= i < |q.messages| ensures Flat(BlocksOf(q.messages[i])) {
      var bs := BlocksOf(p.messages[i]);
      assert Flat(bs);
      forall j | 0 <= j < |bs| ensures FlatBlock(BlocksOf(q.messages[i])[j]) {
        assert FlatBlock(bs[j]);
      }
    }
  }

  lemma {:induction false} ClearFlat(p: Payload, ms: seq<Marker>, spot: Spot)
    requires NestedFree(p) && forall i | 0 <= i < |ms| :: ValidRef(p, ms[i].ref)
    ensures NestedFree(ClearListed(p, ms, spot))
    decreases |ms|
  {
    if ms != [] {
      var (r, rest) := (ms[0].ref, ms[1..]);
      var q := if BeforeSpot(r, spot) then Delete(p, r) else p;
      PutFlat(p, r, At(p, r).(cache := None));
      forall i | 0 <= i < |rest| ensures ValidRef(q, rest[i].ref) {
        assert rest[i] == ms[i + 1];
        PutRefs(p, r, At(p, r).(cache := None), rest[i].ref);
      }
      ClearFlat(q, rest, spot);
    }
  }

  lemma AnchoredFlat(p: Payload, spot: Spot)
    requires ValidSpot(p, spot) && NestedFree(p)
    ensures NestedFree(Anchored(p, spot))
  {
    var p1 := if HasLong(p) then MakeLong(p) else p;
    LongFlat(p);
    MakeLongIs(p);
    SameRefs(p, p1);
    ListIs(p1);
    var p2 := ClearListed(p1, List(p1), spot);
    ClearFlat(p1, List(p1), spot);
    ClearIs(p1, List(p1), spot);
    assert ValidRef(p2, RefOf(spot));
    PutFlat(p2, RefOf(spot), At(p2, RefOf(spot)).(cache := Some(if HasLong(p) then Long else NoTtl), owned := true));
  }

  lemma BridgeFlat(p: Payload, bridge: Option<Spot>, ttl: Ttl)
    requires NestedFree(p) && (bridge.Some? ==> ValidRef(p, RefOf(bridge.value)))
    ensures NestedFree(WithBridge(p, bridge, ttl))
  {
    if bridge.Some? {
      PutFlat(p, RefOf(bridge.value), At(p, RefOf(bridge.value)).(cache := Some(ttl), owned := true));
    }
  }

  lemma PreparedFlat(h: Host, p: Payload, anchors: seq<Locator>, spot: Spot)
    requires anchors != [] && ValidSpot(p, spot) && NestedFree(p)
    ensures NestedFree(Prepared(h, p, anchors, spot))
  {
    hide Anchored, HasLong, Placed, NestedFree, WithBridge, ShortAfter;
    var p3 := Anchored(p, spot);
    AnchoredFlat(p, spot);
    var bridge := Placed(h, p3, anchors, spot);
    PlacedIs(h, p3, anchors, spot);
    var ttl := if HasLong(p) then Long else NoTtl;
    BridgeFlat(p3, bridge, ttl);
    ShortFlat(WithBridge(p3, bridge, ttl), spot.msg);
  }

  lemma PlacedIs(h: Host, p: Payload, anchors: seq<Locator>, spot: Spot)
    requires anchors != []
    ensures var b := Placed(h, p, anchors, spot); b.Some? ==> ValidRef(p, RefOf(b.value))
  {
    BridgeIs(h, p.messages, anchors, spot);
  }

  // ---------------------------------------------------------------- the last message marker

  lemma {:induction false} PickNone(ms: seq<Marker>, section: Section)
    requires forall i | 0 <= i < |ms| :: ms[i].ref.section != section
    ensures Pick(ms, section) == []
  {
    if ms != [] {
      PickNone(ms[..|ms| - 1], section);
    }
  }

  lemma {:induction false} PickEvery(ms: seq<Marker>, section: Section)
    requires forall i | 0 <= i < |ms| :: ms[i].ref.section == section
    ensures Pick(ms, section) == ms
  {
    if ms != [] {
      PickEvery(ms[..|ms| - 1], section);
      assert ms == ms[..|ms| - 1] + [ms[|ms| - 1]];
    }
  }

  lemma {:induction false} PickConcat(a: seq<Marker>, b: seq<Marker>, section: Section)
    ensures Pick(a + b, section) == Pick(a, section) + Pick(b, section)
  {
    if b == [] {
      assert a + b == a;
    } else {
      var (init, m) := (b[..|b| - 1], b[|b| - 1]);
      PickConcat(a, init, section);
      PickOne(a + init, m, section);
      PickOne(init, m, section);
      assert a + b == a + init + [m] && b == init + [m];
    }
  }

  lemma MessagesPicked(p: Payload)
    ensures Pick(List(p), MessageSection) == ListMessages(p.messages)
  {
    var (a, b, c) := (ListBlocks(SystemSection, 0, p.system), ListBlocks(ToolSection, 0, p.tools), ListMessages(p.messages));
    ListBlocksIs(SystemSection, 0, p.system);
    ListBlocksIs(ToolSection, 0, p.tools);
    ListMessagesIs(p.messages);
    forall i | 0 <= i < |a| ensures a[i].ref.section == SystemSection { assert a[i] in a; }
    forall i | 0 <= i < |b| ensures b[i].ref.section == ToolSection { assert b[i] in b; }
    forall i | 0 <= i < |c| ensures c[i].ref.section == MessageSection { assert c[i] in c; }
    PickNone(a, MessageSection);
    PickNone(b, MessageSection);
    PickEvery(c, MessageSection);
    PickConcat(a + b, c, MessageSection);
    PickConcat(a, b, MessageSection);
  }

  predicate MarkedAt(ms: seq<Message>, i: nat, j: nat) {
    i < |ms| && j < |BlocksOf(ms[i])| && BlocksOf(ms[i])[j].cache.Some?
  }

  /** The message place after which no message place is marked. */
  ghost predicate LastMarked(ms: seq<Message>, i: nat, j: nat) {
    MarkedAt(ms, i, j) && forall x: nat, y: nat | MarkedAt(ms, x, y) :: x < i || (x == i && y <= j)
  }

  lemma {:induction false} LastInBlocks(section: Section, msg: nat, bs: seq<Block>, j: nat)
    requires j < |bs| && bs[j].cache.Some? && forall y | j < y < |bs| :: bs[y].cache.None?
    ensures LastOf(ListBlocks(section, msg, bs)) == [Marker(RefAt(section, msg, j), bs[j].owned)]
  {
    var n := |bs| - 1;
    if j < n {
      LastInBlocks(section, msg, bs[..n], j);
      assert ListBlocks(section, msg, bs) == ListBlocks(section, msg, bs[..n]);
    }
  }

  lemma {:induction false} NoneInBlocks(section: Section, msg: nat, bs: seq<Block>)
    requires forall y | 0 <= y < |bs| :: bs[y].cache.None?
    ensures ListBlocks(section, msg, bs) == []
  {
    if bs != [] {
      NoneInBlocks(section, msg, bs[..|bs| - 1]);
    }
  }

  lemma NoneLater(ms: seq<Message>, i: nat, j: nat, x: nat, y: nat)
    requires LastMarked(ms, i, j) && x < |ms| && y < |BlocksOf(ms[x])| && (x > i || (x == i && y > j))
    ensures BlocksOf(ms[x])[y].cache.None?
  {
    assert !MarkedAt(ms, x, y);
  }

  lemma LastMarkedInit(ms: seq<Message>, i: nat, j: nat)
    requires LastMarked(ms, i, j) && i < |ms| - 1
    ensures LastMarked(ms[..|ms| - 1], i, j)
  {
    var init := ms[..|ms| - 1];
    assert MarkedAt(init, i, j);
    forall x: nat, y: nat | MarkedAt(init, x, y) ensures x < i || (x == i && y <= j) { assert MarkedAt(ms, x, y); }
  }

  lemma {:induction false} LastInMessages(ms: seq<Message>, i: nat, j: nat)
    requires LastMarked(ms, i, j)
    ensures i < |ms| && j < |BlocksOf(ms[i])|
    ensures LastOf(ListMessages(ms)) == [Marker(Ref(MessageSection, i, j), BlocksOf(ms[i])[j].owned)]
  {
    var n := |ms| - 1;
    assert MarkedAt(ms, i, j);
    var bs := BlocksOf(ms[n]);
    if i == n {
      forall y | j < y < |bs| ensures bs[y].cache.None? { NoneLater(ms, i, j, n, y); }
      hide LastMarked, MarkedAt;
      LastInBlocks(MessageSection, n, bs, j);
      LastConcat(ListMessages(ms[..n]), ListBlocks(MessageSection, n, bs));
    } else {
      forall y | 0 <= y < |bs| ensures bs[y].cache.None? { NoneLater(ms, i, j, n, y); }
      LastMarkedInit(ms, i, j);
      hide LastMarked, MarkedAt;
      NoneInBlocks(MessageSection, n, bs);
      LastInMessages(ms[..n], i, j);
      assert ListMessages(ms) == ListMessages(ms[..n]);
    }
  }

  lemma LastConcat(a: seq<Marker>, b: seq<Marker>)
    requires b != []
    ensures LastOf(a + b) == LastOf(b)
  {
  }

  /** The last message marker outlives the eviction. */
  lemma LastSurvives(p: Payload, i: nat, j: nat)
    requires LastMarked(p.messages, i, j) && NestedFree(p) && Counted(p, true) < MARKER_LIMIT
    ensures var (q, r) := (Enforce(p), Ref(MessageSection, i, j)); ValidRef(q, r) && At(q, r).cache == At(p, r).cache
  {
    var r := Ref(MessageSection, i, j);
    var q := EvictTop(p);
    OnlyTopEvicts(p);
    MessagesPicked(p);
    LastInMessages(p.messages, i, j);
    TailKept(p);
    EvictTopFewer(p);
    var m := Marker(r, At(p, r).owned);
    var tail := Pick(List(q), MessageSection);
    assert LastOf(tail) == [m];
    assert tail[|tail| - 1] == m && m in tail;
    PickIs(List(q), MessageSection);
    ListIs(q);
  }

  /** For a fresh request without nested markers: its last message marker, unless it stands before
      the anchor, is still there after the rewrite; otherwise the anchor is the last one. */
  lemma TailSurvives(h: Host, p: Payload, anchors: seq<Locator>, spot: Spot, i: nat, j: nat)
    requires anchors != [] && ValidSpot(p, spot) && Fresh(p) && NestedFree(p) && LastMarked(p.messages, i, j)
    ensures var q := Rewrite(h, p, anchors, spot);
            var r := if BeforeSpot(Ref(MessageSection, i, j), spot) then RefOf(spot) else Ref(MessageSection, i, j);
            ValidRef(q, r) && At(q, r).cache.Some?
  {
    var m := Prepared(h, p, anchors, spot);
    PreparedFlat(h, p, anchors, spot);
    PreparedIs(h, p, anchors, spot);
    SameRefs(p, m);
    var r := if BeforeSpot(Ref(MessageSection, i, j), spot) then RefOf(spot) else Ref(MessageSection, i, j);
    PreparedLast(h, p, anchors, spot, i, j);
    LastSurvives(m, r.idx, r.block);
    hide Prepared, Enforce, NestedFree, HasLong;
  }

  lemma MarkedRef(p: Payload, x: nat, y: nat)
    requires MarkedAt(p.messages, x, y)
    ensures ValidRef(p, Ref(MessageSection, x, y)) && At(p, Ref(MessageSection, x, y)).cache.Some?
  {
  }

  /** A marked message place of the prepared payload is the hook's own, or was marked before. */
  lemma PreparedMarked(h: Host, p: Payload, anchors: seq<Locator>, spot: Spot, x: nat, y: nat)
    requires anchors != [] && ValidSpot(p, spot) && MarkedAt(Prepared(h, p, anchors, spot).messages, x, y)
    ensures x < spot.msg || (x == spot.msg && y <= spot.block) || (MarkedAt(p.messages, x, y) && !BeforeSpot(Ref(MessageSection, x, y), spot))
  {
    hide Prepared, HasLong, Anchored, Placed, ErasePayload, OwnPlace;
    var m, q := Prepared(h, p, anchors, spot), Ref(MessageSection, x, y);
    PreparedIs(h, p, anchors, spot);
    SameRefs(p, m);
    MarkedRef(m, x, y);
    PreparedAt(h, p, anchors, spot, q);
    LaterThanAnchor(h, p, anchors, spot, q);
  }

  /** The place that ends up last is marked. */
  lemma PreparedMarks(h: Host, p: Payload, anchors: seq<Locator>, spot: Spot, r: Ref)
    requires anchors != [] && ValidSpot(p, spot) && ValidRef(p, r) && r.section.MessageSection?
    requires r == RefOf(spot) || (At(p, r).cache.Some? && !BeforeSpot(r, spot))
    ensures MarkedAt(Prepared(h, p, anchors, spot).messages, r.idx, r.block)
  {
    PreparedAt(h, p, anchors, spot, r);
    hide Prepared, HasLong, Anchored, Placed;
  }

  lemma PreparedLast(h: Host, p: Payload, anchors: seq<Locator>, spot: Spot, i: nat, j: nat)
    requires anchors != [] && ValidSpot(p, spot) && LastMarked(p.messages, i, j)
    ensures var r := if BeforeSpot(Ref(MessageSection, i, j), spot) then RefOf(spot) else Ref(MessageSection, i, j);
            LastMarked(Prepared(h, p, anchors, spot).messages, r.idx, r.block)
  {
    hide Prepared;
    var ms := Prepared(h, p, anchors, spot).messages;
    var r := if BeforeSpot(Ref(MessageSection, i, j), spot) then RefOf(spot) else Ref(MessageSection, i, j);
    PreparedMarks(h, p, anchors, spot, r);
    forall x: nat, y: nat | MarkedAt(ms, x, y) ensures x < r.idx || (x == r.idx && y <= r.block) {
      PreparedMarked(h, p, anchors, spot, x, y);
    }
  }
}
