/** Keeping an Anthropic request within four cache markers: which go, in which order, and what stays. */
module CacheLimit {
  import opened Wrappers
  import opened CachePayload

  /** Anthropic refuses a fifth breakpoint. */
  const MARKER_LIMIT := 4

  // ---------------------------------------------------------------- counting, nested markers included

  /** Markers in a block and inside it, of the given ownership. */
  function Marks(b: Block, owned: bool): nat
    decreases b
  {
    (if b.cache.Some? && b.owned == owned then 1 else 0) + MarksAll(b.children, owned)
  }

  function MarksAll(bs: seq<Block>, owned: bool): nat
    decreases bs
  {
    if bs == [] then 0 else Marks(bs[0], owned) + MarksAll(bs[1..], owned)
  }

  function TopMarks(bs: seq<Block>, owned: bool): nat {
    if bs == [] then 0 else (if bs[0].cache.Some? && bs[0].owned == owned then 1 else 0) + TopMarks(bs[1..], owned)
  }

  function MessageMarks(ms: seq<Message>, owned: bool): nat {
    if ms == [] then 0 else MessageMarks(ms[..|ms| - 1], owned) + MarksAll(BlocksOf(ms[|ms| - 1]), owned)
  }

  /** The markers the provider counts: top level in system and tools, nested as well in messages. */
  function Counted(p: Payload, owned: bool): nat {
    TopMarks(p.system, owned) + TopMarks(p.tools, owned) + MessageMarks(p.messages, owned)
  }

  function Markers(p: Payload): nat {
    Counted(p, true) + Counted(p, false)
  }

  /** Every marker of others, wherever it is. */
  function ForeignMarks(p: Payload): nat {
    MarksAll(p.system, false) + MarksAll(p.tools, false) + MessageMarks(p.messages, false)
  }

  lemma {:induction false} TopWithin(bs: seq<Block>, owned: bool)
    ensures TopMarks(bs, owned) <= MarksAll(bs, owned)
  {
    if bs != [] {
      TopWithin(bs[1..], owned);
    }
  }

  lemma {:induction false} MarksUpdate(bs: seq<Block>, j: nat, b: Block, owned: bool)
    requires j < |bs|
    ensures MarksAll(bs[j := b], owned) == MarksAll(bs, owned) - Marks(bs[j], owned) + Marks(b, owned)
    ensures TopMarks(bs[j := b], owned) + (if bs[j].cache.Some? && bs[j].owned == owned then 1 else 0)
            == TopMarks(bs, owned) + (if b.cache.Some? && b.owned == owned then 1 else 0)
  {
    var cs := bs[j := b];
    if j == 0 {
      assert cs[1..] == bs[1..];
    } else {
      assert cs[1..] == bs[1..][j - 1 := b];
      MarksUpdate(bs[1..], j - 1, b, owned);
    }
  }

  lemma {:induction false} MessageUpdate(ms: seq<Message>, i: nat, m: Message, owned: bool)
    requires i < |ms|
    ensures MessageMarks(ms[i := m], owned) == MessageMarks(ms, owned) - MarksAll(BlocksOf(ms[i]), owned) + MarksAll(BlocksOf(m), owned)
  {
    var n := |ms| - 1;
    if i == n {
      assert ms[i := m][..n] == ms[..n];
    } else {
      assert ms[i := m][..n] == ms[..n][i := m];
      MessageUpdate(ms[..n], i, m, owned);
    }
  }

  // ---------------------------------------------------------------- fewer foreign markers, nothing else

  /** q is p with markers of others removed at some places and nothing else changed. */
  ghost predicate Fewer(p: Payload, q: Payload) {
    && ErasePayload(q) == ErasePayload(p)
    && Counted(q, true) == Counted(p, true)
    && (forall r :: ValidRef(p, r) <==> ValidRef(q, r))
    && (forall r | ValidRef(p, r) && ValidRef(q, r) ::
          && At(q, r).owned == At(p, r).owned
          && (At(q, r).cache.Some? ==> At(q, r).cache == At(p, r).cache)
          && (At(p, r).owned ==> At(q, r).cache == At(p, r).cache))
  }

  lemma FewerTransitive(p: Payload, q: Payload, s: Payload)
    requires Fewer(p, q) && Fewer(q, s)
    ensures Fewer(p, s)
  {
    forall r | ValidRef(p, r) ensures ValidRef(q, r) && ValidRef(s, r) {}
  }

  lemma DeleteOwned(p: Payload, r: Ref)
    requires ValidRef(p, r) && !At(p, r).owned
    ensures Counted(Delete(p, r), true) == Counted(p, true)
  {
    var b := At(p, r).(cache := None);
    match r.section
    case SystemSection => MarksUpdate(p.system, r.idx, b, true);
    case ToolSection => MarksUpdate(p.tools, r.idx, b, true);
    case MessageSection =>
      MarksUpdate(BlocksOf(p.messages[r.idx]), r.block, b, true);
      MessageUpdate(p.messages, r.idx, Put(p, r, b).messages[r.idx], true);
  }

  lemma PutRefs(p: Payload, r: Ref, b: Block, q: Ref)
    requires ValidRef(p, r)
    ensures ValidRef(Put(p, r, b), q) <==> ValidRef(p, q)
  {
  }

  lemma DeleteFewer(p: Payload, r: Ref)
    requires ValidRef(p, r) && At(p, r).cache.Some? && !At(p, r).owned
    ensures Fewer(p, Delete(p, r))
  {
    var b := At(p, r).(cache := None);
    PutErases(p, r, b);
    DeleteOwned(p, r);
    hide Counted, ErasePayload;
    forall q ensures ValidRef(p, q) <==> ValidRef(Put(p, r, b), q) { PutRefs(p, r, b, q); }
    forall q | ValidRef(p, q) && ValidRef(Put(p, r, b), q) ensures At(Put(p, r, b), q) == if q == r then b else At(p, q) { PutAt(p, r, b, q); }
    hide Put, At, ValidRef;
  }

  // ---------------------------------------------------------------- the eviction order

  function Pick(ms: seq<Marker>, section: Section): seq<Marker> {
    if ms == [] then []
    else Pick(ms[..|ms| - 1], section) + if ms[|ms| - 1].ref.section == section then [ms[|ms| - 1]] else []
  }

  function Foreign(ms: seq<Marker>): seq<Marker> {
    if ms == [] then []
    else Foreign(ms[..|ms| - 1]) + if ms[|ms| - 1].owned then [] else [ms[|ms| - 1]]
  }

  function Init(ms: seq<Marker>): seq<Marker> {
    if ms == [] then [] else ms[..|ms| - 1]
  }

  function LastOf(ms: seq<Marker>): seq<Marker> {
    if ms == [] then [] else ms[|ms| - 1..]
  }

  /** Markers of others that may go: messages but for their last, then system but for its last,
      then tools, then the last of system. */
  function Evictable(ms: seq<Marker>): seq<Marker> {
    Foreign(Init(Pick(ms, MessageSection))) + Foreign(Init(Pick(ms, SystemSection))) + Foreign(Pick(ms, ToolSection))
    + Foreign(LastOf(Pick(ms, SystemSection)))
  }

  lemma {:induction false} ForeignIs(ms: seq<Marker>)
    ensures |Foreign(ms)| <= |ms|
    ensures forall m :: m in Foreign(ms) <==> m in ms && !m.owned
    ensures DistinctRefs(ms) ==> DistinctRefs(Foreign(ms))
  {
    if ms != [] {
      ForeignIs(ms[..|ms| - 1]);
      LastDistinct(ms, Foreign(ms[..|ms| - 1]));
    }
  }

  lemma {:induction false} PickIs(ms: seq<Marker>, section: Section)
    ensures forall m :: m in Pick(ms, section) <==> m in ms && m.ref.section == section
    ensures DistinctRefs(ms) ==> DistinctRefs(Pick(ms, section))
  {
    if ms != [] {
      PickIs(ms[..|ms| - 1], section);
      LastDistinct(ms, Pick(ms[..|ms| - 1], section));
    }
  }

  /** Markers taken from all but the last never repeat the last one's place. */
  lemma LastDistinct(ms: seq<Marker>, some: seq<Marker>)
    requires ms != [] && forall m | m in some :: m in ms[..|ms| - 1]
    requires DistinctRefs(ms) ==> DistinctRefs(some)
    ensures DistinctRefs(ms) ==> DistinctRefs(some + [ms[|ms| - 1]])
  {
    if DistinctRefs(ms) {
      forall i | 0 <= i < |some| ensures some[i].ref != ms[|ms| - 1].ref {
        assert some[i] in some;
        assert some[i] in ms[..|ms| - 1];
      }
    }
  }

  lemma {:induction false} ForeignConcat(a: seq<Marker>, b: seq<Marker>)
    ensures Foreign(a + b) == Foreign(a) + Foreign(b)
  {
    if b == [] {
      assert a + b == a;
    } else {
      var (init, m) := (b[..|b| - 1], b[|b| - 1]);
      ForeignConcat(a, init);
      ForeignOne(a + init, m);
      ForeignOne(init, m);
      assert a + b == a + init + [m] && b == init + [m];
    }
  }

  lemma ForeignOne(ms: seq<Marker>, m: Marker)
    ensures Foreign(ms + [m]) == Foreign(ms) + if m.owned then [] else [m]
  {
    assert (ms + [m])[..|ms|] == ms;
  }

  lemma PickLast(ms: seq<Marker>, section: Section)
    requires ms != []
    ensures var (init, last) := (ms[..|ms| - 1], ms[|ms| - 1]);
            && |Pick(ms, section)| == |Pick(init, section)| + (if last.ref.section == section then 1 else 0)
            && |Foreign(Pick(ms, section))| == |Foreign(Pick(init, section))| + (if last.ref.section == section && !last.owned then 1 else 0)
  {
    var (init, last) := (ms[..|ms| - 1], [ms[|ms| - 1]]);
    if ms[|ms| - 1].ref.section == section {
      ForeignConcat(Pick(init, section), last);
      assert last[..0] == [];
      assert Foreign(last) == Foreign(last[..0]) + if last[0].owned then [] else [last[0]];
    } else {
      assert Pick(ms, section) == Pick(init, section);
    }
  }

  lemma {:induction false} PickCounts(ms: seq<Marker>)
    ensures |Pick(ms, MessageSection)| + |Pick(ms, SystemSection)| + |Pick(ms, ToolSection)| == |ms|
    ensures |Foreign(Pick(ms, MessageSection))| + |Foreign(Pick(ms, SystemSection))| + |Foreign(Pick(ms, ToolSection))| == |Foreign(ms)|
  {
    if ms == [] {
      assert Pick(ms, MessageSection) == [] && Pick(ms, SystemSection) == [] && Pick(ms, ToolSection) == [];
    } else {
      PickCounts(ms[..|ms| - 1]);
      PickLast(ms, MessageSection);
      PickLast(ms, SystemSection);
      PickLast(ms, ToolSection);
      hide Pick;
    }
  }

  lemma SplitLast(ms: seq<Marker>)
    ensures |Foreign(Init(ms))| + |Foreign(LastOf(ms))| == |Foreign(ms)|
    ensures ms != [] ==> Foreign(LastOf(ms)) == if ms[|ms| - 1].owned then [] else LastOf(ms)
  {
    if ms != [] {
      assert ms == Init(ms) + LastOf(ms);
      ForeignConcat(Init(ms), LastOf(ms));
      var last := LastOf(ms);
      assert last[..0] == [] && last[0] == ms[|ms| - 1] && last == [last[0]];
      assert Foreign(last) == Foreign(last[..0]) + if last[0].owned then [] else [last[0]];
    }
  }

  /** All that cannot go: the hook's own markers and, if it is not one of them, the last message marker. */
  lemma EvictableCount(ms: seq<Marker>)
    ensures |Evictable(ms)| == |Foreign(ms)| - |Foreign(LastOf(Pick(ms, MessageSection)))|
    ensures |Foreign(LastOf(Pick(ms, MessageSection)))| <= 1
  {
    PickCounts(ms);
    SplitLast(Pick(ms, MessageSection));
    SplitLast(Pick(ms, SystemSection));
  }

  lemma InitMembers(ms: seq<Marker>, m: Marker)
    requires m in Init(ms) || m in LastOf(ms)
    ensures m in ms && (DistinctRefs(ms) && m in Init(ms) ==> LastOf(ms) != [m])
  {
    if m in Init(ms) {
      var k :| 0 <= k < |ms| - 1 && ms[k] == m;
      assert LastOf(ms)[0] == ms[|ms| - 1];
    }
  }

  /** The marker to go next is another's, is listed, and is not the rolling tail. */
  lemma NextEvicted(ms: seq<Marker>)
    requires DistinctRefs(ms) && Evictable(ms) != []
    ensures var m := Evictable(ms)[0];
            m in ms && !m.owned && LastOf(Pick(ms, MessageSection)) != [m]
  {
    var m := Evictable(ms)[0];
    var msgs, sys, tools := Pick(ms, MessageSection), Pick(ms, SystemSection), Pick(ms, ToolSection);
    PickIs(ms, MessageSection);
    PickIs(ms, SystemSection);
    PickIs(ms, ToolSection);
    ForeignIs(Init(msgs));
    ForeignIs(Init(sys));
    ForeignIs(tools);
    ForeignIs(LastOf(sys));
    assert m in Evictable(ms);
    hide Pick, Foreign, Init, LastOf;
    if m in Init(msgs) {
      InitMembers(msgs, m);
    } else {
      if m in Init(sys) || m in LastOf(sys) { InitMembers(sys, m); }
      assert m in sys || m in tools;
      if LastOf(msgs) == [m] { LastMember(msgs, m); }
    }
  }

  lemma LastMember(ms: seq<Marker>, m: Marker)
    requires LastOf(ms) == [m]
    ensures m in ms
  {
    assert LastOf(ms)[0] == m;
  }

  // ---------------------------------------------------------------- evicting top-level markers

  lemma EvictShrinks(p: Payload)
    requires Evictable(List(p)) != []
    ensures var r := Evictable(List(p))[0].ref;
            && ValidRef(p, r) && At(p, r).cache.Some? && !At(p, r).owned && |List(Delete(p, r))| == |List(p)| - 1
  {
    var ms := List(p);
    var m := Evictable(ms)[0];
    ListIs(p);
    NextEvicted(ms);
    DeleteUnlists(p, m.ref);
    WithoutLength(ms, m.ref);
  }

  function EvictTop(p: Payload): Payload
    decreases |List(p)|
  {
    if |List(p)| <= MARKER_LIMIT || Evictable(List(p)) == [] then p
    else
      EvictShrinks(p);
      EvictTop(Delete(p, Evictable(List(p))[0].ref))
  }

  lemma {:induction false} EvictTopFewer(p: Payload)
    ensures Fewer(p, EvictTop(p))
    ensures |List(EvictTop(p))| <= MARKER_LIMIT || Evictable(List(EvictTop(p))) == []
    decreases |List(p)|
  {
    if |List(p)| > MARKER_LIMIT && Evictable(List(p)) != [] {
      EvictShrinks(p);
      var q := Delete(p, Evictable(List(p))[0].ref);
      DeleteFewer(p, Evictable(List(p))[0].ref);
      EvictTopFewer(q);
      FewerTransitive(p, q, EvictTop(q));
    }
  }

  // ---------------------------------------------------------------- dropping nested markers

  /** The first foreign marker in depth-first order goes; the answer says whether there was one. */
  function DropIn(bs: seq<Block>): (seq<Block>, bool)
    decreases bs
  {
    if bs == [] then ([], false)
    else if bs[0].cache.Some? && !bs[0].owned then ([bs[0].(cache := None)] + bs[1..], true)
    else
      var inner := DropIn(bs[0].children);
      if inner.1 then ([bs[0].(children := inner.0)] + bs[1..], true)
      else
        var rest := DropIn(bs[1..]);
        ([bs[0]] + rest.0, rest.1)
  }

  /** From the newest message back. */
  function DropMessages(ms: seq<Message>): (seq<Message>, bool) {
    if ms == [] then ([], false)
    else
      var n := |ms| - 1;
      var here := DropIn(BlocksOf(ms[n]));
      if ms[n].content.Blocks? && here.1 then (ms[..n] + [ms[n].(content := Blocks(here.0))], true)
      else
        var before := DropMessages(ms[..n]);
        (before.0 + [ms[n]], before.1)
  }

  function DropOne(p: Payload): (Payload, bool) {
    var ms := DropMessages(p.messages);
    if ms.1 then (p.(messages := ms.0), true)
    else
      var tools := DropIn(p.tools);
      if tools.1 then (p.(tools := tools.0), true)
      else
        var system := DropIn(p.system);
        (p.(system := system.0), system.1)
  }

  predicate SameButForeign(bs: seq<Block>, cs: seq<Block>) {
    && |cs| == |bs| && EraseAll(cs) == EraseAll(bs)
    && forall i | 0 <= i < |bs| ::
         && cs[i].owned == bs[i].owned && (cs[i].cache.Some? ==> cs[i].cache == bs[i].cache)
         && (bs[i].owned ==> cs[i].cache == bs[i].cache)
  }

  lemma EraseHead(b: Block, bs: seq<Block>)
    ensures EraseAll([b] + bs) == [Erase(b)] + EraseAll(bs)
  {
  }

  lemma {:induction false} DropInIs(bs: seq<Block>)
    ensures var (cs, hit) := DropIn(bs);
            && SameButForeign(bs, cs)
            && (hit <==> MarksAll(bs, false) > 0)
            && MarksAll(cs, true) == MarksAll(bs, true) && TopMarks(cs, true) == TopMarks(bs, true)
            && MarksAll(cs, false) == MarksAll(bs, false) - (if hit then 1 else 0)
            && (!hit ==> cs == bs)
    decreases bs
  {
    if bs != [] {
      var (b, rest) := (bs[0], bs[1..]);
      assert bs == [b] + rest;
      EraseHead(b, rest);
      if b.cache.Some? && !b.owned {
        DropHead(b.(cache := None), b, rest);
      } else {
        DropInIs(b.children);
        var inner := DropIn(b.children);
        if inner.1 {
          DropHead(b.(children := inner.0), b, rest);
        } else {
          DropInIs(rest);
          DropRest(b, rest, DropIn(rest).0);
        }
      }
    }
  }

  /** The head changed, the rest did not. */
  lemma DropHead(c: Block, b: Block, rest: seq<Block>)
    requires Erase(c) == Erase(b) && c.owned == b.owned && (c.cache.Some? ==> c.cache == b.cache) && (b.owned ==> c.cache == b.cache)
    requires Marks(c, true) == Marks(b, true) && Marks(c, false) == Marks(b, false) - 1
    ensures SameButForeign([b] + rest, [c] + rest)
    ensures MarksAll([c] + rest, true) == MarksAll([b] + rest, true) && TopMarks([c] + rest, true) == TopMarks([b] + rest, true)
    ensures MarksAll([c] + rest, false) == MarksAll([b] + rest, false) - 1
  {
    EraseHead(b, rest);
    EraseHead(c, rest);
    assert ([b] + rest)[1..] == rest && ([c] + rest)[1..] == rest;
  }

  lemma DropRest(b: Block, rest: seq<Block>, cs: seq<Block>)
    requires SameButForeign(rest, cs)
    ensures SameButForeign([b] + rest, [b] + cs)
    ensures forall owned :: MarksAll([b] + cs, owned) == Marks(b, owned) + MarksAll(cs, owned)
                            && TopMarks([b] + cs, owned) == (if b.cache.Some? && b.owned == owned then 1 else 0) + TopMarks(cs, owned)
  {
    EraseHead(b, rest);
    EraseHead(b, cs);
    assert ([b] + cs)[1..] == cs;
  }

  predicate SameMessages(ms: seq<Message>, ns: seq<Message>) {
    |ns| == |ms| && forall i | 0 <= i < |ms| ::
      if ms[i].content.Blocks? then
        && ns[i].content.Blocks? && ns[i].role == ms[i].role && SameButForeign(ms[i].content.blocks, ns[i].content.blocks)
      else ns[i] == ms[i]
  }

  lemma SameRefl(bs: seq<Block>)
    ensures SameButForeign(bs, bs)
  {
  }

  lemma SameLast(ms: seq<Message>, ns: seq<Message>, m: Message, n: Message)
    requires SameMessages(ms, ns) && SameMessages([m], [n])
    ensures SameMessages(ms + [m], ns + [n])
  {
    var ms', ns' := ms + [m], ns + [n];
    forall i | 0 <= i < |ms'|
      ensures if ms'[i].content.Blocks? then
                && ns'[i].content.Blocks? && ns'[i].role == ms'[i].role && SameButForeign(ms'[i].content.blocks, ns'[i].content.blocks)
              else ns'[i] == ms'[i]
    {
      if i == |ms| { assert ms'[i] == [m][0] && ns'[i] == [n][0]; }
    }
  }

  lemma SameOne(m: Message, bs: seq<Block>)
    requires m.content.Blocks? && SameButForeign(m.content.blocks, bs)
    ensures SameMessages([m], [m.(content := Blocks(bs))])
  {
  }

  lemma NoMarks(owned: bool)
    ensures MarksAll([], owned) == 0 && MessageMarks([], owned) == 0
  {
  }

  lemma SameAll(ms: seq<Message>)
    ensures SameMessages(ms, ms)
  {
    forall i | 0 <= i < |ms| && ms[i].content.Blocks? ensures SameButForeign(ms[i].content.blocks, ms[i].content.blocks) {
      SameRefl(ms[i].content.blocks);
    }
  }

  lemma MarksLast(ms: seq<Message>, m: Message, owned: bool)
    ensures MessageMarks(ms + [m], owned) == MessageMarks(ms, owned) + MarksAll(BlocksOf(m), owned)
  {
    assert (ms + [m])[..|ms|] == ms;
  }

  lemma {:induction false} DropMessagesIs(ms: seq<Message>)
    ensures var (ns, hit) := DropMessages(ms);
            && SameMessages(ms, ns)
            && (hit <==> MessageMarks(ms, false) > 0)
            && MessageMarks(ns, true) == MessageMarks(ms, true)
            && MessageMarks(ns, false) == MessageMarks(ms, false) - (if hit then 1 else 0)
  {
    if ms != [] {
      hide SameMessages, SameButForeign, MarksAll, DropIn, MessageMarks;
      var n := |ms| - 1;
      var (init, last) := (ms[..n], ms[n]);
      var here := DropIn(BlocksOf(last));
      DropInIs(BlocksOf(last));
      assert ms == init + [last];
      MarksLast(init, last, true);
      MarksLast(init, last, false);
      if last.content.Blocks? && here.1 {
        var next := last.(content := Blocks(here.0));
        SameAll(init);
        SameOne(last, here.0);
        SameLast(init, init, last, next);
        MarksLast(init, next, true);
        MarksLast(init, next, false);
      } else {
        DropMessagesIs(init);
        var before := DropMessages(init);
        SameAll([last]);
        SameLast(init, before.0, last, last);
        MarksLast(before.0, last, true);
        MarksLast(before.0, last, false);
        NoMarks(false);
      }
    }
  }

  lemma SameFewer(p: Payload, q: Payload)
    requires SameButForeign(p.system, q.system) && SameButForeign(p.tools, q.tools) && SameMessages(p.messages, q.messages)
    requires Counted(q, true) == Counted(p, true)
    ensures Fewer(p, q)
  {
    assert forall i | 0 <= i < |p.messages| :: EraseMessage(q.messages[i]) == EraseMessage(p.messages[i]);
  }

  lemma DropOneIs(p: Payload)
    ensures var (q, hit) := DropOne(p);
            && Fewer(p, q) && (hit <==> ForeignMarks(p) > 0)
            && ForeignMarks(q) == ForeignMarks(p) - (if hit then 1 else 0)
  {
    DropMessagesIs(p.messages);
    DropInIs(p.tools);
    DropInIs(p.system);
    SameRefl(p.system);
    SameRefl(p.tools);
    SameFewer(p, DropOne(p).0);
  }

  function DropNested(p: Payload): Payload
    decreases ForeignMarks(p)
  {
    DropOneIs(p);
    if Markers(p) > MARKER_LIMIT && DropOne(p).1 then DropNested(DropOne(p).0) else p
  }

  lemma {:induction false} DropNestedIs(p: Payload)
    ensures var q := DropNested(p);
            Fewer(p, q) && (Markers(q) <= MARKER_LIMIT || ForeignMarks(q) == 0)
    decreases ForeignMarks(p)
  {
    DropOneIs(p);
    if Markers(p) > MARKER_LIMIT && DropOne(p).1 {
      var q := DropOne(p).0;
      DropNestedIs(q);
      FewerTransitive(p, q, DropNested(q));
    }
  }

  function Enforce(p: Payload): Payload {
    DropNested(EvictTop(p))
  }

  lemma ForeignCounted(p: Payload)
    ensures Counted(p, false) <= ForeignMarks(p)
  {
    TopWithin(p.system, false);
    TopWithin(p.tools, false);
  }

  /** The limit is met exactly when the hook's own markers alone meet it; nothing but foreign
      markers is touched. */
  lemma EnforceMeetsLimit(p: Payload)
    ensures Fewer(p, Enforce(p))
    ensures Markers(Enforce(p)) <= MARKER_LIMIT <==> Counted(p, true) <= MARKER_LIMIT
  {
    var q := EvictTop(p);
    EvictTopFewer(p);
    DropNestedIs(q);
    FewerTransitive(p, q, DropNested(q));
    ForeignCounted(DropNested(q));
  }
}
