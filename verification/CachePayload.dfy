/** An Anthropic request as the cache hook sees it. */
module CachePayload {
  // Blocks with an optional cache marker, and the markers' order, count and ownership.

  import opened Wrappers

  datatype Ttl = NoTtl | Short | Long

  datatype Kind = TextBlock(text: string) | ImageBlock | ToolResult(toolUse: string) | OtherBlock(schema: bool)

  /** A block; rest stands for its other fields, children for an array in its content. Owned says
      that the hook placed a marker here during the current request. */
  datatype Block = Block(kind: Kind, rest: nat, children: seq<Block>, cache: Option<Ttl>, owned: bool)

  datatype Content = Plain(text: string) | Blocks(blocks: seq<Block>)

  datatype Message = Message(role: string, content: Content)

  datatype Payload = Payload(system: seq<Block>, tools: seq<Block>, messages: seq<Message>)

  datatype Section = SystemSection | ToolSection | MessageSection

  /** A top-level place: in system and tools the index alone, in messages the message and its block. */
  datatype Ref = Ref(section: Section, idx: nat, block: nat)

  datatype Marker = Marker(ref: Ref, owned: bool)

  function BlocksOf(m: Message): seq<Block> {
    if m.content.Blocks? then m.content.blocks else []
  }

  function RefAt(section: Section, msg: nat, j: nat): Ref {
    if section.MessageSection? then Ref(section, msg, j) else Ref(section, j, 0)
  }

  predicate ValidRef(p: Payload, r: Ref) {
    match r.section
    case SystemSection => r.idx < |p.system| && r.block == 0
    case ToolSection => r.idx < |p.tools| && r.block == 0
    case MessageSection => r.idx < |p.messages| && r.block < |BlocksOf(p.messages[r.idx])|
  }

  function At(p: Payload, r: Ref): Block
    requires ValidRef(p, r)
  {
    match r.section
    case SystemSection => p.system[r.idx]
    case ToolSection => p.tools[r.idx]
    case MessageSection => BlocksOf(p.messages[r.idx])[r.block]
  }

  function WithMessage(p: Payload, i: nat, bs: seq<Block>): Payload
    requires i < |p.messages| && p.messages[i].content.Blocks?
  {
    p.(messages := p.messages[i := p.messages[i].(content := Blocks(bs))])
  }

  /** The payload with one block replaced. */
  function Put(p: Payload, r: Ref, b: Block): Payload
    requires ValidRef(p, r)
  {
    match r.section
    case SystemSection => p.(system := p.system[r.idx := b])
    case ToolSection => p.(tools := p.tools[r.idx := b])
    case MessageSection => WithMessage(p, r.idx, BlocksOf(p.messages[r.idx])[r.block := b])
  }

  function Delete(p: Payload, r: Ref): Payload
    requires ValidRef(p, r)
  {
    Put(p, r, At(p, r).(cache := None))
  }

  lemma PutAt(p: Payload, r: Ref, b: Block, q: Ref)
    requires ValidRef(p, r) && ValidRef(p, q)
    ensures ValidRef(Put(p, r, b), q) && At(Put(p, r, b), q) == if q == r then b else At(p, q)
  {
  }

  // ---------------------------------------------------------------- everything but the markers

  function Erase(b: Block): Block
    decreases b
  {
    Block(b.kind, b.rest, EraseAll(b.children), None, false)
  }

  function EraseAll(bs: seq<Block>): seq<Block>
    decreases bs
  {
    seq(|bs|, i requires 0 <= i < |bs| => Erase(bs[i]))
  }

  function EraseMessage(m: Message): Message {
    if m.content.Blocks? then m.(content := Blocks(EraseAll(m.content.blocks))) else m
  }

  /** What a payload says apart from its cache markers. */
  function ErasePayload(p: Payload): Payload {
    Payload(EraseAll(p.system), EraseAll(p.tools), seq(|p.messages|, i requires 0 <= i < |p.messages| => EraseMessage(p.messages[i])))
  }

  lemma EraseUpdate(bs: seq<Block>, j: nat, b: Block)
    requires j < |bs| && Erase(b) == Erase(bs[j])
    ensures EraseAll(bs[j := b]) == EraseAll(bs)
  {
  }

  lemma PutErases(p: Payload, r: Ref, b: Block)
    requires ValidRef(p, r) && Erase(b) == Erase(At(p, r))
    ensures ErasePayload(Put(p, r, b)) == ErasePayload(p)
  {
    match r.section
    case SystemSection => EraseUpdate(p.system, r.idx, b);
    case ToolSection => EraseUpdate(p.tools, r.idx, b);
    case MessageSection =>
      EraseUpdate(BlocksOf(p.messages[r.idx]), r.block, b);
      assert forall i | 0 <= i < |p.messages| :: EraseMessage(Put(p, r, b).messages[i]) == EraseMessage(p.messages[i]);
  }

  // ---------------------------------------------------------------- the top-level markers in order

  function ListBlocks(section: Section, msg: nat, bs: seq<Block>): seq<Marker> {
    if bs == [] then []
    else
      var n := |bs| - 1;
      ListBlocks(section, msg, bs[..n]) + if bs[n].cache.Some? then [Marker(RefAt(section, msg, n), bs[n].owned)] else []
  }

  function ListMessages(ms: seq<Message>): seq<Marker> {
    if ms == [] then []
    else ListMessages(ms[..|ms| - 1]) + ListBlocks(MessageSection, |ms| - 1, BlocksOf(ms[|ms| - 1]))
  }

  function List(p: Payload): seq<Marker> {
    ListBlocks(SystemSection, 0, p.system) + ListBlocks(ToolSection, 0, p.tools) + ListMessages(p.messages)
  }

  /** Exactly the marked places, each once, with its ownership. */
  lemma {:induction false} ListBlocksIs(section: Section, msg: nat, bs: seq<Block>)
    ensures forall m :: m in ListBlocks(section, msg, bs) <==>
              exists j :: 0 <= j < |bs| && bs[j].cache.Some? && m == Marker(RefAt(section, msg, j), bs[j].owned)
    ensures DistinctRefs(ListBlocks(section, msg, bs))
  {
    if bs != [] {
      var n := |bs| - 1;
      ListBlocksIs(section, msg, bs[..n]);
      var init := ListBlocks(section, msg, bs[..n]);
      forall i | 0 <= i < |init| ensures init[i].ref != RefAt(section, msg, n) {
        assert init[i] in init;
      }
      forall m ensures m in ListBlocks(section, msg, bs) <==>
                         exists j :: 0 <= j < |bs| && bs[j].cache.Some? && m == Marker(RefAt(section, msg, j), bs[j].owned) {
        if j :| 0 <= j < |bs| && bs[j].cache.Some? && m == Marker(RefAt(section, msg, j), bs[j].owned) {
          if j < n { assert bs[..n][j] == bs[j]; }
        }
      }
    }
  }

  predicate DistinctRefs(ms: seq<Marker>) {
    forall i, j | 0 <= i < j < |ms| :: ms[i].ref != ms[j].ref
  }

  lemma {:induction false} ListMessagesIs(ms: seq<Message>)
    ensures forall m :: m in ListMessages(ms) <==>
              && m.ref.section.MessageSection? && m.ref.idx < |ms| && m.ref.block < |BlocksOf(ms[m.ref.idx])|
              && BlocksOf(ms[m.ref.idx])[m.ref.block].cache.Some? && m.owned == BlocksOf(ms[m.ref.idx])[m.ref.block].owned
    ensures DistinctRefs(ListMessages(ms))
  {
    if ms != [] {
      var n := |ms| - 1;
      ListMessagesIs(ms[..n]);
      ListBlocksIs(MessageSection, n, BlocksOf(ms[n]));
      var init, last := ListMessages(ms[..n]), ListBlocks(MessageSection, n, BlocksOf(ms[n]));
      forall i, j | 0 <= i < |init| && 0 <= j < |last| ensures init[i].ref != last[j].ref {
        assert init[i] in init && last[j] in last;
      }
    }
  }

  lemma ListIs(p: Payload)
    ensures forall m :: m in List(p) <==> ValidRef(p, m.ref) && At(p, m.ref).cache.Some? && m.owned == At(p, m.ref).owned
    ensures DistinctRefs(List(p))
  {
    var (a, b, c) := (ListBlocks(SystemSection, 0, p.system), ListBlocks(ToolSection, 0, p.tools), ListMessages(p.messages));
    ListBlocksIs(SystemSection, 0, p.system);
    ListBlocksIs(ToolSection, 0, p.tools);
    ListMessagesIs(p.messages);
    forall m ensures m in List(p) <==> ValidRef(p, m.ref) && At(p, m.ref).cache.Some? && m.owned == At(p, m.ref).owned {
      assert m in List(p) <==> m in a || m in b || m in c;
      if ValidRef(p, m.ref) && At(p, m.ref).cache.Some? && m.owned == At(p, m.ref).owned {
        if m.ref.section.SystemSection? { assert m == Marker(RefAt(SystemSection, 0, m.ref.idx), p.system[m.ref.idx].owned); }
        if m.ref.section.ToolSection? { assert m == Marker(RefAt(ToolSection, 0, m.ref.idx), p.tools[m.ref.idx].owned); }
      }
    }
    forall i, j | 0 <= i < |a| && 0 <= j < |b| ensures a[i].ref != b[j].ref { assert a[i] in a && b[j] in b; }
    forall i, j | 0 <= i < |a| && 0 <= j < |c| ensures a[i].ref != c[j].ref { assert a[i] in a && c[j] in c; }
    forall i, j | 0 <= i < |b| && 0 <= j < |c| ensures b[i].ref != c[j].ref { assert b[i] in b && c[j] in c; }
  }

  // ---------------------------------------------------------------- filters

  function Without(ms: seq<Marker>, r: Ref): seq<Marker> {
    if ms == [] then []
    else Without(ms[..|ms| - 1], r) + if ms[|ms| - 1].ref == r then [] else [ms[|ms| - 1]]
  }

  lemma {:induction false} WithoutConcat(a: seq<Marker>, b: seq<Marker>, r: Ref)
    ensures Without(a + b, r) == Without(a, r) + Without(b, r)
  {
    if b == [] {
      assert a + b == a;
    } else {
      var n := |b| - 1;
      WithoutConcat(a, b[..n], r);
      assert (a + b)[..|a + b| - 1] == a + b[..n];
    }
  }

  lemma {:induction false} WithoutAbsent(ms: seq<Marker>, r: Ref)
    requires forall i | 0 <= i < |ms| :: ms[i].ref != r
    ensures Without(ms, r) == ms
  {
    if ms != [] {
      WithoutAbsent(ms[..|ms| - 1], r);
      assert ms == ms[..|ms| - 1] + [ms[|ms| - 1]];
    }
  }

  lemma {:induction false} WithoutLength(ms: seq<Marker>, r: Ref)
    requires DistinctRefs(ms) && exists m :: m in ms && m.ref == r
    ensures |Without(ms, r)| == |ms| - 1
  {
    var n := |ms| - 1;
    if ms[n].ref == r {
      WithoutAbsent(ms[..n], r);
    } else {
      var m :| m in ms && m.ref == r;
      assert m in ms[..n];
      WithoutLength(ms[..n], r);
    }
  }

  lemma NotListed(section: Section, msg: nat, bs: seq<Block>, j: nat)
    requires j >= |bs|
    ensures Without(ListBlocks(section, msg, bs), RefAt(section, msg, j)) == ListBlocks(section, msg, bs)
  {
    ListBlocksIs(section, msg, bs);
    var ms := ListBlocks(section, msg, bs);
    forall i | 0 <= i < |ms| ensures ms[i].ref != RefAt(section, msg, j) { assert ms[i] in ms; }
    WithoutAbsent(ListBlocks(section, msg, bs), RefAt(section, msg, j));
  }

  /** The last block's own entry in the list. */
  function LastEntry(section: Section, msg: nat, bs: seq<Block>): seq<Marker>
    requires bs != []
  {
    if bs[|bs| - 1].cache.Some? then [Marker(RefAt(section, msg, |bs| - 1), bs[|bs| - 1].owned)] else []
  }

  lemma {:induction false} UnmarkBlocks(section: Section, msg: nat, bs: seq<Block>, j: nat)
    requires j < |bs|
    ensures ListBlocks(section, msg, bs[j := bs[j].(cache := None)]) == Without(ListBlocks(section, msg, bs), RefAt(section, msg, j))
  {
    var n := |bs| - 1;
    var r := RefAt(section, msg, j);
    var cs := bs[j := bs[j].(cache := None)];
    var init, last := ListBlocks(section, msg, bs[..n]), LastEntry(section, msg, bs);
    WithoutConcat(init, last, r);
    assert ListBlocks(section, msg, bs) == init + last;
    assert ListBlocks(section, msg, cs) == ListBlocks(section, msg, cs[..n]) + LastEntry(section, msg, cs);
    if j == n {
      assert cs[..n] == bs[..n];
      NotListed(section, msg, bs[..n], j);
      assert Without(last, r) == [];
    } else {
      assert cs[..n] == bs[..n][j := bs[..n][j].(cache := None)];
      UnmarkBlocks(section, msg, bs[..n], j);
      assert Without(last, r) == last;
    }
  }

  lemma NotInBlocks(section: Section, msg: nat, bs: seq<Block>, r: Ref)
    requires r.section != section || (section.MessageSection? && r.idx != msg)
    ensures Without(ListBlocks(section, msg, bs), r) == ListBlocks(section, msg, bs)
  {
    ListBlocksIs(section, msg, bs);
    var ms := ListBlocks(section, msg, bs);
    forall i | 0 <= i < |ms| ensures ms[i].ref != r { assert ms[i] in ms; }
    WithoutAbsent(ListBlocks(section, msg, bs), r);
  }

  lemma NotInMessages(ms: seq<Message>, r: Ref)
    requires !r.section.MessageSection? || r.idx >= |ms|
    ensures Without(ListMessages(ms), r) == ListMessages(ms)
  {
    ListMessagesIs(ms);
    var es := ListMessages(ms);
    forall i | 0 <= i < |es| ensures es[i].ref != r { assert es[i] in es; }
    WithoutAbsent(ListMessages(ms), r);
  }

  lemma {:induction false} UnmarkMessages(ms: seq<Message>, i: nat, j: nat)
    requires i < |ms| && j < |BlocksOf(ms[i])|
    ensures var bs := BlocksOf(ms[i]);
            ListMessages(ms[i := ms[i].(content := Blocks(bs[j := bs[j].(cache := None)]))]) == Without(ListMessages(ms), Ref(MessageSection, i, j))
  {
    hide ListBlocks, Without;
    var n := |ms| - 1;
    var bs, r := BlocksOf(ms[i]), Ref(MessageSection, i, j);
    var ns := ms[i := ms[i].(content := Blocks(bs[j := bs[j].(cache := None)]))];
    var (init, last) := (ListMessages(ms[..n]), ListBlocks(MessageSection, n, BlocksOf(ms[n])));
    WithoutConcat(init, last, r);
    assert ListMessages(ns) == ListMessages(ns[..n]) + ListBlocks(MessageSection, n, BlocksOf(ns[n]));
    if i == n {
      assert ns[..n] == ms[..n];
      NotInMessages(ms[..n], r);
      UnmarkBlocks(MessageSection, n, bs, j);
    } else {
      assert ns[..n] == ms[..n][i := ns[i]];
      UnmarkMessages(ms[..n], i, j);
      NotInBlocks(MessageSection, n, BlocksOf(ms[n]), r);
    }
  }

  /** Taking a marker away removes it from the list and leaves the rest in order. */
  lemma DeleteUnlists(p: Payload, r: Ref)
    requires ValidRef(p, r)
    ensures List(Delete(p, r)) == Without(List(p), r)
  {
    var (a, b, c) := (ListBlocks(SystemSection, 0, p.system), ListBlocks(ToolSection, 0, p.tools), ListMessages(p.messages));
    hide ListBlocks, ListMessages, Without;
    WithoutConcat(a + b, c, r);
    WithoutConcat(a, b, r);
    if !r.section.SystemSection? { NotInBlocks(SystemSection, 0, p.system, r); } else { UnmarkBlocks(SystemSection, 0, p.system, r.idx); }
    if !r.section.ToolSection? { NotInBlocks(ToolSection, 0, p.tools, r); } else { UnmarkBlocks(ToolSection, 0, p.tools, r.idx); }
    if !r.section.MessageSection? { NotInMessages(p.messages, r); } else { UnmarkMessages(p.messages, r.idx, r.block); }
  }
}
