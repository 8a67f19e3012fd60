/** The hook that moves the message-level cache markers of an Anthropic request onto its newest anchor. */
module CacheAnchor {
  // It bridges from the anchor before it while the newest has no reply, and then enforces the
  // marker limit.

  import opened Wrappers
  import opened CachePayload
  import opened CacheLimit

  /** How the provider client spells a tool call id, and which texts count as blank. */
  datatype Host = Host(wire: string -> string, blank: string -> bool)

  /** Where an anchor renders: its tool result, or the user turn with its content. */
  datatype Locator = ByCall(toolCall: string) | ByContent(content: Option<seq<Block>>)

  /** A block of a message. */
  datatype Spot = Spot(msg: nat, block: nat)

  function RefOf(s: Spot): Ref {
    Ref(MessageSection, s.msg, s.block)
  }

  // ---------------------------------------------------------------- locating an anchor

  /** The text and image sequence of a user turn, blank texts dropped; None for anything else. */
  function Parts(h: Host, bs: seq<Block>): Option<seq<Option<string>>> {
    if bs == [] then Some([])
    else
      var rest := Parts(h, bs[1..]);
      if rest.None? then None
      else match bs[0].kind
        case TextBlock(text) => if h.blank(text) then rest else Some([Some(text)] + rest.value)
        case ImageBlock => Some([None] + rest.value)
        case _ => None
  }

  function Rendered(h: Host, bs: seq<Block>): Option<seq<Option<string>>> {
    var parts := Parts(h, bs);
    if parts.Some? && parts.value == [] then None else parts
  }

  predicate IsResultOf(h: Host, b: Block, call: string) {
    b.kind.ToolResult? && (b.kind.toolUse == call || b.kind.toolUse == h.wire(call))
  }

  function FindResult(h: Host, bs: seq<Block>, call: string): Option<nat> {
    if bs == [] then None
    else if IsResultOf(h, bs[0], call) then Some(0)
    else match FindResult(h, bs[1..], call) case Some(j) => Some(j + 1) case None => None
  }

  /** The block of this message that renders the anchor. */
  function SpotIn(h: Host, m: Message, a: Locator): Option<nat> {
    if m.role != "user" || m.content.Plain? then None
    else match a
      case ByCall(call) => FindResult(h, m.content.blocks, call)
      case ByContent(content) =>
        if content.None? || Rendered(h, content.value).None? || m.content.blocks == [] then None
        else if Rendered(h, m.content.blocks) == Rendered(h, content.value) then Some(|m.content.blocks| - 1) else None
  }

  /** Last matching block before a message. */
  function Located(h: Host, ms: seq<Message>, a: Locator): Option<Spot> {
    if ms == [] then None
    else match SpotIn(h, ms[|ms| - 1], a)
      case Some(j) => Some(Spot(|ms| - 1, j))
      case None => Located(h, ms[..|ms| - 1], a)
  }

  lemma {:induction false} FindResultIs(h: Host, bs: seq<Block>, call: string)
    ensures var r := FindResult(h, bs, call);
            && (r.Some? ==> r.value < |bs| && IsResultOf(h, bs[r.value], call) && forall j | 0 <= j < r.value :: !IsResultOf(h, bs[j], call))
            && (r.None? ==> forall j | 0 <= j < |bs| :: !IsResultOf(h, bs[j], call))
  {
    if bs != [] {
      FindResultIs(h, bs[1..], call);
      forall j | 1 <= j < |bs| ensures bs[j] == bs[1..][j - 1] {}
    }
  }

  /** The newest message that renders the anchor, and a block that exists. */
  lemma {:induction false} LocatedIs(h: Host, ms: seq<Message>, a: Locator)
    ensures var r := Located(h, ms, a);
            && (r.Some? ==> && r.value.msg < |ms| && ms[r.value.msg].content.Blocks? && r.value.block < |BlocksOf(ms[r.value.msg])|
                            && SpotIn(h, ms[r.value.msg], a) == Some(r.value.block)
                            && forall i | r.value.msg < i < |ms| :: SpotIn(h, ms[i], a).None?)
            && (r.None? ==> forall i | 0 <= i < |ms| :: SpotIn(h, ms[i], a).None?)
  {
    if ms != [] {
      LocatedIs(h, ms[..|ms| - 1], a);
      var m := ms[|ms| - 1];
      if m.content.Blocks? && a.ByCall? { FindResultIs(h, m.content.blocks, a.toolCall); }
    }
  }

  /** One past the last assistant message. */
  function AfterLastAssistant(ms: seq<Message>): (n: nat)
    ensures n <= |ms| && (n > 0 ==> ms[n - 1].role == "assistant")
    ensures forall i | n <= i < |ms| :: ms[i].role != "assistant"
  {
    if ms == [] then 0 else if ms[|ms| - 1].role == "assistant" then |ms| else AfterLastAssistant(ms[..|ms| - 1])
  }

  /** The newest of these anchors that is in these messages. */
  function LastLocated(h: Host, ms: seq<Message>, anchors: seq<Locator>): Option<Spot> {
    if anchors == [] then None
    else match Located(h, ms, anchors[|anchors| - 1])
      case Some(spot) => Some(spot)
      case None => LastLocated(h, ms, anchors[..|anchors| - 1])
  }

  /** The anchor before the newest one and before the last assistant turn, while the newest has no reply. */
  function Bridge(h: Host, ms: seq<Message>, anchors: seq<Locator>, spot: Spot): Option<Spot>
    requires anchors != []
  {
    var n := AfterLastAssistant(ms);
    if n == 0 || spot.msg < n - 1 then None else LastLocated(h, ms[..n - 1], anchors[..|anchors| - 1])
  }

  lemma {:induction false} LastLocatedIs(h: Host, ms: seq<Message>, anchors: seq<Locator>)
    ensures var r := LastLocated(h, ms, anchors);
            r.Some? ==> r.value.msg < |ms| && ms[r.value.msg].content.Blocks? && r.value.block < |BlocksOf(ms[r.value.msg])|
  {
    if anchors != [] {
      LocatedIs(h, ms, anchors[|anchors| - 1]);
      LastLocatedIs(h, ms, anchors[..|anchors| - 1]);
    }
  }

  /** A bridge is a block of a message before the newest anchor's. */
  lemma BridgeIs(h: Host, ms: seq<Message>, anchors: seq<Locator>, spot: Spot)
    requires anchors != []
    ensures var r := Bridge(h, ms, anchors, spot);
            r.Some? ==> && r.value.msg < spot.msg && r.value.msg < |ms| && ms[r.value.msg].content.Blocks?
                        && r.value.block < |BlocksOf(ms[r.value.msg])|
  {
    var n := AfterLastAssistant(ms);
    if n > 0 { LastLocatedIs(h, ms[..n - 1], anchors[..|anchors| - 1]); }
  }

  // ---------------------------------------------------------------- the rewrite, step by step

  /** A long marker becomes or stays long; nested blocks only where the provider reads them. */
  function LongBlock(b: Block): Block
    decreases b
  {
    b.(children := LongAll(b.children), cache := if b.cache.Some? then Some(Long) else None)
  }

  function LongAll(bs: seq<Block>): seq<Block>
    decreases bs
  {
    seq(|bs|, i requires 0 <= i < |bs| => LongBlock(bs[i]))
  }

  function LongTop(bs: seq<Block>): seq<Block> {
    seq(|bs|, i requires 0 <= i < |bs| => bs[i].(cache := if bs[i].cache.Some? then Some(Long) else None))
  }

  function LongMessage(m: Message): Message {
    if m.content.Blocks? then m.(content := Blocks(LongAll(m.content.blocks))) else m
  }

  function LongMessages(ms: seq<Message>): seq<Message> {
    seq(|ms|, i requires 0 <= i < |ms| => LongMessage(ms[i]))
  }

  function MakeLong(p: Payload): Payload {
    Payload(LongTop(p.system), LongTop(p.tools), LongMessages(p.messages))
  }

  predicate LongIn(b: Block)
    decreases b
  {
    b.cache == Some(Long) || AnyLong(b.children)
  }

  predicate AnyLong(bs: seq<Block>)
    decreases bs
  {
    exists i | 0 <= i < |bs| :: LongIn(bs[i])
  }

  predicate HasLong(p: Payload) {
    || (exists i | 0 <= i < |p.system| :: p.system[i].cache == Some(Long))
    || (exists i | 0 <= i < |p.tools| :: p.tools[i].cache == Some(Long))
    || (exists i | 0 <= i < |p.messages| :: AnyLong(BlocksOf(p.messages[i])))
  }

  /** Message places strictly before a spot. */
  predicate BeforeSpot(r: Ref, spot: Spot) {
    r.section.MessageSection? && (r.idx < spot.msg || (r.idx == spot.msg && r.block < spot.block))
  }

  /** Walk the listed markers and take away those before the spot. */
  function ClearListed(p: Payload, ms: seq<Marker>, spot: Spot): Payload
    requires forall i | 0 <= i < |ms| :: ValidRef(p, ms[i].ref)
    decreases |ms|
  {
    if ms == [] then p
    else
      var q := if BeforeSpot(ms[0].ref, spot) then Delete(p, ms[0].ref) else p;
      assert forall i | 0 <= i < |ms[1..]| :: ValidRef(q, ms[1..][i].ref) by {
        forall i | 0 <= i < |ms[1..]| ensures ValidRef(q, ms[1..][i].ref) {
          assert ms[1..][i] == ms[i + 1];
          PutRefs(p, ms[0].ref, At(p, ms[0].ref).(cache := None), ms[i + 1].ref);
        }
      }
      ClearListed(q, ms[1..], spot)
  }

  predicate Lists(ms: seq<Marker>, r: Ref) {
    exists i | 0 <= i < |ms| :: ms[i].ref == r
  }

  function SetMarker(p: Payload, spot: Spot, ttl: Ttl): Payload
    requires ValidRef(p, RefOf(spot))
  {
    Put(p, RefOf(spot), At(p, RefOf(spot)).(cache := Some(ttl), owned := true))
  }

  predicate BridgeFits(p: Payload) {
    |List(p)| - |Evictable(List(p))| < MARKER_LIMIT
  }

  function ShortBlocks(bs: seq<Block>): seq<Block> {
    seq(|bs|, i requires 0 <= i < |bs| => bs[i].(cache := if bs[i].cache.Some? then Some(Short) else None))
  }

  function ShortMessage(m: Message): Message {
    if m.content.Blocks? then m.(content := Blocks(ShortBlocks(m.content.blocks))) else m
  }

  function ShortMessages(ms: seq<Message>, msg: nat): seq<Message> {
    seq(|ms|, i requires 0 <= i < |ms| => if i > msg then ShortMessage(ms[i]) else ms[i])
  }

  function ShortAfter(p: Payload, msg: nat): Payload {
    p.(messages := ShortMessages(p.messages, msg))
  }

  datatype Settings = Settings(enabled: bool, ignoresMessages: bool)

  predicate IsAnthropic(p: Payload) {
    (p.system != [] && p.system[0].kind.TextBlock?) || (p.tools != [] && p.tools[0].kind == OtherBlock(true))
  }

  predicate HasMessageMarker(p: Payload) {
    Pick(List(p), MessageSection) != []
  }

  /** The newest anchor's spot when the hook applies at all. */
  function Target(h: Host, p: Payload, anchors: seq<Locator>, s: Settings): Option<Spot> {
    if !IsAnthropic(p) || !HasMessageMarker(p) || !s.enabled || s.ignoresMessages || anchors == [] then None
    else Located(h, p.messages, anchors[|anchors| - 1])
  }

  /** A block that exists. */
  predicate ValidSpot(p: Payload, spot: Spot) {
    ValidRef(p, RefOf(spot)) && p.messages[spot.msg].content.Blocks?
  }

  /** The payload with the anchor marked and nothing marked before it in the messages. */
  function Anchored(p: Payload, spot: Spot): Payload
    requires ValidSpot(p, spot)
  {
    var p1 := if HasLong(p) then MakeLong(p) else p;
    ListIs(p1);
    var p2 := ClearListed(p1, List(p1), spot);
    ClearIs(p1, List(p1), spot);
    SetMarker(p2, spot, if HasLong(p) then Long else NoTtl)
  }

  /** The bridge that is placed, if one is found and fits. */
  function Placed(h: Host, p: Payload, anchors: seq<Locator>, spot: Spot): Option<Spot>
    requires anchors != []
  {
    var b := Bridge(h, p.messages, anchors, spot);
    if b.Some? && BridgeFits(p) then b else None
  }

  function WithBridge(p: Payload, bridge: Option<Spot>, ttl: Ttl): Payload
    requires bridge.Some? ==> ValidRef(p, RefOf(bridge.value))
  {
    if bridge.Some? then SetMarker(p, bridge.value, ttl) else p
  }

  /** Everything but the marker limit. */
  function Prepared(h: Host, p: Payload, anchors: seq<Locator>, spot: Spot): Payload
    requires anchors != [] && ValidSpot(p, spot)
  {
    var p3 := Anchored(p, spot);
    var bridge := Placed(h, p3, anchors, spot);
    BridgeIs(h, p3.messages, anchors, spot);
    var p4 := WithBridge(p3, bridge, if HasLong(p) then Long else NoTtl);
    if HasLong(p) then ShortAfter(p4, spot.msg) else p4
  }

  /** The payload rewritten for an anchor at this spot. */
  function Rewrite(h: Host, p: Payload, anchors: seq<Locator>, spot: Spot): Payload
    requires anchors != [] && ValidSpot(p, spot)
  {
    Enforce(Prepared(h, p, anchors, spot))
  }

  /** The whole hook: None when the payload is left as it is. */
  function Rewritten(h: Host, p: Payload, anchors: seq<Locator>, s: Settings): Option<Payload> {
    var spot := Target(h, p, anchors, s);
    if spot.None? then None
    else
      LocatedIs(h, p.messages, anchors[|anchors| - 1]);
      Some(Rewrite(h, p, anchors, spot.value))
  }

  // ---------------------------------------------------------------- what each step does to a place

  /** Same text, same places. */
  lemma SameRefs(p: Payload, q: Payload)
    requires ErasePayload(p) == ErasePayload(q)
    ensures forall r :: ValidRef(p, r) <==> ValidRef(q, r)
    ensures forall i | 0 <= i < |p.messages| :: i < |q.messages| && p.messages[i].content.Blocks? == q.messages[i].content.Blocks?
  {
    assert |p.system| == |EraseAll(p.system)| == |q.system| && |p.tools| == |EraseAll(p.tools)| == |q.tools|;
    assert |p.messages| == |ErasePayload(p).messages| == |q.messages|;
    forall i | 0 <= i < |p.messages|
      ensures p.messages[i].content.Blocks? == q.messages[i].content.Blocks? && |BlocksOf(p.messages[i])| == |BlocksOf(q.messages[i])|
    {
      assert ErasePayload(p).messages[i] == EraseMessage(p.messages[i]) && ErasePayload(q).messages[i] == EraseMessage(q.messages[i]);
      if p.messages[i].content.Blocks? {
        assert |EraseAll(p.messages[i].content.blocks)| == |EraseAll(q.messages[i].content.blocks)|;
      }
    }
  }

  lemma {:induction false} ClearIs(p: Payload, ms: seq<Marker>, spot: Spot)
    requires forall i | 0 <= i < |ms| :: ValidRef(p, ms[i].ref)
    ensures var q := ClearListed(p, ms, spot);
            && ErasePayload(q) == ErasePayload(p)
            && (forall r :: ValidRef(q, r) <==> ValidRef(p, r))
            && (forall r | ValidRef(p, r) && ValidRef(q, r) ::
                  At(q, r) == if BeforeSpot(r, spot) && Lists(ms, r) then At(p, r).(cache := None) else At(p, r))
    decreases |ms|
  {
    if ms != [] {
      var r := ms[0].ref;
      var q := if BeforeSpot(r, spot) then Delete(p, r) else p;
      var b := At(p, r).(cache := None);
      forall x ensures ValidRef(q, x) <==> ValidRef(p, x) { PutRefs(p, r, b, x); }
      forall x | ValidRef(p, x) ensures At(q, x) == if x == r && BeforeSpot(r, spot) then b else At(p, x) { PutAt(p, r, b, x); }
      PutErases(p, r, b);
      hide Put, At, ValidRef, ErasePayload, BeforeSpot;
      var rest := ms[1..];
      assert forall i | 0 <= i < |rest| :: rest[i] == ms[i + 1];
      ClearIs(q, rest, spot);
      forall x ensures Lists(ms, x) <==> x == r || Lists(rest, x) {
        if i :| 0 <= i < |ms| && ms[i].ref == x { if i > 0 { assert rest[i - 1] == ms[i]; } }
      }
    }
  }
}
