/** The final gate of a prepared summary, and how growth is charged when it is asked again. */
module Revalidate {
  // A summary may be applied only to its own session, reader and branch, and only if the context
  // that will remain, with everything appended since the summary was staged, still fits and still
  // saves enough.

  import opened Wrappers

  const MIN_COMPACTION_SAVING_RATIO := 0.1
  const MIN_RESERVE_TOKENS := 8192.0
  const ROUNDING_TOLERANCE_TOKENS := 1.0
  const YIELD_TARGET_TOLERANCE_RATIO := 0.05

  /** A projected message: the entry it comes from and everything else as one value. */
  datatype Message = Message(id: string, body: nat)

  datatype Snapshot = Snapshot(messageCount: nat, hash: nat)

  datatype Metrics = Metrics(before: real, after: real, tail: real, saved: real, yield_: real, percent: real)

  /** The planned size after compaction: not a number, a finite one, or a number that is not finite. */
  datatype Target = NoTarget | Finite(tokens: real) | NotFinite

  /** A staged candidate. None stands for a missing or non-finite number; pricing names the
      frozen estimator the run carries. */
  datatype Pending = Pending(
    session: string, runId: string, reader: Option<string>, originHead: string, firstKept: string,
    snapshot: Option<Snapshot>, pricing: Option<nat>, tokensBefore: Option<real>, after: Option<real>,
    target: Target, tail: Option<real>, saved: real, yield_: real, baseline: Option<real>, metrics: Option<Metrics>)

  /** How usage was established. */
  datatype Basis = Measured | Uncertain | Unavailable(staleProducer: bool)

  datatype Usage = Usage(basis: Basis, tokens: Option<real>)

  /** The live context at a call: its model, branch, messages and usage under a pricing. */
  datatype Context = Context(
    hasModel: bool, reader: string, session: string, window: Option<real>, maxTokens: real,
    branchIds: set<string>, messages: seq<Message>, usage: Option<nat> -> Option<Usage>, reserve: Option<real>)

  /** The frozen estimators and the fingerprint. Weights are computed on a whole list. */
  datatype Services = Services(weigh: nat -> seq<Message> -> seq<real>, fingerprint: seq<Message> -> nat)

  function Max(a: real, b: real): real {
    if a >= b then a else b
  }

  /** An uncertain or stale unpriced basis never authorizes application. */
  predicate Refuses(u: Option<Usage>) {
    u.Some? && (u.value.basis.Uncertain? || (u.value.basis.Unavailable? && u.value.basis.staleProducer))
  }

  predicate ExceedsYieldTarget(after: real, target: real) {
    after > target + Max(ROUNDING_TOLERANCE_TOKENS, (target * YIELD_TARGET_TOLERANCE_RATIO).Floor as real)
  }

  /** Append-only growth is fine; the captured prefix must be unchanged. */
  predicate MatchesBranch(s: Services, p: Pending, c: Context) {
    && p.originHead in c.branchIds && p.firstKept in c.branchIds
    && (p.snapshot.Some? ==>
          p.snapshot.value.messageCount <= |c.messages|
          && s.fingerprint(c.messages[..p.snapshot.value.messageCount]) == p.snapshot.value.hash)
  }

  function IndexOf(ms: seq<Message>, id: string): (i: nat)
    ensures i <= |ms|
  {
    if ms == [] then 0 else if ms[0].id == id then 0 else 1 + IndexOf(ms[1..], id)
  }

  function Sum(xs: seq<real>): real {
    if xs == [] then 0.0 else xs[0] + Sum(xs[1..])
  }

  /** Tokens from the kept boundary on, under the frozen estimator. */
  function RawTail(s: Services, pricing: nat, ms: seq<Message>, firstKept: string): real {
    var weights := s.weigh(pricing)(ms);
    var cut := IndexOf(ms, firstKept);
    if cut <= |weights| then Sum(weights[cut..]) else 0.0
  }

  function Staged(p: Pending, c: Context): seq<Message>
    requires p.snapshot.Some?
  {
    if p.snapshot.value.messageCount <= |c.messages| then c.messages[..p.snapshot.value.messageCount] else c.messages
  }

  /** What a priced candidate must prove before its tail growth can be measured. */
  predicate TailProven(p: Pending, c: Context) {
    && p.snapshot.Some?
    && IndexOf(c.messages, p.firstKept) < |c.messages|
    && IndexOf(Staged(p, c), p.firstKept) < |Staged(p, c)|
  }

  function Baseline(s: Services, p: Pending, c: Context): real
    requires p.pricing.Some? && p.snapshot.Some?
  {
    if p.baseline.Some? && p.baseline.value >= 0.0 then p.baseline.value
    else RawTail(s, p.pricing.value, Staged(p, c), p.firstKept)
  }

  /** Growth since staging: the total and, when the run is priced, the kept tail as well. */
  function Growth(s: Services, p: Pending, c: Context, tokens: real): real
    requires p.tokensBefore.Some? && (p.pricing.Some? ==> p.snapshot.Some?)
  {
    var total := Max(0.0, tokens - p.tokensBefore.value);
    if p.pricing.None? then total
    else Max(Max(0.0, RawTail(s, p.pricing.value, c.messages, p.firstKept) - Baseline(s, p, c)), total)
  }

  /** The measured tokens when every check before the growth accounting passes. */
  function CheckedTokens(s: Services, p: Pending, c: Context): Option<real> {
    var u := c.usage(p.pricing);
    if Refuses(u) || !c.hasModel || p.reader != Some(c.reader) || p.session != c.session || !MatchesBranch(s, p, c)
       || u.None? || u.value.tokens.None? || u.value.tokens.value <= 0.0
       || p.tokensBefore.None? || p.tokensBefore.value <= 0.0 || p.after.None? || p.after.value < 0.0
       || c.window.None? || c.window.value <= 0.0 || c.reserve.None?
       || (p.pricing.Some? && !TailProven(p, c)) then None
    else Some(u.value.tokens.value)
  }

  predicate Fits(p: Pending, c: Context, tokens: real, after: real)
    requires tokens > 0.0 && c.window.Some? && c.reserve.Some?
  {
    && after < c.window.value - Max(MIN_RESERVE_TOKENS, Max(c.maxTokens, c.reserve.value))
    && (tokens - after) / tokens >= MIN_COMPACTION_SAVING_RATIO
    && !p.target.NotFinite? && (p.target.Finite? ==> !ExceedsYieldTarget(after, p.target.tokens))
  }

  /** The candidate brought up to date, or nothing when it may not be applied. */
  function RevalidatePending(s: Services, p: Pending, c: Context): Option<Pending> {
    var checked := CheckedTokens(s, p, c);
    if checked.None? then None
    else
      var tokens := checked.value;
      var growth := Growth(s, p, c, tokens);
      var after := p.after.value + growth;
      if !Fits(p, c, tokens, after) then None
      else
        var tail := (if p.tail.Some? then p.tail.value else 0.0) + growth;
        var yield_ := (tokens - after) / tokens;
        Some(p.(tokensBefore := Some(tokens), after := Some(after), tail := Some(tail),
                saved := tokens - after, yield_ := yield_,
                baseline := if p.pricing.Some? then Some(RawTail(s, p.pricing.value, c.messages, p.firstKept)) else p.baseline,
                metrics := if p.metrics.None? then None
                           else Some(Metrics(tokens, after, tail, tokens - after, yield_, tokens / c.window.value * 100.0))))
  }

  /** Tail weights of an estimator are never negative. */
  ghost predicate HonestWeights(s: Services) {
    forall k: nat, ms: seq<Message>, i | 0 <= i < |s.weigh(k)(ms)| :: s.weigh(k)(ms)[i] >= 0.0
  }

  lemma {:induction false} SumNonNegative(xs: seq<real>)
    requires forall i | 0 <= i < |xs| :: xs[i] >= 0.0
    ensures Sum(xs) >= 0.0
  {
    if xs != [] {
      SumNonNegative(xs[1..]);
    }
  }

  lemma TailNonNegative(s: Services, pricing: nat, ms: seq<Message>, firstKept: string)
    requires HonestWeights(s)
    ensures RawTail(s, pricing, ms, firstKept) >= 0.0
  {
    var weights := s.weigh(pricing)(ms);
    var cut := IndexOf(ms, firstKept);
    if cut <= |weights| {
      SumNonNegative(weights[cut..]);
    }
  }

  /** Revalidating a revalidated candidate in an unchanged context changes nothing: the same
      growth is never charged twice. */
  lemma Idempotent(s: Services, p: Pending, c: Context)
    requires HonestWeights(s) && RevalidatePending(s, p, c).Some?
    ensures RevalidatePending(s, RevalidatePending(s, p, c).value, c) == RevalidatePending(s, p, c)
  {
    var q := RevalidatePending(s, p, c).value;
    if p.pricing.Some? {
      TailNonNegative(s, p.pricing.value, c.messages, p.firstKept);
    }
    assert CheckedTokens(s, q, c) == CheckedTokens(s, p, c);
    assert Growth(s, q, c, q.tokensBefore.value) == 0.0;
  }

  // ---------------------------------------------------------------- chains of revalidations

  /** Revalidating in each context in turn. */
  function Chain(s: Services, p: Pending, cs: seq<Context>): Option<Pending> {
    if cs == [] then Some(p)
    else
      var q := Chain(s, p, cs[..|cs| - 1]);
      if q.None? then None else RevalidatePending(s, q.value, cs[|cs| - 1])
  }

  /** Each context extends the messages of the one before. */
  predicate Growing(cs: seq<Context>) {
    forall i | 0 <= i < |cs| - 1 :: cs[i].messages <= cs[i + 1].messages
  }

  /** What revalidation never changes. */
  predicate SameIdentity(p: Pending, q: Pending) {
    && q.session == p.session && q.runId == p.runId && q.reader == p.reader && q.originHead == p.originHead
    && q.firstKept == p.firstKept && q.snapshot == p.snapshot && q.pricing == p.pricing && q.target == p.target
  }

  /** The state of a chain at its last context c: charged at least what c alone would charge. */
  predicate Charged(s: Services, p: Pending, q: Pending, c: Context) {
    && SameIdentity(p, q)
    && p.tokensBefore.Some? && p.tokensBefore.value > 0.0 && p.after.Some? && p.after.value >= 0.0
    && (p.pricing.Some? ==> p.snapshot.Some? && p.snapshot.value.messageCount <= |c.messages|)
    && q.tokensBefore.Some? && q.after.Some?
    && (p.pricing.Some? ==> q.baseline == Some(RawTail(s, p.pricing.value, c.messages, p.firstKept)))
    && q.after.value - p.after.value >= Growth(s, p, c, q.tokensBefore.value)
  }

  lemma Subadditive(a: real, b: real, c: real)
    ensures Max(0.0, c - a) <= Max(0.0, b - a) + Max(0.0, c - b)
  {
  }

  lemma FirstCharged(s: Services, p: Pending, c: Context)
    requires RevalidatePending(s, p, c).Some?
    ensures Charged(s, p, RevalidatePending(s, p, c).value, c)
  {
  }

  lemma ChargedExtends(s: Services, p: Pending, q: Pending, b: Context, c: Context)
    requires HonestWeights(s) && Charged(s, p, q, b) && b.messages <= c.messages && RevalidatePending(s, q, c).Some?
    ensures Charged(s, p, RevalidatePending(s, q, c).value, c)
  {
    var r := RevalidatePending(s, q, c).value;
    var tokens := r.tokensBefore.value;
    Subadditive(p.tokensBefore.value, q.tokensBefore.value, tokens);
    if p.pricing.Some? {
      var k := p.pricing.value;
      var tail0, tail1 := RawTail(s, k, b.messages, p.firstKept), RawTail(s, k, c.messages, p.firstKept);
      TailNonNegative(s, k, b.messages, p.firstKept);
      assert Staged(p, c) == Staged(p, b);
      Subadditive(Baseline(s, p, c), tail0, tail1);
    }
  }

  lemma {:induction false} ChainCharged(s: Services, p: Pending, cs: seq<Context>)
    requires HonestWeights(s) && Growing(cs) && cs != [] && Chain(s, p, cs).Some?
    ensures Charged(s, p, Chain(s, p, cs).value, cs[|cs| - 1])
  {
    var n := |cs| - 1;
    if n == 0 {
      assert cs[..0] == [];
      FirstCharged(s, p, cs[0]);
    } else {
      assert Growing(cs[..n]) by {
        forall i | 0 <= i < n - 1 ensures cs[..n][i].messages <= cs[..n][i + 1].messages {
          assert cs[i].messages <= cs[i + 1].messages;
        }
      }
      ChainCharged(s, p, cs[..n]);
      assert cs[n - 1].messages <= cs[n].messages;
      ChargedExtends(s, p, Chain(s, p, cs[..n]).value, cs[n - 1], cs[n]);
    }
  }

  lemma YieldMonotone(a: real, b: real, target: real)
    requires a <= b && !ExceedsYieldTarget(b, target)
    ensures !ExceedsYieldTarget(a, target)
  {
  }

  lemma RatioMonotone(a: real, b: real, tokens: real)
    requires a <= b && tokens > 0.0
    ensures (tokens - b) / tokens <= (tokens - a) / tokens
  {
  }

  /** The checks the last step of a chain passed are those the direct check makes. */
  lemma LastChecks(s: Services, p: Pending, prev: Pending, c: Context)
    requires SameIdentity(p, prev) && RevalidatePending(s, prev, c).Some?
    requires Charged(s, p, RevalidatePending(s, prev, c).value, c)
    ensures var q := RevalidatePending(s, prev, c).value;
            && q.tokensBefore.value > 0.0 && c.window.Some? && c.reserve.Some?
            && CheckedTokens(s, p, c) == q.tokensBefore && Fits(p, c, q.tokensBefore.value, q.after.value)
  {
    hide Growth, RawTail;
  }

  lemma FitsSmaller(p: Pending, c: Context, tokens: real, after: real, larger: real)
    requires tokens > 0.0 && c.window.Some? && c.reserve.Some? && after <= larger && Fits(p, c, tokens, larger)
    ensures Fits(p, c, tokens, after)
  {
    RatioMonotone(after, larger, tokens);
    if p.target.Finite? {
      YieldMonotone(after, larger, p.target.tokens);
    }
  }

  /** A chain of revalidations through growing contexts charges at least what revalidating
      directly at the end charges, so whatever the chain accepts the direct check accepts. */
  lemma ChainImpliesDirect(s: Services, p: Pending, cs: seq<Context>)
    requires HonestWeights(s) && Growing(cs) && cs != [] && Chain(s, p, cs).Some?
    ensures var direct := RevalidatePending(s, p, cs[|cs| - 1]);
            direct.Some? && direct.value.after.value <= Chain(s, p, cs).value.after.value
  {
    hide RawTail, CheckedTokens, Fits;
    var c := cs[|cs| - 1];
    ChainCharged(s, p, cs);
    PrefixIdentity(s, p, cs);
    var q := Chain(s, p, cs).value;
    LastChecks(s, p, Chain(s, p, cs[..|cs| - 1]).value, c);
    var tokens := q.tokensBefore.value;
    FitsSmaller(p, c, tokens, p.after.value + Growth(s, p, c, tokens), q.after.value);
  }

  lemma {:induction false} PrefixIdentity(s: Services, p: Pending, cs: seq<Context>)
    requires cs != [] && Chain(s, p, cs).Some?
    ensures Chain(s, p, cs[..|cs| - 1]).Some? && SameIdentity(p, Chain(s, p, cs[..|cs| - 1]).value)
  {
    if |cs| > 1 {
      PrefixIdentity(s, p, cs[..|cs| - 1]);
    }
  }

  /** The converse fails: growth that later went away stays charged, so a chain can refuse
      what the direct check accepts. */
  lemma ChainIsStricter(s: Services)
    ensures exists p: Pending, a: Context, b: Context ::
              Growing([a, b]) && RevalidatePending(s, p, b).Some? && Chain(s, p, [a, b]).None?
  {
    var usageA := (k: Option<nat>) => Some(Usage(Measured, Some(70000.0)));
    var usageB := (k: Option<nat>) => Some(Usage(Measured, Some(60000.0)));
    var a := Context(true, "r", "s", Some(200000.0), 0.0, {"x"}, [], usageA, Some(0.0));
    var b := Context(true, "r", "s", Some(200000.0), 0.0, {"x"}, [], usageB, Some(0.0));
    var p := Pending("s", "run", Some("r"), "x", "x", None, None, Some(20000.0), Some(5000.0), NoTarget, None, 0.0, 0.0, None, None);
    var q := RevalidatePending(s, p, a);
    assert q.Some? && q.value.after == Some(55000.0) && q.value.tokensBefore == Some(70000.0);
    assert RevalidatePending(s, q.value, b).None?;
    var d := RevalidatePending(s, p, b);
    assert d.Some?;
    assert [a, b][..1] == [a] && [a][..0] == [];
    assert Chain(s, p, [a]) == q;
    assert Chain(s, p, [a, b]).None?;
  }
}
