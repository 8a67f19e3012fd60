/** What a trim saves and what it costs: token estimates and the warm-cache break-even. */
module Economics {
  import opened Wrappers
  import opened Branch

  /** Catalog prices; None stands for a missing or non-finite number. */
  datatype Rates = Rates(input: Option<real>, read: Option<real>, write: Option<real>)

  /** Requests after which a warm-cache trim pays back its prefix rewrite; None when the
      price is unknown. */
  function BreakEven(cost: Rates, saved: int, tail: int): Option<real> {
    if cost.input.None? || cost.input.value <= 0.0 || saved <= 0 then None
    else if cost.read.None? || cost.read.value < 0.0 then None
    else
      var r := cost.read.value / cost.input.value;
      var w := if cost.write.Some? && cost.write.value > 0.0 then cost.write.value / cost.input.value else 1.0;
      if r <= 0.0 then Some(0.0) else Some(Requests(w, r, saved as real, tail as real))
  }

  function Requests(w: real, r: real, saved: real, tail: real): real
    requires 0.0 < r && 0.0 < saved
  {
    Positive(r, saved);
    ((w - r) * tail) / (r * saved)
  }

  lemma Positive(a: real, b: real)
    requires 0.0 < a && 0.0 < b
    ensures 0.0 < a * b
  {
  }

  lemma DivideLess(a: real, b: real, c: real, d: real)
    requires 0.0 < b && 0.0 < d && a * d <= c * b
    ensures a / b <= c / d
  {
    var x, y, m := a / b, c / d, b * d;
    assert a == x * b && c == y * d;
    assert x * m == a * d && y * m == c * b && m > 0.0;
    assert (y - x) * m >= 0.0;
  }

  lemma NegativeRatio(n: real, d: real)
    requires n <= 0.0 < d
    ensures n / d <= 0.0
  {
    assert (n / d) * d == n;
  }

  lemma RatioShrinks(d: real, r: real, s: real, t: real, s': real, t': real)
    requires 0.0 <= d && 0.0 < r && 0.0 < s <= s' && 0.0 <= t' <= t
    ensures 0.0 < r * s && 0.0 < r * s' && (d * t') / (r * s') <= (d * t) / (r * s)
  {
    assert d * t' <= d * t && r * s <= r * s';
    assert 0.0 <= d * t' && 0.0 < r * s;
    assert (d * t') * (r * s) <= (d * t) * (r * s) <= (d * t) * (r * s');
    DivideLess(d * t', r * s', d * t, r * s);
  }

  lemma RequestsMonotone(w: real, r: real, s: real, t: real, s': real, t': real, limit: real)
    requires 0.0 < r && 0.0 < s <= s' && 0.0 <= t' <= t && 0.0 <= limit
    requires Requests(w, r, s, t) <= limit
    ensures Requests(w, r, s', t') <= limit
  {
    if w >= r {
      RatioShrinks(w - r, r, s, t, s', t');
    } else {
      Positive(r, s');
      NegativeProduct(w - r, t');
      NegativeRatio((w - r) * t', r * s');
    }
  }

  lemma NegativeProduct(a: real, b: real)
    requires a <= 0.0 <= b
    ensures a * b <= 0.0
  {
  }

  /** Saving more and rewriting less never leaves an affordable trim unaffordable. */
  lemma BreakEvenMonotone(cost: Rates, saved: int, tail: int, saved': int, tail': int, limit: real)
    requires BreakEven(cost, saved, tail).Some? && BreakEven(cost, saved, tail).value <= limit
    requires saved <= saved' && 0 <= tail' <= tail && 0.0 <= limit
    ensures BreakEven(cost, saved', tail').Some? && BreakEven(cost, saved', tail').value <= limit
  {
    var r := cost.read.value / cost.input.value;
    var w := if cost.write.Some? && cost.write.value > 0.0 then cost.write.value / cost.input.value else 1.0;
    if r > 0.0 {
      RequestsMonotone(w, r, saved as real, tail as real, saved' as real, tail' as real, limit);
    }
  }

  // ---------------------------------------------------------------- raw token sums

  function Raw(h: Host, p: seq<Projected>, i: nat): nat
    requires i < |p|
  {
    h.estimate(p[i].message)
  }

  /** The estimate of message i with the marker in place of its content. */
  function Kept(h: Host, p: seq<Projected>, i: nat, marker: string): nat
    requires i < |p|
  {
    h.estimate(WithText(p[i].message, marker))
  }

  function PrefixRaw(h: Host, p: seq<Projected>, n: nat): nat
    requires n <= |p|
  {
    if n == 0 then 0 else PrefixRaw(h, p, n - 1) + Raw(h, p, n - 1)
  }

  function RawFrom(h: Host, p: seq<Projected>, n: nat): nat
    decreases |p| - n
  {
    if n >= |p| then 0 else Raw(h, p, n) + RawFrom(h, p, n + 1)
  }

  lemma {:induction false} RawSplit(h: Host, p: seq<Projected>, n: nat)
    requires n <= |p|
    ensures PrefixRaw(h, p, |p|) == PrefixRaw(h, p, n) + RawFrom(h, p, n)
    decreases |p| - n
  {
    if n < |p| {
      RawSplit(h, p, n + 1);
    }
  }

  lemma {:induction false} RawFromMonotone(h: Host, p: seq<Projected>, m: nat, n: nat)
    requires m <= n
    ensures RawFrom(h, p, n) <= RawFrom(h, p, m)
    decreases n - m
  {
    if m < n {
      RawFromMonotone(h, p, m + 1, n);
    }
  }

  // ---------------------------------------------------------------- what an edit set saves

  datatype Tokens = Tokens(saved: int, tail: nat)

  /** The first message with a marker, |p| when there is none. */
  function FirstMarked(p: seq<Projected>, markers: map<Id, string>, k: nat): (n: nat)
    requires k <= |p|
    ensures k <= n <= |p|
    ensures n < |p| ==> p[n].source.id in markers
    ensures forall i | k <= i < n :: p[i].source.id !in markers
    decreases |p| - k
  {
    if k == |p| || p[k].source.id in markers then k else FirstMarked(p, markers, k + 1)
  }

  /** Net saving and rebuilt tail of the messages from k on. */
  function TokensFrom(h: Host, p: seq<Projected>, markers: map<Id, string>, k: nat): Tokens
    decreases |p| - k
  {
    if k >= |p| then Tokens(0, 0)
    else
      var rest := TokensFrom(h, p, markers, k + 1);
      var id := p[k].source.id;
      if id in markers then
        var kept := Kept(h, p, k, markers[id]);
        Tokens(Raw(h, p, k) - kept + rest.saved, kept + rest.tail)
      else Tokens(rest.saved, Raw(h, p, k) + rest.tail)
  }

  /** Estimated tokens the markers save, net, and tokens of the tail the next request must
      rewrite: from the first edited message on, or everything when the provider loses the
      whole prompt. */
  function TrimTokens(h: Host, p: seq<Projected>, markers: map<Id, string>, wholePrompt: bool): Tokens {
    var first := FirstMarked(p, markers, 0);
    if first == |p| then Tokens(0, 0) else TokensFrom(h, p, markers, if wholePrompt then 0 else first)
  }

  method ComputeTrimTokens(h: Host, p: seq<Projected>, markers: map<Id, string>, wholePrompt: bool)
    returns (r: Tokens)
    ensures r == TrimTokens(h, p, markers, wholePrompt)
  {
    var first := 0;
    while first < |p| && p[first].source.id !in markers
      invariant 0 <= first <= |p|
      invariant FirstMarked(p, markers, first) == FirstMarked(p, markers, 0)
    {
      first := first + 1;
    }
    if first == |p| { return Tokens(0, 0); }
    var start := if wholePrompt then 0 else first;
    var saved: int, tail: nat := 0, 0;
    for k := start to |p|
      invariant saved + TokensFrom(h, p, markers, k).saved == TokensFrom(h, p, markers, start).saved
      invariant tail + TokensFrom(h, p, markers, k).tail == TokensFrom(h, p, markers, start).tail
    {
      var id := p[k].source.id;
      if id !in markers {
        tail := tail + h.estimate(p[k].message);
      } else {
        var kept := h.estimate(WithText(p[k].message, markers[id]));
        saved := saved + h.estimate(p[k].message) - kept;
        tail := tail + kept;
      }
    }
    r := Tokens(saved, tail);
  }

  /** Nothing is lost: what is not saved is rewritten. */
  lemma {:induction false} SavedPlusTail(h: Host, p: seq<Projected>, markers: map<Id, string>, k: nat)
    ensures var t := TokensFrom(h, p, markers, k); t.saved + t.tail == RawFrom(h, p, k)
    decreases |p| - k
  {
    if k < |p| {
      SavedPlusTail(h, p, markers, k + 1);
    }
  }

  /** Messages without a marker save nothing. */
  lemma {:induction false} SavedSkips(h: Host, p: seq<Projected>, markers: map<Id, string>, k: nat, n: nat)
    requires k <= n <= |p| && forall i | k <= i < n :: p[i].source.id !in markers
    ensures TokensFrom(h, p, markers, k).saved == TokensFrom(h, p, markers, n).saved
    decreases n - k
  {
    if k < n {
      SavedSkips(h, p, markers, k + 1, n);
    }
  }
}
