/** The live budget guard over concurrent requests. */
module Budget {
  // Requests reserve their share in one synchronous step before they are dispatched, and every
  // response's reported usage is added to the ledger once.

  import opened Wrappers

  // ---------------------------------------------------------------- the output cap on the wire

  const MAX_SAFE_INTEGER := 0x1F_FFFF_FFFF_FFFF

  /** A cap field's value: not an integer at all, or one. */
  datatype WireValue = OtherValue | Whole(value: int)

  /** A request body: unreadable, not an object, or an object with its cap fields in the order they
      are read (max_output_tokens, max_completion_tokens, max_tokens, the nested one). */
  datatype Body = NotJson | NotObject | Object(caps: seq<Option<WireValue>>)

  datatype WireCap = Cap(cap: nat) | Unreadable | NoFields | Invalid(kind: nat)

  predicate Positive(v: WireValue) {
    v.Whole? && 0 < v.value <= MAX_SAFE_INTEGER
  }

  function Amount(v: WireValue): int {
    if v.Whole? then v.value else 0
  }

  predicate Present(caps: seq<Option<WireValue>>) {
    exists i | 0 <= i < |caps| :: caps[i].Some?
  }

  function FirstInvalid(caps: seq<Option<WireValue>>): Option<nat> {
    if caps == [] then None
    else if caps[0].Some? && !Positive(caps[0].value) then Some(0)
    else match FirstInvalid(caps[1..]) case Some(i) => Some(i + 1) case None => None
  }

  function MaxCap(caps: seq<Option<WireValue>>): nat
  {
    if caps == [] then 0
    else
      var rest := MaxCap(caps[1..]);
      if caps[0].Some? && Amount(caps[0].value) > rest then Amount(caps[0].value) else rest
  }

  function ParseWireCap(b: Body): WireCap {
    match b
    case NotJson => Unreadable
    case NotObject => Unreadable
    case Object(caps) =>
      if !Present(caps) then NoFields
      else
        var bad := FirstInvalid(caps);
        if bad.Some? then Invalid(bad.value) else Cap(MaxCap(caps))
  }

  lemma {:induction false} FirstInvalidIs(caps: seq<Option<WireValue>>)
    ensures var r := FirstInvalid(caps);
            && (r.None? <==> forall i | 0 <= i < |caps| && caps[i].Some? :: Positive(caps[i].value))
            && (r.Some? ==> r.value < |caps| && caps[r.value].Some? && !Positive(caps[r.value].value)
                            && forall i | 0 <= i < r.value && caps[i].Some? :: Positive(caps[i].value))
  {
    if caps != [] {
      FirstInvalidIs(caps[1..]);
      assert forall i | 1 <= i < |caps| :: caps[i] == caps[1..][i - 1];
      if FirstInvalid(caps).None? {
        forall i | 0 <= i < |caps| && caps[i].Some? ensures Positive(caps[i].value) {
          if i > 0 { assert caps[1..][i - 1] == caps[i]; }
        }
      }
    }
  }

  lemma {:induction false} MaxCapIs(caps: seq<Option<WireValue>>)
    requires forall i | 0 <= i < |caps| && caps[i].Some? :: Positive(caps[i].value)
    ensures forall i | 0 <= i < |caps| && caps[i].Some? :: Amount(caps[i].value) <= MaxCap(caps)
    ensures Present(caps) ==> exists i :: 0 <= i < |caps| && caps[i].Some? && Amount(caps[i].value) == MaxCap(caps)
    ensures !Present(caps) ==> MaxCap(caps) == 0
  {
    if caps != [] {
      var rest := caps[1..];
      MaxCapIs(rest);
      assert forall i | 1 <= i < |caps| :: caps[i] == rest[i - 1];
      if caps[0].Some? && Amount(caps[0].value) > MaxCap(rest) {
        assert Amount(caps[0].value) == MaxCap(caps);
      } else if Present(rest) {
        var i :| 0 <= i < |rest| && rest[i].Some? && Amount(rest[i].value) == MaxCap(rest);
        assert caps[i + 1] == rest[i];
      }
    }
  }

  /** A body is capped exactly when it names at least one cap and every one it names is a positive
      integer; the cap is then the largest of them, so none of them allows more. */
  lemma WireCapIsLargest(b: Body)
    ensures var r := ParseWireCap(b);
            && (r.Cap? <==> b.Object? && Present(b.caps) && forall i | 0 <= i < |b.caps| && b.caps[i].Some? :: Positive(b.caps[i].value))
            && (r.Cap? ==> && r.cap > 0
                           && (forall i | 0 <= i < |b.caps| && b.caps[i].Some? :: Amount(b.caps[i].value) <= r.cap)
                           && exists i :: 0 <= i < |b.caps| && b.caps[i] == Some(Whole(r.cap)))
  {
    if b.Object? {
      FirstInvalidIs(b.caps);
      if FirstInvalid(b.caps).None? && Present(b.caps) {
        MaxCapIs(b.caps);
        var i :| 0 <= i < |b.caps| && b.caps[i].Some? && Amount(b.caps[i].value) == MaxCap(b.caps);
        assert b.caps[i] == Some(Whole(MaxCap(b.caps)));
      }
    }
  }

  // ---------------------------------------------------------------- usage reported by one response

  datatype Key = InputKey | OutputKey | CacheReadKey | CacheWriteKey

  datatype Usage = Usage(input: Option<real>, output: Option<real>, cacheRead: Option<real>, cacheWrite: Option<real>)

  const NO_USAGE := Usage(None, None, None, None)

  function Of(u: Usage, k: Key): Option<real> {
    match k
    case InputKey => u.input
    case OutputKey => u.output
    case CacheReadKey => u.cacheRead
    case CacheWriteKey => u.cacheWrite
  }

  /** One parsed frame: per field the places it is looked for, in order, with the finite number found. */
  datatype Container = Container(input: seq<Option<real>>, output: seq<Option<real>>, cacheRead: seq<Option<real>>, cacheWrite: seq<Option<real>>)

  function FirstNumber(values: seq<Option<real>>): Option<real> {
    if values == [] then None else if values[0].Some? then values[0] else FirstNumber(values[1..])
  }

  function UsageNumbers(c: Container): Usage {
    Usage(FirstNumber(c.input), FirstNumber(c.output), FirstNumber(c.cacheRead), FirstNumber(c.cacheWrite))
  }

  function MaxOf(a: Option<real>, v: Option<real>): Option<real> {
    if v.None? then a else if a.None? || a.value <= v.value then v else a
  }

  function Merge(a: Usage, b: Usage): Usage {
    Usage(MaxOf(a.input, b.input), MaxOf(a.output, b.output), MaxOf(a.cacheRead, b.cacheRead), MaxOf(a.cacheWrite, b.cacheWrite))
  }

  /** A response body: one JSON value, or event lines of which some parse. None is a value that is
      no object. */
  datatype Text = Single(frame: Option<Container>) | Lines(frames: seq<Option<Container>>)

  function Frames(t: Text): seq<Option<Container>> {
    if t.Single? then [t.frame] else t.frames
  }

  /** Over the frames of one response: the largest value of a field, none when no frame has it. */
  predicate IsLargest(fs: seq<Option<Container>>, k: Key, r: Option<real>) {
    && (r.None? <==> forall i | 0 <= i < |fs| && fs[i].Some? :: Of(UsageNumbers(fs[i].value), k).None?)
    && (forall i | 0 <= i < |fs| && fs[i].Some? && Of(UsageNumbers(fs[i].value), k).Some? ::
          r.Some? && Of(UsageNumbers(fs[i].value), k).value <= r.value)
    && (r.Some? ==> exists i :: 0 <= i < |fs| && fs[i].Some? && Of(UsageNumbers(fs[i].value), k) == r)
  }

  /** What one frame reports of a field. */
  function Reported(c: Option<Container>, k: Key): Option<real> {
    if c.Some? then Of(UsageNumbers(c.value), k) else None
  }

  lemma LargestMore(fs: seq<Option<Container>>, c: Option<Container>, k: Key, r: Option<real>)
    requires IsLargest(fs, k, r)
    ensures IsLargest(fs + [c], k, MaxOf(r, Reported(c, k)))
  {
    hide UsageNumbers, Of;
    var gs := fs + [c];
    var m := MaxOf(r, Reported(c, k));
    assert forall i | 0 <= i < |fs| :: gs[i] == fs[i];
    assert gs[|fs|] == c;
    if m.Some? {
      if Reported(c, k).Some? && m == Reported(c, k) {
        assert gs[|fs|].Some? && Of(UsageNumbers(gs[|fs|].value), k) == m;
      } else {
        var i :| 0 <= i < |fs| && fs[i].Some? && Of(UsageNumbers(fs[i].value), k) == r;
        assert gs[i].Some? && Of(UsageNumbers(gs[i].value), k) == m;
      }
    }
  }

  lemma MergedField(u: Usage, c: Option<Container>, k: Key)
    ensures Of(if c.Some? then Merge(u, UsageNumbers(c.value)) else u, k) == MaxOf(Of(u, k), Reported(c, k))
  {
  }

  /** Stream usage is cumulative, so each field is the largest value any frame reports. */
  method ResponseUsage(t: Text) returns (u: Usage)
    ensures forall k :: IsLargest(Frames(t), k, Of(u, k))
  {
    u := NO_USAGE;
    var fs := Frames(t);
    for i := 0 to |fs|
      invariant forall k :: IsLargest(fs[..i], k, Of(u, k))
    {
      hide IsLargest, Of, Merge, UsageNumbers, MaxOf, Reported;
      assert fs[..i + 1] == fs[..i] + [fs[i]];
      ghost var before := u;
      if fs[i].Some? { u := Merge(u, UsageNumbers(fs[i].value)); }
      forall k ensures IsLargest(fs[..i + 1], k, Of(u, k)) {
        LargestMore(fs[..i], fs[i], k, Of(before, k));
        MergedField(before, fs[i], k);
      }
    }
    assert fs[..|fs|] == fs;
  }

  /** The answer depends on which frames came, not on their order or repetition. */
  lemma UsageIgnoresOrder(fs: seq<Option<Container>>, gs: seq<Option<Container>>, k: Key, r: Option<real>, q: Option<real>)
    requires forall c :: c in fs <==> c in gs
    requires IsLargest(fs, k, r) && IsLargest(gs, k, q)
    ensures r == q
  {
    if r.Some? {
      var i :| 0 <= i < |fs| && fs[i].Some? && Of(UsageNumbers(fs[i].value), k) == r;
      assert fs[i] in gs;
    }
    if q.Some? {
      var j :| 0 <= j < |gs| && gs[j].Some? && Of(UsageNumbers(gs[j].value), k) == q;
      assert gs[j] in fs;
    }
  }

  // ---------------------------------------------------------------- the ledger

  datatype Spec = Spec(requests: int, input: int, output: int, enforced: bool)

  datatype Phase = Undispatched | InFlight | Failed | Redirected | Reading | Accounted | Unaccounted

  datatype Record = Record(sequence: nat, input: nat, reserved: nat, status: Option<int>, usage: Usage, phase: Phase)

  datatype Ledger = Ledger(requests: nat, input: nat, reserved: nat, reported: Usage, complete: nat)

  datatype State = State(ledger: Ledger, records: seq<Record>)

  const EMPTY := State(Ledger(0, 0, 0, NO_USAGE, 0), [])

  /** A quarter of the characters, rounded up. */
  function Estimate(chars: nat): nat {
    (chars + 3) / 4
  }

  datatype Reservation = Reserved(amount: nat) | Refused

  /** What this request would reserve, or its refusal. */
  function Reserve(s: State, b: Spec, chars: nat, body: Body): Reservation {
    if s.ledger.requests + 1 > b.requests then Refused
    else if s.ledger.input + Estimate(chars) > b.input then Refused
    else if !b.enforced then Reserved(0)
    else
      var cap := ParseWireCap(body);
      if !cap.Cap? || b.output - s.ledger.reserved <= 0 || cap.cap > b.output - s.ledger.reserved then Refused else Reserved(cap.cap)
  }

  /** The synchronous block of a fetch: book and dispatch. Dispatched is false when writing the
      ledger fails first. */
  function Book(s: State, b: Spec, allowed: bool, chars: nat, body: Body, dispatched: bool): State {
    var r := Reserve(s, b, chars, body);
    if !allowed || r.Refused? then s else Booked(s, Estimate(chars), r.amount, if dispatched then InFlight else Undispatched)
  }

  /** One more request in the ledger, with its record. */
  function Booked(s: State, input: nat, amount: nat, phase: Phase): State {
    var l := s.ledger.(requests := s.ledger.requests + 1, input := s.ledger.input + input, reserved := s.ledger.reserved + amount);
    State(l, s.records + [Record(l.requests, input, amount, None, NO_USAGE, phase)])
  }

  function SetRecord(s: State, i: nat, r: Record): State
    requires i < |s.records|
  {
    s.(records := s.records[i := r])
  }

  /** The host's answer arrived: a redirect is refused, any other body is read. */
  function Respond(s: State, i: nat, status: int, opaqueRedirect: bool): State
    requires i < |s.records|
  {
    var redirect := opaqueRedirect || 300 <= status < 400;
    SetRecord(s, i, s.records[i].(status := Some(status), phase := if redirect then Redirected else Reading))
  }

  function Add(a: Option<real>, v: Option<real>): Option<real> {
    if v.None? then a else if a.None? then v else Some(a.value + v.value)
  }

  function AddAll(a: Usage, u: Usage): Usage {
    Usage(Add(a.input, u.input), Add(a.output, u.output), Add(a.cacheRead, u.cacheRead), Add(a.cacheWrite, u.cacheWrite))
  }

  predicate Complete(u: Usage) {
    u.input.Some? && u.output.Some?
  }

  function AddUsage(s: State, i: nat, u: Usage): State
    requires i < |s.records|
  {
    var l := s.ledger.(reported := AddAll(s.ledger.reported, u), complete := s.ledger.complete + if Complete(u) then 1 else 0);
    State(l, s.records[i := s.records[i].(usage := u, phase := Accounted)])
  }

  // ---------------------------------------------------------------- totals over the records

  function InputSum(rs: seq<Record>): nat {
    if rs == [] then 0 else InputSum(rs[..|rs| - 1]) + rs[|rs| - 1].input
  }

  function ReservedSum(rs: seq<Record>): nat {
    if rs == [] then 0 else ReservedSum(rs[..|rs| - 1]) + rs[|rs| - 1].reserved
  }

  function CompleteCount(rs: seq<Record>): nat {
    if rs == [] then 0 else CompleteCount(rs[..|rs| - 1]) + if Complete(rs[|rs| - 1].usage) then 1 else 0
  }

  /** The sum of what the records report of a field; none when none reports it. */
  function Total(rs: seq<Record>, k: Key): Option<real> {
    if rs == [] then None else Add(Total(rs[..|rs| - 1], k), Of(rs[|rs| - 1].usage, k))
  }

  lemma {:induction false} TotalNone(rs: seq<Record>, k: Key)
    ensures Total(rs, k).None? <==> forall i | 0 <= i < |rs| :: Of(rs[i].usage, k).None?
  {
    if rs != [] {
      TotalNone(rs[..|rs| - 1], k);
    }
  }

  /** A change of a record that leaves its shares as they are. */
  predicate SameShare(a: Record, b: Record) {
    a.sequence == b.sequence && a.input == b.input && a.reserved == b.reserved
  }

  lemma {:induction false} SumsSame(rs: seq<Record>, i: nat, r: Record)
    requires i < |rs| && SameShare(rs[i], r)
    ensures InputSum(rs[i := r]) == InputSum(rs) && ReservedSum(rs[i := r]) == ReservedSum(rs)
  {
    var n := |rs| - 1;
    if i == n {
      assert rs[i := r][..n] == rs[..n];
    } else {
      assert rs[i := r][..n] == rs[..n][i := r];
      SumsSame(rs[..n], i, r);
    }
  }

  lemma {:induction false} TotalsSame(rs: seq<Record>, i: nat, r: Record, k: Key)
    requires i < |rs| && r.usage == rs[i].usage
    ensures Total(rs[i := r], k) == Total(rs, k) && CompleteCount(rs[i := r]) == CompleteCount(rs)
  {
    var n := |rs| - 1;
    if i == n {
      assert rs[i := r][..n] == rs[..n];
    } else {
      assert rs[i := r][..n] == rs[..n][i := r];
      TotalsSame(rs[..n], i, r, k);
    }
  }

  /** Filling in one record's usage adds it to the totals, wherever the record stands. */
  lemma {:induction false} TotalsAdd(rs: seq<Record>, i: nat, r: Record, k: Key)
    requires i < |rs| && rs[i].usage == NO_USAGE
    ensures Total(rs[i := r], k) == Add(Total(rs, k), Of(r.usage, k))
    ensures CompleteCount(rs[i := r]) == CompleteCount(rs) + if Complete(r.usage) then 1 else 0
  {
    var n := |rs| - 1;
    if i == n {
      assert rs[i := r][..n] == rs[..n];
    } else {
      assert rs[i := r][..n] == rs[..n][i := r];
      TotalsAdd(rs[..n], i, r, k);
    }
  }

  lemma SumsAppend(rs: seq<Record>, r: Record)
    ensures InputSum(rs + [r]) == InputSum(rs) + r.input && ReservedSum(rs + [r]) == ReservedSum(rs) + r.reserved
    ensures CompleteCount(rs + [r]) == CompleteCount(rs) + if Complete(r.usage) then 1 else 0
    ensures forall k :: Total(rs + [r], k) == Add(Total(rs, k), Of(r.usage, k))
  {
    assert (rs + [r])[..|rs|] == rs;
  }

  // ---------------------------------------------------------------- the invariant

  ghost predicate Balanced(s: State) {
    && s.ledger.requests == |s.records|
    && s.ledger.input == InputSum(s.records) && s.ledger.reserved == ReservedSum(s.records)
    && s.ledger.complete == CompleteCount(s.records)
    && (forall k :: Of(s.ledger.reported, k) == Total(s.records, k))
  }

  predicate WithinBudget(s: State, b: Spec) {
    s.records == [] || (s.ledger.requests <= b.requests && s.ledger.input <= b.input && (b.enforced ==> s.ledger.reserved <= b.output))
  }

  predicate RecordOk(r: Record, i: nat, b: Spec) {
    && r.sequence == i + 1 && (!r.phase.Accounted? ==> r.usage == NO_USAGE)
    && (!b.enforced ==> r.reserved == 0)
  }

  ghost predicate Invariant(s: State, b: Spec) {
    && Balanced(s) && WithinBudget(s, b)
    && (forall i | 0 <= i < |s.records| :: RecordOk(s.records[i], i, b))
  }

  lemma BookedBalanced(s: State, input: nat, amount: nat, phase: Phase)
    requires Balanced(s)
    ensures Balanced(Booked(s, input, amount, phase))
  {
    var r := Record(s.ledger.requests + 1, input, amount, None, NO_USAGE, phase);
    SumsAppend(s.records, r);
    hide InputSum, ReservedSum, CompleteCount, Total;
    forall k ensures Total(s.records + [r], k) == Of(s.ledger.reported, k) {
      assert Total(s.records + [r], k) == Add(Total(s.records, k), Of(r.usage, k));
    }
  }

  /** A reservation that is granted fits what the ledger leaves. */
  lemma ReservedFits(s: State, b: Spec, chars: nat, body: Body)
    ensures var r := Reserve(s, b, chars, body);
            r.Reserved? ==>
              && s.ledger.requests + 1 <= b.requests && s.ledger.input + Estimate(chars) <= b.input
              && if b.enforced then s.ledger.reserved + r.amount <= b.output else r.amount == 0
  {
  }

  lemma BookedKeeps(s: State, b: Spec, input: nat, amount: nat, phase: Phase)
    requires Invariant(s, b) && !phase.Accounted?
    requires s.ledger.requests + 1 <= b.requests && s.ledger.input + input <= b.input
    requires if b.enforced then s.ledger.reserved + amount <= b.output else amount == 0
    ensures Invariant(Booked(s, input, amount, phase), b)
  {
    BookedBalanced(s, input, amount, phase);
    assert s.ledger.requests == |s.records|;
    hide Balanced;
  }

  lemma BookKeeps(s: State, b: Spec, allowed: bool, chars: nat, body: Body, dispatched: bool)
    requires Invariant(s, b)
    ensures Invariant(Book(s, b, allowed, chars, body, dispatched), b)
  {
    hide Invariant, Booked, Reserve, Estimate;
    ReservedFits(s, b, chars, body);
    var r := Reserve(s, b, chars, body);
    if r.Reserved? {
      BookedKeeps(s, b, Estimate(chars), r.amount, if dispatched then InFlight else Undispatched);
    }
  }

  lemma SetKeeps(s: State, b: Spec, i: nat, r: Record)
    requires Invariant(s, b) && i < |s.records| && SameShare(s.records[i], r) && r.usage == s.records[i].usage && RecordOk(r, i, b)
    ensures Invariant(SetRecord(s, i, r), b)
  {
    SumsSame(s.records, i, r);
    forall k ensures Total(s.records[i := r], k) == Total(s.records, k) && CompleteCount(s.records[i := r]) == CompleteCount(s.records) {
      TotalsSame(s.records, i, r, k);
    }
    TotalsSame(s.records, i, r, InputKey);
  }

  lemma AddKeeps(s: State, b: Spec, i: nat, u: Usage)
    requires Invariant(s, b) && i < |s.records| && s.records[i].usage == NO_USAGE
    ensures Invariant(AddUsage(s, i, u), b)
  {
    var r := s.records[i].(usage := u, phase := Accounted);
    SumsSame(s.records, i, r);
    forall k ensures Of(AddUsage(s, i, u).ledger.reported, k) == Total(s.records[i := r], k) {
      TotalsAdd(s.records, i, r, k);
    }
    TotalsAdd(s.records, i, r, InputKey);
  }

  // ---------------------------------------------------------------- every interleaving

  datatype Event =
    | FetchEvent(allowed: bool, chars: nat, body: Body, dispatched: bool)
    | FailEvent(i: nat)
    | RespondEvent(i: nat, status: int, opaqueRedirect: bool)
    | ReadEvent(i: nat, usage: Usage)
    | UnreadEvent(i: nat)

  predicate InPhase(s: State, i: nat, phase: Phase) {
    i < |s.records| && s.records[i].phase == phase
  }

  /** A completion only comes once, and from its own phase. */
  function Step(s: State, b: Spec, e: Event): State {
    match e
    case FetchEvent(allowed, chars, body, dispatched) => Book(s, b, allowed, chars, body, dispatched)
    case FailEvent(i) => if InPhase(s, i, InFlight) then SetRecord(s, i, s.records[i].(phase := Failed)) else s
    case RespondEvent(i, status, opaqueRedirect) => if InPhase(s, i, InFlight) then Respond(s, i, status, opaqueRedirect) else s
    case ReadEvent(i, usage) => if InPhase(s, i, Reading) then AddUsage(s, i, usage) else s
    case UnreadEvent(i) => if InPhase(s, i, Reading) then SetRecord(s, i, s.records[i].(phase := Unaccounted)) else s
  }

  function Run(b: Spec, es: seq<Event>): State {
    if es == [] then EMPTY else Step(Run(b, es[..|es| - 1]), b, es[|es| - 1])
  }

  lemma StepKeeps(s: State, b: Spec, e: Event)
    requires Invariant(s, b)
    ensures Invariant(Step(s, b, e), b)
  {
    match e
    case FetchEvent(allowed, chars, body, dispatched) => BookKeeps(s, b, allowed, chars, body, dispatched);
    case FailEvent(i) => if InPhase(s, i, InFlight) { SetKeeps(s, b, i, s.records[i].(phase := Failed)); }
    case RespondEvent(i, status, opaqueRedirect) =>
      if InPhase(s, i, InFlight) { SetKeeps(s, b, i, Respond(s, i, status, opaqueRedirect).records[i]); }
    case ReadEvent(i, usage) => if InPhase(s, i, Reading) { AddKeeps(s, b, i, usage); }
    case UnreadEvent(i) => if InPhase(s, i, Reading) { SetKeeps(s, b, i, s.records[i].(phase := Unaccounted)); }
  }

  lemma {:induction false} RunKeeps(b: Spec, es: seq<Event>)
    ensures Invariant(Run(b, es), b)
  {
    if es != [] {
      RunKeeps(b, es[..|es| - 1]);
      StepKeeps(Run(b, es[..|es| - 1]), b, es[|es| - 1]);
    }
  }

  /** Over every interleaving of concurrent requests: requests, estimated input and, in bounded
      mode, reserved output stay within the budget; the ledger's counts and totals are those of
      its records; and a reported total is absent exactly when every record's value is. */
  lemma BudgetHolds(b: Spec, es: seq<Event>, k: Key)
    ensures var s := Run(b, es);
            && (s.records == [] || (s.ledger.requests <= b.requests && s.ledger.input <= b.input
                                    && (b.enforced ==> s.ledger.reserved <= b.output)))
            && s.ledger.requests == |s.records| && s.ledger.input == InputSum(s.records)
            && s.ledger.reserved == ReservedSum(s.records) && s.ledger.complete == CompleteCount(s.records)
            && Of(s.ledger.reported, k) == Total(s.records, k)
            && (Of(s.ledger.reported, k).None? <==> forall i | 0 <= i < |s.records| :: Of(s.records[i].usage, k).None?)
  {
    RunKeeps(b, es);
    TotalNone(Run(b, es).records, k);
  }

  predicate Fits(s: State, b: Spec, chars: nat, body: Body) {
    && |s.records| < b.requests && InputSum(s.records) + Estimate(chars) <= b.input
    && (b.enforced ==> ParseWireCap(body).Cap? && ReservedSum(s.records) + ParseWireCap(body).cap <= b.output)
  }

  /** A request to an allowed origin is booked exactly when it fits what the records leave of the
      budget; a refused one changes nothing. */
  lemma BookedExactlyWhenFits(b: Spec, es: seq<Event>, chars: nat, body: Body, dispatched: bool)
    ensures var (s, s') := (Run(b, es), Book(Run(b, es), b, true, chars, body, dispatched));
            && (Fits(s, b, chars, body) ==> |s'.records| == |s.records| + 1)
            && (!Fits(s, b, chars, body) ==> s' == s)
  {
    RunKeeps(b, es);
    WireCapIsLargest(body);
  }

  /** A response's usage is added once: a record that has been accounted for never changes again. */
  lemma AccountedOnce(s: State, b: Spec, e: Event, i: nat)
    requires InPhase(s, i, Accounted)
    ensures i < |Step(s, b, e).records| && Step(s, b, e).records[i] == s.records[i]
  {
  }

  // ---------------------------------------------------------------- the guard as the program keeps it

  class Guard {
    const budget: Spec
    var ledger: Ledger
    var records: seq<Record>

    function View(): State
      reads this
    {
      State(ledger, records)
    }

    constructor (budget: Spec)
      ensures View() == EMPTY && this.budget == budget
    {
      this.budget := budget;
      ledger, records := Ledger(0, 0, 0, NO_USAGE, 0), [];
    }

    /** The synchronous part of a fetch, up to the dispatch. */
    method Fetch(allowed: bool, chars: nat, body: Body, dispatched: bool) returns (booked: Option<nat>)
      modifies this
      ensures View() == Book(old(View()), budget, allowed, chars, body, dispatched)
      ensures booked == if View() == old(View()) then None else Some(|records| - 1)
    {
      if !allowed { return None; }
      if ledger.requests + 1 > budget.requests { return None; }
      var estimate := Estimate(chars);
      if ledger.input + estimate > budget.input { return None; }
      var reservation := 0;
      if budget.enforced {
        var parsed := ParseWireCap(body);
        if !parsed.Cap? { return None; }
        var remaining := budget.output - ledger.reserved;
        if remaining <= 0 { return None; }
        if parsed.cap > remaining { return None; }
        reservation := parsed.cap;
      }
      ledger := ledger.(requests := ledger.requests + 1);
      ledger := ledger.(input := ledger.input + estimate);
      ledger := ledger.(reserved := ledger.reserved + reservation);
      records := records + [Record(ledger.requests, estimate, reservation, None, NO_USAGE, if dispatched then InFlight else Undispatched)];
      booked := Some(|records| - 1);
    }

    method OnDispatchFailed(i: nat)
      requires InPhase(View(), i, InFlight)
      modifies this
      ensures View() == Step(old(View()), budget, FailEvent(i))
    {
      records := records[i := records[i].(phase := Failed)];
    }

    method OnResponse(i: nat, status: int, opaqueRedirect: bool) returns (returned: bool)
      requires InPhase(View(), i, InFlight)
      modifies this
      ensures View() == Step(old(View()), budget, RespondEvent(i, status, opaqueRedirect))
      ensures returned <==> InPhase(View(), i, Reading)
    {
      var record := records[i].(status := Some(status));
      if opaqueRedirect || (status >= 300 && status < 400) {
        records := records[i := record.(phase := Redirected)];
        return false;
      }
      records := records[i := record.(phase := Reading)];
      returned := true;
    }

    /** The body was read: its usage is the largest of its frames and is added to the ledger. */
    method OnBodyRead(i: nat, text: Text) returns (u: Usage)
      requires InPhase(View(), i, Reading)
      modifies this
      ensures forall k :: IsLargest(Frames(text), k, Of(u, k))
      ensures View() == Step(old(View()), budget, ReadEvent(i, u))
    {
      u := ResponseUsage(text);
      records := records[i := records[i].(usage := u, phase := Accounted)];
      var sum := ledger.reported;
      if u.input.Some? { sum := sum.(input := Add(sum.input, u.input)); }
      if u.output.Some? { sum := sum.(output := Add(sum.output, u.output)); }
      if u.cacheRead.Some? { sum := sum.(cacheRead := Add(sum.cacheRead, u.cacheRead)); }
      if u.cacheWrite.Some? { sum := sum.(cacheWrite := Add(sum.cacheWrite, u.cacheWrite)); }
      ledger := ledger.(reported := sum);
      if u.input.Some? && u.output.Some? { ledger := ledger.(complete := ledger.complete + 1); }
    }

    method OnBodyFailed(i: nat)
      requires InPhase(View(), i, Reading)
      modifies this
      ensures View() == Step(old(View()), budget, UnreadEvent(i))
    {
      records := records[i := records[i].(phase := Unaccounted)];
    }
  }
}
