/** Which archived outputs a trim replaces by markers, and what its plan records. */
module TrimPlan {
  import opened Wrappers
  import opened Branch
  import opened ToolGroups
  import opened Inspect
  import opened Economics
  import opened Frontier
  import opened Markers
  import opened Thinking

  const MAX_TRIM_EDITS := 32
  const MIN_TRIM_CHARS := 2048
  const KEEP_RECENT_TURNS := 4
  const MIN_AUTO_TRIM_SAVING_CHARS := 16384
  const AUTO_TRIM_COOLDOWN_TURNS := 8

  /** The boundary option is absent (use the newest anchor), null (None) or an entry id. */
  datatype TrimOptions = TrimOptions(boundary: Option<Option<Id>>, reader: Reader,
                                     minSaving: Option<int>, economy: Option<Economy>)

  datatype Automatic = SignedThinking | InsufficientSavings | Cooldown | Ready

  datatype Plan = Plan(edits: seq<Draft>, references: seq<Id>, archives: seq<Archive>, saved: int,
                       automatic: Automatic, cooldown: nat, blocked: bool)

  // ---------------------------------------------------------------- what may be archived

  predicate InTrimGroup(t: Tool) {
    t.trimGroup
  }

  /** The call of an old result that belongs to a complete group of archivable tools. */
  function ArchivableCall(groups: map<Id, Option<Call>>, id: Id): Option<Call> {
    if id in groups && groups[id].Some? && (forall f | f in groups[id].value.flat :: f.archivable)
    then groups[id] else None
  }

  /** The newest entry that is an anchor. */
  function LastAnchor(b: seq<Entry>): Option<Id> {
    if b == [] then None
    else
      var e := b[|b| - 1];
      if Shows(e) && e.anchor then Some(e.id) else LastAnchor(b[..|b| - 1])
  }

  function Given(id: Option<Id>): Option<Id> {
    if id == Some("") then None else id
  }

  function AnchorBoundary(b: seq<Entry>, o: TrimOptions): Option<Id> {
    Given(match o.boundary case None => LastAnchor(b) case Some(id) => id)
  }

  /** At or before a boundary entry. */
  predicate AtOrBefore(b: seq<Entry>, id: Id, boundary: Option<Id>) {
    boundary.Some? && IndexOf(b, id) <= IndexOf(b, boundary.value)
  }

  /** The n-th last assistant turn among the first k messages, 0 when there are fewer. */
  function NthLastAssistant(p: seq<Projected>, n: nat, k: nat): nat
    requires k <= |p|
    decreases k
  {
    if k == 0 then 0
    else if p[k - 1].message.Assistant? then
      if n <= 1 then k - 1 else NthLastAssistant(p, n - 1, k - 1)
    else NthLastAssistant(p, n, k - 1)
  }

  function Cutoff(p: seq<Projected>): (k: nat)
    ensures k <= |p|
  {
    NthLastBound(p, KEEP_RECENT_TURNS, |p|);
    NthLastAssistant(p, KEEP_RECENT_TURNS, |p|)
  }

  lemma {:induction false} NthLastBound(p: seq<Projected>, n: nat, k: nat)
    requires k <= |p|
    ensures NthLastAssistant(p, n, k) <= k
  {
    if k > 0 {
      NthLastBound(p, if n <= 1 then n else n - 1, k - 1);
      NthLastBound(p, n, k - 1);
    }
  }

  // ---------------------------------------------------------------- supersession and notices

  /** A later assistant call writes one of the paths. */
  predicate WrittenLater(p: seq<Projected>, i: nat, paths: seq<string>) {
    exists j | i < j < |p| && p[j].message.Assistant? :: exists c | c in p[j].message.calls ::
      exists f | f in c.flat :: exists path | path in f.writePaths :: path in paths
  }

  /** A later assistant call reads one of the paths again in full. */
  predicate ReadLater(p: seq<Projected>, i: nat, paths: seq<string>) {
    exists j | i < j < |p| && p[j].message.Assistant? :: exists c | c in p[j].message.calls ::
      exists f | f in c.flat && f.fullRead :: exists path | path in f.readPaths :: path in paths
  }

  function ReadPaths(flat: seq<Tool>): seq<string> {
    if flat == [] then [] else flat[0].readPaths + ReadPaths(flat[1..])
  }

  /** 0 when edited later, 1 when read again in full later, 2 otherwise. */
  function Rank(p: seq<Projected>, i: nat, call: Option<Call>): nat {
    if call.None? then 2
    else
      var paths := ReadPaths(call.value.flat);
      if WrittenLater(p, i, paths) then 0 else if ReadLater(p, i, paths) then 1 else 2
  }

  /** A later direct reply to the mesh message succeeded. */
  predicate Answered(p: seq<Projected>, i: nat, meshId: string) {
    exists j | i < j < |p| && p[j].message.Assistant? ::
      exists c | c in p[j].message.calls && c.replyTo == Some(meshId) ::
        exists k | j < k < |p| :: p[k].message.ToolResult? && !p[k].message.isError && p[k].message.mesh
                                  && p[k].message.callId == c.id
  }

  predicate IsNotice(p: seq<Projected>, i: nat)
    requires i < |p|
  {
    var m := p[i].message;
    p[i].source.CustomEntry? && m.Custom? && m.content.plain
    && match m.notice
       case NoNotice => false
       case ProcessNotice => true
       case MeshDelivery(meshId) => Answered(p, i, meshId)
  }

  /** The last signed message, -1 when the reader is not bound by thinking or there is none. */
  function SignedAt(p: seq<Projected>, reader: Reader, k: nat): int
    requires k <= |p|
  {
    if reader.OtherReader? || k == 0 then -1
    else if Signed(p[k - 1].message) then k - 1 else SignedAt(p, reader, k - 1)
  }

  // ---------------------------------------------------------------- candidates

  function Marker(h: Host, p: Projected, rank: nat): string {
    AddLines(h, h.markerHead(p.message)(p.source.id), h.markerLines(p.message)(rank))
  }

  function Propose(h: Host, p: Projected, rank: nat): Candidate {
    var text := p.message.content.text;
    var marker := Marker(h, p, rank);
    Candidate(p.source.id, text, marker, |text| - |marker|)
  }

  /** The inputs of candidate selection that do not vary with the position. */
  datatype Scope = Scope(b: seq<Entry>, p: seq<Projected>, groups: map<Id, Option<Call>>,
                         after: Option<Id>, boundary: Option<Id>, signedAt: int)

  function ScopeOf(b: seq<Entry>, after: Option<Id>, o: TrimOptions): Scope {
    var p := Project(b);
    Scope(b, p, Groups(p, |p|, InTrimGroup), Given(after), AnchorBoundary(b, o), SignedAt(p, o.reader, |p|))
  }

  function CandidateAt(h: Host, s: Scope, i: nat): Option<(Candidate, nat)>
    requires i < |s.p|
  {
    var x := s.p[i];
    var id := x.source.id;
    var m := x.message;
    var call := ArchivableCall(s.groups, id);
    var rank := Rank(s.p, i, call);
    if AtOrBefore(s.b, id, s.after) || AtOrBefore(s.b, id, s.boundary) || NewestEdit(s.b, id).Some? then None
    else if IsNotice(s.p, i) then
      if |m.content.text| < MIN_TRIM_CHARS || i < s.signedAt then None else Some((Propose(h, x, rank), rank))
    else if call.None? || !m.ToolResult? || m.isError || !m.content.plain || |m.content.text| < MIN_TRIM_CHARS then None
    else Some((Propose(h, x, rank), rank))
  }

  /** The candidates of one rank among the first n messages, in branch order. */
  function OfRank(h: Host, s: Scope, n: nat, rank: nat): seq<Candidate>
    requires n <= |s.p|
  {
    if n == 0 then []
    else
      var c := CandidateAt(h, s, n - 1);
      OfRank(h, s, n - 1, rank) + if c.Some? && c.value.1 == rank then [c.value.0] else []
  }

  /** Superseded outputs first, each rank in branch order, capped: the stable sort by rank. */
  function Eligible(h: Host, s: Scope): (r: seq<Candidate>)
    ensures |r| <= MAX_TRIM_EDITS
  {
    var n := Cutoff(s.p);
    var all := OfRank(h, s, n, 0) + OfRank(h, s, n, 1) + OfRank(h, s, n, 2);
    if |all| <= MAX_TRIM_EDITS then all else all[..MAX_TRIM_EDITS]
  }

  function FloorOf(o: TrimOptions): int {
    if o.minSaving.Some? then o.minSaving.value else MIN_AUTO_TRIM_SAVING_CHARS
  }

  function EconomyOf(o: TrimOptions): Economy {
    if o.economy.Some? then o.economy.value else Economy(None, false, None)
  }

  function Chosen(h: Host, b: seq<Entry>, after: Option<Id>, o: TrimOptions): seq<Candidate> {
    var s := ScopeOf(b, after, o);
    SelectFrontier(h, s.p, Eligible(h, s), EconomyOf(o), FloorOf(o))
  }

  // ---------------------------------------------------------------- the plan

  function EditsOf(cs: seq<Candidate>): seq<Draft> {
    seq(|cs|, i requires 0 <= i < |cs| => EditDraft(cs[i].id, Some(cs[i].marker)))
  }

  function IdsOf(cs: seq<Candidate>): seq<Id> {
    seq(|cs|, i requires 0 <= i < |cs| => cs[i].id)
  }

  function ArchivesOf(h: Host, cs: seq<Candidate>): seq<Archive> {
    seq(|cs|, i requires 0 <= i < |cs| => Archive(cs[i].id, h.digest(cs[i].text), |cs[i].text|))
  }

  predicate ChangesContext(e: Entry) {
    e.Compaction? || (ControlOf(e).Some? && (ControlOf(e).value.TrimControl? || ControlOf(e).value.RewindControl?))
  }

  /** The last context change before position n, -1 when there is none. */
  function LastChange(b: seq<Entry>, n: nat): (i: int)
    requires n <= |b|
    ensures -1 <= i < n
    ensures i >= 0 ==> ChangesContext(b[i])
    ensures forall k | i < k < n :: !ChangesContext(b[k])
  {
    if n == 0 then -1 else if ChangesContext(b[n - 1]) then n - 1 else LastChange(b, n - 1)
  }

  /** Assistant messages at positions i to j-1. */
  function AssistantTurns(b: seq<Entry>, i: nat, j: nat): nat
    requires i <= j <= |b|
    decreases j - i
  {
    if i == j then 0
    else (if b[i].MessageEntry? && b[i].message.Assistant? then 1 else 0) + AssistantTurns(b, i + 1, j)
  }

  function CooldownTurns(b: seq<Entry>): nat {
    var last := LastChange(b, |b|);
    if last < 0 then 0
    else
      var turns := AssistantTurns(b, last + 1, |b|);
      if turns >= AUTO_TRIM_COOLDOWN_TURNS then 0 else AUTO_TRIM_COOLDOWN_TURNS - turns
  }

  function PlanOf(h: Host, b: seq<Entry>, o: TrimOptions, cs: seq<Candidate>): Plan {
    if ThinkingBlocks(Project(b), EditsOf(cs), o.reader) then
      Plan([], [], [], 0, SignedThinking, 0, true)
    else
      var saved := SavedChars(cs);
      var cooldown := CooldownTurns(b);
      Plan(EditsOf(cs), IdsOf(cs), ArchivesOf(h, cs), saved,
           if saved < FloorOf(o) then InsufficientSavings else if cooldown > 0 then Cooldown else Ready,
           cooldown, false)
  }

  /** What the program plans to trim. */
  function PlanTrim(h: Host, b: seq<Entry>, after: Option<Id>, o: TrimOptions): Result<Plan> {
    var boundary := AnchorBoundary(b, o);
    if Given(after).Some? && !HasId(b, after.value) then Err("Trim boundary is not on the active branch.")
    else if boundary.Some? && !HasId(b, boundary.value) then Err("Anchor boundary is not on the active branch.")
    else Ok(PlanOf(h, b, o, Chosen(h, b, after, o)))
  }

  /** The drafts a plan commits: its edits, then the control record with the cause. */
  function TrimEntries(plan: Plan, cause: Cause): seq<Draft> {
    if plan.edits == [] then []
    else plan.edits + [ControlDraft(TrimControl(plan.references, plan.archives, cause))]
  }

  /** The edits, references, evidence and net saving of the chosen candidates. */
  method Assemble(h: Host, chosen: seq<Candidate>)
    returns (edits: seq<Draft>, references: seq<Id>, archives: seq<Archive>, saved: int)
    ensures edits == EditsOf(chosen) && references == IdsOf(chosen) && archives == ArchivesOf(h, chosen)
    ensures saved == SavedChars(chosen)
  {
    edits, references, archives, saved := [], [], [], 0;
    for i := 0 to |chosen|
      invariant edits == EditsOf(chosen)[..i] && references == IdsOf(chosen)[..i] && archives == ArchivesOf(h, chosen)[..i]
      invariant saved + SavedChars(chosen[i..]) == SavedChars(chosen)
    {
      var c := chosen[i];
      assert chosen[i..][1..] == chosen[i + 1..];
      edits := edits + [EditDraft(c.id, Some(c.marker))];
      references := references + [c.id];
      archives := archives + [Archive(c.id, h.digest(c.text), |c.text|)];
      saved := saved + c.saved;
    }
  }

  /** Planning as the program runs it. */
  method PlanContextTrim(h: Host, b: seq<Entry>, after: Option<Id>, o: TrimOptions) returns (r: Result<Plan>)
    requires |Project(b)| <= ABSENT
    ensures r == PlanTrim(h, b, after, o)
  {
    hide Project, Groups, Eligible, SelectFrontier, CooldownTurns, ThinkingBlocks, SavedChars, EditsOf, IdsOf, ArchivesOf, SignedAt, HasId;
    if Given(after).Some? && !HasId(b, after.value) { return Err("Trim boundary is not on the active branch."); }
    var boundary := AnchorBoundary(b, o);
    if boundary.Some? && !HasId(b, boundary.value) { return Err("Anchor boundary is not on the active branch."); }
    var p := Project(b);
    var groups := FindGroups(p, InTrimGroup);
    var s := Scope(b, p, groups, Given(after), boundary, SignedAt(p, o.reader, |p|));
    var chosen := FindFrontier(h, p, Eligible(h, s), EconomyOf(o), FloorOf(o));
    var edits, references, archives, saved := Assemble(h, chosen);
    var blocked := ThinkingEditReason(p, edits, o.reader);
    if blocked { return Ok(Plan([], [], [], 0, SignedThinking, 0, true)); }
    var cooldown := CooldownTurns(b);
    var automatic := if saved < FloorOf(o) then InsufficientSavings else if cooldown > 0 then Cooldown else Ready;
    r := Ok(Plan(edits, references, archives, saved, automatic, cooldown, false));
  }
}
