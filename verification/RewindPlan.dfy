/** Removing a research detour after a checkpoint, and what that keeps. */
module RewindPlan {
  import opened Wrappers
  import opened Branch
  import opened ToolGroups
  import opened Inspect
  import opened Markers
  import opened Thinking

  const ATTENTION_TYPE := "smart-compact-attention"
  const MIN_TRIM_CHARS := 2048
  const REWIND_RANK := 3

  /** A research output left in a kept batch: its text and the marker for it. */
  datatype Output = Output(id: Id, text: string, marker: string)

  predicate Removable(t: Tool) {
    t.removable
  }

  predicate IsTarget(e: Entry, research: map<Id, Option<Call>>) {
    e.id in research || (e.CustomEntry? && e.message.Custom? && e.message.customType == ATTENTION_TYPE)
  }

  function TargetOf(e: Entry, research: map<Id, Option<Call>>): seq<Id> {
    if IsTarget(e, research) then [e.id] else []
  }

  function TargetsIn(es: seq<Entry>, research: map<Id, Option<Call>>): seq<Id> {
    if es == [] then []
    else TargetOf(es[0], research) + TargetsIn(es[1..], research)
  }

  /** The recovery record of a removed result; None when its text must not be offered. */
  function Recoverable(h: Host, b: seq<Entry>, state: Inspection, targets: seq<Id>, e: Entry): Option<Archive> {
    if e.id !in targets || !e.MessageEntry? || !e.message.ToolResult?
       || (NewestEdit(b, e.id).Some? && e.id !in state.references) then None
    else
      var text := e.message.content.text;
      if e.id in state.archives && state.archives[e.id].sha != h.digest(text) then None
      else Some(Archive(e.id, h.digest(text), |text|))
  }

  function Recovered(h: Host, b: seq<Entry>, state: Inspection, targets: seq<Id>, n: nat): seq<Archive>
    requires n <= |b|
  {
    if n == 0 then []
    else
      var r := Recoverable(h, b, state, targets, b[n - 1]);
      Recovered(h, b, state, targets, n - 1) + if r.Some? then [r.value] else []
  }

  method RecoverAll(h: Host, b: seq<Entry>, state: Inspection, targets: seq<Id>) returns (r: seq<Archive>)
    ensures r == Recovered(h, b, state, targets, |b|)
  {
    r := [];
    for i := 0 to |b|
      invariant r == Recovered(h, b, state, targets, i)
    {
      var item := Recoverable(h, b, state, targets, b[i]);
      if item.Some? { r := r + [item.value]; }
    }
  }

  // ---------------------------------------------------------------- research inside kept batches

  /** The call map in force after message k. */
  function CallsAfter(p: seq<Projected>, k: nat, targets: seq<Id>): map<string, Call>
    requires k <= |p|
  {
    if k == 0 then map[]
    else
      var m := p[k - 1].message;
      if m.Assistant? then (if p[k - 1].source.id in targets then map[] else CallMap(m.calls))
      else if m.User? then map[] else CallsAfter(p, k - 1, targets)
  }

  function StrandedAt(h: Host, p: seq<Projected>, k: nat, b: seq<Entry>, from: nat, targets: seq<Id>): Option<Output>
    requires k < |p| && from <= |b|
  {
    var x := p[k];
    var id := x.source.id;
    var m := x.message;
    var calls := CallsAfter(p, k, targets);
    if !m.ToolResult? || !HasId(b[from..], id) || id in targets || NewestEdit(b, id).Some? || m.isError || !m.content.plain then None
    else if m.callId !in calls || calls[m.callId].flat == [] || !(forall f | f in calls[m.callId].flat :: f.removable) then None
    else if |m.content.text| < MIN_TRIM_CHARS then None
    else Some(Output(id, m.content.text, AddLines(h, h.markerHead(m)(id), h.markerLines(m)(REWIND_RANK))))
  }

  function Stranded(h: Host, p: seq<Projected>, k: nat, b: seq<Entry>, from: nat, targets: seq<Id>): seq<Output>
    requires k <= |p| && from <= |b|
  {
    if k == 0 then []
    else
      var o := StrandedAt(h, p, k - 1, b, from, targets);
      Stranded(h, p, k - 1, b, from, targets) + if o.Some? then [o.value] else []
  }

  /** Largest text first, stable. */
  function InsertOutput(s: seq<Output>, x: Output): seq<Output> {
    if s == [] || |s[|s| - 1].text| >= |x.text| then s + [x]
    else InsertOutput(s[..|s| - 1], x) + [s[|s| - 1]]
  }

  function SortOutputs(s: seq<Output>): seq<Output> {
    if s == [] then [] else InsertOutput(SortOutputs(s[..|s| - 1]), s[|s| - 1])
  }

  method KeptResearchOutputs(h: Host, p: seq<Projected>, b: seq<Entry>, from: nat, targets: seq<Id>) returns (r: seq<Output>)
    requires from <= |b|
    ensures r == SortOutputs(Stranded(h, p, |p|, b, from, targets))
  {
    var outputs: seq<Output> := [];
    var calls: map<string, Call> := map[];
    for k := 0 to |p|
      invariant calls == CallsAfter(p, k, targets)
      invariant outputs == Stranded(h, p, k, b, from, targets)
    {
      var m := p[k].message;
      var found := StrandedAt(h, p, k, b, from, targets);
      if found.Some? { outputs := outputs + [found.value]; }
      if m.Assistant? && p[k].source.id !in targets { calls := BuildCallMap(m.calls); }
      else if m.Assistant? || m.User? { calls := map[]; }
    }
    r := SortOutputs(outputs);
  }

  // ---------------------------------------------------------------- the plan

  function Removals(targets: seq<Id>): seq<Draft> {
    seq(|targets|, i requires 0 <= i < |targets| => EditDraft(targets[i], None))
  }

  function Replacements(outputs: seq<Output>): seq<Draft> {
    seq(|outputs|, i requires 0 <= i < |outputs| => EditDraft(outputs[i].id, Some(outputs[i].marker)))
  }

  function ArchiveIds(items: seq<Archive>): seq<Id> {
    seq(|items|, i requires 0 <= i < |items| => items[i].id)
  }

  function OutputArchives(h: Host, outputs: seq<Output>): seq<Archive> {
    seq(|outputs|, i requires 0 <= i < |outputs| => Archive(outputs[i].id, h.digest(outputs[i].text), |outputs[i].text|))
  }

  datatype Rewind = Rewind(edits: seq<Draft>, archives: seq<Archive>, report: string, removed: nat)

  /** The drafts a rewind commits: its edits, the report, and the control record. */
  function RewindEntries(r: Rewind): seq<Draft> {
    r.edits + [ReportDraft(r.report), ControlDraft(RewindControl(ArchiveIds(r.archives), r.archives))]
  }

  function TargetsOf(b: seq<Entry>, state: Inspection): seq<Id>
    requires 0 <= state.index < |b|
  {
    var p := Project(b);
    TargetsIn(b[state.index + 1..], Groups(p, |p|, Removable))
  }

  /** The outputs a rewind shrinks to markers, unless that alone would disturb signed thinking. */
  function Archived(h: Host, b: seq<Entry>, state: Inspection, reader: Reader): seq<Output>
    requires 0 <= state.index < |b|
  {
    var p := Project(b);
    var targets := TargetsOf(b, state);
    var all := SortOutputs(Stranded(h, p, |p|, b, state.index + 1, targets));
    var room := if |targets| <= MAX_CONTEXT_EDITS then MAX_CONTEXT_EDITS - |targets| else 0;
    var outputs := if |all| <= room then all else all[..room];
    if outputs != [] && !ThinkingBlocks(p, Removals(targets) + Replacements(outputs), reader) then outputs else []
  }

  function PlanRewind(h: Host, b: seq<Entry>, session: string, checkpoint: Id, report: string, reader: Reader): Result<Rewind> {
    var state := InspectBranch(h, b, session);
    WalkIndex(b);
    if state.checkpoint.None? || state.checkpoint.value.id != checkpoint then
      Err("No matching active checkpoint; create one before research.")
    else
      var targets := TargetsOf(b, state);
      if |targets| > MAX_CONTEXT_EDITS then Err("Research exceeds the rewind edit limit; compact instead.")
      else if ThinkingBlocks(Project(b), Removals(targets), reader) then Err("Cleanup would invalidate retained signed Anthropic thinking.")
      else
        var outputs := Archived(h, b, state, reader);
        Ok(Rewind(Removals(targets) + Replacements(outputs),
                  Recovered(h, b, state, targets, |b|) + OutputArchives(h, outputs), report, |targets|))
  }

  method ArchiveStranded(h: Host, b: seq<Entry>, state: Inspection, targets: seq<Id>, reader: Reader) returns (outputs: seq<Output>)
    requires 0 <= state.index < |b| && targets == TargetsOf(b, state) && |targets| <= MAX_CONTEXT_EDITS
    ensures outputs == Archived(h, b, state, reader)
  {
    hide Stranded, SortOutputs, ThinkingBlocks, TargetsOf, Project;
    var p := Project(b);
    outputs := KeptResearchOutputs(h, p, b, state.index + 1, targets);
    var room := MAX_CONTEXT_EDITS - |targets|;
    if |outputs| > room { outputs := outputs[..room]; }
    var disturbs := ThinkingEditReason(p, Removals(targets) + Replacements(outputs), reader);
    if disturbs { outputs := []; }
  }

  /** An accepted plan, part by part. */
  lemma AcceptedIs(h: Host, b: seq<Entry>, session: string, checkpoint: Id, report: string, reader: Reader)
    requires PlanRewind(h, b, session, checkpoint, report, reader).Ok?
    ensures var state := InspectBranch(h, b, session);
            && state.checkpoint.Some? && 0 <= state.index < |b|
            && (var (targets, outputs) := (TargetsOf(b, state), Archived(h, b, state, reader));
                && |targets| <= MAX_CONTEXT_EDITS && !ThinkingBlocks(Project(b), Removals(targets), reader)
                && PlanRewind(h, b, session, checkpoint, report, reader).value
                   == Rewind(Removals(targets) + Replacements(outputs),
                             Recovered(h, b, state, targets, |b|) + OutputArchives(h, outputs), report, |targets|))
  {
    CheckpointIndex(h, b, session);
    hide InspectBranch, TargetsOf, Archived, ThinkingBlocks, Recovered, Project;
  }

  lemma CheckpointIndex(h: Host, b: seq<Entry>, session: string)
    ensures var state := InspectBranch(h, b, session); state.checkpoint.Some? ==> 0 <= state.index < |b|
  {
    WalkIndex(b);
  }

  /** Planning as the program runs it. */
  method PlanContextRewind(h: Host, b: seq<Entry>, session: string, checkpoint: Id, report: string, reader: Reader)
    returns (r: Result<Rewind>)
    ensures r == PlanRewind(h, b, session, checkpoint, report, reader)
  {
    hide Project, Groups, ThinkingBlocks, Archived, TargetsIn, Recovered, WalkTo, InspectBranch, Removals, Replacements, OutputArchives;
    CheckpointIndex(h, b, session);
    var state := InspectWalk(h, b, session);
    if state.checkpoint.None? || state.checkpoint.value.id != checkpoint {
      return Err("No matching active checkpoint; create one before research.");
    }
    var p := Project(b);
    var research := FindGroups(p, Removable);
    var targets := TargetsIn(b[state.index + 1..], research);
    if |targets| > MAX_CONTEXT_EDITS { return Err("Research exceeds the rewind edit limit; compact instead."); }
    var archives := RecoverAll(h, b, state, targets);
    var blocked := ThinkingEditReason(p, Removals(targets), reader);
    if blocked { return Err("Cleanup would invalidate retained signed Anthropic thinking."); }
    var outputs := ArchiveStranded(h, b, state, targets, reader);
    r := Ok(Rewind(Removals(targets) + Replacements(outputs), archives + OutputArchives(h, outputs), report, |targets|));
  }
}
