/**
 Whole runs of committed trims.

 Over every run the savings report is the sum of the plans and automatic trims are spaced.
 */
module TrimRuns {
  import opened Wrappers
  import opened Branch
  import opened Inspect
  import opened Frontier
  import opened Markers
  import opened TrimPlan
  import opened TrimSafety
  import opened TrimLedger

  /** One step: the session goes on, or a planned trim is committed. */
  datatype Step =
    | Append(entry: Entry)
    | Commit(after: Option<Id>, options: TrimOptions, cause: Cause, ids: seq<Id>, automatic: bool)

  const EMPTY := History([], 0, [], [])

  /** What a commit step appends; nothing when the plan is refused, empty, or an automatic
      trim is not ready. */
  function Drafts(h: Host, s: History, step: Step): seq<Draft>
    requires step.Commit?
  {
    var r := PlanTrim(h, s.b, step.after, step.options);
    if r.Err? || (step.automatic && !r.value.automatic.Ready?) then [] else TrimEntries(r.value, step.cause)
  }

  predicate Effective(h: Host, s: History, step: Step) {
    step.Commit? && Drafts(h, s, step) != [] && |step.ids| == |Drafts(h, s, step)|
  }

  function ApplyPlan(s: History, plan: Plan, cause: Cause, ids: seq<Id>, automatic: bool): History
    requires |ids| == |TrimEntries(plan, cause)| > 0
  {
    var b := s.b + StampAll(TrimEntries(plan, cause), ids);
    History(b, s.saved + plan.saved, s.trimmed + plan.references, s.marks + [Mark(|b| - 1, automatic)])
  }

  function Apply(h: Host, s: History, step: Step): History {
    if step.Append? then s.(b := s.b + [step.entry])
    else if !Effective(h, s, step) then s
    else ApplyPlan(s, PlanTrim(h, s.b, step.after, step.options).value, step.cause, step.ids, step.automatic)
  }

  function Run(h: Host, steps: seq<Step>): History {
    if steps == [] then EMPTY else Apply(h, Run(h, steps[..|steps| - 1]), steps[|steps| - 1])
  }

  /** Ids the host can hand out: unique, and short enough to fit a record. */
  predicate HostIds(b: seq<Entry>) {
    UniqueIds(b) && |b| <= ABSENT && forall i | 0 <= i < |b| :: |b[i].id| <= MAX_ID_LENGTH
  }

  /** No foreign edits, no rewinds, and no trim records but those of the commit steps. */
  predicate Legal(h: Host, steps: seq<Step>) {
    && (forall i | 0 <= i < |steps| && steps[i].Append? :: KeepsBooks(steps[i].entry))
    && HostIds(Run(h, steps).b)
  }

  /** The plan of a commit step is that of its chosen candidates, and it was not refused. */
  lemma EffectivePlan(h: Host, s: History, step: Step)
    requires Effective(h, s, step)
    ensures var cs := Chosen(h, s.b, step.after, step.options);
            var r := PlanTrim(h, s.b, step.after, step.options);
            r.Ok? && PlanIs(h, r.value, cs) && cs != [] && |step.ids| == |cs| + 1
            && (step.automatic ==> CooldownTurns(s.b) == 0)
  {
    var plan := PlanTrim(h, s.b, step.after, step.options).value;
    assert plan == PlanOf(h, s.b, step.options, Chosen(h, s.b, step.after, step.options));
  }

  predicate PlanIs(h: Host, plan: Plan, cs: seq<Candidate>) {
    plan.edits == EditsOf(cs) && plan.references == IdsOf(cs) && plan.archives == ArchivesOf(h, cs) && plan.saved == SavedChars(cs)
  }

  lemma ChosenFits(h: Host, b: seq<Entry>, step: Step)
    requires step.Commit? && HostIds(b)
    ensures var cs := Chosen(h, b, step.after, step.options);
            && DistinctIds(cs) && |cs| <= MAX_TRIM_EDITS && FitsRecord(IdsOf(cs))
            && (forall i | 0 <= i < |cs| :: NewestEdit(b, cs[i].id).None? && cs[i].saved == |cs[i].text| - |cs[i].marker|)
  {
    var cs := Chosen(h, b, step.after, step.options);
    ProjectShort(b, b);
    ChosenDistinct(h, b, step.after, step.options);
    forall i | 0 <= i < |cs|
      ensures NewestEdit(b, cs[i].id).None? && cs[i].saved == |cs[i].text| - |cs[i].marker| && |IdsOf(cs)[i]| <= MAX_ID_LENGTH
    {
      var k, x := ChosenSource(h, b, step.after, step.options, cs[i]);
    }
  }

  lemma PlanShape(h: Host, s: History, plan: Plan, cs: seq<Candidate>, cause: Cause, ids: seq<Id>, automatic: bool)
    requires PlanIs(h, plan, cs) && cs != [] && |ids| == |cs| + 1 && |cs| <= MAX_TRIM_EDITS
    requires DistinctIds(cs) && FitsRecord(IdsOf(cs))
    ensures |ids| == |TrimEntries(plan, cause)|
    ensures var d := Committed(cs, ids[..|cs|], ids[|cs|], cause, automatic);
            var s' := ApplyPlan(s, plan, cause, ids, automatic);
            && s'.b == s.b + EditEntries(d) + [RecordEntry(h, d)]
            && s'.trimmed == s.trimmed + IdsOf(d.cs) && s'.saved == s.saved + SavedChars(d.cs)
            && s'.marks == s.marks + [Mark(|s'.b| - 1, d.automatic)]
  {
    var d := Committed(cs, ids[..|cs|], ids[|cs|], cause, automatic);
    StampAppend(EditsOf(cs), ControlDraft(TrimControl(IdsOf(cs), ArchivesOf(h, cs), cause)), ids);
    assert s.b + (EditEntries(d) + [RecordEntry(h, d)]) == s.b + EditEntries(d) + [RecordEntry(h, d)];
  }

  function CommittedBy(h: Host, s: History, step: Step): Committed
    requires Effective(h, s, step) && |step.ids| == |Chosen(h, s.b, step.after, step.options)| + 1
  {
    var cs := Chosen(h, s.b, step.after, step.options);
    Committed(cs, step.ids[..|cs|], step.ids[|cs|], step.cause, step.automatic)
  }

  /** A commit step that takes effect lands, whatever the branch held before. */
  lemma StepLands(h: Host, s: History, step: Step)
    requires Effective(h, s, step) && HostIds(s.b)
    ensures var cs := Chosen(h, s.b, step.after, step.options);
            var s' := Apply(h, s, step);
            && |step.ids| == |cs| + 1 && Lands(h, s, s', CommittedBy(h, s, step))
            && s'.trimmed == s.trimmed + IdsOf(cs) && s'.saved == s.saved + SavedChars(cs)
  {
    hide Chosen, PlanTrim, CooldownTurns, ArchivesOf, EditsOf;
    var cs := Chosen(h, s.b, step.after, step.options);
    EffectivePlan(h, s, step);
    ChosenFits(h, s.b, step);
    PlanShape(h, s, PlanTrim(h, s.b, step.after, step.options).value, cs, step.cause, step.ids, step.automatic);
  }

  lemma UneditedUntrimmed(s: History, id: Id)
    requires Balanced(s) && NewestEdit(s.b, id).None?
    ensures id !in s.trimmed
  {
  }

  /** With balanced books it is a commit in the ledger's sense. */
  lemma StepCommits(h: Host, s: History, step: Step)
    requires Balanced(s) && Effective(h, s, step) && HostIds(s.b)
    ensures |step.ids| == |Chosen(h, s.b, step.after, step.options)| + 1
    ensures Commits(h, s, Apply(h, s, step), CommittedBy(h, s, step))
  {
    assert step.Commit?;
    hide Chosen, PlanTrim, CooldownTurns, Apply, Lands, Balanced, Effective, HostIds, NewestEdit;
    StepLands(h, s, step);
    ChosenFits(h, s.b, step);
    var cs := Chosen(h, s.b, step.after, step.options);
    forall i | 0 <= i < |cs| ensures cs[i].id !in s.trimmed {
      UneditedUntrimmed(s, cs[i].id);
    }
  }

  lemma {:induction false} ProjectShort(es: seq<Entry>, b: seq<Entry>)
    ensures |ProjectUnder(es, b)| <= |es|
  {
    if es != [] {
      ProjectShort(es[1..], b);
    }
  }

  lemma ApplyExtends(h: Host, s: History, step: Step)
    ensures s.b <= Apply(h, s, step).b
  {
  }

  lemma HostIdsPrefix(b: seq<Entry>, b': seq<Entry>)
    requires b <= b' && HostIds(b')
    ensures HostIds(b)
  {
    forall i, j | 0 <= i < j < |b| ensures b[i].id != b[j].id { assert b[i] == b'[i] && b[j] == b'[j]; }
    forall i | 0 <= i < |b| ensures |b[i].id| <= MAX_ID_LENGTH { assert b[i] == b'[i]; }
  }

  /** Host ids at the end of a run are host ids one step before it. */
  lemma RunPrefix(h: Host, steps: seq<Step>)
    requires steps != [] && HostIds(Run(h, steps).b)
    ensures HostIds(Run(h, steps[..|steps| - 1]).b)
  {
    var p := steps[..|steps| - 1];
    ApplyExtends(h, Run(h, p), steps[|steps| - 1]);
    HostIdsPrefix(Run(h, p).b, Run(h, steps).b);
  }

  lemma LegalPrefix(h: Host, steps: seq<Step>)
    requires Legal(h, steps) && steps != []
    ensures Legal(h, steps[..|steps| - 1])
  {
    var p := steps[..|steps| - 1];
    RunPrefix(h, steps);
    forall i | 0 <= i < |p| && p[i].Append? ensures KeepsBooks(p[i].entry) {
      assert p[i] == steps[i];
    }
  }

  lemma BalancedStep(h: Host, s: History, step: Step)
    requires Balanced(s) && HostIds(s.b) && (step.Append? ==> KeepsBooks(step.entry))
    ensures Balanced(Apply(h, s, step))
  {
    hide Balanced, Drafts, Commits, ApplyPlan;
    if step.Append? {
      AppendBalanced(s, step.entry);
    } else if Effective(h, s, step) {
      StepCommits(h, s, step);
      CommitBalanced(h, s, Apply(h, s, step), CommittedBy(h, s, step));
    }
  }

  /** The books balance after every step of every legal run. */
  lemma {:induction false} RunBalanced(h: Host, steps: seq<Step>)
    requires Legal(h, steps)
    ensures Balanced(Run(h, steps))
  {
    if steps != [] {
      var n := |steps| - 1;
      LegalPrefix(h, steps);
      RunBalanced(h, steps[..n]);
      BalancedStep(h, Run(h, steps[..n]), steps[n]);
    }
  }

  lemma SpacedStep(h: Host, s: History, step: Step)
    requires Spaced(s.b, s.marks) && HostIds(s.b)
    ensures Spaced(Apply(h, s, step).b, Apply(h, s, step).marks)
  {
    hide Spaced, Drafts, Lands, ApplyPlan;
    if step.Append? {
      ExtendSpaced(s.b, [step.entry], s.marks);
    } else if Effective(h, s, step) {
      StepLands(h, s, step);
      CommitSpaced(h, s, Apply(h, s, step), CommittedBy(h, s, step));
    }
  }

  /** Automatic trims are spaced after every step of every run, whatever else the branch holds. */
  lemma {:induction false} RunSpaced(h: Host, steps: seq<Step>)
    requires HostIds(Run(h, steps).b)
    ensures Spaced(Run(h, steps).b, Run(h, steps).marks)
  {
    if steps != [] {
      var n := |steps| - 1;
      RunPrefix(h, steps);
      RunSpaced(h, steps[..n]);
      SpacedStep(h, Run(h, steps[..n]), steps[n]);
    }
  }

  /** For every run of committed trims without foreign edits or rewinds: the savings report
      equals the sum of the plans' net savings (never reported below zero), and no entry is
      trimmed twice. */
  lemma RoiIsSumOfPlans(h: Host, steps: seq<Step>)
    requires Legal(h, steps)
    ensures var s := Run(h, steps);
            && RoiOf(s.b).saved == (if s.saved >= 0 then s.saved else 0)
            && DistinctSeq(s.trimmed)
  {
    RunBalanced(h, steps);
  }

  /** In every state a commit step meets, the retrieval lines are within the marker limit. */
  predicate LinesFit(h: Host, steps: seq<Step>) {
    forall k | 0 <= k < |steps| && steps[k].Commit? :: HeadsFit(h, Project(Run(h, steps[..k]).b))
  }

  /** What a commit saves when the retrieval lines fit. */
  lemma {:induction false} EachSaves(cs: seq<Candidate>)
    requires forall c | c in cs :: c.saved >= MIN_TRIM_CHARS - TRIM_MARKER_MAX_CHARS
    ensures SavedChars(cs) >= (MIN_TRIM_CHARS - TRIM_MARKER_MAX_CHARS) * |cs|
  {
    if cs != [] {
      EachSaves(cs[1..]);
    }
  }

  lemma StepSaves(h: Host, s: History, step: Step)
    requires HostIds(s.b) && (step.Commit? ==> HeadsFit(h, Project(s.b)))
    ensures var s' := Apply(h, s, step);
            && |s'.trimmed| >= |s.trimmed|
            && s'.saved - s.saved >= (MIN_TRIM_CHARS - TRIM_MARKER_MAX_CHARS) * (|s'.trimmed| - |s.trimmed|)
  {
    if Effective(h, s, step) {
      hide Chosen, Drafts, Lands, ApplyPlan;
      StepLands(h, s, step);
      var cs := Chosen(h, s.b, step.after, step.options);
      forall c | c in cs ensures c.saved >= MIN_TRIM_CHARS - TRIM_MARKER_MAX_CHARS {
        ChosenSaves(h, s.b, step.after, step.options, c);
      }
      EachSaves(cs);
    }
  }

  lemma ChosenSaves(h: Host, b: seq<Entry>, after: Option<Id>, o: TrimOptions, c: Candidate)
    requires HostIds(b) && HeadsFit(h, Project(b)) && c in Chosen(h, b, after, o)
    ensures c.saved >= MIN_TRIM_CHARS - TRIM_MARKER_MAX_CHARS
  {
    var s := ScopeOf(b, after, o);
    ProjectShort(b, b);
    ProjectUniqueSources(b, b);
    EligibleDistinct(h, s);
    SelectSubset(h, s.p, Eligible(h, s), EconomyOf(o), FloorOf(o));
    EachEditSaves(h, b, after, o, c);
  }

  lemma {:induction false} RunSaves(h: Host, steps: seq<Step>)
    requires HostIds(Run(h, steps).b) && LinesFit(h, steps)
    ensures Run(h, steps).saved >= (MIN_TRIM_CHARS - TRIM_MARKER_MAX_CHARS) * |Run(h, steps).trimmed|
  {
    if steps != [] {
      var n := |steps| - 1;
      RunPrefix(h, steps);
      assert steps[..n] <= steps;
      forall k | 0 <= k < n && steps[..n][k].Commit? ensures HeadsFit(h, Project(Run(h, steps[..n][..k]).b)) {
        assert steps[..n][..k] == steps[..k];
      }
      RunSaves(h, steps[..n]);
      StepSaves(h, Run(h, steps[..n]), steps[n]);
    }
  }

  /** With retrieval lines within the limit the report is exactly the sum of the plans, at least
      1648 characters for every trimmed output. */
  lemma RoiIsExact(h: Host, steps: seq<Step>)
    requires Legal(h, steps) && LinesFit(h, steps)
    ensures var s := Run(h, steps); RoiOf(s.b).saved == s.saved >= 1648 * |s.trimmed|
  {
    RoiIsSumOfPlans(h, steps);
    RunSaves(h, steps);
  }

  /** Over every run, whatever else is appended between the trims (edits, rewinds, checkpoints,
      compactions), an automatic trim comes at least eight assistant messages after every
      earlier change of the context: every trim committed before it, and every compaction, trim
      or rewind record of any origin. */
  lemma AutomaticTrimsSpaced(h: Host, steps: seq<Step>, j: nat)
    requires HostIds(Run(h, steps).b) && j < |Run(h, steps).marks| && Run(h, steps).marks[j].automatic
    ensures var s := Run(h, steps);
            var at := s.marks[j].pos;
            && at < |s.b|
            && (forall i | 0 <= i < j :: s.marks[i].pos < at && ChangesContext(s.b[s.marks[i].pos]))
            && (forall c | 0 <= c < at && ChangesContext(s.b[c]) ::
                  AssistantTurns(s.b, c + 1, at) >= AUTO_TRIM_COOLDOWN_TURNS)
  {
    hide Run;
    RunSpaced(h, steps);
    var s := Run(h, steps);
    assert Changes(s.b, s.marks[j]) && Isolated(s.b, s.marks[j]);
    forall i | 0 <= i < j ensures s.marks[i].pos < s.marks[j].pos && ChangesContext(s.b[s.marks[i].pos]) {
      assert Changes(s.b, s.marks[i]);
    }
  }
}
