/** What the control records of a branch authorize. */
module Inspect {
  // The active checkpoint, the archived ids that may be read back, and the content evidence recorded
  // for them.

  import opened Wrappers
  import opened Branch

  datatype Evidence = Evidence(sha: nat, chars: nat)

  /** The state of the walk. References keep the insertion order of the set they model. */
  datatype Walk = Walk(checkpoint: Option<Checkpoint>, index: int, invalid: bool,
                       references: seq<Id>, archives: map<Id, Evidence>)

  const START := Walk(None, -1, false, [], map[])

  function Without(refs: seq<Id>, id: Id): seq<Id> {
    if refs == [] then []
    else (if refs[0] == id then [] else [refs[0]]) + Without(refs[1..], id)
  }

  /** The evidence a record holds for id, the last item for it when there are several. */
  function EvidenceIn(archives: seq<Archive>, id: Id): Option<Evidence> {
    if archives == [] then None
    else
      var a := archives[|archives| - 1];
      if a.id == id then Some(Evidence(a.sha, a.chars)) else EvidenceIn(archives[..|archives| - 1], id)
  }

  function AddReference(w: Walk, id: Id, archives: seq<Archive>): Walk {
    var found := EvidenceIn(archives, id);
    w.(references := if id in w.references then w.references else w.references + [id],
       archives := if found.Some? then w.archives[id := found.value] else w.archives - {id})
  }

  function AddReferences(w: Walk, refs: seq<Id>, archives: seq<Archive>): Walk {
    if refs == [] then w
    else AddReference(AddReferences(w, refs[..|refs| - 1], archives), refs[|refs| - 1], archives)
  }

  function WalkStep(w: Walk, e: Entry, index: nat): Walk {
    match e
    case ContextEdit(_, target, _) => w.(references := Without(w.references, target))
    case ControlEntry(_, control) =>
      (match ControlOf(e)
       case Some(CheckpointControl(cp)) => w.(checkpoint := Some(cp), index := index, invalid := false)
       case Some(TrimControl(refs, archives, _)) => AddReferences(w, refs, archives)
       case Some(RewindControl(refs, archives)) =>
         AddReferences(w, refs, archives).(checkpoint := None, index := -1, invalid := false)
       case _ => w.(checkpoint := None, invalid := true))
    case _ => w
  }

  function WalkTo(b: seq<Entry>): Walk {
    if b == [] then START else WalkStep(WalkTo(b[..|b| - 1]), b[|b| - 1], |b| - 1)
  }

  datatype Inspection = Inspection(checkpoint: Option<Checkpoint>, index: int, valid: bool,
                                   references: seq<Id>, archives: map<Id, Evidence>)

  predicate Breaks(e: Entry) {
    e.Compaction? || e.BranchSummary? || (e.MessageEntry? && e.message.User?)
  }

  /** Why a checkpoint found by the walk no longer holds: another session or branch, a
      compaction, navigation or user turn after it, or a changed prefix. */
  predicate CheckpointHolds(h: Host, b: seq<Entry>, session: string, cp: Checkpoint, at: nat)
    requires at < |b|
  {
    var shown := Project(b);
    var count := cp.snapshot.messageCount;
    && cp.session == session
    && HasId(b[..at], cp.origin)
    && (forall i | at < i < |b| :: !Breaks(b[i]))
    && count <= |shown|
    && h.fingerprint(shown[..count]) == cp.snapshot.hash
  }

  function Finish(h: Host, b: seq<Entry>, session: string, w: Walk): Inspection
    requires w.checkpoint.Some? ==> 0 <= w.index < |b|
  {
    var ok := if w.checkpoint.Some? then !w.invalid && CheckpointHolds(h, b, session, w.checkpoint.value, w.index)
              else !w.invalid;
    Inspection(if ok then w.checkpoint else None, w.index, ok, w.references, w.archives)
  }

  lemma {:induction false} AddReferencesKeeps(w: Walk, refs: seq<Id>, archives: seq<Archive>)
    ensures var w' := AddReferences(w, refs, archives);
            w'.checkpoint == w.checkpoint && w'.index == w.index && w'.invalid == w.invalid
  {
    if refs != [] {
      AddReferencesKeeps(w, refs[..|refs| - 1], archives);
    }
  }

  lemma {:induction false} WalkIndex(b: seq<Entry>)
    ensures WalkTo(b).checkpoint.Some? ==>
              0 <= WalkTo(b).index < |b| && ControlOf(b[WalkTo(b).index]) == Some(CheckpointControl(WalkTo(b).checkpoint.value))
  {
    if b != [] {
      WalkIndex(b[..|b| - 1]);
      var e := b[|b| - 1];
      if e.ControlEntry? {
        match ControlOf(e)
        case Some(TrimControl(refs, archives, _)) => AddReferencesKeeps(WalkTo(b[..|b| - 1]), refs, archives);
        case Some(RewindControl(refs, archives)) => AddReferencesKeeps(WalkTo(b[..|b| - 1]), refs, archives);
        case _ =>
      }
    }
  }

  /** What the program's walk finds on a branch. */
  function InspectBranch(h: Host, b: seq<Entry>, session: string): Inspection {
    WalkIndex(b);
    Finish(h, b, session, WalkTo(b))
  }

  /** The walk as the program runs it. */
  method InspectWalk(h: Host, b: seq<Entry>, session: string) returns (r: Inspection)
    ensures r == InspectBranch(h, b, session)
  {
    var checkpoint: Option<Checkpoint> := None;
    var checkpointIndex := -1;
    var invalid := false;
    var references: seq<Id> := [];
    var archives: map<Id, Evidence> := map[];
    for index := 0 to |b|
      invariant Walk(checkpoint, checkpointIndex, invalid, references, archives) == WalkTo(b[..index])
    {
      var entry := b[index];
      assert b[..index + 1][..index] == b[..index];
      if entry.ContextEdit? { references := Without(references, entry.target); }
      var data := ControlOf(entry);
      if data.Some? && data.value.CheckpointControl? {
        checkpoint, checkpointIndex, invalid := Some(data.value.checkpoint), index, false;
      } else if data.Some? {
        ghost var before := Walk(checkpoint, checkpointIndex, invalid, references, archives);
        AddReferencesKeeps(before, data.value.references, data.value.archives);
        references, archives := Record(references, archives, data.value.references, data.value.archives, before);
        if data.value.RewindControl? {
          checkpoint, checkpointIndex, invalid := None, -1, false;
        }
      } else if entry.ControlEntry? {
        checkpoint, invalid := None, true;
      }
    }
    assert b[..|b|] == b;
    WalkIndex(b);
    if checkpoint.Some? && !CheckpointHolds(h, b, session, checkpoint.value, checkpointIndex) {
      invalid := true;
    }
    r := Inspection(if invalid then None else checkpoint, checkpointIndex, !invalid, references, archives);
  }

  /** Adding one record's references, in order. */
  method Record(references: seq<Id>, archives: map<Id, Evidence>, ids: seq<Id>, items: seq<Archive>, ghost w: Walk)
    returns (refs: seq<Id>, found: map<Id, Evidence>)
    requires w.references == references && w.archives == archives
    ensures var w' := AddReferences(w, ids, items); refs == w'.references && found == w'.archives
  {
    refs, found := references, archives;
    for i := 0 to |ids|
      invariant refs == AddReferences(w, ids[..i], items).references
      invariant found == AddReferences(w, ids[..i], items).archives
    {
      assert ids[..i + 1][..i] == ids[..i];
      var id := ids[i];
      if id !in refs { refs := refs + [id]; }
      var evidence := EvidenceIn(items, id);
      if evidence.Some? { found := found[id := evidence.value]; } else { found := found - {id}; }
    }
    assert ids[..|ids|] == ids;
  }

  // ---------------------------------------------------------------- authorization is decided by the newest event

  /** e is an owned record that lists id. */
  predicate Records(e: Entry, id: Id) {
    var c := ControlOf(e);
    c.Some? && !c.value.CheckpointControl? && !c.value.Malformed? && id in c.value.references
  }

  function RecordedEvidence(e: Entry, id: Id): Option<Evidence>
    requires Records(e, id)
  {
    EvidenceIn(ControlOf(e).value.archives, id)
  }

  predicate Edits(e: Entry, id: Id) {
    e.ContextEdit? && e.target == id
  }

  /** Position j holds the newest event about id, and it is an owned record. */
  predicate NewestIsRecord(b: seq<Entry>, id: Id, j: nat)
    requires j < |b|
  {
    Records(b[j], id) && forall k | j < k < |b| :: !Edits(b[k], id) && !Records(b[k], id)
  }

  lemma {:induction false} WithoutMembers(refs: seq<Id>, id: Id, x: Id)
    ensures x in Without(refs, id) <==> x in refs && x != id
  {
    if refs != [] {
      WithoutMembers(refs[1..], id, x);
    }
  }

  lemma {:induction false} AddReferencesMembers(w: Walk, refs: seq<Id>, archives: seq<Archive>, x: Id)
    ensures var w' := AddReferences(w, refs, archives);
            && (x in w'.references <==> x in w.references || x in refs)
            && (x in refs ==>
                  if EvidenceIn(archives, x).Some? then x in w'.archives && w'.archives[x] == EvidenceIn(archives, x).value
                  else x !in w'.archives)
            && (x !in refs ==> (x in w'.archives <==> x in w.archives) && (x in w.archives ==> w'.archives[x] == w.archives[x]))
  {
    if refs != [] {
      AddReferencesMembers(w, refs[..|refs| - 1], archives, x);
      assert refs == refs[..|refs| - 1] + [refs[|refs| - 1]];
    }
  }

  /** One more entry: an edit revokes its target, a record authorizes what it lists, and
      nothing else touches an id. */
  lemma WalkStepMembers(w: Walk, e: Entry, index: nat, id: Id)
    ensures var w' := WalkStep(w, e, index);
            && (id in w'.references <==> Records(e, id) || (id in w.references && !Edits(e, id)))
            && (Records(e, id) ==>
                  if RecordedEvidence(e, id).Some? then id in w'.archives && w'.archives[id] == RecordedEvidence(e, id).value
                  else id !in w'.archives)
            && (!Records(e, id) ==> (id in w'.archives <==> id in w.archives) && (id in w.archives ==> w'.archives[id] == w.archives[id]))
  {
    if e.ContextEdit? {
      WithoutMembers(w.references, e.target, id);
    } else if e.ControlEntry? {
      match ControlOf(e)
      case Some(TrimControl(refs, archives, _)) => AddReferencesMembers(w, refs, archives, id);
      case Some(RewindControl(refs, archives)) => AddReferencesMembers(w, refs, archives, id);
      case _ =>
    }
  }

  /** An id is authorized exactly when its newest event is an owned record; the evidence
      kept for it is the one that record gave. */
  lemma {:induction false} AuthorizedByNewest(b: seq<Entry>, id: Id)
    ensures id in WalkTo(b).references <==> exists j :: 0 <= j < |b| && NewestIsRecord(b, id, j)
    ensures forall j | 0 <= j < |b| && NewestIsRecord(b, id, j) ::
              if RecordedEvidence(b[j], id).Some? then
                id in WalkTo(b).archives && WalkTo(b).archives[id] == RecordedEvidence(b[j], id).value
              else id !in WalkTo(b).archives
  {
    if b != [] {
      var n := |b| - 1;
      var p := b[..n];
      AuthorizedByNewest(p, id);
      WalkStepMembers(WalkTo(p), b[n], n, id);
      if Records(b[n], id) {
        assert NewestIsRecord(b, id, n);
      }
      forall j | 0 <= j < n && NewestIsRecord(b, id, j) ensures NewestIsRecord(p, id, j) {
        assert b[j] == p[j];
        forall k | j < k < |p| ensures !Edits(p[k], id) && !Records(p[k], id) { assert p[k] == b[k]; }
      }
      if id in WalkTo(p).references && !Edits(b[n], id) && !Records(b[n], id) {
        var j :| 0 <= j < |p| && NewestIsRecord(p, id, j);
        assert b[j] == p[j];
        forall k | j < k < |b| ensures !Edits(b[k], id) && !Records(b[k], id) {
          if k < n { assert b[k] == p[k]; }
        }
        assert NewestIsRecord(b, id, j);
      }
    }
  }

  // ---------------------------------------------------------------- reading an archived output back

  function ArchivableContent(e: Entry): Option<Content> {
    if e.CustomEntry? then Some(e.message.content)
    else if e.MessageEntry? && e.message.ToolResult? then Some(e.message.content)
    else None
  }

  /** Branch-local recovery of one archived output. */
  function ReadReference(h: Host, b: seq<Entry>, session: string, id: Id): Result<string> {
    var state := InspectBranch(h, b, session);
    var at := IndexOf(b, id);
    if id !in state.references then Err("No archived reference with that ID on the active branch.")
    else if at == |b| then Err("Archived text is unavailable.")
    else
      var content := ArchivableContent(b[at]);
      if content.None? || !content.value.plain then Err("Archived text is unavailable.")
      else if id in state.archives && h.digest(content.value.text) != state.archives[id].sha then
        Err("Archived text no longer matches the record made when it was archived.")
      else Ok(content.value.text)
  }

  /** What can be read back, over every history of edits and records: the newest event about
      the id is an owned record, the entry is on the branch with text-only archivable
      content, and that content still has the digest the record gave. */
  lemma ReadableExactly(h: Host, b: seq<Entry>, session: string, id: Id)
    ensures ReadReference(h, b, session, id).Ok? <==>
              exists i, j :: 0 <= i < |b| && 0 <= j < |b| && ReadsFrom(h, b, id, i, j)
    ensures forall i, j | 0 <= i < |b| && 0 <= j < |b| && ReadsFrom(h, b, id, i, j) ::
              ReadReference(h, b, session, id) == Ok(ArchivableContent(b[i]).value.text)
  {
    AuthorizedByNewest(b, id);
    var at := IndexOf(b, id);
    if ReadReference(h, b, session, id).Ok? {
      var j :| 0 <= j < |b| && NewestIsRecord(b, id, j);
      assert ReadsFrom(h, b, id, at, j);
    }
    forall i, j | 0 <= i < |b| && 0 <= j < |b| && ReadsFrom(h, b, id, i, j)
      ensures ReadReference(h, b, session, id) == Ok(ArchivableContent(b[i]).value.text)
    {
      assert i == at;
      assert NewestIsRecord(b, id, j);
    }
  }

  /** i is the first entry with this id, j the newest event about it, and they agree. */
  predicate ReadsFrom(h: Host, b: seq<Entry>, id: Id, i: nat, j: nat)
    requires i < |b| && j < |b|
  {
    && b[i].id == id && (forall k | 0 <= k < i :: b[k].id != id)
    && ArchivableContent(b[i]).Some? && ArchivableContent(b[i]).value.plain
    && NewestIsRecord(b, id, j)
    && (RecordedEvidence(b[j], id).Some? ==>
          h.digest(ArchivableContent(b[i]).value.text) == RecordedEvidence(b[j], id).value.sha)
  }

  /** A later foreign edit revokes an id, whatever the branch held before, until an owned
      record lists it again. */
  lemma ForeignEditRevokes(h: Host, b: seq<Entry>, edit: Entry, later: seq<Entry>, session: string, id: Id)
    requires Edits(edit, id) && forall k | 0 <= k < |later| :: !Records(later[k], id)
    ensures ReadReference(h, b + [edit] + later, session, id).Err?
  {
    var all := b + [edit] + later;
    AuthorizedByNewest(all, id);
    assert all[|b|] == edit;
    forall j | 0 <= j < |all| ensures !NewestIsRecord(all, id, j) {
      if j > |b| { assert all[j] == later[j - |b| - 1]; }
    }
  }

  // ---------------------------------------------------------------- savings accounting

  datatype Roi = Roi(outputs: nat, chars: nat, saved: nat)

  function ArchivedOutputs(refs: seq<Id>, archives: map<Id, Evidence>): nat {
    if refs == [] then 0
    else ArchivedOutputs(refs[..|refs| - 1], archives) + if refs[|refs| - 1] in archives then 1 else 0
  }

  function ArchivedChars(refs: seq<Id>, archives: map<Id, Evidence>): nat {
    if refs == [] then 0
    else
      ArchivedChars(refs[..|refs| - 1], archives)
      + if refs[|refs| - 1] in archives then archives[refs[|refs| - 1]].chars else 0
  }

  function EditChars(e: Entry, refs: seq<Id>): nat {
    if e.ContextEdit? && e.target in refs && e.replacement.Some? then |e.replacement.value| else 0
  }

  /** Characters of the markers that stand in for the ids of refs. */
  function MarkerChars(b: seq<Entry>, refs: seq<Id>): nat {
    if b == [] then 0 else MarkerChars(b[..|b| - 1], refs) + EditChars(b[|b| - 1], refs)
  }

  function RoiOf(b: seq<Entry>): Roi {
    var w := WalkTo(b);
    var chars := ArchivedChars(w.references, w.archives);
    var markers := MarkerChars(b, w.references);
    Roi(ArchivedOutputs(w.references, w.archives), chars, if chars >= markers then chars - markers else 0)
  }

  /** The savings report as the program computes it. */
  method TrimRoi(h: Host, b: seq<Entry>, session: string) returns (r: Roi)
    ensures r == RoiOf(b)
  {
    var state := InspectWalk(h, b, session);
    var refs := state.references;
    var outputs, chars := 0, 0;
    for i := 0 to |refs|
      invariant outputs == ArchivedOutputs(refs[..i], state.archives)
      invariant chars == ArchivedChars(refs[..i], state.archives)
    {
      assert refs[..i + 1][..i] == refs[..i];
      if refs[i] in state.archives {
        outputs, chars := outputs + 1, chars + state.archives[refs[i]].chars;
      }
    }
    assert refs[..|refs|] == refs;
    var markers := 0;
    for i := 0 to |b|
      invariant markers == MarkerChars(b[..i], refs)
    {
      assert b[..i + 1][..i] == b[..i];
      if b[i].ContextEdit? && b[i].target in refs {
        if b[i].replacement.Some? { markers := markers + |b[i].replacement.value|; }
      }
    }
    assert b[..|b|] == b;
    r := Roi(outputs, chars, if chars >= markers then chars - markers else 0);
  }
}
