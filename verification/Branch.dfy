/** Session entries, the host projection of a branch, and the drafts a plan appends. */
module Branch {
  // A branch is the root-to-leaf sequence of append-only session entries. The host shows an entry
  // as a message unless an edit says otherwise: the newest edit aimed at the entry removes it
  // (null) or replaces its content.

  import opened Wrappers

  type Id = string

  /** One flattened call of a tool-call block. The classification of the tool and its
      paths are the answers the tool semantics give; they are data here. */
  datatype Tool = Tool(removable: bool, trimGroup: bool, archivable: bool,
                       readPaths: seq<string>, writePaths: seq<string>, fullRead: bool)

  /** A tool-call block; replyTo is the mesh message a reply call answers. */
  datatype Call = Call(id: string, flat: seq<Tool>, replyTo: Option<string>)

  /** Message content: its text, and whether every block of it is text. */
  datatype Content = Content(text: string, plain: bool)

  /** What the details of a custom message make of it. */
  datatype Notice = NoNotice | ProcessNotice | MeshDelivery(meshId: string)

  datatype Message =
    | User(content: Content)
    | Assistant(content: Content, finished: bool, calls: seq<Call>, signed: bool)
    | ToolResult(callId: string, content: Content, isError: bool, mesh: bool)
    | Custom(customType: string, content: Content, notice: Notice)

  /** The recorded content evidence of one archived output. */
  datatype Archive = Archive(id: Id, sha: nat, chars: nat)

  datatype Snapshot = Snapshot(messageCount: nat, hash: nat)

  datatype Checkpoint = Checkpoint(id: Id, labelLength: nat, session: string, origin: Id, snapshot: Snapshot)

  datatype Cause = Pressure | WarmBreakEven | Cold | Manual | Agent | NoCause

  datatype Control =
    | CheckpointControl(checkpoint: Checkpoint)
    | TrimControl(references: seq<Id>, archives: seq<Archive>, cause: Cause)
    | RewindControl(references: seq<Id>, archives: seq<Archive>)
    | Malformed

  datatype Entry =
    | MessageEntry(id: Id, message: Message, anchor: bool)
    | CustomEntry(id: Id, message: Message, anchor: bool)
    | ContextEdit(id: Id, target: Id, replacement: Option<string>)
    | ControlEntry(id: Id, control: Control)
    | Compaction(id: Id)
    | BranchSummary(id: Id)
    | OtherEntry(id: Id)

  const MAX_CONTEXT_EDITS := 512
  const MAX_ID_LENGTH := 128
  const MAX_LABEL_LENGTH := 120

  /** A control record with a field out of bounds reads as no record at all. */
  predicate ValidControl(c: Control) {
    match c
    case CheckpointControl(cp) =>
      |cp.id| <= MAX_ID_LENGTH && cp.labelLength <= MAX_LABEL_LENGTH && |cp.origin| <= MAX_ID_LENGTH
    case TrimControl(refs, archives, _) => ValidRecord(refs, archives)
    case RewindControl(refs, archives) => ValidRecord(refs, archives)
    case Malformed => false
  }

  predicate ValidRecord(refs: seq<Id>, archives: seq<Archive>) {
    && |refs| <= MAX_CONTEXT_EDITS
    && (forall i | 0 <= i < |refs| :: |refs[i]| <= MAX_ID_LENGTH)
    && |archives| <= MAX_CONTEXT_EDITS
    && (forall i | 0 <= i < |archives| :: |archives[i].id| <= MAX_ID_LENGTH)
  }

  function ControlOf(e: Entry): Option<Control> {
    if e.ControlEntry? && ValidControl(e.control) then Some(e.control) else None
  }

  predicate UniqueIds(b: seq<Entry>) {
    forall i, j | 0 <= i < j < |b| :: b[i].id != b[j].id
  }

  predicate HasId(b: seq<Entry>, id: Id) {
    exists i | 0 <= i < |b| :: b[i].id == id
  }

  /** The position of the first entry with this id, |b| when there is none. */
  function IndexOf(b: seq<Entry>, id: Id): (i: nat)
    ensures i <= |b|
    ensures i < |b| ==> b[i].id == id
    ensures forall j | 0 <= j < i :: b[j].id != id
  {
    if b == [] then 0
    else if b[0].id == id then 0
    else 1 + IndexOf(b[1..], id)
  }

  lemma IndexOfUnique(b: seq<Entry>, i: nat)
    requires UniqueIds(b) && i < |b|
    ensures IndexOf(b, b[i].id) == i
  {
    assert i <= IndexOf(b, b[i].id) ==> IndexOf(b, b[i].id) == i;
  }

  /** The host's and the library's pure services, opaque to the model. */
  datatype Host = Host(
    digest: string -> nat,                  // content digest
    fingerprint: seq<Projected> -> nat,     // digest of a projected prefix
    estimate: Message -> nat,               // token estimate of one message
    clean: string -> string,                // one line without control characters or runs of blanks
    highSurrogate: char -> bool,            // first half of a surrogate pair
    markerHead: Message -> Id -> string,    // retrieval line of a marker
    markerLines: Message -> nat -> seq<string> // digest lines of a marker, by supersession rank
  )

  // ---------------------------------------------------------------- projection

  datatype Projected = Projected(source: Entry, message: Message)

  /** The newest edit aimed at id: no edit, a removal (Some(None)) or new text. */
  function NewestEdit(b: seq<Entry>, id: Id): Option<Option<string>> {
    if b == [] then None
    else
      var e := b[|b| - 1];
      if e.ContextEdit? && e.target == id then Some(e.replacement) else NewestEdit(b[..|b| - 1], id)
  }

  function WithText(m: Message, text: string): Message {
    match m
    case User(_) => User(Content(text, true))
    case Assistant(_, finished, _, _) => Assistant(Content(text, true), finished, [], false)
    case ToolResult(callId, _, isError, mesh) => ToolResult(callId, Content(text, true), isError, mesh)
    case Custom(customType, _, notice) => Custom(customType, Content(text, true), notice)
  }

  predicate Shows(e: Entry) {
    e.MessageEntry? || e.CustomEntry?
  }

  function Show(e: Entry, edit: Option<Option<string>>): seq<Projected> {
    if !Shows(e) then []
    else match edit
      case None => [Projected(e, e.message)]
      case Some(None) => []
      case Some(Some(text)) => [Projected(e, WithText(e.message, text))]
  }

  /** The projection of entries es under the edits recorded in branch b. */
  function ProjectUnder(es: seq<Entry>, b: seq<Entry>): seq<Projected> {
    if es == [] then []
    else Show(es[0], NewestEdit(b, es[0].id)) + ProjectUnder(es[1..], b)
  }

  function Project(b: seq<Entry>): seq<Projected> {
    ProjectUnder(b, b)
  }

  predicate UniqueSources(p: seq<Projected>) {
    forall i, j | 0 <= i < j < |p| :: p[i].source.id != p[j].source.id
  }

  lemma {:induction false} NewestEditAppend(b: seq<Entry>, tail: seq<Entry>, id: Id)
    ensures NewestEdit(b + tail, id)
            == if NewestEdit(tail, id).Some? then NewestEdit(tail, id) else NewestEdit(b, id)
  {
    if tail == [] {
      assert b + tail == b;
    } else {
      assert (b + tail)[..|b + tail| - 1] == b + tail[..|tail| - 1];
      NewestEditAppend(b, tail[..|tail| - 1], id);
    }
  }

  lemma {:induction false} NewestEditAbsent(b: seq<Entry>, id: Id)
    ensures NewestEdit(b, id).None? <==> forall i | 0 <= i < |b| && b[i].ContextEdit? :: b[i].target != id
  {
    if b != [] {
      NewestEditAbsent(b[..|b| - 1], id);
      assert forall i | 0 <= i < |b| - 1 :: b[i] == b[..|b| - 1][i];
    }
  }

  lemma {:induction false} ProjectUnderConcat(xs: seq<Entry>, ys: seq<Entry>, b: seq<Entry>)
    ensures ProjectUnder(xs + ys, b) == ProjectUnder(xs, b) + ProjectUnder(ys, b)
  {
    if xs == [] {
      assert xs + ys == ys;
    } else {
      assert (xs + ys)[1..] == xs[1..] + ys;
      ProjectUnderConcat(xs[1..], ys, b);
    }
  }

  /** Every projected message comes from an entry of es that shows, under its newest edit,
      and sources keep the order of es. */
  lemma {:induction false} ProjectSource(es: seq<Entry>, b: seq<Entry>, k: nat) returns (i: nat)
    requires k < |ProjectUnder(es, b)|
    ensures i < |es| && k <= i
    ensures var p := ProjectUnder(es, b)[k];
            p.source == es[i] && Show(es[i], NewestEdit(b, es[i].id)) == [p]
    ensures ProjectUnder(es[..i], b) == ProjectUnder(es, b)[..k]
  {
    var head := Show(es[0], NewestEdit(b, es[0].id));
    if k < |head| {
      i := 0;
      assert es[..0] == [];
    } else {
      var j := ProjectSource(es[1..], b, k - |head|);
      i := j + 1;
      assert es[..i] == [es[0]] + es[1..][..j];
      assert es[..i][0] == es[0] && es[..i][1..] == es[1..][..j];
    }
  }

  lemma {:induction false} ProjectUniqueSources(es: seq<Entry>, b: seq<Entry>)
    requires UniqueIds(es)
    ensures UniqueSources(ProjectUnder(es, b))
  {
    if es != [] {
      var rest := ProjectUnder(es[1..], b);
      ProjectUniqueSources(es[1..], b);
      forall k | 0 <= k < |rest| ensures rest[k].source.id != es[0].id {
        var i := ProjectSource(es[1..], b, k);
      }
    }
  }

  /** An entry that shows and is not removed is in the projection. */
  lemma {:induction false} ProjectShows(es: seq<Entry>, b: seq<Entry>, i: nat) returns (k: nat)
    requires i < |es| && Shows(es[i]) && NewestEdit(b, es[i].id) != Some(None)
    ensures k < |ProjectUnder(es, b)| && ProjectUnder(es, b)[k].source == es[i]
  {
    var head := Show(es[0], NewestEdit(b, es[0].id));
    if i == 0 {
      k := 0;
    } else {
      var j := ProjectShows(es[1..], b, i - 1);
      k := |head| + j;
    }
  }

  // ---------------------------------------------------------------- appended drafts

  /** What a plan asks the host to append; the host gives each draft its entry id. */
  datatype Draft =
    | EditDraft(target: Id, replacement: Option<string>)
    | ControlDraft(control: Control)
    | ReportDraft(content: string)

  function Stamp(d: Draft, id: Id): Entry {
    match d
    case EditDraft(target, replacement) => ContextEdit(id, target, replacement)
    case ControlDraft(control) => ControlEntry(id, control)
    case ReportDraft(content) =>
      CustomEntry(id, Custom("smart-compact-rewind", Content(content, true), NoNotice), false)
  }

  function StampAll(ds: seq<Draft>, ids: seq<Id>): (r: seq<Entry>)
    requires |ds| == |ids|
  {
    seq(|ds|, i requires 0 <= i < |ds| => Stamp(ds[i], ids[i]))
  }

  lemma StampAppend(ds: seq<Draft>, d: Draft, ids: seq<Id>)
    requires |ids| == |ds| + 1
    ensures StampAll(ds + [d], ids) == StampAll(ds, ids[..|ds|]) + [Stamp(d, ids[|ds|])]
  {
  }

  /** The replacement the drafts hold for id, the last one when there are several. */
  function DraftEdit(ds: seq<Draft>, id: Id): Option<Option<string>> {
    if ds == [] then None
    else
      var d := ds[|ds| - 1];
      if d.EditDraft? && d.target == id then Some(d.replacement) else DraftEdit(ds[..|ds| - 1], id)
  }

  lemma {:induction false} StampedEdit(ds: seq<Draft>, ids: seq<Id>, id: Id)
    requires |ds| == |ids|
    ensures NewestEdit(StampAll(ds, ids), id) == DraftEdit(ds, id)
  {
    if ds != [] {
      var n := |ds| - 1;
      var all := StampAll(ds, ids);
      StampedEdit(ds[..n], ids[..n], id);
      assert all[..n] == StampAll(ds[..n], ids[..n]);
    }
  }

  lemma {:induction false} DraftEditAbsent(ds: seq<Draft>, id: Id)
    ensures DraftEdit(ds, id).None? <==> forall i | 0 <= i < |ds| && ds[i].EditDraft? :: ds[i].target != id
  {
    if ds != [] {
      DraftEditAbsent(ds[..|ds| - 1], id);
      assert forall i | 0 <= i < |ds| - 1 :: ds[i] == ds[..|ds| - 1][i];
    }
  }

  lemma {:induction false} DraftEditWitness(ds: seq<Draft>, id: Id)
    requires DraftEdit(ds, id).Some?
    ensures EditDraft(id, DraftEdit(ds, id).value) in ds
  {
    var d := ds[|ds| - 1];
    if d.EditDraft? && d.target == id {
      assert d in ds;
    } else {
      DraftEditWitness(ds[..|ds| - 1], id);
      assert forall x | x in ds[..|ds| - 1] :: x in ds;
    }
  }

  lemma {:induction false} DraftEditConcat(xs: seq<Draft>, ys: seq<Draft>, id: Id)
    ensures DraftEdit(xs + ys, id) == if DraftEdit(ys, id).Some? then DraftEdit(ys, id) else DraftEdit(xs, id)
  {
    if ys == [] {
      assert xs + ys == xs;
    } else {
      assert (xs + ys)[..|xs + ys| - 1] == xs + ys[..|ys| - 1];
      DraftEditConcat(xs, ys[..|ys| - 1], id);
    }
  }

  // ---------------------------------------------------------------- effect of drafts on a projection

  /** A projection with the drafts applied to it. */
  function Overlay(p: seq<Projected>, ds: seq<Draft>): seq<Projected> {
    if p == [] then []
    else
      (match DraftEdit(ds, p[0].source.id)
       case None => [p[0]]
       case Some(None) => []
       case Some(Some(text)) => [Projected(p[0].source, WithText(p[0].message, text))])
      + Overlay(p[1..], ds)
  }

  /** No draft brings a removed entry back. */
  predicate RevivesNothing(b: seq<Entry>, ds: seq<Draft>) {
    forall i | 0 <= i < |b| && NewestEdit(b, b[i].id) == Some(None) ::
      DraftEdit(ds, b[i].id) == None || DraftEdit(ds, b[i].id) == Some(None)
  }

  lemma {:induction false} OverlayConcat(p: seq<Projected>, q: seq<Projected>, ds: seq<Draft>)
    ensures Overlay(p + q, ds) == Overlay(p, ds) + Overlay(q, ds)
  {
    if p == [] {
      assert p + q == q;
    } else {
      assert (p + q)[1..] == p[1..] + q;
      OverlayConcat(p[1..], q, ds);
    }
  }

  lemma OverlayShow(e: Entry, edit: Option<Option<string>>, ds: seq<Draft>)
    requires edit == Some(None) ==> DraftEdit(ds, e.id) == None || DraftEdit(ds, e.id) == Some(None)
    ensures Overlay(Show(e, edit), ds) == Show(e, if DraftEdit(ds, e.id).Some? then DraftEdit(ds, e.id) else edit)
  {
    var head := Show(e, edit);
    if |head| == 1 {
      assert Overlay(head[1..], ds) == [];
    }
  }

  lemma {:induction false} ProjectOldEntries(es: seq<Entry>, b: seq<Entry>, ds: seq<Draft>, ids: seq<Id>)
    requires |ds| == |ids|
    requires forall i | 0 <= i < |es| && NewestEdit(b, es[i].id) == Some(None) ::
               DraftEdit(ds, es[i].id) == None || DraftEdit(ds, es[i].id) == Some(None)
    ensures ProjectUnder(es, b + StampAll(ds, ids)) == Overlay(ProjectUnder(es, b), ds)
  {
    if es != [] {
      var e := es[0];
      var tail := StampAll(ds, ids);
      NewestEditAppend(b, tail, e.id);
      StampedEdit(ds, ids, e.id);
      ProjectOldEntries(es[1..], b, ds, ids);
      var edit := NewestEdit(b, e.id);
      OverlayShow(e, edit, ds);
      OverlayConcat(Show(e, edit), ProjectUnder(es[1..], b), ds);
      assert ProjectUnder(es, b) == Show(e, edit) + ProjectUnder(es[1..], b);
    }
  }

  /** Committing drafts applies them to what the branch showed; new entries come after. */
  lemma ProjectCommitted(b: seq<Entry>, ds: seq<Draft>, ids: seq<Id>)
    requires |ds| == |ids| && RevivesNothing(b, ds)
    ensures var after := b + StampAll(ds, ids);
            Project(after) == Overlay(Project(b), ds) + ProjectUnder(StampAll(ds, ids), after)
  {
    var tail := StampAll(ds, ids);
    ProjectUnderConcat(b, tail, b + tail);
    ProjectOldEntries(b, b, ds, ids);
  }
}
