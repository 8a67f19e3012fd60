/** Which edit sets signed thinking refuses, and what an accepted one keeps. */
module Thinking {
  // Signed thinking may bind the whole history before it, so an edit set is refused when it changes
  // anything at or before a signed message it keeps.

  import opened Wrappers
  import opened Branch

  datatype Reader = AnthropicReader | UnspecifiedReader | OtherReader

  predicate Signed(m: Message) {
    m.Assistant? && m.signed
  }

  function Removed(ds: seq<Draft>, id: Id): bool {
    DraftEdit(ds, id) == Some(None)
  }

  function BlockedFrom(p: seq<Projected>, k: nat, changed: bool, ds: seq<Draft>): bool
    requires k <= |p|
    decreases |p| - k
  {
    if k == |p| then false
    else
      var id := p[k].source.id;
      var hit := DraftEdit(ds, id).Some?;
      if hit && Removed(ds, id) then BlockedFrom(p, k + 1, true, ds)
      else if (changed || hit) && Signed(p[k].message) then true
      else BlockedFrom(p, k + 1, changed || hit, ds)
  }

  /** Whether the edits would invalidate retained signed thinking. */
  function ThinkingBlocks(p: seq<Projected>, ds: seq<Draft>, reader: Reader): bool {
    !reader.OtherReader? && BlockedFrom(p, 0, false, ds)
  }

  method ThinkingEditReason(p: seq<Projected>, ds: seq<Draft>, reader: Reader) returns (blocked: bool)
    ensures blocked == ThinkingBlocks(p, ds, reader)
  {
    if reader.OtherReader? { return false; }
    var changed := false;
    for k := 0 to |p|
      invariant BlockedFrom(p, k, changed, ds) == BlockedFrom(p, 0, false, ds)
    {
      var edit := DraftEdit(ds, p[k].source.id);
      if edit.Some? {
        changed := true;
        if edit.value == None { continue; }
      }
      if changed && Signed(p[k].message) { return true; }
    }
    return false;
  }

  /** Message k is signed, kept, and something at or before it is edited. */
  predicate Disturbs(p: seq<Projected>, ds: seq<Draft>, k: nat, i: nat)
    requires i <= k < |p|
  {
    Signed(p[k].message) && !Removed(ds, p[k].source.id) && DraftEdit(ds, p[i].source.id).Some?
  }

  lemma {:induction false} BlockedFromExactly(p: seq<Projected>, k: nat, changed: bool, ds: seq<Draft>)
    requires k <= |p| && (changed <==> exists i :: 0 <= i < k && DraftEdit(ds, p[i].source.id).Some?)
    ensures BlockedFrom(p, k, changed, ds) <==> exists j, i :: 0 <= i <= j < |p| && k <= j && Disturbs(p, ds, j, i)
    decreases |p| - k
  {
    if k < |p| {
      var hit := DraftEdit(ds, p[k].source.id).Some?;
      if hit {
        assert exists i :: 0 <= i < k + 1 && DraftEdit(ds, p[i].source.id).Some?;
      }
      BlockedFromExactly(p, k + 1, changed || hit, ds);
      if Signed(p[k].message) && !Removed(ds, p[k].source.id) && (changed || hit) {
        var i :| 0 <= i < k + 1 && DraftEdit(ds, p[i].source.id).Some?;
        assert Disturbs(p, ds, k, i);
      }
    }
  }

  /** An edit set is refused exactly when it edits something at or before a signed message
      that it keeps. */
  lemma BlockedExactly(p: seq<Projected>, ds: seq<Draft>, reader: Reader)
    ensures ThinkingBlocks(p, ds, reader)
            <==> !reader.OtherReader? && exists k, i :: 0 <= i <= k < |p| && Disturbs(p, ds, k, i)
  {
    BlockedFromExactly(p, 0, false, ds);
  }

  lemma {:induction false} OverlayUntouched(p: seq<Projected>, ds: seq<Draft>, n: nat)
    requires n <= |p| && forall i | 0 <= i < n :: DraftEdit(ds, p[i].source.id).None?
    ensures p[..n] <= Overlay(p, ds)
  {
    if n > 0 {
      OverlayUntouched(p[1..], ds, n - 1);
      assert p[..n] == [p[0]] + p[1..][..n - 1];
    }
  }

  /** When an edit set is accepted, every signed message it keeps has the same projected
      prefix, itself included, before and after the edits are committed. */
  lemma AcceptedKeepsPrefix(b: seq<Entry>, ds: seq<Draft>, ids: seq<Id>, reader: Reader, k: nat)
    requires |ds| == |ids| && RevivesNothing(b, ds)
    requires !reader.OtherReader? && !ThinkingBlocks(Project(b), ds, reader)
    requires k < |Project(b)| && Signed(Project(b)[k].message) && !Removed(ds, Project(b)[k].source.id)
    ensures Project(b)[..k + 1] <= Project(b + StampAll(ds, ids))
  {
    var p := Project(b);
    BlockedExactly(p, ds, reader);
    forall i | 0 <= i < k + 1 ensures DraftEdit(ds, p[i].source.id).None? {
      assert !Disturbs(p, ds, k, i);
    }
    OverlayUntouched(p, ds, k + 1);
    ProjectCommitted(b, ds, ids);
  }

  /** Edits that only touch what follows the last signed message are never the reason for
      a refusal. */
  lemma LateEditsDoNotBlock(p: seq<Projected>, ds: seq<Draft>, fewer: seq<Draft>, reader: Reader)
    requires forall i | 0 <= i < |p| ::
               || DraftEdit(ds, p[i].source.id) == DraftEdit(fewer, p[i].source.id)
               || (DraftEdit(fewer, p[i].source.id).None? && forall k | i <= k < |p| :: !Signed(p[k].message))
    ensures ThinkingBlocks(p, ds, reader) <==> ThinkingBlocks(p, fewer, reader)
  {
    BlockedExactly(p, ds, reader);
    BlockedExactly(p, fewer, reader);
    forall k, i | 0 <= i <= k < |p| ensures Disturbs(p, ds, k, i) <==> Disturbs(p, fewer, k, i) {
    }
  }
}
