/** The gap between the conflict check and the patch: which writes can fall into it, and what the
    patch then meets. */
module CatalogerGap {
  import opened Common
  import opened Documents
  import opened Errors
  import opened Tasks
  import opened Patches
  import opened Updater
  import opened Cataloger
  import opened CatalogerWalk
  import opened CatalogerConflicts
  import opened CatalogerTheorems

  /** How often anybody else writes the document. */
  function ForeignWrites(actions: seq<Action>, id: int64): nat {
    if actions == [] then 0
    else ForeignWrites(actions[1..], id) + if IsForeignWrite(actions[0], id) then 1 else 0
  }

  predicate IsForeignWrite(a: Action, id: int64) {
    a.ForeignWrite? && a.id == id
  }

  /** While a handler can still send a patch, every version after the listed one is one of the c
      foreign writes. */
  predicate Counted(s: State, h: nat, id: int64, c: nat) {
    && h < s.nextHandler
    && (h in s.handlers ==>
          var x := s.handlers[h];
          && x.Id() == id && id in s.server
          && (|s.server[id].past| == x.listed.number + c || Overtaken(s, h) || (x.pc.Busy? && x.pc.at.Saving?)))
  }

  lemma ForeignWriteCounts(s: State, h: nat, id: int64, c: nat, i: int64, doc: Document, metadata: Metadata)
    requires Counted(s, h, id, c)
    ensures Counted(DoForeignWrite(s, i, doc, metadata), h, id, c + if i == id then 1 else 0)
  {
    hide Overtaken;
    var t := DoForeignWrite(s, i, doc, metadata);
    if h in s.handlers && Overtaken(s, h) {
      GrownServerStaysOvertaken(s, t, h);
    }
  }

  /** A handler writes no document but its own. */
  lemma MoveWritesOwn(cfg: Config, s: State, h: nat, m: Move, id: int64)
    requires CanMove(s, h, m) && s.handlers[h].Id() != id && id in s.server
    ensures var t := DoMove(cfg, s, h, m); id in t.server && t.server[id] == s.server[id]
  {
    hide Gate, DocumentKey, CompareSnapshots, NewSnapshot, Start, OnSendError, Apply;
  }

  lemma OtherMoveCounts(cfg: Config, s: State, h: nat, id: int64, c: nat, g: nat, m: Move)
    requires Counted(s, h, id, c) && Exclusive(cfg, s) && CanMove(s, g, m) && g != h
    ensures Counted(DoMove(cfg, s, g, m), h, id, c)
  {
    hide Overtaken, DoMove, Exclusive;
    MoveIsLocal(cfg, s, g, m);
    if h in s.handlers {
      OtherDocument(cfg, s, g, h);
      MoveWritesOwn(cfg, s, g, m, id);
      if Overtaken(s, h) {
        OtherMoveStaysOvertaken(cfg, s, h, g, m);
      }
    }
  }

  lemma OtherDocument(cfg: Config, s: State, g: nat, h: nat)
    requires Exclusive(cfg, s) && g in s.handlers && h in s.handlers && g != h
    ensures s.handlers[g].Id() != s.handlers[h].Id()
  {
  }

  /** The patch request failed although the server carried it out: the attempt cannot patch again. */
  lemma AppliedPatchOvertakes(cfg: Config, s: State, h: nat, e: Error, modified: Instant)
    requires CanMove(s, h, PatchFails(e, Some(modified))) && h < s.nextHandler
    requires s.handlers[h].listed.number <= |s.server[s.handlers[h].Id()].past|
    ensures Overtaken(DoSendError(cfg, AfterFailedPatch(s, h, Some(modified)), h, s.handlers[h].pc.at.stage, e), h)
  {
    hide OnSendError, Apply;
  }

  /** A move that writes nothing and does not end the attempt. */
  lemma OwnReadCounts(cfg: Config, s: State, h: nat, id: int64, c: nat, m: Move)
    requires h in s.handlers && s.handlers[h].Id() == id && id in s.server && h < s.nextHandler
    requires CanMove(s, h, m) && |s.server[id].past| == s.handlers[h].listed.number + c
    requires !m.SendPatch? && !(m.PatchFails? && m.applied.Some?)
    ensures Counted(DoMove(cfg, s, h, m), h, id, c)
  {
    hide Overtaken, Gate, DocumentKey, CompareSnapshots, NewSnapshot, Start, OnSendError, DoSave;
  }

  lemma OwnMoveCounts(cfg: Config, s: State, h: nat, id: int64, c: nat, m: Move)
    requires Counted(s, h, id, c) && Tracking(s) && CanMove(s, h, m)
    ensures Counted(DoMove(cfg, s, h, m), h, id, c)
  {
    hide Tracking, DoReadMetadata, DoExtract, DoPassGate, DoSendError, DoSave;
    if Overtaken(s, h) {
      OwnMoveStaysOvertaken(cfg, s, h, m);
    } else if s.handlers[h].pc.Busy? && s.handlers[h].pc.at.Saving? {
      assert m.Save? || m.SaveFails?;
    } else if m.SendPatch? {
    } else if m.PatchFails? && m.applied.Some? {
      AppliedPatchOvertakes(cfg, s, h, m.e, m.applied.value);
    } else {
      OwnReadCounts(cfg, s, h, id, c, m);
    }
  }

  lemma QuietStepCounts(s: State, t: State, h: nat, id: int64, c: nat)
    requires Counted(s, h, id, c) && t.server == s.server && s.nextHandler <= t.nextHandler
    requires h in t.handlers ==> h in s.handlers && (t.handlers[h] == s.handlers[h] || t.handlers[h] == Tainted(s.handlers[h]))
    ensures Counted(t, h, id, c)
  {
    hide Overtaken;
    if h in t.handlers && Overtaken(s, h) {
      GrownServerStaysOvertaken(s, t, h);
    }
  }

  lemma StepCounts(cfg: Config, s: State, a: Action, h: nat, id: int64, c: nat)
    requires Counted(s, h, id, c) && Tracking(s) && Exclusive(cfg, s) && Enabled(cfg, s, a)
    ensures Counted(Do(cfg, s, a), h, id, c + if IsForeignWrite(a, id) then 1 else 0)
  {
    hide Counted, Tracking, Exclusive, DoMove, DoForeignWrite, CanMove;
    match a
    case ForeignWrite(i, doc, m) => ForeignWriteCounts(s, h, id, c, i, doc, m);
    case HandlerStep(g, m) =>
      if g == h {
        OwnMoveCounts(cfg, s, h, id, c, m);
      } else {
        OtherMoveCounts(cfg, s, h, id, c, g, m);
      }
    case Deliver => DeliverCounts(s, h, id, c);
    case _ => QuietStepCounts(s, Do(cfg, s, a), h, id, c);
  }

  lemma DeliverCounts(s: State, h: nat, id: int64, c: nat)
    requires Counted(s, h, id, c) && s.page != []
    ensures Counted(DoDeliver(s), h, id, c)
  {
    hide Counted, Overtaken;
    CountedBelow(s, h, id, c);
    QuietStepCounts(s, DoDeliver(s), h, id, c);
  }

  lemma CountedBelow(s: State, h: nat, id: int64, c: nat)
    requires Counted(s, h, id, c)
    ensures h < s.nextHandler
  {
  }

  lemma {:induction false} RunCounts(cfg: Config, s0: State, actions: seq<Action>, s: State, h: nat, id: int64, c: nat)
    requires Inv(cfg, s0) && Counted(s0, h, id, c) && Runs(cfg, s0, actions, s)
    ensures Inv(cfg, s) && Counted(s, h, id, c + ForeignWrites(actions, id))
    decreases |actions|
  {
    hide Do, Enabled, Counted, IsForeignWrite, Exclusive, Tracking, Inv;
    if actions != [] {
      InvParts(cfg, s0);
      StepInv(cfg, s0, actions[0]);
      StepCounts(cfg, s0, actions[0], h, id, c);
      RunCounts(cfg, Do(cfg, s0, actions[0]), actions[1..], s, h, id,
                c + if IsForeignWrite(actions[0], id) then 1 else 0);
    }
  }

  /** From any reachable state in which a handler is at its document's present version: whenever
      it gets to send a patch, the versions between the one it checked and the one the patch meets
      are exactly the foreign writes of the run. None of them can come before the last read of the
      check, so all of them fell into the gap. */
  lemma GapHoldsForeignWrites(cfg: Config, s: State, h: nat, actions: seq<Action>, t: State, modified: Instant)
    requires Reachable(cfg, s) && h in s.handlers && s.handlers[h].Id() in s.server
    requires s.handlers[h].listed.number == |s.server[s.handlers[h].Id()].past|
    requires Runs(cfg, s, actions, t) && CanMove(t, h, SendPatch(modified))
    ensures var id := s.handlers[h].Id();
            && t.handlers[h].Id() == id
            && |t.server[id].past| == t.handlers[h].pc.at.number + ForeignWrites(actions, id)
  {
    hide Reachable, Runs, Exclusive, Tracking, Inv, Counted, CanMove;
    var id := s.handlers[h].Id();
    ReachableInv(cfg, s);
    InvParts(cfg, s);
    HandlerIsOld(cfg, s, h);
    assert Counted(s, h, id, 0) by {
      StartsCounted(s, h);
    }
    RunCounts(cfg, s, actions, t, h, id, 0);
    InvParts(cfg, t);
    CountedAtPatch(t, h, id, ForeignWrites(actions, id), modified);
  }

  lemma StartsCounted(s: State, h: nat)
    requires h in s.handlers && h < s.nextHandler && s.handlers[h].Id() in s.server
    requires s.handlers[h].listed.number == |s.server[s.handlers[h].Id()].past|
    ensures Counted(s, h, s.handlers[h].Id(), 0)
  {
    hide Overtaken;
  }

  lemma CountedAtPatch(s: State, h: nat, id: int64, c: nat, modified: Instant)
    requires Counted(s, h, id, c) && Tracking(s) && CanMove(s, h, SendPatch(modified))
    ensures s.handlers[h].Id() == id && |s.server[id].past| == s.handlers[h].pc.at.number + c
  {
    assert HandlerTracks(s.server[id], s.handlers[h]);
  }

  lemma HandlerIsOld(cfg: Config, s: State, h: nat)
    requires Exclusive(cfg, s) && h in s.handlers
    ensures h < s.nextHandler
  {
  }

  /** So the patch meets the version it was checked against and computed from exactly when the run
      holds no foreign write of the document. */
  lemma PatchMeetsCheckedIff(cfg: Config, s: State, h: nat, actions: seq<Action>, t: State, modified: Instant)
    requires Reachable(cfg, s) && h in s.handlers && s.handlers[h].Id() in s.server
    requires s.handlers[h].listed.number == |s.server[s.handlers[h].Id()].past|
    requires Runs(cfg, s, actions, t) && CanMove(t, h, SendPatch(modified))
    ensures var id := s.handlers[h].Id();
            t.handlers[h].pc.at.number == |t.server[t.handlers[h].Id()].past| <==> forall i | 0 <= i < |actions| :: !IsForeignWrite(actions[i], id)
  {
    hide Reachable, Runs, CanMove;
    GapHoldsForeignWrites(cfg, s, h, actions, t, modified);
    NoForeignWrites(actions, s.handlers[h].Id());
  }

  lemma {:induction false} NoForeignWrites(actions: seq<Action>, id: int64)
    ensures ForeignWrites(actions, id) == 0 <==> forall i | 0 <= i < |actions| :: !IsForeignWrite(actions[i], id)
    decreases |actions|
  {
    if actions != [] {
      NoForeignWrites(actions[1..], id);
      assert forall i | 1 <= i < |actions| :: actions[i] == actions[1..][i - 1];
    }
  }

  // ---------------------------------------------------------------- where the gap begins

  /** The state after a foreign write and the second request of the check. */
  ghost function CheckedAfterWrite(cfg: Config, s: State, h: nat, doc: Document, metadata: Metadata): State
    requires CanMove(s, h, ReadMetadata) && doc.id == s.handlers[h].Id()
  {
    DoReadMetadata(cfg, DoForeignWrite(s, doc.id, doc, metadata), h)
  }

  lemma CheckIgnoresWrite(cfg: Config, s: State, h: nat, doc: Document, metadata: Metadata)
    requires CanMove(s, h, ReadMetadata) && doc.id == s.handlers[h].Id()
    requires NewSnapshot(s.handlers[h].pc.at.current, metadata) == NewSnapshot(s.handlers[h].listed.doc, s.handlers[h].pc.job.metadata)
    ensures var x, t := s.handlers[h], CheckedAfterWrite(cfg, s, h, doc, metadata);
            && h in t.handlers && t.handlers[h].Id() == doc.id && doc.id in t.server
            && t.handlers[h].pc.Busy? && t.handlers[h].pc.at == Patching(x.pc.at.stage, x.pc.at.patch, x.pc.at.number)
            && |t.server[doc.id].past| == |s.server[doc.id].past| + 1
  {
    hide LocalTo, KeepsHandlers, SameRecords, OnSendError;
  }

  lemma PatchReplacesTags(s: State, h: nat, modified: Instant)
    requires CanMove(s, h, SendPatch(modified)) && s.handlers[h].pc.at.patch.tags.Some?
    ensures DoSendPatch(s, h, modified).server[s.handlers[h].Id()].doc.tags == s.handlers[h].pc.at.patch.tags.value
  {
  }

  /** The gap begins with the first request of the check: a write after it that keeps the
      checksums, even if it changes everything else, passes the check, and the patch then replaces
      the tags of a version that was never read. */
  lemma GapBeginsAtRead(cfg: Config, s: State, h: nat, doc: Document, metadata: Metadata, modified: Instant)
    requires Reachable(cfg, s) && CanMove(s, h, ReadMetadata) && doc.id == s.handlers[h].Id()
    requires s.handlers[h].pc.at.number == s.handlers[h].listed.number
    requires var m := s.handlers[h].pc.job.metadata;
             && metadata.originalChecksum == m.originalChecksum
             && metadata.hasArchiveVersion == m.hasArchiveVersion && metadata.archiveChecksum == m.archiveChecksum
    ensures var p, t := s.handlers[h].pc.at.patch, CheckedAfterWrite(cfg, s, h, doc, metadata);
            && CanMove(t, h, SendPatch(modified))
            && t.handlers[h].pc.at.number < |t.server[doc.id].past|
            && (p.tags.Some? ==> DoSendPatch(t, h, modified).server[doc.id].doc.tags == p.tags.value)
  {
    hide Reachable, CheckedAfterWrite, Exclusive, Inv, DoSendPatch;
    ReachableInv(cfg, s);
    InvParts(cfg, s);
    var x, sd := s.handlers[h], s.server[s.handlers[h].Id()];
    assert HandlerTracks(sd, x);
    assert x.pc.at.current == x.listed.doc;
    CheckIgnoresWrite(cfg, s, h, doc, metadata);
    var t := CheckedAfterWrite(cfg, s, h, doc, metadata);
    if x.pc.at.patch.tags.Some? {
      PatchReplacesTags(t, h, modified);
    }
  }
}
