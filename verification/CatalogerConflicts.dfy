/** Conflict safety: which version a patch was computed from, checked against and applied to. */
module CatalogerConflicts {
  import opened Common
  import opened Documents
  import opened Errors
  import opened Tasks
  import opened Patches
  import opened Updater
  import opened Cataloger
  import opened CatalogerWalk

  /** The listed document is the version of that number, and no later version was modified at
      the same time. */
  predicate Tracks(sd: ServerDoc, l: Listed) {
    && l.number <= |sd.past|
    && sd.Version(l.number) == l.doc
    && forall i | l.number < i <= |sd.past| :: sd.Version(i).modified != l.doc.modified
  }

  predicate HandlerTracks(sd: ServerDoc, x: Handler) {
    && sd.doc.id == x.Id()
    && (x.pc.Unpatched() ==> Tracks(sd, x.listed))
    && (x.pc.Busy? && x.pc.at.CheckingMetadata? ==>
          x.listed.number <= x.pc.at.number <= |sd.past| && sd.Version(x.pc.at.number) == x.pc.at.current)
    && (x.pc.Busy? && x.pc.at.Patching? ==> x.pc.at.number == x.listed.number)
  }

  predicate HandlersTrack(s: State) {
    forall h | h in s.handlers ::
      s.handlers[h].Id() in s.server && HandlerTracks(s.server[s.handlers[h].Id()], s.handlers[h])
  }

  predicate PageTracks(s: State) {
    forall i | 0 <= i < |s.page| ::
      s.page[i].doc.id in s.server && (s.page[i].doc.id !in s.seen ==> Tracks(s.server[s.page[i].doc.id], s.page[i]))
  }

  /** The listed copies, waiting or with a handler, are versions the server had, and handlers
      check and patch against the version they were given. */
  predicate Tracking(s: State) {
    && (forall id | id in s.server :: s.server[id].doc.id == id)
    && PageTracks(s)
    && HandlersTrack(s)
  }

  // ---------------------------------------------------------------- steps

  lemma WriteKeepsTracks(sd: ServerDoc, l: Listed, next: Document, metadata: Metadata)
    requires Tracks(sd, l) && sd.Unused(next.modified)
    ensures Tracks(sd.Write(next, metadata), l)
  {
    var sd' := sd.Write(next, metadata);
    assert forall i | 0 <= i <= |sd.past| :: sd'.Version(i) == sd.Version(i);
    assert sd.Version(l.number).modified != next.modified;
  }

  lemma WriteKeepsHandler(sd: ServerDoc, x: Handler, next: Document, metadata: Metadata)
    requires HandlerTracks(sd, x) && sd.Unused(next.modified) && next.id == sd.doc.id
    ensures HandlerTracks(sd.Write(next, metadata), x)
    ensures HandlerTracks(sd.Write(next, metadata), Tainted(x))
  {
    if x.pc.Unpatched() {
      WriteKeepsTracks(sd, x.listed, next, metadata);
    }
  }

  lemma LocalStepTracks(s: State, t: State, h: nat)
    requires Tracking(s) && LocalTo(s, t, h) && t.server == s.server
    requires h in t.handlers ==> HandlerTracks(s.server[s.handlers[h].Id()], t.handlers[h])
    ensures Tracking(t)
  {
  }

  lemma SendErrorTracks(cfg: Config, s: State, h: nat, stage: Stage, e: Error)
    requires Tracking(s) && h in s.handlers && s.handlers[h].pc.Busy? && s.handlers[h].pc.Unpatched()
    ensures Tracking(DoSendError(cfg, s, h, stage, e))
  {
    assert HandlerTracks(s.server[s.handlers[h].Id()], s.handlers[h]);
    LocalStepTracks(s, DoSendError(cfg, s, h, stage, e), h);
  }

  lemma ExtractTracks(cfg: Config, s: State, h: nat, f: Findings)
    requires Tracking(s) && h in s.handlers && s.handlers[h].pc.Busy? && s.handlers[h].pc.at.Extracting?
    ensures Tracking(DoExtract(cfg, s, h, f))
  {
    assert HandlerTracks(s.server[s.handlers[h].Id()], s.handlers[h]);
    LocalStepTracks(s, DoExtract(cfg, s, h, f), h);
  }

  lemma PassGateTracks(s: State, h: nat)
    requires Tracking(s) && CanMove(s, h, PassGate)
    ensures Tracking(DoPassGate(s, h))
  {
    assert HandlerTracks(s.server[s.handlers[h].Id()], s.handlers[h]);
    LocalStepTracks(s, DoPassGate(s, h), h);
  }

  /** The check passes only for the version that was listed. */
  lemma ReadMetadataTracks(cfg: Config, s: State, h: nat)
    requires Tracking(s) && CanMove(s, h, ReadMetadata)
    ensures Tracking(DoReadMetadata(cfg, s, h))
  {
    var x := s.handlers[h];
    var at := x.pc.at;
    var sd := s.server[x.Id()];
    assert HandlerTracks(sd, x);
    var err := CompareSnapshots(NewSnapshot(x.listed.doc, x.pc.job.metadata), Ok(at.current), Ok(sd.metadata));
    if err.Some? {
      SendErrorTracks(cfg, s, h, at.stage, err.value);
    } else {
      assert sd.Version(at.number).modified == x.listed.doc.modified;
      LocalStepTracks(s, DoReadMetadata(cfg, s, h), h);
    }
  }

  lemma ForeignWriteTracks(s: State, id: int64, doc: Document, metadata: Metadata)
    requires Tracking(s) && doc.id == id && (id in s.server ==> s.server[id].Unused(doc.modified))
    ensures Tracking(DoForeignWrite(s, id, doc, metadata))
  {
    var t := DoForeignWrite(s, id, doc, metadata);
    forall h | h in t.handlers
      ensures t.handlers[h].Id() in t.server && HandlerTracks(t.server[t.handlers[h].Id()], t.handlers[h])
    {
      if s.handlers[h].Id() == id {
        WriteKeepsHandler(s.server[id], s.handlers[h], doc, metadata);
      }
    }
    forall i | 0 <= i < |t.page| && t.page[i].doc.id == id && id !in t.seen
      ensures Tracks(t.server[id], t.page[i])
    {
      WriteKeepsTracks(s.server[id], s.page[i], doc, metadata);
    }
  }

  lemma OwnHandlerTracks(sd: ServerDoc, x: Handler, p: Patch, modified: Instant, pc: Pc)
    requires HandlerTracks(sd, x) && x.pc.Busy? && x.pc.at.Patching?
    requires (pc == x.pc && sd.Unused(modified)) || (pc.Busy? && pc.at == Saving(None, true))
    ensures HandlerTracks(sd.Write(Apply(sd.doc, p).(modified := modified), sd.metadata), x.(pc := pc))
  {
    ApplyKeepsIdentity(sd.doc, p);
    if pc == x.pc {
      WriteKeepsHandler(sd, x, Apply(sd.doc, p).(modified := modified), sd.metadata);
    }
  }

  /** A patch of the only handler of a document disturbs nobody else's view of it. */
  lemma OwnWriteTracks(cfg: Config, s: State, h: nat, modified: Instant, pc: Pc)
    requires Tracking(s) && Exclusive(cfg, s) && h in s.handlers && s.handlers[h].pc.Busy? && s.handlers[h].pc.at.Patching?
    requires (pc == s.handlers[h].pc && s.server[s.handlers[h].Id()].Unused(modified)) || pc == Busy(s.handlers[h].pc.job, Saving(None, true))
    ensures Tracking(ApplyPatch(s, s.handlers[h].Id(), s.handlers[h].pc.at.patch, modified).WithPc(h, pc))
  {
    hide HandlerTracks, Tracks, Apply;
    var x := s.handlers[h];
    var sd := s.server[x.Id()];
    var t := ApplyPatch(s, x.Id(), x.pc.at.patch, modified).WithPc(h, pc);
    OwnHandlerTracks(sd, x, x.pc.at.patch, modified, pc);
    assert t.server[x.Id()].doc.id == x.Id() by {
      ApplyKeepsIdentity(sd.doc, x.pc.at.patch);
    }
    forall g | g in t.handlers
      ensures t.handlers[g].Id() in t.server && HandlerTracks(t.server[t.handlers[g].Id()], t.handlers[g])
    {
      assert g != h ==> s.handlers[g].Id() != x.Id();
    }
  }

  lemma QuietStepTracks(s: State, t: State)
    requires Tracking(s) && t.server == s.server && t.handlers == s.handlers
    requires t.page == [] || (t.page == s.page && t.seen == s.seen)
    ensures Tracking(t)
  {
  }

  lemma SendPatchTracks(cfg: Config, s: State, h: nat, modified: Instant)
    requires Tracking(s) && Exclusive(cfg, s) && CanMove(s, h, SendPatch(modified))
    ensures Tracking(DoSendPatch(s, h, modified))
  {
    hide Tracking, Exclusive;
    var x := s.handlers[h];
    var saving := Busy(x.pc.job, Saving(None, true));
    OwnWriteTracks(cfg, s, h, modified, saving);
    QuietStepTracks(ApplyPatch(s, x.Id(), x.pc.at.patch, modified).WithPc(h, saving), DoSendPatch(s, h, modified));
  }

  lemma PatchFailsTracks(cfg: Config, s: State, h: nat, e: Error, applied: Option<Instant>)
    requires Tracking(s) && Exclusive(cfg, s) && CanMove(s, h, PatchFails(e, applied))
    ensures Tracking(DoSendError(cfg, AfterFailedPatch(s, h, applied), h, s.handlers[h].pc.at.stage, e))
  {
    hide Tracking, Exclusive, HandlerTracks, DoSendError;
    var x := s.handlers[h];
    var s1 := AfterFailedPatch(s, h, applied);
    if applied.Some? {
      OwnWriteTracks(cfg, s, h, applied.value, x.pc);
      assert s1.WithPc(h, x.pc) == s1;
    }
    SendErrorTracks(cfg, s1, h, x.pc.at.stage, e);
  }

  lemma ReadTracks(cfg: Config, s: State, h: nat, m: Move)
    requires Tracking(s) && CanMove(s, h, m) && Reads(m)
    ensures Tracking(DoMove(cfg, s, h, m))
  {
    assert HandlerTracks(s.server[s.handlers[h].Id()], s.handlers[h]);
    LocalStepTracks(s, DoMove(cfg, s, h, m), h);
  }

  lemma GiveUpTracks(cfg: Config, s: State, h: nat, m: Move)
    requires Tracking(s) && CanMove(s, h, m) && GivesUp(m)
    ensures Tracking(DoMove(cfg, s, h, m))
  {
    hide Tracks;
    assert HandlerTracks(s.server[s.handlers[h].Id()], s.handlers[h]);
    LocalStepTracks(s, DoMove(cfg, s, h, m), h);
  }

  lemma MoveTracks(cfg: Config, s: State, h: nat, m: Move)
    requires Tracking(s) && Exclusive(cfg, s) && CanMove(s, h, m)
    ensures Tracking(DoMove(cfg, s, h, m))
  {
    hide Tracking, Exclusive, DoPassGate, DoExtract, DoSendError, DoReadMetadata, ApplyPatch, AfterFailedPatch, HandlerTracks;
    match m
    case PassGate => PassGateTracks(s, h);
    case Extract(f) => ExtractTracks(cfg, s, h, f);
    case ReadMetadata => ReadMetadataTracks(cfg, s, h);
    case CheckFails(e) => SendErrorTracks(cfg, s, h, s.handlers[h].pc.at.stage, e);
    case SendPatch(modified) => SendPatchTracks(cfg, s, h, modified);
    case PatchFails(e, applied) => PatchFailsTracks(cfg, s, h, e, applied);
    case Save => LocalStepTracks(s, DoSave(cfg, s, h), h);
    case _ =>
      if Reads(m) {
        ReadTracks(cfg, s, h, m);
      } else {
        GiveUpTracks(cfg, s, h, m);
      }
  }

  lemma FinishPruneTracks(s: State)
    requires Tracking(s) && s.cutoff.Some?
    ensures Tracking(DoFinishPrune(s))
  {
    var t := DoFinishPrune(s);
    forall h | h in t.handlers
      ensures t.handlers[h].Id() in t.server && HandlerTracks(t.server[t.handlers[h].Id()], t.handlers[h])
    {
      assert HandlerTracks(s.server[s.handlers[h].Id()], s.handlers[h]);
    }
  }

  lemma DeliverPageTracks(s: State)
    requires PageTracks(s) && s.page != []
    ensures PageTracks(DoDeliver(s))
  {
    var t := DoDeliver(s);
    forall i | 0 <= i < |t.page|
      ensures t.page[i] == s.page[i + 1]
    {
    }
  }

  lemma DeliverHandlersTrack(cfg: Config, s: State)
    requires Tracking(s) && Exclusive(cfg, s) && s.page != []
    ensures HandlersTrack(DoDeliver(s))
  {
    var t := DoDeliver(s);
    forall h | h in t.handlers
      ensures t.handlers[h].Id() in t.server && HandlerTracks(t.server[t.handlers[h].Id()], t.handlers[h])
    {
      if h in s.handlers {
        assert h < s.nextHandler && t.handlers[h] == s.handlers[h];
      }
    }
  }

  lemma FetchPageTracks(s: State, ids: seq<int64>)
    requires Tracking(s) && forall i | 0 <= i < |ids| :: ids[i] in s.server
    ensures Tracking(DoFetchPage(s, ids))
  {
  }

  lemma DeliverTracks(cfg: Config, s: State)
    requires Tracking(s) && Exclusive(cfg, s) && s.page != []
    ensures Tracking(DoDeliver(s))
  {
    hide HandlersTrack, PageTracks;
    DeliverPageTracks(s);
    DeliverHandlersTrack(cfg, s);
  }

  lemma StepTracks(cfg: Config, s: State, a: Action)
    requires Tracking(s) && Exclusive(cfg, s) && Enabled(cfg, s, a)
    ensures Tracking(Do(cfg, s, a))
  {
    hide Tracking, Exclusive, DoMove, DoFinishPrune, DoForeignWrite, DoDeliver, DoFetchPage, CanMove;
    match a
    case ForeignWrite(id, doc, metadata) => ForeignWriteTracks(s, id, doc, metadata);
    case FetchPage(ids) => FetchPageTracks(s, ids);
    case Deliver => DeliverTracks(cfg, s);
    case HandlerStep(h, m) => MoveTracks(cfg, s, h, m);
    case FinishPrune => FinishPruneTracks(s);
    case _ => QuietStepTracks(s, Do(cfg, s, a));
  }
}
