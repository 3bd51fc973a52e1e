/** How a document ends once its attempts met no fault: with the facts applied or marked as
    failed. */
module CatalogerOutcomes {
  import opened Common
  import opened Documents
  import opened Errors
  import opened Store
  import opened History
  import opened Tasks
  import opened Patches
  import opened Updater
  import opened Cataloger
  import opened CatalogerWalk
  import opened CatalogerConflicts
  import opened CatalogerPatches
  import opened CatalogerRetries

  /** The document is the target of the facts an attempt found, with both tags removed. */
  ghost predicate FactsApplied(cfg: Config, doc: Document, job: Job, target: Document) {
    && job.findings.Some?
    && var f := job.findings.value;
       && FoundFacts(job.metadata, f).Ok?
       && var found := FoundFacts(job.metadata, f).value;
          IsTarget(doc, target, FactsIn(found), f.res, {cfg.settings.todo, cfg.settings.failed})
  }

  /** Nothing but the tags and the modification time differs: failed is set, todo is gone. */
  predicate MarkedFailed(cfg: Config, doc: Document, target: Document) {
    && target == doc.(tags := target.tags, modified := target.modified)
    && Elements(target.tags) == (Elements(doc.tags) - {cfg.settings.todo}) + {cfg.settings.failed}
  }

  /** The present version is what an attempt at the version before made of it: the target of the
      facts this attempt found, or the mark of a failure for which this attempt has a reason. */
  ghost predicate Settled(cfg: Config, sd: ServerDoc, how: Option<Settlement>) {
    && sd.past != [] && how.Some?
    && var was, job := sd.past[|sd.past| - 1], how.value.job;
       && job.key == DocumentKey(was, sd.metadata)
       && match how.value.stage
          case ApplyFacts => FactsApplied(cfg, was, job, sd.doc.(modified := was.modified))
          case MarkFailed => Justified(cfg, was, job) && MarkedFailed(cfg, was, sd.doc)
  }

  /** Nothing was counted since the last foreign write or prune, or a fault was. */
  predicate Restarted(n: Tally) {
    n.passes == 0 || n.faults > 0
  }

  /** A handler looks at the present version, unless the count was restarted after it looked. */
  predicate FreshOk(sd: ServerDoc, n: Tally, x: Handler) {
    || Restarted(n)
    || match x.pc
       case Queued => x.listed.number == |sd.past|
       case HasMetadata(m) => x.listed.number == |sd.past| && DocumentKey(x.listed.doc, m) == sd.Key()
       case Begun(m, _) => x.listed.number == |sd.past| && DocumentKey(x.listed.doc, m) == sd.Key()
       case Busy(job, at) => job.clean || (at.Saving? && at.patched)
  }

  ghost predicate SettledOk(cfg: Config, sd: ServerDoc, n: Tally, how: Option<Settlement>) {
    cfg.settings.todo !in sd.doc.tags && !Restarted(n) ==> Settled(cfg, sd, how)
  }

  predicate AllFresh(s: State) {
    forall h | h in s.handlers ::
      s.handlers[h].Id() in s.server && FreshOk(s.server[s.handlers[h].Id()], s.TallyOf(s.handlers[h].Id()), s.handlers[h])
  }

  predicate PageFresh(s: State) {
    forall i | 0 <= i < |s.page| ::
      var id := s.page[i].doc.id;
      id !in s.seen ==> id in s.server && (Restarted(s.TallyOf(id)) || s.page[i].number == |s.server[id].past|)
  }

  ghost predicate AllSettled(cfg: Config, s: State) {
    forall id | id in s.server :: SettledOk(cfg, s.server[id], s.TallyOf(id), s.SettlementOf(id))
  }

  ghost predicate OutcomesOk(cfg: Config, s: State) {
    AllFresh(s) && PageFresh(s) && AllSettled(cfg, s)
  }

  // ---------------------------------------------------------------- steps of one handler

  /** What is left to show for a step of one handler. */
  ghost predicate OutcomeFits(cfg: Config, s: State, t: State, h: nat) {
    && h in s.handlers
    && LocalTo(s, t, h)
    && var id := s.handlers[h].Id();
       && id in t.server
       && (forall i | i in t.server && i != id :: i in s.server && t.server[i] == s.server[i] && t.TallyOf(i) == s.TallyOf(i)
                   && t.SettlementOf(i) == s.SettlementOf(i))
       && (forall i | i in s.server :: i in t.server)
       && (h in t.handlers ==> FreshOk(t.server[id], t.TallyOf(id), t.handlers[h]))
       && SettledOk(cfg, t.server[id], t.TallyOf(id), t.SettlementOf(id))
  }

  lemma LocalStepKeepsFresh(cfg: Config, s: State, t: State, h: nat)
    requires AllFresh(s) && Exclusive(cfg, s) && OutcomeFits(cfg, s, t, h)
    ensures AllFresh(t)
  {
    hide FreshOk, SettledOk;
    forall g | g in t.handlers
      ensures t.handlers[g].Id() in t.server && FreshOk(t.server[t.handlers[g].Id()], t.TallyOf(t.handlers[g].Id()), t.handlers[g])
    {
      assert g != h ==> s.handlers[g].Id() != s.handlers[h].Id();
    }
  }

  lemma LocalStepKeepsPageFresh(cfg: Config, s: State, t: State, h: nat)
    requires PageFresh(s) && Exclusive(cfg, s) && OutcomeFits(cfg, s, t, h)
    ensures PageFresh(t)
  {
    hide FreshOk, SettledOk, Restarted;
    assert s.handlers[h].Id() in s.seen;
  }

  lemma LocalStepKeepsSettled(cfg: Config, s: State, t: State, h: nat)
    requires AllSettled(cfg, s) && OutcomeFits(cfg, s, t, h)
    ensures AllSettled(cfg, t)
  {
    hide FreshOk, SettledOk;
  }

  lemma LocalStepKeepsOutcomes(cfg: Config, s: State, t: State, h: nat)
    requires OutcomesOk(cfg, s) && Exclusive(cfg, s) && OutcomeFits(cfg, s, t, h)
    ensures OutcomesOk(cfg, t)
  {
    hide AllFresh, PageFresh, AllSettled, Exclusive, OutcomeFits;
    LocalStepKeepsFresh(cfg, s, t, h);
    LocalStepKeepsPageFresh(cfg, s, t, h);
    LocalStepKeepsSettled(cfg, s, t, h);
  }

  /** What is known where a handler stands. */
  lemma StandsHere(cfg: Config, s: State, h: nat)
    requires OutcomesOk(cfg, s) && h in s.handlers
    ensures var x := s.handlers[h];
            && x.Id() in s.server
            && FreshOk(s.server[x.Id()], s.TallyOf(x.Id()), x)
            && SettledOk(cfg, s.server[x.Id()], s.TallyOf(x.Id()), s.SettlementOf(x.Id()))
  {
    hide FreshOk, SettledOk;
  }

  lemma LooksHere(cfg: Config, s: State, h: nat)
    requires Tracking(s) && AllDerived(cfg, s) && h in s.handlers
    ensures s.handlers[h].Id() in s.server
    ensures HandlerTracks(s.server[s.handlers[h].Id()], s.handlers[h]) && Derived(cfg, s.handlers[h])
  {
    hide HandlerTracks, Derived, PageTracks;
  }

  /** A step that leaves the documents and their counts alone. */
  lemma QuietOutcomeFits(cfg: Config, s: State, t: State, h: nat)
    requires OutcomesOk(cfg, s) && h in s.handlers && LocalTo(s, t, h)
    requires t.server == s.server && t.tally == s.tally && t.settledBy == s.settledBy
    requires h in t.handlers ==> FreshOk(s.server[s.handlers[h].Id()], s.TallyOf(s.handlers[h].Id()), t.handlers[h])
    ensures OutcomeFits(cfg, s, t, h)
  {
    hide FreshOk, SettledOk, OutcomesOk;
    StandsHere(cfg, s, h);
  }

  lemma FetchMetadataOutcome(cfg: Config, s: State, h: nat)
    requires OutcomesOk(cfg, s) && Tracking(s) && CanMove(s, h, FetchMetadata)
    ensures OutcomeFits(cfg, s, DoMove(cfg, s, h, FetchMetadata), h)
  {
    hide OutcomesOk, OutcomeFits, SettledOk;
    StandsHere(cfg, s, h);
    var x := s.handlers[h];
    assert HandlerTracks(s.server[x.Id()], x);
    QuietOutcomeFits(cfg, s, s.WithPc(h, HasMetadata(s.server[x.Id()].metadata)), h);
  }

  lemma QuietMoveOutcome(cfg: Config, s: State, h: nat, m: Move)
    requires OutcomesOk(cfg, s) && CanMove(s, h, m) && (m.AbandonLoad? || m.ReadClock? || m.ReadDocument?)
    ensures OutcomeFits(cfg, s, DoMove(cfg, s, h, m), h)
  {
    hide OutcomesOk, OutcomeFits, SettledOk;
    StandsHere(cfg, s, h);
    QuietOutcomeFits(cfg, s, DoMove(cfg, s, h, m), h);
  }

  lemma ExtractOutcome(cfg: Config, s: State, h: nat, f: Findings)
    requires OutcomesOk(cfg, s) && h in s.handlers && s.handlers[h].pc.Busy? && s.handlers[h].pc.at.Extracting?
    ensures OutcomeFits(cfg, s, DoExtract(cfg, s, h, f), h)
  {
    hide OutcomesOk, OutcomeFits, SettledOk, Start;
    StandsHere(cfg, s, h);
    QuietOutcomeFits(cfg, s, DoExtract(cfg, s, h, f), h);
  }

  lemma RestartedStays(n: Tally)
    ensures Restarted(n.Fault()) && Restarted(n.Pass(false))
  {
  }

  /** A fault restarts the count. */
  lemma BlamedOutcome(cfg: Config, s: State, t: State, h: nat)
    requires OutcomesOk(cfg, s) && h in s.handlers && s.handlers[h].pc.Busy? && LocalTo(s, t, h)
    requires var id := s.handlers[h].Id();
             && id in s.server && id in t.server && t.server == s.server[id := t.server[id]]
             && (t.server == s.server || (s.handlers[h].pc.at.Patching?))
    requires t.tally == s.Blame(s.handlers[h].Id(), s.handlers[h].pc.job).tally && t.settledBy == s.settledBy
    requires h in t.handlers ==> t.handlers[h].pc.Busy? && !s.handlers[h].pc.at.Saving?
    ensures OutcomeFits(cfg, s, t, h)
  {
    hide OutcomesOk, Settled;
    StandsHere(cfg, s, h);
    BlameCounts(s, s.handlers[h].Id(), s.handlers[h].pc.job);
    RestartedStays(s.TallyOf(s.handlers[h].Id()));
  }

  lemma SendErrorOutcome(cfg: Config, s: State, h: nat, stage: Stage, e: Error)
    requires OutcomesOk(cfg, s) && h in s.handlers && s.handlers[h].Id() in s.server
    requires s.handlers[h].pc.Busy? && !s.handlers[h].pc.at.Saving?
    ensures OutcomeFits(cfg, s, DoSendError(cfg, s, h, stage, e), h)
  {
    hide OutcomesOk, OutcomeFits, OnSendError;
    BlamedOutcome(cfg, s, DoSendError(cfg, s, h, stage, e), h);
  }

  lemma ReadMetadataOutcome(cfg: Config, s: State, h: nat)
    requires OutcomesOk(cfg, s) && CanMove(s, h, ReadMetadata)
    ensures OutcomeFits(cfg, s, DoReadMetadata(cfg, s, h), h)
  {
    hide OutcomesOk, OutcomeFits, SettledOk, DoSendError, CompareSnapshots, NewSnapshot;
    var x := s.handlers[h];
    var err := CompareSnapshots(NewSnapshot(x.listed.doc, x.pc.job.metadata), Ok(x.pc.at.current), Ok(s.server[x.Id()].metadata));
    if err.Some? {
      SendErrorOutcome(cfg, s, h, x.pc.at.stage, err.value);
    } else {
      StandsHere(cfg, s, h);
      QuietOutcomeFits(cfg, s, DoReadMetadata(cfg, s, h), h);
    }
  }

  lemma PatchFailsOutcome(cfg: Config, s: State, h: nat, e: Error, applied: Option<Instant>)
    requires OutcomesOk(cfg, s) && CanMove(s, h, PatchFails(e, applied))
    ensures OutcomeFits(cfg, s, DoSendError(cfg, AfterFailedPatch(s, h, applied), h, s.handlers[h].pc.at.stage, e), h)
  {
    hide OutcomesOk, OutcomeFits, OnSendError, Apply;
    BlamedOutcome(cfg, s, DoSendError(cfg, AfterFailedPatch(s, h, applied), h, s.handlers[h].pc.at.stage, e), h);
  }

  lemma ComputedMeaning(cfg: Config, doc: Document, job: Job, stage: Stage, p: Patch)
    requires Computed(cfg, doc, job, stage, p)
    ensures stage.MarkFailed? ==> MarkedFailed(cfg, doc, Apply(doc, p)) && (job.clean ==> Justified(cfg, doc, job))
    ensures stage.ApplyFacts? ==> FactsApplied(cfg, doc, job, Apply(doc, p))
  {
    hide Prepared, FailedPatch, IsTarget;
    if stage.MarkFailed? {
      FailedPatchMeaning(cfg.settings, doc);
    } else {
      PreparedMeaning(cfg.settings, doc, job.metadata, job.findings.value, p);
    }
  }

  /** A patch computed from the present version settles the document. */
  lemma PatchSettlesDocument(cfg: Config, sd: ServerDoc, job: Job, stage: Stage, p: Patch, modified: Instant)
    requires Computed(cfg, sd.doc, job, stage, p)
    ensures var after := sd.Write(Apply(sd.doc, p).(modified := modified), sd.metadata);
            && (job.clean && job.key == sd.Key() ==> Settled(cfg, after, Some(Settlement(stage, job))))
            && (stage.MarkFailed? ==> MarkedFailed(cfg, sd.doc, after.doc))
            && (stage.ApplyFacts? ==> FactsApplied(cfg, sd.doc, job, after.doc.(modified := sd.doc.modified)))
  {
    hide Computed, FactsApplied, Justified, Apply, DocumentKey;
    var after := sd.Write(Apply(sd.doc, p).(modified := modified), sd.metadata);
    assert after.past[|after.past| - 1] == sd.doc;
    ComputedMeaning(cfg, sd.doc, job, stage, p);
    ApplyKeepsIdentity(sd.doc, p);
  }

  /** A clean attempt patches the version it listed. */
  lemma CleanPatchSettles(cfg: Config, sd: ServerDoc, store: Records, x: Handler, modified: Instant)
    requires x.pc.Clean() && x.pc.at.Patching?
    requires CleanOk(cfg, sd, store, x) && HandlerTracks(sd, x) && Derived(cfg, x)
    ensures Settled(cfg, sd.Write(Apply(sd.doc, x.pc.at.patch).(modified := modified), sd.metadata),
                    Some(Settlement(x.pc.at.stage, x.pc.job)))
  {
    hide Computed, Settled, Apply;
    assert sd.Version(x.listed.number) == sd.doc;
    PatchSettlesDocument(cfg, sd, x.pc.job, x.pc.at.stage, x.pc.at.patch, modified);
  }

  /** The document and the handler after the patch was accepted. */
  lemma AcceptedFresh(cfg: Config, sd: ServerDoc, store: Records, n: Tally, x: Handler, modified: Instant)
    requires x.pc.Busy? && x.pc.at.Patching? && FreshOk(sd, n, x)
    requires CleanOk(cfg, sd, store, x) && HandlerTracks(sd, x) && Derived(cfg, x)
    ensures var after := sd.Write(Apply(sd.doc, x.pc.at.patch).(modified := modified), sd.metadata);
            && FreshOk(after, n, x.(pc := Busy(x.pc.job, Saving(None, true))))
            && SettledOk(cfg, after, n, Some(Settlement(x.pc.at.stage, x.pc.job)))
  {
    hide CleanOk, HandlerTracks, Derived, Settled, Apply, DocumentKey;
    if x.pc.job.clean {
      CleanPatchSettles(cfg, sd, store, x, modified);
    }
  }

  lemma SendPatchOutcome(cfg: Config, s: State, h: nat, modified: Instant)
    requires CanMove(s, h, SendPatch(modified))
    requires OutcomesOk(cfg, s) && RetriesOk(cfg, s) && Exclusive(cfg, s) && Tracking(s) && AllDerived(cfg, s)
    ensures OutcomeFits(cfg, s, DoSendPatch(s, h, modified), h)
  {
    hide OutcomesOk, RetriesOk, Exclusive, Tracking, AllDerived, CleanOk, HandlerTracks, Derived, TallyOk,
         FreshOk, SettledOk, Apply;
    StandsHere(cfg, s, h);
    LooksHere(cfg, s, h);
    Here(cfg, s, h);
    var x := s.handlers[h];
    AcceptedFresh(cfg, s.server[x.Id()], s.store, s.TallyOf(x.Id()), x, modified);
  }

  /** The handler after it passed the gate. */
  lemma PassedFresh(cfg: Config, sd: ServerDoc, n: Tally, how: Option<Settlement>, x: Handler, job: Job)
    requires FreshOk(sd, n, x) && SettledOk(cfg, sd, n, how) && HandlerTracks(sd, x) && Derived(cfg, x) && x.pc.Begun?
    requires job.key == DocumentKey(x.listed.doc, x.pc.metadata)
    requires job.clean == (job.key == sd.Key() && x.listed.number == |sd.past|)
    ensures var after := if job.key == sd.Key() then n.Pass(job.clean) else n;
            FreshOk(sd, after, x.(pc := Busy(job, Extracting))) && SettledOk(cfg, sd, after, how)
  {
    hide Settled, DocumentKey;
    if x.listed.number == |sd.past| {
      assert sd.Version(x.listed.number) == sd.doc;
    }
  }

  /** A step that leaves the documents alone and gives the handler's document a new count. */
  lemma CountingOutcomeFits(cfg: Config, s: State, t: State, h: nat, n: Tally)
    requires h in s.handlers && s.handlers[h].Id() in s.server && LocalTo(s, t, h)
    requires t.server == s.server && t.settledBy == s.settledBy
    requires var id := s.handlers[h].Id();
             && (if t.tally == s.tally then n == s.TallyOf(id) else t.tally == s.tally[id := n])
             && (h in t.handlers ==> FreshOk(s.server[id], n, t.handlers[h]))
             && SettledOk(cfg, s.server[id], n, s.SettlementOf(id))
    ensures OutcomeFits(cfg, s, t, h)
  {
    hide FreshOk, SettledOk;
  }

  /** An attempt that starts clean works on a document with the todo tag. */
  lemma PassGateOutcome(cfg: Config, s: State, h: nat)
    requires OutcomesOk(cfg, s) && Tracking(s) && AllDerived(cfg, s) && CanMove(s, h, PassGate)
    ensures OutcomeFits(cfg, s, DoPassGate(s, h), h)
  {
    hide OutcomesOk, Tracking, AllDerived, FreshOk, SettledOk, HandlerTracks, Derived, Gate, DocumentKey, OutcomeFits,
         LocalTo, SameRecords;
    StandsHere(cfg, s, h);
    LooksHere(cfg, s, h);
    var x, t := s.handlers[h], DoPassGate(s, h);
    var sd, n := s.server[x.Id()], s.TallyOf(x.Id());
    if h in t.handlers {
      var job := t.handlers[h].pc.job;
      PassedFresh(cfg, sd, n, s.SettlementOf(x.Id()), x, job);
      CountingOutcomeFits(cfg, s, t, h, if job.key == sd.Key() then n.Pass(job.clean) else n);
    } else {
      CountingOutcomeFits(cfg, s, t, h, n);
    }
  }

  lemma SaveOutcome(cfg: Config, s: State, h: nat)
    requires OutcomesOk(cfg, s) && CanMove(s, h, Save)
    ensures OutcomeFits(cfg, s, DoSave(cfg, s, h), h)
  {
    hide OutcomesOk, Settled, Saved;
    StandsHere(cfg, s, h);
  }

  lemma MoveKeepsOutcomes(cfg: Config, s: State, h: nat, m: Move)
    requires OutcomesOk(cfg, s) && RetriesOk(cfg, s) && Exclusive(cfg, s) && Tracking(s) && AllDerived(cfg, s)
    requires CanMove(s, h, m)
    ensures OutcomesOk(cfg, DoMove(cfg, s, h, m))
  {
    hide OutcomesOk, RetriesOk, Exclusive, Tracking, AllDerived, OutcomeFits,
         DoPassGate, DoExtract, DoSendError, DoReadMetadata, AfterFailedPatch, DoSave, DoSendPatch;
    match m {
      case FetchMetadata => FetchMetadataOutcome(cfg, s, h);
      case PassGate => PassGateOutcome(cfg, s, h);
      case UpdaterFails(_) => BlamedOutcome(cfg, s, DoMove(cfg, s, h, m), h);
      case Extract(f) => ExtractOutcome(cfg, s, h, f);
      case ReadMetadata => ReadMetadataOutcome(cfg, s, h);
      case CheckFails(e) => SendErrorOutcome(cfg, s, h, s.handlers[h].pc.at.stage, e);
      case SendPatch(modified) => SendPatchOutcome(cfg, s, h, modified);
      case PatchFails(e, applied) => PatchFailsOutcome(cfg, s, h, e, applied);
      case Save => SaveOutcome(cfg, s, h);
      case SaveFails => BlamedOutcome(cfg, s, DoMove(cfg, s, h, m), h);
      case _ => QuietMoveOutcome(cfg, s, h, m);
    }
    LocalStepKeepsOutcomes(cfg, s, DoMove(cfg, s, h, m), h);
  }

  // ---------------------------------------------------------------- other steps

  lemma ForeignWriteKeepsFresh(s: State, id: int64, doc: Document, metadata: Metadata)
    requires AllFresh(s) && PageFresh(s)
    ensures AllFresh(DoForeignWrite(s, id, doc, metadata)) && PageFresh(DoForeignWrite(s, id, doc, metadata))
  {
    hide DocumentKey;
  }

  lemma ForeignWriteKeepsSettled(cfg: Config, s: State, id: int64, doc: Document, metadata: Metadata)
    requires AllSettled(cfg, s)
    ensures AllSettled(cfg, DoForeignWrite(s, id, doc, metadata))
  {
    hide Settled;
  }

  lemma PruneKeepsFresh(cfg: Config, s: State)
    requires AllFresh(s) && AllClean(cfg, s) && s.cutoff.Some?
    ensures AllFresh(DoFinishPrune(s))
  {
    hide DocumentKey, EndsWell, Expired, Pruned;
    var t := DoFinishPrune(s);
    forall h | h in t.handlers
      ensures FreshOk(t.server[t.handlers[h].Id()], t.TallyOf(t.handlers[h].Id()), t.handlers[h])
    {
      assert CleanOk(cfg, s.server[s.handlers[h].Id()], s.store, s.handlers[h]);
    }
  }

  lemma PruneKeepsSettled(cfg: Config, s: State)
    requires AllSettled(cfg, s) && PageFresh(s) && s.cutoff.Some?
    ensures AllSettled(cfg, DoFinishPrune(s)) && PageFresh(DoFinishPrune(s))
  {
    hide Settled, Expired, Pruned, DocumentKey;
  }

  lemma DeliverKeepsPageFresh(s: State)
    requires PageFresh(s) && s.page != []
    ensures PageFresh(DoDeliver(s))
  {
    hide Restarted;
    var t := DoDeliver(s);
    forall i | 0 <= i < |t.page|
      ensures t.page[i] == s.page[i + 1]
    {
    }
  }

  lemma DeliverKeepsFresh(s: State)
    requires AllFresh(s) && PageFresh(s) && s.page != []
    ensures AllFresh(DoDeliver(s))
  {
    hide Restarted, DocumentKey;
    var t := DoDeliver(s);
    forall h | h in t.handlers
      ensures t.handlers[h].Id() in t.server && FreshOk(t.server[t.handlers[h].Id()], t.TallyOf(t.handlers[h].Id()), t.handlers[h])
    {
    }
  }

  lemma FetchPageKeepsFresh(s: State, ids: seq<int64>)
    requires forall i | 0 <= i < |ids| :: ids[i] in s.server
    requires forall id | id in s.server :: s.server[id].doc.id == id
    ensures PageFresh(DoFetchPage(s, ids))
  {
  }

  /** Documents, counts and handlers are as before, and no page is new. */
  lemma QuietKeepsOutcomes(cfg: Config, s: State, t: State)
    requires OutcomesOk(cfg, s) && t.server == s.server && t.handlers == s.handlers && t.tally == s.tally
    requires t.settledBy == s.settledBy
    requires t.page == [] || (t.page == s.page && t.seen == s.seen)
    ensures OutcomesOk(cfg, t)
  {
    hide FreshOk, SettledOk, Restarted;
  }

  lemma StepKeepsOutcomes(cfg: Config, s: State, a: Action)
    requires OutcomesOk(cfg, s) && RetriesOk(cfg, s) && Exclusive(cfg, s) && Tracking(s) && AllDerived(cfg, s)
    requires Enabled(cfg, s, a)
    ensures OutcomesOk(cfg, Do(cfg, s, a))
  {
    hide Exclusive, AllDerived, AllClean, AllTallied, AllFresh, PageFresh, AllSettled, PageTracks, HandlersTrack,
         DoMove, DoFinishPrune, DoForeignWrite, DoDeliver, DoFetchPage, CanMove;
    match a
    case ForeignWrite(id, doc, m) =>
      ForeignWriteKeepsFresh(s, id, doc, m);
      ForeignWriteKeepsSettled(cfg, s, id, doc, m);
    case FetchPage(ids) =>
      FetchPageKeepsFresh(s, ids);
      FetchPageKeepsRest(cfg, s, ids);
    case Deliver =>
      DeliverKeepsFresh(s);
      DeliverKeepsPageFresh(s);
      DeliverKeepsSettled(cfg, s);
    case HandlerStep(h, m) => MoveKeepsOutcomes(cfg, s, h, m);
    case FinishPrune =>
      PruneKeepsFresh(cfg, s);
      PruneKeepsSettled(cfg, s);
    case _ => QuietKeepsOutcomes(cfg, s, Do(cfg, s, a));
  }

  lemma FetchPageKeepsRest(cfg: Config, s: State, ids: seq<int64>)
    requires AllFresh(s) && AllSettled(cfg, s) && forall i | 0 <= i < |ids| :: ids[i] in s.server
    ensures AllFresh(DoFetchPage(s, ids)) && AllSettled(cfg, DoFetchPage(s, ids))
  {
    hide FreshOk, SettledOk;
  }

  lemma DeliverKeepsSettled(cfg: Config, s: State)
    requires AllSettled(cfg, s) && s.page != []
    ensures AllSettled(cfg, DoDeliver(s))
  {
    hide SettledOk;
  }

  // ---------------------------------------------------------------- what a settlement records

  lemma MoveRecordsSender(cfg: Config, s: State, h: nat, m: Move, id: int64)
    requires CanMove(s, h, m) && DoMove(cfg, s, h, m).SettlementOf(id) != s.SettlementOf(id)
    ensures var x := s.handlers[h];
            && m.SendPatch? && x.Id() == id
            && DoMove(cfg, s, h, m).SettlementOf(id) == Some(Settlement(x.pc.at.stage, x.pc.job))
  {
    hide Gate, DocumentKey, CompareSnapshots, NewSnapshot, Start, OnSendError, Saved, Apply, LocalTo, KeepsHandlers, SameRecords;
  }

  /** The settlement of a document is set only by an accepted patch, to the attempt that sent it,
      and dropped only by a foreign write. */
  lemma SettlementRecordsSender(cfg: Config, s: State, a: Action, id: int64)
    requires Enabled(cfg, s, a) && Do(cfg, s, a).SettlementOf(id) != s.SettlementOf(id)
    ensures (a.ForeignWrite? && a.id == id && Do(cfg, s, a).SettlementOf(id).None?)
            || (a.HandlerStep? && a.move.SendPatch? && s.handlers[a.h].Id() == id
                && var x := s.handlers[a.h];
                   Do(cfg, s, a).SettlementOf(id) == Some(Settlement(x.pc.at.stage, x.pc.job)))
  {
    hide DoMove;
    if a.HandlerStep? {
      MoveRecordsSender(cfg, s, a.h, a.move, id);
    }
  }

  /** The findings of an attempt are what its extraction found. */
  lemma FindingsAreExtracted(cfg: Config, s: State, h: nat, m: Move)
    requires CanMove(s, h, m) && s.handlers[h].pc.Busy?
    requires var t := DoMove(cfg, s, h, m);
             h in t.handlers && t.handlers[h].pc.Busy? && t.handlers[h].pc.job.findings != s.handlers[h].pc.job.findings
    ensures m.Extract? && DoMove(cfg, s, h, m).handlers[h].pc.job.findings == Some(m.findings)
  {
    hide CompareSnapshots, NewSnapshot, Start, OnSendError, Saved, Apply, LocalTo, KeepsHandlers, SameRecords;
  }
}
