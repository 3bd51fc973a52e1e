/** How often a document version can be attempted before its todo tag is gone. */
module CatalogerRetries {
  import opened Common
  import opened Documents
  import opened Errors
  import opened TaskKey
  import opened Store
  import opened History
  import opened Tasks
  import opened Patches
  import opened Updater
  import opened Cataloger
  import opened CatalogerWalk
  import opened CatalogerConflicts
  import opened CatalogerRecords
  import opened CatalogerPatches

  /** The failures after which an attempt is the last one. */
  function Budget(cfg: Config): nat {
    if cfg.retriesMax > 0 then cfg.retriesMax else 0
  }

  /** How a clean attempt ends: the document has lost the todo tag, or there are retries left. */
  predicate EndsWell(cfg: Config, sd: ServerDoc, rec: DocumentTask, at: Point) {
    at.Saving? ==>
      if at.patched then at.err.None? && cfg.settings.todo !in sd.doc.tags
      else at.err.Some? && rec.retryCount < cfg.retriesMax
  }

  /** A clean attempt works on the present version and on its stored record. */
  predicate CleanOk(cfg: Config, sd: ServerDoc, store: Records, x: Handler) {
    x.pc.Clean() ==>
      && (x.pc.Unpatched() ==> x.listed.number == |sd.past| && x.pc.job.key == sd.Key())
      && (x.pc.job.key in store || x.pc.job.rec.retryCount == 0)
      && EndsWell(cfg, sd, x.pc.job.rec, x.pc.at)
  }

  /** While a document carries the todo tag, every attempt at its present version that passed the
      gate is running clean, met a fault, or spent one of the retries its record counts. */
  predicate TallyOk(cfg: Config, sd: ServerDoc, store: Records, n: Tally, active: bool) {
    cfg.settings.todo in sd.doc.tags ==>
      && n.passes <= n.spent + n.faults + (if active then 1 else 0)
      && n.spent <= Budget(cfg)
      && (n.spent > 0 ==> sd.Key() in store && n.spent <= store[sd.Key()].retryCount)
  }

  /** A clean attempt at the document is running. */
  predicate Active(s: State, id: int64) {
    exists h | h in s.handlers :: s.handlers[h].Id() == id && s.handlers[h].pc.Clean()
  }

  predicate AllClean(cfg: Config, s: State) {
    forall h | h in s.handlers ::
      s.handlers[h].Id() in s.server && CleanOk(cfg, s.server[s.handlers[h].Id()], s.store, s.handlers[h])
  }

  predicate AllTallied(cfg: Config, s: State) {
    forall id | id in s.server :: TallyOk(cfg, s.server[id], s.store, s.TallyOf(id), Active(s, id))
  }

  predicate RetriesOk(cfg: Config, s: State) {
    AllClean(cfg, s) && AllTallied(cfg, s)
  }

  // ---------------------------------------------------------------- steps of one handler

  /** Records stay, and their failures do not become fewer. */
  predicate CountsGrow(store: Records, later: Records) {
    forall k | k in store :: k in later && store[k].retryCount <= later[k].retryCount
  }

  /** What is left to show for a step of one handler. */
  ghost predicate StepFits(cfg: Config, s: State, t: State, h: nat) {
    && h in s.handlers
    && LocalTo(s, t, h)
    && var id := s.handlers[h].Id();
       && id in t.server
       && (forall i | i in t.server && i != id :: i in s.server && t.server[i] == s.server[i] && t.TallyOf(i) == s.TallyOf(i))
       && (forall i | i in s.server :: i in t.server)
       && CountsGrow(s.store, t.store)
       && (h in t.handlers ==> CleanOk(cfg, t.server[id], t.store, t.handlers[h]))
       && TallyOk(cfg, t.server[id], t.store, t.TallyOf(id), h in t.handlers && t.handlers[h].pc.Clean())
  }

  lemma ActiveHere(cfg: Config, s: State, h: nat)
    requires Exclusive(cfg, s) && h in s.handlers
    ensures Active(s, s.handlers[h].Id()) == s.handlers[h].pc.Clean()
  {
  }

  lemma ActiveElsewhere(s: State, t: State, h: nat, id: int64)
    requires LocalTo(s, t, h) && h in s.handlers && s.handlers[h].Id() != id
    ensures Active(t, id) == Active(s, id)
  {
  }

  lemma CleanStays(cfg: Config, sd: ServerDoc, store: Records, later: Records, x: Handler)
    requires CleanOk(cfg, sd, store, x) && CountsGrow(store, later)
    ensures CleanOk(cfg, sd, later, x)
  {
  }

  lemma TallyStays(cfg: Config, sd: ServerDoc, store: Records, later: Records, n: Tally, active: bool)
    requires TallyOk(cfg, sd, store, n, active) && CountsGrow(store, later)
    ensures TallyOk(cfg, sd, later, n, active)
  {
  }

  lemma StepKeepsClean(cfg: Config, s: State, t: State, h: nat)
    requires AllClean(cfg, s) && Exclusive(cfg, s) && StepFits(cfg, s, t, h)
    ensures AllClean(cfg, t)
  {
    hide CleanOk, TallyOk, CountsGrow;
    forall g | g in t.handlers
      ensures t.handlers[g].Id() in t.server && CleanOk(cfg, t.server[t.handlers[g].Id()], t.store, t.handlers[g])
    {
      if g != h {
        CleanStays(cfg, s.server[s.handlers[g].Id()], s.store, t.store, s.handlers[g]);
      }
    }
  }

  lemma StepKeepsTallied(cfg: Config, s: State, t: State, h: nat)
    requires AllTallied(cfg, s) && Exclusive(cfg, s) && StepFits(cfg, s, t, h)
    ensures AllTallied(cfg, t)
  {
    hide CleanOk, TallyOk, CountsGrow;
    var id := s.handlers[h].Id();
    forall i | i in t.server
      ensures TallyOk(cfg, t.server[i], t.store, t.TallyOf(i), Active(t, i))
    {
      if i == id {
        ActiveAfter(cfg, s, t, h);
      } else {
        ActiveElsewhere(s, t, h, i);
        TallyStays(cfg, s.server[i], s.store, t.store, s.TallyOf(i), Active(s, i));
      }
    }
  }

  lemma ActiveAfter(cfg: Config, s: State, t: State, h: nat)
    requires Exclusive(cfg, s) && LocalTo(s, t, h) && h in s.handlers
    ensures Active(t, s.handlers[h].Id()) == (h in t.handlers && t.handlers[h].pc.Clean())
  {
    forall g | g in t.handlers && g != h
      ensures t.handlers[g].Id() != s.handlers[h].Id()
    {
      assert t.handlers[g] == s.handlers[g];
    }
  }

  lemma LocalStepKeepsRetries(cfg: Config, s: State, t: State, h: nat)
    requires RetriesOk(cfg, s) && Exclusive(cfg, s) && StepFits(cfg, s, t, h)
    ensures RetriesOk(cfg, t)
  {
    hide AllClean, AllTallied, StepFits, Exclusive;
    StepKeepsClean(cfg, s, t, h);
    StepKeepsTallied(cfg, s, t, h);
  }

  lemma Here(cfg: Config, s: State, h: nat)
    requires RetriesOk(cfg, s) && Exclusive(cfg, s) && h in s.handlers
    ensures s.handlers[h].Id() in s.server
    ensures var x := s.handlers[h];
            && CleanOk(cfg, s.server[x.Id()], s.store, x)
            && TallyOk(cfg, s.server[x.Id()], s.store, s.TallyOf(x.Id()), x.pc.Clean())
  {
    hide CleanOk, TallyOk;
    ActiveHere(cfg, s, h);
  }

  /** A step that touches nothing but the handler, which stays as clean as it was. */
  lemma QuietStepFits(cfg: Config, s: State, t: State, h: nat)
    requires RetriesOk(cfg, s) && Exclusive(cfg, s) && h in s.handlers && LocalTo(s, t, h)
    requires t.server == s.server && t.store == s.store && t.tally == s.tally
    requires s.handlers[h].pc.Clean() == (h in t.handlers && t.handlers[h].pc.Clean())
    requires h in t.handlers ==> CleanOk(cfg, s.server[s.handlers[h].Id()], s.store, t.handlers[h])
    ensures StepFits(cfg, s, t, h)
  {
    hide CleanOk, TallyOk, RetriesOk;
    Here(cfg, s, h);
  }

  lemma ReadFits(cfg: Config, s: State, h: nat, m: Move)
    requires RetriesOk(cfg, s) && Exclusive(cfg, s) && CanMove(s, h, m) && (Reads(m) || m.AbandonLoad?)
    ensures StepFits(cfg, s, DoMove(cfg, s, h, m), h)
  {
    hide RetriesOk, Exclusive, StepFits;
    Here(cfg, s, h);
    QuietStepFits(cfg, s, DoMove(cfg, s, h, m), h);
  }

  lemma ExtractFits(cfg: Config, s: State, h: nat, f: Findings)
    requires RetriesOk(cfg, s) && Exclusive(cfg, s) && AllDerived(cfg, s) && cfg.settings.todo != cfg.settings.failed
    requires h in s.handlers && s.handlers[h].pc.Busy? && s.handlers[h].pc.at.Extracting?
    ensures StepFits(cfg, s, DoExtract(cfg, s, h, f), h)
  {
    hide RetriesOk, Exclusive, StepFits, Start, PointComputed;
    Here(cfg, s, h);
    var x := s.handlers[h];
    assert Derived(cfg, x);
    StartSendsOrFails(cfg, x.listed.doc, x.pc.job.(findings := Some(f)), f);
    QuietStepFits(cfg, s, DoExtract(cfg, s, h, f), h);
  }

  lemma BlameCounts(s: State, id: int64, job: Job)
    ensures var t := s.Blame(id, job);
            && (forall i | i != id :: t.TallyOf(i) == s.TallyOf(i))
            && t.TallyOf(id) == if job.clean then s.TallyOf(id).Fault() else s.TallyOf(id)
  {
  }

  /** A fault is counted, and the attempt is clean no more. */
  lemma BlamedStepFits(cfg: Config, s: State, t: State, h: nat)
    requires RetriesOk(cfg, s) && Exclusive(cfg, s) && h in s.handlers && s.handlers[h].pc.Busy? && LocalTo(s, t, h)
    requires t.server == s.server && t.store == s.store
    requires t.tally == s.Blame(s.handlers[h].Id(), s.handlers[h].pc.job).tally
    requires h in t.handlers ==> !t.handlers[h].pc.Clean()
    ensures StepFits(cfg, s, t, h)
  {
    hide RetriesOk, Exclusive;
    Here(cfg, s, h);
    BlameCounts(s, s.handlers[h].Id(), s.handlers[h].pc.job);
  }

  lemma SendErrorFits(cfg: Config, s: State, h: nat, stage: Stage, e: Error)
    requires RetriesOk(cfg, s) && Exclusive(cfg, s) && h in s.handlers && s.handlers[h].pc.Busy?
    ensures StepFits(cfg, s, DoSendError(cfg, s, h, stage, e), h)
  {
    hide RetriesOk, Exclusive, StepFits, OnSendError;
    BlamedStepFits(cfg, s, DoSendError(cfg, s, h, stage, e), h);
  }

  lemma ReadMetadataFits(cfg: Config, s: State, h: nat)
    requires RetriesOk(cfg, s) && Exclusive(cfg, s) && CanMove(s, h, ReadMetadata)
    ensures StepFits(cfg, s, DoReadMetadata(cfg, s, h), h)
  {
    hide RetriesOk, Exclusive, StepFits, DoSendError, CompareSnapshots, NewSnapshot;
    var x := s.handlers[h];
    var err := CompareSnapshots(NewSnapshot(x.listed.doc, x.pc.job.metadata), Ok(x.pc.at.current), Ok(s.server[x.Id()].metadata));
    if err.Some? {
      SendErrorFits(cfg, s, h, x.pc.at.stage, err.value);
    } else {
      Here(cfg, s, h);
      QuietStepFits(cfg, s, DoReadMetadata(cfg, s, h), h);
    }
  }

  /** After any patch of a handler the todo tag is gone, whatever version the server had. */
  lemma PatchedDocument(cfg: Config, s: State, h: nat, modified: Instant)
    requires AllDerived(cfg, s) && cfg.settings.todo != cfg.settings.failed
    requires h in s.handlers && s.handlers[h].Id() in s.server && s.handlers[h].pc.Busy? && s.handlers[h].pc.at.Patching?
    ensures var id := s.handlers[h].Id();
            cfg.settings.todo !in ApplyPatch(s, id, s.handlers[h].pc.at.patch, modified).server[id].doc.tags
  {
    hide Computed, Apply;
    var x := s.handlers[h];
    assert Derived(cfg, x);
    PatchRemovesTodo(cfg, x.listed.doc, x.pc.job, x.pc.at.stage, x.pc.at.patch, s.server[x.Id()].doc);
  }

  /** Once the todo tag is gone, nothing is left to count. */
  lemma PatchingStepFits(cfg: Config, s: State, t: State, h: nat)
    requires h in s.handlers && s.handlers[h].pc.Busy? && LocalTo(s, t, h) && t.store == s.store
    requires var id := s.handlers[h].Id();
             && id in s.server && id in t.server && t.server == s.server[id := t.server[id]]
             && cfg.settings.todo !in t.server[id].doc.tags
             && (t.tally == s.tally || t.tally == s.Blame(id, s.handlers[h].pc.job).tally)
             && (h in t.handlers ==> CleanOk(cfg, t.server[id], t.store, t.handlers[h]))
    ensures StepFits(cfg, s, t, h)
  {
    hide CleanOk;
    BlameCounts(s, s.handlers[h].Id(), s.handlers[h].pc.job);
  }

  lemma SendPatchFits(cfg: Config, s: State, h: nat, modified: Instant)
    requires RetriesOk(cfg, s) && Exclusive(cfg, s) && AllDerived(cfg, s) && cfg.settings.todo != cfg.settings.failed
    requires CanMove(s, h, SendPatch(modified))
    ensures StepFits(cfg, s, DoSendPatch(s, h, modified), h)
  {
    hide RetriesOk, Exclusive, StepFits, AllDerived, Apply;
    Here(cfg, s, h);
    PatchedDocument(cfg, s, h, modified);
    PatchingStepFits(cfg, s, DoSendPatch(s, h, modified), h);
  }

  lemma PatchFailsFits(cfg: Config, s: State, h: nat, e: Error, applied: Option<Instant>)
    requires RetriesOk(cfg, s) && Exclusive(cfg, s) && AllDerived(cfg, s) && cfg.settings.todo != cfg.settings.failed
    requires CanMove(s, h, PatchFails(e, applied))
    ensures StepFits(cfg, s, DoSendError(cfg, AfterFailedPatch(s, h, applied), h, s.handlers[h].pc.at.stage, e), h)
  {
    hide RetriesOk, Exclusive, StepFits, AllDerived, Apply, OnSendError;
    var stage := s.handlers[h].pc.at.stage;
    if applied.Some? {
      PatchedDocument(cfg, s, h, applied.value);
      var s1 := AfterFailedPatch(s, h, applied);
      PatchingStepFits(cfg, s, DoSendError(cfg, s1, h, stage, e), h);
    } else {
      SendErrorFits(cfg, s, h, stage, e);
    }
  }

  lemma PassCounts(cfg: Config, sd: ServerDoc, store: Records, n: Tally, clean: bool)
    requires TallyOk(cfg, sd, store, n, false)
    ensures TallyOk(cfg, sd, store, n.Pass(clean), clean)
  {
  }

  lemma CountsStay(store: Records)
    ensures CountsGrow(store, store)
  {
  }

  lemma GateRecord(store: Records, doc: Document, metadata: Metadata, begin: Instant)
    ensures var gate := Gate(store, doc, metadata, begin);
            gate.Some? ==> DocumentKey(doc, metadata) in store || gate.value.retryCount == 0
  {
  }

  lemma PassedClean(cfg: Config, sd: ServerDoc, store: Records, x: Handler, job: Job)
    requires job.clean ==> x.listed.number == |sd.past| && job.key == sd.Key()
    requires job.key in store || job.rec.retryCount == 0
    ensures CleanOk(cfg, sd, store, x.(pc := Busy(job, Extracting)))
  {
  }

  /** The attempt that passes the gate is counted, as running clean or as met by a fault. */
  lemma PassGateFits(cfg: Config, s: State, h: nat)
    requires RetriesOk(cfg, s) && Exclusive(cfg, s) && CanMove(s, h, PassGate)
    ensures StepFits(cfg, s, DoPassGate(s, h), h)
  {
    hide RetriesOk, Exclusive, TallyOk, CleanOk, CountsGrow, Gate, DocumentKey;
    Here(cfg, s, h);
    var x := s.handlers[h];
    var t := DoPassGate(s, h);
    if h !in t.handlers {
      QuietStepFits(cfg, s, t, h);
    } else {
      var sd, job := s.server[x.Id()], t.handlers[h].pc.job;
      GateRecord(s.store, x.listed.doc, x.pc.metadata, x.pc.begin);
      PassedClean(cfg, sd, s.store, x, job);
      if job.key == sd.Key() {
        CountsStay(s.store);
        PassCounts(cfg, sd, s.store, s.TallyOf(x.Id()), job.clean);
      } else {
        QuietStepFits(cfg, s, t, h);
      }
    }
  }

  /** Saving leaves a record with at least as many failures as before, one more after an error. */
  lemma SaveGrows(cfg: Config, s: State, h: nat)
    requires RecordsOk(cfg, s) && CanMove(s, h, Save)
    ensures var job, t := s.handlers[h].pc.job, DoSave(cfg, s, h);
            && CountsGrow(s.store, t.store)
            && job.key in t.store
            && t.store[job.key].retryCount == job.rec.retryCount + (if s.handlers[h].pc.at.err.Some? then 1 else 0)
            && (job.key in s.store ==> s.store[job.key].retryCount == job.rec.retryCount)
  {
    hide Ready, DocumentKey, RecordOk;
    assert AttemptOk(cfg, s.now, s.store, s.handlers[h]);
  }

  /** A clean failed attempt spends a retry, and its record counts it. */
  lemma SpendCounts(cfg: Config, sd: ServerDoc, store: Records, later: Records, n: Tally, x: Handler)
    requires TallyOk(cfg, sd, store, n, true) && CleanOk(cfg, sd, store, x) && CountsGrow(store, later)
    requires x.pc.Clean() && x.pc.at.Saving? && x.pc.at.err.Some?
    requires var job := x.pc.job;
             && job.key in later && later[job.key].retryCount == job.rec.retryCount + 1
             && (job.key in store ==> store[job.key].retryCount == job.rec.retryCount)
    ensures TallyOk(cfg, sd, later, n.Spend(), false)
  {
  }

  lemma IdleTally(cfg: Config, sd: ServerDoc, store: Records, n: Tally, x: Handler)
    requires TallyOk(cfg, sd, store, n, x.pc.Clean()) && CleanOk(cfg, sd, store, x)
    requires x.pc.Busy? && x.pc.at.Saving? && (x.pc.at.err.None? || !x.pc.job.clean)
    ensures TallyOk(cfg, sd, store, n, false)
  {
  }

  lemma SaveFits(cfg: Config, s: State, h: nat)
    requires RetriesOk(cfg, s) && Exclusive(cfg, s) && RecordsOk(cfg, s) && CanMove(s, h, Save)
    ensures StepFits(cfg, s, DoSave(cfg, s, h), h)
  {
    hide RetriesOk, Exclusive, RecordsOk, TallyOk, CleanOk, CountsGrow, Saved;
    Here(cfg, s, h);
    SaveGrows(cfg, s, h);
    var x, t := s.handlers[h], DoSave(cfg, s, h);
    var sd, n := s.server[x.Id()], s.TallyOf(x.Id());
    if x.pc.at.err.Some? && x.pc.job.clean {
      SpendCounts(cfg, sd, s.store, t.store, n, x);
    } else {
      IdleTally(cfg, sd, s.store, n, x);
      TallyStays(cfg, sd, s.store, t.store, n, false);
    }
  }

  lemma MoveKeepsRetries(cfg: Config, s: State, h: nat, m: Move)
    requires RetriesOk(cfg, s) && Exclusive(cfg, s) && RecordsOk(cfg, s) && AllDerived(cfg, s)
    requires cfg.settings.todo != cfg.settings.failed && CanMove(s, h, m)
    ensures RetriesOk(cfg, DoMove(cfg, s, h, m))
  {
    hide RetriesOk, Exclusive, RecordsOk, AllDerived, StepFits,
         DoPassGate, DoExtract, DoSendError, DoReadMetadata, AfterFailedPatch, DoSave, DoSendPatch;
    match m {
      case PassGate => PassGateFits(cfg, s, h);
      case UpdaterFails(_) => BlamedStepFits(cfg, s, DoMove(cfg, s, h, m), h);
      case Extract(f) => ExtractFits(cfg, s, h, f);
      case ReadMetadata => ReadMetadataFits(cfg, s, h);
      case CheckFails(e) => SendErrorFits(cfg, s, h, s.handlers[h].pc.at.stage, e);
      case SendPatch(modified) => SendPatchFits(cfg, s, h, modified);
      case PatchFails(e, applied) => PatchFailsFits(cfg, s, h, e, applied);
      case Save => SaveFits(cfg, s, h);
      case SaveFails => BlamedStepFits(cfg, s, DoMove(cfg, s, h, m), h);
      case _ => ReadFits(cfg, s, h, m);
    }
    LocalStepKeepsRetries(cfg, s, DoMove(cfg, s, h, m), h);
  }

  // ---------------------------------------------------------------- other steps

  lemma TallyFromScratch(cfg: Config, sd: ServerDoc, store: Records, active: bool)
    ensures TallyOk(cfg, sd, store, Tally(0, 0, 0), active)
  {
  }

  lemma ForeignWriteKeepsClean(cfg: Config, s: State, id: int64, doc: Document, metadata: Metadata)
    requires AllClean(cfg, s)
    ensures AllClean(cfg, DoForeignWrite(s, id, doc, metadata))
  {
  }

  lemma ForeignWriteKeepsTallied(cfg: Config, s: State, id: int64, doc: Document, metadata: Metadata)
    requires AllTallied(cfg, s)
    ensures AllTallied(cfg, DoForeignWrite(s, id, doc, metadata))
  {
    hide TallyOk;
    var t := DoForeignWrite(s, id, doc, metadata);
    forall i | i in t.server
      ensures TallyOk(cfg, t.server[i], t.store, t.TallyOf(i), Active(t, i))
    {
      if i == id {
        TallyFromScratch(cfg, t.server[i], t.store, Active(t, i));
      } else {
        OthersStayActive(s, t, id, i);
      }
    }
  }

  lemma OthersStayActive(s: State, t: State, id: int64, i: int64)
    requires t.handlers.Keys == s.handlers.Keys && i != id
    requires forall h | h in s.handlers :: t.handlers[h].listed == s.handlers[h].listed
    requires forall h | h in s.handlers && s.handlers[h].Id() != id :: t.handlers[h] == s.handlers[h]
    ensures Active(t, i) == Active(s, i)
  {
  }

  lemma PruneKeepsClean(cfg: Config, s: State)
    requires AllClean(cfg, s) && s.cutoff.Some?
    ensures AllClean(cfg, DoFinishPrune(s))
  {
    PruneKeepsExactly(s.store, s.cutoff.value);
    hide EndsWell;
  }

  /** A clean attempt at a document with the todo tag stays clean unless the prune deletes the
      record of the present version. */
  lemma PruneSparesActive(cfg: Config, s: State, id: int64)
    requires AllClean(cfg, s) && s.cutoff.Some? && Active(s, id)
    requires id in s.server && cfg.settings.todo in s.server[id].doc.tags
    requires s.server[id].Key() !in Expired(s.store, s.cutoff.value)
    ensures Active(DoFinishPrune(s), id)
  {
    var h :| h in s.handlers && s.handlers[h].Id() == id && s.handlers[h].pc.Clean();
    assert CleanOk(cfg, s.server[id], s.store, s.handlers[h]);
    assert DoFinishPrune(s).handlers[h] == s.handlers[h];
  }

  lemma TallyMoreActive(cfg: Config, sd: ServerDoc, store: Records, left: Records, n: Tally, was: bool, active: bool)
    requires TallyOk(cfg, sd, store, n, was)
    requires cfg.settings.todo in sd.doc.tags && was ==> active
    requires sd.Key() in store ==> sd.Key() in left && left[sd.Key()] == store[sd.Key()]
    ensures TallyOk(cfg, sd, left, n, active)
  {
  }

  lemma PruneKeepsTallied(cfg: Config, s: State)
    requires AllClean(cfg, s) && AllTallied(cfg, s) && s.cutoff.Some?
    ensures AllTallied(cfg, DoFinishPrune(s))
  {
    hide TallyOk, AllClean, Active;
    PruneKeepsExactly(s.store, s.cutoff.value);
    var t := DoFinishPrune(s);
    forall i | i in t.server
      ensures TallyOk(cfg, t.server[i], t.store, t.TallyOf(i), Active(t, i))
    {
      var sd := s.server[i];
      if sd.Key() in Expired(s.store, s.cutoff.value) {
        TallyFromScratch(cfg, sd, t.store, Active(t, i));
      } else {
        if cfg.settings.todo in sd.doc.tags && Active(s, i) {
          PruneSparesActive(cfg, s, i);
        }
        TallyMoreActive(cfg, sd, s.store, t.store, s.TallyOf(i), Active(s, i), Active(t, i));
      }
    }
  }

  lemma DeliverKeepsClean(cfg: Config, s: State)
    requires AllClean(cfg, s) && PageTracks(s) && s.page != []
    ensures AllClean(cfg, DoDeliver(s))
  {
    hide Tracks, EndsWell;
    var t := DoDeliver(s);
    forall h | h in t.handlers
      ensures t.handlers[h].Id() in t.server && CleanOk(cfg, t.server[t.handlers[h].Id()], t.store, t.handlers[h])
    {
      if h in s.handlers && t.handlers[h] == s.handlers[h] {
        assert CleanOk(cfg, s.server[s.handlers[h].Id()], s.store, s.handlers[h]);
      }
    }
  }

  lemma DeliverKeepsActive(s: State, id: int64)
    requires s.page != [] && s.nextHandler !in s.handlers
    ensures Active(DoDeliver(s), id) == Active(s, id)
  {
    var t := DoDeliver(s);
    if Active(s, id) {
      var h :| h in s.handlers && s.handlers[h].Id() == id && s.handlers[h].pc.Clean();
      assert t.handlers[h] == s.handlers[h];
    }
  }

  lemma DeliverKeepsTallied(cfg: Config, s: State)
    requires AllTallied(cfg, s) && Exclusive(cfg, s) && s.page != []
    ensures AllTallied(cfg, DoDeliver(s))
  {
    assert s.nextHandler !in s.handlers;
    hide TallyOk, Active, Exclusive;
    var t := DoDeliver(s);
    forall i | i in t.server
      ensures TallyOk(cfg, t.server[i], t.store, t.TallyOf(i), Active(t, i))
    {
      DeliverKeepsActive(s, i);
    }
  }

  lemma QuietKeepsRetries(cfg: Config, s: State, t: State)
    requires RetriesOk(cfg, s) && t.server == s.server && t.store == s.store && t.handlers == s.handlers && t.tally == s.tally
    ensures RetriesOk(cfg, t)
  {
    hide TallyOk, CleanOk;
    assert forall i :: Active(t, i) == Active(s, i);
  }

  lemma StepKeepsRetries(cfg: Config, s: State, a: Action)
    requires RetriesOk(cfg, s) && Exclusive(cfg, s) && RecordsOk(cfg, s) && AllDerived(cfg, s) && Tracking(s)
    requires cfg.settings.todo != cfg.settings.failed && Enabled(cfg, s, a)
    ensures RetriesOk(cfg, Do(cfg, s, a))
  {
    hide Exclusive, RecordsOk, AllDerived, AllClean, AllTallied, PageTracks, HandlersTrack,
         DoMove, DoFinishPrune, DoForeignWrite, DoDeliver, CanMove;
    match a
    case ForeignWrite(id, doc, m) =>
      ForeignWriteKeepsClean(cfg, s, id, doc, m);
      ForeignWriteKeepsTallied(cfg, s, id, doc, m);
    case Deliver =>
      DeliverKeepsClean(cfg, s);
      DeliverKeepsTallied(cfg, s);
    case HandlerStep(h, m) => MoveKeepsRetries(cfg, s, h, m);
    case FinishPrune =>
      PruneKeepsClean(cfg, s);
      PruneKeepsTallied(cfg, s);
    case _ => QuietKeepsRetries(cfg, s, Do(cfg, s, a));
  }
}
