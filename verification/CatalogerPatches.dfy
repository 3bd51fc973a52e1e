/** Where the patches that handlers send come from. */
module CatalogerPatches {
  import opened Common
  import opened Documents
  import opened Errors
  import opened Tasks
  import opened Patches
  import opened Updater
  import opened Cataloger

  /** The attempt may give the document up: its findings lead to an error, and no retries are left
      or none can help. */
  ghost predicate Justified(cfg: Config, doc: Document, job: Job) {
    && job.findings.Some?
    && var r := Prepared(cfg.settings, doc, job.metadata, job.findings.value);
       r.Err? && (job.rec.retryCount >= cfg.retriesMax || !Temporary(r.error))
  }

  /** A patch computed from the listed document: from the findings of the attempt, or as the mark
      of a failure, which needs a reason unless a fault intervened. */
  ghost predicate Computed(cfg: Config, doc: Document, job: Job, stage: Stage, p: Patch) {
    match stage
    case MarkFailed => p == FailedPatch(cfg.settings, doc) && (job.clean ==> Justified(cfg, doc, job))
    case ApplyFacts => job.findings.Some? && Prepared(cfg.settings, doc, job.metadata, job.findings.value) == Ok(p)
  }

  ghost predicate PointComputed(cfg: Config, doc: Document, job: Job, at: Point) {
    match at
    case Checking(stage, p) => Computed(cfg, doc, job, stage, p)
    case CheckingMetadata(stage, p, _, _) => Computed(cfg, doc, job, stage, p)
    case Patching(stage, p, _) => Computed(cfg, doc, job, stage, p)
    case _ => true
  }

  ghost predicate Derived(cfg: Config, x: Handler) {
    && cfg.settings.todo in x.listed.doc.tags
    && (x.pc.Busy? ==> PointComputed(cfg, x.listed.doc, x.pc.job, x.pc.at))
  }

  /** Handlers work on documents that were listed with the todo tag, and send only patches that
      were computed from the listed document. */
  ghost predicate AllDerived(cfg: Config, s: State) {
    && (forall i | 0 <= i < |s.page| :: cfg.settings.todo in s.page[i].doc.tags)
    && (forall h | h in s.handlers :: Derived(cfg, s.handlers[h]))
  }

  // ---------------------------------------------------------------- what the patches do

  /** Whatever version the patch is applied to, the todo tag is gone. */
  lemma PatchRemovesTodo(cfg: Config, doc: Document, job: Job, stage: Stage, p: Patch, current: Document)
    requires cfg.settings.todo != cfg.settings.failed && cfg.settings.todo in doc.tags
    requires Computed(cfg, doc, job, stage, p)
    ensures cfg.settings.todo !in Apply(current, p).tags
  {
    hide Prepared, FailedPatch;
    var todo := cfg.settings.todo;
    assert p.tags.Some? && todo !in Apply(doc, p).tags by {
      if stage.MarkFailed? {
        FailedPatchMeaning(cfg.settings, doc);
        assert todo !in Elements(Apply(doc, p).tags);
      } else {
        PreparedMeaning(cfg.settings, doc, job.metadata, job.findings.value, p);
      }
    }
  }

  /** A document that carries the todo tag is never left alone: an update sends a patch, or gives
      up with an error that allows a retry. */
  lemma StartSendsOrFails(cfg: Config, doc: Document, job: Job, f: Findings)
    requires cfg.settings.todo != cfg.settings.failed && cfg.settings.todo in doc.tags
    ensures var next := Start(cfg.settings, doc, job.metadata, LastRetry(cfg, job), f);
            next.Return? ==> next.err.Some? && job.rec.retryCount < cfg.retriesMax
  {
    hide Prepared, FailedPatch;
    FailedPatchMeaning(cfg.settings, doc);
    if Prepared(cfg.settings, doc, job.metadata, f).Ok? {
      PreparedMeaning(cfg.settings, doc, job.metadata, f, Prepared(cfg.settings, doc, job.metadata, f).value);
    }
  }

  // ---------------------------------------------------------------- steps

  lemma StartComputed(cfg: Config, doc: Document, job: Job, f: Findings)
    requires job.findings == Some(f)
    ensures var next := Start(cfg.settings, doc, job.metadata, LastRetry(cfg, job), f);
            next.Send? ==> Computed(cfg, doc, job, next.stage, next.patch)
  {
    hide Prepared, FailedPatch, IsPermanent, Temporary;
    StartDecision(cfg.settings, doc, job.metadata, LastRetry(cfg, job), f);
  }

  lemma SendErrorComputed(cfg: Config, doc: Document, job: Job, stage: Stage, e: Error)
    requires !job.clean
    ensures var next := OnSendError(cfg.settings, doc, LastRetry(cfg, job), stage, e);
            next.Send? ==> Computed(cfg, doc, job, next.stage, next.patch)
  {
    hide Prepared, FailedPatch;
  }

  lemma LocalStepDerives(cfg: Config, s: State, t: State, h: nat)
    requires AllDerived(cfg, s) && LocalTo(s, t, h)
    requires h in t.handlers ==> Derived(cfg, t.handlers[h])
    ensures AllDerived(cfg, t)
  {
    hide Derived;
  }

  lemma TaintingDerives(cfg: Config, s: State, t: State)
    requires AllDerived(cfg, s) && KeepsHandlers(s, t)
    requires forall g | g in t.handlers :: t.handlers[g] == s.handlers[g] || t.handlers[g] == Tainted(s.handlers[g])
    ensures AllDerived(cfg, t)
  {
    hide Prepared, FailedPatch;
    forall g | g in t.handlers
      ensures Derived(cfg, t.handlers[g])
    {
      assert Derived(cfg, s.handlers[g]);
    }
  }

  lemma SendErrorDerives(cfg: Config, s: State, h: nat, stage: Stage, e: Error)
    requires AllDerived(cfg, s) && h in s.handlers && s.handlers[h].pc.Busy?
    ensures AllDerived(cfg, DoSendError(cfg, s, h, stage, e))
  {
    hide Computed, OnSendError;
    var x := s.handlers[h];
    SendErrorComputed(cfg, x.listed.doc, x.pc.job.(clean := false), stage, e);
    assert Derived(cfg, x);
    LocalStepDerives(cfg, s, DoSendError(cfg, s, h, stage, e), h);
  }

  lemma ExtractDerives(cfg: Config, s: State, h: nat, f: Findings)
    requires AllDerived(cfg, s) && h in s.handlers && s.handlers[h].pc.Busy? && s.handlers[h].pc.at.Extracting?
    ensures AllDerived(cfg, DoExtract(cfg, s, h, f))
  {
    hide Computed, Start;
    var x := s.handlers[h];
    StartComputed(cfg, x.listed.doc, x.pc.job.(findings := Some(f)), f);
    assert Derived(cfg, x);
    LocalStepDerives(cfg, s, DoExtract(cfg, s, h, f), h);
  }

  lemma ReadMetadataDerives(cfg: Config, s: State, h: nat)
    requires AllDerived(cfg, s) && CanMove(s, h, ReadMetadata)
    ensures AllDerived(cfg, DoReadMetadata(cfg, s, h))
  {
    hide Computed, CompareSnapshots, DoSendError, NewSnapshot;
    var x := s.handlers[h];
    var at := x.pc.at;
    assert Derived(cfg, x);
    var err := CompareSnapshots(NewSnapshot(x.listed.doc, x.pc.job.metadata), Ok(at.current), Ok(s.server[x.Id()].metadata));
    if err.Some? {
      SendErrorDerives(cfg, s, h, at.stage, err.value);
    } else {
      LocalStepDerives(cfg, s, DoReadMetadata(cfg, s, h), h);
    }
  }

  lemma OtherMovesDerive(cfg: Config, s: State, h: nat, m: Move)
    requires AllDerived(cfg, s) && CanMove(s, h, m)
    requires Reads(m) || GivesUp(m)
    ensures AllDerived(cfg, DoMove(cfg, s, h, m))
  {
    hide Computed;
    assert Derived(cfg, s.handlers[h]);
    LocalStepDerives(cfg, s, DoMove(cfg, s, h, m), h);
  }

  lemma PassGateDerives(cfg: Config, s: State, h: nat)
    requires AllDerived(cfg, s) && CanMove(s, h, PassGate)
    ensures AllDerived(cfg, DoPassGate(s, h))
  {
    hide Computed, Gate, DocumentKey;
    assert Derived(cfg, s.handlers[h]);
    LocalStepDerives(cfg, s, DoPassGate(s, h), h);
  }

  lemma SendPatchDerives(cfg: Config, s: State, h: nat, modified: Instant)
    requires AllDerived(cfg, s) && CanMove(s, h, SendPatch(modified))
    ensures AllDerived(cfg, DoSendPatch(s, h, modified))
  {
    hide Computed, Apply;
    assert Derived(cfg, s.handlers[h]);
    LocalStepDerives(cfg, s, DoSendPatch(s, h, modified), h);
  }

  lemma MoveDerives(cfg: Config, s: State, h: nat, m: Move)
    requires AllDerived(cfg, s) && CanMove(s, h, m)
    ensures AllDerived(cfg, DoMove(cfg, s, h, m))
  {
    hide AllDerived, DoPassGate, DoExtract, DoSendError, DoReadMetadata, AfterFailedPatch, DoSave, DoSendPatch;
    match m
    case PassGate => PassGateDerives(cfg, s, h);
    case SendPatch(modified) => SendPatchDerives(cfg, s, h, modified);
    case Save => LocalStepDerives(cfg, s, DoSave(cfg, s, h), h);
    case Extract(f) => ExtractDerives(cfg, s, h, f);
    case ReadMetadata => ReadMetadataDerives(cfg, s, h);
    case CheckFails(e) => SendErrorDerives(cfg, s, h, s.handlers[h].pc.at.stage, e);
    case PatchFails(e, applied) =>
      var s1 := AfterFailedPatch(s, h, applied);
      SameHandlersDerive(cfg, s, s1);
      SendErrorDerives(cfg, s1, h, s.handlers[h].pc.at.stage, e);
    case _ => OtherMovesDerive(cfg, s, h, m);
  }

  lemma SameHandlersDerive(cfg: Config, s: State, t: State)
    requires AllDerived(cfg, s) && t.handlers == s.handlers && (t.page == s.page || t.page == [])
    ensures AllDerived(cfg, t)
  {
    hide Derived;
  }

  lemma DeliverDerives(cfg: Config, s: State)
    requires AllDerived(cfg, s) && s.page != []
    ensures AllDerived(cfg, DoDeliver(s))
  {
    hide Computed;
    assert forall i | 0 <= i < |s.page| - 1 :: s.page[1..][i] == s.page[i + 1];
    assert cfg.settings.todo in s.page[0].doc.tags;
  }

  lemma FetchPageDerives(cfg: Config, s: State, ids: seq<int64>)
    requires AllDerived(cfg, s)
    requires forall i | 0 <= i < |ids| :: ids[i] in s.server && cfg.settings.todo in s.server[ids[i]].doc.tags
    ensures AllDerived(cfg, DoFetchPage(s, ids))
  {
    hide Derived;
  }

  lemma StepDerives(cfg: Config, s: State, a: Action)
    requires AllDerived(cfg, s) && Enabled(cfg, s, a)
    ensures AllDerived(cfg, Do(cfg, s, a))
  {
    hide AllDerived, DoMove, DoFetchPage, DoDeliver, CanMove;
    match a
    case ForeignWrite(id, doc, m) => TaintingDerives(cfg, s, DoForeignWrite(s, id, doc, m));
    case FetchPage(ids) => FetchPageDerives(cfg, s, ids);
    case Deliver => DeliverDerives(cfg, s);
    case HandlerStep(h, m) => MoveDerives(cfg, s, h, m);
    case FinishPrune => TaintingDerives(cfg, s, DoFinishPrune(s));
    case _ => SameHandlersDerive(cfg, s, Do(cfg, s, a));
  }
}
