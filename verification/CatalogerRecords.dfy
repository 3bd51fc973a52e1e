/** The records in every run of the cataloger: their history stays consistent and only grows. */
module CatalogerRecords {
  import opened Common
  import opened Utf8
  import opened Documents
  import opened Errors
  import opened TaskKey
  import opened Store
  import opened History
  import opened Tasks
  import opened Cataloger
  import opened CatalogerWalk

  ghost predicate RecordOk(cfg: Config, now: Instant, key: Bytes, rec: DocumentTask) {
    Consistent(rec, cfg.delay) && KeyOf(rec) == key && rec.recordUpdated <= now
  }

  ghost predicate StoreOk(cfg: Config, now: Instant, store: Records) {
    forall k | k in store :: RecordOk(cfg, now, k, store[k])
  }

  /** An attempt works on the record of its key: the stored one, unless that was pruned. */
  ghost predicate JobOk(cfg: Config, now: Instant, store: Records, doc: Document, job: Job) {
    && job.key == DocumentKey(doc, job.metadata) == KeyOf(job.rec)
    && job.begin <= now
    && Ready(job.rec, job.begin, cfg.delay)
    && (job.key in store ==> store[job.key] == job.rec)
  }

  ghost predicate AttemptOk(cfg: Config, now: Instant, store: Records, x: Handler) {
    && (x.pc.Begun? ==>
          var key := DocumentKey(x.listed.doc, x.pc.metadata);
          ZERO_TIME <= x.pc.begin <= now && (key in store ==> store[key].recordUpdated <= x.pc.begin))
    && (x.pc.Busy? ==> JobOk(cfg, now, store, x.listed.doc, x.pc.job))
  }

  ghost predicate RecordsOk(cfg: Config, s: State) {
    && ZERO_TIME <= s.now
    && StoreOk(cfg, s.now, s.store)
    && forall h | h in s.handlers :: AttemptOk(cfg, s.now, s.store, s.handlers[h])
  }

  /** Keys of different documents differ. */
  lemma KeyTellsId(d: Document, m: Metadata, d': Document, m': Metadata)
    requires DocumentKey(d, m) == DocumentKey(d', m')
    ensures d.id == d'.id
  {
    KeyInjective(FreshRecord(d, m), FreshRecord(d', m'));
  }

  /** Handlers of different documents work on different keys. */
  lemma KeysDoNotClash(cfg: Config, s: State, g: nat, h: nat)
    requires RecordsOk(cfg, s) && Exclusive(cfg, s) && g in s.handlers && h in s.handlers && g != h
    ensures s.handlers[g].pc.Busy? && s.handlers[h].pc.Busy? ==> s.handlers[g].pc.job.key != s.handlers[h].pc.job.key
    ensures s.handlers[g].pc.Begun? && s.handlers[h].pc.Busy? ==>
              DocumentKey(s.handlers[g].listed.doc, s.handlers[g].pc.metadata) != s.handlers[h].pc.job.key
  {
    var x, y := s.handlers[g], s.handlers[h];
    assert AttemptOk(cfg, s.now, s.store, x) && AttemptOk(cfg, s.now, s.store, y);
    if y.pc.Busy? && x.pc.Busy? && x.pc.job.key == y.pc.job.key {
      KeyTellsId(x.listed.doc, x.pc.job.metadata, y.listed.doc, y.pc.job.metadata);
    }
    if y.pc.Busy? && x.pc.Begun? && DocumentKey(x.listed.doc, x.pc.metadata) == y.pc.job.key {
      KeyTellsId(x.listed.doc, x.pc.metadata, y.listed.doc, y.pc.job.metadata);
    }
  }

  // ---------------------------------------------------------------- steps

  lemma SameAttemptStaysOk(cfg: Config, now: Instant, later: Instant, store: Records, left: Records, x: Handler, y: Handler)
    requires AttemptOk(cfg, now, store, x) && x.listed == y.listed && SameAttempt(x.pc, y.pc) && now <= later
    requires left.Keys <= store.Keys && forall k | k in left :: left[k] == store[k]
    ensures AttemptOk(cfg, later, left, y)
  {
  }

  /** Nothing but time and deletions happened to the store, and attempts went on as they were. */
  lemma CarriedAttemptsStayOk(cfg: Config, s: State, t: State)
    requires RecordsOk(cfg, s) && KeepsHandlers(s, t) && s.now <= t.now
    requires forall h | h in t.handlers :: SameAttempt(s.handlers[h].pc, t.handlers[h].pc)
    requires t.store.Keys <= s.store.Keys && forall k | k in t.store :: t.store[k] == s.store[k]
    ensures RecordsOk(cfg, t)
  {
    forall h | h in t.handlers
      ensures AttemptOk(cfg, t.now, t.store, t.handlers[h])
    {
      SameAttemptStaysOk(cfg, s.now, t.now, s.store, t.store, s.handlers[h], t.handlers[h]);
    }
  }

  lemma LocalStepKeepsRecords(cfg: Config, s: State, t: State, h: nat)
    requires RecordsOk(cfg, s) && LocalTo(s, t, h) && SameRecords(s, t)
    requires h in t.handlers ==> AttemptOk(cfg, s.now, s.store, t.handlers[h])
    ensures RecordsOk(cfg, t)
  {
  }

  lemma GoingOnKeepsRecords(cfg: Config, s: State, t: State, h: nat)
    requires RecordsOk(cfg, s) && LocalTo(s, t, h) && SameRecords(s, t)
    requires h in t.handlers ==> SameAttempt(s.handlers[h].pc, t.handlers[h].pc)
    ensures RecordsOk(cfg, t)
  {
    if h in t.handlers {
      SameAttemptStaysOk(cfg, s.now, s.now, s.store, s.store, s.handlers[h], t.handlers[h]);
    }
    LocalStepKeepsRecords(cfg, s, t, h);
  }

  lemma FreshRecordReady(doc: Document, metadata: Metadata, begin: Instant, delay: nat -> Duration)
    requires ZERO_TIME <= begin
    ensures var rec := FreshRecord(doc, metadata).(recordCreated := begin);
            Ready(rec, begin, delay) && KeyOf(rec) == DocumentKey(doc, metadata)
  {
  }

  /** The attempt behind an open gate is in order. */
  lemma GateGivesReadyJob(cfg: Config, now: Instant, store: Records, doc: Document, metadata: Metadata, begin: Instant, clean: bool)
    requires StoreOk(cfg, now, store) && ZERO_TIME <= begin <= now && Gate(store, doc, metadata, begin).Some?
    requires var key := DocumentKey(doc, metadata); key in store ==> store[key].recordUpdated <= begin
    ensures JobOk(cfg, now, store, doc,
                  Job(metadata, begin, DocumentKey(doc, metadata), Gate(store, doc, metadata, begin).value, None, clean))
  {
    FreshRecordReady(doc, metadata, begin, cfg.delay);
    var key := DocumentKey(doc, metadata);
    if key in store {
      assert RecordOk(cfg, now, key, store[key]);
    }
  }

  lemma PassGateKeepsRecords(cfg: Config, s: State, h: nat)
    requires RecordsOk(cfg, s) && CanMove(s, h, PassGate)
    ensures RecordsOk(cfg, DoPassGate(s, h))
  {
    hide Gate, StoreOk, JobOk, DocumentKey;
    var x := s.handlers[h];
    var t := DoPassGate(s, h);
    assert AttemptOk(cfg, s.now, s.store, x);
    if h in t.handlers {
      GateGivesReadyJob(cfg, s.now, s.store, x.listed.doc, x.pc.metadata, x.pc.begin, t.handlers[h].pc.job.clean);
    }
    LocalStepKeepsRecords(cfg, s, t, h);
  }

  lemma ReadClockKeepsRecords(cfg: Config, s: State, h: nat)
    requires RecordsOk(cfg, s) && CanMove(s, h, ReadClock)
    ensures RecordsOk(cfg, s.WithPc(h, Begun(s.handlers[h].pc.metadata, s.now)))
  {
    var x := s.handlers[h];
    var key := DocumentKey(x.listed.doc, x.pc.metadata);
    if key in s.store {
      assert RecordOk(cfg, s.now, key, s.store[key]);
    }
    LocalStepKeepsRecords(cfg, s, s.WithPc(h, Begun(x.pc.metadata, s.now)), h);
  }

  lemma SavedRecordOk(cfg: Config, now: Instant, store: Records, doc: Document, job: Job, err: Option<Error>)
    requires JobOk(cfg, now, store, doc, job)
    ensures RecordOk(cfg, now, job.key, Saved(job.rec, job.begin, now, err, cfg.delay(job.rec.retryCount)))
  {
    SaveKeepsConsistent(job.rec, job.begin, now, err, cfg.delay);
  }

  lemma WriteKeepsRecords(cfg: Config, s: State, t: State, h: nat, rec: DocumentTask)
    requires RecordsOk(cfg, s) && Exclusive(cfg, s) && h in s.handlers && s.handlers[h].pc.Busy?
    requires LocalTo(s, t, h) && h !in t.handlers && t.now == s.now
    requires t.store == s.store[s.handlers[h].pc.job.key := rec] && RecordOk(cfg, s.now, s.handlers[h].pc.job.key, rec)
    ensures RecordsOk(cfg, t)
  {
    forall g | g in t.handlers
      ensures AttemptOk(cfg, t.now, t.store, t.handlers[g])
    {
      assert AttemptOk(cfg, s.now, s.store, s.handlers[g]);
      KeysDoNotClash(cfg, s, g, h);
    }
  }

  /** Saving keeps the records in order: handlers of other documents write other keys. */
  lemma SaveKeepsRecords(cfg: Config, s: State, h: nat)
    requires RecordsOk(cfg, s) && Exclusive(cfg, s) && CanMove(s, h, Save)
    ensures RecordsOk(cfg, DoSave(cfg, s, h))
  {
    hide JobOk, RecordOk, Saved, StoreOk, DocumentKey, Exclusive;
    var x := s.handlers[h];
    assert AttemptOk(cfg, s.now, s.store, x);
    var job, t := x.pc.job, DoSave(cfg, s, h);
    var rec := Saved(job.rec, job.begin, s.now, x.pc.at.err, cfg.delay(job.rec.retryCount));
    SavedRecordOk(cfg, s.now, s.store, x.listed.doc, job, x.pc.at.err);
    assert t.store == s.store[job.key := rec];
    WriteKeepsRecords(cfg, s, t, h, rec);
  }

  /** Every step of a handler but a save leaves the records alone, and goes on with the same
      attempt unless it reads the clock or passes the gate. */
  lemma MoveGoesOn(cfg: Config, s: State, h: nat, m: Move)
    requires CanMove(s, h, m) && !m.Save?
    ensures var t := DoMove(cfg, s, h, m);
            && LocalTo(s, t, h) && SameRecords(s, t)
            && (h in t.handlers && !m.ReadClock? && !m.PassGate? ==> SameAttempt(s.handlers[h].pc, t.handlers[h].pc))
  {
  }

  lemma MoveKeepsRecords(cfg: Config, s: State, h: nat, m: Move)
    requires RecordsOk(cfg, s) && Exclusive(cfg, s) && CanMove(s, h, m)
    ensures RecordsOk(cfg, DoMove(cfg, s, h, m))
  {
    hide RecordsOk, Exclusive, DoPassGate, DoExtract, DoSendError, DoReadMetadata, ApplyPatch, AfterFailedPatch, DoSave;
    match m
    case ReadClock => ReadClockKeepsRecords(cfg, s, h);
    case PassGate => PassGateKeepsRecords(cfg, s, h);
    case Save => SaveKeepsRecords(cfg, s, h);
    case _ =>
      MoveGoesOn(cfg, s, h, m);
      GoingOnKeepsRecords(cfg, s, DoMove(cfg, s, h, m), h);
  }

  lemma DeliverKeepsRecords(cfg: Config, s: State)
    requires RecordsOk(cfg, s) && s.page != []
    ensures RecordsOk(cfg, DoDeliver(s))
  {
    hide StoreOk, JobOk;
  }

  lemma UntouchedRecordsStayOk(cfg: Config, s: State, t: State)
    requires RecordsOk(cfg, s) && t.now == s.now && t.store == s.store && t.handlers == s.handlers
    ensures RecordsOk(cfg, t)
  {
  }

  lemma StepKeepsRecords(cfg: Config, s: State, a: Action)
    requires RecordsOk(cfg, s) && Exclusive(cfg, s) && Enabled(cfg, s, a)
    ensures RecordsOk(cfg, Do(cfg, s, a))
  {
    hide RecordsOk, Exclusive;
    match a
    case Tick(dt) => CarriedAttemptsStayOk(cfg, s, s.(now := s.now + dt));
    case ForeignWrite(id, doc, m) => CarriedAttemptsStayOk(cfg, s, DoForeignWrite(s, id, doc, m));
    case Deliver => DeliverKeepsRecords(cfg, s);
    case HandlerStep(h, m) => MoveKeepsRecords(cfg, s, h, m);
    case FinishPrune => CarriedAttemptsStayOk(cfg, s, DoFinishPrune(s));
    case _ => UntouchedRecordsStayOk(cfg, s, Do(cfg, s, a));
  }

  // ---------------------------------------------------------------- the history only grows

  /** Later records extend earlier ones; one that is gone was expired. */
  ghost predicate Extends(store: Records, later: Records, cutoff: Option<Instant>) {
    forall k | k in store ::
      if k in later then store[k].attempts <= later[k].attempts
      else cutoff.Some? && store[k].recordUpdated < cutoff.value
  }

  lemma SaveExtends(cfg: Config, s: State, h: nat)
    requires RecordsOk(cfg, s) && CanMove(s, h, Save)
    ensures Extends(s.store, DoSave(cfg, s, h).store, None)
  {
    hide Ready, DocumentKey, RecordOk;
    assert AttemptOk(cfg, s.now, s.store, s.handlers[h]);
  }

  lemma MoveExtends(cfg: Config, s: State, h: nat, m: Move)
    requires RecordsOk(cfg, s) && CanMove(s, h, m)
    ensures Extends(s.store, DoMove(cfg, s, h, m).store, None)
  {
    hide RecordsOk, CanMove;
    if m.Save? {
      assert DoMove(cfg, s, h, m) == DoSave(cfg, s, h);
      SaveExtends(cfg, s, h);
    } else {
      MoveGoesOn(cfg, s, h, m);
    }
  }

  lemma PruneExtends(s: State)
    requires s.cutoff.Some?
    ensures Extends(s.store, DoFinishPrune(s).store, s.cutoff)
  {
    PruneKeepsExactly(s.store, s.cutoff.value);
  }

  lemma ExtendsItself(store: Records)
    ensures Extends(store, store, None)
  {
  }

  /** History is append-only: a step keeps the attempts of every record as a prefix, and only a
      prune removes a record. */
  lemma HistoryIsAppendOnly(cfg: Config, s: State, a: Action)
    requires RecordsOk(cfg, s) && Enabled(cfg, s, a)
    ensures Extends(s.store, Do(cfg, s, a).store, if a.FinishPrune? then s.cutoff else None)
  {
    hide RecordsOk, DoMove, DoFinishPrune, DoForeignWrite, CanMove, Extends;
    match a
    case HandlerStep(h, m) => MoveExtends(cfg, s, h, m);
    case FinishPrune => PruneExtends(s);
    case _ => ExtendsItself(s.store);
  }
}
