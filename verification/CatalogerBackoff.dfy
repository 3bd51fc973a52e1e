/** The retry times the records promise, and that the pruner cannot shorten them. */
module CatalogerBackoff {
  import opened Common
  import opened Utf8
  import opened Documents
  import opened Errors
  import opened TaskKey
  import opened Store
  import opened History
  import opened Tasks
  import opened Cataloger
  import opened CatalogerRecords

  /** The longest delay that the pruner cannot cut short: 24 hours and a nanosecond. */
  const LIMIT: Duration := 86_400_000_000_001

  /** No delay was longer than that, or none can be. */
  ghost predicate Short(cfg: Config, s: State) {
    s.maxDelay <= LIMIT || forall k: nat :: cfg.delay(k) <= LIMIT
  }

  /** A record is due within the limit after its last update, and a retry time ever set has passed
      or still stands in the record. */
  ghost predicate Remembered(now: Instant, store: Records, due: map<Bytes, Instant>) {
    && (forall k | k in store :: store[k].retryAfter <= store[k].recordUpdated + LIMIT)
    && (forall k | k in due :: due[k] <= now || (k in store && store[k].retryAfter == due[k]))
  }

  ghost predicate BackoffOk(cfg: Config, s: State) {
    && (Short(cfg, s) ==> Remembered(s.now, s.store, s.due))
    && (s.cutoff.Some? ==> s.cutoff.value <= s.now - DAY)
  }

  /** The retry time of a record follows its last update by at most the longest delay. */
  lemma ConsistentIsDueWithin(rec: DocumentTask, delay: nat -> Duration, longest: Duration)
    requires Consistent(rec, delay) && 0 <= longest && forall k: nat :: delay(k) <= longest
    ensures rec.retryAfter <= rec.recordUpdated + longest
  {
  }

  lemma InitBackoff(cfg: Config, s: State)
    requires Init(cfg, s)
    ensures BackoffOk(cfg, s)
  {
    forall k | k in s.store && !(s.maxDelay <= LIMIT) && Short(cfg, s)
      ensures s.store[k].retryAfter <= s.store[k].recordUpdated + LIMIT
    {
      ConsistentIsDueWithin(s.store[k], cfg.delay, LIMIT);
    }
  }

  /** Deleting what was not updated for a day forgets no retry time that lies ahead. */
  lemma PruneForgetsNothing(now: Instant, store: Records, due: map<Bytes, Instant>, cutoff: Instant)
    requires Remembered(now, store, due) && cutoff <= now - DAY
    ensures Remembered(now, Pruned(store, cutoff), due)
  {
    PruneKeepsExactly(store, cutoff);
    forall k | k in due && k in store && k !in Pruned(store, cutoff) && store[k].retryAfter == due[k]
      ensures due[k] <= now
    {
      assert store[k].recordUpdated < cutoff;
    }
  }

  lemma SaveRemembers(cfg: Config, now: Instant, store: Records, due: map<Bytes, Instant>, doc: Document, job: Job, err: Option<Error>)
    requires Remembered(now, store, due) && JobOk(cfg, now, store, doc, job)
    requires var delay := cfg.delay(job.rec.retryCount); err.Some? ==> delay <= LIMIT
    ensures var delay := cfg.delay(job.rec.retryCount);
            Remembered(now, store[job.key := Saved(job.rec, job.begin, now, err, delay)],
                       if err.Some? then due[job.key := now + delay] else due)
  {
  }

  lemma SaveKeepsBackoff(cfg: Config, s: State, h: nat)
    requires BackoffOk(cfg, s) && RecordsOk(cfg, s) && CanMove(s, h, Save)
    ensures BackoffOk(cfg, DoSave(cfg, s, h))
  {
    hide JobOk, Remembered, Saved, StoreOk, DocumentKey;
    var x := s.handlers[h];
    assert AttemptOk(cfg, s.now, s.store, x);
    var t := DoSave(cfg, s, h);
    if Short(cfg, t) {
      SaveRemembers(cfg, s.now, s.store, s.due, x.listed.doc, x.pc.job, x.pc.at.err);
    }
  }

  lemma MoveKeepsBackoff(cfg: Config, s: State, h: nat, m: Move)
    requires BackoffOk(cfg, s) && RecordsOk(cfg, s) && CanMove(s, h, m)
    ensures BackoffOk(cfg, DoMove(cfg, s, h, m))
  {
    hide RecordsOk, CanMove, Remembered;
    if m.Save? {
      assert DoMove(cfg, s, h, m) == DoSave(cfg, s, h);
      SaveKeepsBackoff(cfg, s, h);
    } else {
      MoveGoesOn(cfg, s, h, m);
    }
  }

  lemma PruneKeepsBackoff(cfg: Config, s: State)
    requires BackoffOk(cfg, s) && s.cutoff.Some?
    ensures BackoffOk(cfg, DoFinishPrune(s))
  {
    if Short(cfg, s) {
      PruneForgetsNothing(s.now, s.store, s.due, s.cutoff.value);
    }
  }

  /** Time passes, or nothing that matters to the records happens. */
  lemma WaitingKeepsBackoff(cfg: Config, s: State, t: State)
    requires BackoffOk(cfg, s) && s.now <= t.now && t.store == s.store && t.due == s.due && t.maxDelay == s.maxDelay
    requires t.cutoff == s.cutoff || t.cutoff == Some(t.now - DAY)
    ensures BackoffOk(cfg, t)
  {
  }

  lemma StepKeepsBackoff(cfg: Config, s: State, a: Action)
    requires BackoffOk(cfg, s) && RecordsOk(cfg, s) && Enabled(cfg, s, a)
    ensures BackoffOk(cfg, Do(cfg, s, a))
  {
    hide BackoffOk, RecordsOk, DoMove, DoFinishPrune, DoForeignWrite, CanMove;
    match a
    case HandlerStep(h, m) => MoveKeepsBackoff(cfg, s, h, m);
    case FinishPrune => PruneKeepsBackoff(cfg, s);
    case ForeignWrite(id, doc, m) => WaitingKeepsBackoff(cfg, s, DoForeignWrite(s, id, doc, m));
    case _ => WaitingKeepsBackoff(cfg, s, Do(cfg, s, a));
  }

  // ---------------------------------------------------------------- consequences

  ghost predicate GateOpens(s: State, h: nat) {
    && h in s.handlers && s.handlers[h].pc.Begun?
    && Gate(s.store, s.handlers[h].listed.doc, s.handlers[h].pc.metadata, s.handlers[h].pc.begin).Some?
  }

  /** The key of a handler in front of the gate. */
  function GateKey(s: State, h: nat): Bytes
    requires h in s.handlers && s.handlers[h].pc.Begun?
  {
    DocumentKey(s.handlers[h].listed.doc, s.handlers[h].pc.metadata)
  }

  /** No attempt passes the gate before the retry time last set for its document version, even
      if the record was pruned in between, as long as no delay exceeded the limit. */
  lemma GateRespectsBackoff(cfg: Config, s: State, h: nat)
    requires BackoffOk(cfg, s) && RecordsOk(cfg, s) && GateOpens(s, h) && Short(cfg, s)
    ensures var key := GateKey(s, h);
            && (key in s.due ==> s.due[key] <= s.now)
            && (key in s.store ==> s.store[key].retryAfter <= s.handlers[h].pc.begin)
  {
    assert AttemptOk(cfg, s.now, s.store, s.handlers[h]);
    GateOpensWhenDue(s.store, s.handlers[h].listed.doc, s.handlers[h].pc.metadata, s.handlers[h].pc.begin);
  }

  /** One round of the pruner. */
  function PruneRound(s: State): State {
    DoFinishPrune(s.(cutoff := Some(s.now - DAY)))
  }

  lemma PruneRoundRuns(cfg: Config, s: State)
    requires s.cutoff.None?
    ensures Runs(cfg, s, [StartPrune, FinishPrune], PruneRound(s))
  {
    hide DoFinishPrune;
    var s1 := s.(cutoff := Some(s.now - DAY));
    var actions := [StartPrune, FinishPrune];
    assert actions[1..] == [FinishPrune] && actions[1..][1..] == [];
    assert Runs(cfg, Do(cfg, s1, FinishPrune), [], PruneRound(s));
    assert Runs(cfg, s1, [FinishPrune], PruneRound(s));
  }

  /** The gate opens too early if the pruner makes a round after some more time. */
  ghost predicate OpensEarly(s: State, h: nat, dt: nat) {
    var t := PruneRound(s.(now := s.now + dt));
    GateOpens(t, h) && GateKey(t, h) in t.due && t.now < t.due[GateKey(t, h)]
  }

  lemma TickEnds(cfg: Config, s: State, dt: nat)
    ensures Enabled(cfg, s, Tick(dt)) && Do(cfg, s, Tick(dt)) == s.(now := s.now + dt)
  {
  }

  lemma OpensEarlyRuns(cfg: Config, s: State, dt: nat)
    requires s.cutoff.None?
    ensures Runs(cfg, s, [Tick(dt)] + [StartPrune, FinishPrune], PruneRound(s.(now := s.now + dt)))
  {
    hide PruneRound;
    PruneRoundRuns(cfg, s.(now := s.now + dt));
    TickEnds(cfg, s, dt);
    hide Do, Enabled;
    assert ([Tick(dt)] + [StartPrune, FinishPrune])[1..] == [StartPrune, FinishPrune];
  }

  /** A handler in front of the gate whose record holds the retry time last set. */
  predicate StandsBeforeGate(s: State, h: nat) {
    && h in s.handlers && s.handlers[h].pc.Begun?
    && GateKey(s, h) in s.store && GateKey(s, h) in s.due
    && s.due[GateKey(s, h)] == s.store[GateKey(s, h)].retryAfter
  }

  /** What a round of the pruner leaves of the record in front of which a handler stands. */
  lemma RoundSpares(s: State, h: nat, dt: nat)
    requires StandsBeforeGate(s, h)
    ensures var t, key := PruneRound(s.(now := s.now + dt)), GateKey(s, h);
            && h in t.handlers && t.handlers[h] == s.handlers[h] && t.now == s.now + dt && t.due == s.due
            && (key in t.store <==> s.store[key].recordUpdated >= s.now + dt - DAY)
            && (key in t.store ==> t.store[key] == s.store[key])
  {
    hide DocumentKey;
    PruneKeepsExactly(s.store, s.now + dt - DAY);
  }

  /** The gate for a handler that read the clock when it could. */
  lemma GateInFront(cfg: Config, s: State, h: nat, store: Records)
    requires RecordsOk(cfg, s) && h in s.handlers && s.handlers[h].pc.Begun?
    ensures var x := s.handlers[h];
            x.pc.begin <= s.now
            && (Gate(store, x.listed.doc, x.pc.metadata, x.pc.begin).Some? <==>
                (GateKey(s, h) in store ==> store[GateKey(s, h)].retryAfter <= x.pc.begin))
  {
    hide DocumentKey, StoreOk, JobOk, Gate;
    var x := s.handlers[h];
    assert AttemptOk(cfg, s.now, s.store, x);
    GateOpensWhenDue(store, x.listed.doc, x.pc.metadata, x.pc.begin);
  }

  lemma OpensEarlyWhen(cfg: Config, s: State, h: nat, dt: nat)
    requires RecordsOk(cfg, s) && StandsBeforeGate(s, h)
    ensures var key := GateKey(s, h);
            OpensEarly(s, h, dt) <==> s.store[key].recordUpdated < s.now + dt - DAY && s.now + dt < s.due[key]
  {
    hide DocumentKey, Gate, PruneRound, RecordsOk;
    RoundSpares(s, h, dt);
    GateInFront(cfg, s, h, PruneRound(s.(now := s.now + dt)).store);
  }

  /** Exactly when the pruner can open the gate too early: the retry time lies ahead, and more
      than the limit after the record's last update. */
  lemma EarlyIff(cfg: Config, s: State, h: nat)
    requires RecordsOk(cfg, s) && StandsBeforeGate(s, h)
    ensures var key := GateKey(s, h);
            (exists dt: nat :: OpensEarly(s, h, dt)) <==>
            s.now < s.due[key] && s.store[key].recordUpdated + LIMIT < s.due[key]
  {
    hide OpensEarly, GateKey;
    var key := GateKey(s, h);
    forall dt: nat
      ensures OpensEarly(s, h, dt) <==> s.store[key].recordUpdated < s.now + dt - DAY && s.now + dt < s.due[key]
    {
      OpensEarlyWhen(cfg, s, h, dt);
    }
    if s.now < s.due[key] && s.store[key].recordUpdated + LIMIT < s.due[key] {
      var wait := s.store[key].recordUpdated + LIMIT - s.now;
      var dt: nat := if wait > 0 then wait else 0;
      assert OpensEarly(s, h, dt);
    }
  }

  /** A record is due so late exactly when its last attempt failed and waits that long. */
  lemma DueLateIff(rec: DocumentTask, delay: nat -> Duration)
    requires Consistent(rec, delay)
    ensures rec.recordUpdated + LIMIT < rec.retryAfter <==>
            LastFailed(rec) && delay(rec.retryCount - 1) > LIMIT
  {
  }

  lemma ShortenedGate(cfg: Config, s: State, h: nat)
    requires RecordsOk(cfg, s) && StandsBeforeGate(s, h)
    ensures Consistent(s.store[GateKey(s, h)], cfg.delay)
  {
    assert RecordOk(cfg, s.now, GateKey(s, h), s.store[GateKey(s, h)]);
  }
}
