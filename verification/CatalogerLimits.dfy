/** What the promises on retries and delays do not cover, shown by runs. */
module CatalogerLimits {
  import opened Common
  import opened Documents
  import opened Utf8
  import opened Errors
  import opened TaskKey
  import opened History
  import opened Backoff
  import opened Tasks
  import opened Updater
  import opened Cataloger
  import opened CatalogerRecords
  import opened CatalogerBackoff
  import opened CatalogerAlone
  import opened CatalogerRuns
  import opened CatalogerTheorems

  // ---------------------------------------------------------------- unlimited retries

  /** Retries after a fault are not limited: from every reachable quiet state, for every kind of
      fault and for every n there is a run in which n more attempts at a waiting document pass the
      gate, all meet that fault, and the document still waits as it was. Attempts that could not be
      saved leave no failure on record and so no retry time. */
  lemma RetriedForever(cfg: Config, s: State, id: int64, kind: FaultKind, n: nat) returns (actions: seq<Action>, t: State)
    requires Reachable(cfg, s) && Exposed(cfg, s, id, kind) && !kind.Unapplicable?
    ensures Runs(cfg, s, actions, t) && Reachable(cfg, t) && Exposed(cfg, t, id, kind) && t.server == s.server
    ensures t.TallyOf(id).passes == s.TallyOf(id).passes + n && t.TallyOf(id).faults == s.TallyOf(id).faults + n
    ensures Recorded(t, id) == Recorded(s, id) + (if kind.Unsavable? then 0 else n)
  {
    hide Runs, Reachable, Recorded, JustFailed, Exposed;
    actions, t := ManyRounds(cfg, s, id, kind, n);
    ReachableAppend(cfg, s, actions, t);
  }

  // ---------------------------------------------------------------- every retry is used

  /** The bound on attempts without faults is reached: from every reachable quiet state, as long as
      the failures on record stay within the maximum, there is a run in which n attempts at a waiting
      document fail with a temporary error, none meets a fault, and the document still waits. */
  lemma RetriesAreUsed(cfg: Config, s: State, id: int64, f: Findings, n: nat) returns (actions: seq<Action>, t: State)
    requires Reachable(cfg, s) && Quiet(s) && Waiting(cfg, s, id) && cfg.workers > 0
    requires FailsForNow(cfg.settings, s.server[id].doc, s.server[id].metadata, f) && Recorded(s, id) + n <= cfg.retriesMax
    ensures Runs(cfg, s, actions, t) && Reachable(cfg, t) && Quiet(t) && t.server == s.server
    ensures Recorded(t, id) == Recorded(s, id) + n
    ensures t.TallyOf(id).passes == s.TallyOf(id).passes + n && t.TallyOf(id).faults == s.TallyOf(id).faults
  {
    hide Runs, Reachable, Recorded, JustFailed, FailsForNow;
    if n == 0 {
      actions, t := [], s;
      NoActions(cfg, s);
    } else {
      var before, u := ManyRounds(cfg, s, id, Unapplicable(f), n - 1);
      var last;
      last, t := NextRound(cfg, u, id, Unapplicable(f));
      actions := before + last;
      RunsAppend(cfg, s, before, u, last, t);
      ReachableAppend(cfg, s, actions, t);
    }
  }

  // ---------------------------------------------------------------- delays that are forgotten

  /** An attempt can pass the gate before the retry time last set for its document version. */
  ghost predicate EarlyGate(s: State, h: nat) {
    GateOpens(s, h) && GateKey(s, h) in s.due && s.now < s.due[GateKey(s, h)]
  }

  /** The state when a handler of one delivered document has read the clock. */
  function AtGate(s: State, id: int64): State
    requires id in s.server
  {
    Visited(s, id).WithPc(s.nextHandler, Begun(s.server[id].metadata, s.now))
  }

  lemma AtGateRuns(cfg: Config, s: State, id: int64) returns (actions: seq<Action>)
    requires Quiet(s) && Waiting(cfg, s, id) && cfg.workers > 0
    ensures Runs(cfg, s, actions, AtGate(s, id))
  {
    hide Runs, DoPassGate, DoExtract, DoSendError, DoReadMetadata, DoSendPatch, DoSave, AfterFailedPatch;
    var h, v, metadata := s.nextHandler, Visited(s, id), s.server[id].metadata;
    var v1, t := v.WithPc(h, HasMetadata(metadata)), AtGate(s, id);
    VisitRuns(cfg, s, id);
    PcTwice(v, h, HasMetadata(metadata), Begun(metadata, s.now));
    NoActions(cfg, t);
    FirstAction(cfg, v1, HandlerStep(h, ReadClock), t, [], t);
    FirstAction(cfg, v, HandlerStep(h, FetchMetadata), v1, [HandlerStep(h, ReadClock)] + [], t);
    actions := VisitActions(id) + ([HandlerStep(h, FetchMetadata)] + ([HandlerStep(h, ReadClock)] + []));
    RunsAppend(cfg, s, VisitActions(id), v, [HandlerStep(h, FetchMetadata)] + ([HandlerStep(h, ReadClock)] + []), t);
  }

  lemma AtGateStands(cfg: Config, s: State, id: int64)
    requires Quiet(s) && Waiting(cfg, s, id) && JustFailed(cfg, s, id)
    ensures var t := AtGate(s.(now := s.now + LIMIT), id);
            var h, key := s.nextHandler, s.server[id].Key();
            && StandsBeforeGate(t, h) && GateKey(t, h) == key && t.cutoff.None?
            && t.store[key] == s.store[key] && t.due[key] == s.due[key] && t.now == s.now + LIMIT
  {
    hide DocumentKey;
  }

  lemma AtGateIsReachable(cfg: Config, s: State, id: int64, dt: nat)
    requires Reachable(cfg, s) && Quiet(s) && Waiting(cfg, s, id) && cfg.workers > 0
    ensures Reachable(cfg, AtGate(s.(now := s.now + dt), id))
  {
    hide Runs, Reachable, AtGate, CanMove;
    var s1 := s.(now := s.now + dt);
    var visit := AtGateRuns(cfg, s1, id);
    assert Enabled(cfg, s, Tick(dt)) && Do(cfg, s, Tick(dt)) == s1;
    FirstAction(cfg, s, Tick(dt), s1, visit, AtGate(s1, id));
    ReachableAppend(cfg, s, [Tick(dt)] + visit, AtGate(s1, id));
  }

  /** After a delay above the limit was set, waiting for the limit, a walk and a round of the
      pruner open the gate too early. */
  lemma ForgottenAfter(cfg: Config, s: State, id: int64)
    requires Reachable(cfg, s) && Quiet(s) && Waiting(cfg, s, id) && cfg.workers > 0
    requires JustFailed(cfg, s, id) && cfg.delay(s.store[s.server[id].Key()].retryCount - 1) > LIMIT
    ensures exists t, h :: Reachable(cfg, t) && EarlyGate(t, h)
  {
    hide Runs, Reachable, PruneRound, AtGate, GateKey, Inv, RecordsOk, Do, Enabled, Quiet, StandsBeforeGate, GateOpens;
    var u, h := AtGate(s.(now := s.now + LIMIT), id), s.nextHandler;
    AtGateStands(cfg, s, id);
    AtGateIsReachable(cfg, s, id, LIMIT);
    ReachableInv(cfg, u);
    InvParts(cfg, u);
    OpensEarlyWhen(cfg, u, h, 0);
    OpensEarlyRuns(cfg, u, 0);
    var t := PruneRound(u.(now := u.now + 0));
    ReachableAppend(cfg, u, [Tick(0)] + [StartPrune, FinishPrune], t);
    assert EarlyGate(t, h);
  }

  /** A document with the todo tag on a new server. */
  function FirstState(cfg: Config): State {
    var doc := Document(1, 0, 0, 0, "", "", None, None, None, [cfg.settings.todo]);
    State(0, map[1 := ServerDoc([], doc, Metadata([], 0, false, [], 0))], map[], None, Idle, {}, [], map[], 0,
          map[], 0, map[], map[])
  }

  lemma FirstStateIsReachable(cfg: Config)
    ensures Reachable(cfg, FirstState(cfg)) && Quiet(FirstState(cfg)) && Waiting(cfg, FirstState(cfg), 1)
    ensures Recorded(FirstState(cfg), 1) == 0
  {
    NoActions(cfg, FirstState(cfg));
    assert Init(cfg, FirstState(cfg));
  }

  /** After n + 1 failures in a row the record carries the delay after n failures. */
  lemma FailuresReach(cfg: Config, n: nat) returns (s: State)
    requires cfg.workers > 0
    ensures Reachable(cfg, s) && Quiet(s) && Waiting(cfg, s, 1) && JustFailed(cfg, s, 1) && Recorded(s, 1) == n + 1
  {
    hide Runs, Reachable, FirstState, JustFailed;
    var s0 := FirstState(cfg);
    FirstStateIsReachable(cfg);
    var actions;
    actions, s := ManyRounds(cfg, s0, 1, Unresolvable(Other("")), n + 1);
    ReachableAppend(cfg, s0, actions, s);
  }

  lemma LongDelayIsForgotten(cfg: Config, k: nat)
    requires cfg.workers > 0 && cfg.delay(k) > LIMIT
    ensures exists t, h :: Reachable(cfg, t) && EarlyGate(t, h)
  {
    hide Reachable, EarlyGate;
    var s := FailuresReach(cfg, k);
    ForgottenAfter(cfg, s, 1);
  }

  /** Retry times are respected in all runs of a configuration exactly when none of its delays
      exceeds a day and a nanosecond. */
  lemma BackoffHoldsIff(cfg: Config)
    requires cfg.workers > 0
    ensures (forall s, h :: Reachable(cfg, s) ==> !EarlyGate(s, h)) <==> (forall k: nat :: cfg.delay(k) <= LIMIT)
  {
    hide Reachable, EarlyGate;
    if forall k: nat :: cfg.delay(k) <= LIMIT {
      forall s, h | Reachable(cfg, s)
        ensures !EarlyGate(s, h)
      {
        NotEarly(cfg, s, h);
      }
    } else {
      var k: nat :| cfg.delay(k) > LIMIT;
      LongDelayIsForgotten(cfg, k);
    }
  }

  lemma NotEarly(cfg: Config, s: State, h: nat)
    requires Reachable(cfg, s) && forall k: nat :: cfg.delay(k) <= LIMIT
    ensures !EarlyGate(s, h)
  {
    hide Reachable, GateOpens, GateKey;
    if GateOpens(s, h) {
      BackoffIsRespected(cfg, s, h);
    }
  }

  /** A poll interval of 13 hours, which no flag forbids, exceeds the limit with its first delay. */
  lemma ThirteenHoursAreForgotten(settings: Settings, retriesMax: int, workers: nat)
    requires workers > 0
    ensures var cfg := Config(settings, retriesMax, Delays(13 * HOUR), workers);
            cfg.delay(0) == 26 * HOUR && exists t, h :: Reachable(cfg, t) && EarlyGate(t, h)
  {
    hide Reachable, EarlyGate;
    var cfg := Config(settings, retriesMax, Delays(13 * HOUR), workers);
    assert Pow15(2) == 2.25;
    assert RetryDelay(13 * HOUR, 0) == Wrap64(13 * HOUR * 2);
    LongDelayIsForgotten(cfg, 0);
  }

  /** Any poll interval from a fifth of a second to an hour exceeds it after 32 failures. */
  lemma ManyFailuresAreForgotten(settings: Settings, retriesMax: int, pollInterval: Duration, workers: nat)
    requires workers > 0 && 200_000_000 <= pollInterval <= HOUR
    ensures var cfg := Config(settings, retriesMax, Delays(pollInterval), workers);
            exists t, h :: Reachable(cfg, t) && EarlyGate(t, h)
  {
    hide Reachable, EarlyGate, Pow15;
    var cfg := Config(settings, retriesMax, Delays(pollInterval), workers);
    HourFits(pollInterval, 31);
    DelayFitsIff(pollInterval, 31);
    Pow15At33();
    MulMonotone(200_000_000, pollInterval, 647_159);
    assert Pow15(31 + 2).Floor == 647_159;
    LongDelayIsForgotten(cfg, 31);
  }

  // ---------------------------------------------------------------- delays that are no wait

  /** A record whose last attempt failed may be tried again at once. */
  ghost predicate NoWait(s: State, k: Bytes) {
    k in s.store && LastFailed(s.store[k]) && s.store[k].retryAfter <= s.store[k].recordUpdated
  }

  lemma FailedRecordWaits(rec: DocumentTask, delay: nat -> Duration)
    requires Consistent(rec, delay) && LastFailed(rec)
    ensures rec.retryAfter == rec.recordUpdated + delay(rec.retryCount - 1)
  {
  }

  lemma NotWithoutWait(cfg: Config, s: State, k: Bytes)
    requires Reachable(cfg, s) && forall n: nat :: 0 < cfg.delay(n)
    ensures !NoWait(s, k)
  {
    hide Reachable, Consistent;
    if NoWait(s, k) {
      RecordHistory(cfg, s, k);
      FailedRecordWaits(s.store[k], cfg.delay);
    }
  }

  /** Every failure is followed by a wait, in all runs of a configuration, exactly when all its
      delays are positive. */
  lemma WaitsIff(cfg: Config)
    requires cfg.workers > 0
    ensures (forall s, k :: Reachable(cfg, s) ==> !NoWait(s, k)) <==> (forall n: nat :: 0 < cfg.delay(n))
  {
    hide Reachable, NoWait;
    if forall n: nat :: 0 < cfg.delay(n) {
      forall s, k | Reachable(cfg, s)
        ensures !NoWait(s, k)
      {
        NotWithoutWait(cfg, s, k);
      }
    } else {
      var n: nat :| cfg.delay(n) <= 0;
      var s := FailuresReach(cfg, n);
      HasNoWait(cfg, s, 1);
    }
  }

  lemma HasNoWait(cfg: Config, s: State, id: int64)
    requires id in s.server && JustFailed(cfg, s, id) && cfg.delay(Recorded(s, id) - 1) <= 0
    ensures NoWait(s, s.server[id].Key())
  {
    hide DocumentKey;
  }

  /** With a poll interval of 13 hours the thirtieth failure is on a reachable record whose retry
      time lies in the past: the product wrapped around, and the gate is open at once. */
  lemma ThirteenHoursLoseBackoff(settings: Settings, retriesMax: int, workers: nat) returns (s: State)
    requires workers > 0
    ensures var cfg := Config(settings, retriesMax, Delays(13 * HOUR), workers);
            Reachable(cfg, s) && Waiting(cfg, s, 1) && Recorded(s, 1) == 30
    ensures var rec := s.store[s.server[1].Key()];
            s.server[1].Key() in s.store && LastFailed(rec) && rec.recordUpdated == s.now && rec.retryAfter < s.now
            && Due(s, 1)
  {
    hide Reachable, RetryDelay;
    var cfg := Config(settings, retriesMax, Delays(13 * HOUR), workers);
    s := FailuresReach(cfg, 29);
    ThirteenHoursWrap();
    OpenAtOnce(cfg, s, 1);
  }

  lemma OpenAtOnce(cfg: Config, s: State, id: int64)
    requires id in s.server && JustFailed(cfg, s, id) && cfg.delay(Recorded(s, id) - 1) < 0
    ensures var key := s.server[id].Key();
            key in s.store && LastFailed(s.store[key]) && s.store[key].recordUpdated == s.now && s.store[key].retryAfter < s.now
    ensures Due(s, id)
  {
    hide DocumentKey;
  }
}
