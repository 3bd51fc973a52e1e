/** What holds in every run of the cataloger, whatever the interleaving. */
module CatalogerTheorems {
  import opened Common
  import opened Utf8
  import opened Documents
  import opened Errors
  import opened TaskKey
  import opened Backoff
  import opened History
  import opened Tasks
  import opened Patches
  import opened Updater
  import opened Cataloger
  import opened CatalogerWalk
  import opened CatalogerConflicts
  import opened CatalogerRecords
  import opened CatalogerBackoff
  import opened CatalogerPatches
  import opened CatalogerRetries
  import opened CatalogerOutcomes

  /** The invariants of the previous modules together. */
  ghost predicate Inv(cfg: Config, s: State) {
    && Exclusive(cfg, s) && Tracking(s) && RecordsOk(cfg, s) && BackoffOk(cfg, s) && AllDerived(cfg, s)
    && (cfg.settings.todo != cfg.settings.failed ==> RetriesOk(cfg, s) && OutcomesOk(cfg, s))
  }

  lemma InitInv(cfg: Config, s: State)
    requires Init(cfg, s)
    ensures Inv(cfg, s)
  {
    InitBackoff(cfg, s);
    hide BackoffOk;
  }

  lemma StepInv(cfg: Config, s: State, a: Action)
    requires Inv(cfg, s) && Enabled(cfg, s, a)
    ensures Inv(cfg, Do(cfg, s, a))
  {
    hide Do, Enabled, Exclusive, Tracking, RecordsOk, BackoffOk, AllDerived, RetriesOk, OutcomesOk;
    StepKeepsExclusive(cfg, s, a);
    StepTracks(cfg, s, a);
    StepKeepsRecords(cfg, s, a);
    StepKeepsBackoff(cfg, s, a);
    StepDerives(cfg, s, a);
    if cfg.settings.todo != cfg.settings.failed {
      StepKeepsRetries(cfg, s, a);
      StepKeepsOutcomes(cfg, s, a);
    }
  }

  lemma {:induction false} RunInv(cfg: Config, s0: State, actions: seq<Action>, s: State)
    requires Inv(cfg, s0) && Runs(cfg, s0, actions, s)
    ensures Inv(cfg, s)
    decreases |actions|
  {
    hide Do, Enabled, Inv;
    if actions != [] {
      StepInv(cfg, s0, actions[0]);
      RunInv(cfg, Do(cfg, s0, actions[0]), actions[1..], s);
    }
  }

  lemma ReachableInv(cfg: Config, s: State)
    requires Reachable(cfg, s)
    ensures Inv(cfg, s)
  {
    hide Inv, Init, Runs;
    var s0, actions :| Init(cfg, s0) && Runs(cfg, s0, actions, s);
    InitInv(cfg, s0);
    RunInv(cfg, s0, actions, s);
  }

  lemma InvParts(cfg: Config, s: State)
    requires Inv(cfg, s)
    ensures Exclusive(cfg, s) && Tracking(s) && RecordsOk(cfg, s) && AllDerived(cfg, s)
  {
    hide Exclusive, Tracking, RecordsOk, AllDerived;
  }

  // ---------------------------------------------------------------- exclusion

  /** In every run, whatever the interleaving, no two handlers work on one document, not even
      handlers of different walks; and no more run than the pool has workers. */
  lemma Exclusion(cfg: Config, s: State, g: nat, h: nat)
    requires Reachable(cfg, s) && g in s.handlers && h in s.handlers
    ensures s.handlers[g].Id() == s.handlers[h].Id() <==> g == h
    ensures !s.walk.Idle? && |s.handlers| <= cfg.workers
  {
    ReachableInv(cfg, s);
  }

  // ---------------------------------------------------------------- retries

  /** In every run: of the attempts at one version of a document that passed the gate, all but
      max(retriesMax, 0) met a fault, unless one is running or the todo tag is gone. So without
      faults at most max(retriesMax, 0) + 1 attempts pass, whatever the extraction does. */
  lemma RetryBound(cfg: Config, s: State, id: int64)
    requires Reachable(cfg, s) && cfg.settings.todo != cfg.settings.failed
    requires id in s.server && cfg.settings.todo in s.server[id].doc.tags
    ensures s.TallyOf(id).passes <= Budget(cfg) + s.TallyOf(id).faults + (if Active(s, id) then 1 else 0)
  {
    ReachableInv(cfg, s);
    assert TallyOk(cfg, s.server[id], s.store, s.TallyOf(id), Active(s, id));
  }

  /** When max(retriesMax, 0) + 1 attempts are over and none met a fault, the todo tag is gone and
      the document is settled, whatever the extraction did. */
  lemma AttemptsSettle(cfg: Config, s: State, id: int64)
    requires Reachable(cfg, s) && cfg.settings.todo != cfg.settings.failed && id in s.server
    requires s.TallyOf(id).passes > Budget(cfg) && s.TallyOf(id).faults == 0 && !Active(s, id)
    ensures cfg.settings.todo !in s.server[id].doc.tags && Settled(cfg, s.server[id], s.SettlementOf(id))
  {
    if cfg.settings.todo in s.server[id].doc.tags {
      RetryBound(cfg, s, id);
      assert false;
    } else {
      TodoGoneMeansSettled(cfg, s, id);
    }
  }

  /** In every run: a document that lost the todo tag after attempts that met no fault, and was
      not written by anybody else since, has the facts applied or is marked as failed. */
  lemma TodoGoneMeansSettled(cfg: Config, s: State, id: int64)
    requires Reachable(cfg, s) && cfg.settings.todo != cfg.settings.failed && id in s.server
    requires s.TallyOf(id).passes > 0 && s.TallyOf(id).faults == 0 && cfg.settings.todo !in s.server[id].doc.tags
    ensures Settled(cfg, s.server[id], s.SettlementOf(id))
  {
    hide Settled;
    ReachableInv(cfg, s);
    assert SettledOk(cfg, s.server[id], s.TallyOf(id), s.SettlementOf(id));
  }

  /** A patch that meets the version it was computed from settles the document: it is the target
      the facts ask for, or it is marked as failed and otherwise as it was. */
  lemma PatchSettles(cfg: Config, s: State, h: nat, modified: Instant)
    requires Reachable(cfg, s) && CanMove(s, h, SendPatch(modified))
    requires s.handlers[h].pc.at.number == |s.server[s.handlers[h].Id()].past|
    ensures var x, id := s.handlers[h], s.handlers[h].Id();
            var was, after := s.server[id].doc, DoSendPatch(s, h, modified).server[id].doc;
            && was == x.listed.doc
            && (x.pc.at.stage.MarkFailed? ==> MarkedFailed(cfg, was, after))
            && (x.pc.at.stage.ApplyFacts? ==> FactsApplied(cfg, was, x.pc.job, after.(modified := was.modified)))
  {
    hide Reachable, Computed, FactsApplied, MarkedFailed, Apply, Inv;
    ConflictSafety(cfg, s, h, modified);
    var x := s.handlers[h];
    var sd := s.server[x.Id()];
    PatchSettlesDocument(cfg, sd, x.pc.job, x.pc.at.stage, x.pc.at.patch, modified);
  }

  /** A failure to resolve the two tags counts as a failed attempt but never marks the document,
      not even on the last retry. */
  lemma UpdaterFailureLeavesDocument(cfg: Config, s: State, h: nat, e: Error)
    requires CanMove(s, h, UpdaterFails(e))
    ensures var t := DoMove(cfg, s, h, UpdaterFails(e));
            && CanMove(t, h, Save)
            && DoSave(cfg, t, h).server == s.server
            && var rec := DoSave(cfg, t, h).store[s.handlers[h].pc.job.key];
               rec.retryCount == s.handlers[h].pc.job.rec.retryCount + 1
  {
  }

  // ---------------------------------------------------------------- conflicts

  /** In every run, a patch is sent only after a check that read the listed version, and it was
      computed from that version. */
  lemma ConflictSafety(cfg: Config, s: State, h: nat, modified: Instant)
    requires Reachable(cfg, s) && CanMove(s, h, SendPatch(modified))
    ensures var x, at := s.handlers[h], s.handlers[h].pc.at;
            var sd := s.server[x.Id()];
            && at.number == x.listed.number <= |sd.past|
            && sd.Version(at.number) == x.listed.doc
            && Computed(cfg, sd.Version(at.number), x.pc.job, at.stage, at.patch)
  {
    hide Reachable, Computed, RecordsOk, BackoffOk, RetriesOk, Exclusive;
    ReachableInv(cfg, s);
    assert HandlerTracks(s.server[s.handlers[h].Id()], s.handlers[h]) && Derived(cfg, s.handlers[h]);
  }

  /** The conflict check passes exactly when it read the listed version and the checksums are
      those the attempt began with. */
  lemma CheckPassesIff(cfg: Config, s: State, h: nat)
    requires Reachable(cfg, s) && CanMove(s, h, ReadMetadata)
    ensures var x := s.handlers[h];
            var m, c := x.pc.job.metadata, s.server[x.Id()].metadata;
            var y := DoReadMetadata(cfg, s, h).handlers[h];
            (y.pc.Busy? && y.pc.at.Patching?) <==>
              && x.pc.at.number == x.listed.number
              && m.originalChecksum == c.originalChecksum
              && m.hasArchiveVersion == c.hasArchiveVersion && m.archiveChecksum == c.archiveChecksum
  {
    ReachableInv(cfg, s);
    CheckPasses(cfg, s, h);
  }

  lemma CheckPasses(cfg: Config, s: State, h: nat)
    requires Tracking(s) && CanMove(s, h, ReadMetadata)
    ensures var x := s.handlers[h];
            var m, c := x.pc.job.metadata, s.server[x.Id()].metadata;
            var y := DoReadMetadata(cfg, s, h).handlers[h];
            (y.pc.Busy? && y.pc.at.Patching?) <==>
              && x.pc.at.number == x.listed.number
              && m.originalChecksum == c.originalChecksum
              && m.hasArchiveVersion == c.hasArchiveVersion && m.archiveChecksum == c.archiveChecksum
  {
    hide OnSendError;
    var x := s.handlers[h];
    var sd := s.server[x.Id()];
    assert HandlerTracks(sd, x);
    if sd.Version(x.pc.at.number).modified == x.listed.doc.modified {
      assert x.pc.at.number == x.listed.number;
    }
  }

  /** The document was written after it was listed, and the check has not read it before. */
  predicate Overtaken(s: State, h: nat) {
    && h < s.nextHandler
    && (h in s.handlers ==>
          var x := s.handlers[h];
          && x.Id() in s.server && x.listed.number < |s.server[x.Id()].past|
          && x.pc.Unpatched()
          && (x.pc.Busy? ==>
                && !x.pc.at.Patching?
                && (x.pc.at.CheckingMetadata? ==> x.listed.number < x.pc.at.number)))
  }

  lemma GrownServerStaysOvertaken(s: State, t: State, h: nat)
    requires Overtaken(s, h) && s.nextHandler <= t.nextHandler
    requires h in t.handlers ==> h in s.handlers && (t.handlers[h] == s.handlers[h] || t.handlers[h] == Tainted(s.handlers[h]))
    requires forall id | id in s.server :: id in t.server && |s.server[id].past| <= |t.server[id].past|
    ensures Overtaken(t, h)
  {
  }

  lemma OwnMoveStaysOvertaken(cfg: Config, s: State, h: nat, m: Move)
    requires Overtaken(s, h) && Tracking(s) && CanMove(s, h, m)
    ensures Overtaken(DoMove(cfg, s, h, m), h)
  {
    hide Tracking, Gate, DocumentKey, Start, OnSendError, DoSave, DoReadMetadata, Overtaken;
    if m.ReadMetadata? {
      CheckStaysOvertaken(cfg, s, h);
    } else {
      BlindMoveStaysOvertaken(cfg, s, h, m);
    }
  }

  /** The check of an attempt that was overtaken fails. */
  lemma CheckStaysOvertaken(cfg: Config, s: State, h: nat)
    requires Overtaken(s, h) && Tracking(s) && CanMove(s, h, ReadMetadata)
    ensures Overtaken(DoReadMetadata(cfg, s, h), h)
  {
    hide Tracking, CompareSnapshots, NewSnapshot, OnSendError;
    CheckPasses(cfg, s, h);
  }

  lemma BlindMoveStaysOvertaken(cfg: Config, s: State, h: nat, m: Move)
    requires Overtaken(s, h) && CanMove(s, h, m) && !m.ReadMetadata?
    ensures Overtaken(DoMove(cfg, s, h, m), h)
  {
    hide Gate, DocumentKey, Start, OnSendError, DoSave, DoReadMetadata;
  }

  lemma OtherMoveStaysOvertaken(cfg: Config, s: State, h: nat, g: nat, m: Move)
    requires Overtaken(s, h) && CanMove(s, g, m) && g != h
    ensures Overtaken(DoMove(cfg, s, g, m), h)
  {
    MoveIsLocal(cfg, s, g, m);
    hide DoMove, CanMove;
    GrownServerStaysOvertaken(s, DoMove(cfg, s, g, m), h);
  }

  /** A move of a handler changes no other handler and never shortens a document's past. */
  lemma MoveIsLocal(cfg: Config, s: State, h: nat, m: Move)
    requires CanMove(s, h, m)
    ensures var t := DoMove(cfg, s, h, m);
            LocalTo(s, t, h) && forall id | id in s.server :: id in t.server && |s.server[id].past| <= |t.server[id].past|
  {
    hide Gate, DocumentKey, CompareSnapshots, NewSnapshot, Start, OnSendError, Saved, Apply;
  }

  lemma StepStaysOvertaken(cfg: Config, s: State, a: Action, h: nat)
    requires Overtaken(s, h) && Tracking(s) && Enabled(cfg, s, a)
    ensures Overtaken(Do(cfg, s, a), h)
  {
    hide Overtaken, Tracking, DoMove, CanMove;
    match a
    case HandlerStep(g, m) =>
      if g == h {
        OwnMoveStaysOvertaken(cfg, s, h, m);
      } else {
        OtherMoveStaysOvertaken(cfg, s, h, g, m);
      }
    case Deliver => DeliverStaysOvertaken(s, h);
    case _ => GrownServerStaysOvertaken(s, Do(cfg, s, a), h);
  }

  lemma DeliverStaysOvertaken(s: State, h: nat)
    requires Overtaken(s, h) && s.page != []
    ensures Overtaken(DoDeliver(s), h)
  {
  }

  lemma {:induction false} RunStaysOvertaken(cfg: Config, s0: State, actions: seq<Action>, s: State, h: nat)
    requires Inv(cfg, s0) && Overtaken(s0, h) && Runs(cfg, s0, actions, s)
    ensures Overtaken(s, h)
    decreases |actions|
  {
    hide Do, Enabled, Overtaken, Exclusive, Tracking, RecordsOk, BackoffOk, AllDerived, RetriesOk, OutcomesOk;
    if actions != [] {
      StepInv(cfg, s0, actions[0]);
      StepStaysOvertaken(cfg, s0, actions[0], h);
      RunStaysOvertaken(cfg, Do(cfg, s0, actions[0]), actions[1..], s, h);
    }
  }

  /** Once a write overtook the check of an attempt, that attempt never gets to send a patch, not
      even one that marks a failure, whatever happens next. */
  lemma OvertakenNeverPatches(cfg: Config, s0: State, actions: seq<Action>, s: State, h: nat)
    requires Inv(cfg, s0) && Overtaken(s0, h) && Runs(cfg, s0, actions, s)
    ensures forall modified :: !CanMove(s, h, SendPatch(modified))
  {
    hide Inv, Runs;
    RunStaysOvertaken(cfg, s0, actions, s, h);
  }

  /** A foreign write, even of tags alone, between listing and check prevents the patch. */
  lemma ForeignWritePreventsPatch(cfg: Config, s: State, h: nat, doc: Document, metadata: Metadata, actions: seq<Action>, t: State)
    requires Reachable(cfg, s) && h in s.handlers && doc.id == s.handlers[h].Id()
    requires var pc := s.handlers[h].pc; !pc.Busy? || pc.at.Extracting? || pc.at.Checking?
    requires Enabled(cfg, s, ForeignWrite(doc.id, doc, metadata))
    requires Runs(cfg, DoForeignWrite(s, doc.id, doc, metadata), actions, t)
    ensures forall modified :: !CanMove(t, h, SendPatch(modified))
  {
    hide Reachable, Runs, DoForeignWrite, RecordsOk, BackoffOk, AllDerived, RetriesOk;
    ReachableInv(cfg, s);
    assert HandlerTracks(s.server[s.handlers[h].Id()], s.handlers[h]);
    var s1 := DoForeignWrite(s, doc.id, doc, metadata);
    WriteOvertakes(s, h, doc, metadata);
    WriteStepInv(cfg, s, doc, metadata);
    OvertakenNeverPatches(cfg, s1, actions, t, h);
  }

  lemma WriteOvertakes(s: State, h: nat, doc: Document, metadata: Metadata)
    requires h in s.handlers && h < s.nextHandler && doc.id == s.handlers[h].Id() && doc.id in s.server
    requires s.handlers[h].listed.number <= |s.server[doc.id].past|
    requires var pc := s.handlers[h].pc; !pc.Busy? || pc.at.Extracting? || pc.at.Checking?
    ensures Overtaken(DoForeignWrite(s, doc.id, doc, metadata), h)
  {
  }

  lemma WriteStepInv(cfg: Config, s: State, doc: Document, metadata: Metadata)
    requires Inv(cfg, s) && Enabled(cfg, s, ForeignWrite(doc.id, doc, metadata))
    ensures Inv(cfg, DoForeignWrite(s, doc.id, doc, metadata))
  {
    hide Inv;
    StepInv(cfg, s, ForeignWrite(doc.id, doc, metadata));
  }

  lemma PatchIgnoresWrite(s: State, h: nat, doc: Document, metadata: Metadata, modified: Instant)
    requires CanMove(s, h, SendPatch(modified)) && doc.id == s.handlers[h].Id()
    ensures var p, s1 := s.handlers[h].pc.at.patch, DoForeignWrite(s, doc.id, doc, metadata);
            && CanMove(s1, h, SendPatch(modified))
            && |s1.server[doc.id].past| == |s.server[doc.id].past| + 1
            && (p.tags.Some? ==> DoSendPatch(s1, h, modified).server[doc.id].doc.tags == p.tags.value)
  {
    hide LocalTo, KeepsHandlers, SameRecords;
  }

  /** The gap between check and patch: a write that falls into it does not stop the patch, which
      then replaces the tags of a version that was never checked. */
  lemma GapOverwritesTags(cfg: Config, s: State, h: nat, doc: Document, metadata: Metadata, modified: Instant)
    requires Reachable(cfg, s) && CanMove(s, h, SendPatch(modified)) && doc.id == s.handlers[h].Id()
    ensures var at, s1 := s.handlers[h].pc.at, DoForeignWrite(s, doc.id, doc, metadata);
            && CanMove(s1, h, SendPatch(modified))
            && at.number < |s1.server[doc.id].past|
            && (at.patch.tags.Some? ==> DoSendPatch(s1, h, modified).server[doc.id].doc.tags == at.patch.tags.value)
  {
    hide Reachable, Computed, DoForeignWrite, DoSendPatch;
    ConflictSafety(cfg, s, h, modified);
    PatchIgnoresWrite(s, h, doc, metadata, modified);
  }

  // ---------------------------------------------------------------- records

  /** In every run every record is consistent with its attempts and stands under its own key. */
  lemma RecordHistory(cfg: Config, s: State, k: Bytes)
    requires Reachable(cfg, s) && k in s.store
    ensures Consistent(s.store[k], cfg.delay) && KeyOf(s.store[k]) == k
    ensures var a := s.store[k].attempts;
            forall i, j | 0 <= i < j < |a| :: a[i].begin <= a[i].end <= a[j].begin <= a[j].end
  {
    ReachableInv(cfg, s);
    assert RecordOk(cfg, s.now, k, s.store[k]);
    var a := s.store[k].attempts;
    forall i, j | 0 <= i < j < |a|
      ensures a[i].begin <= a[i].end <= a[j].begin <= a[j].end
    {
      AttemptsDoNotOverlap(a, i, j, cfg.delay);
    }
  }

  /** In every run, handlers that run at the same time write different keys, and what a handler
      is about to extend is the record in the store: no save overwrites another attempt. */
  lemma NoLostAttempt(cfg: Config, s: State, g: nat, h: nat)
    requires Reachable(cfg, s) && g in s.handlers && h in s.handlers && s.handlers[g].pc.Busy? && s.handlers[h].pc.Busy?
    ensures g != h ==> s.handlers[g].pc.job.key != s.handlers[h].pc.job.key
    ensures var job := s.handlers[h].pc.job; job.key in s.store ==> s.store[job.key] == job.rec
  {
    ReachableInv(cfg, s);
    assert AttemptOk(cfg, s.now, s.store, s.handlers[h]);
    if g != h {
      KeysDoNotClash(cfg, s, g, h);
    }
  }

  predicate NoPrune(actions: seq<Action>) {
    forall i | 0 <= i < |actions| :: !actions[i].FinishPrune?
  }

  lemma {:induction false} RunExtends(cfg: Config, s0: State, actions: seq<Action>, s: State)
    requires Inv(cfg, s0) && Runs(cfg, s0, actions, s) && NoPrune(actions)
    ensures Extends(s0.store, s.store, None)
    decreases |actions|
  {
    hide Do, Enabled, Inv;
    if actions != [] {
      var s1 := Do(cfg, s0, actions[0]);
      StepInv(cfg, s0, actions[0]);
      StepExtends(cfg, s0, actions[0]);
      RunExtends(cfg, s1, actions[1..], s);
      assert Extends(s0.store, s1.store, None) && Extends(s1.store, s.store, None);
    } else {
      ExtendsItself(s0.store);
    }
  }

  /** From every reachable state on, as long as nothing is pruned, records only gain attempts. */
  lemma HistoryGrows(cfg: Config, s: State, actions: seq<Action>, t: State)
    requires Reachable(cfg, s) && Runs(cfg, s, actions, t) && NoPrune(actions)
    ensures forall k | k in s.store :: k in t.store && s.store[k].attempts <= t.store[k].attempts
  {
    hide Reachable, Runs, Inv;
    ReachableInv(cfg, s);
    RunExtends(cfg, s, actions, t);
  }

  lemma StepExtends(cfg: Config, s: State, a: Action)
    requires Inv(cfg, s) && Enabled(cfg, s, a)
    ensures Extends(s.store, Do(cfg, s, a).store, if a.FinishPrune? then s.cutoff else None)
  {
    hide Do, Enabled, RecordsOk;
    HistoryIsAppendOnly(cfg, s, a);
  }

  // ---------------------------------------------------------------- backoff

  /** In every run in which no delay exceeded a day and a nanosecond, no attempt passes the gate
      before the retry time last set for its document version, however pruner and handlers
      interleave. */
  lemma BackoffIsRespected(cfg: Config, s: State, h: nat)
    requires Reachable(cfg, s) && Short(cfg, s) && GateOpens(s, h)
    ensures var key := GateKey(s, h);
            && (key in s.due ==> s.due[key] <= s.now)
            && (key in s.store ==> s.store[key].retryAfter <= s.handlers[h].pc.begin)
  {
    ReachableInv(cfg, s);
    GateRespectsBackoff(cfg, s, h);
  }

  /** In every run, for an attempt in front of the gate: some wait and one round of the pruner can
      open the gate too early exactly when the retry time lies ahead, the last attempt failed and
      its delay exceeds a day and a nanosecond. */
  lemma LongDelayIsForgottenIff(cfg: Config, s: State, h: nat)
    requires Reachable(cfg, s) && s.cutoff.None? && StandsBeforeGate(s, h)
    ensures forall dt: nat :: Runs(cfg, s, [Tick(dt)] + [StartPrune, FinishPrune], PruneRound(s.(now := s.now + dt)))
    ensures var rec := s.store[GateKey(s, h)];
            (exists dt: nat :: OpensEarly(s, h, dt)) <==>
              && s.now < rec.retryAfter
              && LastFailed(rec) && cfg.delay(rec.retryCount - 1) > LIMIT
  {
    hide OpensEarly, GateKey, Runs, PruneRound, Reachable, Consistent, RecordsOk;
    ReachableInv(cfg, s);
    forall dt: nat
      ensures Runs(cfg, s, [Tick(dt)] + [StartPrune, FinishPrune], PruneRound(s.(now := s.now + dt)))
    {
      OpensEarlyRuns(cfg, s, dt);
    }
    EarlyIff(cfg, s, h);
    ShortenedGate(cfg, s, h);
    DueLateIff(s.store[GateKey(s, h)], cfg.delay);
  }

  /** In every run, when the first m attempts of a record failed, the next one began more than
      4.5 * (1.5^m - 1) - m poll intervals after the first one ended, provided the delay of the
      m-th fits 64 bits. */
  lemma BackoffGrows(cfg: Config, s: State, k: Bytes, m: nat, pollInterval: Duration)
    requires cfg.delay == Delays(pollInterval) && 0 < pollInterval
    requires Reachable(cfg, s) && k in s.store && 1 <= m < |s.store[k].attempts| && ProductFits(pollInterval, m - 1)
    requires forall i | 0 <= i < m :: !s.store[k].attempts[i].success
    ensures var a := s.store[k].attempts;
            (a[m].begin - a[0].end) as real > ScaledBound(pollInterval as real, m)
  {
    RecordHistory(cfg, s, k);
    BackoffOverRun(s.store[k], m, pollInterval);
  }
}
