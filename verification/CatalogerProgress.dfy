/** Walks that reach a document settle it: every delivery passes the gate once. */
module CatalogerProgress {
  import opened Common
  import opened Documents
  import opened Store
  import opened Tasks
  import opened Patches
  import opened Updater
  import opened Cataloger
  import opened CatalogerWalk
  import opened CatalogerConflicts
  import opened CatalogerRetries
  import opened CatalogerOutcomes
  import opened CatalogerTheorems

  /** The steps at which a request or a store write of a handler fails. */
  predicate Fails(m: Move) {
    m.AbandonLoad? || m.UpdaterFails? || m.CheckFails? || m.PatchFails? || m.SaveFails?
  }

  /** The step meets the document with no fault, foreign write or prune of its record, and a handler
      at the gate read the clock when the retry time had come. */
  predicate Smooth(s: State, a: Action, id: int64) {
    match a
    case ForeignWrite(i, _, _) => i != id
    case HandlerStep(h, m) =>
      h in s.handlers && s.handlers[h].Id() == id ==>
        && !Fails(m)
        && (m.PassGate? && s.handlers[h].pc.Begun? ==>
              Gate(s.store, s.handlers[h].listed.doc, s.handlers[h].pc.metadata, s.handlers[h].pc.begin).Some?)
    case FinishPrune => s.cutoff.Some? && id in s.server ==> s.server[id].Key() !in Expired(s.store, s.cutoff.value)
    case _ => true
  }

  ghost predicate SmoothRun(cfg: Config, s: State, actions: seq<Action>, id: int64)
    decreases |actions|
  {
    actions != [] ==>
      Smooth(s, actions[0], id) && (Enabled(cfg, s, actions[0]) ==> SmoothRun(cfg, Do(cfg, s, actions[0]), actions[1..], id))
  }

  /** The step hands the document to a handler. */
  predicate Starts(s: State, a: Action, id: int64) {
    a.Deliver? && s.page != [] && s.page[0].doc.id == id && id !in s.seen
  }

  ghost function Deliveries(cfg: Config, s: State, actions: seq<Action>, id: int64): nat
    decreases |actions|
  {
    if actions == [] || !Enabled(cfg, s, actions[0]) then 0
    else Deliveries(cfg, Do(cfg, s, actions[0]), actions[1..], id) + if Starts(s, actions[0], id) then 1 else 0
  }

  /** A handler of the document is in front of the gate. */
  predicate Before(s: State, id: int64) {
    exists h | h in s.handlers :: s.handlers[h].Id() == id && !s.handlers[h].pc.Busy?
  }

  /** A handler works on the present version and metadata, as a clean attempt, until its patch is
      accepted. */
  predicate OnTrack(sd: ServerDoc, x: Handler) {
    var present := x.listed.number == |sd.past|;
    match x.pc
    case Queued => present
    case HasMetadata(m) => present && m == sd.metadata
    case Begun(m, _) => present && m == sd.metadata
    case Busy(job, at) =>
      || (at.Saving? && at.patched)
      || (present && job.clean && job.metadata == sd.metadata && job.key == sd.Key()
          && (at.CheckingMetadata? ==> at.number == |sd.past| && at.current == sd.doc))
  }

  predicate AllOnTrack(s: State, id: int64) {
    && id in s.server
    && (forall h | h in s.handlers && s.handlers[h].Id() == id :: OnTrack(s.server[id], s.handlers[h]))
    && (forall i | 0 <= i < |s.page| && s.page[i].doc.id == id && id !in s.seen :: s.page[i].number == |s.server[id].past|)
  }

  /** The passes and the handler in front of the gate change together. */
  ghost predicate Accounts(s: State, t: State, id: int64, starts: nat) {
    && t.TallyOf(id).passes + (if Before(t, id) then 1 else 0) == s.TallyOf(id).passes + (if Before(s, id) then 1 else 0) + starts
    && t.TallyOf(id).faults == s.TallyOf(id).faults
  }

  // ---------------------------------------------------------------- steps of a handler of the document

  lemma BeforeHere(cfg: Config, s: State, h: nat)
    requires Exclusive(cfg, s) && h in s.handlers
    ensures Before(s, s.handlers[h].Id()) == !s.handlers[h].pc.Busy?
  {
  }

  lemma BeforeAfter(cfg: Config, s: State, t: State, h: nat)
    requires Exclusive(cfg, s) && h in s.handlers && LocalTo(s, t, h)
    ensures Before(t, s.handlers[h].Id()) == (h in t.handlers && !t.handlers[h].pc.Busy?)
  {
    forall g | g in t.handlers && g != h
      ensures t.handlers[g].Id() != s.handlers[h].Id()
    {
      assert t.handlers[g] == s.handlers[g];
    }
  }

  /** What is left to show for a step of the handler. */
  ghost predicate KeepsTrack(s: State, t: State, h: nat) {
    && h in s.handlers && LocalTo(s, t, h)
    && var id := s.handlers[h].Id();
       && id in s.server && id in t.server && (t.server == s.server || (h in t.handlers && t.handlers[h].pc.Busy? && t.handlers[h].pc.at == Saving(None, true)))
       && (h in t.handlers ==> OnTrack(t.server[id], t.handlers[h]))
       && t.TallyOf(id).faults == s.TallyOf(id).faults
       && t.TallyOf(id).passes == s.TallyOf(id).passes
                                  + (if s.handlers[h].pc.Busy? || (h in t.handlers && !t.handlers[h].pc.Busy?) then 0 else 1)
       && (s.handlers[h].pc.Busy? && h in t.handlers ==> t.handlers[h].pc.Busy?)
  }

  lemma OwnStepAccounts(cfg: Config, s: State, t: State, h: nat)
    requires Exclusive(cfg, s) && KeepsTrack(s, t, h) && AllOnTrack(s, s.handlers[h].Id())
    ensures AllOnTrack(t, s.handlers[h].Id()) && Accounts(s, t, s.handlers[h].Id(), 0)
  {
    hide OnTrack;
    var id := s.handlers[h].Id();
    BeforeHere(cfg, s, h);
    BeforeAfter(cfg, s, t, h);
    assert id in s.seen;
    forall g | g in t.handlers && g != h
      ensures t.handlers[g].Id() != id
    {
      assert t.handlers[g] == s.handlers[g];
    }
  }

  lemma OwnReadKeepsTrack(cfg: Config, s: State, h: nat, m: Move)
    requires CanMove(s, h, m) && OnTrack(s.server[s.handlers[h].Id()], s.handlers[h]) && Reads(m)
    ensures KeepsTrack(s, DoMove(cfg, s, h, m), h)
  {
    hide DocumentKey, DoPassGate, DoExtract, DoReadMetadata, DoSendPatch, DoSave, DoSendError, SameRecords, SameAttempt;
  }

  lemma OwnGateKeepsTrack(s: State, h: nat)
    requires Tracking(s) && CanMove(s, h, PassGate) && OnTrack(s.server[s.handlers[h].Id()], s.handlers[h])
    requires Smooth(s, HandlerStep(h, PassGate), s.handlers[h].Id())
    ensures KeepsTrack(s, DoPassGate(s, h), h)
  {
    hide Gate, DocumentKey;
    var x := s.handlers[h];
    assert HandlerTracks(s.server[x.Id()], x);
  }

  lemma OwnExtractKeepsTrack(cfg: Config, s: State, h: nat, f: Findings)
    requires Tracking(s) && CanMove(s, h, Extract(f)) && OnTrack(s.server[s.handlers[h].Id()], s.handlers[h])
    ensures KeepsTrack(s, DoExtract(cfg, s, h, f), h)
  {
    hide Start, DocumentKey, Tracks;
  }

  /** Nothing came between the reads of the check, so it passes. */
  lemma OwnCheckKeepsTrack(cfg: Config, s: State, h: nat)
    requires Tracking(s) && CanMove(s, h, ReadMetadata) && OnTrack(s.server[s.handlers[h].Id()], s.handlers[h])
    ensures KeepsTrack(s, DoReadMetadata(cfg, s, h), h)
  {
    hide DocumentKey, DoSendError;
    var x := s.handlers[h];
    assert HandlerTracks(s.server[x.Id()], x);
  }

  lemma OwnPatchKeepsTrack(s: State, h: nat, modified: Instant)
    requires CanMove(s, h, SendPatch(modified))
    ensures KeepsTrack(s, DoSendPatch(s, h, modified), h)
  {
    hide DocumentKey, Apply;
  }

  lemma OwnSaveKeepsTrack(cfg: Config, s: State, h: nat)
    requires CanMove(s, h, Save)
    ensures KeepsTrack(s, DoSave(cfg, s, h), h)
  {
  }

  lemma OwnMoveKeepsTrack(cfg: Config, s: State, h: nat, m: Move)
    requires Tracking(s) && CanMove(s, h, m) && OnTrack(s.server[s.handlers[h].Id()], s.handlers[h])
    requires Smooth(s, HandlerStep(h, m), s.handlers[h].Id())
    ensures KeepsTrack(s, DoMove(cfg, s, h, m), h)
  {
    hide Tracking, OnTrack, KeepsTrack, Gate, DoPassGate, DoExtract, DoReadMetadata, DoSendPatch, DoSave, DoSendError;
    match m
    case PassGate => OwnGateKeepsTrack(s, h);
    case Extract(f) => OwnExtractKeepsTrack(cfg, s, h, f);
    case ReadMetadata => OwnCheckKeepsTrack(cfg, s, h);
    case SendPatch(modified) => OwnPatchKeepsTrack(s, h, modified);
    case Save => OwnSaveKeepsTrack(cfg, s, h);
    case _ => OwnReadKeepsTrack(cfg, s, h, m);
  }

  lemma OwnMoveAccounts(cfg: Config, s: State, h: nat, m: Move)
    requires Exclusive(cfg, s) && Tracking(s) && CanMove(s, h, m) && AllOnTrack(s, s.handlers[h].Id())
    requires Smooth(s, HandlerStep(h, m), s.handlers[h].Id())
    ensures var t := DoMove(cfg, s, h, m); AllOnTrack(t, s.handlers[h].Id()) && Accounts(s, t, s.handlers[h].Id(), 0)
  {
    hide Tracking, OnTrack, KeepsTrack, Exclusive, DoMove, Accounts, Smooth;
    OwnMoveKeepsTrack(cfg, s, h, m);
    OwnStepAccounts(cfg, s, DoMove(cfg, s, h, m), h);
  }

  // ---------------------------------------------------------------- other steps

  /** The document, its count and its handlers are left alone. */
  lemma ElsewhereAccounts(s: State, t: State, id: int64)
    requires AllOnTrack(s, id) && id in t.server && t.server[id] == s.server[id] && t.TallyOf(id) == s.TallyOf(id)
    requires forall h | h in t.handlers && t.handlers[h].Id() == id :: h in s.handlers && t.handlers[h] == s.handlers[h]
    requires forall h | h in s.handlers && s.handlers[h].Id() == id :: h in t.handlers && t.handlers[h] == s.handlers[h]
    requires (t.page == s.page && t.seen == s.seen) || t.page == []
    ensures AllOnTrack(t, id) && Accounts(s, t, id, 0)
  {
    hide OnTrack;
  }

  lemma MoveCountsOwn(cfg: Config, s: State, h: nat, m: Move, id: int64)
    requires CanMove(s, h, m) && s.handlers[h].Id() != id && id in s.server
    ensures var t := DoMove(cfg, s, h, m); t.TallyOf(id) == s.TallyOf(id) && id in t.server && t.server[id] == s.server[id]
  {
    hide Gate, DocumentKey, CompareSnapshots, NewSnapshot, Start, OnSendError, Apply, LocalTo, KeepsHandlers, SameAttempt;
  }

  lemma OtherMoveAccounts(cfg: Config, s: State, h: nat, m: Move, id: int64)
    requires CanMove(s, h, m) && s.handlers[h].Id() != id && AllOnTrack(s, id)
    ensures AllOnTrack(DoMove(cfg, s, h, m), id) && Accounts(s, DoMove(cfg, s, h, m), id, 0)
  {
    MoveCountsOwn(cfg, s, h, m, id);
    MoveIsLocal(cfg, s, h, m);
    hide OnTrack, DoMove, AllOnTrack, Accounts;
    ElsewhereAccounts(s, DoMove(cfg, s, h, m), id);
  }

  lemma ForeignWriteAccounts(s: State, i: int64, doc: Document, metadata: Metadata, id: int64)
    requires AllOnTrack(s, id) && i != id
    ensures var t := DoForeignWrite(s, i, doc, metadata); AllOnTrack(t, id) && Accounts(s, t, id, 0)
  {
    hide OnTrack;
  }

  /** The prune spares the record of the present version, so a clean attempt stays clean. */
  lemma PruneAccounts(s: State, id: int64)
    requires AllOnTrack(s, id) && s.cutoff.Some? && Smooth(s, FinishPrune, id)
    ensures AllOnTrack(DoFinishPrune(s), id) && Accounts(s, DoFinishPrune(s), id, 0)
  {
    PruneTracks(s, id);
    PruneCounts(s, id);
  }

  lemma PruneTracks(s: State, id: int64)
    requires AllOnTrack(s, id) && s.cutoff.Some? && Smooth(s, FinishPrune, id)
    ensures AllOnTrack(DoFinishPrune(s), id)
  {
    hide DocumentKey, Expired, Pruned;
  }

  lemma PruneCounts(s: State, id: int64)
    requires AllOnTrack(s, id) && s.cutoff.Some? && Smooth(s, FinishPrune, id)
    ensures Accounts(s, DoFinishPrune(s), id, 0)
  {
    hide DocumentKey, Expired, Pruned, OnTrack;
    var t := DoFinishPrune(s);
    assert Before(t, id) == Before(s, id);
  }

  lemma DeliverAccounts(cfg: Config, s: State, id: int64)
    requires Exclusive(cfg, s) && AllOnTrack(s, id) && s.page != []
    ensures AllOnTrack(DoDeliver(s), id)
    ensures Accounts(s, DoDeliver(s), id, if Starts(s, Deliver, id) then 1 else 0)
  {
    var t := DoDeliver(s);
    assert s.nextHandler !in s.handlers && (id !in s.seen ==> forall h | h in s.handlers :: s.handlers[h].Id() != id);
    hide Exclusive;
    DeliverTracks(s, id);
    DeliverCounts(s, id);
  }

  lemma DeliverTracks(s: State, id: int64)
    requires AllOnTrack(s, id) && s.page != [] && s.nextHandler !in s.handlers
    ensures AllOnTrack(DoDeliver(s), id)
  {
    hide DocumentKey;
    var t := DoDeliver(s);
    forall i | 0 <= i < |t.page|
      ensures t.page[i] == s.page[i + 1]
    {
    }
  }

  lemma StartCounts(s: State, id: int64)
    requires Starts(s, Deliver, id) && s.nextHandler !in s.handlers
    requires forall h | h in s.handlers :: s.handlers[h].Id() != id
    ensures !Before(s, id) && Before(DoDeliver(s), id)
  {
    var t := DoDeliver(s);
    assert t.handlers[s.nextHandler].Id() == id && !t.handlers[s.nextHandler].pc.Busy?;
  }

  lemma OtherDeliveryCounts(s: State, id: int64)
    requires s.page != [] && !Starts(s, Deliver, id) && s.nextHandler !in s.handlers
    ensures Before(DoDeliver(s), id) == Before(s, id)
  {
    var t := DoDeliver(s);
    if Before(s, id) {
      var h :| h in s.handlers && s.handlers[h].Id() == id && !s.handlers[h].pc.Busy?;
      assert t.handlers[h] == s.handlers[h];
    }
  }

  lemma DeliverCounts(s: State, id: int64)
    requires s.page != [] && s.nextHandler !in s.handlers
    requires id !in s.seen ==> forall h | h in s.handlers :: s.handlers[h].Id() != id
    ensures Accounts(s, DoDeliver(s), id, if Starts(s, Deliver, id) then 1 else 0)
  {
    hide Before;
    if Starts(s, Deliver, id) {
      StartCounts(s, id);
    } else {
      OtherDeliveryCounts(s, id);
    }
  }

  lemma FetchPageAccounts(s: State, ids: seq<int64>, id: int64)
    requires Tracking(s) && AllOnTrack(s, id) && forall i | 0 <= i < |ids| :: ids[i] in s.server
    ensures AllOnTrack(DoFetchPage(s, ids), id) && Accounts(s, DoFetchPage(s, ids), id, 0)
  {
    hide OnTrack;
    var t := DoFetchPage(s, ids);
    assert Before(t, id) == Before(s, id);
  }

  lemma StepAccounts(cfg: Config, s: State, a: Action, id: int64)
    requires Exclusive(cfg, s) && Tracking(s) && AllOnTrack(s, id) && Smooth(s, a, id) && Enabled(cfg, s, a)
    ensures var t := Do(cfg, s, a); AllOnTrack(t, id) && Accounts(s, t, id, if Starts(s, a, id) then 1 else 0)
  {
    hide Tracking, Exclusive, AllOnTrack, Accounts, DoMove, DoFinishPrune, DoForeignWrite, DoDeliver, DoFetchPage, CanMove, Gate;
    match a
    case ForeignWrite(i, doc, m) => ForeignWriteAccounts(s, i, doc, m, id);
    case FetchPage(ids) => FetchPageAccounts(s, ids, id);
    case Deliver => DeliverAccounts(cfg, s, id);
    case HandlerStep(h, m) => HandlerStepAccounts(cfg, s, h, m, id);
    case FinishPrune => PruneAccounts(s, id);
    case _ => QuietStepAccounts(s, Do(cfg, s, a), id);
  }

  lemma HandlerStepAccounts(cfg: Config, s: State, h: nat, m: Move, id: int64)
    requires Exclusive(cfg, s) && Tracking(s) && AllOnTrack(s, id) && Smooth(s, HandlerStep(h, m), id) && CanMove(s, h, m)
    ensures AllOnTrack(DoMove(cfg, s, h, m), id) && Accounts(s, DoMove(cfg, s, h, m), id, 0)
  {
    hide Tracking, Exclusive, AllOnTrack, Accounts, DoMove, Smooth;
    if s.handlers[h].Id() == id {
      OwnMoveAccounts(cfg, s, h, m);
    } else {
      OtherMoveAccounts(cfg, s, h, m, id);
    }
  }

  lemma QuietStepAccounts(s: State, t: State, id: int64)
    requires AllOnTrack(s, id) && t.server == s.server && t.tally == s.tally && t.handlers == s.handlers
    requires (t.page == s.page && t.seen == s.seen) || t.page == []
    ensures AllOnTrack(t, id) && Accounts(s, t, id, 0)
  {
    hide OnTrack, Accounts;
    ElsewhereAccounts(s, t, id);
  }

  lemma {:induction false} RunAccounts(cfg: Config, s: State, actions: seq<Action>, t: State, id: int64)
    requires Inv(cfg, s) && AllOnTrack(s, id) && Runs(cfg, s, actions, t) && SmoothRun(cfg, s, actions, id)
    ensures Inv(cfg, t) && AllOnTrack(t, id) && Accounts(s, t, id, Deliveries(cfg, s, actions, id))
    decreases |actions|
  {
    hide Do, Enabled, Inv, AllOnTrack, Smooth, Starts, Exclusive, Tracking;
    if actions != [] {
      InvParts(cfg, s);
      StepInv(cfg, s, actions[0]);
      StepAccounts(cfg, s, actions[0], id);
      RunAccounts(cfg, Do(cfg, s, actions[0]), actions[1..], t, id);
    }
  }

  // ---------------------------------------------------------------- progress

  /** Between two quiet points of a run in which the document meets no fault, no foreign write and
      no prune of its record, and its handlers come when it is due: every walk that delivers it
      adds exactly one pass. So once max(retriesMax, 0) + 1 walks delivered it, the todo tag is
      gone and the document is settled. */
  lemma DeliveriesSettle(cfg: Config, s: State, actions: seq<Action>, t: State, id: int64)
    requires Reachable(cfg, s) && cfg.settings.todo != cfg.settings.failed && id in s.server
    requires s.walk.Idle? && t.walk.Idle? && s.TallyOf(id).faults == 0
    requires Runs(cfg, s, actions, t) && SmoothRun(cfg, s, actions, id)
    ensures t.TallyOf(id).passes == s.TallyOf(id).passes + Deliveries(cfg, s, actions, id)
    ensures t.TallyOf(id).passes > Budget(cfg) ==>
              id in t.server && cfg.settings.todo !in t.server[id].doc.tags
              && Settled(cfg, t.server[id], t.SettlementOf(id))
  {
    hide Reachable, Runs, SmoothRun, Inv, Settled, OnTrack;
    ReachableInv(cfg, s);
    IdleIsEmpty(cfg, s);
    RunAccounts(cfg, s, actions, t, id);
    IdleIsEmpty(cfg, t);
    if t.TallyOf(id).passes > Budget(cfg) {
      SettledByInv(cfg, t, id);
    }
  }

  lemma IdleIsEmpty(cfg: Config, s: State)
    requires Inv(cfg, s) && s.walk.Idle?
    ensures s.handlers == map[] && s.page == []
  {
  }

  lemma SettledByInv(cfg: Config, s: State, id: int64)
    requires Inv(cfg, s) && cfg.settings.todo != cfg.settings.failed && id in s.server && s.handlers == map[]
    requires s.TallyOf(id).passes > Budget(cfg) && s.TallyOf(id).faults == 0
    ensures cfg.settings.todo !in s.server[id].doc.tags && Settled(cfg, s.server[id], s.SettlementOf(id))
  {
    hide Settled, Exclusive, Tracking;
    assert TallyOk(cfg, s.server[id], s.store, s.TallyOf(id), Active(s, id));
    assert SettledOk(cfg, s.server[id], s.TallyOf(id), s.SettlementOf(id));
  }
}
