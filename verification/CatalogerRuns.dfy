/** Runs that lead somewhere: rounds in which one document is attempted and nothing else happens. */
module CatalogerRuns {
  import opened Common
  import opened Documents
  import opened Errors
  import opened History
  import opened Extraction
  import opened Tasks
  import opened Patches
  import opened Updater
  import opened Cataloger
  import opened CatalogerAlone

  lemma {:induction false} RunsAppend(cfg: Config, s: State, a: seq<Action>, t: State, b: seq<Action>, u: State)
    requires Runs(cfg, s, a, t) && Runs(cfg, t, b, u)
    ensures Runs(cfg, s, a + b, u)
    decreases |a|
  {
    hide Do, Enabled;
    if a == [] {
      assert a + b == b;
    } else {
      RunsAppend(cfg, Do(cfg, s, a[0]), a[1..], t, b, u);
      assert (a + b)[1..] == a[1..] + b;
    }
  }

  lemma ReachableAppend(cfg: Config, s: State, actions: seq<Action>, t: State)
    requires Reachable(cfg, s) && Runs(cfg, s, actions, t)
    ensures Reachable(cfg, t)
  {
    hide Runs, Init;
    var s0, before :| Init(cfg, s0) && Runs(cfg, s0, before, s);
    RunsAppend(cfg, s0, before, s, actions, t);
  }

  /** One action, and then a run. */
  lemma FirstAction(cfg: Config, s: State, a: Action, next: State, rest: seq<Action>, t: State)
    requires Enabled(cfg, s, a) && Do(cfg, s, a) == next && Runs(cfg, next, rest, t)
    ensures Runs(cfg, s, [a] + rest, t)
  {
    hide Do, Enabled;
    assert ([a] + rest)[1..] == rest;
  }

  /** Nothing goes on: no walk, no handler and no prune. */
  predicate Quiet(s: State) {
    s.walk.Idle? && s.page == [] && s.handlers == map[] && s.cutoff.None?
  }

  /** The document is on the server and waits to be processed. */
  predicate Waiting(cfg: Config, s: State, id: int64) {
    id in s.server && s.server[id].doc.id == id && cfg.settings.todo in s.server[id].doc.tags
  }

  // ---------------------------------------------------------------- a walk that delivers one document

  function Visited(s: State, id: int64): State
    requires id in s.server
  {
    s.(walk := Listing(true), seen := {id}, page := [], nextHandler := s.nextHandler + 1,
       handlers := map[s.nextHandler := Handler(Listed(s.server[id].doc, |s.server[id].past|), Queued)])
  }

  function VisitActions(id: int64): seq<Action> {
    [StartWalk] + ([FetchPage([id])] + ([Deliver] + []))
  }

  lemma VisitRuns(cfg: Config, s: State, id: int64)
    requires Quiet(s) && Waiting(cfg, s, id) && cfg.workers > 0
    ensures Runs(cfg, s, VisitActions(id), Visited(s, id))
  {
    hide Runs;
    var listed := Listed(s.server[id].doc, |s.server[id].past|);
    var s1 := s.(walk := Listing(false), seen := {}, page := []);
    var s2 := s1.(page := [listed]);
    assert DoFetchPage(s1, [id]).page == [listed];
    assert s2.page[1..] == [];
    DeliverOne(s2, listed);
    NoActions(cfg, Visited(s, id));
    FirstAction(cfg, s2, Deliver, Visited(s, id), [], Visited(s, id));
    FirstAction(cfg, s1, FetchPage([id]), s2, [Deliver] + [], Visited(s, id));
    FirstAction(cfg, s, StartWalk, s1, [FetchPage([id])] + ([Deliver] + []), Visited(s, id));
  }

  lemma NoActions(cfg: Config, s: State)
    ensures Runs(cfg, s, [], s)
  {
  }

  lemma DeliverOne(s: State, l: Listed)
    requires s.page == [l] && l.doc.id !in s.seen && s.handlers == map[]
    ensures DoDeliver(s) == s.(page := [], seen := s.seen + {l.doc.id}, walk := Listing(true),
                               handlers := map[s.nextHandler := Handler(l, Queued)], nextHandler := s.nextHandler + 1)
  {
    assert s.page[1..] == [];
  }

  // ---------------------------------------------------------------- an attempt that meets a fault

  /** The state after an attempt whose tags could not be resolved. */
  ghost function Faulted(cfg: Config, s: State, h: nat, e: Error): State
    requires CanLoad(s, h)
  {
    var job, id := LoadedJob(s, h), s.handlers[h].Id();
    var delay := cfg.delay(job.rec.retryCount);
    s.Without(h).(store := s.store[job.key := Saved(job.rec, s.now, s.now, Some(e), delay)],
                  due := s.due[job.key := s.now + delay],
                  maxDelay := if delay > s.maxDelay then delay else s.maxDelay,
                  tally := s.tally[id := s.TallyOf(id).Pass(true).Fault()])
  }

  /** The state at the end of such an attempt, before it is saved. */
  function Unresolved(s: State, h: nat, e: Error): State
    requires CanLoad(s, h)
  {
    var job, id := LoadedJob(s, h), s.handlers[h].Id();
    s.(tally := s.tally[id := s.TallyOf(id).Pass(true).Fault()])
     .WithPc(h, Busy(job.(clean := false), Saving(Some(e), false)))
  }

  lemma FailsMove(cfg: Config, s: State, h: nat, e: Error)
    requires CanMove(s, h, UpdaterFails(e))
    ensures var job := s.handlers[h].pc.job;
            DoMove(cfg, s, h, UpdaterFails(e)) ==
            s.Blame(s.handlers[h].Id(), job).WithPc(h, Busy(job.(clean := false), Saving(Some(e), false)))
  {
    hide DoPassGate, DoExtract, DoSendError, DoReadMetadata, DoSendPatch, DoSave, AfterFailedPatch;
  }

  lemma UnresolvedMove(cfg: Config, s: State, h: nat, e: Error)
    requires CanLoad(s, h)
    ensures CanMove(Loaded(s, h), h, UpdaterFails(e))
    ensures DoMove(cfg, Loaded(s, h), h, UpdaterFails(e)) == Unresolved(s, h, e)
  {
    hide Gate, DocumentKey, Loaded, DoMove;
    var job, u := LoadedJob(s, h), Loaded(s, h);
    FailsMove(cfg, u, h, e);
    var id := s.handlers[h].Id();
    var tally := s.tally[id := s.TallyOf(id).Pass(true).Fault()];
    assert u.Blame(id, job).tally == tally;
    PcTwice(s.(tally := tally), h, Busy(job, Extracting), Busy(job.(clean := false), Saving(Some(e), false)));
  }

  lemma FaultedSave(cfg: Config, s: State, h: nat, e: Error)
    requires CanLoad(s, h)
    ensures CanMove(Unresolved(s, h, e), h, Save)
    ensures DoSave(cfg, Unresolved(s, h, e), h) == Faulted(cfg, s, h, e)
  {
    hide Gate, DocumentKey, Saved;
    var job, id := LoadedJob(s, h), s.handlers[h].Id();
    var t := s.(tally := s.tally[id := s.TallyOf(id).Pass(true).Fault()]);
    PcTwice(t, h, Busy(job.(clean := false), Saving(Some(e), false)), Queued);
  }

  lemma FaultedMoves(cfg: Config, s: State, h: nat, e: Error)
    requires CanLoad(s, h)
    ensures Moves(cfg, s, h, LOADING + ([UpdaterFails(e)] + [Save]), Faulted(cfg, s, h, e))
  {
    hide Moves, CanMove, DoMove, DoSave, Loaded, Unresolved, Faulted, Gate;
    UnresolvedMove(cfg, s, h, e);
    FaultedSave(cfg, s, h, e);
    SavingEnds(cfg, Unresolved(s, h, e), h);
    FirstMove(cfg, Loaded(s, h), h, UpdaterFails(e), [Save], Unresolved(s, h, e), Faulted(cfg, s, h, e));
    Loading(cfg, s, h, [UpdaterFails(e)] + [Save], Faulted(cfg, s, h, e));
  }

  // ---------------------------------------------------------------- every kind of fault

  /** What goes wrong with an attempt: resolving the tags, the conflict checks, the patch requests,
      or the store write after an update that returned an error; or, which is no fault but uses up a
      retry, applying the facts. */
  datatype FaultKind =
    | Unresolvable(e: Error) | Uncheckable(e: Error) | Unpatchable(e: Error) | Unsavable(f: Findings)
    | Unapplicable(f: Findings)

  /** When an attempt can meet such a fault and leave the document as it is. */
  ghost predicate CanMeet(cfg: Config, doc: Document, metadata: Metadata, failures: nat, kind: FaultKind) {
    match kind
    case Unresolvable(_) => true
    case Unsavable(f) => ReturnsError(Start(cfg.settings, doc, metadata, failures >= cfg.retriesMax, f))
    case Unapplicable(f) => failures < cfg.retriesMax && FailsForNow(cfg.settings, doc, metadata, f)
    case _ => cfg.settings.todo != cfg.settings.failed
  }

  /** The findings lead to an error that a retry may help against. */
  ghost predicate FailsForNow(s: Settings, doc: Document, metadata: Metadata, f: Findings) {
    Prepared(s, doc, metadata, f).Err? && Temporary(Prepared(s, doc, metadata, f).error)
  }

  predicate ReturnsError(next: Next) {
    next.Return? && next.err.Some?
  }

  /** Where such an attempt ends: it is counted with its fault, and recorded unless the store
      write failed; the document is as it was. */
  ghost predicate FaultyEnd(cfg: Config, s: State, h: nat, kind: FaultKind, t: State)
    requires CanLoad(s, h)
  {
    var job, id := LoadedJob(s, h), s.handlers[h].Id();
    && LocalTo(s, t, h) && h !in t.handlers && t.now == s.now && t.cutoff == s.cutoff && t.server == s.server
    && t.TallyOf(id) == Counted(s.TallyOf(id), kind)
    && if kind.Unsavable? then t.store == s.store && t.due == s.due
       else RecordsFailure(cfg, s, job, t)
  }

  function Counted(n: Tally, kind: FaultKind): Tally {
    if kind.Unapplicable? then n.Pass(true).Spend() else n.Pass(true).Fault()
  }

  ghost predicate RecordsFailure(cfg: Config, s: State, job: Job, t: State) {
    var delay := cfg.delay(job.rec.retryCount);
    && (exists e :: t.store == s.store[job.key := Saved(job.rec, s.now, s.now, Some(e), delay)])
    && t.due == s.due[job.key := s.now + delay]
  }

  lemma UnresolvableEnd(cfg: Config, s: State, h: nat, e: Error)
    requires CanLoad(s, h)
    ensures FaultyEnd(cfg, s, h, Unresolvable(e), Faulted(cfg, s, h, e))
  {
    hide Gate, DocumentKey, Saved;
  }

  const NOTHING_FOUND: Findings :=
    Findings(Ran([], None), Ran([], None),
             Resolutions(_ => Err(NotFound), _ => Err(NotFound), _ => Err(NotFound), _ => Err(NotFound), _ => Err(NotFound)))

  /** Without facts an update of a tagged document always sends a patch. */
  lemma NothingFoundSends(cfg: Config, doc: Document, metadata: Metadata, lastRetry: bool)
    requires cfg.settings.todo != cfg.settings.failed && cfg.settings.todo in doc.tags
    ensures Start(cfg.settings, doc, metadata, lastRetry, NOTHING_FOUND).Send?
  {
    hide FailedPatch, FactsPatch;
    FailedPatchMeaning(cfg.settings, doc);
    NothingFound(metadata);
    var r := Prepared(cfg.settings, doc, metadata, NOTHING_FOUND);
    if r.Ok? {
      PreparedMeaning(cfg.settings, doc, metadata, NOTHING_FOUND, r.value);
    } else if !TooBig(metadata, cfg.settings.fileSizeMax) {
      PatchMeaning(doc, NO_FACTS, NOTHING_FOUND.res, {cfg.settings.todo, cfg.settings.failed});
      assert false;
    }
  }

  lemma NothingFound(metadata: Metadata)
    ensures FoundFacts(metadata, NOTHING_FOUND) == Ok(None)
  {
    var run := Ran([], None);
    assert VariantFacts(run) == Ok(None) && !Yields(run);
    assert [run, run][1..] == [run] && [run][1..] == [];
    assert FirstFacts([run], None) == FirstFacts([], None) == Ok(None);
    assert FirstFacts([run, run], None) == FirstFacts([run], None);
  }

  /** The failure patch of a tagged document is not empty. */
  lemma FailedPatchIsSent(cfg: Config, doc: Document)
    requires cfg.settings.todo != cfg.settings.failed && cfg.settings.todo in doc.tags
    ensures !FailedPatch(cfg.settings, doc).IsEmpty()
  {
    FailedPatchMeaning(cfg.settings, doc);
  }

  function Always(reply: Reply): Stage -> Reply {
    _ => reply
  }

  /** If every request fails, the update returns an error and nothing was patched. */
  lemma {:induction false} AllRequestsFail(cfg: Config, sd: ServerDoc, last: bool, next: Next, reply: Reply, modified: Instant)
    requires cfg.settings.todo != cfg.settings.failed && cfg.settings.todo in sd.doc.tags
    requires next.Send? && (reply.check.Some? || reply.patch.Some?)
    ensures var (log, err) := Outcome(cfg.settings, sd.doc, last, next, Always(reply));
            err.Some? && Faulty(log) && AfterRequests(sd, log, modified) == sd
    decreases if next.stage.MarkFailed? then 0 else 1
  {
    hide FailedPatch, Apply, Faulty;
    FailedPatchIsSent(cfg, sd.doc);
    FaultyHeads(next.stage, next.patch);
    var e := if reply.check.Some? then reply.check.value else reply.patch.value;
    var after := OnSendError(cfg.settings, sd.doc, last, next.stage, e);
    var head := if reply.check.Some? then [Checked(false)] else [Checked(true), Patched(next.stage, next.patch, false)];
    var rest := Outcome(cfg.settings, sd.doc, last, after, Always(reply));
    if after.Send? {
      AllRequestsFail(cfg, sd, last, after, reply, modified);
    }
    FaultyAppend(head, rest.0);
    FailedRequestsFirst(sd, head, rest.0, modified);
  }

  lemma FailingRequestsEnd(cfg: Config, s: State, h: nat, kind: FaultKind, reply: Reply) returns (moves: seq<Move>, t: State)
    requires CanLoad(s, h) && cfg.settings.todo != cfg.settings.failed && cfg.settings.todo in s.handlers[h].listed.doc.tags
    requires (kind.Uncheckable? || kind.Unpatchable?) && (reply.check.Some? || reply.patch.Some?)
    ensures Moves(cfg, s, h, moves, t) && FaultyEnd(cfg, s, h, kind, t)
  {
    hide Moves, Gate, DocumentKey, Saved, Start, Outcome, AfterRequests, Faulty, LocalTo, ReplyMoves;
    var delayOf: int -> Duration := c => if c >= 1 then cfg.delay(c - 1) else 0;
    var sd, job := s.server[s.handlers[h].Id()], LoadedJob(s, h);
    var last := LastRetry(cfg, job);
    var next := FirstStep(cfg, sd.doc, job, NOTHING_FOUND);
    NothingFoundSends(cfg, sd.doc, sd.metadata, last);
    AllRequestsFail(cfg, sd, last, next, reply, s.now);
    t := UndisturbedAttempt(cfg, s, h, NOTHING_FOUND, Always(reply), s.now, delayOf);
    moves := LOADING + ([Extract(NOTHING_FOUND)] + ReplyMoves(cfg.settings, sd.doc, last, next, Always(reply), s.now));
    var id := s.handlers[h].Id();
    assert s.server[id := s.server[id]] == s.server;
    var err := Outcome(cfg.settings, sd.doc, last, next, Always(reply)).1;
    assert t.store == s.store[job.key := Saved(job.rec, s.now, s.now, Some(err.value), cfg.delay(job.rec.retryCount))];
  }

  lemma SaveFailing(cfg: Config, s: State, h: nat)
    requires CanMove(s, h, SaveFails)
    ensures var t := DoMove(cfg, s, h, SaveFails);
            && Moves(cfg, s, h, [SaveFails], t)
            && LocalTo(s, t, h) && h !in t.handlers && SameRecords(s, t) && t.server == s.server
            && t.TallyOf(s.handlers[h].Id()) == if s.handlers[h].pc.job.clean then s.TallyOf(s.handlers[h].Id()).Fault() else s.TallyOf(s.handlers[h].Id())
  {
    var t := DoMove(cfg, s, h, SaveFails);
    assert [SaveFails][1..] == [];
    assert Moves(cfg, t, h, [], t);
  }

  lemma UnsavableEnd(cfg: Config, s: State, h: nat, f: Findings) returns (moves: seq<Move>, t: State)
    requires CanLoad(s, h) && ReturnsError(FirstStep(cfg, s.handlers[h].listed.doc, LoadedJob(s, h), f))
    ensures Moves(cfg, s, h, moves, t) && FaultyEnd(cfg, s, h, Unsavable(f), t)
  {
    hide Moves, Gate, DocumentKey, Start, Loaded, DoExtract, LocalTo;
    var u := DoExtract(cfg, Loaded(s, h), h, f);
    ExtractedAtPoint(cfg, s, h, f);
    t := DoMove(cfg, u, h, SaveFails);
    SaveFailing(cfg, u, h);
    LocalTwice(s, u, t, h);
    FirstMove(cfg, Loaded(s, h), h, Extract(f), [SaveFails], u, t);
    Loading(cfg, s, h, [Extract(f)] + [SaveFails], t);
    moves := LOADING + ([Extract(f)] + [SaveFails]);
  }

  lemma UnapplicableEnd(cfg: Config, s: State, h: nat, f: Findings) returns (moves: seq<Move>, t: State)
    requires CanLoad(s, h)
    requires CanMeet(cfg, s.handlers[h].listed.doc, LoadedJob(s, h).metadata, LoadedJob(s, h).rec.retryCount, Unapplicable(f))
    ensures Moves(cfg, s, h, moves, t) && FaultyEnd(cfg, s, h, Unapplicable(f), t)
  {
    hide Moves, Gate, DocumentKey, Saved, Start, Outcome, ReplyMoves, Prepared, Temporary, LocalTo;
    var delayOf: int -> Duration := c => if c >= 1 then cfg.delay(c - 1) else 0;
    var sd, job := s.server[s.handlers[h].Id()], LoadedJob(s, h);
    var last, next := LastRetry(cfg, job), FirstStep(cfg, sd.doc, job, f);
    StartDecision(cfg.settings, sd.doc, sd.metadata, last, f);
    var e := Prepared(cfg.settings, sd.doc, sd.metadata, f).error;
    assert next == Return(Some(e));
    var replies := Always(Reply(None, None));
    assert Outcome(cfg.settings, sd.doc, last, next, replies) == ([], Some(e)) by {
      ReturnedOutcome(cfg.settings, sd.doc, last, next, replies);
    }
    t := UndisturbedAttempt(cfg, s, h, f, replies, s.now, delayOf);
    moves := LOADING + ([Extract(f)] + ReplyMoves(cfg.settings, sd.doc, last, next, replies, s.now));
    var id := s.handlers[h].Id();
    assert s.server[id := s.server[id]] == s.server;
    assert t.store == s.store[job.key := Saved(job.rec, s.now, s.now, Some(e), cfg.delay(job.rec.retryCount))];
  }

  lemma ReturnedOutcome(s: Settings, doc: Document, lastRetry: bool, next: Next, replies: Stage -> Reply)
    requires next.Return?
    ensures Outcome(s, doc, lastRetry, next, replies) == ([], next.err)
  {
  }

  /** An attempt can meet any kind of fault. */
  lemma FaultyAttempt(cfg: Config, s: State, h: nat, kind: FaultKind) returns (moves: seq<Move>, t: State)
    requires CanLoad(s, h) && cfg.settings.todo in s.handlers[h].listed.doc.tags
    requires CanMeet(cfg, s.handlers[h].listed.doc, LoadedJob(s, h).metadata, LoadedJob(s, h).rec.retryCount, kind)
    ensures Moves(cfg, s, h, moves, t) && FaultyEnd(cfg, s, h, kind, t)
  {
    hide Moves, Gate, DocumentKey, Start, FaultyEnd, Faulted;
    match kind
    case Unresolvable(e) =>
      FaultedMoves(cfg, s, h, e);
      UnresolvableEnd(cfg, s, h, e);
      moves, t := LOADING + ([UpdaterFails(e)] + [Save]), Faulted(cfg, s, h, e);
    case Uncheckable(e) => moves, t := FailingRequestsEnd(cfg, s, h, kind, Reply(Some(e), None));
    case Unpatchable(e) => moves, t := FailingRequestsEnd(cfg, s, h, kind, Reply(None, Some(e)));
    case Unsavable(f) => moves, t := UnsavableEnd(cfg, s, h, f);
    case Unapplicable(f) => moves, t := UnapplicableEnd(cfg, s, h, f);
  }

  // ---------------------------------------------------------------- a whole round

  /** The end of a walk whose last handler has ended. */
  lemma LeaveRuns(cfg: Config, s: State)
    requires s.walk == Listing(true) && s.page == [] && s.handlers == map[]
    ensures Runs(cfg, s, [EndPass] + ([EndPass] + ([EndWalk] + [])), s.(walk := Idle))
  {
    hide Runs;
    var s1, s2, t := s.(walk := Listing(false)), s.(walk := Draining), s.(walk := Idle);
    NoActions(cfg, t);
    FirstAction(cfg, s2, EndWalk, t, [], t);
    FirstAction(cfg, s1, EndPass, s2, [EndWalk] + [], t);
    FirstAction(cfg, s, EndPass, s1, [EndPass] + ([EndWalk] + []), t);
  }

  /** The retry time of the document has come. */
  predicate Due(s: State, id: int64)
    requires id in s.server
  {
    Gate(s.store, s.server[id].doc, s.server[id].metadata, s.now).Some?
  }

  lemma VisitLoads(cfg: Config, s: State, id: int64)
    requires Waiting(cfg, s, id) && Due(s, id)
    ensures CanLoad(Visited(s, id), s.nextHandler)
  {
    hide Gate;
  }

  /** The failures on record for the present version of a document. */
  function Recorded(s: State, id: int64): nat
    requires id in s.server
  {
    var key := s.server[id].Key();
    if key in s.store then s.store[key].retryCount else 0
  }

  /** A document that waits, and whose attempts can meet the fault. */
  ghost predicate Exposed(cfg: Config, s: State, id: int64, kind: FaultKind) {
    && Quiet(s) && Waiting(cfg, s, id) && cfg.workers > 0
    && CanMeet(cfg, s.server[id].doc, s.server[id].metadata, Recorded(s, id), kind)
  }

  /** The record of the present version was just written, after a failure. */
  ghost predicate JustFailed(cfg: Config, s: State, id: int64)
    requires id in s.server
  {
    var key := s.server[id].Key();
    && key in s.store && key in s.due
    && LastFailed(s.store[key]) && s.store[key].recordUpdated == s.now
    && s.due[key] == s.store[key].retryAfter == s.now + cfg.delay(s.store[key].retryCount - 1)
  }

  /** Where a round ends: quiet again, the document as it was, one more attempt that met a fault;
      it is on record unless it could not be saved. */
  ghost predicate RoundEnd(cfg: Config, s: State, id: int64, kind: FaultKind, t: State)
    requires id in s.server
  {
    && Quiet(t) && t.server == s.server
    && t.TallyOf(id) == Counted(s.TallyOf(id), kind)
    && (if kind.Unsavable? then t.store == s.store
        else Recorded(t, id) == Recorded(s, id) + 1 && JustFailed(cfg, t, id))
  }

  lemma RecordOfLoaded(s: State, id: int64)
    requires id in s.server && s.server[id].doc.id == id && Due(s, id) && CanLoad(Visited(s, id), s.nextHandler)
    ensures var job := LoadedJob(Visited(s, id), s.nextHandler);
            job.rec.retryCount == Recorded(s, id) && job.key == s.server[id].Key() && job.metadata == s.server[id].metadata
  {
    hide DocumentKey;
  }

  lemma FaultyRoundEnd(cfg: Config, s: State, id: int64, kind: FaultKind, f: State)
    requires Quiet(s) && Waiting(cfg, s, id) && Due(s, id) && CanLoad(Visited(s, id), s.nextHandler)
    requires FaultyEnd(cfg, Visited(s, id), s.nextHandler, kind, f)
    ensures f.walk == Listing(true) && f.page == [] && f.handlers == map[]
    ensures RoundEnd(cfg, s, id, kind, f.(walk := Idle))
  {
    hide Gate, DocumentKey, Saved;
    RecordOfLoaded(s, id);
    assert f.handlers.Keys == {};
    if !kind.Unsavable? {
      var v := Visited(s, id);
      var job := LoadedJob(v, s.nextHandler);
      assert job.key == s.server[id].Key();
      SavedFailure(cfg, v, job, f);
    }
  }

  lemma SavedFailure(cfg: Config, s: State, job: Job, t: State)
    requires RecordsFailure(cfg, s, job, t)
    ensures job.key in t.store && job.key in t.due
    ensures var rec := t.store[job.key];
            && LastFailed(rec) && rec.recordUpdated == s.now && rec.retryCount == job.rec.retryCount + 1
            && t.due[job.key] == rec.retryAfter == s.now + cfg.delay(job.rec.retryCount)
  {
  }

  /** A round is a run: a walk delivers the document, the attempt meets a fault, the walk ends. */
  lemma RoundRuns(cfg: Config, s: State, id: int64, kind: FaultKind) returns (actions: seq<Action>, t: State)
    requires Exposed(cfg, s, id, kind) && Due(s, id)
    ensures Runs(cfg, s, actions, t) && RoundEnd(cfg, s, id, kind, t)
  {
    hide Runs, Moves, Due, RoundEnd, FaultyEnd, CanMeet, DocumentKey, Gate, Recorded;
    var v, h := Visited(s, id), s.nextHandler;
    VisitLoads(cfg, s, id);
    RecordOfLoaded(s, id);
    VisitRuns(cfg, s, id);
    var row, f := FaultyAttempt(cfg, v, h, kind);
    FaultyRoundEnd(cfg, s, id, kind, f);
    var moves := MovesRun(cfg, v, h, row, f);
    LeaveRuns(cfg, f);
    t := f.(walk := Idle);
    RunsAppend(cfg, v, moves, f, [EndPass] + ([EndPass] + ([EndWalk] + [])), t);
    actions := VisitActions(id) + (moves + ([EndPass] + ([EndPass] + ([EndWalk] + []))));
    RunsAppend(cfg, s, VisitActions(id), v, moves + ([EndPass] + ([EndPass] + ([EndWalk] + []))), t);
  }

  // ---------------------------------------------------------------- many rounds

  /** The time that is left until the document is due. */
  function Rest(s: State, id: int64): nat
    requires id in s.server
  {
    var key := s.server[id].Key();
    if key in s.store && s.store[key].retryAfter > s.now then s.store[key].retryAfter - s.now else 0
  }

  lemma RestEnds(s: State, id: int64)
    requires id in s.server
    ensures Due(s.(now := s.now + Rest(s, id)), id)
  {
    hide DocumentKey;
  }

  lemma SameRecord(s: State, t: State, id: int64)
    requires id in s.server && t.server == s.server && t.store == s.store
    ensures Recorded(t, id) == Recorded(s, id)
  {
  }

  /** Waiting until the document is due, and then a round. */
  lemma NextRound(cfg: Config, s: State, id: int64, kind: FaultKind) returns (actions: seq<Action>, t: State)
    requires Exposed(cfg, s, id, kind)
    ensures Runs(cfg, s, actions, t) && RoundEnd(cfg, s, id, kind, t)
  {
    hide Runs, Due, JustFailed, Recorded, CanMeet;
    var s1 := s.(now := s.now + Rest(s, id));
    RestEnds(s, id);
    SameRecord(s, s1, id);
    var round;
    round, t := RoundRuns(cfg, s1, id, kind);
    actions := [Tick(Rest(s, id))] + round;
    FirstAction(cfg, s, Tick(Rest(s, id)), s1, round, t);
  }

  /** The document can meet the same fault again: those who cannot save do not use up retries, and
      the others do not need any. */
  lemma StaysExposed(cfg: Config, s: State, id: int64, kind: FaultKind, t: State)
    requires Exposed(cfg, s, id, kind) && RoundEnd(cfg, s, id, kind, t)
    requires kind.Unapplicable? ==> Recorded(t, id) < cfg.retriesMax
    ensures Exposed(cfg, t, id, kind)
  {
    hide JustFailed;
    if kind.Unsavable? {
      SameRecord(s, t, id);
    }
  }

  /** Any number of rounds. */
  lemma {:induction false} ManyRounds(cfg: Config, s: State, id: int64, kind: FaultKind, n: nat) returns (actions: seq<Action>, t: State)
    requires Exposed(cfg, s, id, kind) && (kind.Unapplicable? ==> Recorded(s, id) + n < cfg.retriesMax)
    ensures Runs(cfg, s, actions, t) && Exposed(cfg, t, id, kind) && t.server == s.server
    ensures Recorded(t, id) == Recorded(s, id) + (if kind.Unsavable? then 0 else n)
    ensures n > 0 && !kind.Unsavable? ==> JustFailed(cfg, t, id)
    ensures t.TallyOf(id).passes == s.TallyOf(id).passes + n
    ensures t.TallyOf(id).faults == s.TallyOf(id).faults + (if kind.Unapplicable? then 0 else n)
  {
    hide Runs, Recorded, JustFailed, CanMeet;
    if n == 0 {
      actions, t := [], s;
      NoActions(cfg, s);
    } else {
      var before, u := ManyRounds(cfg, s, id, kind, n - 1);
      var last;
      last, t := NextRound(cfg, u, id, kind);
      StaysExposed(cfg, u, id, kind, t);
      if kind.Unsavable? {
        SameRecord(u, t, id);
      }
      actions := before + last;
      RunsAppend(cfg, s, before, u, last, t);
    }
  }
}
