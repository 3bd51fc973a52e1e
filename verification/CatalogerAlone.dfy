/** A handler that nobody disturbs does what the sequential program does. */
module CatalogerAlone {
  import opened Common
  import opened Documents
  import opened Errors
  import opened History
  import opened Tasks
  import opened Patches
  import opened Updater
  import opened Cataloger

  /** The state after some moves of one handler in a row. */
  ghost predicate Moves(cfg: Config, s: State, h: nat, moves: seq<Move>, t: State)
    decreases |moves|
  {
    if moves == [] then t == s
    else CanMove(s, h, moves[0]) && Moves(cfg, DoMove(cfg, s, h, moves[0]), h, moves[1..], t)
  }

  /** A row of moves is a run of the machine. */
  lemma {:induction false} MovesRun(cfg: Config, s: State, h: nat, moves: seq<Move>, t: State) returns (actions: seq<Action>)
    requires Moves(cfg, s, h, moves, t)
    ensures Runs(cfg, s, actions, t) && |actions| == |moves|
    decreases |moves|
  {
    hide CanMove, DoMove;
    if moves == [] {
      actions := [];
    } else {
      var rest := MovesRun(cfg, DoMove(cfg, s, h, moves[0]), h, moves[1..], t);
      actions := [HandlerStep(h, moves[0])] + rest;
      assert actions[1..] == rest;
    }
  }

  lemma FirstMove(cfg: Config, s: State, h: nat, m: Move, rest: seq<Move>, next: State, t: State)
    requires CanMove(s, h, m) && DoMove(cfg, s, h, m) == next && Moves(cfg, next, h, rest, t)
    ensures Moves(cfg, s, h, [m] + rest, t)
  {
    hide CanMove, DoMove;
    assert ([m] + rest)[1..] == rest;
  }

  lemma PcTwice(s: State, h: nat, p: Pc, q: Pc)
    requires h in s.handlers
    ensures s.WithPc(h, p).WithPc(h, q) == s.WithPc(h, q)
    ensures s.WithPc(h, p).Without(h) == s.Without(h)
  {
  }

  /** The handler is at its document's present version. */
  predicate LooksAtPresent(s: State, h: nat) {
    && h in s.handlers && s.handlers[h].Id() in s.server
    && s.handlers[h].listed == Listed(s.server[s.handlers[h].Id()].doc, |s.server[s.handlers[h].Id()].past|)
  }

  const LOADING: seq<Move> := [FetchMetadata, ReadClock, PassGate]

  predicate CanLoad(s: State, h: nat) {
    && LooksAtPresent(s, h) && s.handlers[h].pc.Queued?
    && var sd := s.server[s.handlers[h].Id()]; Gate(s.store, sd.doc, sd.metadata, s.now).Some?
  }

  /** The attempt that starts when a handler loads the present version of its document. */
  function LoadedJob(s: State, h: nat): Job
    requires CanLoad(s, h)
  {
    var sd := s.server[s.handlers[h].Id()];
    Job(sd.metadata, s.now, sd.Key(), Gate(s.store, sd.doc, sd.metadata, s.now).value, None, true)
  }

  function Loaded(s: State, h: nat): (t: State)
    requires CanLoad(s, h)
    ensures t == s.(tally := t.tally).WithPc(h, Busy(LoadedJob(s, h), Extracting))
    ensures var id := s.handlers[h].Id(); t.tally == s.tally[id := s.TallyOf(id).Pass(true)]
  {
    var begun := Begun(s.server[s.handlers[h].Id()].metadata, s.now);
    var t := DoPassGate(s.WithPc(h, begun), h);
    PcTwice(s.(tally := t.tally), h, begun, Busy(LoadedJob(s, h), Extracting));
    t
  }

  /** Loading the task takes three moves. */
  lemma Loading(cfg: Config, s: State, h: nat, rest: seq<Move>, t: State)
    requires CanLoad(s, h) && Moves(cfg, Loaded(s, h), h, rest, t)
    ensures Moves(cfg, s, h, LOADING + rest, t)
  {
    hide Gate, DocumentKey, Moves;
    var metadata := s.server[s.handlers[h].Id()].metadata;
    var s1 := s.WithPc(h, HasMetadata(metadata));
    var s2 := s.WithPc(h, Begun(metadata, s.now));
    PcTwice(s, h, HasMetadata(metadata), Begun(metadata, s.now));
    FirstMove(cfg, s2, h, PassGate, rest, Loaded(s, h), t);
    FirstMove(cfg, s1, h, ReadClock, [PassGate] + rest, s2, t);
    FirstMove(cfg, s, h, FetchMetadata, [ReadClock] + ([PassGate] + rest), s1, t);
    assert [FetchMetadata] + ([ReadClock] + ([PassGate] + rest)) == LOADING + rest;
  }

  predicate CanCheck(s: State, h: nat) {
    && LooksAtPresent(s, h) && s.handlers[h].pc.Busy? && s.handlers[h].pc.at.Checking?
    && s.handlers[h].pc.job.metadata == s.server[s.handlers[h].Id()].metadata
  }

  /** The state after a handler checked and patched the present version. */
  function PatchSent(s: State, h: nat, modified: Instant): State
    requires CanCheck(s, h)
  {
    var x := s.handlers[h];
    ApplyPatch(s, x.Id(), x.pc.at.patch, modified)
      .(settledBy := s.settledBy[x.Id() := Settlement(x.pc.at.stage, x.pc.job)])
      .WithPc(h, Busy(x.pc.job, Saving(None, true)))
  }

  /** Where a handler stands when the check of the present version has passed. */
  function Passed(s: State, h: nat): Pc
    requires CanCheck(s, h)
  {
    var x := s.handlers[h];
    Busy(x.pc.job, Patching(x.pc.at.stage, x.pc.at.patch, |s.server[x.Id()].past|))
  }

  /** Both requests of the check, which passes. */
  lemma Checking(cfg: Config, s: State, h: nat, rest: seq<Move>, t: State)
    requires CanCheck(s, h) && Moves(cfg, s.WithPc(h, Passed(s, h)), h, rest, t)
    ensures Moves(cfg, s, h, [ReadDocument, ReadMetadata] + rest, t)
  {
    hide Moves;
    var x := s.handlers[h];
    var sd := s.server[x.Id()];
    var reading := Busy(x.pc.job, CheckingMetadata(x.pc.at.stage, x.pc.at.patch, sd.doc, |sd.past|));
    var s1, s2 := s.WithPc(h, reading), s.WithPc(h, Passed(s, h));
    PcTwice(s, h, reading, Passed(s, h));
    FirstMove(cfg, s1, h, ReadMetadata, rest, s2, t);
    FirstMove(cfg, s, h, ReadDocument, [ReadMetadata] + rest, s1, t);
    assert [ReadDocument] + ([ReadMetadata] + rest) == [ReadDocument, ReadMetadata] + rest;
  }

  lemma Sending(cfg: Config, s: State, h: nat, modified: Instant, rest: seq<Move>, t: State)
    requires CanCheck(s, h) && Moves(cfg, PatchSent(s, h, modified), h, rest, t)
    ensures Moves(cfg, s.WithPc(h, Passed(s, h)), h, [SendPatch(modified)] + rest, t)
  {
    hide Moves, Apply;
    var x := s.handlers[h];
    PcTwice(s.(server := PatchSent(s, h, modified).server, settledBy := PatchSent(s, h, modified).settledBy), h,
            Passed(s, h), Busy(x.pc.job, Saving(None, true)));
    FirstMove(cfg, s.WithPc(h, Passed(s, h)), h, SendPatch(modified), rest, PatchSent(s, h, modified), t);
  }

  /** The check or the patch request of the handler failed, and the server did not carry it out. */
  ghost function Answered(cfg: Config, s: State, h: nat, e: Error): State
    requires CanCheck(s, h)
  {
    DoSendError(cfg, s, h, s.handlers[h].pc.at.stage, e)
  }

  lemma CheckFailing(cfg: Config, s: State, h: nat, e: Error, rest: seq<Move>, t: State)
    requires CanCheck(s, h) && Moves(cfg, Answered(cfg, s, h, e), h, rest, t)
    ensures Moves(cfg, s, h, [CheckFails(e)] + rest, t)
  {
    hide Moves, OnSendError;
    FirstMove(cfg, s, h, CheckFails(e), rest, Answered(cfg, s, h, e), t);
  }

  lemma PatchFailing(cfg: Config, s: State, h: nat, e: Error, rest: seq<Move>, t: State)
    requires CanCheck(s, h) && Moves(cfg, Answered(cfg, s, h, e), h, rest, t)
    ensures Moves(cfg, s.WithPc(h, Passed(s, h)), h, [PatchFails(e, None)] + rest, t)
  {
    hide Moves, OnSendError;
    var x := s.handlers[h];
    PcTwice(s.Blame(x.Id(), x.pc.job), h, Passed(s, h), Answered(cfg, s, h, e).handlers[h].pc);
    FirstMove(cfg, s.WithPc(h, Passed(s, h)), h, PatchFails(e, None), rest, Answered(cfg, s, h, e), t);
  }

  lemma SavingEnds(cfg: Config, s: State, h: nat)
    requires CanMove(s, h, Save)
    ensures Moves(cfg, s, h, [Save], DoSave(cfg, s, h))
  {
    hide CanMove, DoSave;
    assert [Save][1..] == [];
    assert Moves(cfg, DoSave(cfg, s, h), h, [], DoSave(cfg, s, h));
  }

  /** Saving from a state that has the same records as `s`. */
  lemma SavingFrom(cfg: Config, s: State, u: State, h: nat)
    requires CanMove(u, h, Save) && SameRecords(s, u)
    ensures var job, err, t := u.handlers[h].pc.job, u.handlers[h].pc.at.err, DoSave(cfg, u, h);
            && LocalTo(u, t, h) && h !in t.handlers && t.server == u.server && t.now == s.now && t.cutoff == s.cutoff
            && t.store == s.store[job.key := Saved(job.rec, job.begin, s.now, err, cfg.delay(job.rec.retryCount))]
            && t.due == (if err.Some? then s.due[job.key := s.now + cfg.delay(job.rec.retryCount)] else s.due)
            && t.TallyOf(u.handlers[h].Id()) ==
               (if err.Some? && job.clean then u.TallyOf(u.handlers[h].Id()).Spend() else u.TallyOf(u.handlers[h].Id()))
            && Moves(cfg, u, h, [Save], t)
  {
    hide Saved, Moves;
    SavingEnds(cfg, u, h);
  }

  // ---------------------------------------------------------------- a whole update

  /** The moves from one point of an update to its end, depending on the replies. */
  ghost function ReplyMoves(settings: Settings, doc: Document, lastRetry: bool, next: Next, replies: Stage -> Reply, modified: Instant)
    : seq<Move>
    decreases if next.Return? then 0 else if next.stage.MarkFailed? then 1 else 2
  {
    match next
    case Return(_) => [Save]
    case Send(stage, _) =>
      var reply := replies(stage);
      if reply.check.Some? then
        [CheckFails(reply.check.value)]
        + ReplyMoves(settings, doc, lastRetry, OnSendError(settings, doc, lastRetry, stage, reply.check.value), replies, modified)
      else if reply.patch.Some? then
        [ReadDocument, ReadMetadata]
        + ([PatchFails(reply.patch.value, None)]
           + ReplyMoves(settings, doc, lastRetry, OnSendError(settings, doc, lastRetry, stage, reply.patch.value), replies, modified))
      else
        [ReadDocument, ReadMetadata] + ([SendPatch(modified)] + [Save])
  }

  /** The document after the requests of an update: only a patch that succeeded changes it. */
  function AfterRequests(sd: ServerDoc, log: seq<Event>, modified: Instant): ServerDoc {
    if log != [] && log[|log| - 1].Patched? && log[|log| - 1].ok
    then sd.Write(Apply(sd.doc, log[|log| - 1].patch).(modified := modified), sd.metadata)
    else sd
  }

  lemma FailedRequestsFirst(sd: ServerDoc, head: seq<Event>, log: seq<Event>, modified: Instant)
    requires head != [] && !(head[|head| - 1].Patched? && head[|head| - 1].ok)
    ensures AfterRequests(sd, head + log, modified) == AfterRequests(sd, log, modified)
  {
    if log == [] {
      assert head + log == head;
    }
  }

  /** Some request of the update failed. */
  predicate Faulty(log: seq<Event>) {
    exists i | 0 <= i < |log| :: log[i] == Checked(false) || (log[i].Patched? && !log[i].ok)
  }

  /** The count after an attempt: a clean one counts a fault, or spends a retry, or is done. */
  function AfterAttempt(n: Tally, clean: bool, log: seq<Event>, err: Option<Error>): Tally {
    if !clean then n
    else if Faulty(log) then n.Fault()
    else if err.Some? then n.Spend()
    else n
  }

  /** What an update that nobody disturbs leaves behind: its saved record, its document after the
      requests and its count; nothing else changes. */
  ghost predicate Updated(cfg: Config, s: State, h: nat, job: Job, next: Next, replies: Stage -> Reply, modified: Instant, t: State)
    requires LooksAtPresent(s, h)
  {
    var id := s.handlers[h].Id();
    var sd := s.server[id];
    var (log, err) := Outcome(cfg.settings, sd.doc, LastRetry(cfg, job), next, replies);
    && LocalTo(s, t, h) && h !in t.handlers && t.now == s.now && t.cutoff == s.cutoff
    && t.store == s.store[job.key := Saved(job.rec, job.begin, s.now, err, cfg.delay(job.rec.retryCount))]
    && t.due == (if err.Some? then s.due[job.key := s.now + cfg.delay(job.rec.retryCount)] else s.due)
    && t.server == s.server[id := AfterRequests(sd, log, modified)]
    && t.TallyOf(id) == AfterAttempt(s.TallyOf(id), job.clean, log, err)
  }

  /** The handler is at a point of its update, with the present version and metadata. */
  ghost predicate AtPoint(s: State, h: nat, next: Next) {
    && LooksAtPresent(s, h) && s.handlers[h].pc.Busy? && s.handlers[h].pc == Proceed(s.handlers[h].pc.job, next)
    && s.handlers[h].pc.job.metadata == s.server[s.handlers[h].Id()].metadata
  }

  lemma LocalTwice(s: State, u: State, t: State, h: nat)
    requires LocalTo(s, u, h) && LocalTo(u, t, h)
    ensures LocalTo(s, t, h)
  {
  }

  /** The log of an update whose first patch is accepted. */
  lemma AcceptedLog(cfg: Config, sd: ServerDoc, job: Job, next: Next, replies: Stage -> Reply, modified: Instant, n: Tally)
    requires next.Send? && replies(next.stage) == Reply(None, None)
    ensures var (log, err) := Outcome(cfg.settings, sd.doc, LastRetry(cfg, job), next, replies);
            && err.None? && AfterAttempt(n, job.clean, log, err) == n
            && AfterRequests(sd, log, modified) == sd.Write(Apply(sd.doc, next.patch).(modified := modified), sd.metadata)
  {
    hide Apply;
  }

  lemma ReturningEnds(cfg: Config, s: State, h: nat, next: Next, replies: Stage -> Reply, modified: Instant) returns (t: State)
    requires AtPoint(s, h, next) && next.Return?
    ensures Moves(cfg, s, h, [Save], t) && Updated(cfg, s, h, s.handlers[h].pc.job, next, replies, modified, t)
  {
    hide Moves, Saved, Apply, DoSave;
    t := DoSave(cfg, s, h);
    SavingFrom(cfg, s, s, h);
    var id := s.handlers[h].Id();
    assert s.server[id := s.server[id]] == s.server;
  }

  lemma PatchSentIsLocal(s: State, h: nat, modified: Instant)
    requires CanCheck(s, h)
    ensures LocalTo(s, PatchSent(s, h, modified), h) && SameRecords(s, PatchSent(s, h, modified))
  {
  }

  lemma SendingEnds(cfg: Config, s: State, h: nat, next: Next, replies: Stage -> Reply, modified: Instant) returns (t: State)
    requires AtPoint(s, h, next) && next.Send? && replies(next.stage) == Reply(None, None)
    ensures Moves(cfg, s, h, [ReadDocument, ReadMetadata] + ([SendPatch(modified)] + [Save]), t)
    ensures Updated(cfg, s, h, s.handlers[h].pc.job, next, replies, modified, t)
  {
    hide Moves, Saved, Apply, DoSave, Outcome, AfterAttempt, AfterRequests, LocalTo;
    AcceptedLog(cfg, s.server[s.handlers[h].Id()], s.handlers[h].pc.job, next, replies, modified, s.TallyOf(s.handlers[h].Id()));
    t := DoSave(cfg, PatchSent(s, h, modified), h);
    PatchSentIsLocal(s, h, modified);
    SavingFrom(cfg, s, PatchSent(s, h, modified), h);
    LocalTwice(s, PatchSent(s, h, modified), t, h);
    Sending(cfg, s, h, modified, [Save], t);
    Checking(cfg, s, h, [SendPatch(modified)] + [Save], t);
  }

  /** After a failed request the update goes on at the next point, as the same attempt. */
  lemma AnsweredAtPoint(cfg: Config, s: State, h: nat, next: Next, e: Error)
    requires AtPoint(s, h, next) && next.Send?
    ensures var x, u := s.handlers[h], Answered(cfg, s, h, e);
            var after := OnSendError(cfg.settings, x.listed.doc, LastRetry(cfg, x.pc.job), next.stage, e);
            && AtPoint(u, h, after) && SameRecords(s, u) && u.server == s.server && u.handlers[h].listed == x.listed
            && u.handlers[h].pc.job == x.pc.job.(clean := false) && LocalTo(s, u, h)
            && u.TallyOf(x.Id()) == if x.pc.job.clean then s.TallyOf(x.Id()).Fault() else s.TallyOf(x.Id())
  {
    hide OnSendError;
  }

  lemma FaultyAppend(head: seq<Event>, log: seq<Event>)
    requires Faulty(head)
    ensures Faulty(head + log)
  {
    var i :| 0 <= i < |head| && (head[i] == Checked(false) || (head[i].Patched? && !head[i].ok));
    assert (head + log)[i] == head[i];
  }

  lemma FaultyHeads(stage: Stage, p: Patch)
    ensures Faulty([Checked(false)]) && Faulty([Checked(true), Patched(stage, p, false)])
  {
    assert [Checked(false)][0] == Checked(false);
    assert [Checked(true), Patched(stage, p, false)][1].Patched?;
  }

  lemma UpdatedLater(cfg: Config, s: State, u: State, h: nat, job: Job, next: Next, head: seq<Event>, after: Next,
                     replies: Stage -> Reply, modified: Instant, t: State)
    requires LooksAtPresent(s, h) && LooksAtPresent(u, h) && u.server == s.server && SameRecords(s, u)
    requires u.handlers[h].listed == s.handlers[h].listed
    requires Updated(cfg, u, h, job.(clean := false), after, replies, modified, t)
    requires var settings, doc, last := cfg.settings, s.handlers[h].listed.doc, LastRetry(cfg, job);
             var rest := Outcome(settings, doc, last, after, replies);
             Outcome(settings, doc, last, next, replies) == (head + rest.0, rest.1)
    requires head != [] && !(head[|head| - 1].Patched? && head[|head| - 1].ok) && Faulty(head)
    requires LocalTo(s, u, h) && h in s.handlers && h in u.handlers
    requires var id := s.handlers[h].Id();
             u.TallyOf(id) == if job.clean then s.TallyOf(id).Fault() else s.TallyOf(id)
    ensures Updated(cfg, s, h, job, next, replies, modified, t)
  {
    hide Saved, Apply, Outcome, AfterRequests, Faulty;
    FaultyAppend(head, Outcome(cfg.settings, s.handlers[h].listed.doc, LastRetry(cfg, job), after, replies).0);
    var id := s.handlers[h].Id();
    FailedRequestsFirst(s.server[id], head,
                        Outcome(cfg.settings, s.server[id].doc, LastRetry(cfg, job), after, replies).0, modified);
  }

  /** From every point of an update, for all replies: the handler's moves can run to the end, and
      they leave behind what the update of the sequential program does. */
  lemma {:induction false} Updating(cfg: Config, s: State, h: nat, next: Next, replies: Stage -> Reply, modified: Instant)
    returns (t: State)
    requires AtPoint(s, h, next)
    ensures var x := s.handlers[h];
            && Moves(cfg, s, h, ReplyMoves(cfg.settings, x.listed.doc, LastRetry(cfg, x.pc.job), next, replies, modified), t)
            && Updated(cfg, s, h, x.pc.job, next, replies, modified, t)
    decreases if next.Return? then 0 else if next.stage.MarkFailed? then 1 else 2
  {
    hide Moves, Updated, OnSendError, Answered, Faulty, LocalTo;
    var x := s.handlers[h];
    if next.Return? {
      t := ReturningEnds(cfg, s, h, next, replies, modified);
    } else {
      var reply, doc, last := replies(next.stage), x.listed.doc, LastRetry(cfg, x.pc.job);
      assert CanCheck(s, h) && doc == s.server[x.Id()].doc && x.pc.at.stage == next.stage && x.pc.at.patch == next.patch by {
        PointIsCheck(s, h, next);
      }
      if reply.check.None? && reply.patch.None? {
        t := SendingEnds(cfg, s, h, next, replies, modified);
      } else {
        var e := if reply.check.Some? then reply.check.value else reply.patch.value;
        var u, after := Answered(cfg, s, h, e), OnSendError(cfg.settings, doc, last, next.stage, e);
        AnsweredAtPoint(cfg, s, h, next, e);
        FaultyHeads(next.stage, next.patch);
        NextIsLess(cfg.settings, doc, last, next.stage, e);
        t := Updating(cfg, u, h, after, replies, modified);
        var rest := ReplyMoves(cfg.settings, doc, last, after, replies, modified);
        if reply.check.Some? {
          CheckFailing(cfg, s, h, e, rest, t);
          UpdatedLater(cfg, s, u, h, x.pc.job, next, [Checked(false)], after, replies, modified, t);
        } else {
          PatchFailing(cfg, s, h, e, rest, t);
          Checking(cfg, s, h, [PatchFails(e, None)] + rest, t);
          UpdatedLater(cfg, s, u, h, x.pc.job, next, [Checked(true), Patched(next.stage, next.patch, false)], after,
                       replies, modified, t);
        }
      }
    }
  }

  lemma PointIsCheck(s: State, h: nat, next: Next)
    requires AtPoint(s, h, next) && next.Send?
    ensures CanCheck(s, h) && s.handlers[h].listed.doc == s.server[s.handlers[h].Id()].doc
    ensures s.handlers[h].pc.at.stage == next.stage && s.handlers[h].pc.at.patch == next.patch
  {
  }

  lemma NextIsLess(settings: Settings, doc: Document, lastRetry: bool, stage: Stage, e: Error)
    ensures var after := OnSendError(settings, doc, lastRetry, stage, e);
            after.Send? ==> after.stage.MarkFailed? && stage.ApplyFacts?
  {
  }

  /** What an update does first. */
  ghost function FirstStep(cfg: Config, doc: Document, job: Job, f: Findings): Next {
    Start(cfg.settings, doc, job.metadata, LastRetry(cfg, job), f)
  }

  lemma ExtractedAtPoint(cfg: Config, s: State, h: nat, f: Findings)
    requires CanLoad(s, h)
    ensures var sd, job, u := s.server[s.handlers[h].Id()], LoadedJob(s, h), DoExtract(cfg, Loaded(s, h), h, f);
            && CanMove(Loaded(s, h), h, Extract(f)) && DoMove(cfg, Loaded(s, h), h, Extract(f)) == u
            && AtPoint(u, h, FirstStep(cfg, sd.doc, job, f)) && SameRecords(s, u) && u.server == s.server
            && u.handlers[h].listed == s.handlers[h].listed && u.handlers[h].pc.job == job.(findings := Some(f))
            && LocalTo(s, u, h) && u.TallyOf(sd.doc.id) == s.TallyOf(sd.doc.id).Pass(true)
  {
    hide Gate, DocumentKey, Start, Loaded;
  }

  /** An attempt that nobody disturbs can run to its end, whatever the extraction finds and the
      requests answer. Then the store is as the sequential processDocument leaves it for what the
      update returns, and the document as the requests of the update leave it. */
  lemma UndisturbedAttempt(cfg: Config, s: State, h: nat, f: Findings, replies: Stage -> Reply, modified: Instant,
                           calcRetryDelay: int -> Duration)
    returns (t: State)
    requires CanLoad(s, h) && forall n: nat :: cfg.delay(n) == calcRetryDelay(1 + n)
    ensures var sd, job := s.server[s.handlers[h].Id()], LoadedJob(s, h);
            var next, last := FirstStep(cfg, sd.doc, job, f), LastRetry(cfg, job);
            var (log, err) := Outcome(cfg.settings, sd.doc, last, next, replies);
            && Moves(cfg, s, h, LOADING + ([Extract(f)] + ReplyMoves(cfg.settings, sd.doc, last, next, replies, modified)), t)
            && t.store == Processed(s.store, sd.doc, sd.metadata, s.now, s.now, err, calcRetryDelay)
            && t.server == s.server[sd.doc.id := AfterRequests(sd, log, modified)]
            && LocalTo(s, t, h) && h !in t.handlers && t.now == s.now && t.cutoff == s.cutoff
            && t.due == (if err.Some? then s.due[job.key := s.now + cfg.delay(job.rec.retryCount)] else s.due)
            && t.TallyOf(sd.doc.id) == AfterAttempt(s.TallyOf(sd.doc.id).Pass(true), true, log, err)
  {
    hide Gate, DocumentKey, Start, Moves, Saved, Apply, ReplyMoves, Outcome, AfterRequests, AfterAttempt, Loaded, DoExtract,
         DoMove, CanMove, AtPoint, LocalTo;
    var sd, job := s.server[s.handlers[h].Id()], LoadedJob(s, h);
    var next, u := FirstStep(cfg, sd.doc, job, f), DoExtract(cfg, Loaded(s, h), h, f);
    ExtractedAtPoint(cfg, s, h, f);
    t := Updating(cfg, u, h, next, replies, modified);
    LocalTwice(s, u, t, h);
    var rest := ReplyMoves(cfg.settings, sd.doc, LastRetry(cfg, job), next, replies, modified);
    FirstMove(cfg, Loaded(s, h), h, Extract(f), rest, u, t);
    Loading(cfg, s, h, [Extract(f)] + rest, t);
  }
}
