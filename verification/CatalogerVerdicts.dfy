/** What an attempt that nobody disturbs makes of its findings: it applies the facts, it records a
    failure and leaves the document for a retry, or it marks the document as failed. */
module CatalogerVerdicts {
  import opened Common
  import opened Documents
  import opened Errors
  import opened TaskKey
  import opened History
  import opened Tasks
  import opened Patches
  import opened Updater
  import opened Cataloger
  import opened CatalogerAlone
  import opened CatalogerRuns
  import opened CatalogerOutcomes

  /** The attempt was saved, with its result, behind those on record. */
  predicate OnRecord(s: State, t: State, job: Job, err: Option<Error>) {
    && job.key in t.store && t.store == s.store[job.key := t.store[job.key]]
    && var rec := t.store[job.key];
       && rec.attempts == job.rec.attempts + [Attempt(s.now, s.now, err.None?, if err.None? then "" else Text(err.value))]
       && rec.retryCount == job.rec.retryCount + if err.None? then 0 else 1
  }

  /** An attempt that nobody disturbs, by what its update returns. */
  lemma AttemptRuns(cfg: Config, s: State, h: nat, f: Findings, replies: Stage -> Reply, modified: Instant)
    returns (moves: seq<Move>, t: State)
    requires CanLoad(s, h)
    ensures var sd, job := s.server[s.handlers[h].Id()], LoadedJob(s, h);
            var last := job.rec.retryCount >= cfg.retriesMax;
            var (log, err) := Outcome(cfg.settings, sd.doc, last, Start(cfg.settings, sd.doc, sd.metadata, last, f), replies);
            && Moves(cfg, s, h, moves, t) && OnRecord(s, t, job, err)
            && t.server == s.server[sd.doc.id := AfterRequests(sd, log, modified)]
            && (err.Some? ==> t.store[job.key].retryAfter == s.now + cfg.delay(job.rec.retryCount))
  {
    hide Moves, Gate, DocumentKey, Start, Outcome, ReplyMoves, AfterRequests, LocalTo;
    var delayOf: int -> Duration := c => if c >= 1 then cfg.delay(c - 1) else 0;
    var sd, job := s.server[s.handlers[h].Id()], LoadedJob(s, h);
    var next, last := FirstStep(cfg, sd.doc, job, f), LastRetry(cfg, job);
    t := UndisturbedAttempt(cfg, s, h, f, replies, modified, delayOf);
    moves := LOADING + ([Extract(f)] + ReplyMoves(cfg.settings, sd.doc, last, next, replies, modified));
    var err := Outcome(cfg.settings, sd.doc, last, next, replies).1;
    assert t.store == s.store[job.key := Saved(job.rec, s.now, s.now, err, cfg.delay(job.rec.retryCount))];
  }

  /** Facts that an update applies reach the document, if check and patch succeed, and the attempt
      is on record as a success. */
  lemma FactsAreApplied(cfg: Config, s: State, h: nat, f: Findings, facts: Facts, replies: Stage -> Reply, modified: Instant)
    returns (moves: seq<Move>, t: State)
    requires CanLoad(s, h) && cfg.settings.todo in s.handlers[h].listed.doc.tags && replies(ApplyFacts) == Reply(None, None)
    requires Applies(cfg.settings, s.server[s.handlers[h].Id()].metadata, f, facts)
    ensures var sd, job := s.server[s.handlers[h].Id()], LoadedJob(s, h);
            && Moves(cfg, s, h, moves, t) && OnRecord(s, t, job, None)
            && sd.doc.id in t.server && t.server[sd.doc.id].past == sd.past + [sd.doc]
            && var after := t.server[sd.doc.id].doc;
               && after.modified == modified
               && IsTarget(sd.doc, after.(modified := sd.doc.modified), facts, f.res, {cfg.settings.todo, cfg.settings.failed})
               && FactsApplied(cfg, sd.doc, job.(findings := Some(f)), after.(modified := sd.doc.modified))
  {
    hide Moves, Gate, DocumentKey, Start, Outcome, Applies, IsTarget, Apply, FoundFacts;
    var sd, job := s.server[s.handlers[h].Id()], LoadedJob(s, h);
    var last := job.rec.retryCount >= cfg.retriesMax;
    moves, t := AttemptRuns(cfg, s, h, f, replies, modified);
    FactsReachDocument(cfg.settings, sd.doc, sd.metadata, last, f, facts, replies);
    var p :| Outcome(cfg.settings, sd.doc, last, Start(cfg.settings, sd.doc, sd.metadata, last, f), replies)
             == ([Checked(true), Patched(ApplyFacts, p, true)], None)
             && IsTarget(sd.doc, Apply(sd.doc, p), facts, f.res, {cfg.settings.todo, cfg.settings.failed});
    ApplyKeepsIdentity(sd.doc, p);
    assert Applies(cfg.settings, sd.metadata, f, facts);
    FactsToApply(cfg.settings, sd.metadata, f, facts);
  }

  lemma FactsToApply(s: Settings, metadata: Metadata, f: Findings, facts: Facts)
    requires Applies(s, metadata, f, facts)
    ensures FoundFacts(metadata, f).Ok? && FactsIn(FoundFacts(metadata, f).value) == facts
  {
    hide FoundFacts, ToApply, Resolvable;
    FoundFactsMeaning(metadata, f);
  }

  /** An error of applying the facts that a retry may help against leaves the document as it is and
      a failure on record, as long as retries are left. */
  lemma FailureIsRetried(cfg: Config, s: State, h: nat, f: Findings, replies: Stage -> Reply, modified: Instant)
    returns (moves: seq<Move>, t: State)
    requires CanLoad(s, h) && LoadedJob(s, h).rec.retryCount < cfg.retriesMax
    requires FailsForNow(cfg.settings, s.handlers[h].listed.doc, LoadedJob(s, h).metadata, f)
    ensures var job := LoadedJob(s, h);
            && Moves(cfg, s, h, moves, t) && t.server == s.server
            && OnRecord(s, t, job, Some(Prepared(cfg.settings, s.handlers[h].listed.doc, job.metadata, f).error))
            && t.store[job.key].retryAfter == s.now + cfg.delay(job.rec.retryCount)
  {
    hide Moves, Gate, DocumentKey, Start, Outcome, Prepared, Temporary;
    var sd, job := s.server[s.handlers[h].Id()], LoadedJob(s, h);
    moves, t := AttemptRuns(cfg, s, h, f, replies, modified);
    StartDecision(cfg.settings, sd.doc, sd.metadata, false, f);
    ReturnedOutcome(cfg.settings, sd.doc, false, Start(cfg.settings, sd.doc, sd.metadata, false, f), replies);
    assert s.server[sd.doc.id := sd] == s.server;
  }

  /** Any other error of applying the facts, or any on the last retry, marks the document as failed,
      if check and patch succeed. */
  lemma FailureIsMarked(cfg: Config, s: State, h: nat, f: Findings, replies: Stage -> Reply, modified: Instant)
    returns (moves: seq<Move>, t: State)
    requires CanLoad(s, h) && cfg.settings.todo in s.handlers[h].listed.doc.tags && cfg.settings.todo != cfg.settings.failed
    requires replies(MarkFailed) == Reply(None, None)
    requires forall facts :: !Applies(cfg.settings, LoadedJob(s, h).metadata, f, facts)
    requires LoadedJob(s, h).rec.retryCount >= cfg.retriesMax
             || !FailsForNow(cfg.settings, s.handlers[h].listed.doc, LoadedJob(s, h).metadata, f)
    ensures var sd, job := s.server[s.handlers[h].Id()], LoadedJob(s, h);
            && Moves(cfg, s, h, moves, t) && OnRecord(s, t, job, None)
            && sd.doc.id in t.server && t.server[sd.doc.id].past == sd.past + [sd.doc]
            && MarkedFailed(cfg, sd.doc, t.server[sd.doc.id].doc)
  {
    hide Moves, Gate, DocumentKey, Start, Outcome, Prepared, Temporary, Applies, FailedPatch, Apply;
    var sd, job := s.server[s.handlers[h].Id()], LoadedJob(s, h);
    var last, mark := job.rec.retryCount >= cfg.retriesMax, FailedPatch(cfg.settings, sd.doc);
    moves, t := AttemptRuns(cfg, s, h, f, replies, modified);
    StartDecision(cfg.settings, sd.doc, sd.metadata, last, f);
    FailedPatchMeaning(cfg.settings, sd.doc);
    assert Start(cfg.settings, sd.doc, sd.metadata, last, f) == Send(MarkFailed, mark);
    SentOutcome(cfg.settings, sd.doc, last, MarkFailed, mark, replies);
    MarkApplied(cfg, sd.doc, modified);
  }

  lemma SentOutcome(s: Settings, doc: Document, lastRetry: bool, stage: Stage, p: Patch, replies: Stage -> Reply)
    requires replies(stage) == Reply(None, None)
    ensures Outcome(s, doc, lastRetry, Send(stage, p), replies) == ([Checked(true), Patched(stage, p, true)], None)
  {
  }

  lemma MarkApplied(cfg: Config, doc: Document, modified: Instant)
    ensures MarkedFailed(cfg, doc, Apply(doc, FailedPatch(cfg.settings, doc)).(modified := modified))
  {
    hide FailedPatch;
    FailedPatchMeaning(cfg.settings, doc);
  }
}
