/** The cataloger at work: walks over the tagged documents, handlers in a worker pool, the
    record store and its pruner, and anybody else who writes to the server. One action is one
    step of one of them, and the actions interleave freely. */
module Cataloger {
  import opened Common
  import opened Utf8
  import opened Documents
  import opened Errors
  import opened TaskKey
  import opened Store
  import opened History
  import opened Tasks
  import opened Patches
  import opened Updater

  /** What stays fixed during a run; `delay` gives the backoff after a number of failures. */
  datatype Config = Config(settings: Settings, retriesMax: int, delay: nat -> Duration, workers: nat)

  const DAY: Duration := 24 * HOUR

  /** A document on the server: its earlier versions, the present one and the file metadata. */
  datatype ServerDoc = ServerDoc(past: seq<Document>, doc: Document, metadata: Metadata) {
    /** Versions are numbered from the oldest; the present one has the number |past|. */
    function Version(i: nat): Document
      requires i <= |past|
    {
      if i < |past| then past[i] else doc
    }

    /** No version so far was modified at the given time. */
    predicate Unused(modified: Instant) {
      forall i | 0 <= i <= |past| :: Version(i).modified != modified
    }

    function Write(next: Document, metadata: Metadata): ServerDoc {
      ServerDoc(past + [doc], next, metadata)
    }

    function Key(): Bytes {
      DocumentKey(doc, metadata)
    }
  }

  /** A document as a listing delivered it, with the number of the version that was read. */
  datatype Listed = Listed(doc: Document, number: nat)

  /** An attempt that passed the gate. `clean` says that nothing but this attempt touched the
      document's version and its record, and that no request or write of it failed. */
  datatype Job = Job(metadata: Metadata, begin: Instant, key: Bytes, rec: DocumentTask,
                     findings: Option<Findings>, clean: bool)

  /** Where an attempt is. */
  datatype Point =
    | Extracting
    | Checking(stage: Stage, patch: Patch)
    | CheckingMetadata(stage: Stage, patch: Patch, current: Document, number: nat)
    | Patching(stage: Stage, patch: Patch, number: nat)
    | Saving(err: Option<Error>, patched: bool)

  /** Where a handler is. */
  datatype Pc =
    | Queued
    | HasMetadata(metadata: Metadata)
    | Begun(metadata: Metadata, begin: Instant)
    | Busy(job: Job, at: Point)
  {
    predicate Clean() {
      Busy? && job.clean
    }

    /** The handler has not had a patch accepted. */
    predicate Unpatched() {
      !(Busy? && at.Saving? && at.patched)
    }
  }

  datatype Handler = Handler(listed: Listed, pc: Pc) {
    function Id(): int64 {
      listed.doc.id
    }
  }

  /** Of the attempts at the present version of a document with its record kept: how many passed
      the gate, how many failed without a fault, and how many met a fault. */
  datatype Tally = Tally(passes: nat, spent: nat, faults: nat) {
    function Pass(clean: bool): Tally {
      this.(passes := passes + 1, faults := if clean then faults else faults + 1)
    }

    function Spend(): Tally {
      this.(spent := spent + 1)
    }

    function Fault(): Tally {
      this.(faults := faults + 1)
    }
  }

  /** The attempt whose patch the server accepted last, and what the patch was for. */
  datatype Settlement = Settlement(stage: Stage, job: Job)

  datatype Walk = Idle | Listing(found: bool) | Draining

  datatype State = State(
    now: Instant,
    server: map<int64, ServerDoc>,
    store: Records,
    cutoff: Option<Instant>,
    walk: Walk,
    seen: set<int64>,
    page: seq<Listed>,
    handlers: map<nat, Handler>,
    nextHandler: nat,
    // What follows only records the past.
    due: map<Bytes, Instant>,
    maxDelay: Duration,
    tally: map<int64, Tally>,
    settledBy: map<int64, Settlement>)
  {
    function SettlementOf(id: int64): Option<Settlement> {
      if id in settledBy then Some(settledBy[id]) else None
    }

    function TallyOf(id: int64): Tally {
      if id in tally then tally[id] else Tally(0, 0, 0)
    }

    function WithPc(h: nat, pc: Pc): (t: State)
      requires h in handlers
      ensures LocalTo(this, t, h)
    {
      this.(handlers := handlers[h := handlers[h].(pc := pc)])
    }

    function Without(h: nat): (t: State)
      ensures LocalTo(this, t, h)
    {
      this.(handlers := handlers - {h})
    }

    /** Counts a fault against the attempt, once. */
    function Blame(id: int64, job: Job): (t: State)
      ensures t == this.(tally := t.tally)
    {
      if job.clean then this.(tally := tally[id := TallyOf(id).Fault()]) else this
    }
  }

  /** A step of a handler. */
  datatype Move =
    | FetchMetadata
    | AbandonLoad
    | ReadClock
    | PassGate
    | UpdaterFails(e: Error)
    | Extract(findings: Findings)
    | ReadDocument
    | ReadMetadata
    | CheckFails(e: Error)
    | SendPatch(modified: Instant)
    | PatchFails(e: Error, applied: Option<Instant>)
    | Save
    | SaveFails

  /** The steps of a handler that only read. */
  predicate Reads(m: Move) {
    m.FetchMetadata? || m.ReadClock? || m.ReadDocument?
  }

  /** The steps at which a handler gives up. */
  predicate GivesUp(m: Move) {
    m.AbandonLoad? || m.UpdaterFails? || m.SaveFails?
  }

  datatype Action =
    | Tick(dt: nat)
    // anybody else
    | ForeignWrite(id: int64, doc: Document, metadata: Metadata)
    // the walk
    | StartWalk
    | FetchPage(ids: seq<int64>)
    | Deliver
    | EndPass
    | ListingFails
    | EndWalk
    // a handler
    | HandlerStep(h: nat, move: Move)
    // the pruner
    | StartPrune
    | FinishPrune

  /** When a handler can make a step. A patch that the server applied although the request failed
      gives the document a modification time it never had. */
  predicate CanMove(s: State, h: nat, m: Move) {
    && h in s.handlers && s.handlers[h].Id() in s.server
    && var pc := s.handlers[h].pc;
       match m
       case FetchMetadata => pc.Queued?
       case AbandonLoad => pc.Queued? || pc.Begun?
       case ReadClock => pc.HasMetadata?
       case PassGate => pc.Begun?
       case UpdaterFails(_) => pc.Busy? && pc.at.Extracting?
       case Extract(_) => pc.Busy? && pc.at.Extracting?
       case ReadDocument => pc.Busy? && pc.at.Checking?
       case ReadMetadata => pc.Busy? && pc.at.CheckingMetadata?
       case CheckFails(_) => pc.Busy? && (pc.at.Checking? || pc.at.CheckingMetadata?)
       case SendPatch(_) => pc.Busy? && pc.at.Patching?
       case PatchFails(_, applied) =>
         pc.Busy? && pc.at.Patching? && (applied.Some? ==> s.server[s.handlers[h].Id()].Unused(applied.value))
       case Save => pc.Busy? && pc.at.Saving?
       case SaveFails => pc.Busy? && pc.at.Saving?
  }

  /** When an action can happen. A foreign write gives the document a modification time it never
      had; a listing delivers documents with the todo tag. */
  predicate Enabled(cfg: Config, s: State, a: Action) {
    match a
    case Tick(_) => true
    case ForeignWrite(id, doc, _) => doc.id == id && (id in s.server ==> s.server[id].Unused(doc.modified))
    case StartWalk => s.walk.Idle?
    case FetchPage(ids) =>
      s.walk.Listing? && s.page == []
      && forall i | 0 <= i < |ids| :: ids[i] in s.server && cfg.settings.todo in s.server[ids[i]].doc.tags
    case Deliver => s.page != [] && (s.page[0].doc.id in s.seen || |s.handlers| < cfg.workers)
    case EndPass => s.walk.Listing? && s.page == []
    case ListingFails => s.walk.Listing?
    case EndWalk => s.walk.Draining? && s.handlers.Keys == {}
    case HandlerStep(h, m) => CanMove(s, h, m)
    case StartPrune => s.cutoff.None?
    case FinishPrune => s.cutoff.Some?
  }

  /** An action of a handler, of the server or of the pruner: no handler appears, and those that
      stay keep their document. */
  predicate KeepsHandlers(s: State, t: State) {
    && t.handlers.Keys <= s.handlers.Keys
    && (forall h | h in t.handlers :: t.handlers[h].listed == s.handlers[h].listed)
    && t.nextHandler == s.nextHandler && t.seen == s.seen && t.walk == s.walk && t.page == s.page
  }

  /** Only one handler changes, and only inside. */
  ghost predicate LocalTo(s: State, t: State, h: nat) {
    && KeepsHandlers(s, t)
    && (forall g | g in s.handlers && g != h :: g in t.handlers && t.handlers[g] == s.handlers[g])
  }

  /** Clock, records and what is remembered of them are as before. */
  ghost predicate SameRecords(s: State, t: State) {
    t.now == s.now && t.store == s.store && t.cutoff == s.cutoff && t.due == s.due && t.maxDelay == s.maxDelay
  }

  /** The handler is still at the same attempt, or at none. */
  ghost predicate SameAttempt(p: Pc, q: Pc) {
    || q == p
    || q.Queued? || q.HasMetadata?
    || (p.Busy? && q.Busy? && q.job == p.job.(findings := q.job.findings, clean := q.job.clean))
  }

  function LastRetry(cfg: Config, job: Job): bool {
    job.rec.retryCount >= cfg.retriesMax
  }

  function Proceed(job: Job, next: Next): Pc {
    match next
    case Send(stage, p) => Busy(job, Checking(stage, p))
    case Return(err) => Busy(job, Saving(err, false))
  }

  /** A handler whose attempt is no longer alone with its document or record. */
  function Tainted(x: Handler): Handler {
    if x.pc.Busy? then x.(pc := Busy(x.pc.job.(clean := false), x.pc.at)) else x
  }

  function DoForeignWrite(s: State, id: int64, doc: Document, metadata: Metadata): (t: State)
    ensures KeepsHandlers(s, t) && SameRecords(s, t)
  {
    s.(server := s.server[id := if id in s.server then s.server[id].Write(doc, metadata) else ServerDoc([], doc, metadata)],
       tally := s.tally - {id},
       settledBy := s.settledBy - {id},
       handlers := map h | h in s.handlers :: if s.handlers[h].Id() == id then Tainted(s.handlers[h]) else s.handlers[h])
  }

  function DoFetchPage(s: State, ids: seq<int64>): (t: State)
    requires forall i | 0 <= i < |ids| :: ids[i] in s.server
    ensures t == s.(page := t.page) && |t.page| == |ids|
    ensures forall i | 0 <= i < |ids| :: t.page[i] == Listed(s.server[ids[i]].doc, |s.server[ids[i]].past|)
  {
    s.(page := seq(|ids|, i requires 0 <= i < |ids| && ids[i] in s.server =>
                            Listed(s.server[ids[i]].doc, |s.server[ids[i]].past|)))
  }

  function DoDeliver(s: State): State
    requires s.page != []
  {
    var l := s.page[0];
    var s1 := s.(page := s.page[1..]);
    // A document that was handed out before is skipped.
    if l.doc.id in s.seen then s1
    else
      s1.(seen := s.seen + {l.doc.id},
          walk := Listing(true),
          handlers := s.handlers[s.nextHandler := Handler(l, Queued)],
          nextHandler := s.nextHandler + 1)
  }

  function DoPassGate(s: State, h: nat): (t: State)
    requires CanMove(s, h, PassGate)
    ensures LocalTo(s, t, h) && SameRecords(s, t) && t.server == s.server
  {
    var x := s.handlers[h];
    var metadata, begin := x.pc.metadata, x.pc.begin;
    var gate := Gate(s.store, x.listed.doc, metadata, begin);
    if gate.None? then s.Without(h)
    else
      var key := DocumentKey(x.listed.doc, metadata);
      var counted := key == s.server[x.Id()].Key();
      var clean := counted && x.listed.number == |s.server[x.Id()].past|;
      var s1 := s.WithPc(h, Busy(Job(metadata, begin, key, gate.value, None, clean), Extracting));
      if counted then s1.(tally := s.tally[x.Id() := s.TallyOf(x.Id()).Pass(clean)]) else s1
  }

  ghost function DoExtract(cfg: Config, s: State, h: nat, f: Findings): (t: State)
    requires h in s.handlers && s.handlers[h].pc.Busy?
    ensures LocalTo(s, t, h) && SameRecords(s, t) && t == s.(handlers := t.handlers)
    ensures h in t.handlers && SameAttempt(s.handlers[h].pc, t.handlers[h].pc)
  {
    var x := s.handlers[h];
    var job := x.pc.job.(findings := Some(f));
    s.WithPc(h, Proceed(job, Start(cfg.settings, x.listed.doc, job.metadata, LastRetry(cfg, job), f)))
  }

  /** The conflict check or the patch request of a stage failed. */
  ghost function DoSendError(cfg: Config, s: State, h: nat, stage: Stage, e: Error): (t: State)
    requires h in s.handlers && s.handlers[h].pc.Busy?
    ensures LocalTo(s, t, h) && SameRecords(s, t) && t.server == s.server
    ensures h in t.handlers && SameAttempt(s.handlers[h].pc, t.handlers[h].pc)
  {
    var x := s.handlers[h];
    var job := x.pc.job.(clean := false);
    var next := OnSendError(cfg.settings, x.listed.doc, LastRetry(cfg, job), stage, e);
    s.Blame(x.Id(), x.pc.job).WithPc(h, Proceed(job, next))
  }

  ghost function DoReadMetadata(cfg: Config, s: State, h: nat): (t: State)
    requires CanMove(s, h, ReadMetadata)
    ensures LocalTo(s, t, h) && SameRecords(s, t) && t.server == s.server
    ensures h in t.handlers && SameAttempt(s.handlers[h].pc, t.handlers[h].pc)
  {
    var x := s.handlers[h];
    var job, at := x.pc.job, x.pc.at;
    var err := CompareSnapshots(NewSnapshot(x.listed.doc, job.metadata), Ok(at.current), Ok(s.server[x.Id()].metadata));
    if err.Some? then DoSendError(cfg, s, h, at.stage, err.value)
    else s.WithPc(h, Busy(job, Patching(at.stage, at.patch, at.number)))
  }

  /** The server applies the patch to whatever version it has by now. */
  function ApplyPatch(s: State, id: int64, p: Patch, modified: Instant): (t: State)
    requires id in s.server
    ensures t == s.(server := t.server)
  {
    var sd := s.server[id];
    s.(server := s.server[id := sd.Write(Apply(sd.doc, p).(modified := modified), sd.metadata)])
  }

  function DoSendPatch(s: State, h: nat, modified: Instant): (t: State)
    requires CanMove(s, h, SendPatch(modified))
    ensures LocalTo(s, t, h) && SameRecords(s, t)
    ensures h in t.handlers && SameAttempt(s.handlers[h].pc, t.handlers[h].pc)
  {
    var x := s.handlers[h];
    ApplyPatch(s, x.Id(), x.pc.at.patch, modified)
      .(settledBy := s.settledBy[x.Id() := Settlement(x.pc.at.stage, x.pc.job)])
      .WithPc(h, Busy(x.pc.job, Saving(None, true)))
  }

  /** A patch request that failed may have been carried out all the same. */
  function AfterFailedPatch(s: State, h: nat, applied: Option<Instant>): (t: State)
    requires h in s.handlers && s.handlers[h].pc.Busy? && s.handlers[h].pc.at.Patching? && s.handlers[h].Id() in s.server
    ensures t == s.(server := t.server)
  {
    var x := s.handlers[h];
    if applied.Some? then ApplyPatch(s, x.Id(), x.pc.at.patch, applied.value) else s
  }

  function DoSave(cfg: Config, s: State, h: nat): (t: State)
    requires CanMove(s, h, Save)
    ensures LocalTo(s, t, h) && h !in t.handlers && t.server == s.server && t.now == s.now && t.cutoff == s.cutoff
  {
    var x := s.handlers[h];
    var job, err := x.pc.job, x.pc.at.err;
    var delay := cfg.delay(job.rec.retryCount);
    var s1 := s.Without(h).(store := s.store[job.key := Saved(job.rec, job.begin, s.now, err, delay)]);
    if err.None? then s1
    else
      s1.(due := s.due[job.key := s.now + delay],
          maxDelay := if delay > s.maxDelay then delay else s.maxDelay,
          tally := if job.clean then s.tally[x.Id() := s.TallyOf(x.Id()).Spend()] else s.tally)
  }

  ghost function DoMove(cfg: Config, s: State, h: nat, m: Move): (t: State)
    requires CanMove(s, h, m)
    ensures KeepsHandlers(s, t)
  {
    var x := s.handlers[h];
    match m
    case FetchMetadata => s.WithPc(h, HasMetadata(s.server[x.Id()].metadata))
    case AbandonLoad => s.Without(h)
    case ReadClock => s.WithPc(h, Begun(x.pc.metadata, s.now))
    case PassGate => DoPassGate(s, h)
    case UpdaterFails(e) => s.Blame(x.Id(), x.pc.job).WithPc(h, Busy(x.pc.job.(clean := false), Saving(Some(e), false)))
    case Extract(f) => DoExtract(cfg, s, h, f)
    case ReadDocument =>
      var sd := s.server[x.Id()];
      s.WithPc(h, Busy(x.pc.job, CheckingMetadata(x.pc.at.stage, x.pc.at.patch, sd.doc, |sd.past|)))
    case ReadMetadata => DoReadMetadata(cfg, s, h)
    case CheckFails(e) => DoSendError(cfg, s, h, x.pc.at.stage, e)
    case SendPatch(modified) => DoSendPatch(s, h, modified)
    case PatchFails(e, applied) => DoSendError(cfg, AfterFailedPatch(s, h, applied), h, x.pc.at.stage, e)
    case Save => DoSave(cfg, s, h)
    case SaveFails => s.Blame(x.Id(), x.pc.job).Without(h)
  }

  function DoFinishPrune(s: State): (t: State)
    requires s.cutoff.Some?
    ensures KeepsHandlers(s, t) && t.server == s.server && t.now == s.now
  {
    var deleted := Expired(s.store, s.cutoff.value);
    s.(store := Pruned(s.store, s.cutoff.value),
       cutoff := None,
       tally := map id | id in s.tally && (id in s.server ==> s.server[id].Key() !in deleted) :: s.tally[id],
       handlers := map h | h in s.handlers ::
         if s.handlers[h].pc.Busy? && s.handlers[h].pc.job.key in deleted then Tainted(s.handlers[h]) else s.handlers[h])
  }

  ghost function Do(cfg: Config, s: State, a: Action): State
    requires Enabled(cfg, s, a)
  {
    match a
    case Tick(dt) => s.(now := s.now + dt)
    case ForeignWrite(id, doc, metadata) => DoForeignWrite(s, id, doc, metadata)
    case StartWalk => s.(walk := Listing(false), seen := {}, page := [])
    case FetchPage(ids) => DoFetchPage(s, ids)
    case Deliver => DoDeliver(s)
    case EndPass => s.(walk := if s.walk.found then Listing(false) else Draining)
    case ListingFails => s.(walk := Draining, page := [])
    case EndWalk => s.(walk := Idle)
    case HandlerStep(h, m) => DoMove(cfg, s, h, m)
    case StartPrune => s.(cutoff := Some(s.now - DAY))
    case FinishPrune => DoFinishPrune(s)
  }

  /** Before anything runs: any documents, and a store left behind by earlier runs. */
  ghost predicate Init(cfg: Config, s: State) {
    && ZERO_TIME <= s.now
    && s.walk.Idle? && s.page == [] && s.handlers == map[] && s.cutoff.None? && s.tally == map[] && s.settledBy == map[]
    && (forall id | id in s.server :: s.server[id].doc.id == id)
    && (forall k | k in s.store :: Consistent(s.store[k], cfg.delay) && KeyOf(s.store[k]) == k && s.store[k].recordUpdated <= s.now
                                   && s.store[k].retryAfter <= s.store[k].recordUpdated + s.maxDelay)
    && (forall k | k in s.due :: k in s.store && s.store[k].retryAfter == s.due[k])
  }

  /** The state after a sequence of actions, if each of them can happen when it is its turn. */
  ghost predicate Runs(cfg: Config, s0: State, actions: seq<Action>, s: State)
    decreases |actions|
  {
    if actions == [] then s == s0
    else Enabled(cfg, s0, actions[0]) && Runs(cfg, Do(cfg, s0, actions[0]), actions[1..], s)
  }

  ghost predicate Reachable(cfg: Config, s: State) {
    exists s0, actions :: Init(cfg, s0) && Runs(cfg, s0, actions, s)
  }
}
