/** One update of a document: facts or failure, the conflict check and the patch. */
module Updater {
  import opened Common
  import opened Documents
  import opened Errors
  import opened Extraction
  import opened Patches
  import opened PatchBuilder

  /** The resolved tags and the size limit of an updater. */
  datatype Settings = Settings(todo: int64, failed: int64, fileSizeMax: int64)

  /** Resolves the two tags in either order. */
  method NewUpdater(todo: Result<int64, Error>, failed: Result<int64, Error>, fileSizeMax: int64, todoFirst: bool)
    returns (r: Result<Settings, Error>)
    ensures r.Ok? <==> todo.Ok? && failed.Ok?
    ensures r.Ok? ==> r.value == Settings(todo.value, failed.value, fileSizeMax)
    ensures r.Err? ==> (todo.Err? && r.error == todo.error) || (failed.Err? && r.error == failed.error)
  {
    var todoTag, failedTag: int64 := 0, 0;
    for i := 0 to 2
      invariant i > 0 && todoFirst ==> todo.Ok? && todoTag == todo.value
      invariant i > 0 && !todoFirst ==> failed.Ok? && failedTag == failed.value
      invariant i > 1 ==> todo.Ok? && todoTag == todo.value && failed.Ok? && failedTag == failed.value
    {
      if (i == 0) == todoFirst {
        if todo.Err? {
          return Err(todo.error);
        }
        todoTag := todo.value;
      } else {
        if failed.Err? {
          return Err(failed.error);
        }
        failedTag := failed.value;
      }
    }
    return Ok(Settings(todoTag, failedTag, fileSizeMax));
  }

  predicate TooBig(metadata: Metadata, fileSizeMax: int64) {
    metadata.originalSize > fileSizeMax || (metadata.hasArchiveVersion && metadata.archiveSize > fileSizeMax)
  }

  /** What the outside world answers while facts are extracted and resolved. */
  datatype Findings = Findings(archived: VariantRun, original: VariantRun, res: Resolutions)

  function FoundFacts(metadata: Metadata, f: Findings): Result<Option<Facts>, Error> {
    FirstFacts(Variants(f.archived, f.original, metadata.hasArchiveVersion), None)
  }

  const NO_FACTS: Facts := Facts(None, None, None, None, None, None, [], [])

  function FactsIn(found: Option<Facts>): Facts {
    if found.None? || found.value.IsEmpty() then NO_FACTS else found.value
  }

  /** The patch that applying facts arrives at, or the error on the way. */
  ghost function Prepared(s: Settings, doc: Document, metadata: Metadata, f: Findings): Result<Patch, Error> {
    if TooBig(metadata, s.fileSizeMax) then Err(Wrapped("size", TooLarge))
    else
      match FoundFacts(metadata, f)
      case Err(e) => Err(e)
      case Ok(found) =>
        FactsPatch(doc, FactsIn(found), f.res, {s.todo, s.failed})
  }

  ghost function FailedPatch(s: Settings, doc: Document): Patch {
    Build(doc, SetTag(UnsetTag(NewBuilder(doc), s.todo), s.failed))
  }

  // ---------------------------------------------------------------- the protocol in steps

  /** A patch is sent for the facts, or to mark the document as failed. */
  datatype Stage = ApplyFacts | MarkFailed

  /** What an update does next: check and send a patch, or return. */
  datatype Next = Send(stage: Stage, patch: Patch) | Return(err: Option<Error>)

  function Submit(stage: Stage, p: Patch): Next {
    if p.IsEmpty() then Return(None) else Send(stage, p)
  }

  /** After an error while applying facts. */
  ghost function OnApplyError(s: Settings, doc: Document, lastRetry: bool, e: Error): Next {
    if lastRetry || IsPermanent(e) then Submit(MarkFailed, FailedPatch(s, doc)) else Return(Some(e))
  }

  ghost function Start(s: Settings, doc: Document, metadata: Metadata, lastRetry: bool, f: Findings): Next {
    match Prepared(s, doc, metadata, f)
    case Err(e) => OnApplyError(s, doc, lastRetry, e)
    case Ok(p) => Submit(ApplyFacts, p)
  }

  /** After a failed conflict check or a failed patch request. */
  ghost function OnSendError(s: Settings, doc: Document, lastRetry: bool, stage: Stage, e: Error): Next {
    match stage
    case ApplyFacts => OnApplyError(s, doc, lastRetry, e)
    case MarkFailed => Return(Some(e))
  }

  // ---------------------------------------------------------------- a whole update

  /** How the conflict check and the patch request of a stage come out. */
  datatype Reply = Reply(check: Option<Error>, patch: Option<Error>)

  datatype Event = Checked(ok: bool) | Patched(stage: Stage, patch: Patch, ok: bool)

  /** The requests of an update from some point on, and what it returns. */
  ghost function Outcome(s: Settings, doc: Document, lastRetry: bool, next: Next, replies: Stage -> Reply): (seq<Event>, Option<Error>)
    decreases if next.Return? then 0 else if next.stage.MarkFailed? then 1 else 2
  {
    match next
    case Return(err) => ([], err)
    case Send(stage, p) =>
      var reply := replies(stage);
      if reply.check.Some? then
        var rest := Outcome(s, doc, lastRetry, OnSendError(s, doc, lastRetry, stage, reply.check.value), replies);
        ([Checked(false)] + rest.0, rest.1)
      else if reply.patch.Some? then
        var rest := Outcome(s, doc, lastRetry, OnSendError(s, doc, lastRetry, stage, reply.patch.value), replies);
        ([Checked(true), Patched(stage, p, false)] + rest.0, rest.1)
      else
        ([Checked(true), Patched(stage, p, true)], None)
  }

  /** The requests one submitted patch leads to. */
  function Sent(stage: Stage, p: Patch, reply: Reply): seq<Event> {
    if p.IsEmpty() then []
    else if reply.check.Some? then [Checked(false)]
    else [Checked(true), Patched(stage, p, reply.patch.None?)]
  }

  /** The error of a submitted patch. */
  function Answer(p: Patch, reply: Reply): Option<Error> {
    if p.IsEmpty() then None else if reply.check.Some? then reply.check else reply.patch
  }

  lemma SubmittedOutcome(s: Settings, doc: Document, lastRetry: bool, stage: Stage, p: Patch, replies: Stage -> Reply)
    ensures var err := Answer(p, replies(stage));
            Outcome(s, doc, lastRetry, Submit(stage, p), replies) ==
            if err.None? then (Sent(stage, p, replies(stage)), None)
            else
              var rest := Outcome(s, doc, lastRetry, OnSendError(s, doc, lastRetry, stage, err.value), replies);
              (Sent(stage, p, replies(stage)) + rest.0, rest.1)
  {
  }

  /** Marking a document as failed is the last thing an update does. */
  lemma MarkedOutcome(s: Settings, doc: Document, lastRetry: bool, p: Patch, replies: Stage -> Reply)
    ensures Outcome(s, doc, lastRetry, Submit(MarkFailed, p), replies) ==
            (Sent(MarkFailed, p, replies(MarkFailed)), Answer(p, replies(MarkFailed)))
  {
    SubmittedOutcome(s, doc, lastRetry, MarkFailed, p, replies);
    var sent := Sent(MarkFailed, p, replies(MarkFailed));
    assert sent + [] == sent;
  }

  class Updater {
    const settings: Settings
    const doc: Document
    const metadata: Metadata
    const correspondent: IdVar?
    const documentType: IdVar?
    const storagePath: IdVar?
    /** The requests made so far. */
    var log: seq<Event>

    ghost predicate Valid() {
      Load(correspondent) == doc.correspondent && Load(documentType) == doc.documentType && Load(storagePath) == doc.storagePath
    }

    constructor (settings: Settings, doc: Document, metadata: Metadata)
      ensures Valid() && log == []
      ensures this.settings == settings && this.doc == doc && this.metadata == metadata
    {
      this.settings, this.doc, this.metadata, log := settings, doc, metadata, [];
      var c: IdVar?, d: IdVar?, s: IdVar? := null, null, null;
      if doc.correspondent.Some? {
        c := new IdVar(doc.correspondent.value);
      }
      if doc.documentType.Some? {
        d := new IdVar(doc.documentType.value);
      }
      if doc.storagePath.Some? {
        s := new IdVar(doc.storagePath.value);
      }
      correspondent, documentType, storagePath := c, d, s;
    }

    method CheckSize() returns (err: Option<Error>)
      ensures err.None? <==> SmallEnough(settings, metadata)
      ensures err == if TooBig(metadata, settings.fileSizeMax) then Some(Wrapped("size", TooLarge)) else None
    {
      var tooLarge := metadata.originalSize > settings.fileSizeMax;
      if metadata.hasArchiveVersion && metadata.archiveSize > settings.fileSizeMax {
        tooLarge := true;
      }
      err := if tooLarge then Some(Wrapped("size", TooLarge)) else None;
    }

    method PatchDocument(stage: Stage, p: Patch, reply: Reply) returns (err: Option<Error>)
      modifies this`log
      ensures log == old(log) + Sent(stage, p, reply)
      ensures err == Answer(p, reply)
    {
      if p.IsEmpty() {
        return None;
      }
      log := log + [Checked(reply.check.None?)];
      if reply.check.Some? {
        return reply.check;
      }
      log := log + [Patched(stage, p, reply.patch.None?)];
      return reply.patch;
    }

    method DoApplyFacts(f: Findings, reply: Reply) returns (err: Option<Error>)
      requires Valid()
      modifies this`log
      ensures match Prepared(settings, doc, metadata, f)
              case Err(e) => err == Some(e) && log == old(log)
              case Ok(p) =>
                && log == old(log) + Sent(ApplyFacts, p, reply)
                && err == Answer(p, reply)
      ensures |old(log)| <= |log| && Applied(settings, doc, metadata, f, reply, log[|old(log)|..], err)
    {
      hide FailedPatch, Applied, Requested, Sent, Answer, SmallEnough, FirstFacts;
      AppliedParts(settings, doc, metadata, f, reply);
      assert log == log + [];
      err := CheckSize();
      if err.Some? {
        return;
      }
      var pb := new PatchBuilder(doc, correspondent, documentType, storagePath);
      var facts;
      facts, err := Extraction.ExtractFacts(Variants(f.archived, f.original, metadata.hasArchiveVersion));
      if err.Some? {
        return;
      }
      if !(facts.None? || facts.value.IsEmpty()) {
        err := pb.SetFacts(facts.value, f.res);
        if err.Some? {
          return;
        }
      }
      pb.UnsetTag(settings.todo);
      pb.UnsetTag(settings.failed);
      var p := pb.Build();
      RemovedTwice(pb.View(), doc, FactsIn(facts), f.res, settings);
      err := PatchDocument(ApplyFacts, p, reply);
    }

    method DoMarkFailed(updateErr: Error, reply: Reply) returns (err: Option<Error>)
      requires Valid()
      modifies this`log
      ensures var p := FailedPatch(settings, doc);
              && log == old(log) + Sent(MarkFailed, p, reply)
              && err == Answer(p, reply)
    {
      var pb := new PatchBuilder(doc, correspondent, documentType, storagePath);
      pb.UnsetTag(settings.todo);
      pb.SetTag(settings.failed);
      var p := pb.Build();
      err := PatchDocument(MarkFailed, p, reply);
    }

    method Do(lastRetry: bool, f: Findings, replies: Stage -> Reply) returns (err: Option<Error>)
      requires Valid() && log == []
      modifies this`log
      ensures (log, err) == Outcome(settings, doc, lastRetry, Start(settings, doc, metadata, lastRetry, f), replies)
      ensures Followed(settings, doc, metadata, lastRetry, f, replies, log, err)
    {
      hide Followed;
      OutcomeFollows(settings, doc, metadata, lastRetry, f, replies);
      ghost var prepared := Prepared(settings, doc, metadata, f);
      err := DoApplyFacts(f, replies(ApplyFacts));
      if prepared.Ok? {
        SubmittedOutcome(settings, doc, lastRetry, ApplyFacts, prepared.value, replies);
      }
      MarkedOutcome(settings, doc, lastRetry, FailedPatch(settings, doc), replies);
      ghost var sent := log;
      assert sent == if prepared.Ok? then Sent(ApplyFacts, prepared.value, replies(ApplyFacts)) else [];
      assert sent + [] == sent;
      if err.Some? {
        if lastRetry || IsPermanent(err.value) {
          err := DoMarkFailed(err.value, replies(MarkFailed));
          assert log == sent + Sent(MarkFailed, FailedPatch(settings, doc), replies(MarkFailed));
          assert prepared.Err? ==> log == Sent(MarkFailed, FailedPatch(settings, doc), replies(MarkFailed));
        }
      }
    }
  }

  lemma RemovedTwice(b: Builder, doc: Document, facts: Facts, res: Resolutions, s: Settings)
    requires var r := SetFacts(NewBuilder(doc), facts, res);
             r.1.None? && b == UnsetTag(UnsetTag(r.0, s.todo), s.failed)
    ensures FactsPatch(doc, facts, res, {s.todo, s.failed}) == Ok(Build(doc, b))
  {
    var r := SetFacts(NewBuilder(doc), facts, res).0;
    assert r.tags - {s.todo, s.failed} == b.tags;
  }

  // ---------------------------------------------------------------- failure isolation

  /** The patch for a failed document touches nothing but the tags: failed is set, and todo is
      gone unless the two tags are one. */
  lemma FailedPatchMeaning(s: Settings, doc: Document)
    ensures var p := FailedPatch(s, doc);
            && p == Patch(None, None, None, None, None, p.tags)
            && Elements(Apply(doc, p).tags) == (Elements(doc.tags) - {s.todo}) + {s.failed}
            && (p.IsEmpty() <==> Elements(doc.tags) == (Elements(doc.tags) - {s.todo}) + {s.failed})
            && (s.todo in doc.tags && s.todo != s.failed ==> p.tags.Some?)
  {
    BuiltTags(doc, SetTag(UnsetTag(NewBuilder(doc), s.todo), s.failed));
    assert s.todo in doc.tags ==> s.todo in Elements(doc.tags);
  }

  /** A patch for the facts always removes the todo and failed tags. */
  lemma PreparedMeaning(s: Settings, doc: Document, metadata: Metadata, f: Findings, p: Patch)
    requires Prepared(s, doc, metadata, f) == Ok(p)
    ensures !TooBig(metadata, s.fileSizeMax) && FoundFacts(metadata, f).Ok?
    ensures var facts := FactsIn(FoundFacts(metadata, f).value);
            Resolvable(facts, f.res) && IsTarget(doc, Apply(doc, p), facts, f.res, {s.todo, s.failed})
    ensures s.todo !in Apply(doc, p).tags && s.failed !in Apply(doc, p).tags
    ensures s.todo in doc.tags ==> p.tags.Some?
  {
    PatchMeaning(doc, FactsIn(FoundFacts(metadata, f).value), f.res, {s.todo, s.failed});
    assert s.todo !in Elements(Apply(doc, p).tags) && s.failed !in Elements(Apply(doc, p).tags);
    assert s.todo in doc.tags ==> s.todo in Elements(doc.tags);
  }

  // ---------------------------------------------------------------- which facts are applied

  /** The facts to apply: those of the archived file if it finds any, else those of the original;
      none if neither finds any and neither fails. */
  predicate ToApply(metadata: Metadata, f: Findings, facts: Facts) {
    if metadata.hasArchiveVersion && FindsAny(f.archived) then Finds(f.archived, facts)
    else if FindsAny(f.original) then Finds(f.original, facts)
    else !Fails(f.original) && (metadata.hasArchiveVersion ==> !Fails(f.archived)) && facts == NO_FACTS
  }

  predicate SmallEnough(s: Settings, metadata: Metadata) {
    metadata.originalSize <= s.fileSizeMax && (metadata.hasArchiveVersion ==> metadata.archiveSize <= s.fileSizeMax)
  }

  /** An update applies the facts: the files are not too large and all names resolve. */
  predicate Applies(s: Settings, metadata: Metadata, f: Findings, facts: Facts) {
    SmallEnough(s, metadata) && ToApply(metadata, f, facts) && Resolvable(facts, f.res)
  }

  lemma FoundFactsMeaning(metadata: Metadata, f: Findings)
    ensures var found := FoundFacts(metadata, f);
            && (forall facts :: ToApply(metadata, f, facts) <==> found.Ok? && facts == FactsIn(found.value))
            && (found.Err? ==> Leaves(found.error) == (if metadata.hasArchiveVersion then RunLeaves(f.archived) else []) + RunLeaves(f.original))
  {
    hide VariantFacts, FirstFacts, RunLeaves, Leaves, Fails, FindsAny, Finds;
    ArchivedFirst(f.archived, f.original, metadata.hasArchiveVersion);
    VariantFactsMeaning(f.archived);
    VariantFactsMeaning(f.original);
    YieldsIff(f.archived);
    YieldsIff(f.original);
  }

  /** There is a patch for the facts exactly when an update applies some; it leads to the target of
      these facts. */
  lemma PreparedIff(s: Settings, doc: Document, metadata: Metadata, f: Findings)
    ensures var r := Prepared(s, doc, metadata, f);
            && (r.Ok? <==> exists facts :: Applies(s, metadata, f, facts))
            && (forall facts | Applies(s, metadata, f, facts) :: IsTarget(doc, Apply(doc, r.value), facts, f.res, {s.todo, s.failed}))
  {
    hide FoundFacts, FactsPatch, IsTarget, Resolvable, ToApply;
    FoundFactsMeaning(metadata, f);
    if FoundFacts(metadata, f).Ok? {
      var facts := FactsIn(FoundFacts(metadata, f).value);
      PatchMeaning(doc, facts, f.res, {s.todo, s.failed});
      assert Prepared(s, doc, metadata, f).Ok? ==> Applies(s, metadata, f, facts);
    }
  }

  /** Otherwise the error is the size error, or that of the first name that does not resolve, or
      those of the extraction. */
  lemma PreparedError(s: Settings, doc: Document, metadata: Metadata, f: Findings)
    ensures var r := Prepared(s, doc, metadata, f);
            if !SmallEnough(s, metadata) then r.Err? && Leaves(r.error) == [TooLarge]
            else
              && (forall facts | ToApply(metadata, f, facts) && !Resolvable(facts, f.res) ::
                    r.Err? && Leaves(r.error) == Leaves(LookupErrors(facts, f.res)[0]))
              && ((forall facts :: !ToApply(metadata, f, facts)) ==>
                    r.Err? && Leaves(r.error) == (if metadata.hasArchiveVersion then RunLeaves(f.archived) else []) + RunLeaves(f.original))
  {
    hide FoundFacts, FactsPatch, Resolvable, ToApply, RunLeaves, LookupErrors;
    FoundFactsMeaning(metadata, f);
    if FoundFacts(metadata, f).Ok? {
      var facts := FactsIn(FoundFacts(metadata, f).value);
      assert ToApply(metadata, f, facts);
      PatchMeaning(doc, facts, f.res, {s.todo, s.failed});
    }
  }

  // ---------------------------------------------------------------- what follows an error

  /** What an update does when applying the facts failed: a temporary error is returned while
      retries are left; otherwise the document is marked as failed, unless it is already. */
  ghost predicate Decided(s: Settings, doc: Document, lastRetry: bool, e: Error, next: Next) {
    var mark := FailedPatch(s, doc);
    if !lastRetry && Temporary(e) then next == Return(Some(e))
    else if mark.IsEmpty() then next == Return(None)
    else next == Send(MarkFailed, mark)
  }

  /** After a failed conflict check or patch request. An error of marking a failure is final. */
  lemma SendErrorDecision(s: Settings, doc: Document, lastRetry: bool, e: Error)
    ensures Decided(s, doc, lastRetry, e, OnSendError(s, doc, lastRetry, ApplyFacts, e))
    ensures OnSendError(s, doc, lastRetry, MarkFailed, e) == Return(Some(e))
  {
    PermanentIff(e);
  }

  /** An update begins with the patch for the facts it applies, or with what follows the error. */
  lemma StartDecision(s: Settings, doc: Document, metadata: Metadata, lastRetry: bool, f: Findings)
    ensures var next, r := Start(s, doc, metadata, lastRetry, f), Prepared(s, doc, metadata, f);
            && (r.Ok? <==> exists facts :: Applies(s, metadata, f, facts))
            && (r.Ok? ==> next == if r.value.IsEmpty() then Return(None) else Send(ApplyFacts, r.value))
            && (r.Err? ==> Decided(s, doc, lastRetry, r.error, next))
  {
    hide Prepared, Applies, FailedPatch;
    PreparedIff(s, doc, metadata, f);
    if Prepared(s, doc, metadata, f).Err? {
      SendErrorDecision(s, doc, lastRetry, Prepared(s, doc, metadata, f).error);
    }
  }

  /** A download that is not found marks a tagged document as failed at the first attempt; one that
      fails with another status is tried again while retries are left. */
  lemma NotFoundMarks(s: Settings, doc: Document, metadata: Metadata, lastRetry: bool, f: Findings, status: int)
    requires SmallEnough(s, metadata) && !metadata.hasArchiveVersion && s.todo in doc.tags && s.todo != s.failed
    requires f.original == NoFile(Request(status), None)
    ensures var next := Start(s, doc, metadata, lastRetry, f);
            if status == 404 || lastRetry then next == Send(MarkFailed, FailedPatch(s, doc))
            else next.Return? && next.err.Some? && Leaves(next.err.value) == [Request(status)]
  {
    hide Prepared, ToApply, Resolvable;
    StartDecision(s, doc, metadata, lastRetry, f);
    PreparedError(s, doc, metadata, f);
    FailedPatchMeaning(s, doc);
    assert forall facts :: !ToApply(metadata, f, facts) by {
      NoFileFails(metadata, f);
    }
    assert RunLeaves(f.original) == [Request(status)];
    assert [Request(status)][0] == Request(status);
  }

  lemma NoFileFails(metadata: Metadata, f: Findings)
    requires !metadata.hasArchiveVersion && f.original.NoFile?
    ensures forall facts :: !ToApply(metadata, f, facts)
  {
  }

  /** The requests for a submitted patch and their error. */
  predicate Requested(log: seq<Event>, err: Option<Error>, stage: Stage, p: Patch, reply: Reply) {
    if p.IsEmpty() then log == [] && err.None?
    else if reply.check.Some? then log == [Checked(false)] && err == reply.check
    else log == [Checked(true), Patched(stage, p, reply.patch.None?)] && err == reply.patch
  }

  /** What an update does with its facts: no request if there is no patch for them. */
  ghost predicate Applied(s: Settings, doc: Document, metadata: Metadata, f: Findings, reply: Reply, log: seq<Event>, err: Option<Error>) {
    match Prepared(s, doc, metadata, f)
    case Err(e) => log == [] && err == Some(e)
    case Ok(p) => Requested(log, err, ApplyFacts, p, reply)
  }

  lemma AppliedParts(s: Settings, doc: Document, metadata: Metadata, f: Findings, reply: Reply)
    ensures match Prepared(s, doc, metadata, f)
            case Err(e) => Applied(s, doc, metadata, f, reply, [], Some(e))
            case Ok(p) => Applied(s, doc, metadata, f, reply, Sent(ApplyFacts, p, reply), Answer(p, reply))
  {
    hide Prepared;
  }

  /** The requests and the error of an update, in parts: applying the facts, and, unless that went
      well or its error is returned for a retry, marking the document as failed. */
  ghost predicate Followed(s: Settings, doc: Document, metadata: Metadata, lastRetry: bool, f: Findings, replies: Stage -> Reply,
                           log: seq<Event>, err: Option<Error>)
  {
    exists n, e | 0 <= n <= |log| && Applied(s, doc, metadata, f, replies(ApplyFacts), log[..n], e) ::
      if e.None? || (!lastRetry && Temporary(e.value)) then n == |log| && err == e
      else Requested(log[n..], err, MarkFailed, FailedPatch(s, doc), replies(MarkFailed))
  }

  lemma OutcomeFollows(s: Settings, doc: Document, metadata: Metadata, lastRetry: bool, f: Findings, replies: Stage -> Reply)
    ensures var (log, err) := Outcome(s, doc, lastRetry, Start(s, doc, metadata, lastRetry, f), replies);
            Followed(s, doc, metadata, lastRetry, f, replies, log, err)
  {
    hide Prepared, FailedPatch, Leaves, IsPermanent;
    var (log, err) := Outcome(s, doc, lastRetry, Start(s, doc, metadata, lastRetry, f), replies);
    var r := Prepared(s, doc, metadata, f);
    var reply := replies(ApplyFacts);
    MarkedOutcome(s, doc, lastRetry, FailedPatch(s, doc), replies);
    var first, e := [], if r.Err? then Some(r.error) else Answer(r.value, reply);
    if r.Ok? {
      SubmittedOutcome(s, doc, lastRetry, ApplyFacts, r.value, replies);
      first := Sent(ApplyFacts, r.value, reply);
    }
    if e.Some? {
      PermanentIff(e.value);
    }
    var n := |first|;
    assert log[..n] == first && log == first + log[n..];
    assert Applied(s, doc, metadata, f, reply, log[..n], e);
  }

  /** The facts that an update applies reach a tagged document when check and patch succeed. */
  lemma FactsReachDocument(s: Settings, doc: Document, metadata: Metadata, lastRetry: bool, f: Findings, facts: Facts,
                           replies: Stage -> Reply)
    requires Applies(s, metadata, f, facts) && s.todo in doc.tags && replies(ApplyFacts) == Reply(None, None)
    ensures exists p ::
              && Outcome(s, doc, lastRetry, Start(s, doc, metadata, lastRetry, f), replies)
                 == ([Checked(true), Patched(ApplyFacts, p, true)], None)
              && IsTarget(doc, Apply(doc, p), facts, f.res, {s.todo, s.failed})
  {
    hide Prepared, Applies, IsTarget, Apply;
    PreparedIff(s, doc, metadata, f);
    var p := Prepared(s, doc, metadata, f).value;
    PreparedMeaning(s, doc, metadata, f, p);
    StartDecision(s, doc, metadata, lastRetry, f);
    assert Start(s, doc, metadata, lastRetry, f) == Send(ApplyFacts, p);
  }

  function Successes(log: seq<Event>): nat {
    if log == [] then 0
    else Successes(log[1..]) + if log[0].Patched? && log[0].ok then 1 else 0
  }

  /** Every patch is sent right after a conflict check that passed, is not empty, and, when it
      marks a failure, is the patch computed from the document alone. */
  predicate WellGuarded(log: seq<Event>, failedPatch: Patch) {
    forall i | 0 <= i < |log| && log[i].Patched? ::
      && i > 0 && log[i - 1] == Checked(true)
      && !log[i].patch.IsEmpty()
      && (log[i].stage.MarkFailed? ==> log[i].patch == failedPatch)
  }

  /** A step the update may be at: a patch to be sent is not empty, and one that marks a failure
      is the failure patch. */
  ghost predicate Sound(s: Settings, doc: Document, next: Next) {
    next.Send? ==> !next.patch.IsEmpty() && (next.stage.MarkFailed? ==> next.patch == FailedPatch(s, doc))
  }

  lemma FailedHead(head: seq<Event>, rest: seq<Event>, failedPatch: Patch)
    requires head == [Checked(false)]
             || (|head| == 2 && head[0] == Checked(true) && head[1].Patched? && !head[1].ok
                 && WellGuarded(head, failedPatch))
    requires WellGuarded(rest, failedPatch)
    ensures WellGuarded(head + rest, failedPatch)
    ensures Successes(head + rest) == Successes(rest)
  {
    if |head| == 1 {
      assert (head + rest)[1..] == rest;
    } else {
      var tail := (head + rest)[1..];
      assert tail[1..] == rest;
      assert Successes(head + rest) == Successes(tail) == Successes(rest);
    }
  }

  /** What holds of the requests of an update and of the error it returns. */
  predicate Isolated(log: seq<Event>, err: Option<Error>, failedPatch: Patch) {
    && WellGuarded(log, failedPatch)
    && Successes(log) <= 1
    && (Successes(log) == 1 ==> err.None? && log != [] && log[|log| - 1].Patched? && log[|log| - 1].ok)
  }

  /** Whatever the answers, at most one patch succeeds and it is the last request. */
  lemma {:induction false} OutcomeIsIsolated(s: Settings, doc: Document, lastRetry: bool, next: Next, replies: Stage -> Reply)
    requires Sound(s, doc, next)
    ensures var r := Outcome(s, doc, lastRetry, next, replies);
            && Isolated(r.0, r.1, FailedPatch(s, doc))
            && |r.0| <= (if next.Return? then 0 else if next.stage.MarkFailed? then 2 else 4)
    decreases if next.Return? then 0 else if next.stage.MarkFailed? then 1 else 2
  {
    if next.Send? {
      var reply := replies(next.stage);
      if reply.check.Some? || reply.patch.Some? {
        var e := if reply.check.Some? then reply.check.value else reply.patch.value;
        var after := OnSendError(s, doc, lastRetry, next.stage, e);
        OutcomeIsIsolated(s, doc, lastRetry, after, replies);
        FailedHead(Sent(next.stage, next.patch, reply), Outcome(s, doc, lastRetry, after, replies).0, FailedPatch(s, doc));
      } else {
        var log := [Checked(true), Patched(next.stage, next.patch, true)];
        assert log[1..][1..] == [];
        assert Successes(log) == Successes(log[1..]) == 1;
      }
    }
  }

  /** The whole of Do, with all findings and replies. */
  lemma FailureIsolation(s: Settings, doc: Document, metadata: Metadata, lastRetry: bool, f: Findings, replies: Stage -> Reply)
    ensures var next := Start(s, doc, metadata, lastRetry, f);
            var (log, err) := Outcome(s, doc, lastRetry, next, replies);
            && Isolated(log, err, FailedPatch(s, doc))
            && |log| <= 4
  {
    OutcomeIsIsolated(s, doc, lastRetry, Start(s, doc, metadata, lastRetry, f), replies);
  }

  /** On the last retry a document that carries the todo tag loses it whatever the extraction
      does, as long as the checks and requests succeed. */
  lemma LastRetrySettles(s: Settings, doc: Document, metadata: Metadata, f: Findings, replies: Stage -> Reply)
    requires s.todo in doc.tags && s.todo != s.failed
    requires forall stage :: replies(stage) == Reply(None, None)
    ensures var next := Start(s, doc, metadata, true, f);
            && next.Send?
            && s.todo !in Apply(doc, next.patch).tags
            && (next.stage.MarkFailed? ==> s.failed in Apply(doc, next.patch).tags)
            && Outcome(s, doc, true, next, replies) == ([Checked(true), Patched(next.stage, next.patch, true)], None)
  {
    var next := Start(s, doc, metadata, true, f);
    FailedPatchMeaning(s, doc);
    assert forall x :: x in Apply(doc, FailedPatch(s, doc)).tags <==> x in Elements(Apply(doc, FailedPatch(s, doc)).tags);
    if Prepared(s, doc, metadata, f).Ok? {
      PreparedMeaning(s, doc, metadata, f, Prepared(s, doc, metadata, f).value);
    }
    assert replies(next.stage) == Reply(None, None);
  }
}
