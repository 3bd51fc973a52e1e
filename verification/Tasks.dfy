/** One attempt at a document: the gate in front of it, the check for concurrent changes and
    the saving of its result. */
module Tasks {
  import opened Common
  import opened Utf8
  import opened Documents
  import opened Errors
  import opened TaskKey
  import opened Store
  import opened History

  /** The fields that must not change between listing a document and patching it. Tags are
      not among them. */
  datatype Snapshot = Snapshot(
    id: int64,
    added: Instant,
    created: Instant,
    modified: Instant,
    title: string,
    content: string,
    originalChecksum: Bytes,
    hasArchiveVersion: bool,
    archiveChecksum: Bytes)

  function NewSnapshot(doc: Document, metadata: Metadata): Snapshot {
    Snapshot(doc.id, doc.added, doc.created, doc.modified, doc.title, doc.content,
             metadata.originalChecksum, metadata.hasArchiveVersion, metadata.archiveChecksum)
  }

  /** The record of a document version that has none in the store. */
  function FreshRecord(doc: Document, metadata: Metadata): DocumentTask {
    DocumentTask(doc.id, doc.added, doc.modified, metadata.originalChecksum, metadata.archiveChecksum,
                 ZERO_TIME, ZERO_TIME, 0, ZERO_TIME, [])
  }

  function DocumentKey(doc: Document, metadata: Metadata): Bytes {
    KeyOf(FreshRecord(doc, metadata))
  }

  /** The key of a document version tells its ID, times and checksums. */
  lemma DocumentKeyFields(doc: Document, metadata: Metadata)
    ensures Decode(DocumentKey(doc, metadata)) ==
            Some(KeyFields(doc.id, UnixMicro(doc.added), UnixMicro(doc.modified), metadata.originalChecksum, metadata.archiveChecksum))
  {
    hide Decode, Encode;
    DecodeInvertsKey(Fields(FreshRecord(doc, metadata)));
  }

  /** The record an attempt works on, or None when its retry time has not been reached. */
  function Gate(recs: Records, doc: Document, metadata: Metadata, begin: Instant): Option<DocumentTask> {
    var key := DocumentKey(doc, metadata);
    if key !in recs then Some(FreshRecord(doc, metadata).(recordCreated := begin))
    else if recs[key].retryAfter != ZERO_TIME && recs[key].retryAfter > begin then None
    else Some(recs[key])
  }

  /** The gate opens exactly when the record, if there is one, is due. */
  lemma GateOpensWhenDue(recs: Records, doc: Document, metadata: Metadata, begin: Instant)
    requires ZERO_TIME <= begin
    ensures var key := DocumentKey(doc, metadata);
            Gate(recs, doc, metadata, begin).Some? <==> (key in recs ==> recs[key].retryAfter <= begin)
  {
  }

  /** The conflict check: None when the document and its metadata still look as they did. */
  function CompareSnapshots(snapshot: Snapshot, doc: Result<Document, Error>, metadata: Result<Metadata, Error>): Option<Error> {
    match (doc, metadata)
    case (Err(e), _) => Some(Wrapped("getting document for conflict check", e))
    case (_, Err(e)) => Some(Wrapped("getting document metadata for conflict check", e))
    case (Ok(d), Ok(m)) => if NewSnapshot(d, m) == snapshot then None else Some(ConcurrentModification)
  }

  /** The fields the check compares, one by one; tags, correspondent, document type and storage path
      are not among them, nor are the sizes. */
  predicate LooksTheSame(d: Document, m: Metadata, e: Document, n: Metadata) {
    && d.id == e.id && d.added == e.added && d.created == e.created && d.modified == e.modified
    && d.title == e.title && d.content == e.content
    && m.originalChecksum == n.originalChecksum
    && m.hasArchiveVersion == n.hasArchiveVersion && m.archiveChecksum == n.archiveChecksum
  }

  class Task {
    const doc: Document
    const metadata: Metadata
    const begin: Instant
    const key: Bytes
    var snapshot: Snapshot
    var rec: DocumentTask

    ghost predicate Valid()
      reads this
    {
      && key == DocumentKey(doc, metadata)
      && snapshot == NewSnapshot(doc, metadata)
    }

    constructor (doc: Document, metadata: Metadata, begin: Instant)
      ensures this.doc == doc && this.metadata == metadata && this.begin == begin
      ensures Valid() && rec == FreshRecord(doc, metadata)
    {
      var empty := FreshRecord(doc, metadata);
      var k := Key(empty);
      this.doc, this.metadata, this.begin := doc, metadata, begin;
      key, rec, snapshot := k, empty, NewSnapshot(doc, metadata);
    }

    method CheckModified(current: Result<Document, Error>, currentMetadata: Result<Metadata, Error>)
      returns (err: Option<Error>)
      requires Valid()
      ensures err.None? <==> current.Ok? && currentMetadata.Ok?
                             && LooksTheSame(current.value, currentMetadata.value, doc, metadata)
      ensures current.Ok? && currentMetadata.Ok? && err.Some? ==> err == Some(ConcurrentModification)
      ensures current.Err? ==> err.Some? && Leaves(err.value) == Leaves(current.error)
      ensures current.Ok? && currentMetadata.Err? ==> err.Some? && Leaves(err.value) == Leaves(currentMetadata.error)
      ensures err == CompareSnapshots(NewSnapshot(doc, metadata), current, currentMetadata)
    {
      if current.Err? {
        return Some(Wrapped("getting document for conflict check", current.error));
      }
      if currentMetadata.Err? {
        return Some(Wrapped("getting document metadata for conflict check", currentMetadata.error));
      }
      var curSnapshot := NewSnapshot(current.value, currentMetadata.value);
      if curSnapshot != snapshot {
        return Some(ConcurrentModification);
      }
      return None;
    }

    /** Appends the attempt to the record and writes the record; `fault` is the store's error. */
    method SaveResult(store: Store, err: Option<Error>, retryAfter: Duration, now: Instant, fault: Option<Error>)
      returns (r: Option<Error>)
      requires Valid()
      modifies this`rec, store
      ensures Valid()
      ensures rec == Saved(old(rec), begin, now, err, retryAfter)
      ensures rec.attempts == old(rec).attempts + [Attempt(begin, now, err.None?, if err.None? then "" else Text(err.value))]
      ensures store.recs == if fault.None? then old(store.recs)[key := rec] else old(store.recs)
      ensures r.None? <==> fault.None?
    {
      var success := err.None?;
      var message := "";
      if !success {
        rec := rec.(retryCount := rec.retryCount + 1);
        rec := rec.(retryAfter := now + retryAfter);
        message := Text(err.value);
      }
      rec := rec.(recordUpdated := now);
      rec := rec.(attempts := rec.attempts + [Attempt(begin, now, success, message)]);
      if fault.Some? {
        return Some(Wrapped("inserting/updating record", fault.value));
      }
      store.Upsert(key, rec);
      return None;
    }
  }

  /** Fetches the record of a document version and decides whether an attempt may start. */
  method LoadTask(doc: Document, metadata: Result<Metadata, Error>, begin: Instant, store: Store, getFault: Option<Error>)
    returns (task: Task?, err: Option<Error>)
    ensures err.Some? <==> metadata.Err? || getFault.Some?
    ensures task != null ==> fresh(task) && task.Valid() && task.begin == begin && task.doc == doc
                             && metadata == Ok(task.metadata) && err.None?
    ensures err.None? ==>
              match Gate(store.recs, doc, metadata.value, begin)
              case None => task == null
              case Some(rec) => task != null && task.rec == rec
  {
    if metadata.Err? {
      return null, Some(Wrapped("getting document metadata", metadata.error));
    }
    var t := new Task(doc, metadata.value, begin);
    if getFault.Some? {
      return null, Some(Wrapped("getting record", getFault.value));
    }
    var stored := store.Get(t.key);
    if stored.None? {
      t.rec := t.rec.(recordCreated := begin);
    } else {
      t.rec := stored.value;
      if t.rec.retryAfter != ZERO_TIME && t.rec.retryAfter > begin {
        return null, None;
      }
    }
    return t, None;
  }

  /** What one call of processDocument does to the store when the processing function returned
      `processErr`. */
  function Processed(recs: Records, doc: Document, metadata: Metadata, begin: Instant, end: Instant,
                     processErr: Option<Error>, calcRetryDelay: int -> Duration): Records
  {
    match Gate(recs, doc, metadata, begin)
    case None => recs
    case Some(rec) =>
      recs[DocumentKey(doc, metadata) := Saved(rec, begin, end, processErr, calcRetryDelay(1 + rec.retryCount))]
  }

  method ProcessDocument(doc: Document, metadata: Result<Metadata, Error>, begin: Instant, end: Instant, store: Store,
                         getFault: Option<Error>, saveFault: Option<Error>,
                         processErr: Option<Error>, calcRetryDelay: int -> Duration)
    returns (err: Option<Error>)
    modifies store
    ensures store.recs ==
            if metadata.Ok? && getFault.None? && saveFault.None?
            then Processed(old(store.recs), doc, metadata.value, begin, end, processErr, calcRetryDelay)
            else old(store.recs)
    ensures err.None? <==>
            metadata.Ok? && getFault.None?
            && (Gate(old(store.recs), doc, metadata.value, begin).None? || saveFault.None?)
  {
    var task;
    task, err := LoadTask(doc, metadata, begin, store, getFault);
    if err.Some? || task == null {
      return;
    }
    var retryDelay := calcRetryDelay(1 + task.rec.retryCount);
    err := task.SaveResult(store, processErr, retryDelay, end, saveFault);
  }
}
