/** Documents as the server returns them, and the facts found in them. */
module Documents {
  import opened Common
  import opened Utf8

  datatype Document = Document(
    id: int64,
    added: Instant,
    created: Instant,
    modified: Instant,
    title: string,
    content: string,
    correspondent: Option<int64>,
    documentType: Option<int64>,
    storagePath: Option<int64>,
    tags: seq<int64>)

  datatype Metadata = Metadata(
    originalChecksum: Bytes,
    originalSize: int64,
    hasArchiveVersion: bool,
    archiveChecksum: Bytes,
    archiveSize: int64)

  datatype Facts = Facts(
    reporter: Option<string>,
    title: Option<string>,
    created: Option<Instant>,
    documentType: Option<string>,
    correspondent: Option<string>,
    storagePath: Option<string>,
    setTags: seq<string>,
    unsetTags: seq<string>)
  {
    /** Whether no property but the reporter is set. */
    predicate IsEmpty() {
      && title.None? && documentType.None? && correspondent.None? && storagePath.None? && created.None?
      && setTags == [] && unsetTags == []
    }
  }

  function Elements<T>(s: seq<T>): (r: set<T>)
  {
    set x | x in s
  }
}
