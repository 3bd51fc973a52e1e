/** The patch builder with its fields and pointers, proved against module Patches. */
module PatchBuilder {
  import opened Common
  import opened Documents
  import opened Errors
  import opened Ids
  import opened Patches

  /** A variable holding an ID. References to it are compared by identity, like pointers. */
  class IdVar {
    const value: int64

    constructor (value: int64)
      ensures this.value == value
    {
      this.value := value;
    }
  }

  function Load(p: IdVar?): Option<int64> {
    if p == null then None else Some(p.value)
  }

  /** The builder field holds no pointer, a nil pointer or a pointer to an ID. */
  function FactOf(field: Option<IdVar?>): ObjectFact {
    match field
    case None => Keep
    case Some(p) => if p == null then Clear else Assign(p.value)
  }

  /** A pointer put into a field points to a variable of its own. */
  predicate Separate(field: Option<IdVar?>, current: IdVar?) {
    field.Some? && field.value != null ==> field.value != current
  }

  method SetObjectFact(dest: Option<IdVar?>, current: IdVar?, name: Option<string>, resolve: string -> Result<int64, Error>)
    returns (field: Option<IdVar?>, err: Option<Error>)
    requires Separate(dest, current)
    ensures Separate(field, current)
    ensures match SetObject(name, resolve)
            case Ok(fact) => err.None? && FactOf(field) == fact
            case Err(e) => err == Some(e) && field == dest
  {
    field, err := dest, None;
    if name.None? {
      field := None;
    } else if name.value == "" {
      field := Some(null);
    } else {
      var obj := resolve(name.value);
      if obj.Err? {
        return dest, Some(obj.error);
      }
      var id := new IdVar(obj.value);
      field := Some(id);
    }
  }

  /** Sends the field unless it holds no pointer or the very pointer of the document. */
  function PatchOptionalId(value: Option<IdVar?>, current: IdVar?): Option<Option<int64>> {
    if value.None? || value.value == current then None else Some(Load(value.value))
  }

  lemma PointersDecide(field: Option<IdVar?>, current: IdVar?)
    requires Separate(field, current)
    ensures PatchOptionalId(field, current) == BuildObject(FactOf(field), Load(current))
  {
  }

  /** Comparing the IDs instead of the pointers would give another patch for the same fields. */
  lemma PointersAreNotIds(a: IdVar, b: IdVar)
    requires a != b && a.value == b.value
    ensures PatchOptionalId(Some(a), b) == Some(Load(b)) && PatchOptionalId(Some(b), b) == None
  {
  }

  /** The elements of a set in an order of the runtime's choice. */
  method KeysOf(s: set<int64>) returns (keys: seq<int64>)
    ensures Elements(keys) == s && |keys| == |s|
  {
    keys := [];
    var left := s;
    while left != {}
      invariant left <= s
      invariant Elements(keys) == s - left
      invariant |keys| + |left| == |s|
      decreases left
    {
      var k :| k in left;
      ElementsAppend(keys, k);
      left := left - {k};
      keys := keys + [k];
    }
  }

  class PatchBuilder {
    const doc: Document
    const docCorrespondent: IdVar?
    const docDocumentType: IdVar?
    const docStoragePath: IdVar?

    var created: Option<Instant>
    var title: Option<string>
    var correspondent: Option<IdVar?>
    var documentType: Option<IdVar?>
    var storagePath: Option<IdVar?>
    var tags: set<int64>

    ghost predicate Valid()
      reads this
    {
      && Load(docCorrespondent) == doc.correspondent
      && Load(docDocumentType) == doc.documentType
      && Load(docStoragePath) == doc.storagePath
      && Separate(correspondent, docCorrespondent)
      && Separate(documentType, docDocumentType)
      && Separate(storagePath, docStoragePath)
    }

    ghost function View(): Builder
      reads this
    {
      Builder(created, title, FactOf(correspondent), FactOf(documentType), FactOf(storagePath), tags)
    }

    constructor (doc: Document, c: IdVar?, d: IdVar?, s: IdVar?)
      requires Load(c) == doc.correspondent && Load(d) == doc.documentType && Load(s) == doc.storagePath
      ensures this.doc == doc && Valid() && View() == NewBuilder(doc)
    {
      this.doc, docCorrespondent, docDocumentType, docStoragePath := doc, c, d, s;
      created, title, correspondent, documentType, storagePath := None, None, None, None, None;
      tags := {};
      new;
      for i := 0 to |doc.tags|
        invariant tags == Elements(doc.tags[..i])
        invariant Valid() && View() == NewBuilder(doc).(tags := tags)
      {
        ElementsAppend(doc.tags[..i], doc.tags[i]);
        assert doc.tags[..i + 1] == doc.tags[..i] + [doc.tags[i]];
        tags := tags + {doc.tags[i]};
      }
      assert doc.tags[..|doc.tags|] == doc.tags;
    }

    method SetTag(id: int64)
      requires Valid()
      modifies this`tags
      ensures Valid() && View() == Patches.SetTag(old(View()), id)
    {
      tags := tags + {id};
    }

    method UnsetTag(id: int64)
      requires Valid()
      modifies this`tags
      ensures Valid() && View() == Patches.UnsetTag(old(View()), id)
    {
      if id in tags {
        tags := tags - {id};
      }
    }

    /** Resolves and applies names one by one; the first that does not resolve ends the loop. */
    method ApplyNames(names: seq<string>, resolve: string -> Result<int64, Error>, add: bool) returns (err: Option<Error>)
      requires Valid()
      modifies this`tags
      ensures Valid()
      ensures (tags, err) == SetNames(old(tags), names, resolve, add)
      ensures View() == old(View()).(tags := tags)
    {
      for i := 0 to |names|
        invariant Valid() && View() == old(View()).(tags := tags)
        invariant SetNames(tags, names[i..], resolve, add) == SetNames(old(tags), names, resolve, add)
      {
        assert names[i..][1..] == names[i + 1..];
        var tag := resolve(names[i]);
        if tag.Err? {
          return Some(Wrapped("tag", tag.error));
        }
        if add {
          SetTag(tag.value);
        } else {
          UnsetTag(tag.value);
        }
      }
      return None;
    }

    method SetFacts(facts: Facts, res: Resolutions) returns (err: Option<Error>)
      requires Valid()
      modifies this
      ensures Valid()
      ensures (View(), err) == Patches.SetFacts(old(View()), facts, res)
    {
      created := facts.created;
      title := facts.title;

      correspondent, err := SetObjectFact(correspondent, docCorrespondent, facts.correspondent, res.correspondent);
      if err.Some? {
        return Some(Wrapped("correspondent", err.value));
      }
      documentType, err := SetObjectFact(documentType, docDocumentType, facts.documentType, res.documentType);
      if err.Some? {
        return Some(Wrapped("document type", err.value));
      }
      storagePath, err := SetObjectFact(storagePath, docStoragePath, facts.storagePath, res.storagePath);
      if err.Some? {
        return Some(Wrapped("storage path", err.value));
      }

      err := ApplyNames(facts.setTags, res.tagToSet, true);
      if err.Some? {
        return;
      }
      err := ApplyNames(facts.unsetTags, res.tagToUnset, false);
    }

    method Build() returns (p: Patch)
      requires Valid()
      ensures p == Patches.Build(doc, View())
    {
      var sendCreated := if created.None? || created.value == doc.created then None else created;
      var sendTitle := if title.None? || title.value == doc.title then None else title;
      PointersDecide(correspondent, docCorrespondent);
      PointersDecide(documentType, docDocumentType);
      PointersDecide(storagePath, docStoragePath);
      var keys := KeysOf(tags);
      var newTags := NormalizeIDs(keys);
      var origTags := NormalizeIDs(doc.tags);
      p := Patch(sendCreated, sendTitle,
                 PatchOptionalId(correspondent, docCorrespondent),
                 PatchOptionalId(documentType, docDocumentType),
                 PatchOptionalId(storagePath, docStoragePath),
                 if newTags == origTags then None else Some(newTags));
    }
  }
}
