/** From facts to a patch, and what the patch means for the document it is applied to. */
module Patches {
  import opened Common
  import opened Documents
  import opened Errors
  import opened Ids

  /** The fields sent to the server; None is a field left out. */
  datatype Patch = Patch(
    created: Option<Instant>,
    title: Option<string>,
    correspondent: Option<Option<int64>>,
    documentType: Option<Option<int64>>,
    storagePath: Option<Option<int64>>,
    tags: Option<seq<int64>>)
  {
    predicate IsEmpty() {
      && created.None? && title.None? && tags.None?
      && correspondent.None? && documentType.None? && storagePath.None?
    }
  }

  /** How the server applies a patch; the time of modification is the server's own business. */
  function Apply(doc: Document, p: Patch): Document {
    doc.(created := Or(p.created, doc.created),
         title := Or(p.title, doc.title),
         correspondent := Or(p.correspondent, doc.correspondent),
         documentType := Or(p.documentType, doc.documentType),
         storagePath := Or(p.storagePath, doc.storagePath),
         tags := Or(p.tags, doc.tags))
  }

  lemma ApplyKeepsIdentity(doc: Document, p: Patch)
    ensures Apply(doc, p).id == doc.id && Apply(doc, p).modified == doc.modified
  {
  }

  function Or<T>(given: Option<T>, otherwise: T): T {
    match given
    case None => otherwise
    case Some(v) => v
  }

  /** What is to happen to an object field. */
  datatype ObjectFact = Keep | Clear | Assign(id: int64)

  /** The state of a patch builder. */
  datatype Builder = Builder(
    created: Option<Instant>,
    title: Option<string>,
    correspondent: ObjectFact,
    documentType: ObjectFact,
    storagePath: ObjectFact,
    tags: set<int64>)

  /** The answers of the resolvers while facts are set, by name. */
  datatype Resolutions = Resolutions(
    correspondent: string -> Result<int64, Error>,
    documentType: string -> Result<int64, Error>,
    storagePath: string -> Result<int64, Error>,
    tagToSet: string -> Result<int64, Error>,
    tagToUnset: string -> Result<int64, Error>)

  function NewBuilder(doc: Document): Builder {
    Builder(None, None, Keep, Keep, Keep, Elements(doc.tags))
  }

  function SetObject(name: Option<string>, resolve: string -> Result<int64, Error>): Result<ObjectFact, Error> {
    match name
    case None => Ok(Keep)
    case Some(n) =>
      if n == "" then Ok(Clear)
      else
        match resolve(n)
        case Ok(id) => Ok(Assign(id))
        case Err(e) => Err(e)
  }

  /** Adds (or removes) the tags of the names until one does not resolve. */
  function SetNames(tags: set<int64>, names: seq<string>, resolve: string -> Result<int64, Error>, add: bool)
    : (set<int64>, Option<Error>)
    decreases |names|
  {
    if names == [] then (tags, None)
    else
      match resolve(names[0])
      case Err(e) => (tags, Some(Wrapped("tag", e)))
      case Ok(id) => SetNames(if add then tags + {id} else tags - {id}, names[1..], resolve, add)
  }

  /** The builder after setting facts, which stops at the first name that does not resolve. */
  function SetFacts(b0: Builder, facts: Facts, res: Resolutions): (Builder, Option<Error>) {
    var b1 := b0.(created := facts.created, title := facts.title);
    match SetObject(facts.correspondent, res.correspondent)
    case Err(e) => (b1, Some(Wrapped("correspondent", e)))
    case Ok(c) =>
      var b2 := b1.(correspondent := c);
      match SetObject(facts.documentType, res.documentType)
      case Err(e) => (b2, Some(Wrapped("document type", e)))
      case Ok(d) =>
        var b3 := b2.(documentType := d);
        match SetObject(facts.storagePath, res.storagePath)
        case Err(e) => (b3, Some(Wrapped("storage path", e)))
        case Ok(s) =>
          var b4 := b3.(storagePath := s);
          var (set1, err1) := SetNames(b4.tags, facts.setTags, res.tagToSet, true);
          if err1.Some? then (b4.(tags := set1), err1)
          else
            var (set2, err2) := SetNames(set1, facts.unsetTags, res.tagToUnset, false);
            (b4.(tags := set2), err2)
  }

  function UnsetTag(b: Builder, id: int64): Builder {
    b.(tags := b.tags - {id})
  }

  function SetTag(b: Builder, id: int64): Builder {
    b.(tags := b.tags + {id})
  }

  /** An ID that was resolved is always sent, because the program compares pointers. */
  function BuildObject(fact: ObjectFact, current: Option<int64>): Option<Option<int64>> {
    match fact
    case Keep => None
    case Clear => if current.None? then None else Some(None)
    case Assign(id) => Some(Some(id))
  }

  function BuildValue<T(==)>(value: Option<T>, current: T): Option<T> {
    if value.None? || value.value == current then None else value
  }

  ghost function Build(doc: Document, b: Builder): Patch {
    Patch(BuildValue(b.created, doc.created),
          BuildValue(b.title, doc.title),
          BuildObject(b.correspondent, doc.correspondent),
          BuildObject(b.documentType, doc.documentType),
          BuildObject(b.storagePath, doc.storagePath),
          if Canonical(b.tags) == Canonical(Elements(doc.tags)) then None else Some(Canonical(b.tags)))
  }

  // ---------------------------------------------------------------- meaning

  function ResolvedIds(names: seq<string>, resolve: string -> Result<int64, Error>): set<int64> {
    set n | n in names && resolve(n).Ok? :: resolve(n).value
  }

  /** The errors of the names that do not resolve, in the order of the names. */
  function Unresolved(names: seq<string>, resolve: string -> Result<int64, Error>): (errs: seq<Error>)
    ensures errs == [] <==> forall n | n in names :: resolve(n).Ok?
  {
    if names == [] then []
    else
      var rest := Unresolved(names[1..], resolve);
      assert forall n :: n in names <==> n == names[0] || n in names[1..];
      match resolve(names[0])
      case Err(e) => [e] + rest
      case Ok(_) => rest
  }

  /** Without an error all tags were set or unset; an error is that of the first name that does not
      resolve. */
  lemma {:induction false} SetNamesMeaning(tags: set<int64>, names: seq<string>, resolve: string -> Result<int64, Error>, add: bool)
    ensures var (r, err) := SetNames(tags, names, resolve, add);
            && (err.None? <==> Unresolved(names, resolve) == [])
            && (err.Some? ==> Leaves(err.value) == Leaves(Unresolved(names, resolve)[0]))
            && (err.None? ==> r == if add then tags + ResolvedIds(names, resolve) else tags - ResolvedIds(names, resolve))
    decreases |names|
  {
    if names != [] {
      match resolve(names[0])
      case Err(_) =>
      case Ok(id) =>
        SetNamesMeaning(if add then tags + {id} else tags - {id}, names[1..], resolve, add);
        assert names == [names[0]] + names[1..];
        assert ResolvedIds(names, resolve) == {id} + ResolvedIds(names[1..], resolve);
    }
  }

  /** The object field the facts ask for. */
  function TargetObject(name: Option<string>, resolve: string -> Result<int64, Error>, current: Option<int64>): Option<int64> {
    match name
    case None => current
    case Some(n) => if n == "" || resolve(n).Err? then None else Some(resolve(n).value)
  }

  /** The tags the facts ask for: unsetting wins over setting. */
  function TargetTags(doc: Document, facts: Facts, res: Resolutions, removed: set<int64>): set<int64> {
    (Elements(doc.tags) + ResolvedIds(facts.setTags, res.tagToSet))
    - ResolvedIds(facts.unsetTags, res.tagToUnset) - removed
  }

  /** The document with the facts and a set of tags; its tag list is left open. */
  predicate IsTarget(doc: Document, target: Document, facts: Facts, res: Resolutions, removed: set<int64>) {
    && target == doc.(created := Or(facts.created, doc.created),
                      title := Or(facts.title, doc.title),
                      correspondent := TargetObject(facts.correspondent, res.correspondent, doc.correspondent),
                      documentType := TargetObject(facts.documentType, res.documentType, doc.documentType),
                      storagePath := TargetObject(facts.storagePath, res.storagePath, doc.storagePath),
                      tags := target.tags)
    && Elements(target.tags) == TargetTags(doc, facts, res, removed)
  }

  /** The patch that applying facts leads to, or the error that stopped it. */
  ghost function FactsPatch(doc: Document, facts: Facts, res: Resolutions, removed: set<int64>): Result<Patch, Error> {
    var (b, err) := SetFacts(NewBuilder(doc), facts, res);
    if err.Some? then Err(err.value) else Ok(Build(doc, b.(tags := b.tags - removed)))
  }

  /** The names that are looked up for an object field: none when it is left alone or cleared. */
  function Naming(name: Option<string>): seq<string> {
    if name.None? || name.value == "" then [] else [name.value]
  }

  /** All names of the facts resolve. */
  predicate Resolvable(facts: Facts, res: Resolutions) {
    && (forall n | n in Naming(facts.correspondent) :: res.correspondent(n).Ok?)
    && (forall n | n in Naming(facts.documentType) :: res.documentType(n).Ok?)
    && (forall n | n in Naming(facts.storagePath) :: res.storagePath(n).Ok?)
    && (forall n | n in facts.setTags :: res.tagToSet(n).Ok?)
    && (forall n | n in facts.unsetTags :: res.tagToUnset(n).Ok?)
  }

  /** The errors of names that do not resolve, in the order in which names are looked up. */
  function LookupErrors(facts: Facts, res: Resolutions): (errs: seq<Error>)
    ensures errs == [] <==> Resolvable(facts, res)
  {
    Unresolved(Naming(facts.correspondent), res.correspondent)
    + Unresolved(Naming(facts.documentType), res.documentType)
    + Unresolved(Naming(facts.storagePath), res.storagePath)
    + Unresolved(facts.setTags, res.tagToSet)
    + Unresolved(facts.unsetTags, res.tagToUnset)
  }

  lemma SetObjectMeaning(name: Option<string>, resolve: string -> Result<int64, Error>)
    ensures SetObject(name, resolve).Ok? <==> Unresolved(Naming(name), resolve) == []
    ensures SetObject(name, resolve).Err? ==> Unresolved(Naming(name), resolve) == [SetObject(name, resolve).error]
  {
    assert Unresolved([], resolve) == [];
  }

  /** Setting facts succeeds exactly when all names resolve; an error is that of the first name
      looked up that does not. */
  lemma SetFactsMeaning(doc: Document, facts: Facts, res: Resolutions)
    ensures var (b, err) := SetFacts(NewBuilder(doc), facts, res);
            && (err.None? <==> Resolvable(facts, res))
            && (err.Some? ==> Leaves(err.value) == Leaves(LookupErrors(facts, res)[0]))
            && (err.None? ==>
              && b.created == facts.created && b.title == facts.title
              && b.correspondent == SetObject(facts.correspondent, res.correspondent).value
              && b.documentType == SetObject(facts.documentType, res.documentType).value
              && b.storagePath == SetObject(facts.storagePath, res.storagePath).value
              && b.tags == TargetTags(doc, facts, res, {}))
  {
    hide Unresolved, SetObject, Naming, Resolvable, Leaves;
    SetObjectMeaning(facts.correspondent, res.correspondent);
    SetObjectMeaning(facts.documentType, res.documentType);
    SetObjectMeaning(facts.storagePath, res.storagePath);
    var errs := LookupErrors(facts, res);
    assert errs == [] <==> |errs| == 0;
    forall context, e
      ensures Leaves(Wrapped(context, e)) == Leaves(e)
    {
      WrappedLeaves(context, e);
    }
    var tags := Elements(doc.tags);
    SetNamesMeaning(tags, facts.setTags, res.tagToSet, true);
    var set1 := SetNames(tags, facts.setTags, res.tagToSet, true).0;
    SetNamesMeaning(set1, facts.unsetTags, res.tagToUnset, false);
  }

  /** The tags of a built patch, applied, are the builder's tags; they are sent exactly when
      they differ from the document's, whatever the order and repetitions of either. */
  lemma BuiltTags(doc: Document, b: Builder)
    ensures Elements(Apply(doc, Build(doc, b)).tags) == b.tags
    ensures Build(doc, b).tags.Some? <==> b.tags != Elements(doc.tags)
    ensures Build(doc, b).tags.Some? ==> StrictlyIncreasing(Build(doc, b).tags.value)
  {
    assert Elements(Canonical(b.tags)) == b.tags;
    assert Elements(Canonical(Elements(doc.tags))) == Elements(doc.tags);
  }

  /** Applying the patch gives exactly the document the facts ask for. */
  lemma PatchMeaning(doc: Document, facts: Facts, res: Resolutions, removed: set<int64>)
    ensures FactsPatch(doc, facts, res, removed).Ok? <==> Resolvable(facts, res)
    ensures !Resolvable(facts, res) ==> Leaves(FactsPatch(doc, facts, res, removed).error) == Leaves(LookupErrors(facts, res)[0])
    ensures Resolvable(facts, res) ==>
              IsTarget(doc, Apply(doc, FactsPatch(doc, facts, res, removed).value), facts, res, removed)
  {
    SetFactsMeaning(doc, facts, res);
    var b := SetFacts(NewBuilder(doc), facts, res).0;
    BuiltTags(doc, b.(tags := b.tags - removed));
  }

  /** A field is sent only for a reason: a given value that differs, a resolved object whatever the
      document has, a cleared object if there is one, and the tags if they change. */
  lemma SentFields(doc: Document, facts: Facts, res: Resolutions, removed: set<int64>)
    requires Resolvable(facts, res)
    ensures FactsPatch(doc, facts, res, removed).Ok?
    ensures var p := FactsPatch(doc, facts, res, removed).value;
            && p.created == (if facts.created == Some(doc.created) then None else facts.created)
            && p.title == (if facts.title == Some(doc.title) then None else facts.title)
            && SentObject(p.correspondent, facts.correspondent, res.correspondent, doc.correspondent)
            && SentObject(p.documentType, facts.documentType, res.documentType, doc.documentType)
            && SentObject(p.storagePath, facts.storagePath, res.storagePath, doc.storagePath)
            && (p.tags.Some? <==> TargetTags(doc, facts, res, removed) != Elements(doc.tags))
            && (p.tags.Some? ==> StrictlyIncreasing(p.tags.value))
  {
    hide Unresolved, TargetTags, Canonical;
    SetFactsMeaning(doc, facts, res);
    var b := SetFacts(NewBuilder(doc), facts, res).0;
    BuiltTags(doc, b.(tags := b.tags - removed));
    SetObjectMeaning(facts.correspondent, res.correspondent);
    SetObjectMeaning(facts.documentType, res.documentType);
    SetObjectMeaning(facts.storagePath, res.storagePath);
    assert TargetTags(doc, facts, res, removed) == TargetTags(doc, facts, res, {}) - removed by {
      RemovedLast(doc, facts, res, removed);
    }
  }

  lemma RemovedLast(doc: Document, facts: Facts, res: Resolutions, removed: set<int64>)
    ensures TargetTags(doc, facts, res, removed) == TargetTags(doc, facts, res, {}) - removed
  {
  }

  predicate SentObject(sent: Option<Option<int64>>, name: Option<string>, resolve: string -> Result<int64, Error>,
                       current: Option<int64>)
  {
    if name.None? || (name.value == "" && current.None?) then sent.None?
    else if name.value == "" then sent == Some(None)
    else resolve(name.value).Ok? && sent == Some(Some(resolve(name.value).value))
  }

  /** Building again from the patched document with the same facts and answers changes nothing. */
  lemma SecondPatchHasNoEffect(doc: Document, facts: Facts, res: Resolutions, removed: set<int64>, first: Patch)
    requires FactsPatch(doc, facts, res, removed) == Ok(first)
    ensures var second := FactsPatch(Apply(doc, first), facts, res, removed);
            && second.Ok? && second.value.tags.None?
            && Apply(Apply(doc, first), second.value) == Apply(doc, first)
  {
    var patched := Apply(doc, first);
    PatchMeaning(doc, facts, res, removed);
    PatchMeaning(patched, facts, res, removed);
    SetFactsMeaning(patched, facts, res);
    var b := SetFacts(NewBuilder(patched), facts, res).0;
    BuiltTags(patched, b.(tags := b.tags - removed));
    assert TargetTags(patched, facts, res, removed) == Elements(patched.tags);
  }

  /** No patch is needed exactly when the document is its own target and no object was named:
      a named object is sent even when the document has it already. */
  lemma EmptyPatchIff(doc: Document, facts: Facts, res: Resolutions, removed: set<int64>, p: Patch)
    requires FactsPatch(doc, facts, res, removed) == Ok(p)
    ensures p.IsEmpty() <==>
            && IsTarget(doc, doc, facts, res, removed)
            && (forall name | name in [facts.correspondent, facts.documentType, facts.storagePath] ::
                  name.None? || name.value == "")
  {
    SetFactsMeaning(doc, facts, res);
    var b := SetFacts(NewBuilder(doc), facts, res).0;
    BuiltTags(doc, b.(tags := b.tags - removed));
    var names := [facts.correspondent, facts.documentType, facts.storagePath];
    assert names[0] in names && names[1] in names && names[2] in names;
  }

  /** An unchanged correspondent is sent all the same. */
  lemma UnchangedObjectIsSent(doc: Document, name: string, res: Resolutions)
    requires name != "" && res.correspondent(name).Ok? && doc.correspondent == Some(res.correspondent(name).value)
    ensures var facts := Facts(None, None, None, None, Some(name), None, [], []);
            var p := FactsPatch(doc, facts, res, {});
            p.Ok? && !p.value.IsEmpty() && Apply(doc, p.value) == doc
  {
    var facts := Facts(None, None, None, None, Some(name), None, [], []);
    PatchMeaning(doc, facts, res, {});
    SetFactsMeaning(doc, facts, res);
    BuiltTags(doc, SetFacts(NewBuilder(doc), facts, res).0);
    assert TargetTags(doc, facts, res, {}) == Elements(doc.tags);
  }
}
