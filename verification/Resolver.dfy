/** Finding or creating an object by name, as the caller that leads a flight does it. */
module Resolver {
  import opened Common
  import opened Errors
  import opened MemProvider

  predicate IsNotFound(e: Error) {
    match e
    case NotFound => true
    case Wrapped(_, inner) => IsNotFound(inner)
    case Joined(errs) => exists i | 0 <= i < |errs| :: IsNotFound(errs[i])
    case _ => false
  }

  /** The only object of a list. */
  function GetFirst(objs: seq<Object>): (r: Result<Object, Error>)
    ensures r.Ok? <==> |objs| == 1
    ensures r.Ok? ==> objs == [r.value]
    ensures r.Err? ==> (IsNotFound(r.error) <==> objs == [])
  {
    if |objs| == 0 then Err(Wrapped("no object", NotFound))
    else if |objs| > 1 then Err(Wrapped("several objects", Ambiguous))
    else Ok(objs[0])
  }

  function LookUp(answer: Result<seq<Object>, Error>): Result<Object, Error> {
    match answer
    case Err(e) => Err(e)
    case Ok(objs) => GetFirst(objs)
  }

  function Getting(r: Result<Object, Error>): Result<Object, Error> {
    match r
    case Err(e) => Err(Wrapped("getting", e))
    case Ok(_) => r
  }

  /** What get-or-create returns for the provider's answers: to the first listing, to the request
      to create the object, which is made when the listing found none, and to the second listing. */
  function GetOrCreate(first: Result<seq<Object>, Error>, created: Option<Error>, second: Result<seq<Object>, Error>)
    : Result<Object, Error>
  {
    var r := LookUp(first);
    if r.Err? && IsNotFound(r.error) then
      if created.Some? then Err(Wrapped("creating", created.value)) else Getting(LookUp(second))
    else Getting(r)
  }

  /** The listing was empty, or failed with an error that wraps not-found. */
  predicate NoneFound(first: Result<seq<Object>, Error>) {
    match first
    case Err(e) => NotFound in Leaves(e)
    case Ok(objs) => objs == []
  }

  lemma {:induction false} NotFoundLeaves(e: Error)
    ensures IsNotFound(e) <==> NotFound in Leaves(e)
    decreases e, 0
  {
    match e
    case Wrapped(_, inner) => NotFoundLeaves(inner);
    case Joined(errs) => NotFoundLeavesOf(errs);
    case _ =>
  }

  lemma {:induction false} NotFoundLeavesOf(errs: seq<Error>)
    ensures (exists i | 0 <= i < |errs| :: IsNotFound(errs[i])) <==> NotFound in LeavesOf(errs)
    decreases errs, 1
  {
    if errs != [] {
      NotFoundLeaves(errs[0]);
      NotFoundLeavesOf(errs[1..]);
      assert forall i | 1 <= i < |errs| :: errs[i] == errs[1..][i - 1];
    }
  }

  /** Get-or-create succeeds exactly when the object was there, or could be created and was there
      then, each time as the only one of its name. */
  lemma GetOrCreateSucceedsIff(first: Result<seq<Object>, Error>, created: Option<Error>, second: Result<seq<Object>, Error>)
    ensures GetOrCreate(first, created, second).Ok? <==>
            || (first.Ok? && |first.value| == 1)
            || (NoneFound(first) && created.None? && second.Ok? && |second.value| == 1)
  {
    LookUpLeaves(first);
  }

  /** The leaves of the error of a listing that did not give exactly one object. */
  function ListLeaves(answer: Result<seq<Object>, Error>): seq<Error> {
    match answer
    case Err(e) => Leaves(e)
    case Ok(objs) => if objs == [] then [NotFound] else [Ambiguous]
  }

  lemma LookUpLeaves(answer: Result<seq<Object>, Error>)
    ensures LookUp(answer).Err? ==> Leaves(LookUp(answer).error) == ListLeaves(answer)
    ensures LookUp(answer).Err? ==> Leaves(Wrapped("getting", LookUp(answer).error)) == ListLeaves(answer)
    ensures LookUp(answer).Err? && IsNotFound(LookUp(answer).error) <==> NoneFound(answer)
  {
    hide Leaves;
    if answer.Err? {
      NotFoundLeaves(answer.error);
    }
    if LookUp(answer).Err? {
      WrappedLeaves("getting", LookUp(answer).error);
    }
    if answer.Ok? {
      OneLeaf("no object", NotFound);
      OneLeaf("several objects", Ambiguous);
    }
  }

  lemma OneLeaf(context: string, e: Error)
    requires e.NotFound? || e.Ambiguous?
    ensures Leaves(Wrapped(context, e)) == [e]
  {
  }

  /** A get-or-create that fails keeps the leaves of the answer it failed at: those of the creation,
      or of the second listing when the first found none, or of the first. */
  lemma GetOrCreateLeaves(first: Result<seq<Object>, Error>, created: Option<Error>, second: Result<seq<Object>, Error>)
    ensures var r := GetOrCreate(first, created, second);
            r.Err? ==> Leaves(r.error) ==
                         if !NoneFound(first) then ListLeaves(first)
                         else if created.Some? then Leaves(created.value)
                         else ListLeaves(second)
  {
    hide Leaves, ListLeaves, LookUp, IsNotFound;
    LookUpLeaves(first);
    LookUpLeaves(second);
    if created.Some? {
      WrappedLeaves("creating", created.value);
    }
  }

  /** The requests of a get-or-create, any of which may fail. */
  datatype Request = FirstList | CreateObject | SecondList

  function ListAnswer(fault: Option<Error>, objects: Objects, name: string): Result<seq<Object>, Error> {
    if fault.Some? then Err(fault.value) else Ok(ListOf(objects, name))
  }

  method GetByName(p: MemProvider, name: string, fault: Option<Error>) returns (r: Result<Object, Error>)
    ensures r == LookUp(ListAnswer(fault, p.objects, name))
    ensures r.Ok? <==> fault.None? && name in p.objects
    ensures r.Ok? ==> r.value == p.objects[name]
  {
    if fault.Some? {
      return Err(fault.value);
    }
    var objs := p.ListByName(name);
    r := GetFirst(objs);
  }

  /** Leads to the one object of the name, creating it if need be. Without faults it never fails,
      and it creates an object only when there was none. */
  method GetOrCreateByName(p: MemProvider, name: string, faults: Request -> Option<Error>) returns (r: Result<Object, Error>)
    requires WellKept(p.objects, p.lastId)
    modifies p
    ensures WellKept(p.objects, p.lastId)
    ensures r == GetOrCreate(ListAnswer(faults(FirstList), old(p.objects), name),
                             if faults(CreateObject).Some? then faults(CreateObject) else CreateAnswer(old(p.objects), name),
                             ListAnswer(faults(SecondList), p.objects, name))
    ensures r.Ok? ==> name in p.objects && r.value == p.objects[name]
    ensures (forall q :: faults(q).None?) ==> r.Ok?
    ensures p.objects == if name in old(p.objects) || name !in p.objects then old(p.objects)
                         else old(p.objects)[name := Object(old(p.lastId) + 1, name)]
  {
    var obj := GetByName(p, name, faults(FirstList));
    if obj.Err? && IsNotFound(obj.error) {
      var err := faults(CreateObject);
      if err.None? {
        err := p.Create(name);
      }
      if err.Some? {
        return Err(Wrapped("creating", err.value));
      }
      obj := GetByName(p, name, faults(SecondList));
    }
    if obj.Err? {
      return Err(Wrapped("getting", obj.error));
    }
    return Ok(obj.value);
  }
}
