/** Error values: wrapping, lists of errors, and the test for errors not worth a retry. */
module Errors {
  import opened Common

  datatype Error =
    | TooLarge                       // errDocumentTooLarge
    | ConcurrentModification         // errConcurrentModification
    | Request(status: int)           // a request the server answered with an error status
    | NotFound                       // objectresolver.ErrNotFound
    | Ambiguous                      // objectresolver.ErrAmbiguous
    | Other(text: string)
    | Wrapped(context: string, err: Error)
    | Joined(errs: seq<Error>)

  const STATUS_NOT_FOUND := 404

  /** multierr.Append of a non-nil error. */
  function Append(all: Option<Error>, e: Error): Option<Error> {
    match all
    case None => Some(e)
    case Some(Joined(errs)) => Some(Joined(errs + [e]))
    case Some(first) => Some(Joined([first, e]))
  }

  predicate IsTooLarge(e: Error) {
    match e
    case TooLarge => true
    case Wrapped(_, inner) => IsTooLarge(inner)
    case Joined(errs) => exists i | 0 <= i < |errs| :: IsTooLarge(errs[i])
    case _ => false
  }

  /** The status of the first request error met in depth-first order, as errors.As finds it. */
  function FirstRequest(e: Error): Option<int>
    decreases e, 0
  {
    match e
    case Request(status) => Some(status)
    case Wrapped(_, inner) => FirstRequest(inner)
    case Joined(errs) => FirstRequestOf(errs)
    case _ => None
  }

  function FirstRequestOf(errs: seq<Error>): Option<int>
    decreases errs, 1
  {
    if errs == [] then None
    else
      var first := FirstRequest(errs[0]);
      if first.Some? then first else FirstRequestOf(errs[1..])
  }

  /** Whether a retry cannot help. */
  predicate IsPermanent(e: Error) {
    IsTooLarge(e) || FirstRequest(e) == Some(STATUS_NOT_FOUND)
  }

  /** The errors at the leaves of a tree of wrapped and joined errors, from left to right. */
  function Leaves(e: Error): seq<Error>
    decreases e, 0
  {
    match e
    case Wrapped(_, inner) => Leaves(inner)
    case Joined(errs) => LeavesOf(errs)
    case _ => [e]
  }

  function LeavesOf(errs: seq<Error>): seq<Error>
    decreases errs, 1
  {
    if errs == [] then [] else Leaves(errs[0]) + LeavesOf(errs[1..])
  }

  function FirstStatus(leaves: seq<Error>): Option<int> {
    if leaves == [] then None
    else if leaves[0].Request? then Some(leaves[0].status)
    else FirstStatus(leaves[1..])
  }

  lemma {:induction false} FirstStatusAppend(a: seq<Error>, b: seq<Error>)
    ensures FirstStatus(a + b) == if FirstStatus(a).Some? then FirstStatus(a) else FirstStatus(b)
  {
    if a == [] {
      assert a + b == b;
    } else {
      assert (a + b)[1..] == a[1..] + b;
      FirstStatusAppend(a[1..], b);
    }
  }

  lemma {:induction false} PermanentLeaves(e: Error)
    ensures IsTooLarge(e) <==> TooLarge in Leaves(e)
    ensures FirstRequest(e) == FirstStatus(Leaves(e))
    decreases e, 0
  {
    match e
    case Wrapped(_, inner) => PermanentLeaves(inner);
    case Joined(errs) => PermanentLeavesOf(errs);
    case _ =>
  }

  lemma {:induction false} PermanentLeavesOf(errs: seq<Error>)
    ensures (exists i | 0 <= i < |errs| :: IsTooLarge(errs[i])) <==> TooLarge in LeavesOf(errs)
    ensures FirstRequestOf(errs) == FirstStatus(LeavesOf(errs))
    decreases errs, 1
  {
    if errs != [] {
      PermanentLeaves(errs[0]);
      PermanentLeavesOf(errs[1..]);
      FirstStatusAppend(Leaves(errs[0]), LeavesOf(errs[1..]));
      assert forall i | 1 <= i < |errs| :: errs[i] == errs[1..][i - 1];
    }
  }

  /** However an error was wrapped and joined, it is permanent exactly when some leaf says that
      the document is too large or the first failed request found nothing. */
  lemma PermanentIff(e: Error)
    ensures IsPermanent(e) <==>
            TooLarge in Leaves(e) || FirstStatus(Leaves(e)) == Some(STATUS_NOT_FOUND)
  {
    PermanentLeaves(e);
  }

  /** An error that is worth a retry: no leaf says that the document is too large, and the first
      failed request, if any, was not answered with status 404. */
  predicate Temporary(e: Error) {
    TooLarge !in Leaves(e) && FirstStatus(Leaves(e)) != Some(404)
  }

  lemma {:induction false} LeavesOfAppend(a: seq<Error>, b: seq<Error>)
    ensures LeavesOf(a + b) == LeavesOf(a) + LeavesOf(b)
  {
    if a == [] {
      assert a + b == b;
    } else {
      assert (a + b)[1..] == a[1..] + b;
      LeavesOfAppend(a[1..], b);
    }
  }

  lemma LeavesOfOne(e: Error)
    ensures LeavesOf([e]) == Leaves(e)
  {
    assert LeavesOf([e]) == Leaves(e) + LeavesOf([e][1..]);
    assert LeavesOf([]) == [];
  }

  lemma WrappedLeaves(context: string, e: Error)
    ensures Leaves(Wrapped(context, e)) == Leaves(e)
  {
  }

  function LeavesOfOption(e: Option<Error>): seq<Error> {
    if e.None? then [] else Leaves(e.value)
  }

  /** Collecting an error adds its leaves behind those collected before. */
  lemma AppendLeaves(all: Option<Error>, e: Error)
    ensures Append(all, e).Some? && Leaves(Append(all, e).value) == LeavesOfOption(all) + Leaves(e)
  {
    LeavesOfOne(e);
    if all.Some? {
      var first := if all.value.Joined? then all.value.errs else [all.value];
      assert all.value.Joined? || first + [e] == [all.value, e];
      LeavesOfAppend(first, [e]);
      LeavesOfOne(all.value);
    }
  }

  lemma LeavesOfTwoRequests(a: int, b: int)
    ensures Leaves(Joined([Request(a), Request(b)])) == [Request(a), Request(b)]
  {
    var errs := [Request(a), Request(b)];
    assert errs[1..] == [Request(b)];
    assert LeavesOf(errs[1..]) == Leaves(Request(b)) + LeavesOf([]);
    assert LeavesOf(errs) == Leaves(errs[0]) + LeavesOf(errs[1..]);
  }

  /** A request error that comes first hides a later not-found answer. */
  lemma EarlierRequestHidesNotFound(status: int)
    requires status != STATUS_NOT_FOUND
    ensures !IsPermanent(Joined([Request(status), Request(STATUS_NOT_FOUND)]))
    ensures IsPermanent(Joined([Request(STATUS_NOT_FOUND), Request(status)]))
  {
    LeavesOfTwoRequests(status, STATUS_NOT_FOUND);
    LeavesOfTwoRequests(STATUS_NOT_FOUND, status);
    PermanentIff(Joined([Request(status), Request(STATUS_NOT_FOUND)]));
    PermanentIff(Joined([Request(STATUS_NOT_FOUND), Request(status)]));
  }

  function Text(e: Error): string {
    match e
    case TooLarge => "document too large"
    case ConcurrentModification => "detected concurrent modification"
    case Request(_) => "request failed"
    case NotFound => "object not found"
    case Ambiguous => "ambiguous object list result"
    case Other(text) => text
    case Wrapped(context, inner) => context + ": " + Text(inner)
    case Joined(errs) => JoinedText(errs)
  }

  function JoinedText(errs: seq<Error>): string {
    if errs == [] then ""
    else if |errs| == 1 then Text(errs[0])
    else Text(errs[0]) + "; " + JoinedText(errs[1..])
  }
}
