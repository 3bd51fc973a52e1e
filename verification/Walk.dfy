/** One walk over the tagged documents: repeated listing until nothing new turns up, with a
    bounded pool of handlers. */
module Walk {
  import opened Common
  import opened Documents
  import opened Errors

  /** What one listing delivered, and the error that ended it early. */
  datatype Listing = Listing(delivered: seq<Document>, err: Option<Error>)

  function IdsOf(docs: seq<Document>): set<int64> {
    set d | d in docs :: d.id
  }

  /** The documents without those whose ID came before. */
  function Firsts(docs: seq<Document>): seq<Document> {
    if docs == [] then []
    else
      var before, last := Firsts(docs[..|docs| - 1]), docs[|docs| - 1];
      if last.id in IdsOf(before) then before else before + [last]
  }

  /** Everything the first n listings delivered. */
  function Delivered(list: nat -> Listing, n: nat): seq<Document> {
    if n == 0 then [] else Delivered(list, n - 1) + list(n - 1).delivered
  }

  predicate DistinctIds(docs: seq<Document>) {
    forall i, j | 0 <= i < j < |docs| :: docs[i].id != docs[j].id
  }

  lemma IdsOfAppend(docs: seq<Document>, d: Document)
    ensures IdsOf(docs + [d]) == IdsOf(docs) + {d.id}
  {
    assert d in docs + [d];
    forall x | x in docs
      ensures x in docs + [d]
    {
    }
  }

  lemma FirstsAppend(docs: seq<Document>, d: Document)
    ensures Firsts(docs + [d]) == if d.id in IdsOf(Firsts(docs)) then Firsts(docs) else Firsts(docs) + [d]
  {
    assert (docs + [d])[..|docs|] == docs;
  }

  /** Every ID that was delivered appears exactly once. */
  lemma {:induction false} FirstsMeaning(docs: seq<Document>)
    ensures IdsOf(Firsts(docs)) == IdsOf(docs)
    ensures DistinctIds(Firsts(docs))
  {
    if docs != [] {
      var init, last := docs[..|docs| - 1], docs[|docs| - 1];
      FirstsMeaning(init);
      IdsOfAppend(init, last);
      IdsOfAppend(Firsts(init), last);
      assert docs == init + [last];
      forall i | 0 <= i < |Firsts(init)| && last.id !in IdsOf(Firsts(init))
        ensures Firsts(init)[i].id != last.id
      {
        assert Firsts(init)[i] in Firsts(init);
      }
    }
  }

  /** The copy that is kept is the one that was delivered first. */
  lemma {:induction false} FirstsAreFirst(docs: seq<Document>, k: nat) returns (i: nat)
    requires k < |Firsts(docs)|
    ensures i < |docs| && docs[i] == Firsts(docs)[k]
    ensures forall j | 0 <= j < i :: docs[j].id != docs[i].id
  {
    var init, last := docs[..|docs| - 1], docs[|docs| - 1];
    if k < |Firsts(init)| {
      i := FirstsAreFirst(init, k);
    } else {
      i := |docs| - 1;
      FirstsMeaning(init);
      forall j | 0 <= j < i
        ensures docs[j].id != last.id
      {
        assert docs[j] == init[j] && init[j] in init;
        assert init[j].id in IdsOf(init);
      }
    }
  }

  /** Handlers run concurrently, at most `max` at a time. */
  class Pool {
    const max: nat
    /** The documents given to handlers, in order; handlers are numbered from 0. */
    var started: seq<Document>
    var running: set<nat>

    ghost predicate Valid()
      reads this
    {
      max > 0 && |running| <= max && forall i | i in running :: i < |started|
    }

    constructor (max: nat)
      requires max > 0
      ensures Valid() && this.max == max && started == [] && running == {}
    {
      this.max, started, running := max, [], {};
    }

    /** Starts a handler, waiting for another to end if the pool is full. `ended` are the
        handlers that ended meanwhile. */
    method Go(doc: Document, ended: set<nat>)
      requires Valid()
      modifies this
      ensures Valid()
      ensures started == old(started) + [doc]
      ensures |old(started)| in running && running <= old(running) - ended + {|old(started)|}
      ensures |old(running) - ended| < max ==> running == old(running) - ended + {|old(started)|}
    {
      running := running - ended;
      SubsetCount(running, old(running));
      if |running| == max {
        var i :| i in running;
        running := running - {i};
      }
      running := running + {|started|};
      started := started + [doc];
    }

    method Wait()
      requires Valid()
      modifies this`running
      ensures Valid() && running == {}
    {
      while running != {}
        invariant Valid()
        decreases running
      {
        var i :| i in running;
        running := running - {i};
      }
    }
  }

  lemma IdsOfConcat(a: seq<Document>, b: seq<Document>)
    ensures IdsOf(a + b) == IdsOf(a) + IdsOf(b)
  {
    forall x | x in a
      ensures x in a + b
    {
    }
    forall x | x in b
      ensures x in a + b
    {
      var i :| 0 <= i < |b| && b[i] == x;
      assert (a + b)[|a| + i] == x;
    }
  }

  /** What one more delivered document changes. */
  lemma OneMore(before: seq<Document>, docs: seq<Document>, i: nat)
    requires i < |docs|
    ensures var sofar, d := before + docs[..i], docs[i];
            && before + docs[..i + 1] == sofar + [d]
            && Firsts(sofar + [d]) == (if d.id in IdsOf(sofar) then Firsts(sofar) else Firsts(sofar) + [d])
            && IdsOf(sofar + [d]) == IdsOf(sofar) + {d.id}
            && IdsOf(sofar) == IdsOf(before) + IdsOf(docs[..i])
            && IdsOf(docs[..i + 1]) == IdsOf(docs[..i]) + {d.id}
  {
    hide Firsts, IdsOf;
    var sofar, d := before + docs[..i], docs[i];
    assert docs[..i + 1] == docs[..i] + [d];
    FirstsAppend(sofar, d);
    FirstsMeaning(sofar);
    IdsOfAppend(sofar, d);
    IdsOfAppend(docs[..i], d);
    IdsOfConcat(before, docs[..i]);
  }

  /** One listing: hands every document not seen before to a handler. */
  method Pass(listing: Listing, seen: set<int64>, pool: Pool, ended: nat -> set<nat>, ghost before: seq<Document>)
    returns (seenAfter: set<int64>, found: bool)
    requires pool.Valid() && pool.started == Firsts(before) && seen == IdsOf(before)
    modifies pool
    ensures pool.Valid() && pool.started == Firsts(before + listing.delivered)
    ensures seenAfter == IdsOf(before + listing.delivered)
    ensures found <==> !(IdsOf(listing.delivered) <= seen)
  {
    hide Firsts, IdsOf;
    ghost var docs := listing.delivered;
    seenAfter, found := seen, false;
    assert before + docs[..0] == before && docs[..0] == [];
    NothingDelivered();
    for i := 0 to |listing.delivered|
      invariant pool.Valid() && pool.started == Firsts(before + docs[..i])
      invariant seenAfter == IdsOf(before + docs[..i])
      invariant found <==> !(IdsOf(docs[..i]) <= seen)
    {
      var doc := listing.delivered[i];
      OneMore(before, docs, i);
      if doc.id !in seenAfter {
        seenAfter := seenAfter + {doc.id};
        found := true;
        pool.Go(doc, ended(i));
      }
    }
    assert docs[..|docs|] == docs;
  }

  /** A listing that ended well and delivered something new makes the walk list again. */
  predicate GoesOn(list: nat -> Listing, n: nat) {
    list(n).err.None? && !(IdsOf(list(n).delivered) <= IdsOf(Delivered(list, n)))
  }

  /** A further listing adds to what was delivered; the walk goes on only if it adds an ID. */
  lemma ListingGrows(list: nat -> Listing, n: nat, universe: set<int64>)
    requires IdsOf(Delivered(list, n)) <= universe && IdsOf(list(n).delivered) <= universe
    ensures var before, after := IdsOf(Delivered(list, n)), IdsOf(Delivered(list, n + 1));
            && Delivered(list, n + 1) == Delivered(list, n) + list(n).delivered
            && after <= universe && |before| <= |universe|
            && (GoesOn(list, n) ==> |before| < |after| && |universe - after| < |universe - before|)
  {
    var before, after := IdsOf(Delivered(list, n)), IdsOf(Delivered(list, n + 1));
    IdsOfConcat(Delivered(list, n), list(n).delivered);
    SubsetCount(before, universe);
    if GoesOn(list, n) {
      ProperSubsetCount(before, after);
      ProperSubsetCount(universe - after, universe - before);
    }
  }

  /** Lists until a listing fails or brings nothing new. The handlers get every document that was
      delivered, once, as it was first delivered; on every return they have ended. */
  method WalkDocuments(list: nat -> Listing, pool: Pool, ended: nat -> nat -> set<nat>, ghost universe: set<int64>)
    returns (passes: nat, err: Option<Error>)
    requires pool.Valid() && pool.started == [] && pool.running == {}
    requires forall n: nat :: IdsOf(list(n).delivered) <= universe
    modifies pool
    ensures pool.running == {}
    ensures 1 <= passes <= |universe| + 1
    ensures pool.started == Firsts(Delivered(list, passes))
    ensures DistinctIds(pool.started) && IdsOf(pool.started) == IdsOf(Delivered(list, passes))
    ensures err == list(passes - 1).err
    ensures forall n: nat | n < passes - 1 :: GoesOn(list, n)
    ensures !GoesOn(list, passes - 1)
    ensures err.None? ==> IdsOf(list(passes - 1).delivered) <= IdsOf(Delivered(list, passes - 1))
  {
    hide IdsOf, Firsts, DistinctIds;
    var seen: set<int64> := {};
    var n: nat := 0;
    NothingDelivered();
    while true
      invariant pool.Valid()
      invariant pool.started == Firsts(Delivered(list, n)) && seen == IdsOf(Delivered(list, n))
      invariant forall k: nat | k < n :: GoesOn(list, k)
      invariant seen <= universe && n <= |seen|
      decreases |universe - seen|
    {
      ListingGrows(list, n, universe);
      var found;
      seen, found := Pass(list(n), seen, pool, ended(n), Delivered(list, n));
      if list(n).err.Some? || !found {
        pool.Wait();
        FirstsMeaning(Delivered(list, n + 1));
        return n + 1, list(n).err;
      }
      n := n + 1;
    }
  }

  lemma NothingDelivered()
    ensures Firsts([]) == [] && IdsOf([]) == {}
  {
  }

  /** If the last listing of a walk that ended well delivered every tagged document, every tagged
      document was handled. */
  lemma QuiescentWalkIsComplete(list: nat -> Listing, passes: nat, tagged: set<int64>)
    requires passes > 0 && !GoesOn(list, passes - 1) && list(passes - 1).err.None?
    requires tagged <= IdsOf(list(passes - 1).delivered)
    ensures tagged <= IdsOf(Firsts(Delivered(list, passes - 1)))
  {
    FirstsMeaning(Delivered(list, passes - 1));
  }
}
