/** The record store: a map from keys to records whose operations are atomic. */
module Store {
  import opened Common
  import opened Utf8
  import opened TaskKey

  type Records = map<Bytes, DocumentTask>

  /** The records a prune deletes. */
  function Expired(recs: Records, before: Instant): set<Bytes> {
    set k | k in recs && recs[k].recordUpdated < before
  }

  function Pruned(recs: Records, before: Instant): Records {
    recs - Expired(recs, before)
  }

  datatype PruneFault = NoFault | CountFails | DeleteFails

  class Store {
    var recs: Records

    constructor ()
      ensures recs == map[]
    {
      recs := map[];
    }

    method Get(key: Bytes) returns (rec: Option<DocumentTask>)
      ensures rec == if key in recs then Some(recs[key]) else None
    {
      rec := if key in recs then Some(recs[key]) else None;
    }

    method Upsert(key: Bytes, rec: DocumentTask)
      modifies this
      ensures recs == old(recs)[key := rec]
    {
      recs := recs[key := rec];
    }

    /** Counts the matching records and deletes them; a failing transaction changes nothing. */
    method Prune(deleteUpdatedBefore: Instant, fault: PruneFault) returns (ok: bool)
      modifies this
      ensures ok <==> fault.NoFault? || (fault.DeleteFails? && Expired(old(recs), deleteUpdatedBefore) == {})
      ensures recs == if ok then Pruned(old(recs), deleteUpdatedBefore) else old(recs)
    {
      if fault.CountFails? {
        return false;
      }
      var matching := Expired(recs, deleteUpdatedBefore);
      if |matching| == 0 {
        return true;
      }
      if fault.DeleteFails? {
        return false;
      }
      while matching != {}
        invariant matching <= old(recs).Keys
        invariant recs == old(recs) - (Expired(old(recs), deleteUpdatedBefore) - matching)
        decreases matching
      {
        var key :| key in matching;
        recs := recs - {key};
        matching := matching - {key};
      }
      return true;
    }
  }

  /** A prune keeps exactly the records updated at or after the cutoff, unchanged. */
  lemma PruneKeepsExactly(recs: Records, before: Instant)
    ensures forall k :: k in Pruned(recs, before) <==> k in recs && recs[k].recordUpdated >= before
    ensures forall k | k in Pruned(recs, before) :: Pruned(recs, before)[k] == recs[k]
  {
  }

  /** Two prunes have the effect of the one with the later cutoff. */
  lemma PrunesCompose(recs: Records, a: Instant, b: Instant)
    ensures Pruned(Pruned(recs, a), b) == Pruned(recs, if a <= b then b else a)
  {
    var max := if a <= b then b else a;
    forall k
      ensures k in Pruned(Pruned(recs, a), b) <==> k in Pruned(recs, max)
    {
      PruneKeepsExactly(recs, a);
      PruneKeepsExactly(recs, max);
    }
  }
}
