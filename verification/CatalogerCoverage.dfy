/** Which documents a walk hands to handlers. */
module CatalogerCoverage {
  import opened Common
  import opened Documents
  import opened Cataloger
  import opened CatalogerConflicts
  import opened CatalogerTheorems

  /** The IDs that pages of the run delivered. */
  function Fetched(actions: seq<Action>): set<int64> {
    if actions == [] then {}
    else (if actions[0].FetchPage? then Elements(actions[0].ids) else {}) + Fetched(actions[1..])
  }

  function PageIds(page: seq<Listed>): set<int64> {
    set l | l in page :: l.doc.id
  }

  /** The action neither starts another walk nor breaks a listing off. */
  predicate InWalk(a: Action) {
    !a.StartWalk? && !a.ListingFails?
  }

  predicate AllInWalk(actions: seq<Action>) {
    forall i | 0 <= i < |actions| :: InWalk(actions[i])
  }

  /** The action changes no document. */
  predicate ChangesNothing(a: Action) {
    && !a.ForeignWrite?
    && (a.HandlerStep? ==> !a.move.SendPatch? && !(a.move.PatchFails? && a.move.applied.Some?))
  }

  predicate AllChangeNothing(actions: seq<Action>) {
    forall i | 0 <= i < |actions| :: ChangesNothing(actions[i])
  }

  /** What a page delivered is seen, or still on the page. */
  function Known(s: State): set<int64> {
    s.seen + PageIds(s.page)
  }

  lemma FetchKeepsKnown(s: State, ids: seq<int64>)
    requires s.page == [] && Tracking(s) && forall i | 0 <= i < |ids| :: ids[i] in s.server
    ensures Known(s) + Elements(ids) <= Known(DoFetchPage(s, ids))
  {
    var t := DoFetchPage(s, ids);
    forall id | id in ids
      ensures id in PageIds(t.page)
    {
      var i :| 0 <= i < |ids| && ids[i] == id;
      assert t.page[i] in t.page && t.page[i].doc.id == id;
    }
  }

  lemma DeliverKeepsKnown(s: State)
    requires s.page != []
    ensures Known(s) <= Known(DoDeliver(s))
  {
    var t := DoDeliver(s);
    forall l | l in s.page
      ensures l.doc.id in Known(t)
    {
      var i :| 0 <= i < |s.page| && s.page[i] == l;
      if i > 0 {
        assert t.page[i - 1] == l && l in t.page;
      }
    }
  }

  lemma OtherStepKeepsKnown(cfg: Config, s: State, a: Action)
    requires Enabled(cfg, s, a) && InWalk(a) && !a.FetchPage? && !a.Deliver?
    ensures var t := Do(cfg, s, a); t.seen == s.seen && t.page == s.page
  {
    hide DoMove, DoFinishPrune, DoForeignWrite, CanMove;
  }

  lemma StepKeepsKnown(cfg: Config, s: State, a: Action)
    requires Enabled(cfg, s, a) && InWalk(a) && Tracking(s)
    ensures Known(s) + Fetched([a]) <= Known(Do(cfg, s, a))
  {
    hide DoMove, DoFinishPrune, DoForeignWrite, CanMove, Tracking, Known, DoDeliver, DoFetchPage;
    assert [a][1..] == [];
    match a
    case FetchPage(ids) => FetchKeepsKnown(s, ids);
    case Deliver => DeliverKeepsKnown(s);
    case _ => SameKnown(cfg, s, a);
  }

  lemma SameKnown(cfg: Config, s: State, a: Action)
    requires Enabled(cfg, s, a) && InWalk(a) && !a.FetchPage? && !a.Deliver?
    ensures Known(Do(cfg, s, a)) == Known(s)
  {
    hide Do, Enabled;
    OtherStepKeepsKnown(cfg, s, a);
  }

  lemma {:induction false} RunKeepsKnown(cfg: Config, s: State, actions: seq<Action>, t: State)
    requires Inv(cfg, s) && Runs(cfg, s, actions, t) && AllInWalk(actions)
    ensures Known(s) + Fetched(actions) <= Known(t)
    decreases |actions|
  {
    hide Do, Enabled, Inv, Known, Tracking, InWalk;
    if actions != [] {
      InvParts(cfg, s);
      StepInv(cfg, s, actions[0]);
      assert InWalk(actions[0]);
      StepKeepsKnown(cfg, s, actions[0]);
      FetchedSplit(actions);
      TailInWalk(actions);
      RunKeepsKnown(cfg, Do(cfg, s, actions[0]), actions[1..], t);
    }
  }

  lemma TailInWalk(actions: seq<Action>)
    requires AllInWalk(actions) && actions != []
    ensures AllInWalk(actions[1..])
  {
  }

  lemma FetchedSplit(actions: seq<Action>)
    requires actions != []
    ensures Fetched(actions) == Fetched([actions[0]]) + Fetched(actions[1..])
  {
    assert [actions[0]][1..] == [];
  }

  /** In every run within one walk: when the last page is used up, everything that pages delivered
      has been handed out. */
  lemma DeliveredIsSeen(cfg: Config, s: State, actions: seq<Action>, t: State)
    requires Reachable(cfg, s) && Runs(cfg, s, actions, t) && AllInWalk(actions) && t.page == []
    ensures Fetched(actions) <= t.seen
  {
    hide Reachable, Runs, Inv;
    ReachableInv(cfg, s);
    RunKeepsKnown(cfg, s, actions, t);
  }

  /** An ID becomes seen only by starting a handler for it. */
  lemma SeenStartsHandler(cfg: Config, s: State, a: Action, id: int64)
    requires Enabled(cfg, s, a) && InWalk(a) && id !in s.seen && id in Do(cfg, s, a).seen
    ensures var t := Do(cfg, s, a);
            && a.Deliver? && t.nextHandler == s.nextHandler + 1 && s.nextHandler in t.handlers
            && t.handlers[s.nextHandler].pc.Queued? && t.handlers[s.nextHandler].Id() == id
  {
    hide DoMove, DoFinishPrune, DoForeignWrite, CanMove;
    if !a.Deliver? && !a.FetchPage? {
      OtherStepKeepsKnown(cfg, s, a);
    }
  }

  lemma MoveChangesNothing(cfg: Config, s: State, h: nat, m: Move)
    requires CanMove(s, h, m) && ChangesNothing(HandlerStep(h, m))
    ensures DoMove(cfg, s, h, m).server == s.server
  {
    hide DoPassGate, DoSave, DoExtract, DoSendError, DoReadMetadata, DoSendPatch, LocalTo, KeepsHandlers, SameRecords, SameAttempt;
  }

  lemma StepChangesNothing(cfg: Config, s: State, a: Action)
    requires Enabled(cfg, s, a) && ChangesNothing(a)
    ensures Do(cfg, s, a).server == s.server
  {
    hide DoMove, DoFinishPrune, CanMove;
    if a.HandlerStep? {
      MoveChangesNothing(cfg, s, a.h, a.move);
    }
  }

  lemma {:induction false} RunChangesNothing(cfg: Config, s: State, actions: seq<Action>, t: State)
    requires Runs(cfg, s, actions, t) && AllChangeNothing(actions)
    ensures t.server == s.server
    decreases |actions|
  {
    hide Do, Enabled, ChangesNothing;
    if actions != [] {
      assert ChangesNothing(actions[0]);
      StepChangesNothing(cfg, s, actions[0]);
      assert AllChangeNothing(actions[1..]);
      RunChangesNothing(cfg, Do(cfg, s, actions[0]), actions[1..], t);
    }
  }

  /** A pass of a walk during which no document changes, and whose pages cover the documents with
      the todo tag: when its pages are used up, every document that still has the tag has been
      handed to a handler of this walk. */
  lemma QuiescentPassHandlesAll(cfg: Config, s: State, actions: seq<Action>, t: State)
    requires Reachable(cfg, s) && s.walk.Listing? && s.page == [] && Runs(cfg, s, actions, t)
    requires AllInWalk(actions) && AllChangeNothing(actions) && t.page == []
    requires forall id | id in s.server && cfg.settings.todo in s.server[id].doc.tags :: id in Fetched(actions)
    ensures t.server == s.server
    ensures forall id | id in t.server && cfg.settings.todo in t.server[id].doc.tags :: id in t.seen
  {
    hide Reachable, Runs;
    DeliveredIsSeen(cfg, s, actions, t);
    RunChangesNothing(cfg, s, actions, t);
  }
}
