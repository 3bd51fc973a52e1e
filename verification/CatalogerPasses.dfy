/** A walk of the machine is a walk of the loop: as many passes, and the same documents. */
module CatalogerPasses {
  import opened Common
  import opened Documents
  import opened Cataloger
  import opened CatalogerWalk
  import opened CatalogerCoverage
  import opened CatalogerTheorems
  import opened Walk

  // ---------------------------------------------------------------- how many passes

  function Passes(actions: seq<Action>): nat {
    if actions == [] then 0 else Passes(actions[1..]) + if actions[0].EndPass? then 1 else 0
  }

  /** The passes that can still end without another document: one for what was found, and the last. */
  function PassesDue(w: Cataloger.Walk): nat {
    match w
    case Listing(found) => if found then 2 else 1
    case _ => 0
  }

  lemma StepPasses(cfg: Config, s: State, a: Action)
    requires Exclusive(cfg, s) && Enabled(cfg, s, a) && InWalk(a)
    ensures var t := Do(cfg, s, a);
            && s.seen <= t.seen
            && (if a.EndPass? then 1 else 0) + PassesDue(t.walk) + |s.seen| <= PassesDue(s.walk) + |t.seen|
  {
    hide DoMove, DoFinishPrune, DoForeignWrite, DoFetchPage, CanMove;
    if a.Deliver? && s.page[0].doc.id !in s.seen {
      assert Do(cfg, s, a).seen == s.seen + {s.page[0].doc.id};
    }
  }

  lemma {:induction false} RunPasses(cfg: Config, s: State, actions: seq<Action>, t: State)
    requires Inv(cfg, s) && Runs(cfg, s, actions, t) && AllInWalk(actions)
    ensures s.seen <= t.seen
    ensures Passes(actions) + |s.seen| <= PassesDue(s.walk) + |t.seen|
    decreases |actions|
  {
    hide Do, Enabled, Inv, InWalk, Exclusive;
    if actions != [] {
      assert InWalk(actions[0]);
      InvParts(cfg, s);
      StepInv(cfg, s, actions[0]);
      StepPasses(cfg, s, actions[0]);
      assert AllInWalk(actions[1..]);
      RunPasses(cfg, Do(cfg, s, actions[0]), actions[1..], t);
    }
  }

  /** In every run a walk over a finite set of IDs ends within their number plus one passes. */
  lemma WalkEndsWithin(cfg: Config, s: State, actions: seq<Action>, t: State, universe: set<int64>)
    requires Reachable(cfg, s) && s.walk == Cataloger.Listing(false) && s.seen == {}
    requires Runs(cfg, s, actions, t) && AllInWalk(actions) && t.seen <= universe
    ensures Passes(actions) <= |universe| + 1
  {
    hide Reachable, Runs, Inv;
    ReachableInv(cfg, s);
    RunPasses(cfg, s, actions, t);
    SubsetCount(t.seen, universe);
  }

  // ---------------------------------------------------------------- which documents

  /** What an action takes off the page. */
  function Taken(s: State, a: Action): seq<Document> {
    if a.Deliver? && s.page != [] then [s.page[0].doc] else []
  }

  /** The document for which a handler was started, if one was. */
  function NewHandler(s: State, t: State): seq<Document> {
    if t.nextHandler > s.nextHandler && s.nextHandler in t.handlers then [t.handlers[s.nextHandler].listed.doc] else []
  }

  /** What the pages of a run delivered, in order. */
  ghost function PageStream(cfg: Config, s: State, actions: seq<Action>): seq<Document>
    decreases |actions|
  {
    if actions == [] || !Enabled(cfg, s, actions[0]) then []
    else Taken(s, actions[0]) + PageStream(cfg, Do(cfg, s, actions[0]), actions[1..])
  }

  /** The documents for which the run started handlers, in order. */
  ghost function Started(cfg: Config, s: State, actions: seq<Action>): seq<Document>
    decreases |actions|
  {
    if actions == [] || !Enabled(cfg, s, actions[0]) then []
    else
      var t := Do(cfg, s, actions[0]);
      NewHandler(s, t) + Started(cfg, t, actions[1..])
  }

  lemma StepStream(cfg: Config, s: State, a: Action, before: seq<Document>)
    requires Enabled(cfg, s, a) && InWalk(a) && s.seen == IdsOf(before)
    ensures var t := Do(cfg, s, a);
            && t.seen == IdsOf(before + Taken(s, a))
            && Firsts(before + Taken(s, a)) == Firsts(before) + NewHandler(s, t)
  {
    hide IdsOf, Firsts;
    if a.Deliver? {
      DeliverStream(s, before);
    } else {
      NoStream(cfg, s, a);
      assert before + [] == before && Firsts(before) + [] == Firsts(before);
    }
  }

  lemma NoStream(cfg: Config, s: State, a: Action)
    requires Enabled(cfg, s, a) && InWalk(a) && !a.Deliver?
    ensures Do(cfg, s, a).seen == s.seen && Do(cfg, s, a).nextHandler == s.nextHandler
  {
    hide DoMove, DoFinishPrune, DoForeignWrite, DoFetchPage, CanMove;
  }

  lemma DeliverStream(s: State, before: seq<Document>)
    requires s.page != [] && s.seen == IdsOf(before)
    ensures var t := DoDeliver(s);
            && t.seen == IdsOf(before + [s.page[0].doc])
            && Firsts(before + [s.page[0].doc]) == Firsts(before) + NewHandler(s, t)
  {
    hide IdsOf, Firsts;
    var d := s.page[0].doc;
    FirstsAppend(before, d);
    FirstsMeaning(before);
    IdsOfAppend(before, d);
    if d.id in s.seen {
      assert s.seen + {d.id} == s.seen;
      assert Firsts(before) + [] == Firsts(before);
    }
  }

  lemma {:induction false} RunStream(cfg: Config, s: State, actions: seq<Action>, t: State, before: seq<Document>)
    requires Runs(cfg, s, actions, t) && AllInWalk(actions) && s.seen == IdsOf(before)
    ensures t.seen == IdsOf(before + PageStream(cfg, s, actions))
    ensures Firsts(before + PageStream(cfg, s, actions)) == Firsts(before) + Started(cfg, s, actions)
    decreases |actions|
  {
    hide Do, Enabled, InWalk, IdsOf, Firsts, Taken, NewHandler;
    if actions == [] {
      assert before + [] == before && Firsts(before) + [] == Firsts(before);
    } else {
      assert InWalk(actions[0]);
      var u, taken := Do(cfg, s, actions[0]), Taken(s, actions[0]);
      StepStream(cfg, s, actions[0], before);
      assert AllInWalk(actions[1..]);
      RunStream(cfg, u, actions[1..], t, before + taken);
      var rest := PageStream(cfg, u, actions[1..]);
      assert before + (taken + rest) == (before + taken) + rest;
      assert Firsts(before) + (NewHandler(s, u) + Started(cfg, u, actions[1..]))
             == (Firsts(before) + NewHandler(s, u)) + Started(cfg, u, actions[1..]);
    }
  }

  /** In every run of a walk from its beginning, the handlers get exactly the documents that the
      loop hands out for the same pages: each ID once, as it was first delivered. */
  lemma WalkStartsFirsts(cfg: Config, s: State, actions: seq<Action>, t: State)
    requires s.seen == {} && Runs(cfg, s, actions, t) && AllInWalk(actions)
    ensures Started(cfg, s, actions) == Firsts(PageStream(cfg, s, actions))
    ensures t.seen == IdsOf(PageStream(cfg, s, actions)) && DistinctIds(Started(cfg, s, actions))
  {
    hide Runs, AllInWalk;
    NothingDelivered();
    RunStream(cfg, s, actions, t, []);
    var stream := PageStream(cfg, s, actions);
    assert [] + stream == stream;
    FirstsMeaning(stream);
  }
}
