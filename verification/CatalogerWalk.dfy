/** Per-document exclusion in every run of the cataloger. */
module CatalogerWalk {
  import opened Common
  import opened Cataloger

  /** Handlers work on different documents, all seen by the present walk, within the pool's
      bound; between walks there are none. */
  ghost predicate Exclusive(cfg: Config, s: State) {
    && (forall h | h in s.handlers :: h < s.nextHandler && s.handlers[h].Id() in s.seen)
    && (forall g, h | g in s.handlers && h in s.handlers && g != h :: s.handlers[g].Id() != s.handlers[h].Id())
    && (s.walk.Idle? ==> s.handlers == map[])
    && (!s.walk.Listing? ==> s.page == [])
    && |s.handlers| <= cfg.workers
  }

  lemma OtherActionsKeepHandlers(cfg: Config, s: State, a: Action)
    requires Enabled(cfg, s, a)
    requires a.Tick? || a.ForeignWrite? || a.HandlerStep? || a.StartPrune? || a.FinishPrune?
    ensures KeepsHandlers(s, Do(cfg, s, a))
  {
  }

  lemma KeptHandlersStayExclusive(cfg: Config, s: State, t: State)
    requires Exclusive(cfg, s) && KeepsHandlers(s, t)
    ensures Exclusive(cfg, t)
  {
    SubsetCount(t.handlers.Keys, s.handlers.Keys);
    assert |t.handlers| == |t.handlers.Keys| && |s.handlers| == |s.handlers.Keys|;
    if s.walk.Idle? {
      assert t.handlers.Keys == {};
    }
  }

  lemma NewHandlerCount(handlers: map<nat, Handler>, h: nat, x: Handler)
    requires h !in handlers
    ensures |handlers[h := x]| == |handlers| + 1
  {
    assert handlers[h := x].Keys == handlers.Keys + {h};
    assert |handlers[h := x]| == |handlers[h := x].Keys| && |handlers| == |handlers.Keys|;
  }

  lemma DeliverKeepsExclusive(cfg: Config, s: State)
    requires Exclusive(cfg, s) && s.page != [] && (s.page[0].doc.id in s.seen || |s.handlers| < cfg.workers)
    ensures Exclusive(cfg, DoDeliver(s))
  {
    var t := DoDeliver(s);
    if s.page[0].doc.id !in s.seen {
      NewHandlerCount(s.handlers, s.nextHandler, Handler(s.page[0], Queued));
      forall h | h in t.handlers && h != s.nextHandler
        ensures h in s.handlers && t.handlers[h] == s.handlers[h] && t.handlers[h].Id() != s.page[0].doc.id
      {
      }
    }
  }

  lemma StepKeepsExclusive(cfg: Config, s: State, a: Action)
    requires Exclusive(cfg, s) && Enabled(cfg, s, a)
    ensures Exclusive(cfg, Do(cfg, s, a))
  {
    if a.Deliver? {
      DeliverKeepsExclusive(cfg, s);
    } else if a.Tick? || a.ForeignWrite? || a.HandlerStep? || a.StartPrune? || a.FinishPrune? {
      OtherActionsKeepHandlers(cfg, s, a);
      KeptHandlersStayExclusive(cfg, s, Do(cfg, s, a));
    }
  }
}
