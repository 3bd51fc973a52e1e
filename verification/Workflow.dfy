/** The cataloger under its poll loop: every poll is one walk, and walks start in polls only. */
module Workflow {
  import opened Delays
  import P = Poller
  import C = Cataloger
  import opened CatalogerTheorems
  import opened CatalogerRuns

  /** `walked` says that the present poll has started its walk; a poll that cannot resolve the todo
      tag ends without one. */
  datatype State = State(poller: P.State, cataloger: C.State, walked: bool)

  datatype Action =
    | Loop(turn: P.Action)
    | StartWalk
    | Work(step: C.Action)
    | Advance(dt: nat)

  /** The function given to the poll loop returns when its walk has ended, and until then the loop
      waits. Nothing is asked of the state of the cataloger when a walk starts. */
  predicate Enabled(cfg: C.Config, s: State, a: Action) {
    match a
    case Loop(b) => P.Enabled(s.poller, b) && !b.Advance? && (b.EndPoll? ==> s.cataloger.walk.Idle?)
    case StartWalk => s.poller.pc.Polling? && !s.walked
    case Work(b) => C.Enabled(cfg, s.cataloger, b) && !b.StartWalk? && !b.Tick?
    case Advance(_) => true
  }

  /** A new walk, whatever went on before. */
  function NewWalk(c: C.State): C.State {
    c.(walk := C.Listing(false), seen := {}, page := [])
  }

  ghost function Do(cfg: C.Config, o: Options, s: State, a: Action): State
    requires Enabled(cfg, s, a)
  {
    match a
    case Loop(b) =>
      var p := P.Do(o, s.poller, b);
      State(p, s.cataloger, if |p.begins| > |s.poller.begins| then false else s.walked)
    case StartWalk => State(s.poller, NewWalk(s.cataloger), true)
    case Work(b) => s.(cataloger := C.Do(cfg, s.cataloger, b))
    case Advance(dt) => State(s.poller.(now := s.poller.now + dt), s.cataloger.(now := s.cataloger.now + dt), s.walked)
  }

  ghost predicate Init(cfg: C.Config, s: State) {
    P.Init(s.poller) && C.Init(cfg, s.cataloger) && !s.walked
  }

  ghost predicate Runs(cfg: C.Config, o: Options, s0: State, actions: seq<Action>, s: State)
    decreases |actions|
  {
    if actions == [] then s == s0
    else Enabled(cfg, s0, actions[0]) && Runs(cfg, o, Do(cfg, o, s0, actions[0]), actions[1..], s)
  }

  ghost predicate Reachable(cfg: C.Config, o: Options, s: State) {
    exists s0, actions :: Init(cfg, s0) && Runs(cfg, o, s0, actions, s)
  }

  // ---------------------------------------------------------------- walks do not overlap

  /** A walk goes on only while the poll that started it has not returned. */
  predicate OneWalkPerPoll(s: State) {
    !(s.poller.pc.Polling? && s.walked) ==> s.cataloger.walk.Idle?
  }

  lemma LoopKeepsOneWalk(cfg: C.Config, o: Options, s: State, b: P.Action)
    requires OneWalkPerPoll(s) && Enabled(cfg, s, Loop(b))
    ensures OneWalkPerPoll(Do(cfg, o, s, Loop(b)))
  {
    hide DelayOf;
  }

  lemma WorkStaysIdle(cfg: C.Config, c: C.State, b: C.Action)
    requires C.Enabled(cfg, c, b) && !b.StartWalk? && c.walk.Idle? && c.page == []
    ensures C.Do(cfg, c, b).walk.Idle?
  {
    hide C.DoMove, C.DoFinishPrune, C.DoForeignWrite, C.CanMove, C.DoFetchPage;
  }

  /** Both machines keep their invariants, and a walk starts when none goes on. */
  ghost predicate Inv(cfg: C.Config, o: Options, s: State) {
    P.Inv(o, s.poller) && CatalogerTheorems.Inv(cfg, s.cataloger) && OneWalkPerPoll(s)
  }

  lemma IdleHasNoPage(cfg: C.Config, c: C.State)
    requires CatalogerTheorems.Inv(cfg, c) && c.walk.Idle?
    ensures c.page == []
  {
  }

  lemma WorkInv(cfg: C.Config, o: Options, s: State, b: C.Action)
    requires Inv(cfg, o, s) && Enabled(cfg, s, Work(b))
    ensures Inv(cfg, o, Do(cfg, o, s, Work(b)))
  {
    hide CatalogerTheorems.Inv, P.Inv, C.Do, C.Enabled;
    StepInv(cfg, s.cataloger, b);
    if s.cataloger.walk.Idle? {
      IdleHasNoPage(cfg, s.cataloger);
      WorkStaysIdle(cfg, s.cataloger, b);
    }
  }

  lemma WalkInv(cfg: C.Config, o: Options, s: State)
    requires Inv(cfg, o, s) && Enabled(cfg, s, StartWalk)
    ensures C.Enabled(cfg, s.cataloger, C.StartWalk) && NewWalk(s.cataloger) == C.Do(cfg, s.cataloger, C.StartWalk)
    ensures Inv(cfg, o, Do(cfg, o, s, StartWalk))
  {
    hide CatalogerTheorems.Inv, P.Inv;
    StepInv(cfg, s.cataloger, C.StartWalk);
  }

  lemma AdvanceInv(cfg: C.Config, o: Options, s: State, dt: nat)
    requires Inv(cfg, o, s)
    ensures Inv(cfg, o, Do(cfg, o, s, Advance(dt)))
  {
    hide CatalogerTheorems.Inv, P.Inv;
    StepInv(cfg, s.cataloger, C.Tick(dt));
    P.StepInv(o, s.poller, P.Advance(dt));
  }

  lemma ComposedStepInv(cfg: C.Config, o: Options, s: State, a: Action)
    requires Inv(cfg, o, s) && Enabled(cfg, s, a)
    ensures Inv(cfg, o, Do(cfg, o, s, a))
  {
    match a
    case Loop(b) =>
      hide CatalogerTheorems.Inv, P.Inv, P.Do, P.Enabled, OneWalkPerPoll;
      P.StepInv(o, s.poller, b);
      LoopKeepsOneWalk(cfg, o, s, b);
    case StartWalk => WalkInv(cfg, o, s);
    case Work(b) => WorkInv(cfg, o, s, b);
    case Advance(dt) => AdvanceInv(cfg, o, s, dt);
  }

  lemma {:induction false} ComposedRunInv(cfg: C.Config, o: Options, s0: State, actions: seq<Action>, s: State)
    requires Inv(cfg, o, s0) && Runs(cfg, o, s0, actions, s)
    ensures Inv(cfg, o, s)
    decreases |actions|
  {
    hide Do, Enabled, Inv;
    if actions != [] {
      ComposedStepInv(cfg, o, s0, actions[0]);
      ComposedRunInv(cfg, o, Do(cfg, o, s0, actions[0]), actions[1..], s);
    }
  }

  lemma ComposedReachableInv(cfg: C.Config, o: Options, s: State)
    requires Reachable(cfg, o, s)
    ensures Inv(cfg, o, s)
  {
    hide Runs, P.Inv, CatalogerTheorems.Inv, P.Init, C.Init;
    var s0, actions :| Init(cfg, s0) && Runs(cfg, o, s0, actions, s);
    P.InitInv(o, s0.poller);
    InitInv(cfg, s0.cataloger);
    InitIdle(cfg, s0.cataloger);
    ComposedRunInv(cfg, o, s0, actions, s);
  }

  lemma InitIdle(cfg: C.Config, c: C.State)
    requires C.Init(cfg, c)
    ensures c.walk.Idle?
  {
  }

  /** In every run of the composition, when a poll is to start its walk no walk goes on and no
      handler runs: the poll loop provides what the cataloger's machine asks for. */
  lemma WalksDoNotOverlap(cfg: C.Config, o: Options, s: State)
    requires Reachable(cfg, o, s)
    ensures Enabled(cfg, s, StartWalk) ==> C.Enabled(cfg, s.cataloger, C.StartWalk) && s.cataloger.handlers == map[]
    ensures !s.poller.pc.Polling? ==> s.cataloger.walk.Idle? && s.cataloger.handlers == map[]
  {
    ComposedReachableInv(cfg, o, s);
    InvParts(cfg, s.cataloger);
  }

  // ---------------------------------------------------------------- the parts run as they do alone

  lemma StepProjects(cfg: C.Config, o: Options, s: State, a: Action)
    requires Inv(cfg, o, s) && Enabled(cfg, s, a)
    ensures var t := Do(cfg, o, s, a);
            && (t.cataloger == s.cataloger || exists b :: C.Enabled(cfg, s.cataloger, b) && t.cataloger == C.Do(cfg, s.cataloger, b))
            && (t.poller == s.poller || exists b :: P.Enabled(s.poller, b) && t.poller == P.Do(o, s.poller, b))
  {
    hide C.Do, C.Enabled, P.Do, P.Enabled, CatalogerTheorems.Inv, P.Inv;
    match a
    case Loop(b) =>
    case StartWalk => WalkInv(cfg, o, s);
    case Work(b) =>
    case Advance(dt) => AdvanceIsStep(cfg, o, s, dt);
  }

  lemma AdvanceIsStep(cfg: C.Config, o: Options, s: State, dt: nat)
    ensures C.Enabled(cfg, s.cataloger, C.Tick(dt)) && s.cataloger.(now := s.cataloger.now + dt) == C.Do(cfg, s.cataloger, C.Tick(dt))
    ensures P.Enabled(s.poller, P.Advance(dt)) && s.poller.(now := s.poller.now + dt) == P.Do(o, s.poller, P.Advance(dt))
  {
  }

  lemma {:induction false} RunsProject(cfg: C.Config, o: Options, s0: State, actions: seq<Action>, s: State)
    requires Inv(cfg, o, s0) && Runs(cfg, o, s0, actions, s)
    requires C.Reachable(cfg, s0.cataloger) && P.Reachable(o, s0.poller)
    ensures C.Reachable(cfg, s.cataloger) && P.Reachable(o, s.poller)
    decreases |actions|
  {
    hide Do, Enabled, Inv, C.Do, C.Enabled, P.Do, P.Enabled, C.Reachable, P.Reachable;
    if actions != [] {
      var t := Do(cfg, o, s0, actions[0]);
      ComposedStepInv(cfg, o, s0, actions[0]);
      StepProjects(cfg, o, s0, actions[0]);
      if t.cataloger != s0.cataloger {
        var b :| C.Enabled(cfg, s0.cataloger, b) && t.cataloger == C.Do(cfg, s0.cataloger, b);
        CatalogerGoesOn(cfg, s0.cataloger, b);
      }
      if t.poller != s0.poller {
        var b :| P.Enabled(s0.poller, b) && t.poller == P.Do(o, s0.poller, b);
        PollerGoesOn(o, s0.poller, b);
      }
      RunsProject(cfg, o, t, actions[1..], s);
    }
  }

  lemma CatalogerGoesOn(cfg: C.Config, c: C.State, b: C.Action)
    requires C.Reachable(cfg, c) && C.Enabled(cfg, c, b)
    ensures C.Reachable(cfg, C.Do(cfg, c, b))
  {
    hide C.Reachable, C.Do, C.Enabled;
    NoActions(cfg, C.Do(cfg, c, b));
    FirstAction(cfg, c, b, C.Do(cfg, c, b), [], C.Do(cfg, c, b));
    ReachableAppend(cfg, c, [b] + [], C.Do(cfg, c, b));
  }

  lemma {:induction false} PollerAppend(o: Options, s: P.State, actions: seq<P.Action>, t: P.State, b: P.Action)
    requires P.Runs(o, s, actions, t) && P.Enabled(t, b)
    ensures P.Runs(o, s, actions + [b], P.Do(o, t, b))
    decreases |actions|
  {
    hide P.Do, P.Enabled;
    if actions == [] {
      assert (actions + [b])[0] == b && (actions + [b])[1..] == [];
    } else {
      assert (actions + [b])[1..] == actions[1..] + [b];
      PollerAppend(o, P.Do(o, s, actions[0]), actions[1..], t, b);
    }
  }

  lemma PollerGoesOn(o: Options, p: P.State, b: P.Action)
    requires P.Reachable(o, p) && P.Enabled(p, b)
    ensures P.Reachable(o, P.Do(o, p, b))
  {
    hide P.Runs, P.Init, P.Do, P.Enabled;
    var p0, actions :| P.Init(p0) && P.Runs(o, p0, actions, p);
    PollerAppend(o, p0, actions, p, b);
  }

  /** What is proved of all runs of the cataloger, and of all runs of the poller, holds of their
      composition. */
  lemma PartsAreReachable(cfg: C.Config, o: Options, s: State)
    requires Reachable(cfg, o, s)
    ensures C.Reachable(cfg, s.cataloger) && P.Reachable(o, s.poller)
  {
    hide Runs, P.Inv, CatalogerTheorems.Inv, P.Init, C.Init, C.Runs, P.Runs;
    var s0, actions :| Init(cfg, s0) && Runs(cfg, o, s0, actions, s);
    P.InitInv(o, s0.poller);
    InitInv(cfg, s0.cataloger);
    InitIdle(cfg, s0.cataloger);
    NoActions(cfg, s0.cataloger);
    NothingYet(o, s0.poller);
    assert C.Runs(cfg, s0.cataloger, [], s0.cataloger) && P.Runs(o, s0.poller, [], s0.poller);
    RunsProject(cfg, o, s0, actions, s);
  }

  lemma NothingYet(o: Options, p: P.State)
    ensures P.Runs(o, p, [], p)
  {
  }

  // ---------------------------------------------------------------- notifications

  /** A notification is answered by a walk that starts after it: within three steps of the loop a
      poll begins whose walk has not started, and then no other walk goes on. */
  lemma NotificationIsAnswered(cfg: C.Config, o: Options, s: State, b: P.Action)
    requires Reachable(cfg, o, s) && s.poller.pending && !s.poller.cancelled
    requires Enabled(cfg, s, Loop(b)) && P.IsLoopAction(b)
    ensures var t := Do(cfg, o, s, Loop(b));
            || (t.poller.pc.Polling? && |t.poller.begins| == |s.poller.begins| + 1
                && Enabled(cfg, t, StartWalk) && C.Enabled(cfg, t.cataloger, C.StartWalk))
            || (t.poller.begins == s.poller.begins && t.poller.pending
                && P.StepsLeft(t.poller.pc) < P.StepsLeft(s.poller.pc))
  {
    hide P.Reachable, C.Reachable, P.Do, P.Inv, CatalogerTheorems.Inv, Reachable;
    PartsAreReachable(cfg, o, s);
    P.NotifiedPollFollows(o, s.poller);
    ComposedReachableInv(cfg, o, s);
    ComposedStepInv(cfg, o, s, Loop(b));
  }
}
