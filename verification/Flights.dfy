/** Any number of callers of one resolver over the in-memory provider. Callers of the same name
    share a flight; one action is one step of a caller or of a flight. */
module Flights {
  import opened Common
  import opened Errors
  import opened MemProvider
  import opened Resolver

  datatype Kind = Get | GetOrCreate

  /** A flight that is done has its result but still takes joiners; once landed it does not. */
  datatype Stage =
    | FirstListing
    | Creating
    | SecondListing
    | Done(result: Result<Object, Error>)
    | Landed(result: Result<Object, Error>)

  /** A flight is led by the caller that found none in the air for its name; `kind` is the kind
      of that caller. */
  datatype Flight = Flight(name: string, kind: Kind, stage: Stage)

  /** A caller, the flight it leads or joined, and what it returned. */
  datatype Caller = Caller(name: string, kind: Kind, flight: nat, leads: bool, returned: Option<Result<Object, Error>>)

  datatype State = State(
    objects: Objects,
    lastId: int,
    flights: seq<Flight>,
    inAir: map<string, nat>,
    callers: seq<Caller>,
    // What follows only records the past.
    created: seq<string>)

  datatype Action =
    | Call(name: string, kind: Kind)
    | List(f: nat)
    | Create(f: nat)
    | ListAgain(f: nat)
    | Land(f: nat)
    | Return(c: nat)

  predicate At(s: State, f: nat, stage: Stage) {
    f < |s.flights| && s.flights[f].stage == stage
  }

  predicate Enabled(s: State, a: Action) {
    match a
    case Call(_, _) => true
    case List(f) => At(s, f, FirstListing)
    case Create(f) => At(s, f, Creating)
    case ListAgain(f) => At(s, f, SecondListing)
    case Land(f) => f < |s.flights| && s.flights[f].stage.Done?
    case Return(c) =>
      c < |s.callers| && s.callers[c].returned.None? && s.callers[c].flight < |s.flights| && s.flights[s.callers[c].flight].stage.Landed?
  }

  function WithStage(s: State, f: nat, stage: Stage): (t: State)
    requires f < |s.flights|
  {
    s.(flights := s.flights[f := s.flights[f].(stage := stage)])
  }

  /** The flight ends: its callers can return, and the next caller of the name leads a new one. */
  function Ended(s: State, f: nat): State
    requires f < |s.flights| && s.flights[f].stage.Done?
  {
    WithStage(s, f, Landed(s.flights[f].stage.result)).(inAir := s.inAir - {s.flights[f].name})
  }

  function Do(s: State, a: Action): State
    requires CallersFly(s) && Enabled(s, a)
  {
    match a
    case Call(name, kind) =>
      if name in s.inAir then
        s.(callers := s.callers + [Caller(name, kind, s.inAir[name], false, None)])
      else
        s.(flights := s.flights + [Flight(name, kind, FirstListing)],
           inAir := s.inAir[name := |s.flights|],
           callers := s.callers + [Caller(name, kind, |s.flights|, true, None)])
    case List(f) =>
      var found := GetFirst(ListOf(s.objects, s.flights[f].name));
      if s.flights[f].kind.Get? then WithStage(s, f, Done(found))
      else if found.Err? && IsNotFound(found.error) then WithStage(s, f, Creating)
      else WithStage(s, f, Done(Getting(found)))
    case Create(f) =>
      var name := s.flights[f].name;
      var err := CreateAnswer(s.objects, name);
      if err.Some? then WithStage(s, f, Done(Err(Wrapped("creating", err.value))))
      else
        WithStage(s, f, SecondListing).(objects := s.objects[name := Object(s.lastId + 1, name)],
                                        lastId := s.lastId + 1, created := s.created + [name])
    case ListAgain(f) => WithStage(s, f, Done(Getting(GetFirst(ListOf(s.objects, s.flights[f].name)))))
    case Land(f) => Ended(s, f)
    case Return(c) =>
      s.(callers := s.callers[c := s.callers[c].(returned := Some(s.flights[s.callers[c].flight].stage.result))])
  }

  /** No callers yet; the provider may hold objects already. */
  predicate Init(s: State) {
    && WellKept(s.objects, s.lastId)
    && s.flights == [] && s.inAir == map[] && s.callers == [] && s.created == []
  }

  predicate Runs(s0: State, actions: seq<Action>, s: State)
    decreases |actions|
  {
    if actions == [] then s == s0
    else CallersFly(s0) && Enabled(s0, actions[0]) && Runs(Do(s0, actions[0]), actions[1..], s)
  }

  ghost predicate Reachable(s: State) {
    exists s0, actions :: Init(s0) && Runs(s0, actions, s)
  }

  // ---------------------------------------------------------------- invariants

  predicate CallersFly(s: State) {
    && (forall n | n in s.inAir :: s.inAir[n] < |s.flights|)
    && (forall c | 0 <= c < |s.callers| :: s.callers[c].flight < |s.flights|)
  }

  /** Exactly the flights that have not landed are in the air, so there is one for each name. */
  predicate OneFlightPerName(s: State) {
    && (forall n | n in s.inAir ::
          s.inAir[n] < |s.flights| && s.flights[s.inAir[n]].name == n && !s.flights[s.inAir[n]].stage.Landed?)
    && (forall f | 0 <= f < |s.flights| && !s.flights[f].stage.Landed? ::
          s.flights[f].name in s.inAir && s.inAir[s.flights[f].name] == f)
  }

  /** What the stage of a flight says about its name. */
  predicate FlightOk(objects: Objects, x: Flight) {
    match x.stage
    case FirstListing => true
    case Creating => x.kind.GetOrCreate? && x.name !in objects
    case SecondListing => x.kind.GetOrCreate? && x.name in objects
    case Done(Ok(o)) => x.name in objects && objects[x.name] == o
    case Done(Err(e)) => x.kind.Get? && IsNotFound(e) && x.name !in objects
    case Landed(Ok(o)) => x.name in objects && objects[x.name] == o
    case Landed(Err(e)) => x.kind.Get? && IsNotFound(e)
  }

  /** Callers fly under their own name; they lead flights of their own kind and return what their
      flight landed with. */
  predicate CallerOk(s: State, x: Caller) {
    && x.flight < |s.flights|
    && s.flights[x.flight].name == x.name
    && (x.leads ==> s.flights[x.flight].kind == x.kind)
    && (x.returned.Some? ==> s.flights[x.flight].stage == Landed(x.returned.value))
  }

  /** Names were created once, and their objects are still there. */
  predicate CreatedOnce(s: State) {
    && (forall i | 0 <= i < |s.created| :: s.created[i] in s.objects)
    && (forall i, j | 0 <= i < j < |s.created| :: s.created[i] != s.created[j])
  }

  predicate Inv(s: State) {
    && WellKept(s.objects, s.lastId)
    && CreatedOnce(s)
    && CallersFly(s)
    && OneFlightPerName(s)
    && (forall f | 0 <= f < |s.flights| :: FlightOk(s.objects, s.flights[f]))
    && (forall c | 0 <= c < |s.callers| :: CallerOk(s, s.callers[c]))
  }

  /** Callers see no difference when a flight goes from one stage in the air to the next stage. */
  lemma FlyingOnKeepsCallers(s: State, t: State, f: nat)
    requires f < |s.flights| && !s.flights[f].stage.Landed?
    requires t.callers == s.callers && |t.flights| == |s.flights| && t.flights == s.flights[f := s.flights[f].(stage := t.flights[f].stage)]
    requires forall c | 0 <= c < |s.callers| :: CallerOk(s, s.callers[c])
    ensures forall c | 0 <= c < |t.callers| :: CallerOk(t, t.callers[c])
  {
  }

  lemma LandInv(s: State, f: nat)
    requires Inv(s) && Enabled(s, Land(f))
    ensures Inv(Do(s, Land(f)))
  {
    hide CallerOk, FlightOk, WellKept;
    LandedOk(s.objects, s.flights[f]);
    FlyingOnKeepsCallers(s, Ended(s, f), f);
  }

  lemma LandedOk(objects: Objects, x: Flight)
    requires FlightOk(objects, x) && x.stage.Done?
    ensures FlightOk(objects, x.(stage := Landed(x.stage.result)))
  {
  }

  lemma StageInv(s: State, f: nat, stage: Stage)
    requires Inv(s) && f < |s.flights| && !s.flights[f].stage.Landed? && !stage.Landed?
    requires FlightOk(s.objects, s.flights[f].(stage := stage))
    ensures Inv(WithStage(s, f, stage))
  {
    hide CallerOk, FlightOk, WellKept;
    FlyingOnKeepsCallers(s, WithStage(s, f, stage), f);
  }

  lemma ListInv(s: State, f: nat)
    requires Inv(s) && Enabled(s, List(f))
    ensures Inv(Do(s, List(f)))
  {
    hide Inv;
    var x := s.flights[f];
    var found := GetFirst(ListOf(s.objects, x.name));
    if x.kind.Get? {
      StageInv(s, f, Done(found));
    } else if found.Err? {
      StageInv(s, f, Creating);
    } else {
      StageInv(s, f, Done(Getting(found)));
    }
  }

  lemma NewObjectKeepsFlight(objects: Objects, o: Object, x: Flight)
    requires FlightOk(objects, x) && o.name !in objects && (x.stage.Creating? || x.stage.Done? ==> x.name != o.name)
    ensures FlightOk(objects[o.name := o], x)
  {
  }

  /** No other flight of the name is in the air, and the name has no object yet. */
  lemma CreateInv(s: State, f: nat)
    requires Inv(s) && Enabled(s, Create(f))
    ensures Inv(Do(s, Create(f)))
  {
    hide CallerOk, FlightOk;
    var t := Do(s, Create(f));
    var name := s.flights[f].name;
    assert FlightOk(s.objects, s.flights[f]);
    CreatingFlight(s.objects, s.flights[f]);
    FlyingOnKeepsCallers(s, t, f);
    forall g | 0 <= g < |t.flights|
      ensures FlightOk(t.objects, t.flights[g])
    {
      if g == f {
        SecondListingOk(t.objects, t.flights[f]);
      } else {
        NewObjectKeepsFlight(s.objects, Object(s.lastId + 1, name), s.flights[g]);
      }
    }
  }

  lemma CreatingFlight(objects: Objects, x: Flight)
    requires FlightOk(objects, x) && x.stage.Creating?
    ensures x.kind.GetOrCreate? && x.name !in objects
  {
  }

  lemma SecondListingOk(objects: Objects, x: Flight)
    requires x.stage.SecondListing? && x.kind.GetOrCreate? && x.name in objects
    ensures FlightOk(objects, x)
  {
  }

  lemma ListAgainInv(s: State, f: nat)
    requires Inv(s) && Enabled(s, ListAgain(f))
    ensures Inv(Do(s, ListAgain(f)))
  {
    hide WellKept, CallerOk;
    assert FlightOk(s.objects, s.flights[f]);
    StageInv(s, f, Done(Getting(GetFirst(ListOf(s.objects, s.flights[f].name)))));
  }

  lemma CallInv(s: State, name: string, kind: Kind)
    requires Inv(s)
    ensures Inv(Do(s, Call(name, kind)))
  {
    hide WellKept;
    var t := Do(s, Call(name, kind));
    forall c | 0 <= c < |t.callers|
      ensures CallerOk(t, t.callers[c])
    {
      if c < |s.callers| {
        assert CallerOk(s, s.callers[c]);
      }
    }
  }

  lemma ReturnInv(s: State, c: nat)
    requires Inv(s) && Enabled(s, Return(c))
    ensures Inv(Do(s, Return(c)))
  {
    hide WellKept, FlightOk;
    var t := Do(s, Return(c));
    forall d | 0 <= d < |t.callers|
      ensures CallerOk(t, t.callers[d])
    {
      assert CallerOk(s, s.callers[d]);
    }
  }

  lemma StepInv(s: State, a: Action)
    requires Inv(s) && Enabled(s, a)
    ensures Inv(Do(s, a))
  {
    hide CreatedOnce, WellKept, FlightOk, OneFlightPerName, CallerOk, Do;
    match a
    case Call(name, kind) => CallInv(s, name, kind);
    case List(f) => ListInv(s, f);
    case Create(f) => CreateInv(s, f);
    case ListAgain(f) => ListAgainInv(s, f);
    case Land(f) => LandInv(s, f);
    case Return(c) => ReturnInv(s, c);
  }

  lemma {:induction false} RunInv(s0: State, actions: seq<Action>, s: State)
    requires Inv(s0) && Runs(s0, actions, s)
    ensures Inv(s)
    decreases |actions|
  {
    hide Inv, Do, Enabled;
    if actions != [] {
      StepInv(s0, actions[0]);
      RunInv(Do(s0, actions[0]), actions[1..], s);
    }
  }

  lemma ReachableInv(s: State)
    requires Reachable(s)
    ensures Inv(s)
  {
    hide Runs;
    var s0, actions :| Init(s0) && Runs(s0, actions, s);
    assert Inv(s0);
    RunInv(s0, actions, s);
  }

  // ---------------------------------------------------------------- flights land

  function StepsToLand(stage: Stage): nat {
    match stage
    case FirstListing => 4
    case Creating => 3
    case SecondListing => 2
    case Done(_) => 1
    case Landed(_) => 0
  }

  /** A step that takes the flight on. */
  predicate StepOf(a: Action, f: nat) {
    match a
    case List(g) => g == f
    case Create(g) => g == f
    case ListAgain(g) => g == f
    case Land(g) => g == f
    case _ => false
  }

  /** A flight in the air can always go on, lands within four steps of its own, and its callers can
      return then, whatever the other callers and flights do. */
  lemma FlightsLand(s: State, f: nat)
    requires CallersFly(s) && f < |s.flights|
    ensures s.flights[f].stage.Landed? || Enabled(s, List(f)) || Enabled(s, Create(f)) || Enabled(s, ListAgain(f)) || Enabled(s, Land(f))
    ensures forall a | Enabled(s, a) ::
              && f < |Do(s, a).flights|
              && if StepOf(a, f) then StepsToLand(Do(s, a).flights[f].stage) < StepsToLand(s.flights[f].stage)
                 else Do(s, a).flights[f] == s.flights[f]
    ensures s.flights[f].stage.Landed? ==>
              forall c: nat | c < |s.callers| && s.callers[c].flight == f && s.callers[c].returned.None? :: Enabled(s, Return(c))
  {
    hide GetFirst, Getting, IsNotFound, CreateAnswer;
  }

  // ---------------------------------------------------------------- at most once

  /** In every interleaving every name is created at most once, and only if it had no object; so
      the provider never answers that the name exists already. */
  lemma CreatedAtMostOnce(s: State)
    requires Reachable(s)
    ensures forall i, j | 0 <= i < j < |s.created| :: s.created[i] != s.created[j]
    ensures forall f: nat | Enabled(s, Create(f)) ::
              s.flights[f].name !in s.objects && s.flights[f].name !in s.created
  {
    ReachableInv(s);
    forall f: nat | Enabled(s, Create(f))
      ensures s.flights[f].name !in s.objects
    {
      assert FlightOk(s.objects, s.flights[f]);
    }
  }

  /** A get-or-create call that leads its flight always succeeds. */
  lemma LeaderSucceeds(s: State, c: nat)
    requires Reachable(s) && c < |s.callers|
    requires s.callers[c].leads && s.callers[c].kind.GetOrCreate? && s.callers[c].returned.Some?
    ensures s.callers[c].returned.value.Ok?
  {
    ReachableInv(s);
    assert CallerOk(s, s.callers[c]) && FlightOk(s.objects, s.flights[s.callers[c].flight]);
  }

  /** Callers that shared a flight return the same. */
  lemma JoinersGetLeadersResult(s: State, c: nat, d: nat)
    requires Reachable(s) && c < |s.callers| && d < |s.callers| && s.callers[c].flight == s.callers[d].flight
    requires s.callers[c].returned.Some? && s.callers[d].returned.Some?
    ensures s.callers[c].returned == s.callers[d].returned
  {
    ReachableInv(s);
    assert CallerOk(s, s.callers[c]) && CallerOk(s, s.callers[d]);
  }

  /** Over a whole run, callers that succeed get the same object exactly when they asked for the
      same name, and IDs tell objects apart. */
  lemma SuccessesAgree(s: State, c: nat, d: nat)
    requires Reachable(s) && c < |s.callers| && d < |s.callers|
    requires s.callers[c].returned.Some? && s.callers[c].returned.value.Ok?
    requires s.callers[d].returned.Some? && s.callers[d].returned.value.Ok?
    ensures var o, p := s.callers[c].returned.value.value, s.callers[d].returned.value.value;
            && o.name == s.callers[c].name
            && (s.callers[c].name == s.callers[d].name <==> o == p)
            && (o.id == p.id <==> o == p)
  {
    ReachableInv(s);
    assert CallerOk(s, s.callers[c]) && FlightOk(s.objects, s.flights[s.callers[c].flight]);
    assert CallerOk(s, s.callers[d]) && FlightOk(s.objects, s.flights[s.callers[d].flight]);
  }

  // ---------------------------------------------------------------- when get-or-create fails

  /** What a caller will return is settled: an error, or the object. */
  predicate Settled(s: State, c: nat, ok: bool) {
    && c < |s.callers| && s.callers[c].flight < |s.flights|
    && var x := s.flights[s.callers[c].flight];
       match x.stage
       case Done(r) => r.Ok? == ok
       case Landed(r) => r.Ok? == ok
       case _ => if x.kind.Get? then (x.name in s.objects) == ok else ok
  }

  lemma StepStaysSettled(s: State, a: Action, c: nat, ok: bool)
    requires Inv(s) && Enabled(s, a) && Settled(s, c, ok)
    ensures Settled(Do(s, a), c, ok)
  {
    hide WellKept, CallerOk;
    var x := s.flights[s.callers[c].flight];
    assert FlightOk(s.objects, x);
    if a.Create? {
      assert FlightOk(s.objects, s.flights[a.f]);
    }
  }

  lemma {:induction false} RunStaysSettled(s0: State, actions: seq<Action>, s: State, c: nat, ok: bool)
    requires Inv(s0) && Runs(s0, actions, s) && Settled(s0, c, ok)
    ensures Settled(s, c, ok)
    decreases |actions|
  {
    hide Inv, Do, Enabled, Settled;
    if actions != [] {
      StepInv(s0, actions[0]);
      StepStaysSettled(s0, actions[0], c, ok);
      RunStaysSettled(Do(s0, actions[0]), actions[1..], s, c, ok);
    }
  }

  /** Whether a get-or-create call succeeds is decided when it is made: it fails exactly when it
      joins a flight led by GetByName while the name has no object. */
  lemma GetOrCreateFailsIff(s: State, name: string, actions: seq<Action>, t: State)
    requires Reachable(s)
    requires CallersFly(s) && Runs(Do(s, Call(name, GetOrCreate)), actions, t)
    requires |s.callers| < |t.callers| && t.callers[|s.callers|].returned.Some?
    ensures t.callers[|s.callers|].returned.value.Err? <==>
            name in s.inAir && s.flights[s.inAir[name]].kind.Get? && name !in s.objects
  {
    ReachableInv(s);
    var c := |s.callers|;
    var s1 := Do(s, Call(name, GetOrCreate));
    CallInv(s, name, GetOrCreate);
    var fails := name in s.inAir && s.flights[s.inAir[name]].kind.Get? && name !in s.objects;
    assert Settled(s1, c, !fails);
    RunStaysSettled(s1, actions, t, c, !fails);
    RunInv(s1, actions, t);
    assert CallerOk(t, t.callers[c]);
  }

  predicate Step(s: State, a: Action, t: State) {
    CallersFly(s) && Enabled(s, a) && Do(s, a) == t
  }

  lemma FiveSteps(s0: State, a: Action, s1: State, b: Action, s2: State, c: Action, s3: State, d: Action, s4: State, e: Action, t: State)
    requires Step(s0, a, s1) && Step(s1, b, s2) && Step(s2, c, s3) && Step(s3, d, s4) && Step(s4, e, t)
    ensures Runs(s0, [a, b, c, d, e], t)
  {
    hide Do, Enabled, CallersFly;
    assert [a, b, c, d, e][1..] == [b, c, d, e] && [b, c, d, e][1..] == [c, d, e] && [c, d, e][1..] == [d, e];
    assert [d, e][1..] == [e] && [e][1..] == [];
    assert Runs(t, [], t);
    assert Runs(s4, [e], t);
    assert Runs(s3, [d, e], t);
    assert Runs(s2, [c, d, e], t);
    assert Runs(s1, [b, c, d, e], t);
  }

  lemma CallSteps(name: string, s: State, flight: Flight, leader: Caller, joiner: Caller)
    requires Init(s) && flight == Flight(name, Get, FirstListing)
    requires leader == Caller(name, Get, 0, true, None) && joiner == Caller(name, GetOrCreate, 0, false, None)
    ensures var s1 := s.(flights := [flight], inAir := map[name := 0], callers := [leader]);
            Step(s, Call(name, Get), s1) && Step(s1, Call(name, GetOrCreate), s1.(callers := [leader, joiner]))
  {
    hide WellKept;
  }

  lemma LandSteps(s: State, flight: Flight, result: Result<Object, Error>)
    requires CallersFly(s) && s.flights == [flight] && s.inAir == map[flight.name := 0] && flight.kind.Get? && flight.stage.FirstListing?
    requires result == GetFirst(ListOf(s.objects, flight.name))
    ensures var s1 := s.(flights := [flight.(stage := Done(result))]);
            var s2 := s.(flights := [flight.(stage := Landed(result))], inAir := map[]);
            Step(s, List(0), s1) && Step(s1, Land(0), s2)
  {
  }

  lemma ReturnStep(s: State, c: nat)
    requires CallersFly(s) && Enabled(s, Return(c))
    ensures var result := s.flights[s.callers[c].flight].stage.result;
            Step(s, Return(c), s.(callers := s.callers[c := s.callers[c].(returned := Some(result))]))
  {
  }

  /** The case does happen: a get call and then a get-or-create call, both before the listing. */
  lemma JoinerMayGetNotFound(name: string, s0: State)
    requires Init(s0) && name !in s0.objects
    ensures exists t :: Runs(s0, [Call(name, Get), Call(name, GetOrCreate), List(0), Land(0), Return(1)], t)
                        && |t.callers| == 2 && t.callers[1].returned.Some? && t.callers[1].returned.value.Err?
  {
    hide Runs, WellKept, Enabled, Do;
    var flight, notFound := Flight(name, Get, FirstListing), GetFirst([]);
    var leader, joiner := Caller(name, Get, 0, true, None), Caller(name, GetOrCreate, 0, false, None);
    var s1 := s0.(flights := [flight], inAir := map[name := 0], callers := [leader]);
    var s2 := s1.(callers := [leader, joiner]);
    var s3 := s2.(flights := [flight.(stage := Done(notFound))]);
    var s4 := s2.(flights := [flight.(stage := Landed(notFound))], inAir := map[]);
    var t := s4.(callers := [leader, joiner.(returned := Some(notFound))]);
    CallSteps(name, s0, flight, leader, joiner);
    LandSteps(s2, flight, notFound);
    assert Step(s4, Return(1), t) by {
      ReturnStep(s4, 1);
    }
    FiveSteps(s0, Call(name, Get), s1, Call(name, GetOrCreate), s2, List(0), s3, Land(0), s4, Return(1), t);
  }
}
