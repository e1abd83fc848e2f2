/** What an MQTT connect puts on the broker when discovery may be refused for some of the devices. */
module BridgeRestating {
  import opened Text
  import opened Models
  import opened Addresses
  import opened StateSpec
  import opened StateRuns
  import opened StateHistory
  import opened BridgeSystem
  import opened BridgeRuns
  import opened BridgeDiscovery
  import opened BridgeRefusal
  import opened BridgeDisagreement

  /** The device is reached: it comes, in order, before the first one that is refused. */
  predicate Told(w: World, names: seq<string>, a: string)
    decreases |names|
  {
    names != [] && !Refused(w, names[0]) && (names[0] == a || Told(w, names[1..], a))
  }

  lemma {:induction false} ToldIsListed(w: World, names: seq<string>, a: string)
    requires Told(w, names, a)
    ensures a in names
    decreases |names|
  {
    if names[0] != a {
      ToldIsListed(w, names[1..], a);
    }
  }

  lemma {:induction false} ToldAlike(w: World, u: World, names: seq<string>, a: string)
    requires SameRefusals(w, u)
    ensures Told(w, names, a) == Told(u, names, a)
    decreases |names|
  {
    if names != [] {
      ToldAlike(w, u, names[1..], a);
    }
  }

  /** What the broker shows of a after being told the states of the devices selected by `told`. */
  function Restated(s: Manager, told: bool, shown: Option<Command>, a: string): Option<Command> {
    if told && Get(s, a).current.Some? then Get(s, a).current else shown
  }

  lemma DiscoveryIsSilent(w: World, n: string, a: string, accepts: nat)
    ensures var x := PublishDiscovery(n); Shown(Took(w, x, Real(accepts)(w, x)), a) == Shown(w, a)
  {
  }

  lemma StateIsShown(w: World, n: string, c: Command, a: string, accepts: nat)
    requires Delivering(w) && Canonical(n)
    ensures var x := PublishState(n, c, true); Real(accepts)(w, x).ending.Done?
    ensures var x := PublishState(n, c, true);
            Shown(Took(w, x, Real(accepts)(w, x)), a) == if a == n then Some(c) else Shown(w, a)
  {
    RestateVerdict(w, n, c, accepts);
  }

  lemma ExecuteOne(w: World, x: Action, judge: Judge)
    requires judge(w, x).ending.Done?
    ensures var e := Execute(w, [x], judge); e.ending.Done? && e.world == Took(w, x, judge(w, x))
  {
  }

  /** Discovery, then the state. */
  lemma DiscoverThenState(w: World, n: string, c: Command, a: string, accepts: nat)
    requires Delivering(w) && Canonical(n) && !Refused(w, n)
    ensures var e := Execute(w, [PublishDiscovery(n)] + [PublishState(n, c, true)], Real(accepts));
            e.ending.Done? && Shown(e.world, a) == if a == n then Some(c) else Shown(w, a)
  {
    var x, y := PublishDiscovery(n), PublishState(n, c, true);
    var u := Took(w, x, Real(accepts)(w, x));
    RestateVerdict(w, n, c, accepts);
    DiscoveryIsSilent(w, n, a, accepts);
    TookFrame(w, x, Real(accepts)(w, x));
    ExecuteOne(w, x, Real(accepts));
    StateIsShown(u, n, c, a, accepts);
    ExecuteOne(u, y, Real(accepts));
    ExecuteAppend(w, [x], [y], Real(accepts));
  }

  /** One device that is not refused. */
  lemma RediscoverOneShows(w: World, s: Manager, n: string, a: string, accepts: nat)
    requires Delivering(w) && Canonical(n) && !Refused(w, n)
    ensures var e := Execute(w, Rediscover(s, n).actions, Real(accepts));
            e.ending.Done? && Shown(e.world, a) == Restated(s, a == n, Shown(w, a), a)
  {
    if Get(s, n).current.Some? {
      DiscoverThenState(w, n, Get(s, n).current.value, a, accepts);
    } else {
      RestateVerdict(w, n, On, accepts);
      DiscoveryIsSilent(w, n, a, accepts);
      ExecuteOne(w, PublishDiscovery(n), Real(accepts));
      assert Rediscover(s, n).actions == [PublishDiscovery(n)];
    }
  }

  /** A refused device: the first action raises and the rest is silence. */
  lemma RefusedShows(w: World, n: string, rest: seq<Action>, a: string, accepts: nat)
    requires Flagged(w) && Canonical(n) && Refused(w, n)
    ensures Shown(Execute(w, [PublishDiscovery(n)] + rest, Real(accepts)).world, a) == Shown(w, a)
  {
    RestateVerdict(w, n, On, accepts);
    DiscoveryIsSilent(w, n, a, accepts);
  }

  lemma RediscoverKeepsStates(s: Manager, n: string, a: string)
    ensures Get(Rediscover(s, n).next, a).current == Get(s, a).current
  {
  }

  lemma RediscoverStarts(s: Manager, n: string, rest: seq<Action>)
    ensures exists more :: Rediscover(s, n).actions + rest == [PublishDiscovery(n)] + more
  {
    var actions := Rediscover(s, n).actions + rest;
    assert actions == [PublishDiscovery(n)] + actions[1..];
  }

  lemma ToldStep(w: World, u: World, s: Manager, names: seq<string>, a: string, shown: Option<Command>)
    requires names != [] && NoRepeats(names) && !Refused(w, names[0]) && SameRefusals(w, u)
    ensures Restated(Rediscover(s, names[0]).next, Told(u, names[1..], a), Restated(s, a == names[0], shown, a), a)
         == Restated(s, Told(w, names, a), shown, a)
  {
    RediscoverKeepsStates(s, names[0], a);
    ToldAlike(w, u, names[1..], a);
    assert names == [names[0]] + names[1..];
    if Told(w, names[1..], a) {
      ToldIsListed(w, names[1..], a);
    }
  }

  /** The loop of the connect handler shows the states of exactly the devices it reaches. */
  lemma {:induction false} RediscoverShows(w: World, s: Manager, names: seq<string>, a: string, accepts: nat)
    requires Delivering(w) && NoRepeats(names) && forall n :: n in names ==> Canonical(n)
    ensures Shown(Execute(w, RediscoverLoop(s, names).actions, Real(accepts)).world, a)
         == Restated(s, Told(w, names, a), Shown(w, a), a)
    decreases |names|
  {
    if names != [] {
      var n, o := names[0], Rediscover(s, names[0]);
      var rest := RediscoverLoop(o.next, names[1..]).actions;
      assert n in names && names == [n] + names[1..];
      if Refused(w, n) {
        RediscoverStarts(s, n, rest);
        var more :| o.actions + rest == [PublishDiscovery(n)] + more;
        RefusedShows(w, n, more, a, accepts);
      } else {
        var u := Execute(w, o.actions, Real(accepts)).world;
        RediscoverOneShows(w, s, n, a, accepts);
        ExecuteAppend(w, o.actions, rest, Real(accepts));
        ExecuteKeepsRefusals(w, o.actions, Real(accepts));
        ExecuteFrame(w, o.actions, Real(accepts));
        RediscoverShows(u, o.next, names[1..], a, accepts);
        ToldStep(w, u, s, names, a, Shown(w, a));
      }
    }
  }

  lemma StatusShows(w: World, s: Manager, a: string, accepts: nat)
    ensures var e := Execute(w, StatusActions(s), Real(accepts));
            e.ending.Done? && Shown(e.world, a) == Shown(w, a) && SameRefusals(w, e.world) && SameSurroundings(w, e.world)
  {
    var actions := StatusActions(s);
    assert actions[1..][1..] == [];
    ExecuteKeepsShown(w, actions, Real(accepts), a);
    ExecuteKeepsRefusals(w, actions, Real(accepts));
    ExecuteFrame(w, actions, Real(accepts));
  }

  lemma ConnectActionsShow(w: World, s: Manager, a: string, accepts: nat)
    requires Delivering(w) && Structured(s) && CanonicalKeys(s)
    ensures Shown(Execute(w, OnMqttUp(s).actions, Real(accepts)).world, a)
         == Restated(s, Told(w, s.order, a), Shown(w, a), a)
  {
    var up := MqttMarkedUp(s);
    var rest := RediscoverLoop(up, s.order).actions;
    var u := Execute(w, StatusActions(up), Real(accepts)).world;
    StatusShows(w, up, a, accepts);
    ExecuteAppend(w, StatusActions(up), rest, Real(accepts));
    RediscoverShows(u, up, s.order, a, accepts);
    ToldAlike(w, u, s.order, a);
  }

  /** After an MQTT connect on a living session the broker shows the current state of exactly the devices that come before
      the first refused one, and of all others what it showed before. */
  lemma ConnectShowsExactly(w: World, a: string)
    requires Sound(w.manager) && CanonicalKeys(w.manager) && w.phase.FlagSet? && w.link
    ensures Shown(Next(w, Connected), a) == Restated(w.manager, Told(w, w.manager.order, a), Shown(w, a), a)
  {
    var p, o := Prepare(w, Connected), OnMqttUp(w.manager);
    var v := p.(manager := o.next);
    NextMeans(w, Connected, MqttUp, 0);
    ConnectActionsShow(v, w.manager, a, 0);
    PreparedRefuses(w, o.next);
    ToldAlike(w, v, w.manager.order, a);
    CarryShows(p, o.next, o.actions, a);
  }

  lemma CarryShows(p: World, t: Manager, actions: seq<Action>, a: string)
    ensures Shown(Carry(p, t, actions, Real(0)).world, a) == Shown(Execute(p.(manager := t), actions, Real(0)).world, a)
  {
  }

  /** The device has no state, or it comes before the first refused one, or the broker already shows its state. */
  predicate Settled(w: World, a: string) {
    || Get(w.manager, a).current == None
    || Told(w, w.manager.order, a)
    || Shown(w, a) == Get(w.manager, a).current
  }

  lemma ConnectKeepsState(w: World, a: string)
    requires Sound(w.manager) && w.phase.FlagSet?
    ensures Get(Next(w, Connected).manager, a).current == Get(w.manager, a).current
  {
    NextMeans(w, Connected, MqttUp, 0);
    HandledFrame(Prepare(w, Connected), MqttUp, 0);
    ConnectKeepsCurrent(w.manager, a);
  }

  lemma ConnectKeepsCurrent(s: Manager, a: string)
    requires Sound(s)
    ensures Get(Step(s, MqttUp).next, a).current == Get(s, a).current
  {
    ConnectState(s);
  }

  lemma AgreesMeans(w: World)
    ensures Agrees(w) <==> forall a :: Get(w.manager, a).current.Some? ==> Shown(w, a) == Get(w.manager, a).current
  {
    if Agrees(w) {
      forall a | Get(w.manager, a).current.Some?
        ensures Shown(w, a) == Get(w.manager, a).current
      {
        assert a in w.manager.devices;
      }
    }
  }

  /** An MQTT connect on a living session restores agreement if and only if every device that has a state comes before the
      first refused one or is already shown right. */
  lemma ConnectAgreesExactly(w: World)
    requires Sound(w.manager) && CanonicalKeys(w.manager) && w.phase.FlagSet? && w.link
    ensures Agrees(Next(w, Connected)) <==> forall a :: a in w.manager.devices ==> Settled(w, a)
  {
    var u := Next(w, Connected);
    AgreesMeans(u);
    forall a
      ensures (Get(u.manager, a).current.Some? ==> Shown(u, a) == Get(u.manager, a).current) <==> Settled(w, a)
    {
      ConnectKeepsState(w, a);
      ConnectShowsExactly(w, a);
    }
    assert forall a :: a !in w.manager.devices ==> Settled(w, a);
  }

  // Over every run.

  lemma NextCanonical(w: World, m: Move)
    requires Sound(w.manager) && CanonicalKeys(w.manager) && Named(m)
    ensures CanonicalKeys(Next(w, m).manager)
  {
    match InputOf(w, m)
    case Some((i, accepts)) =>
      MoveNames(w, m, i, accepts);
      PrepareKeeps(w, m);
      NextMeans(w, m, i, accepts);
      HandledFrame(Prepare(w, m), i, accepts);
    case None => PlainShows(w, m);
  }

  lemma {:induction false} RunCanonical(w: World, moves: seq<Move>)
    requires Starting(w) && CanonicalKeys(w.manager) && forall m :: m in moves ==> Named(m)
    ensures CanonicalKeys(RunMoves(Course(w, false), moves).world.manager)
    decreases |moves|
  {
    if moves != [] {
      var init, last := moves[..|moves| - 1], moves[|moves| - 1];
      assert last in moves;
      RunCanonical(w, init);
      StartOnCourse(w);
      RunOnCourse(Course(w, false), init);
      NextCanonical(RunMoves(Course(w, false), init).world, last);
    }
  }

  /** In every run with parser-built events, whatever the devices: a connect on a living session restores agreement if and
      only if every device that has a state is settled. */
  lemma EveryConnectAgreesExactly(w: World, moves: seq<Move>)
    requires Starting(w) && CanonicalKeys(w.manager) && forall m :: m in moves ==> Named(m)
    requires var u := RunMoves(Course(w, false), moves).world; u.phase.FlagSet? && u.link
    ensures var u := RunMoves(Course(w, false), moves).world;
            Agrees(Next(u, Connected)) <==> forall a :: a in u.manager.devices ==> Settled(u, a)
  {
    RunCanonical(w, moves);
    StartOnCourse(w);
    RunOnCourse(Course(w, false), moves);
    ConnectAgreesExactly(RunMoves(Course(w, false), moves).world);
  }
}
