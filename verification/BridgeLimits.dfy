/** What stays within bounds in every run of the bridge: repeats, the work of a flush, and the states on the broker. */
module BridgeLimits {
  import opened Text
  import opened Models
  import opened Addresses
  import opened StateSpec
  import opened StateRuns
  import opened StateHistory
  import opened StateDetails
  import opened BridgeSystem
  import opened BridgeRuns
  import opened BridgeCommands
  import opened BridgeDisagreement
  import opened BridgeRefusal
  import opened BridgeDiscovery
  import Q = CommandQueue
  import Topics

  // Repeats.

  lemma AddedStayBounded(d: Devices, e: Devices, names: set<string>)
    requires Q.Bounded(d) && Adds(d, e, names)
    ensures Q.Bounded(e)
  {
  }

  lemma HandleStaysBounded(w: World, i: Input, accepts: nat)
    requires Q.Bounded(w.devices)
    ensures Q.Bounded(Handle(w, i, Real(accepts)).world.devices)
  {
    var o := Step(w.manager, i);
    var v := w.(manager := o.next);
    ExecuteAdds(v, o.actions, Real(accepts), LookedUp(o.actions));
    AddedStayBounded(w.devices, Execute(v, o.actions, Real(accepts)).world.devices, LookedUp(o.actions));
  }

  lemma FlushStaysBounded(w: World, accepts: nat)
    requires Q.Bounded(w.devices)
    ensures Q.Bounded(Flush(w, accepts).devices)
  {
    if w.queue.waiting != [] && Ready(w) {
      var p := Q.FlushJobs(Q.Jobs(w.devices, w.queue.waiting), accepts);
      var tried := Tried(w.queue.waiting, p.gone);
      var names := set m | m in tried :: Normal(m.address);
      KnownAllAdds(w.devices, tried, names);
      AddedStayBounded(w.devices, KnownAll(w.devices, tried), names);
    }
  }

  lemma PrepareStaysBounded(w: World, m: Move)
    requires Q.Bounded(w.devices)
    ensures Q.Bounded(Prepare(w, m).devices)
  {
    PrepareIs(w, m);
    if m.Command? {
      var d := Topics.Route(m.topic, w.base);
      if d.ToDevice? {
        KnownAdds(w.devices, d.address, {Normal(d.address)});
        AddedStayBounded(w.devices, Known(w.devices, d.address), {Normal(d.address)});
      }
    }
  }

  lemma PlainStaysBounded(w: World, m: Move)
    requires Q.Bounded(w.devices) && (m.Reload? ==> Q.Bounded(m.devices))
    ensures Q.Bounded(Plain(w, m).devices)
  {
    if m.Diagnose? {
      FlushStaysBounded(Diagnosed(w, m), m.accepts);
    } else {
      PrepareStaysBounded(w, m);
    }
  }

  lemma NextStaysBounded(w: World, m: Move)
    requires Q.Bounded(w.devices) && (m.Reload? ==> Q.Bounded(m.devices))
    ensures Q.Bounded(Next(w, m).devices)
  {
    match InputOf(w, m)
    case Some((i, accepts)) =>
      PrepareStaysBounded(w, m);
      HandleStaysBounded(Prepare(w, m), i, accepts);
    case None => PlainStaysBounded(w, m);
  }

  ghost predicate BoundedReloads(moves: seq<Move>) {
    forall m :: m in moves ==> m.Reload? ==> Q.Bounded(m.devices)
  }

  lemma {:induction false} RunStaysBounded(c: Course, moves: seq<Move>)
    requires Q.Bounded(c.world.devices) && BoundedReloads(moves)
    ensures Q.Bounded(RunMoves(c, moves).world.devices)
    decreases |moves|
  {
    if moves != [] {
      assert moves[|moves| - 1] in moves && BoundedReloads(moves[..|moves| - 1]);
      RunStaysBounded(c, moves[..|moves| - 1]);
      NextStaysBounded(RunMoves(c, moves[..|moves| - 1]).world, moves[|moves| - 1]);
    }
  }

  /** In every state the bridge reaches from bounded devices through bounded reloads, any flush writes at most 500 lines
      and sleeps at most 2000 seconds. */
  lemma EveryFlushIsBounded(w: World, moves: seq<Move>, accepts: nat)
    requires Starting(w) && Q.Bounded(w.devices) && BoundedReloads(moves)
    ensures var u := RunMoves(Course(w, false), moves).world;
            var p := Q.FlushJobs(Q.Jobs(u.devices, u.queue.waiting), accepts);
            Q.Bounded(u.devices) && |p.written| <= 500 && p.slept <= 2000 * 1000
  {
    var u := RunMoves(Course(w, false), moves).world;
    RunStaysBounded(Course(w, false), moves);
    CommandsStayInOrder(w, moves);
    Q.FlushBounds(u.devices, u.queue.waiting, accepts);
  }

  // States.

  /** Every state on the broker is ON, OFF or DIM, or was there before the bridge started. */
  ghost predicate Displayed(first: map<string, Command>, states: map<string, Command>) {
    forall a :: a in states ==> Displayable(states[a]) || (a in first && first[a] == states[a])
  }

  lemma TookDisplays(w: World, x: Action, v: Verdict, first: map<string, Command>)
    requires Displayed(first, w.states) && (x.PublishState? ==> Displayable(x.state))
    ensures Displayed(first, Took(w, x, v).states)
  {
  }

  lemma {:induction false} ExecuteDisplays(w: World, actions: seq<Action>, judge: Judge, first: map<string, Command>)
    requires Displayed(first, w.states) && Shows(actions)
    ensures Displayed(first, Execute(w, actions, judge).world.states)
    decreases |actions|
  {
    if actions != [] {
      var x := actions[0];
      assert x in actions && Shows(actions[1..]);
      TookDisplays(w, x, judge(w, x), first);
      ExecuteDisplays(Took(w, x, judge(w, x)), actions[1..], judge, first);
    }
  }

  /** The manager's states are displayable and its configurations keep them so. */
  ghost predicate Steady(s: Manager) {
    Sound(s) && AllDisplayable(s) && WellConfigured(s.configs)
  }

  lemma StepSteady(s: Manager, i: Input)
    requires Steady(s) && ParserBuilt(i)
    ensures Steady(Step(s, i).next) && Shows(Step(s, i).actions)
  {
    StepSettings(s, i);
    StepDisplayable(s, i);
    StepShows(s, i);
  }

  ghost predicate FromParser(m: Move) {
    m.MochadLine? ==> ParserBuilt(Observe(m.event, m.now))
  }

  lemma InputFromParser(w: World, m: Move, i: Input, accepts: nat)
    requires FromParser(m) && InputOf(w, m) == Some((i, accepts))
    ensures ParserBuilt(i)
  {
  }

  lemma HandleDisplays(p: World, i: Input, accepts: nat, first: map<string, Command>)
    requires Steady(p.manager) && ParserBuilt(i) && Displayed(first, p.states)
    ensures var u := Handle(p, i, Real(accepts)).world; Steady(u.manager) && Displayed(first, u.states)
  {
    var o := Step(p.manager, i);
    StepSteady(p.manager, i);
    ExecuteDisplays(p.(manager := o.next), o.actions, Real(accepts), first);
    HandledFrame(p, i, accepts);
  }

  lemma NextDisplays(w: World, m: Move, first: map<string, Command>)
    requires Steady(w.manager) && FromParser(m) && Displayed(first, w.states)
    ensures Steady(Next(w, m).manager) && Displayed(first, Next(w, m).states)
  {
    match InputOf(w, m)
    case Some((i, accepts)) =>
      InputFromParser(w, m, i, accepts);
      PrepareKeeps(w, m);
      HandleDisplays(Prepare(w, m), i, accepts, first);
    case None => PlainShows(w, m);
  }

  lemma StartsSteady(w: World)
    requires Starting(w) && WellConfigured(w.manager.configs)
    ensures Steady(w.manager)
  {
    var devices, optimistic, codes :| w.manager == Create(devices, optimistic, codes);
    ConfigureKeeps(Empty(optimistic, codes), devices);
    BlankIsSteady(w.manager);
  }

  lemma BlankIsSteady(s: Manager)
    requires Blank(s) && WellConfigured(s.configs)
    ensures Steady(s)
  {
  }

  /** In every run with parser-built events, whatever is dropped or fails: every state of the manager is ON, OFF or DIM, and
      so is every state on the broker that was not there before the bridge. */
  lemma {:induction false} OnlyDisplayableStatesAreShown(w: World, moves: seq<Move>)
    requires Starting(w) && WellConfigured(w.manager.configs) && forall m :: m in moves ==> FromParser(m)
    ensures var u := RunMoves(Course(w, false), moves).world;
            Steady(u.manager) && Displayed(w.states, u.states)
    decreases |moves|
  {
    if moves == [] {
      StartsSteady(w);
    } else {
      assert moves[|moves| - 1] in moves;
      OnlyDisplayableStatesAreShown(w, moves[..|moves| - 1]);
      NextDisplays(RunMoves(Course(w, false), moves[..|moves| - 1]).world, moves[|moves| - 1], w.states);
    }
  }

  // Addresses.

  /** Every address on the broker is an X10 address, or was there before the bridge started. */
  ghost predicate Addressed(first: map<string, Command>, states: map<string, Command>) {
    forall a :: a in states ==> Canonical(a) || a in first
  }

  /** What the actions mention is in normal form. */
  ghost predicate MentionsNormal(actions: seq<Action>) {
    forall x :: x in actions && Mentions(x).Some? ==> Normal(Mentions(x).value) == Mentions(x).value
  }

  lemma TookAddresses(w: World, x: Action, accepts: nat, first: map<string, Command>)
    requires Addressed(first, w.states) && (x.PublishState? ==> Normal(x.address) == x.address)
    ensures Addressed(first, Took(w, x, VerdictOf(w, x, accepts)).states)
  {
  }

  lemma {:induction false} ExecuteAddresses(w: World, actions: seq<Action>, accepts: nat, first: map<string, Command>)
    requires Addressed(first, w.states) && MentionsNormal(actions)
    ensures Addressed(first, Execute(w, actions, Real(accepts)).world.states)
    decreases |actions|
  {
    if actions != [] {
      var x := actions[0];
      assert x in actions && MentionsNormal(actions[1..]);
      assert x.PublishState? ==> Mentions(x) == Some(x.address);
      TookAddresses(w, x, accepts, first);
      ExecuteAddresses(Took(w, x, VerdictOf(w, x, accepts)), actions[1..], accepts, first);
    }
  }

  lemma HandleAddresses(w: World, i: Input, accepts: nat, first: map<string, Command>)
    requires Sound(w.manager) && Addressed(first, w.states)
    ensures Addressed(first, Handle(w, i, Real(accepts)).world.states)
  {
    var o := Step(w.manager, i);
    StepSettings(w.manager, i);
    forall x | x in o.actions && Mentions(x).Some?
      ensures Normal(Mentions(x).value) == Mentions(x).value
    {
      assert Mentions(x).value in o.next.devices;
    }
    ExecuteAddresses(w.(manager := o.next), o.actions, accepts, first);
  }

  /** Whatever mochad reports and whatever was configured, no state is ever published under anything but an X10 address. */
  lemma {:induction false} OnlyRealAddressesAreShown(w: World, moves: seq<Move>)
    requires Starting(w)
    ensures forall a :: a in RunMoves(Course(w, false), moves).world.states ==> Canonical(a) || a in w.states
    decreases |moves|
  {
    if moves != [] {
      var init, last := moves[..|moves| - 1], moves[|moves| - 1];
      var u := RunMoves(Course(w, false), init).world;
      OnlyRealAddressesAreShown(w, init);
      StartOnCourse(w);
      RunOnCourse(Course(w, false), init);
      match InputOf(u, last)
      case Some((i, accepts)) =>
        NextMeans(u, last, i, accepts);
        PrepareKeeps(u, last);
        HandleAddresses(Prepare(u, last), i, accepts, w.states);
      case None => PlainShows(u, last);
    }
  }
}
