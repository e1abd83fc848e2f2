/** When the connect handler runs to its end: the part discovery plays. */
module BridgeDiscovery {
  import opened Text
  import opened Models
  import opened Addresses
  import opened StateSpec
  import opened StateRuns
  import opened StateHistory
  import opened BridgeSystem
  import opened BridgeRuns
  import opened BridgeCommands
  import Q = CommandQueue
  import Topics
  import Discovery

  /** Discovery can be generated for every device the bridge has, now and for any valid address it may yet meet. */
  ghost predicate Hospitable(w: World) {
    UsableTopics(w.prefix, w.base) && Discoverable(w.devices, w.prefix, w.base)
  }

  /** A base topic, and a discovery prefix of one segment. */
  ghost predicate UsableTopics(prefix: string, base: string) {
    && Topics.CleanSegment(base).Some?
    && Topics.CleanSegment(prefix).Some? && '/' !in Topics.CleanSegment(prefix).value
  }

  ghost predicate Discoverable(devices: map<string, DeviceConfig>, prefix: string, base: string) {
    forall n :: n in devices ==> Discovery.DiscoveryMessage(devices[n], prefix, base).Ok?
  }

  lemma DefaultIsDiscoverable(w: World, a: string)
    requires Hospitable(w) && Canonical(a)
    ensures Discovery.DiscoveryMessage(DefaultDevice(a), w.prefix, w.base).Ok?
  {
    CanonicalIsNormal(a);
    assert Strip(a) != "" by {
      assert |Normal(a)| == |Strip(a)|;
    }
    Discovery.DiscoverySucceedsExactly(DefaultDevice(a), w.prefix, w.base);
  }

  lemma NobodyRefused(w: World, a: string)
    requires Hospitable(w) && Canonical(Normal(a))
    ensures !Refused(w, a) && Hospitable(w.(devices := Known(w.devices, a)))
  {
    DefaultIsDiscoverable(w, Normal(a));
    var d := Q.DeviceAt(w.devices, a);
    assert Discovery.DiscoveryMessage(d, w.prefix, w.base).Ok?;
    assert Discoverable(Known(w.devices, a), w.prefix, w.base);
  }

  ghost predicate MentionsCanonical(actions: seq<Action>) {
    forall x :: x in actions && Mentions(x).Some? ==> Canonical(Mentions(x).value)
  }

  lemma TookHospitable(w: World, x: Action, v: Verdict)
    requires Hospitable(w) && (Mentions(x).Some? ==> Canonical(Mentions(x).value))
    ensures Hospitable(Took(w, x, v))
  {
    if x.PublishDiscovery? || x.SendDevice? {
      CanonicalIsNormal(x.address);
      NobodyRefused(w, x.address);
    }
  }

  lemma {:induction false} ExecuteHospitable(w: World, actions: seq<Action>, judge: Judge)
    requires Hospitable(w) && MentionsCanonical(actions)
    ensures Hospitable(Execute(w, actions, judge).world)
    decreases |actions|
  {
    if actions != [] {
      assert actions[0] in actions;
      TookHospitable(w, actions[0], judge(w, actions[0]));
      assert MentionsCanonical(actions[1..]);
      ExecuteHospitable(Took(w, actions[0], judge(w, actions[0])), actions[1..], judge);
    }
  }

  /** Actions that do not talk to mochad. */
  predicate IsLocal(x: Action) { IsPublish(x) || x.LogUnknown? }

  lemma LocalVerdict(w: World, x: Action, accepts: nat)
    requires Hospitable(w) && IsLocal(x) && (Mentions(x).Some? ==> Canonical(Mentions(x).value))
    ensures Real(accepts)(w, x).ending.Done?
  {
    if Mentions(x).Some? {
      CanonicalIsNormal(Mentions(x).value);
      NobodyRefused(w, Mentions(x).value);
    }
  }

  /** In a hospitable world actions that do not talk to mochad never raise. */
  lemma {:induction false} LocalActionsEndWell(w: World, actions: seq<Action>, accepts: nat)
    requires Hospitable(w) && MentionsCanonical(actions) && (forall x :: x in actions ==> IsLocal(x))
    ensures Execute(w, actions, Real(accepts)).ending.Done?
    decreases |actions|
  {
    if actions != [] {
      var x := actions[0];
      assert x in actions;
      LocalVerdict(w, x, accepts);
      TookHospitable(w, x, Real(accepts)(w, x));
      assert MentionsCanonical(actions[1..]);
      LocalActionsEndWell(Took(w, x, Real(accepts)(w, x)), actions[1..], accepts);
    }
  }

  lemma RealNeverFails(w: World, x: Action, accepts: nat)
    ensures var v := Real(accepts)(w, x); !Stops(x, v) ==> !Fails(x, v)
  {
  }

  /** The code never skips a state publication: one that does not end well leaves the loop. */
  lemma {:induction false} RealLosesNothing(w: World, actions: seq<Action>, accepts: nat)
    ensures !Execute(w, actions, Real(accepts)).lost
    decreases |actions|
  {
    if actions != [] {
      RealNeverFails(w, actions[0], accepts);
      RealLosesNothing(Took(w, actions[0], Real(accepts)(w, actions[0])), actions[1..], accepts);
    }
  }

  // Canonical names, over every run.

  ghost predicate CanonicalKeys(s: Manager) {
    forall n :: n in s.devices ==> Canonical(n)
  }

  /** The addresses an input can introduce. */
  function NamesIn(entries: seq<(string, Models.Command)>): set<string> {
    set k | 0 <= k < |entries| :: Normal(entries[k].0)
  }

  function Names(i: Input): set<string> {
    match i
    case Request(a, _, _) => {Normal(a)}
    case Observe(Some(DeviceEvent(_, _, _, _, a)), _) => {Normal(a)}
    case Observe(Some(StatusSnapshot(entries)), _) => NamesIn(entries)
    case _ => {}
  }

  lemma {:induction false} HouseLoopNames(s: Manager, members: seq<string>, e: Event)
    requires e.HouseEvent? && forall n :: n in members ==> n in s.devices
    ensures HouseLoop(s, members, e).next.devices.Keys == s.devices.Keys
    decreases |members|
  {
    if members != [] {
      assert members[0] in members;
      HouseLoopNames(HouseOne(s, members[0], e).next, members[1..], e);
    }
  }

  lemma {:induction false} SnapshotLoopNames(s: Manager, entries: seq<(string, Models.Command)>, now: int)
    ensures SnapshotLoop(s, entries, now).next.devices.Keys <= s.devices.Keys + NamesIn(entries)
    decreases |entries|
  {
    if entries != [] {
      SnapshotOneNames(s, entries[0].0, entries[0].1, now);
      SnapshotLoopNames(SnapshotOne(s, entries[0].0, entries[0].1, now).next, entries[1..], now);
      NamesInFirst(entries);
    }
  }

  lemma SnapshotOneNames(s: Manager, a: string, c: Models.Command, now: int)
    ensures AddsOnly(s, SnapshotOne(s, a, c, now).next, {Normal(a)})
  {
    var n := Normal(a);
    var t := Seen(Ensure(s, n), n, now);
    assert AddsOnly(s, Ensure(s, n), {n}) && AddsOnly(s, t, {n});
    SetStateNames(t, n, c, now, true);
  }

  lemma NamesInFirst(entries: seq<(string, Models.Command)>)
    requires entries != []
    ensures NamesIn(entries) == {Normal(entries[0].0)} + NamesIn(entries[1..])
  {
    forall k | 0 <= k < |entries|
      ensures Normal(entries[k].0) in {Normal(entries[0].0)} + NamesIn(entries[1..])
    {
      assert k > 0 ==> entries[k] == entries[1..][k - 1];
    }
    forall k | 0 <= k < |entries| - 1
      ensures Normal(entries[1..][k].0) in NamesIn(entries)
    {
      assert entries[1..][k] == entries[k + 1];
    }
  }

  /** Nothing outside `names` was added to the devices. */
  ghost predicate AddsOnly(s: Manager, t: Manager, names: set<string>) {
    t.devices.Keys <= s.devices.Keys + names
  }

  lemma DiscoverNames(s: Manager, n: string)
    ensures AddsOnly(s, Discover(s, n).next, {n})
  {
  }

  lemma SetStateNames(s: Manager, n: string, c: Models.Command, now: int, clear: bool)
    ensures AddsOnly(s, SetState(s, n, c, now, clear).next, {n})
  {
  }

  lemma FollowUpNames(s: Manager, n: string, c: Models.Command, now: int)
    ensures AddsOnly(s, FollowUp(s, n, c, now).next, {n})
  {
    SetStateNames(s, n, c, now, false);
  }

  lemma ForwardNames(s: Manager, n: string, c: Models.Command, now: int)
    ensures AddsOnly(s, Forward(s, n, c, now).next, {n})
  {
    var p := Pend(s, n, c);
    assert AddsOnly(s, p, {n});
    DiscoverNames(p, n);
    FollowUpNames(Discover(p, n).next, n, c, now);
  }

  lemma RequestNames(s: Manager, a: string, c: Models.Command, now: int)
    ensures AddsOnly(s, Requested(s, a, c, now).next, {Normal(a)})
  {
    var n := Normal(a);
    assert AddsOnly(s, Ensure(s, n), {n});
    ForwardNames(Ensure(s, n), n, c, now);
  }

  lemma DeviceEventNames(s: Manager, e: Event)
    requires e.DeviceEvent?
    ensures AddsOnly(s, OnDeviceEvent(s, e).next, {Normal(e.address)})
  {
    var n := Normal(e.address);
    var h := Seen(Ensure(CountEvent(s), n), n, e.time);
    assert AddsOnly(s, h, {n});
    DiscoverNames(h, n);
    SetStateNames(Hear(s, n, e.time).next, n, e.command, e.time, true);
  }

  lemma HouseEventNames(s: Manager, e: Event)
    requires Sound(s) && e.HouseEvent?
    ensures AddsOnly(s, OnHouseEvent(s, e).next, {})
  {
    HouseMembersSound(s.order, Normal(e.house));
    HouseLoopNames(CountEvent(s), HouseMembers(s.order, Normal(e.house)), e);
  }

  lemma MqttUpNames(s: Manager)
    requires Sound(s)
    ensures AddsOnly(s, OnMqttUp(s).next, {})
  {
    RediscoverLoopState(MqttMarkedUp(s), s.order);
  }

  lemma ObserveNames(s: Manager, event: Option<Event>, now: int)
    requires Sound(s)
    ensures AddsOnly(s, Observed(s, event, now).next, Names(Observe(event, now)))
  {
    match event
    case Some(DeviceEvent(_, _, _, _, _)) => DeviceEventNames(s, event.value);
    case Some(HouseEvent(_, _, _, _, _)) => HouseEventNames(s, event.value);
    case Some(StatusSnapshot(entries)) => SnapshotLoopNames(CountSync(s), entries, now);
    case _ =>
  }

  lemma StepNames(s: Manager, i: Input)
    requires Sound(s)
    ensures AddsOnly(s, Step(s, i).next, Names(i))
  {
    match i
    case Request(a, c, now) => RequestNames(s, a, c, now);
    case Observe(event, now) => ObserveNames(s, event, now);
    case MqttUp => MqttUpNames(s);
    case _ =>
  }

  /** What the protocol parser guarantees about a move. */
  ghost predicate Named(m: Move) {
    m.MochadLine? ==> forall n :: n in Names(Observe(m.event, m.now)) ==> Canonical(n)
  }

  /** What the protocol parser and the configuration loader guarantee about a move. */
  ghost predicate Regular(w: World, m: Move) {
    && Named(m)
    && (m.Reload? ==> Discoverable(m.devices, w.prefix, w.base))
  }

  ghost predicate Welcoming(w: World) {
    Hospitable(w) && CanonicalKeys(w.manager)
  }

  lemma MoveNames(w: World, m: Move, i: Input, accepts: nat)
    requires Sound(w.manager) && CanonicalKeys(w.manager) && Named(m) && InputOf(w, m) == Some((i, accepts))
    ensures var o := Step(w.manager, i); CanonicalKeys(o.next) && MentionsCanonical(o.actions)
  {
    StepNames(w.manager, i);
    MoveNamesAreCanonical(w, m, i, accepts);
    StepCovers(w.manager, i);
  }

  lemma MoveNamesAreCanonical(w: World, m: Move, i: Input, accepts: nat)
    requires Named(m) && InputOf(w, m) == Some((i, accepts))
    ensures forall n :: n in Names(i) ==> Canonical(n)
  {
    if m.Command? {
      AdmittedIsEncodable(w, m.topic, m.payload);
      CanonicalIsNormal(i.address);
    }
  }

  lemma StepCovers(s: Manager, i: Input)
    requires Sound(s)
    ensures Covers(Step(s, i).actions, Step(s, i).next)
  {
    StepSettings(s, i);
  }

  lemma RoutedHospitable(w: World, topic: string)
    requires Hospitable(w) && Topics.Route(topic, w.base).ToDevice?
    ensures Hospitable(w.(devices := Known(w.devices, Topics.Route(topic, w.base).address)))
  {
    var a := Topics.Route(topic, w.base).address;
    Topics.RoutedAddressIsCanonical(topic, w.base);
    CanonicalIsNormal(a);
    NobodyRefused(w, a);
  }

  lemma PrepareIs(w: World, m: Move)
    ensures m.Command? ==> Prepare(w, m) == Learned(w, Topics.Route(m.topic, w.base), CommandOf(m.payload).Some?)
    ensures !m.Command? ==> Prepare(w, m).devices == w.devices
  {
  }

  lemma PrepareHospitable(w: World, m: Move)
    requires Hospitable(w)
    ensures Hospitable(Prepare(w, m))
  {
    PrepareIs(w, m);
    if m.Command? {
      if Topics.Route(m.topic, w.base).ToDevice? {
        RoutedHospitable(w, m.topic);
      }
    } else {
      PrepareKeepsSettings(w, m);
      SameDevicesHospitable(w, Prepare(w, m));
    }
  }

  lemma {:induction false} KnownAllHospitable(w: World, q: seq<Q.Message>)
    requires Hospitable(w) && Q.AllEncodable(q)
    ensures Hospitable(w.(devices := KnownAll(w.devices, q)))
    decreases |q|
  {
    if q != [] {
      NobodyRefused(w, q[0].address);
      assert Q.AllEncodable(q[1..]);
      KnownAllHospitable(w.(devices := Known(w.devices, q[0].address)), q[1..]);
    }
  }

  lemma SameDevicesHospitable(w: World, u: World)
    requires Hospitable(w) && u.devices == w.devices && u.prefix == w.prefix && u.base == w.base
    ensures Hospitable(u)
  {
  }

  lemma TriedEncodable(q: seq<Q.Message>, gone: nat)
    requires Q.AllEncodable(q) && gone <= |q|
    ensures Q.AllEncodable(Tried(q, gone))
  {
  }

  lemma FlushHospitable(w: World, accepts: nat)
    requires Hospitable(w) && InOrder(w)
    ensures Hospitable(Flush(w, accepts))
  {
    if w.queue.waiting != [] && Ready(w) {
      var p := Q.FlushJobs(Q.Jobs(w.devices, w.queue.waiting), accepts);
      var tried := Tried(w.queue.waiting, p.gone);
      TriedEncodable(w.queue.waiting, p.gone);
      KnownAllHospitable(w, tried);
      SameDevicesHospitable(w.(devices := KnownAll(w.devices, tried)), Flush(w, accepts));
    }
  }

  lemma HandleWelcoming(w: World, m: Move, i: Input, accepts: nat)
    requires Sound(w.manager) && Welcoming(w) && Regular(w, m) && InputOf(w, m) == Some((i, accepts))
    ensures Welcoming(Handle(Prepare(w, m), i, Real(accepts)).world)
  {
    var o := Step(w.manager, i);
    PrepareKeeps(w, m);
    PrepareHospitable(w, m);
    MoveNames(w, m, i, accepts);
    HandledFrame(Prepare(w, m), i, accepts);
    ExecuteHospitable(Prepare(w, m).(manager := o.next), o.actions, Real(accepts));
  }

  lemma NextWelcoming(w: World, m: Move)
    requires Sound(w.manager) && Welcoming(w) && Regular(w, m) && InOrder(w)
    ensures Welcoming(Next(w, m))
  {
    match InputOf(w, m)
    case Some((i, accepts)) => HandleWelcoming(w, m, i, accepts);
    case None => PlainWelcoming(w, m);
  }

  lemma DiagnoseWelcoming(w: World, m: Move)
    requires m.Diagnose? && Welcoming(w) && InOrder(w)
    ensures Welcoming(Plain(w, m))
  {
    var d := Diagnosed(w, m);
    SameDevicesHospitable(w, d);
    FlushHospitable(d, m.accepts);
  }

  lemma OtherMovesKeepDevices(w: World, m: Move)
    requires !m.Diagnose? && !m.Command? && !m.Reload?
    ensures Plain(w, m).devices == w.devices && Plain(w, m).manager == w.manager
  {
  }

  lemma PlainCommand(w: World, m: Move)
    requires m.Command?
    ensures Plain(w, m) == Prepare(w, m)
  {
  }

  lemma ReloadWelcoming(w: World, m: Move)
    requires m.Reload? && Welcoming(w) && Regular(w, m)
    ensures Welcoming(Plain(w, m))
  {
  }

  lemma PlainWelcoming(w: World, m: Move)
    requires Welcoming(w) && Regular(w, m) && InOrder(w)
    ensures Welcoming(Plain(w, m))
  {
    if m.Diagnose? {
      DiagnoseWelcoming(w, m);
    } else if m.Command? {
      PlainCommand(w, m);
      PrepareKeeps(w, m);
      PrepareHospitable(w, m);
    } else if m.Reload? {
      ReloadWelcoming(w, m);
    } else {
      OtherMovesKeepDevices(w, m);
      PlainKeepsSettings(w, m);
      SameDevicesHospitable(w, Plain(w, m));
    }
  }

  lemma NextKeepsSettings(w: World, m: Move)
    ensures Next(w, m).prefix == w.prefix && Next(w, m).base == w.base
  {
    match InputOf(w, m)
    case Some((i, accepts)) =>
      PrepareKeepsSettings(w, m);
      HandledFrame(Prepare(w, m), i, accepts);
    case None => PlainKeepsSettings(w, m);
  }

  lemma PrepareKeepsSettings(w: World, m: Move)
    ensures Prepare(w, m).prefix == w.prefix && Prepare(w, m).base == w.base
  {
  }

  lemma PlainKeepsSettings(w: World, m: Move)
    ensures Plain(w, m).prefix == w.prefix && Plain(w, m).base == w.base
  {
    PrepareKeepsSettings(w, m);
  }

  lemma {:induction false} RunWelcoming(w: World, moves: seq<Move>)
    requires Starting(w) && Welcoming(w) && forall m :: m in moves ==> Regular(w, m)
    ensures var u := RunMoves(Course(w, false), moves).world; Welcoming(u) && u.prefix == w.prefix && u.base == w.base
    decreases |moves|
  {
    if moves != [] {
      var init, last := moves[..|moves| - 1], moves[|moves| - 1];
      assert last in moves;
      RunWelcoming(w, init);
      CommandsStayInOrder(w, init);
      StartOnCourse(w);
      RunOnCourse(Course(w, false), init);
      NextWelcoming(RunMoves(Course(w, false), init).world, last);
      NextKeepsSettings(RunMoves(Course(w, false), init).world, last);
    }
  }

  /** With only discoverable devices the connect handler gets all its state publications out and always runs to its
      end. */
  lemma ConnectIsComplete(w: World)
    requires Sound(w.manager) && Welcoming(w) && w.phase.FlagSet?
    ensures Complete(w, Connected) && ConnectEnding(w).Done?
  {
    var p := Prepare(w, Connected);
    var o := Step(w.manager, MqttUp);
    ConnectPublishes(w.manager);
    ConnectMentionsCanonical(w.manager);
    LocalActionsEndWell(p.(manager := o.next), o.actions, 0);
    RealLosesNothing(p.(manager := o.next), o.actions, 0);
    assert o.actions[|o.actions|..] == [];
    HandleWelcoming(w, Connected, MqttUp, 0);
    NoDiscoveryRaises(Handle(p, MqttUp, Real(0)).world);
  }

  lemma NoDiscoveryRaises(w: World)
    requires Hospitable(w)
    ensures !DiscoveryRaises(w)
  {
  }

  lemma ConnectMentionsCanonical(s: Manager)
    requires Sound(s) && CanonicalKeys(s)
    ensures MentionsCanonical(Step(s, MqttUp).actions)
  {
    ConnectLawful(s);
    StepNames(s, MqttUp);
  }

  lemma ConnectPublishes(s: Manager)
    requires Structured(s)
    ensures forall x :: x in Step(s, MqttUp).actions ==> IsPublish(x)
  {
    RediscoverLoopRestates(MqttMarkedUp(s), s.order);
  }

  /** So in every regular run with discoverable devices, every MQTT connect on a living session restores full agreement,
      whatever was dropped, abandoned or lost before. */
  lemma EveryConnectRestoresAgreement(w: World, moves: seq<Move>)
    requires Starting(w) && Welcoming(w) && forall m :: m in moves ==> Regular(w, m)
    requires var c := RunMoves(Course(w, false), moves); c.world.phase.FlagSet? && c.world.link
    ensures Agrees(Next(RunMoves(Course(w, false), moves).world, Connected))
  {
    var c := RunMoves(Course(w, false), moves);
    RunWelcoming(w, moves);
    StartOnCourse(w);
    RunOnCourse(Course(w, false), moves);
    ConnectIsComplete(c.world);
    ConnectRestoresAgreement(w, moves);
  }
}
