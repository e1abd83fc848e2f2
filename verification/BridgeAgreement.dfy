/** Agreement between the broker and the state manager, in terms of what a caller can see: which direct sends failed. */
module BridgeAgreement {
  import opened Text
  import opened Models
  import opened Addresses
  import opened StateSpec
  import opened StateHistory
  import opened BridgeSystem
  import opened BridgeRuns
  import opened BridgeCommands
  import opened BridgeDiscovery
  import opened Encoder
  import Q = CommandQueue

  /** The send of a command fails: mochad is ready, and its socket gives out too early. */
  predicate Breaks(w: World, n: string, c: Models.Command, accepts: nat) {
    Ready(w) && Q.Transmit(Q.JobOf(w.devices, Q.Message(n, c)), accepts).status == Q.SocketFailed
  }

  /** It fails after the command has changed the device's state. */
  predicate Loses(w: World, n: string, c: Models.Command, accepts: nat) {
    Accepts(w.manager, n, c) && Breaks(w, n, c, accepts) && ChangesState(w.manager, n, c)
  }

  /** A direct send fails: of a command that is admitted and accepted. */
  predicate SendBreaks(w: World, m: Move) {
    m.Command?
    && match Admitted(w, m.topic, m.payload)
       case Some(msg) => Accepts(w.manager, msg.address, msg.command) && Breaks(w, msg.address, msg.command, m.accepts)
       case None => false
  }

  /** A direct send fails whose command changes the device's state. */
  predicate LosesState(w: World, m: Move) {
    m.Command?
    && match Admitted(w, m.topic, m.payload)
       case Some(msg) => Loses(w, msg.address, msg.command, m.accepts)
       case None => false
  }

  // Which moves get all their state publications out.

  ghost predicate AllLocal(actions: seq<Action>) {
    forall x :: x in actions ==> IsLocal(x)
  }

  lemma ObservationsAreLocal(s: Manager, event: Option<Event>, now: int)
    ensures AllLocal(Observed(s, event, now).actions)
  {
    match event
    case Some(HouseEvent(_, _, _, _, house)) =>
      HouseLoopQuiet(CountEvent(s), HouseMembers(s.order, Normal(house)), event.value);
    case Some(StatusSnapshot(entries)) => SnapshotLoopQuiet(CountSync(s), entries, now);
    case _ =>
  }

  /** Nothing unsaid, nothing lost. */
  predicate SaysAll(w: World, actions: seq<Action>, accepts: nat) {
    var e := Execute(w, actions, Real(accepts));
    Unsaid(actions[e.done..]) == {} && !e.lost
  }

  lemma LocalSaysAll(w: World, actions: seq<Action>, accepts: nat)
    requires Hospitable(w) && MentionsCanonical(actions) && AllLocal(actions)
    ensures SaysAll(w, actions, accepts)
  {
    LocalActionsEndWell(w, actions, accepts);
    RealLosesNothing(w, actions, accepts);
    assert actions[|actions|..] == [];
  }

  lemma StatelessSaysAll(w: World, actions: seq<Action>, accepts: nat)
    requires forall x :: x in actions ==> !x.PublishState?
    ensures SaysAll(w, actions, accepts)
  {
    RealLosesNothing(w, actions, accepts);
  }

  lemma PlainSendSaysAll(w: World, n: string, c: Models.Command, rest: seq<Action>, accepts: nat)
    requires Hospitable(w) && Canonical(n) && Encodable(n, c) && MentionsCanonical(rest) && AllLocal(rest)
    requires !Breaks(w, n, c, accepts)
    ensures SaysAll(w, [SendDevice(n, c)] + rest, accepts)
  {
    var x := SendDevice(n, c);
    SendEndsWell(w, n, c, accepts);
    TookHospitable(w, x, Real(accepts)(w, x));
    LocalSaysAll(Took(w, x, Real(accepts)(w, x)), rest, accepts);
    SaysAllAfter(w, x, rest, accepts);
  }

  /** A send that does not fail, whether or not a discovery comes before it. */
  lemma SendSaysAll(w: World, first: seq<Action>, n: string, c: Models.Command, rest: seq<Action>, accepts: nat)
    requires Hospitable(w) && Canonical(n) && Encodable(n, c) && MentionsCanonical(rest) && AllLocal(rest)
    requires (first == [] || first == [PublishDiscovery(n)]) && !Breaks(w, n, c, accepts)
    ensures SaysAll(w, first + [SendDevice(n, c)] + rest, accepts)
  {
    var tail := [SendDevice(n, c)] + rest;
    if first == [] {
      PlainSendSaysAll(w, n, c, rest, accepts);
      assert first + [SendDevice(n, c)] + rest == tail;
    } else {
      var x := PublishDiscovery(n);
      LocalVerdict(w, x, accepts);
      TookHospitable(w, x, Real(accepts)(w, x));
      CanonicalIsNormal(n);
      JobSurvivesDiscovery(w, n, c, Real(accepts)(w, x));
      PlainSendSaysAll(Took(w, x, Real(accepts)(w, x)), n, c, rest, accepts);
      SaysAllAfter(w, x, tail, accepts);
      assert first + [SendDevice(n, c)] + rest == [x] + tail;
    }
  }

  lemma SaysAllAfter(w: World, x: Action, rest: seq<Action>, accepts: nat)
    requires var v := Real(accepts)(w, x); v.ending.Done? && SaysAll(Took(w, x, v), rest, accepts)
    ensures SaysAll(w, [x] + rest, accepts)
  {
    var actions := [x] + rest;
    assert actions[1..] == rest;
    var k := Execute(Took(w, x, Real(accepts)(w, x)), rest, Real(accepts)).done;
    assert actions[k + 1..] == rest[k..];
  }

  lemma SendEndsWell(w: World, n: string, c: Models.Command, accepts: nat)
    requires Encodable(n, c) && !Breaks(w, n, c, accepts)
    ensures Real(accepts)(w, SendDevice(n, c)).ending.Done?
  {
    EncodableExactly(n, c);
  }

  lemma FollowUpIsLocal(s: Manager, n: string, c: Models.Command, now: int)
    requires Canonical(n)
    ensures AllLocal(FollowUp(s, n, c, now).actions) && MentionsCanonical(FollowUp(s, n, c, now).actions)
  {
  }

  lemma SaidAllIsSaysAll(w: World, i: Input, accepts: nat)
    ensures var o := Step(w.manager, i);
            SaidAll(w, i, Real(accepts)) == SaysAll(w.(manager := o.next), o.actions, accepts)
  {
  }

  lemma StoppedSaysAll(w: World, first: seq<Action>, x: Action, rest: seq<Action>, accepts: nat)
    requires !x.PublishState? && Execute(w, first + [x] + rest, Real(accepts)).done == |first|
    ensures SaysAll(w, first + [x] + rest, accepts) <==> Unsaid(rest) == {}
  {
    var actions := first + [x] + rest;
    RealLosesNothing(w, actions, accepts);
    assert actions[|first|..] == [x] + rest;
    UnsaidSend(x, rest);
  }

  /** A send that fails leaves unsaid what follows it. */
  lemma FailedSaysAll(w: World, first: seq<Action>, n: string, c: Models.Command, rest: seq<Action>, accepts: nat)
    requires first == [] || (first == [PublishDiscovery(n)] && !Refused(w, n))
    requires Normal(n) == n && Breaks(w, n, c, accepts)
    ensures SaysAll(w, first + [SendDevice(n, c)] + rest, accepts) <==> Unsaid(rest) == {}
  {
    BrokenSendStops(w, first, n, c, rest, accepts);
    StoppedSaysAll(w, first, SendDevice(n, c), rest, accepts);
  }

  /** A command says everything exactly when its send does not fail or it changes no state. */
  lemma RequestSaysAll(w: World, n: string, c: Models.Command, now: int, accepts: nat)
    requires Hospitable(w) && Canonical(n) && Encodable(n, c) && Accepts(w.manager, n, c)
    ensures SaidAll(w, Request(n, c, now), Real(accepts)) <==> !(Breaks(w, n, c, accepts) && ChangesState(w.manager, n, c))
  {
    var o := Discover(Pend(Ensure(w.manager, n), n, c), n);
    var f := FollowUp(o.next, n, c, now);
    CanonicalIsNormal(n);
    NobodyRefused(w, n);
    RequestedForwards(w.manager, n, c, now);
    ForwardPieces(w.manager, n, c, now);
    SaidAllIsSaysAll(w, Request(n, c, now), accepts);
    UnsaidFollowUp(o.next, n, c, now);
    FollowUpIsLocal(o.next, n, c, now);
    ForwardSaysAll(w, f.next, o.actions, n, c, f.actions, accepts);
  }

  lemma ForwardSaysAll(w: World, t: Manager, first: seq<Action>, n: string, c: Models.Command, rest: seq<Action>,
                       accepts: nat)
    requires Hospitable(w) && Canonical(n) && Encodable(n, c) && MentionsCanonical(rest) && AllLocal(rest)
    requires first == [] || first == [PublishDiscovery(n)]
    ensures SaysAll(w.(manager := t), first + [SendDevice(n, c)] + rest, accepts)
       <==> !(Breaks(w, n, c, accepts) && Unsaid(rest) != {})
  {
    var v := w.(manager := t);
    CanonicalIsNormal(n);
    NobodyRefused(v, n);
    if Breaks(w, n, c, accepts) {
      FailedSaysAll(v, first, n, c, rest, accepts);
    } else {
      SendSaysAll(v, first, n, c, rest, accepts);
    }
  }

  lemma RejectedSaysAll(w: World, n: string, c: Models.Command, now: int, accepts: nat)
    requires Normal(n) == n && !Accepts(w.manager, n, c)
    ensures SaidAll(w, Request(n, c, now), Real(accepts))
  {
    assert Step(w.manager, Request(n, c, now)).actions == [];
  }

  lemma ObserveSaysAll(w: World, event: Option<Event>, now: int, accepts: nat)
    requires Hospitable(w) && MentionsCanonical(Observed(w.manager, event, now).actions)
    ensures SaidAll(w, Observe(event, now), Real(accepts))
  {
    var o := Observed(w.manager, event, now);
    ObservationsAreLocal(w.manager, event, now);
    LocalSaysAll(w.(manager := o.next), o.actions, accepts);
  }

  lemma LinkSaysAll(w: World, i: Input, accepts: nat)
    requires i.MqttDown? || i.MochadUp? || i.MochadDown?
    ensures SaidAll(w, i, Real(accepts))
  {
    var o := Step(w.manager, i);
    StatelessSaysAll(w.(manager := o.next), o.actions, accepts);
  }

  lemma PreparedLoses(w: World, m: Move, msg: Q.Message)
    requires m.Command?
    ensures Loses(Prepare(w, m), msg.address, msg.command, m.accepts) == Loses(w, msg.address, msg.command, m.accepts)
  {
    PrepareKeeps(w, m);
    assert Q.DeviceAt(Prepare(w, m).devices, msg.address) == Q.DeviceAt(w.devices, msg.address);
  }

  lemma CommandSaysAll(w: World, n: string, c: Models.Command, now: int, accepts: nat)
    requires Hospitable(w) && Canonical(n) && Encodable(n, c)
    ensures SaidAll(w, Request(n, c, now), Real(accepts)) <==> !Loses(w, n, c, accepts)
  {
    CanonicalIsNormal(n);
    if Accepts(w.manager, n, c) {
      RequestSaysAll(w, n, c, now, accepts);
    } else {
      RejectedSaysAll(w, n, c, now, accepts);
    }
  }

  lemma LosesStateMeans(w: World, m: Move, msg: Q.Message)
    requires m.Command? && Admitted(w, m.topic, m.payload) == Some(msg)
    ensures LosesState(w, m) == Loses(w, msg.address, msg.command, m.accepts)
  {
  }

  lemma CommandCompletes(w: World, m: Move, msg: Q.Message)
    requires Hospitable(w) && m.Command? && Admitted(w, m.topic, m.payload) == Some(msg)
    ensures Complete(w, m) <==> !LosesState(w, m)
  {
    AdmittedIsEncodable(w, m.topic, m.payload);
    PrepareHospitable(w, m);
    PreparedLoses(w, m, msg);
    CommandInput(w, m, msg);
    LosesStateMeans(w, m, msg);
    NextMeans(w, m, Request(msg.address, msg.command, m.now), m.accepts);
    CommandSaysAll(Prepare(w, m), msg.address, msg.command, m.now, m.accepts);
  }

  lemma LineCompletes(w: World, m: Move)
    requires Sound(w.manager) && Welcoming(w) && Regular(w, m) && m.MochadLine?
    ensures Complete(w, m)
  {
    MoveNames(w, m, Observe(m.event, m.now), 0);
    ObserveSaysAll(w, m.event, m.now, 0);
    NextMeans(w, m, Observe(m.event, m.now), 0);
  }

  lemma LinkCompletes(w: World, m: Move, i: Input, accepts: nat)
    requires InputOf(w, m) == Some((i, accepts)) && !m.Command? && !m.Connected? && !m.MochadLine?
    ensures Complete(w, m)
  {
    LinkSaysAll(Prepare(w, m), i, accepts);
    NextMeans(w, m, i, accepts);
  }

  /** In a regular run over discoverable devices, a move gets all its state publications out exactly when it is not a
      failed direct send of a command that changes a state. */
  lemma MovesCompleteExactly(w: World, m: Move)
    requires Sound(w.manager) && Welcoming(w) && Regular(w, m)
    ensures Complete(w, m) <==> !LosesState(w, m)
  {
    if m.Command? {
      MessageCompletes(w, m);
    } else if m.MochadLine? {
      LineCompletes(w, m);
    } else if m.Connected? && w.phase.FlagSet? {
      ConnectIsComplete(w);
    } else if InputOf(w, m).Some? {
      LinkCompletes(w, m, InputOf(w, m).value.0, InputOf(w, m).value.1);
    }
  }

  lemma MessageCompletes(w: World, m: Move)
    requires Hospitable(w) && m.Command?
    ensures Complete(w, m) <==> !LosesState(w, m)
  {
    var msg := Admitted(w, m.topic, m.payload);
    if msg.Some? {
      CommandCompletes(w, m, msg.value);
    }
  }

  // Over every run.

  /** Some move since the last connect handler was bad; the moves before the first one do not matter. */
  predicate Since(w: World, moves: seq<Move>, bad: (World, Move) -> bool)
    decreases |moves|
  {
    moves != []
    && var init, last := moves[..|moves| - 1], moves[|moves| - 1];
       var u := RunMoves(Course(w, false), init).world;
       !(last.Connected? && u.phase.FlagSet?) && (Since(w, init, bad) || bad(u, last))
  }

  lemma CleanStep(c: Course, m: Move, lost: bool)
    requires Sound(c.world.manager) && Welcoming(c.world) && Regular(c.world, m)
    requires c.world.phase.Running? ==> c.clean || lost
    ensures Proceed(c, m).world.phase.Running? ==>
      Proceed(c, m).clean || (!(m.Connected? && c.world.phase.FlagSet?) && (lost || LosesState(c.world, m)))
  {
    MovesCompleteExactly(c.world, m);
    if Next(c.world, m).phase.Running? {
      RunningComesFrom(c.world, m);
    }
  }

  lemma RegularLater(w: World, u: World, m: Move)
    requires Regular(w, m) && u.prefix == w.prefix && u.base == w.base
    ensures Regular(u, m)
  {
  }

  lemma {:induction false} CleanOrLost(w: World, moves: seq<Move>)
    requires Starting(w) && Welcoming(w) && forall m :: m in moves ==> Regular(w, m)
    ensures var c := RunMoves(Course(w, false), moves);
            c.world.phase.Running? ==> c.clean || Since(w, moves, LosesState)
    decreases |moves|
  {
    if moves != [] {
      var init, last := moves[..|moves| - 1], moves[|moves| - 1];
      var c := RunMoves(Course(w, false), init);
      assert last in moves;
      CleanOrLost(w, init);
      RunWelcoming(w, init);
      StartOnCourse(w);
      RunOnCourse(Course(w, false), init);
      RegularLater(w, c.world, last);
      CleanStep(c, last, Since(w, init, LosesState));
    }
  }

  lemma RunningComesFrom(w: World, m: Move)
    requires Next(w, m).phase.Running?
    ensures w.phase.Running? || (w.phase.FlagSet? && m.Connected?)
    ensures m.Connected? && w.phase.FlagSet? ==> !LosesState(w, m)
  {
    match InputOf(w, m)
    case Some((i, accepts)) =>
      PreparedPhase(w, m, i, accepts);
      HandledFrame(Prepare(w, m), i, accepts);
    case None =>
      RunningIsNotPlain(w, m);
  }

  lemma RunningIsNotPlain(w: World, m: Move)
    requires InputOf(w, m) == None && Plain(w, m).phase.Running?
    ensures w.phase.Running?
  {
  }

  /** In every regular run over discoverable devices, on a living session the broker shows the current state of every
      device that has one, unless since the last connect handler a direct send failed whose command changed a state. */
  lemma AgreementUntilAStateIsLost(w: World, moves: seq<Move>)
    requires Starting(w) && Welcoming(w) && forall m :: m in moves ==> Regular(w, m)
    requires var u := RunMoves(Course(w, false), moves).world; u.phase.Running? && u.link
    requires !Since(w, moves, LosesState)
    ensures Agrees(RunMoves(Course(w, false), moves).world)
  {
    CleanOrLost(w, moves);
    BrokerAgreesWithManager(w, moves);
  }

  lemma {:induction false} SinceIsMonotone(w: World, moves: seq<Move>)
    requires Since(w, moves, LosesState)
    ensures Since(w, moves, SendBreaks)
    decreases |moves|
  {
    var init := moves[..|moves| - 1];
    if Since(w, init, LosesState) {
      SinceIsMonotone(w, init);
    }
  }

  /** In every regular run over discoverable devices, while MQTT is connected and no direct send has failed since the last
      MQTT connect, the broker shows the current state of every device that has one. */
  lemma AgreementUntilASendFails(w: World, moves: seq<Move>)
    requires Starting(w) && Welcoming(w) && forall m :: m in moves ==> Regular(w, m)
    requires var u := RunMoves(Course(w, false), moves).world; u.phase.Running? && u.link
    requires !Since(w, moves, SendBreaks)
    ensures Agrees(RunMoves(Course(w, false), moves).world)
  {
    if Since(w, moves, LosesState) {
      SinceIsMonotone(w, moves);
    }
    AgreementUntilAStateIsLost(w, moves);
  }
}
