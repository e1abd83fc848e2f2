/** How long a broken agreement lasts: duplicates are suppressed, so nothing short of a change or a reconnect repairs it. */
module BridgeDisagreement {
  import opened Text
  import opened Models
  import opened StateSpec
  import opened StateRuns
  import opened StateHistory
  import opened BridgeSystem
  import opened BridgeRuns
  import opened BridgeCommands
  import opened StateDetails
  import opened BridgeDiscovery
  import Addresses

  // A state is published only when it changes.

  /** Only m's state can have changed and be published, and it is published only if it changed. */
  ghost predicate Frank(s: Manager, o: Outcome, m: string) {
    && Unsaid(o.actions) <= {m}
    && (m in Unsaid(o.actions) ==> Get(o.next, m).current != Get(s, m).current)
    && (forall n :: n != m ==> Get(o.next, n).current == Get(s, n).current)
  }

  lemma SetStateFrank(s: Manager, m: string, c: Models.Command, now: int, clear: bool)
    ensures Frank(s, SetState(s, m, c, now, clear), m)
  {
  }

  /** A first part that touches no state can be put in front. */
  lemma FrankAfter(s: Manager, t: Manager, before: seq<Action>, o: Outcome, m: string)
    requires Unsaid(before) == {} && (forall n :: Get(t, n).current == Get(s, n).current) && Frank(t, o, m)
    ensures Frank(s, After(before, o), m)
  {
    forall n | n in Unsaid(before + o.actions)
      ensures n in Unsaid(o.actions)
    {
      var x :| x in before + o.actions && x.PublishState? && x.address == n;
      assert x in before ==> n in Unsaid(before);
    }
    forall n | n in Unsaid(o.actions)
      ensures n in Unsaid(before + o.actions)
    {
      var x :| x in o.actions && x.PublishState? && x.address == n;
      assert x in before + o.actions;
    }
  }

  lemma HearingIsQuiet(s: Manager, m: string, now: int)
    ensures var o := Hear(s, m, now);
            (o.actions == [] || o.actions == [PublishDiscovery(m)])
            && forall n :: Get(o.next, n).current == Get(s, n).current
  {
  }

  lemma DeviceEventFrank(s: Manager, e: Event)
    requires e.DeviceEvent?
    ensures Frank(s, OnDeviceEvent(s, e), Normal(e.address))
  {
    var m := Normal(e.address);
    if AddressAllowed(s, e.address) {
      var o := Hear(s, m, e.time);
      var before := o.actions + [PublishEvent(e)];
      HearingIsQuiet(s, m, e.time);
      assert Unsaid(before) == {};
      SetStateFrank(o.next, m, e.command, e.time, true);
      FrankAfter(s, o.next, before, SetState(o.next, m, e.command, e.time, true), m);
    }
  }

  lemma SeenKeepsStates(s: Manager, m: string, now: int)
    ensures forall n :: Get(Seen(s, m, now), n).current == Get(s, n).current
  {
  }

  lemma HouseOneFrank(s: Manager, m: string, e: Event)
    requires e.HouseEvent?
    ensures Frank(s, HouseOne(s, m, e), m)
  {
    if Heeds(s, m, e.command) {
      var t := Seen(s, m, e.time);
      SeenKeepsStates(s, m, e.time);
      SetStateFrank(t, m, HouseTarget(e.command), e.time, true);
    }
  }

  lemma SnapshotOneFrank(s: Manager, a: string, c: Models.Command, now: int)
    ensures Frank(s, SnapshotOne(s, a, c, now), Normal(a))
  {
    var m := Normal(a);
    if AddressAllowed(s, a) {
      EnsureKeepsStates(s, m);
      if ConfigOf(s, m).stateful {
        var t := Seen(Ensure(s, m), m, now);
        SeenKeepsStates(Ensure(s, m), m, now);
        SetStateFrank(t, m, c, now, true);
        FrankFrom(s, t, SetState(t, m, c, now, true), m);
      }
    }
  }

  lemma EnsureKeepsStates(s: Manager, m: string)
    ensures forall n :: Get(Ensure(s, m), n).current == Get(s, n).current
  {
  }

  lemma FrankFrom(s: Manager, t: Manager, o: Outcome, m: string)
    requires (forall n :: Get(t, n).current == Get(s, n).current) && Frank(t, o, m)
    ensures Frank(s, o, m)
  {
  }

  /** Every state that was published has changed, and only states among `names` changed. */
  ghost predicate Candid(s: Manager, o: Outcome, names: set<string>) {
    && (forall n :: n in Unsaid(o.actions) ==> n in names && Get(o.next, n).current != Get(s, n).current)
    && (forall n :: n !in names ==> Get(o.next, n).current == Get(s, n).current)
  }

  lemma UnsaidAppend(a: seq<Action>, b: seq<Action>)
    ensures Unsaid(a + b) == Unsaid(a) + Unsaid(b)
  {
    assert forall x :: x in a + b <==> x in a || x in b;
  }

  lemma CandidThen(s: Manager, first: Outcome, m: string, rest: Outcome, names: set<string>)
    requires Frank(s, first, m) && Candid(first.next, rest, names) && m !in names
    ensures Candid(s, After(first.actions, rest), {m} + names)
  {
    UnsaidAppend(first.actions, rest.actions);
  }

  function Set(names: seq<string>): set<string> {
    set n | n in names
  }

  lemma {:induction false} HouseLoopCandid(s: Manager, members: seq<string>, e: Event)
    requires e.HouseEvent? && NoRepeats(members)
    ensures Candid(s, HouseLoop(s, members, e), Set(members))
    decreases |members|
  {
    if members != [] {
      var m, o := members[0], HouseOne(s, members[0], e);
      assert members == [m] + members[1..];
      HouseOneFrank(s, m, e);
      HouseLoopCandid(o.next, members[1..], e);
      CandidThen(s, o, m, HouseLoop(o.next, members[1..], e), Set(members[1..]));
      assert Set(members) == {m} + Set(members[1..]);
    }
  }

  /** No two entries are about the same device. */
  ghost predicate Different(entries: seq<(string, Models.Command)>) {
    forall i, j :: 0 <= i < j < |entries| ==> Normal(entries[i].0) != Normal(entries[j].0)
  }

  lemma DifferentRest(entries: seq<(string, Models.Command)>)
    requires entries != [] && Different(entries)
    ensures Different(entries[1..]) && Normal(entries[0].0) !in NamesIn(entries[1..])
  {
    assert forall k :: 0 < k < |entries| ==> entries[k] == entries[1..][k - 1];
  }

  lemma {:induction false} SnapshotLoopCandid(s: Manager, entries: seq<(string, Models.Command)>, now: int)
    requires Different(entries)
    ensures Candid(s, SnapshotLoop(s, entries, now), NamesIn(entries))
    decreases |entries|
  {
    if entries != [] {
      var m, o := Normal(entries[0].0), SnapshotOne(s, entries[0].0, entries[0].1, now);
      NamesInFirst(entries);
      DifferentRest(entries);
      SnapshotOneFrank(s, entries[0].0, entries[0].1, now);
      SnapshotLoopCandid(o.next, entries[1..], now);
      CandidThen(s, o, m, SnapshotLoop(o.next, entries[1..], now), NamesIn(entries[1..]));
    }
  }

  lemma ForwardFrank(s: Manager, n: string, c: Models.Command, now: int)
    requires Normal(n) == n && Accepts(s, n, c)
    ensures Frank(s, Step(s, Request(n, c, now)), n)
  {
    var o := Discover(Pend(Ensure(s, n), n, c), n);
    var f := FollowUp(o.next, n, c, now);
    RequestedForwards(s, n, c, now);
    ForwardPieces(s, n, c, now);
    var before := o.actions + [SendDevice(n, c)];
    assert Unsaid(before) == {};
    forall a
      ensures Get(o.next, a).current == Get(s, a).current
    {
      PendingChangesNothing(s, n, c, a);
    }
    FollowUpFrank(o.next, n, c, now);
    FrankAfter(s, o.next, before, f, n);
  }

  lemma FollowUpFrank(s: Manager, n: string, c: Models.Command, now: int)
    ensures Frank(s, FollowUp(s, n, c, now), n)
  {
    UnsaidFollowUp(s, n, c, now);
    forall a
      ensures Get(FollowUp(s, n, c, now).next, a).current
           == if a == n && ChangesState(s, n, c) then Some(Authoritative(c)) else Get(s, a).current
    {
      FollowUpChanges(s, n, c, now, a);
    }
  }

  lemma RejectedKeepsStates(s: Manager, a: string, c: Models.Command, now: int, n: string)
    requires !Accepts(s, a, c)
    ensures Step(s, Request(a, c, now)).actions == []
    ensures Get(Step(s, Request(a, c, now)).next, n).current == Get(s, n).current
  {
  }

  /** What the protocol parser guarantees about snapshots. */
  ghost predicate Orderly(i: Input) {
    i.Observe? && i.event.Some? && i.event.value.StatusSnapshot? ==> Different(i.event.value.devices)
  }

  lemma ObserveTells(s: Manager, event: Option<Event>, now: int, n: string)
    requires Structured(s) && Orderly(Observe(event, now)) && n in Unsaid(Observed(s, event, now).actions)
    ensures Get(Observed(s, event, now).next, n).current != Get(s, n).current
  {
    match event
    case Some(DeviceEvent(_, _, _, _, _)) => DeviceEventFrank(s, event.value);
    case Some(HouseEvent(_, _, _, _, house)) =>
      HouseMembersDistinct(s.order, Normal(house));
      HouseLoopCandid(CountEvent(s), HouseMembers(s.order, Normal(house)), event.value);
    case Some(StatusSnapshot(entries)) => SnapshotLoopCandid(CountSync(s), entries, now);
    case _ =>
  }

  /** Apart from the connect handler, no handler publishes a state that it did not change. */
  lemma OnlyChangesAreTold(s: Manager, i: Input, n: string)
    requires Structured(s) && Orderly(i) && !i.MqttUp? && (i.Request? ==> Normal(i.address) == i.address)
    requires Get(Step(s, i).next, n).current == Get(s, n).current
    ensures n !in Unsaid(Step(s, i).actions)
  {
    match i
    case Observe(event, now) =>
      if n in Unsaid(Step(s, i).actions) {
        ObserveTells(s, event, now, n);
      }
    case Request(a, c, now) =>
      if Accepts(s, a, c) {
        ForwardFrank(s, a, c, now);
      } else {
        RejectedKeepsStates(s, a, c, now, n);
      }
    case _ =>
  }

  // What the broker shows.

  lemma {:induction false} ExecuteKeepsShown(w: World, actions: seq<Action>, judge: Judge, n: string)
    requires n !in Unsaid(actions)
    ensures Shown(Execute(w, actions, judge).world, n) == Shown(w, n)
    decreases |actions|
  {
    if actions != [] {
      var x := actions[0];
      assert x in actions;
      assert x.PublishState? ==> x.address in Unsaid(actions);
      UnsaidAppend([x], actions[1..]);
      assert actions == [x] + actions[1..];
      ExecuteKeepsShown(Took(w, x, judge(w, x)), actions[1..], judge, n);
    }
  }

  lemma HandleKeepsShown(w: World, i: Input, accepts: nat, n: string)
    requires n !in Unsaid(Step(w.manager, i).actions)
    ensures Shown(Handle(w, i, Real(accepts)).world, n) == Shown(w, n)
  {
    var o := Step(w.manager, i);
    ExecuteKeepsShown(w.(manager := o.next), o.actions, Real(accepts), n);
  }

  /** The broker shows something else than the device's state. */
  predicate Disagrees(w: World, n: string) {
    Get(w.manager, n).current.Some? && Shown(w, n) != Get(w.manager, n).current
  }

  /** The move is no MQTT connect, and the device's state is the same after it. */
  ghost predicate Leaves(w: World, m: Move, n: string) {
    && !(m.Connected? && w.phase.FlagSet?)
    && (m.MochadLine? ==> Orderly(Observe(m.event, m.now)))
    && Get(Next(w, m).manager, n).current == Get(w.manager, n).current
  }

  lemma MoveIsOrderly(w: World, m: Move, i: Input, accepts: nat)
    requires InputOf(w, m) == Some((i, accepts)) && (m.MochadLine? ==> Orderly(Observe(m.event, m.now)))
    requires !(m.Connected? && w.phase.FlagSet?)
    ensures Orderly(i) && !i.MqttUp? && (i.Request? ==> Normal(i.address) == i.address)
  {
    if m.Command? {
      AdmittedIsEncodable(w, m.topic, m.payload);
      Addresses.CanonicalIsNormal(i.address);
    }
  }

  lemma PlainShows(w: World, m: Move)
    requires InputOf(w, m) == None
    ensures Plain(w, m).states == w.states && Plain(w, m).manager == w.manager
  {
    if !IsSession(m) {
      PlainIsQuiet(w, m);
    }
  }

  lemma DisagreementStays(w: World, m: Move, n: string)
    requires Sound(w.manager) && Disagrees(w, n) && Leaves(w, m, n)
    ensures Disagrees(Next(w, m), n) && Shown(Next(w, m), n) == Shown(w, n) && Sound(Next(w, m).manager)
  {
    match InputOf(w, m)
    case None => PlainShows(w, m);
    case Some((i, accepts)) =>
      var p := Prepare(w, m);
      PrepareKeeps(w, m);
      MoveIsOrderly(w, m, i, accepts);
      HandledFrame(p, i, accepts);
      StepTracksAll(w.manager, i);
      OnlyChangesAreTold(w.manager, i, n);
      HandleKeepsShown(p, i, accepts, n);
  }

  ghost predicate AllLeave(c: Course, moves: seq<Move>, n: string)
    decreases |moves|
  {
    moves == [] ||
    (AllLeave(c, moves[..|moves| - 1], n) && Leaves(RunMoves(c, moves[..|moves| - 1]).world, moves[|moves| - 1], n))
  }

  /** Through every continuation that neither changes the device's state nor connects to MQTT, the broker keeps showing
      what it shows, so it keeps disagreeing. */
  lemma {:induction false} DisagreementLasts(c: Course, moves: seq<Move>, n: string)
    requires Sound(c.world.manager) && Disagrees(c.world, n) && AllLeave(c, moves, n)
    ensures var u := RunMoves(c, moves).world;
            Disagrees(u, n) && Shown(u, n) == Shown(c.world, n) && Sound(u.manager)
    decreases |moves|
  {
    if moves != [] {
      var init, last := moves[..|moves| - 1], moves[|moves| - 1];
      DisagreementLasts(c, init, n);
      DisagreementStays(RunMoves(c, init).world, last, n);
    }
  }

  /** So after a failed direct send that changed a device's state, the broker shows the old state until that state changes
      again or MQTT connects. */
  lemma FailedSendLasts(w: World, n: string, c: Models.Command, now: int, accepts: nat, moves: seq<Move>)
    requires Sound(w.manager) && SendFails(w, n, c, accepts) && ChangesState(w.manager, n, c)
    requires Shown(w, n) != Some(Authoritative(c))
    requires AllLeave(Course(Handle(w, Request(n, c, now), Real(accepts)).world, false), moves, n)
    ensures var u := RunMoves(Course(Handle(w, Request(n, c, now), Real(accepts)).world, false), moves).world;
            Disagrees(u, n) && Shown(u, n) == Shown(w, n)
  {
    var v := Handle(w, Request(n, c, now), Real(accepts)).world;
    FailedSendEffect(w, n, c, now, accepts);
    HandledFrame(w, Request(n, c, now), accepts);
    RequestChanges(w.manager, n, c, now, n);
    StepTracksAll(w.manager, Request(n, c, now));
    DisagreementLasts(Course(v, false), moves, n);
  }
}
