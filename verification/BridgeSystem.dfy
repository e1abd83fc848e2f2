/** The bridge between its two connections: the handlers of bridge.py, the executor of StateManager's actions, an MQTT
    broker with retained messages and a Will, and the mochad socket. Every handler is one atomic step. */
module BridgeSystem {
  import opened Text
  import opened Models
  import opened Addresses
  import opened StateSpec
  import opened StateRuns
  import opened StateHistory
  import CommandQueue
  import Discovery

  /** Progress of one MQTT connection through the client's callbacks. The broker has answered, accepting or refusing it;
      then `_connected` is set, whatever the answer was; then the connect handler has run; then `_connected` is cleared;
      and the disconnect handler ends it. */
  datatype Phase = Idle | Answered | FlagSet | Running | Dropping

  datatype World = World(
    manager: Manager,
    devices: map<string, DeviceConfig>,     // Bridge.devices
    prefix: string,                         // discovery prefix
    base: string,                           // base topic
    phase: Phase,
    link: bool,                             // the broker has accepted this session and still has it
    outdated: bool,                         // the broker still has an earlier session that the client has given up
    socket: bool,                           // the mochad client has a socket
    usb: Option<bool>,
    endpoints: Option<bool>,
    transfers: Option<bool>,
    queue: CommandQueue.Ledger,             // the command queue and its counter, with the history of what entered and left
    states: map<string, Command>,           // retained device states on the broker
    availability: Option<bool>,             // retained bridge availability on the broker
    met: bool,                              // history: the broker has heard an availability or published a Will
    stale: set<string>,                     // history: devices whose latest state publication did not get out
    wire: seq<Written>                      // history: the device-command lines that the socket took
  )

  /** A device-command line, with the socket and the readiness flags as they were when it was written. */
  datatype Written = Written(
    line: string,
    socket: bool,
    usb: Option<bool>,
    endpoints: Option<bool>,
    transfers: Option<bool>
  )

  predicate Flagged(w: World) { w.phase.FlagSet? || w.phase.Running? }

  /** A publication made now reaches the broker. */
  predicate Delivering(w: World) { Flagged(w) && w.link }

  /** _device_command_queue_reason is None. */
  predicate Ready(w: World) {
    w.socket && w.usb != Some(false) && w.endpoints != Some(false) && w.transfers != Some(false)
  }

  // Executing actions.

  datatype Ending = Done | Broke | Raised

  /** How one action ends and the lines it puts on the mochad socket. */
  datatype Verdict = Verdict(ending: Ending, lines: seq<string>)

  type Judge = (World, Action) -> Verdict

  predicate IsPublish(x: Action) {
    !x.SendDevice? && !x.RequestStatus? && !x.LogUnknown?
  }

  /** The verdict of the code: publications are dropped while the flag is down and raise on a bad topic or a refused
      discovery payload; sends depend on the socket, which takes `accepts` more lines. */
  function VerdictOf(w: World, x: Action, accepts: nat): Verdict {
    if IsPublish(x) && !Flagged(w) then Verdict(Done, [])
    else if x.PublishDiscovery? then
      Verdict(if Refused(w, x.address) then Raised else Done, [])
    else if IsPublish(x) then
      Verdict(if Mentions(x).Some? && NormalizeAddress(Mentions(x).value) == None then Raised else Done, [])
    else if x.SendDevice? then
      if !Ready(w) then Verdict(Done, [])
      else
        var s := CommandQueue.Transmit(CommandQueue.JobOf(w.devices, CommandQueue.Message(x.address, x.command)), accepts);
        Verdict(match s.status case Sent => Done case SocketFailed => Broke case NotEncodable => Raised, s.written)
    else if x.RequestStatus? then Verdict(if w.socket && accepts > 0 then Done else Broke, [])
    else Verdict(Done, [])
  }

  /** discovery_messages raises for the device the bridge has under this address. */
  predicate Refused(w: World, address: string) {
    Discovery.DiscoveryMessage(CommandQueue.DeviceAt(w.devices, address), w.prefix, w.base).Err?
  }

  function Real(accepts: nat): Judge { (w: World, x: Action) => VerdictOf(w, x, accepts) }

  /** What an action that ends this way leaves behind. */
  function Took(w: World, x: Action, v: Verdict): World {
    var out := v.ending.Done? && Delivering(w);
    w.(devices := if (x.PublishDiscovery? && Flagged(w)) || (x.SendDevice? && Ready(w)) then Known(w.devices, x.address)
                  else w.devices,
       states := if x.PublishState? && x.retain && out then w.states[x.address := x.state] else w.states,
       availability := if x.PublishAvailability? && out then Some(x.online) else w.availability,
       stale := if !x.PublishState? then w.stale else if out then w.stale - {x.address} else w.stale + {x.address},
       queue := if x.SendDevice? && !Ready(w)
                then CommandQueue.Perform(w.queue, CommandQueue.Push(CommandQueue.Message(x.address, x.command)))
                else w.queue,
       wire := w.wire + Tagged(v.lines, w))
  }

  /** _device_config adds a default entry for an address it has not seen. */
  function Known(devices: map<string, DeviceConfig>, address: string): map<string, DeviceConfig> {
    devices[Normal(address) := CommandQueue.DeviceAt(devices, address)]
  }

  function Tagged(lines: seq<string>, w: World): (r: seq<Written>)
    ensures |r| == |lines|
    ensures forall i :: 0 <= i < |r| ==> r[i] == Written(lines[i], w.socket, w.usb, w.endpoints, w.transfers)
  {
    seq(|lines|, i requires 0 <= i < |lines| => Written(lines[i], w.socket, w.usb, w.endpoints, w.transfers))
  }

  /** `done` counts the actions the loop got past; `lost` tells whether one of them was a failed state publication. */
  datatype Executed = Executed(world: World, done: nat, ending: Ending, lost: bool)

  /** A connection error breaks the loop only for actions that talk to mochad; any other exception leaves it. */
  predicate Stops(x: Action, v: Verdict) {
    v.ending.Raised? || (v.ending.Broke? && (x.SendDevice? || x.RequestStatus?))
  }

  predicate Fails(x: Action, v: Verdict) { x.PublishState? && !v.ending.Done? }

  /** execute_actions */
  function Execute(w: World, actions: seq<Action>, judge: Judge): (e: Executed)
    ensures e.done <= |actions| && (e.ending.Done? <==> e.done == |actions|)
    decreases |actions|
  {
    if actions == [] then Executed(w, 0, Done, false)
    else
      var x, v := actions[0], judge(w, actions[0]);
      var next := Took(w, x, v);
      if Stops(x, v) then Executed(next, 0, v.ending, false)
      else
        var e := Execute(next, actions[1..], judge);
        e.(done := e.done + 1, lost := Fails(x, v) || e.lost)
  }

  /** The loop of execute_actions. */
  method ExecuteActions(w: World, actions: seq<Action>, judge: Judge) returns (e: Executed)
    ensures e == Execute(w, actions, judge)
  {
    var world, lost := w, false;
    for k := 0 to |actions|
      invariant var r := Execute(world, actions[k..], judge);
                Execute(w, actions, judge) == r.(done := r.done + k, lost := lost || r.lost)
    {
      assert actions[k..][1..] == actions[k + 1..];
      var v := judge(world, actions[k]);
      world := Took(world, actions[k], v);
      if Stops(actions[k], v) {
        return Executed(world, k, v.ending, lost);
      }
      lost := lost || Fails(actions[k], v);
    }
    return Executed(world, |actions|, Done, lost);
  }

  /** The state publications in a list that never happened. */
  function Unsaid(actions: seq<Action>): set<string> {
    set x | x in actions && x.PublishState? :: x.address
  }

  /** The manager moves to t and its actions are executed; what was not said is recorded as stale. */
  function Carry(w: World, t: Manager, actions: seq<Action>, judge: Judge): Executed {
    var e := Execute(w.(manager := t), actions, judge);
    e.(world := e.world.(stale := e.world.stale + Unsaid(actions[e.done..])))
  }

  /** A handler: a step of the manager, carried out. */
  function Handle(w: World, i: Input, judge: Judge): Executed {
    var o := Step(w.manager, i);
    Carry(w, o.next, o.actions, judge)
  }

  // What execution does to the broker.

  predicate SameSurroundings(w: World, t: World) {
    && t.manager == w.manager && t.phase == w.phase && t.link == w.link && t.outdated == w.outdated && t.met == w.met
    && t.socket == w.socket
    && t.usb == w.usb && t.endpoints == w.endpoints && t.transfers == w.transfers
    && t.prefix == w.prefix && t.base == w.base
  }

  lemma TookFrame(w: World, x: Action, v: Verdict)
    ensures SameSurroundings(w, Took(w, x, v))
  {
  }

  lemma {:induction false} ExecuteFrame(w: World, actions: seq<Action>, judge: Judge)
    ensures SameSurroundings(w, Execute(w, actions, judge).world)
    decreases |actions|
  {
    if actions != [] {
      var next := Took(w, actions[0], judge(w, actions[0]));
      TookFrame(w, actions[0], judge(w, actions[0]));
      ExecuteFrame(next, actions[1..], judge);
    }
  }

  function Shown(w: World, a: string): Option<Command> {
    if a in w.states then Some(w.states[a]) else None
  }

  ghost predicate AllRetained(actions: seq<Action>) {
    forall x :: x in actions && x.PublishState? ==> x.retain
  }

  lemma TookSpeaks(w: World, x: Action, v: Verdict, a: string)
    requires x.PublishState? ==> x.retain
    ensures var t := Took(w, x, v);
            && (a !in t.stale && LastState([x], a).Some? ==> Shown(t, a) == LastState([x], a))
            && (a !in t.stale && LastState([x], a) == None ==> a !in w.stale && Shown(t, a) == Shown(w, a))
            && (Delivering(w) && !Fails(x, v) ==> t.stale <= w.stale && (LastState([x], a).Some? ==> a !in t.stale))
  {
    TallyOne(x);
  }

  lemma SplitLast(actions: seq<Action>, n: nat, a: string)
    requires 0 < n <= |actions|
    ensures LastState(actions[..n], a)
         == if LastState(actions[1..][..n - 1], a).Some? then LastState(actions[1..][..n - 1], a)
            else LastState([actions[0]], a)
  {
    assert actions[..n] == [actions[0]] + actions[1..][..n - 1];
    LastStateAppend([actions[0]], actions[1..][..n - 1], a);
  }

  /** A device that is not stale after execution shows the last state published for it, or what it showed before if there
      was none; and while publications are delivered and nothing goes wrong, staleness only shrinks. */
  lemma {:induction false} ExecuteSpeaks(w: World, actions: seq<Action>, judge: Judge, a: string)
    requires AllRetained(actions)
    ensures var e := Execute(w, actions, judge); var said := LastState(actions[..e.done], a);
            && (a !in e.world.stale && said.Some? ==> Shown(e.world, a) == said)
            && (a !in e.world.stale && said == None ==> a !in w.stale && Shown(e.world, a) == Shown(w, a))
            && (Delivering(w) && Unsaid(actions[e.done..]) == {} && !e.lost ==>
                  e.world.stale <= w.stale && (said.Some? ==> a !in e.world.stale))
    decreases |actions|
  {
    if actions != [] {
      var x, v := actions[0], judge(w, actions[0]);
      var next := Took(w, x, v);
      assert x in actions;
      TookSpeaks(w, x, v, a);
      TookFrame(w, x, v);
      if !Stops(x, v) {
        assert AllRetained(actions[1..]);
        ExecuteSpeaks(next, actions[1..], judge, a);
        SplitLast(actions, Execute(w, actions, judge).done, a);
        assert actions[Execute(w, actions, judge).done..] == actions[1..][Execute(next, actions[1..], judge).done..];
      } else {
        assert actions[..0] == [] && actions[0..] == actions;
        StaleGrows(w, x, v);
        assert x.PublishState? ==> x.address in Unsaid(actions);
      }
    }
  }

  lemma StaleGrows(w: World, x: Action, v: Verdict)
    requires !v.ending.Done?
    ensures w.stale <= Took(w, x, v).stale && Took(w, x, v).states == w.states
    ensures !x.PublishState? ==> Took(w, x, v).stale == w.stale
  {
  }

  // Agreement between the broker and the manager.

  /** A device with a state that is not stale shows that state on the broker. */
  ghost predicate Truthful(w: World) {
    forall a :: a in w.manager.devices && a !in w.stale && w.manager.devices[a].current.Some? ==>
      Shown(w, a) == w.manager.devices[a].current
  }

  lemma UnsaidHasNoState(rest: seq<Action>, a: string)
    requires a !in Unsaid(rest)
    ensures LastState(rest, a) == None
  {
    NoStateFor(rest, a);
  }

  lemma StepTracksAll(s: Manager, i: Input)
    requires Sound(s)
    ensures var o := Step(s, i); Tracks(s, o.actions, o.next) && AllRetained(o.actions) && Sound(o.next)
  {
    StepSettings(s, i);
    if i.MqttUp? {
      ConnectEffect(s);
    } else {
      StepEffect(s, i);
    }
  }

  lemma CarryFrame(w: World, t: Manager, actions: seq<Action>, judge: Judge)
    ensures SameSurroundings(w.(manager := t), Carry(w, t, actions, judge).world)
  {
    ExecuteFrame(w.(manager := t), actions, judge);
  }

  /** What execution says about one device, in terms of the whole list. */
  lemma CarrySpeaks(w: World, t: Manager, actions: seq<Action>, judge: Judge, a: string)
    requires AllRetained(actions)
    ensures var e := Carry(w, t, actions, judge); var said := LastState(actions, a);
            && (a !in e.world.stale && said.Some? ==> Shown(e.world, a) == said)
            && (a !in e.world.stale && said == None ==> a !in w.stale && Shown(e.world, a) == Shown(w, a))
            && (Delivering(w) && Unsaid(actions[e.done..]) == {} && !e.lost ==>
                  e.world.stale <= w.stale && (said.Some? ==> a !in e.world.stale))
  {
    var start := w.(manager := t);
    var n := Execute(start, actions, judge).done;
    ExecuteSpeaks(start, actions, judge, a);
    assert actions == actions[..n] + actions[n..];
    LastStateAppend(actions[..n], actions[n..], a);
    if a !in Unsaid(actions[n..]) {
      UnsaidHasNoState(actions[n..], a);
    }
  }

  lemma CarryTruthful(w: World, t: Manager, actions: seq<Action>, judge: Judge)
    requires Truthful(w) && Tracks(w.manager, actions, t) && AllRetained(actions)
    ensures Truthful(Carry(w, t, actions, judge).world)
  {
    var u := Carry(w, t, actions, judge).world;
    CarryFrame(w, t, actions, judge);
    forall a | a in t.devices && a !in u.stale && t.devices[a].current.Some?
      ensures Shown(u, a) == t.devices[a].current
    {
      CarrySpeaks(w, t, actions, judge, a);
    }
  }

  /** Every handler keeps the broker truthful about every device that is not stale, however its actions end. */
  lemma HandleTruthful(w: World, i: Input, judge: Judge)
    requires Sound(w.manager) && Truthful(w)
    ensures var u := Handle(w, i, judge).world; Truthful(u) && Sound(u.manager)
  {
    var o := Step(w.manager, i);
    StepTracksAll(w.manager, i);
    CarryTruthful(w, o.next, o.actions, judge);
    CarryFrame(w, o.next, o.actions, judge);
  }

  /** No device that has a state is stale. */
  ghost predicate Fresh(w: World) {
    forall a :: a in w.manager.devices && w.manager.devices[a].current.Some? ==> a !in w.stale
  }

  /** The handler got all its state publications out. */
  predicate SaidAll(w: World, i: Input, judge: Judge) {
    var e := Handle(w, i, judge);
    Unsaid(Step(w.manager, i).actions[e.done..]) == {} && !e.lost
  }

  lemma CarryKeepsFresh(w: World, t: Manager, actions: seq<Action>, judge: Judge)
    requires Tracks(w.manager, actions, t) && AllRetained(actions) && Delivering(w)
    requires var e := Carry(w, t, actions, judge); Unsaid(actions[e.done..]) == {} && !e.lost
    requires Fresh(w) || (forall a :: a in t.devices ==> LastState(actions, a) == t.devices[a].current)
    ensures Fresh(Carry(w, t, actions, judge).world)
  {
    var u := Carry(w, t, actions, judge).world;
    CarryFrame(w, t, actions, judge);
    forall a | a in t.devices && t.devices[a].current.Some?
      ensures a !in u.stale
    {
      CarrySpeaks(w, t, actions, judge, a);
    }
  }

  /** While publications reach the broker, a handler that got all its state publications out makes nothing stale, and
      the connect handler leaves nothing stale whatever was lost before. */
  lemma HandleKeepsFresh(w: World, i: Input, judge: Judge)
    requires Sound(w.manager) && Delivering(w) && SaidAll(w, i, judge)
    requires Fresh(w) || i.MqttUp?
    ensures Fresh(Handle(w, i, judge).world)
  {
    var o := Step(w.manager, i);
    StepTracksAll(w.manager, i);
    if i.MqttUp? {
      ConnectRestates(w.manager);
    }
    CarryKeepsFresh(w, o.next, o.actions, judge);
  }

  lemma ConnectRestates(s: Manager)
    requires Sound(s)
    ensures var o := Step(s, MqttUp); forall a :: a in o.next.devices ==> LastState(o.actions, a) == o.next.devices[a].current
  {
    ConnectEffect(s);
  }

  /** What a run says about agreement: the broker shows the current state of every device that has one. */
  ghost predicate Agrees(w: World) {
    forall a :: a in w.manager.devices && w.manager.devices[a].current.Some? ==>
      Shown(w, a) == w.manager.devices[a].current
  }

  lemma FreshAndTruthfulAgree(w: World)
    requires Truthful(w) && Fresh(w)
    ensures Agrees(w)
  {
  }

  // Availability.

  ghost predicate NoAvailability(actions: seq<Action>) {
    forall x :: x in actions ==> !x.PublishAvailability?
  }

  lemma {:induction false} ExecuteWithoutAvailability(w: World, actions: seq<Action>, judge: Judge)
    requires NoAvailability(actions)
    ensures Execute(w, actions, judge).world.availability == w.availability
    decreases |actions|
  {
    if actions != [] {
      assert actions[0] in actions;
      assert NoAvailability(actions[1..]);
      ExecuteWithoutAvailability(Took(w, actions[0], judge(w, actions[0])), actions[1..], judge);
    }
  }

  /** Status actions come first and always end well, so the availability they announce is what the broker retains. */
  lemma ExecuteAvailability(w: World, online: bool, rest: seq<Action>, accepts: nat)
    requires NoAvailability(rest)
    ensures Execute(w, [PublishAvailability(online)] + rest, Real(accepts)).world.availability
         == if Delivering(w) then Some(online) else w.availability
  {
    var x := PublishAvailability(online);
    var actions := [x] + rest;
    assert actions[1..] == rest;
    assert Real(accepts)(w, x) == VerdictOf(w, x, accepts);
    ExecuteWithoutAvailability(Took(w, x, VerdictOf(w, x, accepts)), rest, Real(accepts));
  }

  lemma ObservationsAreNotAboutAvailability(s: Manager, i: Input)
    requires i.Observe? || i.Request?
    ensures NoAvailability(Step(s, i).actions)
  {
    match i
    case Request(a, c, now) => RequestsAreNotAboutAvailability(s, a, c, now);
    case Observe(Some(DeviceEvent(_, _, _, _, _)), now) => EventsAreNotAboutAvailability(s, i.event.value);
    case Observe(Some(HouseEvent(t, d, tr, c, house)), now) =>
      HouseLoopQuiet(CountEvent(s), HouseMembers(s.order, Normal(house)), i.event.value);
    case Observe(Some(StatusSnapshot(entries)), now) => SnapshotLoopQuiet(CountSync(s), entries, now);
    case _ =>
  }

  lemma RequestsAreNotAboutAvailability(s: Manager, a: string, c: Command, now: int)
    ensures NoAvailability(Requested(s, a, c, now).actions)
  {
  }

  lemma EventsAreNotAboutAvailability(s: Manager, e: Event)
    requires e.DeviceEvent?
    ensures NoAvailability(OnDeviceEvent(s, e).actions)
  {
  }

  lemma ConnectSaysNoMoreAvailability(s: Manager)
    requires Structured(s)
    ensures NoAvailability(RediscoverLoop(MqttMarkedUp(s), s.order).actions)
  {
    RediscoverLoopRestates(MqttMarkedUp(s), s.order);
  }

  lemma StatusFirst(s: Manager, y: seq<Action>)
    requires NoAvailability(y)
    ensures var x := StatusActions(s) + y; x[0] == PublishAvailability(s.mqtt && s.mochad) && NoAvailability(x[1..])
  {
    var x := StatusActions(s) + y;
    assert x[1..] == [StatusActions(s)[1]] + y;
  }

  lemma LinkStepsAnnounceAvailability(s: Manager, i: Input)
    requires Structured(s) && !i.Observe? && !i.Request?
    ensures var o := Step(s, i);
            && o.actions != [] && o.actions[0] == PublishAvailability(o.next.mqtt && o.next.mochad)
            && NoAvailability(o.actions[1..])
  {
    match i {
      case MqttUp =>
        ConnectSaysNoMoreAvailability(s);
        RediscoverLoopState(MqttMarkedUp(s), s.order);
        StatusFirst(MqttMarkedUp(s), RediscoverLoop(MqttMarkedUp(s), s.order).actions);
      case MqttDown => StatusFirst(OnMqttDown(s).next, []);
      case MochadUp => StatusFirst(OnMochadUp(s).next, [RequestStatus]);
      case MochadDown => StatusFirst(OnMochadDown(s).next, []);
    }
    assert StatusActions(Step(s, i).next) + [] == StatusActions(Step(s, i).next);
  }

  lemma CarryAvailability(w: World, t: Manager, actions: seq<Action>, accepts: nat)
    ensures var e := Carry(w, t, actions, Real(accepts));
            && (NoAvailability(actions) ==> e.world.availability == w.availability)
            && (actions != [] && actions[0].PublishAvailability? && NoAvailability(actions[1..]) ==>
                  e.world.availability == if Delivering(w) then Some(actions[0].online) else w.availability)
  {
    var start := w.(manager := t);
    if NoAvailability(actions) {
      ExecuteWithoutAvailability(start, actions, Real(accepts));
    }
    if actions != [] && actions[0].PublishAvailability? && NoAvailability(actions[1..]) {
      assert actions == [PublishAvailability(actions[0].online)] + actions[1..];
      ExecuteAvailability(start, actions[0].online, actions[1..], accepts);
    }
  }

  /** After a handler for a connection change the broker retains the new availability, if it hears it at all. */
  lemma HandleAvailability(w: World, i: Input, accepts: nat)
    requires Structured(w.manager)
    ensures var u := Handle(w, i, Real(accepts)).world;
            u.availability == if Delivering(w) && !i.Observe? && !i.Request?
                              then Some(Step(w.manager, i).next.mqtt && Step(w.manager, i).next.mochad)
                              else w.availability
  {
    var o := Step(w.manager, i);
    CarryAvailability(w, o.next, o.actions, accepts);
    if i.Observe? || i.Request? {
      ObservationsAreNotAboutAvailability(w.manager, i);
    } else {
      LinkStepsAnnounceAvailability(w.manager, i);
    }
  }
}
