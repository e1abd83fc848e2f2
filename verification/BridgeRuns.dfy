/** Every run of the bridge: what its moves are, and what they keep. */
module BridgeRuns {
  import opened Text
  import opened Models
  import opened StateSpec
  import opened StateRuns
  import opened StateHistory
  import opened BridgeSystem
  import opened Encoder
  import Q = CommandQueue
  import Topics
  import Discovery

  datatype Diagnostic = Hello | Capabilities | Health

  /** One atomic step: a connection event, a callback of one of the clients, or a configuration reload. `accepts` is how
      many more lines the mochad socket takes during the step. */
  datatype Move =
    | Accept                 // the broker accepts a new session, ending one it still has
    | Reject                 // the broker answers with a refusal
    | RaiseFlag              // MqttClient._on_connect sets _connected
    | Connected              // ... and runs the connect handler
    | LoseLink               // the broker gives up the session it has and publishes the Will
    | DropFlag               // MqttClient._on_disconnect clears _connected
    | Disconnected           // ... and runs the disconnect handler
    | SocketUp
    | MochadConnected(accepts: nat)
    | SocketDown
    | MochadDisconnected
    | MochadLine(event: Option<Event>, now: int)
    | Diagnose(kind: Diagnostic, usb: Option<Option<bool>>, endpoints: Option<Option<bool>>,
               transfers: Option<Option<bool>>, accepts: nat)
    | Command(topic: string, payload: string, now: int, accepts: nat)
    | Reload(devices: map<string, DeviceConfig>)

  function CommandOf(payload: string): Option<Models.Command> {
    var p := Normal(payload);
    if p == "ON" then Some(On) else if p == "OFF" then Some(Off)
    else if p == "DIM" then Some(Dim) else if p == "BRIGHT" then Some(Bright) else None
  }

  /** The device command a message carries, if the bridge lets it through to the state manager. */
  function Admitted(w: World, topic: string, payload: string): Option<Q.Message> {
    match (Topics.Route(topic, w.base), CommandOf(payload))
    case (ToDevice(a), Some(c)) =>
      if c in Q.DeviceAt(w.devices, a).supported && EncodeRf(a, c).Some? then Some(Q.Message(a, c)) else None
    case _ => None
  }

  function Merge(before: Option<bool>, update: Option<Option<bool>>): Option<bool> {
    if update.Some? then update.value else before
  }

  predicate SomeRefused(w: World) {
    exists n :: n in w.devices && Discovery.DiscoveryMessage(w.devices[n], w.prefix, w.base).Err?
  }

  /** Generating the discovery messages of all devices and of the bridge itself raises. */
  predicate DiscoveryRaises(w: World) {
    SomeRefused(w) || Topics.CleanSegment(w.prefix) == None || Topics.CleanSegment(w.base) == None
  }

  /** A reload that changes something publishes discovery while MQTT is up; if that raises, the exception leaves the main
      loop and ends the bridge. */
  predicate ReloadRaises(w: World, devices: Devices, renamed: bool) {
    (devices != w.devices || renamed) && Flagged(w) && DiscoveryRaises(w.(devices := devices))
  }

  function KnownAll(devices: map<string, DeviceConfig>, q: seq<Q.Message>): map<string, DeviceConfig>
    decreases |q|
  {
    if q == [] then devices else KnownAll(Known(devices, q[0].address), q[1..])
  }

  /** _flush_queued_device_commands */
  function Flush(w: World, accepts: nat): World {
    if w.queue.waiting == [] || !Ready(w) then w
    else
      var p := Q.FlushJobs(Q.Jobs(w.devices, w.queue.waiting), accepts);
      w.(queue := Q.Drained(w.queue, p), wire := w.wire + Tagged(p.written, w),
         devices := KnownAll(w.devices, Tried(w.queue.waiting, p.gone)))
  }

  /** The commands a flush looked up: those it took off the queue and the one it put back. */
  function Tried(q: seq<Q.Message>, gone: nat): seq<Q.Message>
    requires gone <= |q|
  {
    if gone < |q| then q[..gone + 1] else q
  }

  function Diagnosed(w: World, m: Move): World
    requires m.Diagnose?
  {
    w.(usb := Merge(w.usb, m.usb), endpoints := Merge(w.endpoints, m.endpoints),
       transfers := Merge(w.transfers, m.transfers))
  }

  /** The bookkeeping a move does before its handler runs. */
  function Prepare(w: World, m: Move): World {
    match m
    case Connected => w.(phase := Running, met := w.met || w.link)
    case Disconnected => w.(phase := Idle)
    case MochadConnected(_) => w.(met := w.met || Delivering(w))
    case MochadDisconnected => w.(usb := None, endpoints := None, transfers := None, met := w.met || Delivering(w))
    case Command(topic, payload, _, _) => Learned(w, Topics.Route(topic, w.base), CommandOf(payload).Some?)
    case _ => w
  }

  /** A command that is understood makes its device known. */
  function Learned(w: World, d: Topics.Destination, understood: bool): World {
    if d.ToDevice? && understood then w.(devices := Known(w.devices, d.address)) else w
  }

  /** The state manager input a move amounts to, if any, and how many lines the socket takes. */
  function InputOf(w: World, m: Move): Option<(Input, nat)> {
    match m
    case Connected => if w.phase.FlagSet? then Some((MqttUp, 0)) else None
    case Disconnected => if w.phase.Dropping? then Some((MqttDown, 0)) else None
    case MochadConnected(accepts) => Some((MochadUp, accepts))
    case MochadDisconnected => Some((MochadDown, 0))
    case MochadLine(event, now) => Some((Observe(event, now), 0))
    case Command(topic, payload, now, accepts) =>
      match Admitted(w, topic, payload) {
        case Some(msg) => Some((Request(msg.address, msg.command, now), accepts))
        case None => None
      }
    case _ => None
  }

  /** The broker gives up a session and publishes its Will. */
  function Willed(w: World): World {
    w.(link := false, outdated := false, met := true, availability := Some(false))
  }

  /** Moves that never reach the state manager. */
  function Plain(w: World, m: Move): World {
    match m
    case Accept =>
      if !w.phase.Idle? then w
      else if w.outdated then Willed(w).(phase := Answered, link := true) else w.(phase := Answered, link := true)
    case Reject => if w.phase.Idle? then w.(phase := Answered) else w
    case RaiseFlag => if w.phase.Answered? then w.(phase := FlagSet) else w
    case LoseLink => if w.link || w.outdated then Willed(w) else w
    case DropFlag => if w.phase.Running? then w.(phase := Dropping, link := false, outdated := w.link || w.outdated) else w
    case SocketUp => w.(socket := true)
    case SocketDown => w.(socket := false)
    case Diagnose(kind, _, _, _, accepts) =>
      var d := Diagnosed(w, m);
      if Flagged(w) && !kind.Capabilities? && DiscoveryRaises(w) then d
      else if kind.Health? then Flush(d, accepts) else d
    case Reload(devices) => w.(devices := devices)
    case Command(_, _, _, _) => Prepare(w, m)
    case _ => w
  }

  function Next(w: World, m: Move): World {
    match InputOf(w, m)
    case Some((i, accepts)) => Handle(Prepare(w, m), i, Real(accepts)).world
    case None => Plain(w, m)
  }

  /** How _on_mqtt_connected ends: after its actions it generates the bridge's own discovery messages and, for the
      cleanup, those of every entry of Bridge.devices. */
  function ConnectEnding(w: World): Ending {
    var e := Handle(Prepare(w, Connected), MqttUp, Real(0));
    if !e.ending.Done? then e.ending else if DiscoveryRaises(e.world) then Raised else Done
  }

  /** All state publications of this move got out, or it had none. */
  predicate Complete(w: World, m: Move) {
    match InputOf(w, m)
    case Some((i, accepts)) => SaidAll(Prepare(w, m), i, Real(accepts))
    case None => true
  }

  lemma NextMeans(w: World, m: Move, i: Input, accepts: nat)
    requires InputOf(w, m) == Some((i, accepts))
    ensures Next(w, m) == Handle(Prepare(w, m), i, Real(accepts)).world
    ensures Complete(w, m) == SaidAll(Prepare(w, m), i, Real(accepts))
  {
  }

  lemma CommandInput(w: World, m: Move, msg: Q.Message)
    requires m.Command? && Admitted(w, m.topic, m.payload) == Some(msg)
    ensures InputOf(w, m) == Some((Request(msg.address, msg.command, m.now), m.accepts))
  {
  }

  /** A run, together with the claim that since the last connect handler every move was complete. */
  datatype Course = Course(world: World, clean: bool)

  function Proceed(c: Course, m: Move): Course {
    var complete := Complete(c.world, m);
    Course(Next(c.world, m), if m.Connected? && c.world.phase.FlagSet? then complete else c.clean && complete)
  }

  function RunMoves(c: Course, moves: seq<Move>): Course
    decreases |moves|
  {
    if moves == [] then c else Proceed(RunMoves(c, moves[..|moves| - 1]), moves[|moves| - 1])
  }

  // The invariants.

  /** The session's phase and the manager's flag fit together. */
  predicate Phased(w: World) {
    w.manager.mqtt <==> w.phase.Running? || w.phase.Dropping?
  }

  /** Once it has met the bridge, a broker without an outdated session says "online" exactly while it hears a bridge that
      has both connections. */
  predicate AvailabilityRight(w: World) {
    && (w.met && !w.outdated ==> (w.availability == Some(true) <==> w.link && w.phase.Running? && w.manager.mochad))
    && (w.link ==> !w.outdated && !w.phase.Idle? && !w.phase.Dropping?)
    && (w.link && w.phase.Running? ==> w.met)
  }

  lemma PlainKeeps(w: World, m: Move)
    requires Phased(w) && AvailabilityRight(w) && Truthful(w) && InputOf(w, m) == None
    ensures var u := Plain(w, m);
            && Phased(u) && AvailabilityRight(u) && Truthful(u) && u.manager == w.manager && u.stale == w.stale
            && (u.phase.Running? && u.link ==> w.phase.Running? && w.link)
  {
    if !IsSession(m) {
      PlainIsQuiet(w, m);
      SameViewKeeps(w, Plain(w, m));
    }
  }

  /** Moves of an MQTT session below the handlers. */
  predicate IsSession(m: Move) {
    m.Accept? || m.Reject? || m.RaiseFlag? || m.LoseLink? || m.DropFlag?
  }

  /** Everything the broker and the manager see of each other. */
  predicate SameView(w: World, u: World) {
    && u.manager == w.manager && u.stale == w.stale && u.states == w.states && u.availability == w.availability
    && u.phase == w.phase && u.link == w.link && u.outdated == w.outdated && u.met == w.met
  }

  lemma FlushIsQuiet(w: World, accepts: nat)
    ensures SameView(w, Flush(w, accepts))
  {
  }

  lemma PlainIsQuiet(w: World, m: Move)
    requires InputOf(w, m) == None && !IsSession(m)
    ensures SameView(w, Plain(w, m))
  {
    if m.Diagnose? {
      FlushIsQuiet(Diagnosed(w, m), m.accepts);
    } else if m.Command? {
      CommandIsQuiet(w, m);
    }
  }

  lemma CommandIsQuiet(w: World, m: Move)
    requires m.Command?
    ensures SameView(w, Prepare(w, m))
  {
  }

  lemma SameViewKeeps(w: World, u: World)
    requires SameView(w, u) && Phased(w) && AvailabilityRight(w) && Truthful(w)
    ensures Phased(u) && AvailabilityRight(u) && Truthful(u)
  {
    assert forall a :: Shown(u, a) == Shown(w, a);
  }

  lemma StepLinks(s: Manager, i: Input)
    requires Sound(s)
    ensures var t := Step(s, i).next;
            && t.mqtt == (if i.MqttUp? then true else if i.MqttDown? then false else s.mqtt)
            && t.mochad == (if i.MochadUp? then true else if i.MochadDown? then false else s.mochad)
  {
    if i.Observe? || i.Request? {
      HandledStep(s, i);
    } else if i.MqttUp? {
      RediscoverLoopState(MqttMarkedUp(s), s.order);
    }
  }

  /** What a move that reaches the state manager does to the surroundings. */
  lemma HandledFrame(w: World, i: Input, accepts: nat)
    ensures var u := Handle(w, i, Real(accepts)).world;
            && u.manager == Step(w.manager, i).next && u.phase == w.phase && u.link == w.link && u.outdated == w.outdated
            && u.met == w.met && u.socket == w.socket && u.prefix == w.prefix && u.base == w.base
  {
    var o := Step(w.manager, i);
    CarryFrame(w, o.next, o.actions, Real(accepts));
  }

  /** The handler announces the availability. */
  predicate IsAnnouncement(i: Input) { !i.Observe? && !i.Request? }

  /** The surroundings after a handler, as far as phase and availability depend on them. */
  lemma LinksKeep(w: World, p: World, u: World, i: Input)
    requires Phased(w) && AvailabilityRight(w) && p.manager == w.manager && p.link == w.link && p.outdated == w.outdated
    requires p.availability == w.availability && u.phase == p.phase && u.link == p.link && u.outdated == p.outdated
    requires u.met == p.met == (w.met || (Delivering(p) && IsAnnouncement(i)))
    requires if i.MqttUp? then w.phase.FlagSet? && p.phase.Running?
             else if i.MqttDown? then w.phase.Dropping? && p.phase.Idle? else p.phase == w.phase
    requires u.manager.mqtt == (if i.MqttUp? then true else if i.MqttDown? then false else w.manager.mqtt)
    requires u.manager.mochad == (if i.MochadUp? then true else if i.MochadDown? then false else w.manager.mochad)
    requires u.availability == if Delivering(p) && !i.Observe? && !i.Request? then Some(u.manager.mqtt && u.manager.mochad)
                               else w.availability
    ensures Phased(u) && AvailabilityRight(u)
  {
  }

  lemma PreparedPhase(w: World, m: Move, i: Input, accepts: nat)
    requires InputOf(w, m) == Some((i, accepts))
    ensures var p := Prepare(w, m);
            && p.manager == w.manager && p.link == w.link && p.outdated == w.outdated && p.availability == w.availability
            && p.met == (w.met || (Delivering(p) && IsAnnouncement(i)))
            && if i.MqttUp? then w.phase.FlagSet? && p.phase.Running?
               else if i.MqttDown? then w.phase.Dropping? && p.phase.Idle? else p.phase == w.phase
  {
  }

  lemma HandledKeeps(w: World, m: Move, i: Input, accepts: nat)
    requires Sound(w.manager) && Phased(w) && AvailabilityRight(w) && InputOf(w, m) == Some((i, accepts))
    ensures var u := Handle(Prepare(w, m), i, Real(accepts)).world; Phased(u) && AvailabilityRight(u)
  {
    var p := Prepare(w, m);
    PreparedPhase(w, m, i, accepts);
    HandledFrame(p, i, accepts);
    HandleAvailability(p, i, accepts);
    StepLinks(w.manager, i);
    LinksKeep(w, p, Handle(p, i, Real(accepts)).world, i);
  }

  lemma PrepareKeeps(w: World, m: Move)
    ensures var p := Prepare(w, m);
            && p.manager == w.manager && p.states == w.states && p.stale == w.stale
            && p.link == w.link && p.outdated == w.outdated
    ensures !m.Connected? && !m.Disconnected? ==> Prepare(w, m).phase == w.phase
  {
  }

  /** The connected bridge whose moves have all been complete since it connected has nothing stale. */
  ghost predicate CleanIsFresh(c: Course) {
    c.world.phase.Running? && c.world.link && c.clean ==> Fresh(c.world)
  }

  ghost predicate OnCourse(c: Course) {
    Sound(c.world.manager) && Phased(c.world) && AvailabilityRight(c.world) && Truthful(c.world) && CleanIsFresh(c)
  }

  lemma HandledFresh(c: Course, m: Move, i: Input, accepts: nat)
    requires Sound(c.world.manager) && CleanIsFresh(c) && InputOf(c.world, m) == Some((i, accepts))
    ensures CleanIsFresh(Proceed(c, m))
  {
    var w, p := c.world, Prepare(c.world, m);
    HandledFrame(p, i, accepts);
    PrepareKeeps(w, m);
    if p.phase.Running? && p.link && Complete(w, m) && (i.MqttUp? || c.clean) {
      HandleKeepsFresh(p, i, Real(accepts));
    }
  }

  lemma ProceedKeeps(c: Course, m: Move)
    requires OnCourse(c)
    ensures OnCourse(Proceed(c, m))
  {
    var w := c.world;
    match InputOf(w, m)
    case Some((i, accepts)) =>
      PrepareKeeps(w, m);
      HandledKeeps(w, m, i, accepts);
      HandleTruthful(Prepare(w, m), i, Real(accepts));
      HandledFresh(c, m, i, accepts);
    case None =>
      PlainKeeps(w, m);
  }

  /** No session, nothing queued, nothing said. */
  predicate Unused(w: World) {
    w.phase.Idle? && !w.link && !w.outdated && !w.met && w.queue == Q.NEW && w.wire == [] && w.stale == {}
  }

  /** The bridge before its first move: a fresh state manager, no session, and a broker that may retain anything. */
  ghost predicate Starting(w: World) {
    Unused(w) && exists devices, optimistic, codes :: w.manager == Create(devices, optimistic, codes)
  }

  lemma StartOnCourse(w: World)
    requires Starting(w)
    ensures OnCourse(Course(w, false))
  {
    var devices, optimistic, codes :| w.manager == Create(devices, optimistic, codes);
    ConfigureKeeps(Empty(optimistic, codes), devices);
  }

  lemma {:induction false} RunOnCourse(c: Course, moves: seq<Move>)
    requires OnCourse(c)
    ensures OnCourse(RunMoves(c, moves))
    decreases |moves|
  {
    if moves != [] {
      RunOnCourse(c, moves[..|moves| - 1]);
      ProceedKeeps(RunMoves(c, moves[..|moves| - 1]), moves[|moves| - 1]);
    }
  }

  /** In every run, while the session lives and every state publication since the connect handler got out, the broker
      shows the current state of every device that has one. At all other times it does so for every device whose latest
      publication got out. */
  lemma BrokerAgreesWithManager(w: World, moves: seq<Move>)
    requires Starting(w)
    ensures var c := RunMoves(Course(w, false), moves);
            && Truthful(c.world)
            && (c.world.phase.Running? && c.world.link && c.clean ==> Agrees(c.world))
  {
    StartOnCourse(w);
    RunOnCourse(Course(w, false), moves);
    var c := RunMoves(Course(w, false), moves);
    if c.world.phase.Running? && c.world.link && c.clean {
      FreshAndTruthfulAgree(c.world);
    }
  }

  /** Whatever was lost before, a complete connect handler on a living session restores full agreement. */
  lemma ConnectRestoresAgreement(w: World, moves: seq<Move>)
    requires Starting(w)
    requires var u := RunMoves(Course(w, false), moves).world; u.phase.FlagSet? && u.link && Complete(u, Connected)
    ensures Agrees(Next(RunMoves(Course(w, false), moves).world, Connected))
  {
    var c := RunMoves(Course(w, false), moves);
    StartOnCourse(w);
    RunOnCourse(Course(w, false), moves);
    ProceedKeeps(c, Connected);
    HandledFrame(Prepare(c.world, Connected), MqttUp, 0);
    FreshAndTruthfulAgree(Next(c.world, Connected));
  }

  /** The client gave up, with mochad connected, the session that the broker may still have. */
  predicate GaveUpOnline(w: World, moves: seq<Move>)
    decreases |moves|
  {
    moves != []
    && var init, last := moves[..|moves| - 1], moves[|moves| - 1];
       var u := RunMoves(Course(w, false), init).world;
       if last.DropFlag? && u.phase.Running? && u.link then u.manager.mochad else GaveUpOnline(w, init)
  }

  lemma OutdatedIsSilent(w: World, m: Move)
    requires Sound(w.manager) && AvailabilityRight(w) && w.outdated
    ensures Next(w, m).outdated ==> Next(w, m).availability == w.availability
  {
    match InputOf(w, m)
    case Some((i, accepts)) =>
      PreparedPhase(w, m, i, accepts);
      HandledFrame(Prepare(w, m), i, accepts);
      HandleAvailability(Prepare(w, m), i, accepts);
    case None =>
      if !IsSession(m) {
        PlainIsQuiet(w, m);
      }
  }

  lemma OutdatedBegins(w: World, m: Move)
    requires !w.outdated && Next(w, m).outdated
    ensures m.DropFlag? && w.phase.Running? && w.link && Next(w, m).availability == w.availability
  {
    match InputOf(w, m)
    case Some((i, accepts)) =>
      PreparedPhase(w, m, i, accepts);
      HandledFrame(Prepare(w, m), i, accepts);
    case None =>
      if !IsSession(m) {
        PlainIsQuiet(w, m);
      }
  }

  /** While the broker has an outdated session, it shows what that session announced last. */
  lemma {:induction false} OutdatedShows(w: World, moves: seq<Move>)
    requires Starting(w)
    ensures var u := RunMoves(Course(w, false), moves).world;
            u.outdated ==> (u.availability == Some(true) <==> GaveUpOnline(w, moves))
    decreases |moves|
  {
    if moves != [] {
      var init, last := moves[..|moves| - 1], moves[|moves| - 1];
      var u := RunMoves(Course(w, false), init).world;
      OutdatedShows(w, init);
      StartOnCourse(w);
      RunOnCourse(Course(w, false), init);
      if u.outdated {
        OutdatedIsSilent(u, last);
      } else if Next(u, last).outdated {
        OutdatedBegins(u, last);
      }
    }
  }

  lemma UnmetIsSilent(w: World, m: Move)
    requires Sound(w.manager) && !Next(w, m).met
    ensures !w.met && Next(w, m).availability == w.availability
  {
    match InputOf(w, m)
    case Some((i, accepts)) =>
      PreparedPhase(w, m, i, accepts);
      HandledFrame(Prepare(w, m), i, accepts);
      HandleAvailability(Prepare(w, m), i, accepts);
    case None =>
      if !IsSession(m) {
        PlainIsQuiet(w, m);
      }
  }

  /** Until the broker hears of the bridge, it shows what it showed before. */
  lemma {:induction false} UnmetShows(w: World, moves: seq<Move>)
    requires Starting(w)
    ensures var u := RunMoves(Course(w, false), moves).world; !u.met ==> u.availability == w.availability
    decreases |moves|
  {
    if moves != [] {
      var init, last := moves[..|moves| - 1], moves[|moves| - 1];
      UnmetShows(w, init);
      StartOnCourse(w);
      RunOnCourse(Course(w, false), init);
      if !RunMoves(Course(w, false), moves).world.met {
        UnmetIsSilent(RunMoves(Course(w, false), init).world, last);
      }
    }
  }

  /** What the broker shows that the bridge, as it is now, did not announce: an "online" from before it heard of the bridge,
      or from a session that the client gave up with mochad connected. */
  predicate ShowsThePast(w: World, moves: seq<Move>) {
    var u := RunMoves(Course(w, false), moves).world;
    (!u.met && w.availability == Some(true)) || (u.outdated && GaveUpOnline(w, moves))
  }

  /** In every run the retained availability is exact: "online" if and only if the broker hears a bridge with both
      connections, or it shows the past. */
  lemma AvailabilityIsExact(w: World, moves: seq<Move>)
    requires Starting(w)
    ensures var u := RunMoves(Course(w, false), moves).world;
            u.availability == Some(true) <==>
              (u.link && u.phase.Running? && u.manager.mochad) || ShowsThePast(w, moves)
  {
    StartOnCourse(w);
    RunOnCourse(Course(w, false), moves);
    OutdatedShows(w, moves);
    UnmetShows(w, moves);
    OutdatedIsMet(w, moves);
  }

  lemma {:induction false} OutdatedIsMet(w: World, moves: seq<Move>)
    requires Starting(w)
    ensures var u := RunMoves(Course(w, false), moves).world; u.outdated ==> u.met
    decreases |moves|
  {
    if moves != [] {
      var init, last := moves[..|moves| - 1], moves[|moves| - 1];
      var u := RunMoves(Course(w, false), init).world;
      OutdatedIsMet(w, init);
      StartOnCourse(w);
      RunOnCourse(Course(w, false), init);
      if !Next(u, last).met {
        UnmetIsSilent(u, last);
        if Next(u, last).outdated {
          OutdatedBegins(u, last);
        }
      }
    }
  }

  /** So it is "online" exactly while both connections are up if and only if the broker does not show the past. */
  lemma AvailabilityIsRightExactly(w: World, moves: seq<Move>)
    requires Starting(w)
    ensures var u := RunMoves(Course(w, false), moves).world;
            (u.availability == Some(true) <==> u.link && u.phase.Running? && u.manager.mochad) <==>
              !ShowsThePast(w, moves)
  {
    AvailabilityIsExact(w, moves);
    StartOnCourse(w);
    RunOnCourse(Course(w, false), moves);
  }
}
