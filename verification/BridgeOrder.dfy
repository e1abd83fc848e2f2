/** Where a device command goes: onto the wire or into the queue, and when it overtakes others. */
module BridgeOrder {
  import opened Text
  import opened Models
  import opened Addresses
  import opened StateSpec
  import opened StateHistory
  import opened BridgeSystem
  import opened BridgeRuns
  import opened BridgeCommands
  import opened Encoder
  import Q = CommandQueue
  import Topics

  ghost predicate SendsNothing(actions: seq<Action>) {
    forall x :: x in actions ==> !x.SendDevice?
  }

  predicate SameTraffic(w: World, u: World) {
    u.queue == w.queue && u.wire == w.wire
  }

  lemma TookQuiet(w: World, x: Action, accepts: nat)
    requires !x.SendDevice?
    ensures SameTraffic(w, Took(w, x, Real(accepts)(w, x)))
  {
    OnlyReadySendsWrite(w, x, accepts);
    assert w.wire + [] == w.wire;
    assert Tagged([], w) == [];
  }

  lemma {:induction false} ExecuteQuiet(w: World, actions: seq<Action>, accepts: nat)
    requires SendsNothing(actions)
    ensures SameTraffic(w, Execute(w, actions, Real(accepts)).world)
    decreases |actions|
  {
    if actions != [] {
      assert actions[0] in actions && SendsNothing(actions[1..]);
      TookQuiet(w, actions[0], accepts);
      ExecuteQuiet(Took(w, actions[0], Real(accepts)(w, actions[0])), actions[1..], accepts);
    }
  }

  // The law.

  /** Queue and wire after a command that reaches the send: straight onto the wire if mochad is ready, else queued. */
  function QueueAfter(w: World, m: Q.Message): Q.Ledger {
    if Ready(w) then w.queue else Q.Perform(w.queue, Q.Push(m))
  }

  function WireAfter(w: World, m: Q.Message, accepts: nat): seq<Written> {
    if Ready(w) then w.wire + Tagged(Q.Transmit(Q.JobOf(w.devices, m), accepts).written, w) else w.wire
  }

  ghost predicate Sent(w: World, u: World, m: Q.Message, accepts: nat) {
    u.queue == QueueAfter(w, m) && u.wire == WireAfter(w, m, accepts)
  }

  lemma SendTook(w: World, n: string, c: Models.Command, accepts: nat)
    ensures var x := SendDevice(n, c); Sent(w, Took(w, x, Real(accepts)(w, x)), Q.Message(n, c), accepts)
  {
    if !Ready(w) {
      assert Tagged([], w) == [] && w.wire + [] == w.wire;
    }
  }

  lemma SendThenQuiet(w: World, n: string, c: Models.Command, rest: seq<Action>, accepts: nat)
    requires SendsNothing(rest)
    ensures Sent(w, Execute(w, [SendDevice(n, c)] + rest, Real(accepts)).world, Q.Message(n, c), accepts)
  {
    var x := SendDevice(n, c);
    assert ([x] + rest)[1..] == rest;
    SendTook(w, n, c, accepts);
    ExecuteQuiet(Took(w, x, Real(accepts)(w, x)), rest, accepts);
  }

  /** Generating discovery for the device comes first and raises, so the command goes nowhere. */
  predicate Blocked(w: World, n: string) {
    w.manager.mqtt && !Get(w.manager, n).discovered && Flagged(w) && Refused(w, n)
  }

  lemma DiscoveryTook(w: World, n: string, c: Models.Command, accepts: nat)
    requires Normal(n) == n
    ensures var x := PublishDiscovery(n); var u := Took(w, x, Real(accepts)(w, x));
            && QueueAfter(u, Q.Message(n, c)) == QueueAfter(w, Q.Message(n, c))
            && WireAfter(u, Q.Message(n, c), accepts) == WireAfter(w, Q.Message(n, c), accepts)
  {
    var x := PublishDiscovery(n);
    TookQuiet(w, x, accepts);
    JobSurvivesDiscovery(w, n, c, Real(accepts)(w, x));
  }

  lemma DiscoveryThenSend(w: World, n: string, c: Models.Command, rest: seq<Action>, accepts: nat)
    requires Normal(n) == n && SendsNothing(rest)
    ensures var u := Execute(w, [PublishDiscovery(n)] + ([SendDevice(n, c)] + rest), Real(accepts)).world;
            if Flagged(w) && Refused(w, n) then SameTraffic(w, u) else Sent(w, u, Q.Message(n, c), accepts)
  {
    var x := PublishDiscovery(n);
    var tail := [SendDevice(n, c)] + rest;
    assert ([x] + tail)[1..] == tail;
    TookQuiet(w, x, accepts);
    DiscoveryTook(w, n, c, accepts);
    SendThenQuiet(Took(w, x, Real(accepts)(w, x)), n, c, rest, accepts);
  }

  lemma FollowUpSendsNothing(s: Manager, n: string, c: Models.Command, now: int)
    ensures SendsNothing(FollowUp(s, n, c, now).actions)
  {
  }

  lemma DiscoversExactly(s: Manager, n: string, c: Models.Command)
    ensures var o := Discover(Pend(Ensure(s, n), n, c), n);
            o.actions == if s.mqtt && !Get(s, n).discovered then [PublishDiscovery(n)] else []
  {
  }

  /** The same, when the manager has already moved on. */
  lemma CarrySent(w: World, t: Manager, first: seq<Action>, n: string, c: Models.Command, rest: seq<Action>, accepts: nat)
    requires Normal(n) == n && SendsNothing(rest) && (first == [] || first == [PublishDiscovery(n)])
    ensures var u := Carry(w, t, first + [SendDevice(n, c)] + rest, Real(accepts)).world;
            if first != [] && Flagged(w) && Refused(w, n) then SameTraffic(w, u) else Sent(w, u, Q.Message(n, c), accepts)
  {
    var v := w.(manager := t);
    if first == [] {
      assert first + [SendDevice(n, c)] + rest == [SendDevice(n, c)] + rest;
      SendThenQuiet(v, n, c, rest, accepts);
    } else {
      assert first + [SendDevice(n, c)] + rest == [PublishDiscovery(n)] + ([SendDevice(n, c)] + rest);
      DiscoveryThenSend(v, n, c, rest, accepts);
    }
  }

  lemma HandledCommand(w: World, n: string, c: Models.Command, now: int, accepts: nat)
    requires Normal(n) == n && Accepts(w.manager, n, c)
    ensures var u := Handle(w, Request(n, c, now), Real(accepts)).world;
            if Blocked(w, n) then SameTraffic(w, u) else Sent(w, u, Q.Message(n, c), accepts)
  {
    var o := Discover(Pend(Ensure(w.manager, n), n, c), n);
    var f := FollowUp(o.next, n, c, now);
    RequestedForwards(w.manager, n, c, now);
    ForwardPieces(w.manager, n, c, now);
    DiscoversExactly(w.manager, n, c);
    FollowUpSendsNothing(o.next, n, c, now);
    CarrySent(w, f.next, o.actions, n, c, f.actions, accepts);
  }

  lemma UnacceptedCommand(w: World, n: string, c: Models.Command, now: int, accepts: nat)
    requires Normal(n) == n && !Accepts(w.manager, n, c)
    ensures SameTraffic(w, Handle(w, Request(n, c, now), Real(accepts)).world)
  {
    assert Step(w.manager, Request(n, c, now)).actions == [];
    ExecuteQuiet(w.(manager := Step(w.manager, Request(n, c, now)).next), [], accepts);
  }

  /** The command reaches the send. */
  predicate Reaches(w: World, msg: Q.Message) {
    Accepts(w.manager, msg.address, msg.command) && !Blocked(w, msg.address)
  }

  /** Two worlds that treat the message alike. */
  predicate Alike(w: World, p: World, msg: Q.Message, accepts: nat) {
    && SameTraffic(w, p) && Reaches(p, msg) == Reaches(w, msg) && Blocked(p, msg.address) == Blocked(w, msg.address)
    && p.manager == w.manager
    && QueueAfter(p, msg) == QueueAfter(w, msg) && WireAfter(p, msg, accepts) == WireAfter(w, msg, accepts)
  }

  /** Knowing a device's default entry changes nothing about its traffic. */
  lemma KnownIsAlike(w: World, a: string, msg: Q.Message, accepts: nat)
    ensures Alike(w, w.(devices := Known(w.devices, a)), msg, accepts)
  {
    assert Q.DeviceAt(Known(w.devices, a), msg.address) == Q.DeviceAt(w.devices, msg.address);
  }

  lemma PreparedIsAlike(w: World, m: Move, msg: Q.Message)
    requires m.Command?
    ensures Alike(w, Prepare(w, m), msg, m.accepts)
  {
    var d := Topics.Route(m.topic, w.base);
    if d.ToDevice? {
      KnownIsAlike(w, d.address, msg, m.accepts);
    }
  }

  /** A command that arrives over MQTT, is let through and reaches the send is queued if and only if mochad is not
      connected or one of its readiness flags is false, at the end of the queue and at the cost of the oldest if 100 wait.
      Otherwise it goes straight onto the wire. A command that the state manager does not accept, or whose discovery
      raises, goes nowhere. */
  lemma CommandGoesWhereItMust(w: World, m: Move)
    requires m.Command? && Admitted(w, m.topic, m.payload).Some?
    ensures var msg := Admitted(w, m.topic, m.payload).value; var u := Next(w, m); var q := w.queue.waiting;
            if !Reaches(w, msg) then SameTraffic(w, u)
            else if !w.socket || w.usb == Some(false) || w.endpoints == Some(false) || w.transfers == Some(false) then
              u.wire == w.wire && u.queue.waiting == (if |q| >= 100 then q[1..] else q) + [msg]
            else
              var p := Q.Transmit(Q.JobOf(w.devices, msg), m.accepts);
              u.queue == w.queue && u.wire == w.wire + Tagged(p.written, w) && Q.Means(w.devices, msg, m.accepts, p)
  {
    var msg := Admitted(w, m.topic, m.payload).value;
    CommandIsSent(w, m);
    Q.TransmitMeans(w.devices, msg, m.accepts);
  }

  lemma CommandIsSent(w: World, m: Move)
    requires m.Command? && Admitted(w, m.topic, m.payload).Some?
    ensures var msg := Admitted(w, m.topic, m.payload).value; var u := Next(w, m);
            if Reaches(w, msg) then Sent(w, u, msg, m.accepts) else SameTraffic(w, u)
  {
    var msg := Admitted(w, m.topic, m.payload).value;
    AdmittedIsEncodable(w, m.topic, m.payload);
    CanonicalIsNormal(msg.address);
    PreparedIsAlike(w, m, msg);
    NextCommand(w, m, msg);
    CommandIsHandled(Prepare(w, m), msg, m.now, m.accepts);
  }

  lemma NextCommand(w: World, m: Move, msg: Q.Message)
    requires m.Command? && Admitted(w, m.topic, m.payload) == Some(msg)
    ensures Next(w, m) == Handle(Prepare(w, m), Request(msg.address, msg.command, m.now), Real(m.accepts)).world
  {
    CommandInput(w, m, msg);
    NextMeans(w, m, Request(msg.address, msg.command, m.now), m.accepts);
  }

  lemma CommandIsHandled(w: World, msg: Q.Message, now: int, accepts: nat)
    requires Normal(msg.address) == msg.address
    ensures var u := Handle(w, Request(msg.address, msg.command, now), Real(accepts)).world;
            if Reaches(w, msg) then Sent(w, u, msg, accepts) else SameTraffic(w, u)
  {
    if Accepts(w.manager, msg.address, msg.command) {
      HandledCommand(w, msg.address, msg.command, now, accepts);
    } else {
      UnacceptedCommand(w, msg.address, msg.command, now, accepts);
    }
  }

  // Overtaking.

  /** Lines were written while older commands wait, and they still wait. */
  predicate Overtakes(w: World, u: World) {
    w.queue.waiting != [] && u.queue == w.queue && |u.wire| > |w.wire|
  }

  /** The send writes at least one line. */
  predicate Writes(w: World, msg: Q.Message, accepts: nat) {
    accepts > 0 && Q.Attempts(w.devices, msg) > 0
  }

  lemma WritesExactly(w: World, msg: Q.Message, accepts: nat)
    requires Encodable(msg.address, msg.command)
    ensures Q.Transmit(Q.JobOf(w.devices, msg), accepts).written != [] <==> Writes(w, msg, accepts)
  {
    EncodableExactly(msg.address, msg.command);
  }

  /** A command overtakes the queue if and only if commands wait, mochad is ready, and the command reaches the send and
      writes something: there is order within the queue, none between the queue and the direct path. */
  lemma CommandOvertakesExactly(w: World, m: Move)
    requires m.Command? && Admitted(w, m.topic, m.payload).Some?
    ensures var msg := Admitted(w, m.topic, m.payload).value;
            Overtakes(w, Next(w, m)) <==>
              && w.queue.waiting != [] && Reaches(w, msg) && Writes(w, msg, m.accepts)
              && w.socket && w.usb != Some(false) && w.endpoints != Some(false) && w.transfers != Some(false)
  {
    var msg := Admitted(w, m.topic, m.payload).value;
    AdmittedIsEncodable(w, m.topic, m.payload);
    CommandIsSent(w, m);
    WritesExactly(w, msg, m.accepts);
  }

  // After a reconnect.

  lemma LinkHandlerKeepsTraffic(w: World, i: Input, accepts: nat)
    requires i.MochadUp? || i.MochadDown?
    ensures var u := Handle(w, i, Real(accepts)).world;
            && SameTraffic(w, u) && u.socket == w.socket
            && u.usb == w.usb && u.endpoints == w.endpoints && u.transfers == w.transfers
  {
    var o := Step(w.manager, i);
    assert SendsNothing(o.actions);
    ExecuteQuiet(w.(manager := o.next), o.actions, accepts);
    CarryFrame(w, o.next, o.actions, Real(accepts));
  }

  lemma DownClearsFlags(w: World)
    ensures var u := Next(w, MochadDisconnected);
            SameTraffic(w, u) && u.usb == None && u.endpoints == None && u.transfers == None
  {
    LinkHandlerKeepsTraffic(Prepare(w, MochadDisconnected), MochadDown, 0);
  }

  lemma UpKeepsFlags(w: World, accepts: nat)
    ensures var u := Next(w, MochadConnected(accepts)); SameTraffic(w, u) && Ready(u) == Ready(w)
  {
    LinkHandlerKeepsTraffic(Prepare(w, MochadConnected(accepts)), MochadUp, accepts);
  }

  function Reconnected(w: World, accepts: nat): World {
    Next(Next(Next(w, MochadDisconnected), SocketUp), MochadConnected(accepts))
  }

  lemma ReconnectedIsReady(w: World, accepts: nat)
    ensures Ready(Reconnected(w, accepts)) && SameTraffic(w, Reconnected(w, accepts))
  {
    DownClearsFlags(w);
    UpKeepsFlags(Next(Next(w, MochadDisconnected), SocketUp), accepts);
  }

  /** After a mochad reconnect the readiness flags are unknown, not false, so every command that reaches the send and
      writes something overtakes whatever was waiting before the reconnect. */
  lemma ReconnectOvertakesQueue(w: World, accepts: nat, m: Move)
    requires m.Command? && Admitted(Reconnected(w, accepts), m.topic, m.payload).Some?
    ensures var u := Reconnected(w, accepts); var msg := Admitted(u, m.topic, m.payload).value;
            Overtakes(u, Next(u, m)) <==> w.queue.waiting != [] && Reaches(u, msg) && Writes(u, msg, m.accepts)
  {
    ReconnectedIsReady(w, accepts);
    CommandOvertakesExactly(Reconnected(w, accepts), m);
  }

  // Health reports.

  /** The head of the queue asks for lines and the socket takes none. */
  predicate Stuck(w: World, accepts: nat) {
    w.queue.waiting != [] && accepts == 0 && Q.Attempts(w.devices, w.queue.waiting[0]) > 0
  }

  /** A flush of encodable jobs takes a command off the queue or writes a line, unless the socket takes nothing. */
  lemma FlushMakesProgress(jobs: seq<Q.Job>, accepts: nat)
    requires jobs != [] && jobs[0].line.Some?
    ensures var p := Q.FlushJobs(jobs, accepts);
            (p.gone == 0 && p.written == []) <==> (accepts == 0 && jobs[0].attempts > 0)
  {
    Q.FlushUnfolds(jobs, accepts);
    var s := Q.Transmit(jobs[0], accepts);
    if s.status == Q.SocketFailed {
      assert |s.written| == accepts;
    }
  }

  lemma DrainedDiffers(q: Q.Ledger, p: Q.Progress)
    requires p.gone <= |q.waiting| && p.status != Q.NotEncodable
    ensures Q.Drained(q, p) == q <==> p.gone == 0
  {
    if p.gone == 0 {
      assert Q.Departures(q.waiting, p) == [];
      assert q.waiting[0..] == q.waiting && q.left + [] == q.left;
    }
  }

  lemma FlushIsIdleExactly(w: World, accepts: nat)
    requires Q.AllEncodable(w.queue.waiting)
    ensures SameTraffic(w, Flush(w, accepts)) <==> w.queue.waiting == [] || !Ready(w) || Stuck(w, accepts)
  {
    if w.queue.waiting != [] && Ready(w) {
      var jobs := Q.Jobs(w.devices, w.queue.waiting);
      var p := Q.FlushJobs(jobs, accepts);
      EncodableFlush(w.devices, w.queue.waiting, accepts);
      FlushMakesProgress(jobs, accepts);
      DrainedDiffers(w.queue, p);
      assert w.wire + Tagged(p.written, w) == w.wire <==> p.written == [];
    }
  }

  lemma DiagnosedTraffic(w: World, m: Move)
    requires m.Diagnose?
    ensures var d := Diagnosed(w, m); SameTraffic(w, d) && (forall n :: Stuck(d, n) == Stuck(w, n))
    ensures Next(w, m) == if Flagged(w) && !m.kind.Capabilities? && DiscoveryRaises(w) then Diagnosed(w, m)
                          else if m.kind.Health? then Flush(Diagnosed(w, m), m.accepts) else Diagnosed(w, m)
  {
  }

  /** A health report leaves queue and wire alone if and only if discovery raises while MQTT is up, or nothing waits, or
      mochad is not ready by what the report says, or the socket takes nothing. */
  lemma HealthReportIsIdleExactly(w: World, m: Move)
    requires m.Diagnose? && m.kind.Health? && Q.AllEncodable(w.queue.waiting)
    ensures SameTraffic(w, Next(w, m)) <==>
      || (Flagged(w) && DiscoveryRaises(w)) || w.queue.waiting == [] || Stuck(w, m.accepts)
      || !w.socket || (if m.usb.Some? then m.usb.value else w.usb) == Some(false)
      || (if m.endpoints.Some? then m.endpoints.value else w.endpoints) == Some(false)
      || (if m.transfers.Some? then m.transfers.value else w.transfers) == Some(false)
  {
    DiagnosedTraffic(w, m);
    FlushIsIdleExactly(Diagnosed(w, m), m.accepts);
  }

  /** No other report touches them. */
  lemma OtherReportsAreIdle(w: World, m: Move)
    requires m.Diagnose? && !m.kind.Health?
    ensures SameTraffic(w, Next(w, m))
  {
    DiagnosedTraffic(w, m);
  }

  /** Over every run, with the queue that the run has built up. */
  lemma EveryHealthReportFlushes(w: World, moves: seq<Move>, m: Move)
    requires Starting(w) && m.Diagnose? && m.kind.Health?
    ensures var u := RunMoves(Course(w, false), moves).world;
            SameTraffic(u, Next(u, m)) <==>
              || (Flagged(u) && DiscoveryRaises(u)) || u.queue.waiting == [] || Stuck(u, m.accepts)
              || !u.socket || (if m.usb.Some? then m.usb.value else u.usb) == Some(false)
              || (if m.endpoints.Some? then m.endpoints.value else u.endpoints) == Some(false)
              || (if m.transfers.Some? then m.transfers.value else u.transfers) == Some(false)
  {
    CommandsStayInOrder(w, moves);
    HealthReportIsIdleExactly(RunMoves(Course(w, false), moves).world, m);
  }
}
