/** Device commands through the whole bridge: what reaches the wire, what waits, and what a failed send leaves behind. */
module BridgeCommands {
  import opened Text
  import opened Models
  import opened Addresses
  import opened StateSpec
  import opened StateRuns
  import opened StateHistory
  import opened BridgeSystem
  import opened BridgeRuns
  import opened Encoder
  import Q = CommandQueue
  import Topics

  // The wire and the queue, over every run.

  ghost predicate NoneLost(fates: seq<Q.Fate>) {
    forall f :: f in fates ==> !f.LostToEncoding?
  }

  /** The queue's books balance, every waiting command can be encoded, and none was ever lost to an encoding error. */
  ghost predicate QueueInOrder(q: Q.Ledger) {
    Q.Balanced(q) && Q.AllEncodable(q.waiting) && NoneLost(q.left)
  }

  /** Written while mochad was connected and none of its readiness flags was false. */
  predicate WhileReady(x: Written) {
    x.socket && x.usb != Some(false) && x.endpoints != Some(false) && x.transfers != Some(false)
  }

  /** Device-command lines were written only to a ready mochad, and the queue is in order. */
  ghost predicate InOrder(w: World) {
    (forall k :: 0 <= k < |w.wire| ==> WhileReady(w.wire[k])) && QueueInOrder(w.queue)
  }

  lemma PushInOrder(q: Q.Ledger, m: Q.Message)
    requires QueueInOrder(q) && Encodable(m.address, m.command)
    ensures QueueInOrder(Q.Perform(q, Q.Push(m)))
  {
    Q.PushBalances(q, m);
  }

  lemma DrainInOrder(q: Q.Ledger, p: Q.Progress)
    requires QueueInOrder(q) && p.gone <= |q.waiting| && p.status != Q.NotEncodable
    ensures QueueInOrder(Q.Drained(q, p))
  {
    Q.DrainBalances(q, p);
    assert Q.AllEncodable(q.waiting[p.gone..]);
  }

  lemma OnlyReadySendsWrite(w: World, x: Action, accepts: nat)
    ensures VerdictOf(w, x, accepts).lines != [] ==> x.SendDevice? && Ready(w)
  {
  }

  lemma TookInOrder(w: World, x: Action, v: Verdict)
    requires InOrder(w) && (v.lines != [] ==> Ready(w))
    requires x.SendDevice? ==> Encodable(x.address, x.command)
    ensures InOrder(Took(w, x, v))
  {
    var t := Took(w, x, v);
    assert forall k :: 0 <= k < |t.wire| ==> WhileReady(t.wire[k]);
    if x.SendDevice? {
      PushInOrder(w.queue, Q.Message(x.address, x.command));
    }
  }

  ghost predicate SendsEncodable(actions: seq<Action>) {
    forall x :: x in actions && x.SendDevice? ==> Encodable(x.address, x.command)
  }

  lemma {:induction false} ExecuteInOrder(w: World, actions: seq<Action>, accepts: nat)
    requires InOrder(w) && SendsEncodable(actions)
    ensures InOrder(Execute(w, actions, Real(accepts)).world)
    decreases |actions|
  {
    if actions != [] {
      var x := actions[0];
      var v := VerdictOf(w, x, accepts);
      assert x in actions;
      assert Real(accepts)(w, x) == v;
      OnlyReadySendsWrite(w, x, accepts);
      TookInOrder(w, x, v);
      assert SendsEncodable(actions[1..]);
      ExecuteInOrder(Took(w, x, v), actions[1..], accepts);
    }
  }

  lemma {:induction false} SendsAreListed(actions: seq<Action>, x: Action)
    requires x in actions && x.SendDevice?
    ensures (x.address, x.command) in Sends(actions)
  {
    if actions[|actions| - 1] != x {
      assert x in actions[..|actions| - 1];
      SendsAreListed(actions[..|actions| - 1], x);
    }
  }

  lemma AdmittedIsEncodable(w: World, topic: string, payload: string)
    ensures var msg := Admitted(w, topic, payload);
            msg.Some? ==> Canonical(msg.value.address) && Encodable(msg.value.address, msg.value.command)
  {
    var msg := Admitted(w, topic, payload);
    if msg.Some? {
      Topics.RoutedAddressIsCanonical(topic, w.base);
      EncodableExactly(msg.value.address, msg.value.command);
    }
  }

  /** The payload names the command. */
  predicate PayloadNames(payload: string, c: Models.Command) {
    || (c == On && Normal(payload) == "ON") || (c == Off && Normal(payload) == "OFF")
    || (c == Dim && Normal(payload) == "DIM") || (c == Bright && Normal(payload) == "BRIGHT")
  }

  /** A message is let through as a command for a device if and only if its topic is the device's command topic, its
      payload names the command, and the device supports it; one that nobody configured supports ON and OFF. */
  lemma AdmittedExactly(w: World, topic: string, payload: string, msg: Q.Message)
    ensures Admitted(w, topic, payload) == Some(msg) <==>
      && Topics.ParseCommandTopic(topic, w.base) == Some(msg.address) && PayloadNames(payload, msg.command)
      && (if msg.address in w.devices then msg.command in w.devices[msg.address].supported
          else msg.command == On || msg.command == Off)
  {
    Topics.NoTopicIsBoth(topic, w.base);
    Topics.RoutedAddressIsCanonical(topic, w.base);
    if Topics.ParseCommandTopic(topic, w.base).Some? {
      CanonicalIsNormal(Topics.ParseCommandTopic(topic, w.base).value);
    }
    EncodableExactly(msg.address, msg.command);
  }

  /** What the state manager is asked to do in a run never makes it send something that cannot be encoded. */
  lemma MoveSendsEncodable(w: World, m: Move, i: Input, accepts: nat)
    requires Sound(w.manager) && InputOf(w, m) == Some((i, accepts))
    ensures SendsEncodable(Step(w.manager, i).actions)
  {
    StepTallies(w.manager, i);
    MoveAsksForEncodable(w, m, i, accepts);
    ListedSendsEncodable(Step(w.manager, i).actions);
  }

  ghost predicate ListEncodable(sends: seq<(string, Models.Command)>) {
    forall s :: s in sends ==> Encodable(s.0, s.1)
  }

  lemma ListedSendsEncodable(actions: seq<Action>)
    requires ListEncodable(Sends(actions))
    ensures SendsEncodable(actions)
  {
    forall x | x in actions && x.SendDevice?
      ensures Encodable(x.address, x.command)
    {
      SendsAreListed(actions, x);
    }
  }

  lemma MoveAsksForEncodable(w: World, m: Move, i: Input, accepts: nat)
    requires InputOf(w, m) == Some((i, accepts))
    ensures ListEncodable(StateHistory.Accepted(w.manager, i))
  {
    if i.Request? {
      AdmittedIsEncodable(w, m.topic, m.payload);
      CanonicalIsNormal(i.address);
    }
  }

  /** A flush of encodable commands has the shape that FlushShape describes. */
  lemma EncodableFlush(devices: Devices, q: seq<Q.Message>, accepts: nat)
    requires Q.AllEncodable(q)
    ensures var jobs := Q.Jobs(devices, q); Q.HaveLines(jobs) && Q.Shaped(jobs, accepts, Q.FlushJobs(jobs, accepts))
  {
    Q.EncodableHaveLines(devices, q);
    Q.FlushShape(Q.Jobs(devices, q), accepts);
  }

  lemma FlushInOrder(w: World, accepts: nat)
    requires InOrder(w)
    ensures InOrder(Flush(w, accepts))
  {
    if w.queue.waiting != [] && Ready(w) {
      EncodableFlush(w.devices, w.queue.waiting, accepts);
      DrainInOrder(w.queue, Q.FlushJobs(Q.Jobs(w.devices, w.queue.waiting), accepts));
    }
  }

  lemma HandleInOrder(w: World, m: Move, i: Input, accepts: nat)
    requires Sound(w.manager) && InOrder(w) && InputOf(w, m) == Some((i, accepts))
    ensures InOrder(Handle(Prepare(w, m), i, Real(accepts)).world)
  {
    PrepareKeeps(w, m);
    var o := Step(w.manager, i);
    MoveSendsEncodable(w, m, i, accepts);
    ExecuteInOrder(Prepare(w, m).(manager := o.next), o.actions, accepts);
  }

  lemma NextInOrder(w: World, m: Move)
    requires Sound(w.manager) && InOrder(w)
    ensures InOrder(Next(w, m))
  {
    match InputOf(w, m)
    case Some((i, accepts)) => HandleInOrder(w, m, i, accepts);
    case None =>
      if m.Diagnose? {
        FlushInOrder(Diagnosed(w, m), m.accepts);
      }
  }

  /** In every run, on the direct and on the flush path alike, a device-command line is written only while mochad is
      connected and no readiness flag is false. What entered the queue is what left it followed by what waits, the dropped
      counter counts the evictions, at most 100 wait, and no command was ever lost to an encoding error. */
  lemma {:induction false} CommandsStayInOrder(w: World, moves: seq<Move>)
    requires Starting(w)
    ensures InOrder(RunMoves(Course(w, false), moves).world)
    ensures forall x :: x in RunMoves(Course(w, false), moves).world.wire ==>
      x.socket && x.usb != Some(false) && x.endpoints != Some(false) && x.transfers != Some(false)
    decreases |moves|
  {
    if moves != [] {
      var c := RunMoves(Course(w, false), moves[..|moves| - 1]);
      CommandsStayInOrder(w, moves[..|moves| - 1]);
      StartOnCourse(w);
      RunOnCourse(Course(w, false), moves[..|moves| - 1]);
      NextInOrder(c.world, moves[|moves| - 1]);
    }
  }

  /** So whenever the queue is flushed, it sends everything or stops inside one command and keeps it with all its
      successors. */
  lemma FlushLosesNothing(w: World, moves: seq<Move>, accepts: nat)
    requires Starting(w)
    ensures var u := RunMoves(Course(w, false), moves).world; var jobs := Q.Jobs(u.devices, u.queue.waiting);
            Q.HaveLines(jobs) && Q.Shaped(jobs, accepts, Q.FlushJobs(jobs, accepts))
  {
    CommandsStayInOrder(w, moves);
    var u := RunMoves(Course(w, false), moves).world;
    EncodableFlush(u.devices, u.queue.waiting, accepts);
  }

  // A failed direct send.

  lemma UnsaidFollowUp(s: Manager, n: string, c: Models.Command, now: int)
    ensures var x := FollowUp(s, n, c, now).actions;
            if ConfigOf(s, n).stateful && s.optimistic && Get(s, n).current != Some(Authoritative(c))
            then Unsaid(x) == {n} && LastState(x, n) == Some(Authoritative(c)) else Unsaid(x) == {}
  {
    var x := FollowUp(s, n, c, now).actions;
    if ConfigOf(s, n).stateful && s.optimistic && Get(s, n).current != Some(Authoritative(c)) {
      assert x[1] == PublishState(n, Authoritative(c), true) && x[1] in x;
    }
  }

  lemma KnownChangesNothing(devices: map<string, DeviceConfig>, n: string)
    requires Normal(n) == n
    ensures Q.DeviceAt(Known(devices, n), n) == Q.DeviceAt(devices, n)
  {
  }

  /** When the first action, or the second after a harmless first, breaks, the rest is not executed. */
  lemma ExecuteStops(w: World, first: seq<Action>, x: Action, rest: seq<Action>, judge: Judge)
    requires |first| <= 1 && x.SendDevice? && (forall z :: z in first ==> !z.PublishState?)
    requires first == [] ==> judge(w, x).ending.Broke?
    requires first != [] ==> judge(w, first[0]).ending.Done?
    requires first != [] ==> judge(Took(w, first[0], judge(w, first[0])), x).ending.Broke?
    ensures var e := Execute(w, first + [x] + rest, judge);
            e.ending.Broke? && e.done == |first| && e.world.stale == w.stale && e.world.states == w.states
  {
    var actions := first + [x] + rest;
    if first != [] {
      assert first[0] in first;
      assert actions[1..] == [x] + rest;
    }
  }

  lemma SendVerdict(w: World, n: string, c: Models.Command, accepts: nat)
    requires Ready(w) && Q.Transmit(Q.JobOf(w.devices, Q.Message(n, c)), accepts).status == Q.SocketFailed
    ensures Real(accepts)(w, SendDevice(n, c)).ending.Broke?
  {
  }

  lemma DiscoveryVerdict(w: World, n: string, accepts: nat)
    requires !Refused(w, n)
    ensures Real(accepts)(w, PublishDiscovery(n)).ending.Done?
  {
  }

  lemma JobSurvivesDiscovery(w: World, n: string, c: Models.Command, v: Verdict)
    requires Normal(n) == n
    ensures var u := Took(w, PublishDiscovery(n), v);
            Q.JobOf(u.devices, Q.Message(n, c)) == Q.JobOf(w.devices, Q.Message(n, c)) && Ready(u) == Ready(w)
  {
    KnownChangesNothing(w.devices, n);
  }

  /** The send breaks, whether or not a discovery comes first, and nothing after it is executed. */
  lemma BrokenSendStops(w: World, first: seq<Action>, n: string, c: Models.Command, rest: seq<Action>, accepts: nat)
    requires first == [] || (first == [PublishDiscovery(n)] && !Refused(w, n))
    requires Normal(n) == n && Ready(w)
    requires Q.Transmit(Q.JobOf(w.devices, Q.Message(n, c)), accepts).status == Q.SocketFailed
    ensures var e := Execute(w, first + [SendDevice(n, c)] + rest, Real(accepts));
            e.ending.Broke? && e.done == |first| && e.world.stale == w.stale && e.world.states == w.states
  {
    if first == [] {
      SendVerdict(w, n, c, accepts);
    } else {
      var v := Real(accepts)(w, PublishDiscovery(n));
      DiscoveryVerdict(w, n, accepts);
      JobSurvivesDiscovery(w, n, c, v);
      SendVerdict(Took(w, PublishDiscovery(n), v), n, c, accepts);
    }
    ExecuteStops(w, first, SendDevice(n, c), rest, Real(accepts));
  }

  /** The situation of a failed direct send: an admissible command for a ready mochad whose socket gives out before the
      last repeat, with no discovery refusal in the way. */
  predicate SendFails(w: World, n: string, c: Models.Command, accepts: nat) {
    && Normal(n) == n && Accepts(w.manager, n, c) && Ready(w) && !Refused(w, n)
    && Q.Transmit(Q.JobOf(w.devices, Q.Message(n, c)), accepts).status == Q.SocketFailed
  }

  /** It would change the device's state. */
  predicate ChangesState(s: Manager, n: string, c: Models.Command) {
    ConfigOf(s, n).stateful && s.optimistic && Get(s, n).current != Some(Authoritative(c))
  }

  lemma ForwardPieces(s: Manager, n: string, c: Models.Command, now: int)
    ensures var o := Discover(Pend(Ensure(s, n), n, c), n); var f := FollowUp(o.next, n, c, now);
            && Forward(Ensure(s, n), n, c, now) == Outcome(f.next, o.actions + [SendDevice(n, c)] + f.actions)
            && (o.actions == [] || o.actions == [PublishDiscovery(n)])
            && ChangesState(o.next, n, c) == ChangesState(s, n, c)
  {
  }

  lemma UnsaidSend(x: Action, rest: seq<Action>)
    requires !x.PublishState?
    ensures Unsaid([x] + rest) == Unsaid(rest)
  {
    assert forall z :: z in [x] + rest <==> z == x || z in rest;
  }

  /** Carrying out a list whose send breaks. */
  lemma CarryBrokenSend(w: World, t: Manager, first: seq<Action>, n: string, c: Models.Command, rest: seq<Action>,
                        accepts: nat)
    requires first == [] || (first == [PublishDiscovery(n)] && !Refused(w, n))
    requires Normal(n) == n && Ready(w)
    requires Q.Transmit(Q.JobOf(w.devices, Q.Message(n, c)), accepts).status == Q.SocketFailed
    ensures var e := Carry(w, t, first + [SendDevice(n, c)] + rest, Real(accepts));
            e.ending.Broke? && e.world.states == w.states && e.world.stale == w.stale + Unsaid(rest)
  {
    BrokenSendStops(w.(manager := t), first, n, c, rest, accepts);
    CarryStopped(w, t, first, SendDevice(n, c), rest, Real(accepts));
  }

  lemma CarryStopped(w: World, t: Manager, first: seq<Action>, x: Action, rest: seq<Action>, judge: Judge)
    requires !x.PublishState?
    requires var e := Execute(w.(manager := t), first + [x] + rest, judge);
             e.ending.Broke? && e.done == |first| && e.world.stale == w.stale && e.world.states == w.states
    ensures var e := Carry(w, t, first + [x] + rest, judge);
            e.ending.Broke? && e.world.states == w.states && e.world.stale == w.stale + Unsaid(rest)
  {
    assert (first + [x] + rest)[|first|..] == [x] + rest;
    UnsaidSend(x, rest);
  }

  lemma RequestedForwards(s: Manager, n: string, c: Models.Command, now: int)
    requires Normal(n) == n && Accepts(s, n, c)
    ensures Step(s, Request(n, c, now)) == Forward(Ensure(s, n), n, c, now)
  {
  }

  /** A failed direct send leaves the broker's states as they were and makes exactly the device whose state changed
      stale. */
  lemma FailedSendEffect(w: World, n: string, c: Models.Command, now: int, accepts: nat)
    requires SendFails(w, n, c, accepts)
    ensures var e := Handle(w, Request(n, c, now), Real(accepts));
            && e.ending.Broke? && e.world.states == w.states
            && e.world.stale == w.stale + (if ChangesState(w.manager, n, c) then {n} else {})
  {
    var o := Discover(Pend(Ensure(w.manager, n), n, c), n);
    var f := FollowUp(o.next, n, c, now);
    RequestedForwards(w.manager, n, c, now);
    ForwardPieces(w.manager, n, c, now);
    CarryBrokenSend(w, f.next, o.actions, n, c, f.actions, accepts);
    UnsaidFollowUp(o.next, n, c, now);
  }

  lemma FollowUpChanges(s: Manager, n: string, c: Models.Command, now: int, a: string)
    ensures Get(FollowUp(s, n, c, now).next, a).current
         == if a == n && ChangesState(s, n, c) then Some(Authoritative(c)) else Get(s, a).current
  {
  }

  lemma PendingChangesNothing(s: Manager, n: string, c: Models.Command, a: string)
    ensures Get(Discover(Pend(Ensure(s, n), n, c), n).next, a).current == Get(s, a).current
  {
  }

  /** What the request changes about states in the manager. */
  lemma RequestChanges(s: Manager, n: string, c: Models.Command, now: int, a: string)
    requires Normal(n) == n && Accepts(s, n, c)
    ensures Get(Step(s, Request(n, c, now)).next, a).current
         == if a == n && ChangesState(s, n, c) then Some(Authoritative(c)) else Get(s, a).current
  {
    RequestedForwards(s, n, c, now);
    ForwardPieces(s, n, c, now);
    PendingChangesNothing(s, n, c, a);
    FollowUpChanges(Discover(Pend(Ensure(s, n), n, c), n).next, n, c, now, a);
  }

  /** When the state of at most one device changes and the broker's states do not. */
  lemma OneChangeAgrees(w: World, u: World, n: string, changed: bool, c: Models.Command)
    requires Agrees(w) && u.states == w.states
    requires forall a :: Get(u.manager, a).current == if a == n && changed then Some(c) else Get(w.manager, a).current
    ensures Agrees(u) <==> !changed || Shown(w, n) == Some(c)
  {
    assert forall a :: Shown(u, a) == Shown(w, a);
    if Agrees(u) && changed {
      assert Get(u.manager, n).current == Some(c);
    }
    if !changed || Shown(w, n) == Some(c) {
      forall a | a in u.manager.devices && u.manager.devices[a].current.Some?
        ensures Shown(u, a) == u.manager.devices[a].current
      {
        assert Get(u.manager, a).current == u.manager.devices[a].current;
      }
    }
  }

  /** After a failed direct send a broker that agreed before still agrees exactly when the command changes no state or the
      broker happens to show the new state already. */
  lemma FailedSendBreaksAgreementExactly(w: World, n: string, c: Models.Command, now: int, accepts: nat)
    requires SendFails(w, n, c, accepts) && Agrees(w)
    ensures Agrees(Handle(w, Request(n, c, now), Real(accepts)).world)
       <==> !ChangesState(w.manager, n, c) || Shown(w, n) == Some(Authoritative(c))
  {
    var u := Handle(w, Request(n, c, now), Real(accepts)).world;
    FailedSendEffect(w, n, c, now, accepts);
    HandledFrame(w, Request(n, c, now), accepts);
    forall a
      ensures Get(u.manager, a).current
           == if a == n && ChangesState(w.manager, n, c) then Some(Authoritative(c)) else Get(w.manager, a).current
    {
      RequestChanges(w.manager, n, c, now, a);
    }
    OneChangeAgrees(w, u, n, ChangesState(w.manager, n, c), Authoritative(c));
  }

  /** When mochad connects, its states are asked for unless the socket is gone or refuses the line, and only then. */
  lemma StatesAreAskedForExactly(w: World, accepts: nat)
    ensures Handle(Prepare(w, MochadConnected(accepts)), MochadUp, Real(accepts)).ending
         == if w.socket && accepts > 0 then Done else Broke
  {
    var p := Prepare(w, MochadConnected(accepts));
    var o := Step(w.manager, MochadUp);
    var p0 := p.(manager := o.next);
    var p1 := Took(p0, o.actions[0], VerdictOf(p0, o.actions[0], accepts));
    var p2 := Took(p1, o.actions[1], VerdictOf(p1, o.actions[1], accepts));
    assert Execute(p2, o.actions[2..], Real(accepts)).ending == if w.socket && accepts > 0 then Done else Broke;
    assert o.actions[1..][1..] == o.actions[2..];
    assert Execute(p1, o.actions[1..], Real(accepts)).ending == Execute(p2, o.actions[2..], Real(accepts)).ending;
  }
}
