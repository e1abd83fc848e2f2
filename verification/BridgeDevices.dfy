/** Which devices the bridge keeps an entry for: those it was given, those it was asked about, and those its state manager
    knows. */
module BridgeDevices {
  import opened Text
  import opened Models
  import opened Addresses
  import opened StateSpec
  import opened StateRuns
  import opened StateHistory
  import opened BridgeSystem
  import opened BridgeRuns
  import opened BridgeCommands
  import opened BridgeDiscovery
  import opened BridgeRefusal
  import opened BridgeRequests
  import Q = CommandQueue
  import Topics

  // What is looked up is kept.

  /** Publishing a device's discovery while the flag is up leaves an entry for it. */
  lemma {:induction false} ExecuteLearns(w: World, actions: seq<Action>, judge: Judge, k: nat)
    requires Flagged(w) && k < Execute(w, actions, judge).done && actions[k].PublishDiscovery?
    ensures Normal(actions[k].address) in Execute(w, actions, judge).world.devices
    decreases |actions|
  {
    var next, rest := Took(w, actions[0], judge(w, actions[0])), actions[1..];
    if k == 0 {
      ExecuteAdds(next, rest, judge, LookedUp(rest));
    } else {
      TookFrame(w, actions[0], judge(w, actions[0]));
      ExecuteLearns(next, rest, judge, k - 1);
    }
  }

  lemma ConnectLearns(w: World, n: string)
    requires Sound(w.manager) && CanonicalKeys(w.manager) && w.phase.FlagSet? && NoneRefused(w, w.manager.order)
    requires n in w.manager.devices
    ensures n in Handle(Prepare(w, Connected), MqttUp, Real(0)).world.devices
  {
    var p, o := Prepare(w, Connected), Step(w.manager, MqttUp);
    ConnectActionsEndExactly(w);
    ConnectEffect(w.manager);
    ConnectAnnounces(w.manager, n);
    var k :| 0 <= k < |o.actions| && o.actions[k] == PublishDiscovery(n);
    ExecuteLearns(p.(manager := o.next), o.actions, Real(0), k);
  }

  lemma ConnectAnnounces(s: Manager, n: string)
    requires Sound(s) && n in s.devices
    ensures Normal(n) == n && PublishDiscovery(n) in Step(s, MqttUp).actions
  {
    ConnectEffect(s);
    ConnectState(s);
    var o := Step(s, MqttUp);
    assert Flag(o.next, n) == 1;
    assert multiset(o.actions)[PublishDiscovery(n)] == 1;
    assert PublishDiscovery(n) in multiset(o.actions);
  }

  lemma ConnectLearnsAll(w: World)
    requires Sound(w.manager) && CanonicalKeys(w.manager) && w.phase.FlagSet? && NoneRefused(w, w.manager.order)
    ensures w.manager.devices.Keys <= Handle(Prepare(w, Connected), MqttUp, Real(0)).world.devices.Keys
  {
    forall n | n in w.manager.devices
      ensures n in Handle(Prepare(w, Connected), MqttUp, Real(0)).world.devices
    {
      ConnectLearns(w, n);
    }
  }

  lemma AddedExactly(d: Devices, e: Devices, names: set<string>)
    requires Adds(d, e, names) && names <= e.Keys
    ensures e.Keys == d.Keys + names
    ensures forall n :: n in e ==> e[n] == if n in d then d[n] else DefaultDevice(n)
  {
  }

  /** A connect handler that discovery does not interrupt leaves exactly the entries there were and one for each device that
      the state manager knows; a new one is the default. */
  lemma ConnectLearnsExactly(w: World)
    requires Sound(w.manager) && CanonicalKeys(w.manager) && w.phase.FlagSet? && NoneRefused(w, w.manager.order)
    ensures var u := Next(w, Connected);
            && u.devices.Keys == w.devices.Keys + w.manager.devices.Keys
            && forall n :: n in u.devices ==> u.devices[n] == if n in w.devices then w.devices[n] else DefaultDevice(n)
  {
    NextMeans(w, Connected, MqttUp, 0);
    ConnectAdds(w);
    ConnectLearnsAll(w);
    AddedExactly(w.devices, Next(w, Connected).devices, w.manager.devices.Keys);
  }

  lemma {:induction false} KnownAllExactly(d: Devices, q: seq<Q.Message>)
    ensures KnownAll(d, q).Keys == d.Keys + set m | m in q :: Normal(m.address)
    decreases |q|
  {
    if q != [] {
      KnownAllExactly(Known(d, q[0].address), q[1..]);
      assert q == [q[0]] + q[1..];
    }
  }

  /** A flush leaves an entry for every command it took off the queue and for the one it put back, and for no other. */
  lemma FlushLearnsExactly(w: World, accepts: nat)
    requires w.queue.waiting != [] && w.socket
    requires w.usb != Some(false) && w.endpoints != Some(false) && w.transfers != Some(false)
    ensures var q := w.queue.waiting; var gone := Q.FlushJobs(Q.Jobs(w.devices, q), accepts).gone;
            Flush(w, accepts).devices.Keys == w.devices.Keys + set k | 0 <= k < |q| && k <= gone :: Normal(q[k].address)
  {
    var q := w.queue.waiting;
    var gone := Q.FlushJobs(Q.Jobs(w.devices, q), accepts).gone;
    FlushLooksUp(w, accepts, gone);
    KnownAllExactly(w.devices, Tried(q, gone));
    SameNames(q, Tried(q, gone), gone);
  }

  lemma FlushLooksUp(w: World, accepts: nat, gone: nat)
    requires w.queue.waiting != [] && Ready(w)
    requires gone == Q.FlushJobs(Q.Jobs(w.devices, w.queue.waiting), accepts).gone
    ensures Flush(w, accepts).devices == KnownAll(w.devices, Tried(w.queue.waiting, gone))
  {
  }

  lemma SameNames(q: seq<Q.Message>, tried: seq<Q.Message>, gone: nat)
    requires gone <= |q| && tried == Tried(q, gone)
    ensures (set m | m in tried :: Normal(m.address)) == set k | 0 <= k < |q| && k <= gone :: Normal(q[k].address)
  {
    forall m | m in tried
      ensures exists k :: 0 <= k < |q| && k <= gone && q[k] == m
    {
      var k :| 0 <= k < |tried| && tried[k] == m;
      assert q[k] == m;
    }
    forall k | 0 <= k < |q| && k <= gone
      ensures q[k] in tried
    {
      assert tried[k] == q[k];
    }
  }

  /** A message on a device's command topic that names a command leaves an entry for the device, supported or not. */
  lemma CommandLearns(w: World, m: Move, a: string, c: Models.Command)
    requires Asks(m, w.base, a, c)
    ensures a in Next(w, m).devices
  {
    Topics.NoTopicIsBoth(m.topic, w.base);
    Topics.RoutedAddressIsCanonical(m.topic, w.base);
    CanonicalIsNormal(a);
    assert a in Prepare(w, m).devices;
    match InputOf(w, m)
    case Some((i, accepts)) => HandleKeepsDevices(Prepare(w, m), i, accepts);
    case None =>
  }

  // Nothing else is.

  /** Entries are kept, and a new one is the default for a device the manager knows or somebody asked about. */
  ghost predicate Earned(moves: seq<Move>, base: string, d: Devices, s: Manager, e: Devices) {
    && (forall k :: k in d ==> k in e && e[k] == d[k])
    && (forall k :: k in e && k !in d ==>
          e[k] == DefaultDevice(k) && (k in s.devices || exists c :: Asked(moves, base, k, c)))
  }

  lemma AddsEarned(moves: seq<Move>, base: string, d: Devices, e: Devices, f: Devices, s: Manager, names: set<string>)
    requires Earned(moves, base, d, s, e) && Adds(e, f, names)
    requires forall k :: k in names ==> k in s.devices || exists c :: Asked(moves, base, k, c)
    ensures Earned(moves, base, d, s, f)
  {
  }

  lemma EarnedStill(moves: seq<Move>, m: Move, base: string, d: Devices, s: Manager, t: Manager, e: Devices)
    requires Earned(moves, base, d, s, e) && s.devices.Keys <= t.devices.Keys
    ensures Earned(moves + [m], base, d, t, e)
  {
    forall k | k in e && k !in d
      ensures k in t.devices || exists c :: Asked(moves + [m], base, k, c)
    {
      if k !in t.devices {
        var c :| Asked(moves, base, k, c);
        AskedStill(moves, m, base, k, c);
      }
    }
  }

  /** What a handler sends was asked for. */
  lemma SentIsAsked(moves: seq<Move>, w: World, m: Move, i: Input, accepts: nat, x: Action)
    requires Sound(w.manager) && InputOf(w, m) == Some((i, accepts)) && m in moves
    requires x in Step(w.manager, i).actions && x.SendDevice?
    ensures Asked(moves, w.base, Normal(x.address), x.command)
  {
    StepTallies(w.manager, i);
    SendsAreListed(Step(w.manager, i).actions, x);
    RequestIsAdmitted(w, m, i, accepts);
    var msg := Q.Message(i.address, i.command);
    AdmittedAsks(w, m, msg);
    CanonicalIsNormal(msg.address);
    assert Asks(m, w.base, Normal(x.address), x.command);
  }

  lemma RequestIsAdmitted(w: World, m: Move, i: Input, accepts: nat)
    requires InputOf(w, m) == Some((i, accepts)) && i.Request?
    ensures m.Command? && Admitted(w, m.topic, m.payload) == Some(Q.Message(i.address, i.command))
  {
  }

  /** What a handler looks up: devices that the manager knows, and the one a command names. */
  lemma HandlerLooksUp(moves: seq<Move>, w: World, m: Move, i: Input, accepts: nat)
    requires Sound(w.manager) && InputOf(w, m) == Some((i, accepts)) && m in moves
    ensures forall k :: k in LookedUp(Step(w.manager, i).actions) ==>
              k in Step(w.manager, i).next.devices || exists c :: Asked(moves, w.base, k, c)
  {
    var o := Step(w.manager, i);
    StepSettings(w.manager, i);
    forall x | x in o.actions && (x.PublishDiscovery? || x.SendDevice?)
      ensures Normal(x.address) in o.next.devices || exists c :: Asked(moves, w.base, Normal(x.address), c)
    {
      if x.PublishDiscovery? {
        assert Mentions(x) == Some(x.address);
      } else {
        SentIsAsked(moves, w, m, i, accepts, x);
      }
    }
  }

  lemma TriedAsked(moves: seq<Move>, base: string, q: seq<Q.Message>, gone: nat)
    requires QueueAsked(moves, base, q) && gone <= |q|
    ensures forall m :: m in Tried(q, gone) ==> exists c :: Asked(moves, base, Normal(m.address), c)
  {
    forall m | m in Tried(q, gone)
      ensures exists c :: Asked(moves, base, Normal(m.address), c)
    {
      var k :| 0 <= k < |q| && q[k] == m;
      CanonicalIsNormal(m.address);
      assert Asked(moves, base, m.address, m.command);
    }
  }

  lemma KnownAllEarned(moves: seq<Move>, base: string, d: Devices, s: Manager, e: Devices, tried: seq<Q.Message>)
    requires Earned(moves, base, d, s, e)
    requires forall m :: m in tried ==> exists c :: Asked(moves, base, Normal(m.address), c)
    ensures Earned(moves, base, d, s, KnownAll(e, tried))
  {
    var names := set m | m in tried :: Normal(m.address);
    KnownAllAdds(e, tried, names);
    AddsEarned(moves, base, d, e, KnownAll(e, tried), s, names);
  }

  lemma FlushEarned(moves: seq<Move>, w: World, accepts: nat, d: Devices)
    requires QueueAsked(moves, w.base, w.queue.waiting) && Earned(moves, w.base, d, w.manager, w.devices)
    ensures Earned(moves, w.base, d, w.manager, Flush(w, accepts).devices)
  {
    var q := w.queue.waiting;
    if q != [] && Ready(w) {
      var gone := Q.FlushJobs(Q.Jobs(w.devices, q), accepts).gone;
      TriedAsked(moves, w.base, q, gone);
      KnownAllEarned(moves, w.base, d, w.manager, w.devices, Tried(q, gone));
    }
  }

  lemma PrepareEarned(moves: seq<Move>, w: World, m: Move, d: Devices)
    requires m in moves && Earned(moves, w.base, d, w.manager, w.devices)
    ensures Earned(moves, w.base, d, w.manager, Prepare(w, m).devices)
  {
    if m.Command? && Topics.Route(m.topic, w.base).ToDevice? && CommandOf(m.payload).Some? {
      var a, c := Topics.Route(m.topic, w.base).address, CommandOf(m.payload).value;
      UnderstoodAsks(m, w.base, a, c);
      assert Asked(moves, w.base, a, c);
      KnownAdds(w.devices, a, {a});
      AddsEarned(moves, w.base, d, w.devices, Known(w.devices, a), w.manager, {a});
    }
  }

  lemma UnderstoodAsks(m: Move, base: string, a: string, c: Models.Command)
    requires m.Command? && Topics.Route(m.topic, base) == Topics.ToDevice(a) && CommandOf(m.payload) == Some(c)
    ensures Asks(m, base, a, c) && Normal(a) == a
  {
    Topics.RoutedAddressIsCanonical(m.topic, base);
    CanonicalIsNormal(a);
  }

  lemma HandledEarned(moves: seq<Move>, w: World, m: Move, i: Input, accepts: nat, d: Devices)
    requires Sound(w.manager) && InputOf(w, m) == Some((i, accepts)) && m in moves
    requires Earned(moves, w.base, d, w.manager, w.devices)
    ensures Earned(moves, w.base, d, Next(w, m).manager, Next(w, m).devices)
  {
    var p, o := Prepare(w, m), Step(w.manager, i);
    NextMeans(w, m, i, accepts);
    PreparedPhase(w, m, i, accepts);
    PrepareEarned(moves, w, m, d);
    HandlerLooksUp(moves, w, m, i, accepts);
    StepSettings(w.manager, i);
    HandledFrame(p, i, accepts);
    ExecuteAdds(p.(manager := o.next), o.actions, Real(accepts), LookedUp(o.actions));
    EarnedBy(moves, w.base, d, w.manager, o.next, p.devices);
    AddsEarned(moves, w.base, d, p.devices, Next(w, m).devices, o.next, LookedUp(o.actions));
  }

  lemma EarnedBy(moves: seq<Move>, base: string, d: Devices, s: Manager, t: Manager, e: Devices)
    requires Earned(moves, base, d, s, e) && s.devices.Keys <= t.devices.Keys
    ensures Earned(moves, base, d, t, e)
  {
  }

  lemma NextEarned(moves: seq<Move>, w: World, m: Move, d: Devices)
    requires Sound(w.manager) && m in moves && !m.Reload? && QueueAsked(moves, w.base, w.queue.waiting)
    requires Earned(moves, w.base, d, w.manager, w.devices)
    ensures Earned(moves, w.base, d, Next(w, m).manager, Next(w, m).devices)
  {
    match InputOf(w, m)
    case Some((i, accepts)) => HandledEarned(moves, w, m, i, accepts, d);
    case None => PlainEarned(moves, w, m, d);
  }

  lemma PlainEarned(moves: seq<Move>, w: World, m: Move, d: Devices)
    requires m in moves && !m.Reload? && QueueAsked(moves, w.base, w.queue.waiting) && InputOf(w, m) == None
    requires Earned(moves, w.base, d, w.manager, w.devices)
    ensures Earned(moves, w.base, d, Plain(w, m).manager, Plain(w, m).devices)
  {
    if m.Diagnose? {
      FlushEarned(moves, Diagnosed(w, m), m.accepts, d);
      FlushIsQuiet(Diagnosed(w, m), m.accepts);
    } else if m.Command? {
      PrepareEarned(moves, w, m, d);
      CommandIsQuiet(w, m);
    } else {
      OtherMovesKeepDevices(w, m);
    }
  }

  lemma {:induction false} RunEarned(w: World, moves: seq<Move>)
    requires Starting(w) && forall m :: m in moves ==> !m.Reload?
    ensures var u := RunMoves(Course(w, false), moves).world; Earned(moves, w.base, w.devices, u.manager, u.devices)
    decreases |moves|
  {
    if moves != [] {
      var init, last := moves[..|moves| - 1], moves[|moves| - 1];
      var u := RunMoves(Course(w, false), init).world;
      RunEarned(w, init);
      RunAsked(w, init);
      StartOnCourse(w);
      RunOnCourse(Course(w, false), init);
      assert init + [last] == moves;
      EarnedStill(init, last, w.base, w.devices, u.manager, u.manager, u.devices);
      AllAskedStill(init, last, u);
      NextEarned(moves, u, last, w.devices);
    }
  }

  lemma {:induction false} RunLearns(w: World, moves: seq<Move>, m: Move, a: string, c: Models.Command)
    requires (forall x :: x in moves ==> !x.Reload?) && m in moves && Asks(m, w.base, a, c)
    ensures a in RunMoves(Course(w, false), moves).world.devices
    decreases |moves|
  {
    var init, last := moves[..|moves| - 1], moves[|moves| - 1];
    var u := RunMoves(Course(w, false), init).world;
    RunKeepsBase(Course(w, false), init);
    if last == m {
      CommandLearns(u, m, a, c);
    } else {
      assert m in init;
      RunLearns(w, init, m, a, c);
      NextKeepsDevices(u, last);
    }
  }

  lemma {:induction false} RunKeepsBase(c: Course, moves: seq<Move>)
    ensures RunMoves(c, moves).world.base == c.world.base
    decreases |moves|
  {
    if moves != [] {
      RunKeepsBase(c, moves[..|moves| - 1]);
      NextKeepsSettings(RunMoves(c, moves[..|moves| - 1]).world, moves[|moves| - 1]);
    }
  }

  /** In every run without a reload, the bridge keeps the entries it was given, has one for every device that it was asked
      about, and beyond these only defaults for devices that its state manager knows. */
  lemma EntriesAreEarned(w: World, moves: seq<Move>)
    requires Starting(w) && forall m :: m in moves ==> !m.Reload?
    ensures var u := RunMoves(Course(w, false), moves).world;
            && w.devices.Keys <= u.devices.Keys
            && (forall n :: n in u.devices ==> u.devices[n] == if n in w.devices then w.devices[n] else DefaultDevice(n))
            && (forall n, c :: Asked(moves, w.base, n, c) ==> n in u.devices)
            && (forall n :: n in u.devices && n !in w.devices && n !in u.manager.devices ==>
                  exists c :: Asked(moves, w.base, n, c))
  {
    var u := RunMoves(Course(w, false), moves).world;
    RunEarned(w, moves);
    forall n, c | Asked(moves, w.base, n, c)
      ensures n in u.devices
    {
      var m :| m in moves && Asks(m, w.base, n, c);
      RunLearns(w, moves, m, n, c);
    }
  }

  lemma ReloadReplaces(w: World, devices: Devices)
    ensures Next(w, Reload(devices)) == w.(devices := devices)
  {
  }

  /** A reload replaces all entries and nothing else, so from then on a message is let through as the new configuration
      says. */
  lemma ReloadDecidesCommands(w: World, devices: Devices, topic: string, payload: string, msg: Q.Message)
    ensures var u := Next(w, Reload(devices));
            && u == w.(devices := devices)
            && (Admitted(u, topic, payload) == Some(msg) <==>
                  && Topics.ParseCommandTopic(topic, w.base) == Some(msg.address) && PayloadNames(payload, msg.command)
                  && if msg.address in devices then msg.command in devices[msg.address].supported
                     else msg.command == On || msg.command == Off)
  {
    ReloadReplaces(w, devices);
    AdmittedExactly(Next(w, Reload(devices)), topic, payload, msg);
  }
}
