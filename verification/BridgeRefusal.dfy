/** What a device whose discovery payload is refused does to the rest of the bridge. */
module BridgeRefusal {
  import opened Text
  import opened Models
  import opened Addresses
  import opened StateSpec
  import opened StateRuns
  import opened StateHistory
  import opened BridgeSystem
  import opened BridgeRuns
  import opened BridgeDiscovery
  import Q = CommandQueue
  import Discovery

  /** The two worlds refuse discovery for the same addresses and both deliver to the client. */
  ghost predicate SameRefusals(w: World, u: World) {
    Flagged(u) == Flagged(w) && forall a :: Refused(u, a) == Refused(w, a)
  }

  lemma TookKeepsRefusals(w: World, x: Action, v: Verdict)
    ensures SameRefusals(w, Took(w, x, v))
  {
    forall a
      ensures Q.DeviceAt(Took(w, x, v).devices, a) == Q.DeviceAt(w.devices, a)
    {
    }
  }

  lemma {:induction false} ExecuteKeepsRefusals(w: World, actions: seq<Action>, judge: Judge)
    ensures SameRefusals(w, Execute(w, actions, judge).world)
    decreases |actions|
  {
    if actions != [] {
      TookKeepsRefusals(w, actions[0], judge(w, actions[0]));
      ExecuteKeepsRefusals(Took(w, actions[0], judge(w, actions[0])), actions[1..], judge);
    }
  }

  lemma {:induction false} ExecuteAppend(w: World, a: seq<Action>, b: seq<Action>, judge: Judge)
    requires Execute(w, a, judge).ending.Done?
    ensures var e := Execute(Execute(w, a, judge).world, b, judge);
            Execute(w, a + b, judge) == e.(done := |a| + e.done, lost := Execute(w, a, judge).lost || e.lost)
    decreases |a|
  {
    if a == [] {
      assert a + b == b;
    } else {
      assert (a + b)[1..] == a[1..] + b;
      ExecuteAppend(Took(w, a[0], judge(w, a[0])), a[1..], b, judge);
    }
  }

  lemma RestateVerdict(w: World, n: string, c: Models.Command, accepts: nat)
    requires Flagged(w) && Canonical(n)
    ensures Real(accepts)(w, PublishState(n, c, true)).ending.Done?
    ensures Real(accepts)(w, PublishDiscovery(n)).ending == if Refused(w, n) then Raised else Done
  {
    CanonicalIsNormal(n);
  }

  /** One device of the connect handler: refused at its first action, or all said. */
  lemma RediscoverOne(w: World, s: Manager, n: string, rest: seq<Action>, accepts: nat)
    requires Flagged(w) && Canonical(n)
    ensures var a := Rediscover(s, n).actions; var u := Execute(w, a, Real(accepts)).world;
            if Refused(w, n) then Execute(w, a + rest, Real(accepts)).done == 0 && a + rest != []
            else
              && SameRefusals(w, u)
              && Execute(w, a + rest, Real(accepts)).done == |a| + Execute(u, rest, Real(accepts)).done
  {
    var a := Rediscover(s, n).actions;
    var d := PublishDiscovery(n);
    var u := Took(w, d, Real(accepts)(w, d));
    RestateVerdict(w, n, On, accepts);
    if !Refused(w, n) {
      TookKeepsRefusals(w, d, Real(accepts)(w, d));
      if Get(s, n).current.Some? {
        RestateVerdict(u, n, Get(s, n).current.value, accepts);
        assert a[1..] == [PublishState(n, Get(s, n).current.value, true)];
      } else {
        assert a[1..] == [];
      }
      ExecuteKeepsRefusals(w, a, Real(accepts));
      ExecuteAppend(w, a, rest, Real(accepts));
    }
  }

  lemma {:induction false} RediscoverRestates(s: Manager, names: seq<string>, n: string)
    requires NoRepeats(names) && n in names && Get(s, n).current.Some?
    ensures n in Unsaid(RediscoverLoop(s, names).actions)
    decreases |names|
  {
    assert names == [names[0]] + names[1..];
    var o := Rediscover(s, names[0]);
    var rest := RediscoverLoop(o.next, names[1..]).actions;
    if n == names[0] {
      assert o.actions[1] == PublishState(n, Get(s, n).current.value, true);
      assert (o.actions + rest)[1] in o.actions + rest;
    } else {
      RediscoverRestates(o.next, names[1..], n);
      assert forall x :: x in rest ==> x in o.actions + rest;
    }
  }

  ghost predicate NoneRefused(w: World, names: seq<string>) {
    forall n :: n in names ==> !Refused(w, n)
  }

  /** Of the devices from the first refused one on, those with a state are among the unsaid. */
  ghost predicate Silenced(w: World, s: Manager, names: seq<string>, unsaid: set<string>) {
    forall k, j :: 0 <= k <= j < |names| && Refused(w, names[k]) && Get(s, names[j]).current.Some? ==> names[j] in unsaid
  }

  lemma SameRefusalsKeep(w: World, u: World, names: seq<string>)
    requires SameRefusals(w, u)
    ensures NoneRefused(w, names) == NoneRefused(u, names)
  {
  }

  lemma SilencedFromStart(w: World, s: Manager, names: seq<string>)
    requires NoRepeats(names)
    ensures Silenced(w, s, names, Unsaid(RediscoverLoop(s, names).actions))
  {
    forall j | 0 <= j < |names| && Get(s, names[j]).current.Some?
      ensures names[j] in Unsaid(RediscoverLoop(s, names).actions)
    {
      RediscoverRestates(s, names, names[j]);
    }
  }

  lemma SilencedLater(w: World, u: World, s: Manager, names: seq<string>, unsaid: set<string>)
    requires NoRepeats(names) && names != [] && !Refused(w, names[0]) && SameRefusals(w, u)
    requires Silenced(u, Rediscover(s, names[0]).next, names[1..], unsaid)
    ensures Silenced(w, s, names, unsaid)
  {
    assert forall k :: 0 < k < |names| ==> names[k] == names[1..][k - 1];
  }

  /** Executing the actions ends well exactly when no name is refused, and a refused one silences all from it on. */
  ghost predicate Ends(w: World, actions: seq<Action>, accepts: nat, s: Manager, names: seq<string>) {
    var done := Execute(w, actions, Real(accepts)).done;
    (done == |actions| <==> NoneRefused(w, names)) && Silenced(w, s, names, Unsaid(actions[done..]))
  }

  lemma EndsAfter(w: World, u: World, first: seq<Action>, rest: seq<Action>, accepts: nat, s: Manager, names: seq<string>)
    requires SameRefusals(w, u) && Ends(u, rest, accepts, s, names)
    requires Execute(w, first + rest, Real(accepts)).done == |first| + Execute(u, rest, Real(accepts)).done
    ensures Ends(w, first + rest, accepts, s, names)
  {
    var done := Execute(u, rest, Real(accepts)).done;
    assert (first + rest)[|first| + done..] == rest[done..];
    SameRefusalsKeep(w, u, names);
  }

  lemma NoneRefusedTail(w: World, names: seq<string>)
    requires names != [] && !Refused(w, names[0])
    ensures NoneRefused(w, names) == NoneRefused(w, names[1..])
  {
    assert names == [names[0]] + names[1..];
  }

  lemma EndsOneMore(w: World, actions: seq<Action>, accepts: nat, s: Manager, names: seq<string>)
    requires NoRepeats(names) && names != [] && !Refused(w, names[0])
    requires Ends(w, actions, accepts, Rediscover(s, names[0]).next, names[1..])
    ensures Ends(w, actions, accepts, s, names)
  {
    var done := Execute(w, actions, Real(accepts)).done;
    NoneRefusedTail(w, names);
    SilencedLater(w, w, s, names, Unsaid(actions[done..]));
  }

  lemma {:induction false} RediscoverEnds(w: World, s: Manager, names: seq<string>, accepts: nat)
    requires Flagged(w) && NoRepeats(names) && forall n :: n in names ==> Canonical(n)
    ensures Ends(w, RediscoverLoop(s, names).actions, accepts, s, names)
    decreases |names|
  {
    if names != [] {
      var n, o := names[0], Rediscover(s, names[0]);
      var rest := RediscoverLoop(o.next, names[1..]).actions;
      assert names == [n] + names[1..];
      RediscoverOne(w, s, n, rest, accepts);
      if Refused(w, n) {
        assert n in names;
        assert (o.actions + rest)[0..] == o.actions + rest;
        SilencedFromStart(w, s, names);
      } else {
        var u := Execute(w, o.actions, Real(accepts)).world;
        RediscoverEnds(u, o.next, names[1..], accepts);
        EndsAfter(w, u, o.actions, rest, accepts, o.next, names[1..]);
        EndsOneMore(w, o.actions + rest, accepts, s, names);
      }
    }
  }

  lemma StatusRuns(w: World, s: Manager, rest: seq<Action>, accepts: nat)
    requires Flagged(w)
    ensures var u := Execute(w, StatusActions(s), Real(accepts)).world;
            SameRefusals(w, u) && Execute(w, StatusActions(s) + rest, Real(accepts)).done
                               == 2 + Execute(u, rest, Real(accepts)).done
  {
    var a := StatusActions(s);
    assert a[1..][1..] == [];
    ExecuteKeepsRefusals(w, a, Real(accepts));
    ExecuteAppend(w, a, rest, Real(accepts));
  }

  lemma ConnectExecutes(w: World, s: Manager, accepts: nat)
    requires Flagged(w) && Structured(s) && CanonicalKeys(s)
    ensures Ends(w, OnMqttUp(s).actions, accepts, MqttMarkedUp(s), s.order)
  {
    var up := MqttMarkedUp(s);
    var rest := RediscoverLoop(up, s.order).actions;
    StatusRuns(w, up, rest, accepts);
    var u := Execute(w, StatusActions(up), Real(accepts)).world;
    RediscoverEnds(u, up, s.order, accepts);
    EndsAfter(w, u, StatusActions(up), rest, accepts, up, s.order);
  }

  /** The actions of the connect handler are all executed exactly when discovery is refused for none of the known devices;
      from the first refused device on, no device with a state has it restated. */
  lemma ConnectActionsEndExactly(w: World)
    requires Sound(w.manager) && CanonicalKeys(w.manager) && w.phase.FlagSet?
    ensures var e := Handle(Prepare(w, Connected), MqttUp, Real(0)); var order := w.manager.order;
            (e.ending.Done? <==> NoneRefused(w, order)) && Silenced(w, w.manager, order, e.world.stale)
  {
    var p, t := Prepare(w, Connected), OnMqttUp(w.manager);
    PreparedRefuses(w, t.next);
    ConnectExecutes(p.(manager := t.next), w.manager, 0);
    CarryEnds(p, t.next, t.actions, w.manager);
    RefusalsAgree(w, p.(manager := t.next), w.manager, w.manager.order, Carry(p, t.next, t.actions, Real(0)).world.stale);
    ConnectIsCarried(w);
  }

  lemma ConnectIsCarried(w: World)
    ensures var p, t := Prepare(w, Connected), OnMqttUp(w.manager);
            Handle(p, MqttUp, Real(0)) == Carry(p, t.next, t.actions, Real(0))
  {
  }

  /** w and its successor refuse the same addresses. */
  lemma PreparedRefuses(w: World, t: Manager)
    requires w.phase.FlagSet?
    ensures SameRefusals(w, Prepare(w, Connected).(manager := t))
  {
  }

  lemma RefusalsAgree(w: World, u: World, s: Manager, names: seq<string>, unsaid: set<string>)
    requires SameRefusals(w, u)
    ensures NoneRefused(w, names) == NoneRefused(u, names)
    ensures Silenced(u, MqttMarkedUp(s), names, unsaid) ==> Silenced(w, s, names, unsaid)
  {
  }

  /** What ends in Execute ends the same way in Carry. */
  lemma CarryEnds(p: World, t: Manager, actions: seq<Action>, s: Manager)
    requires Ends(p.(manager := t), actions, 0, MqttMarkedUp(s), s.order)
    ensures var e := Carry(p, t, actions, Real(0)); var v := p.(manager := t);
            (e.ending.Done? <==> NoneRefused(v, s.order)) && Silenced(v, MqttMarkedUp(s), s.order, e.world.stale)
  {
  }

  // How Bridge.devices grows.

  /** Entries are kept, and the new ones are default entries under the given names. */
  ghost predicate Adds(d: Devices, e: Devices, names: set<string>) {
    && (forall k :: k in d ==> k in e && e[k] == d[k])
    && (forall k :: k in e && k !in d ==> k in names && e[k] == DefaultDevice(k))
  }

  lemma KnownAdds(d: Devices, a: string, names: set<string>)
    requires Normal(a) in names
    ensures Adds(d, Known(d, a), names)
  {
  }

  lemma AddsAgain(d: Devices, e: Devices, f: Devices, names: set<string>)
    requires Adds(d, e, names) && Adds(e, f, names)
    ensures Adds(d, f, names)
  {
  }

  /** The names under which executing the actions can look a device up. */
  function LookedUp(actions: seq<Action>): set<string> {
    set x | x in actions && (x.PublishDiscovery? || x.SendDevice?) :: Normal(x.address)
  }

  lemma TookAdds(w: World, x: Action, v: Verdict, names: set<string>)
    requires x.PublishDiscovery? || x.SendDevice? ==> Normal(x.address) in names
    ensures Adds(w.devices, Took(w, x, v).devices, names)
  {
    if x.PublishDiscovery? || x.SendDevice? {
      KnownAdds(w.devices, x.address, names);
    }
  }

  lemma {:induction false} ExecuteAdds(w: World, actions: seq<Action>, judge: Judge, names: set<string>)
    requires LookedUp(actions) <= names
    ensures Adds(w.devices, Execute(w, actions, judge).world.devices, names)
    decreases |actions|
  {
    if actions != [] {
      var x, v := actions[0], judge(w, actions[0]);
      var next := Took(w, x, v);
      assert x in actions;
      assert x.PublishDiscovery? || x.SendDevice? ==> Normal(x.address) in LookedUp(actions);
      TookAdds(w, x, v, names);
      assert LookedUp(actions[1..]) <= LookedUp(actions);
      ExecuteAdds(next, actions[1..], judge, names);
      AddsAgain(w.devices, next.devices, Execute(next, actions[1..], judge).world.devices, names);
    }
  }

  // The end of the connect handler.

  lemma AddedAreNotRefused(w: World, u: World, names: seq<string>, s: set<string>)
    requires NoneRefused(w, names) && u.prefix == w.prefix && u.base == w.base
    requires forall n :: n in s ==> n in names && Normal(n) == n
    requires Adds(w.devices, u.devices, s)
    ensures DiscoveryRaises(u) == DiscoveryRaises(w)
  {
    forall k | k in u.devices && k !in w.devices
      ensures Discovery.DiscoveryMessage(u.devices[k], u.prefix, u.base).Ok?
    {
      assert !Refused(w, k);
    }
    if SomeRefused(w) {
      var k :| k in w.devices && Discovery.DiscoveryMessage(w.devices[k], w.prefix, w.base).Err?;
      assert k in u.devices && Discovery.DiscoveryMessage(u.devices[k], u.prefix, u.base).Err?;
    }
  }

  lemma ConnectLooksUp(s: Manager)
    requires Sound(s)
    ensures LookedUp(OnMqttUp(s).actions) <= s.devices.Keys
  {
    ConnectLawful(s);
    ConnectState(s);
    ConnectPublishes(s);
    forall x | x in OnMqttUp(s).actions && (x.PublishDiscovery? || x.SendDevice?)
      ensures Normal(x.address) in s.devices
    {
      assert Mentions(x) == Some(x.address);
    }
  }

  lemma ConnectAdds(w: World)
    requires Sound(w.manager) && w.phase.FlagSet?
    ensures var u := Handle(Prepare(w, Connected), MqttUp, Real(0)).world;
            Adds(w.devices, u.devices, w.manager.devices.Keys) && u.prefix == w.prefix && u.base == w.base
  {
    var p, o := Prepare(w, Connected), Step(w.manager, MqttUp);
    ConnectLooksUp(w.manager);
    ExecuteAdds(p.(manager := o.next), o.actions, Real(0), w.manager.devices.Keys);
    HandledFrame(p, MqttUp, 0);
  }

  /** The connect handler runs to its end exactly when discovery is refused neither for a device the state manager knows
      nor for an entry of Bridge.devices, and the prefix and the base topic are usable. */
  lemma ConnectEndsExactly(w: World)
    requires Sound(w.manager) && CanonicalKeys(w.manager) && w.phase.FlagSet?
    ensures ConnectEnding(w).Done? <==>
      && NoneRefused(w, w.manager.order)
      && (forall n :: n in w.devices ==> Discovery.DiscoveryMessage(w.devices[n], w.prefix, w.base).Ok?)
      && Topics.CleanSegment(w.prefix).Some? && Topics.CleanSegment(w.base).Some?
  {
    var u := Handle(Prepare(w, Connected), MqttUp, Real(0)).world;
    ConnectActionsEndExactly(w);
    ConnectAdds(w);
    if NoneRefused(w, w.manager.order) {
      AddedAreNotRefused(w, u, w.manager.order, w.manager.devices.Keys);
    }
  }

  // Refusal over time.

  lemma {:induction false} KnownAllAdds(d: Devices, q: seq<Q.Message>, names: set<string>)
    requires forall m :: m in q ==> Normal(m.address) in names
    ensures Adds(d, KnownAll(d, q), names)
    decreases |q|
  {
    if q != [] {
      assert q[0] in q;
      KnownAdds(d, q[0].address, names);
      KnownAllAdds(Known(d, q[0].address), q[1..], names);
      AddsAgain(d, Known(d, q[0].address), KnownAll(d, q), names);
    }
  }

  ghost predicate Keeps(d: Devices, e: Devices) {
    forall k :: k in d ==> k in e && e[k] == d[k]
  }

  lemma FlushKeeps(w: World, accepts: nat)
    ensures Keeps(w.devices, Flush(w, accepts).devices)
  {
    if w.queue.waiting != [] && Ready(w) {
      var p := Q.FlushJobs(Q.Jobs(w.devices, w.queue.waiting), accepts);
      var tried := Tried(w.queue.waiting, p.gone);
      KnownAllAdds(w.devices, tried, set m | m in tried :: Normal(m.address));
    }
  }

  lemma PrepareKeepsDevices(w: World, m: Move)
    ensures Keeps(w.devices, Prepare(w, m).devices)
  {
  }

  lemma HandleKeepsDevices(w: World, i: Input, accepts: nat)
    ensures Keeps(w.devices, Handle(w, i, Real(accepts)).world.devices)
  {
    var o := Step(w.manager, i);
    ExecuteAdds(w.(manager := o.next), o.actions, Real(accepts), LookedUp(o.actions));
  }

  lemma PlainKeepsDevices(w: World, m: Move)
    requires !m.Reload?
    ensures Keeps(w.devices, Plain(w, m).devices)
  {
    if m.Diagnose? {
      DiagnoseKeepsDevices(w, m);
    } else if m.Command? {
      PlainCommand(w, m);
      PrepareKeepsDevices(w, m);
    } else {
      OtherMovesKeepDevices(w, m);
    }
  }

  lemma DiagnoseKeepsDevices(w: World, m: Move)
    requires m.Diagnose?
    ensures Keeps(w.devices, Plain(w, m).devices)
  {
    FlushKeeps(Diagnosed(w, m), m.accepts);
  }

  lemma NextKeepsDevices(w: World, m: Move)
    requires !m.Reload?
    ensures Keeps(w.devices, Next(w, m).devices)
  {
    match InputOf(w, m)
    case Some((i, accepts)) =>
      PrepareKeepsDevices(w, m);
      HandleKeepsDevices(Prepare(w, m), i, accepts);
    case None => PlainKeepsDevices(w, m);
  }

  lemma KeptIsRefused(w: World, u: World)
    requires SomeRefused(w) && Keeps(w.devices, u.devices) && u.prefix == w.prefix && u.base == w.base
    ensures SomeRefused(u)
  {
    var k :| k in w.devices && Discovery.DiscoveryMessage(w.devices[k], w.prefix, w.base).Err?;
    assert u.devices[k] == w.devices[k];
  }

  /** A refused entry of Bridge.devices stays refused until the configuration is reloaded. */
  lemma {:induction false} RefusalPersists(c: Course, moves: seq<Move>)
    requires SomeRefused(c.world) && forall m :: m in moves ==> !m.Reload?
    ensures SomeRefused(RunMoves(c, moves).world)
    decreases |moves|
  {
    if moves != [] {
      var init, last := moves[..|moves| - 1], moves[|moves| - 1];
      assert last in moves;
      RefusalPersists(c, init);
      NextKeepsDevices(RunMoves(c, init).world, last);
      NextKeepsSettings(RunMoves(c, init).world, last);
      KeptIsRefused(RunMoves(c, init).world, RunMoves(c, moves).world);
    }
  }

  /** From the moment one entry of Bridge.devices is refused until the configuration is reloaded, no health report that
      arrives while MQTT is up takes a command off the queue or puts a line on the wire. */
  lemma RefusalHoldsBackTheQueue(c: Course, moves: seq<Move>, m: Move)
    requires SomeRefused(c.world) && forall x :: x in moves ==> !x.Reload?
    requires m.Diagnose? && Flagged(RunMoves(c, moves).world)
    ensures var u := RunMoves(c, moves).world;
            m.kind.Health? ==> Next(u, m).queue == u.queue && Next(u, m).wire == u.wire
  {
    RefusalPersists(c, moves);
  }
}
