/** Nothing reaches mochad that no MQTT message asked for. */
module BridgeRequests {
  import opened Text
  import opened Models
  import opened Addresses
  import opened StateSpec
  import opened StateRuns
  import opened StateHistory
  import opened BridgeSystem
  import opened BridgeRuns
  import opened BridgeCommands
  import opened BridgeOrder
  import BridgeDiscovery
  import opened Encoder
  import Q = CommandQueue
  import Topics

  /** The message asks for the command: it arrives on the device's command topic, and its payload names it. */
  predicate Asks(m: Move, base: string, a: string, c: Models.Command) {
    m.Command? && Topics.ParseCommandTopic(m.topic, base) == Some(a) && PayloadNames(m.payload, c)
  }

  ghost predicate Asked(moves: seq<Move>, base: string, a: string, c: Models.Command) {
    exists m :: m in moves && Asks(m, base, a, c)
  }

  /** Mochad reads the line as a command that was asked for. */
  ghost predicate LineAsked(moves: seq<Move>, base: string, line: string) {
    ReadRf(line).Some? && Asked(moves, base, ReadRf(line).value.0, ReadRf(line).value.1)
  }

  ghost predicate QueueAsked(moves: seq<Move>, base: string, q: seq<Q.Message>) {
    forall k :: 0 <= k < |q| ==> Canonical(q[k].address) && Asked(moves, base, q[k].address, q[k].command)
  }

  ghost predicate WireAsked(moves: seq<Move>, base: string, wire: seq<Written>) {
    forall k :: 0 <= k < |wire| ==> LineAsked(moves, base, wire[k].line)
  }

  ghost predicate AllAsked(moves: seq<Move>, w: World) {
    QueueAsked(moves, w.base, w.queue.waiting) && WireAsked(moves, w.base, w.wire)
  }

  lemma AskedStill(moves: seq<Move>, m: Move, base: string, a: string, c: Models.Command)
    requires Asked(moves, base, a, c)
    ensures Asked(moves + [m], base, a, c)
  {
    var x :| x in moves && Asks(x, base, a, c);
    assert x in moves + [m];
  }

  lemma AllAskedStill(moves: seq<Move>, m: Move, w: World)
    requires AllAsked(moves, w)
    ensures AllAsked(moves + [m], w)
  {
    var more, q := moves + [m], w.queue.waiting;
    forall k | 0 <= k < |q|
      ensures Asked(more, w.base, q[k].address, q[k].command)
    {
      AskedStill(moves, m, w.base, q[k].address, q[k].command);
    }
    forall k | 0 <= k < |w.wire|
      ensures LineAsked(more, w.base, w.wire[k].line)
    {
      var r := ReadRf(w.wire[k].line).value;
      AskedStill(moves, m, w.base, r.0, r.1);
    }
  }

  lemma SameTrafficAsked(moves: seq<Move>, w: World, u: World)
    requires AllAsked(moves, w) && SameTraffic(w, u) && u.base == w.base
    ensures AllAsked(moves, u)
  {
  }

  // A flush writes only what waits.

  /** Mochad reads the line as one of the waiting commands. */
  ghost predicate Waits(q: seq<Q.Message>, line: string) {
    exists k :: 0 <= k < |q| && ReadRf(line) == Some((Normal(q[k].address), q[k].command))
  }

  lemma WaitsBehind(q: seq<Q.Message>, line: string)
    requires q != [] && Waits(q[1..], line)
    ensures Waits(q, line)
  {
    var k :| 0 <= k < |q[1..]| && ReadRf(line) == Some((Normal(q[1..][k].address), q[1..][k].command));
    assert q[k + 1] == q[1..][k];
  }

  /** What sending the first command writes. */
  lemma FirstWaits(devices: Devices, q: seq<Q.Message>, accepts: nat, line: string)
    requires q != [] && line in Q.Transmit(Q.JobOf(devices, q[0]), accepts).written
    ensures Waits(q, line)
  {
    Q.TransmitMeans(devices, q[0], accepts);
    assert ReadRf(line) == Some((Normal(q[0].address), q[0].command));
  }

  lemma {:induction false} FlushWritesWhatWaits(devices: Devices, q: seq<Q.Message>, accepts: nat)
    ensures forall l :: l in Q.FlushJobs(Q.Jobs(devices, q), accepts).written ==> Waits(q, l)
    decreases |q|
  {
    if q != [] {
      var jobs := Q.Jobs(devices, q);
      var s := Q.Transmit(jobs[0], accepts);
      Q.FlushUnfolds(jobs, accepts);
      assert jobs[1..] == Q.Jobs(devices, q[1..]);
      if s.status == Q.Sent {
        FlushWritesWhatWaits(devices, q[1..], accepts - |s.written|);
      }
      forall l | l in Q.FlushJobs(jobs, accepts).written
        ensures Waits(q, l)
      {
        if l in s.written {
          FirstWaits(devices, q, accepts, l);
        } else {
          WaitsBehind(q, l);
        }
      }
    }
  }

  lemma WaitingLineAsked(moves: seq<Move>, base: string, q: seq<Q.Message>, line: string)
    requires QueueAsked(moves, base, q) && Waits(q, line)
    ensures LineAsked(moves, base, line)
  {
    var k :| 0 <= k < |q| && ReadRf(line) == Some((Normal(q[k].address), q[k].command));
    CanonicalIsNormal(q[k].address);
  }

  lemma WireGrows(moves: seq<Move>, base: string, wire: seq<Written>, lines: seq<string>, w: World)
    requires WireAsked(moves, base, wire) && forall l :: l in lines ==> LineAsked(moves, base, l)
    ensures WireAsked(moves, base, wire + Tagged(lines, w))
  {
    var more := Tagged(lines, w);
    forall k | 0 <= k < |more|
      ensures LineAsked(moves, base, more[k].line)
    {
      assert lines[k] in lines;
    }
  }

  lemma FlushAsked(moves: seq<Move>, w: World, accepts: nat)
    requires AllAsked(moves, w)
    ensures AllAsked(moves, Flush(w, accepts))
  {
    if w.queue.waiting != [] && Ready(w) {
      var p := Q.FlushJobs(Q.Jobs(w.devices, w.queue.waiting), accepts);
      FlushWritesWhatWaits(w.devices, w.queue.waiting, accepts);
      forall l | l in p.written
        ensures LineAsked(moves, w.base, l)
      {
        WaitingLineAsked(moves, w.base, w.queue.waiting, l);
      }
      WireGrows(moves, w.base, w.wire, p.written, w);
    }
  }

  // The moves.

  lemma AdmittedAsks(w: World, m: Move, msg: Q.Message)
    requires m.Command? && Admitted(w, m.topic, m.payload) == Some(msg)
    ensures Asks(m, w.base, msg.address, msg.command) && Canonical(msg.address)
  {
    AdmittedExactly(w, m.topic, m.payload, msg);
    AdmittedIsEncodable(w, m.topic, m.payload);
  }

  /** Queue and wire after a command whose outcome is known. */
  lemma OutcomeAsked(moves: seq<Move>, w: World, u: World, msg: Q.Message, accepts: nat)
    requires AllAsked(moves, w) && u.base == w.base && (SameTraffic(w, u) || Sent(w, u, msg, accepts))
    requires Canonical(msg.address) && Asked(moves, w.base, msg.address, msg.command)
    ensures AllAsked(moves, u)
  {
    if Sent(w, u, msg, accepts) && Ready(w) {
      CanonicalIsNormal(msg.address);
      Q.TransmitMeans(w.devices, msg, accepts);
      WireGrows(moves, w.base, w.wire, Q.Transmit(Q.JobOf(w.devices, msg), accepts).written, w);
    }
  }

  lemma CommandAsked(moves: seq<Move>, w: World, m: Move, msg: Q.Message)
    requires AllAsked(moves, w) && m in moves && m.Command? && Admitted(w, m.topic, m.payload) == Some(msg)
    ensures AllAsked(moves, Next(w, m))
  {
    BridgeDiscovery.NextKeepsSettings(w, m);
    AdmittedAsks(w, m, msg);
    assert Asked(moves, w.base, msg.address, msg.command);
    CommandIsSent(w, m);
    OutcomeAsked(moves, w, Next(w, m), msg, m.accepts);
  }

  lemma OthersSendNothing(s: Manager, i: Input)
    requires Sound(s) && !i.Request?
    ensures SendsNothing(Step(s, i).actions)
  {
    StepTallies(s, i);
    forall x | x in Step(s, i).actions
      ensures !x.SendDevice?
    {
      if x.SendDevice? {
        SendsAreListed(Step(s, i).actions, x);
      }
    }
  }

  lemma HandledQuietly(w: World, i: Input, accepts: nat)
    requires Sound(w.manager) && !i.Request?
    ensures SameTraffic(w, Handle(w, i, Real(accepts)).world)
  {
    var o := Step(w.manager, i);
    OthersSendNothing(w.manager, i);
    ExecuteQuiet(w.(manager := o.next), o.actions, accepts);
  }

  lemma PlainAsked(moves: seq<Move>, w: World, m: Move)
    requires AllAsked(moves, w)
    ensures AllAsked(moves, Plain(w, m))
  {
    if m.Diagnose? {
      FlushAsked(moves, Diagnosed(w, m), m.accepts);
    } else {
      SameTrafficAsked(moves, w, Plain(w, m));
    }
  }

  lemma NextAsked(moves: seq<Move>, w: World, m: Move)
    requires Sound(w.manager) && AllAsked(moves, w) && m in moves
    ensures AllAsked(moves, Next(w, m))
  {
    match InputOf(w, m)
    case None => PlainAsked(moves, w, m);
    case Some((i, accepts)) =>
      if m.Command? {
        CommandAsked(moves, w, m, Admitted(w, m.topic, m.payload).value);
      } else {
        HandledQuietly(Prepare(w, m), i, accepts);
        BridgeDiscovery.NextKeepsSettings(w, m);
        SameTrafficAsked(moves, w, Next(w, m));
      }
  }

  lemma {:induction false} RunAsked(w: World, moves: seq<Move>)
    requires Starting(w)
    ensures AllAsked(moves, RunMoves(Course(w, false), moves).world)
    ensures RunMoves(Course(w, false), moves).world.base == w.base
    decreases |moves|
  {
    if moves != [] {
      var init, last := moves[..|moves| - 1], moves[|moves| - 1];
      var u := RunMoves(Course(w, false), init).world;
      RunAsked(w, init);
      StartOnCourse(w);
      RunOnCourse(Course(w, false), init);
      assert init + [last] == moves;
      AllAskedStill(init, last, u);
      NextAsked(moves, u, last);
      BridgeDiscovery.NextKeepsSettings(u, last);
    }
  }

  /** In every run, mochad reads every device-command line as ON, OFF, DIM or BRIGHT for a device whose command topic
      received a message that names this command; and every waiting command was asked for in the same way. */
  lemma EveryLineWasAskedFor(w: World, moves: seq<Move>)
    requires Starting(w)
    ensures var u := RunMoves(Course(w, false), moves).world;
            && (forall x :: x in u.wire ==> LineAsked(moves, w.base, x.line))
            && (forall q :: q in u.queue.waiting ==> Asked(moves, w.base, q.address, q.command))
  {
    RunAsked(w, moves);
  }
}
