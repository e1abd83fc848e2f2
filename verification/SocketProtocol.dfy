/** MochadClient's connect/disconnect/stop protocol: one worker thread and any number of concurrent calls
    of stop(), interleaved at the granularity of the socket lock. */
module SocketProtocol {
  import opened Text

  type Socket = nat

  /** Where the worker thread stands in _run. */
  datatype Worker =
    | Check                          // the while condition
    | Dial                           // socket_factory and settimeout
    | Install(dialled: Socket)       // the locked section of connect()
    | Announce                       // the connect callback
    | Probe                          // if self.connected
    | ReadCheck                      // the read loop's condition
    | Receive                        // read the socket field, then recv
    | Swap                           // the locked section of disconnect()
    | Close(taken: Option<Socket>)   // the unlocked close of disconnect()
    | Report                         // the disconnect callback
    | Pause                          // the reconnect delay
    | Exited

  /** Where a call of stop() stands. */
  datatype Stopper = ClearRunning | SetStop | TakeSocket | CloseTaken(taken: Option<Socket>) | Finished

  datatype Callback = Connected | Disconnected

  datatype State = State(
    worker: Worker,
    stoppers: seq<Stopper>,
    socket: Option<Socket>,
    running: bool,
    stopEvent: bool,
    next: Socket,
    reached: set<Socket>,       // sockets that got as far as connect's locked section
    closed: seq<Socket>,        // every close() call, in order
    callbacks: seq<Callback>
  )

  /** What the outside world decides in a worker step: things work, fail, or settimeout fails after dialling. */
  datatype Luck = Works | Fails | FailsAfterDialling

  datatype Step = Work(luck: Luck) | Stop(who: nat)

  /** The state just after start(), with n calls of stop() yet to come. */
  function Started(n: nat): State {
    State(Check, seq(n, _ => ClearRunning), None, true, false, 0, {}, [], [])
  }

  function CloseCall(o: Option<Socket>): seq<Socket> {
    if o.Some? then [o.value] else []
  }

  function WorkerStep(s: State, luck: Luck): State {
    match s.worker
    case Check => s.(worker := if s.running && !s.stopEvent then Dial else Exited)
    case Dial =>
      if luck.Works? then s.(worker := Install(s.next), next := s.next + 1)
      else s.(worker := Swap, next := if luck.Fails? then s.next else s.next + 1)
    case Install(k) =>
      if s.stopEvent then s.(worker := Probe, reached := s.reached + {k}, closed := s.closed + [k])
      else s.(worker := Announce, reached := s.reached + {k}, socket := Some(k))
    case Announce => s.(worker := Probe, callbacks := s.callbacks + [Connected])
    case Probe => s.(worker := if s.socket.Some? then ReadCheck else Swap)
    case ReadCheck => s.(worker := if s.running && !s.stopEvent then Receive else Swap)
    case Receive => s.(worker := if s.socket.Some? && luck.Works? then ReadCheck else Swap)
    case Swap => s.(worker := Close(s.socket), socket := None)
    case Close(o) => s.(worker := Report, closed := s.closed + CloseCall(o))
    case Report => s.(worker := Pause, callbacks := s.callbacks + [Disconnected])
    case Pause => s.(worker := Check)
    case Exited => s
  }

  function StopperStep(s: State, i: nat): State {
    if i >= |s.stoppers| then s else
    match s.stoppers[i]
    case ClearRunning => s.(stoppers := s.stoppers[i := SetStop], running := false)
    case SetStop => s.(stoppers := s.stoppers[i := TakeSocket], stopEvent := true)
    case TakeSocket => s.(stoppers := s.stoppers[i := CloseTaken(s.socket)], socket := None)
    case CloseTaken(o) => s.(stoppers := s.stoppers[i := Finished], closed := s.closed + CloseCall(o))
    case Finished => s
  }

  function Next(s: State, step: Step): State {
    match step
    case Work(luck) => WorkerStep(s, luck)
    case Stop(i) => StopperStep(s, i)
  }

  function Run(s: State, steps: seq<Step>): State
    decreases |steps|
  {
    if steps == [] then s else Run(Next(s, steps[0]), steps[1..])
  }

  // Conservation of sockets.

  function Is(o: Option<Socket>, k: Socket): nat {
    if o == Some(k) then 1 else 0
  }

  function HeldBy(p: Stopper, k: Socket): nat {
    if p.CloseTaken? then Is(p.taken, k) else 0
  }

  function Held(ps: seq<Stopper>, k: Socket): nat {
    if ps == [] then 0 else HeldBy(ps[0], k) + Held(ps[1..], k)
  }

  lemma {:induction false} HeldUpdate(ps: seq<Stopper>, i: nat, p: Stopper, k: Socket)
    requires i < |ps|
    ensures Held(ps[i := p], k) + HeldBy(ps[i], k) == Held(ps, k) + HeldBy(p, k)
  {
    if i == 0 {
      assert ps[i := p][1..] == ps[1..];
    } else {
      HeldUpdate(ps[1..], i - 1, p, k);
      assert ps[i := p][1..] == ps[1..][i - 1 := p];
    }
  }

  lemma {:induction false} NothingHeld(ps: seq<Stopper>, k: Socket)
    requires forall p :: p in ps ==> !p.CloseTaken?
    ensures Held(ps, k) == 0
  {
    if ps != [] {
      assert ps[0] in ps;
      NothingHeld(ps[1..], k);
    }
  }

  /** How often a socket is accounted for: installed, in some thread's hands, or passed to close(). */
  function Sightings(s: State, k: Socket): nat {
    multiset(s.closed)[k] + Held(s.stoppers, k) + Is(s.socket, k) + (if s.worker.Close? then Is(s.worker.taken, k) else 0)
  }

  function Due(s: State, k: Socket): nat {
    if k in s.reached then 1 else 0
  }

  /** Every socket that reached the lock is in exactly one place; no other socket is anywhere. */
  ghost predicate Conserved(s: State) {
    && (forall k: Socket :: Sightings(s, k) == Due(s, k))
    && (forall k :: k in s.reached ==> k < s.next)
    && (s.worker.Install? ==> s.worker.dialled < s.next && s.worker.dialled !in s.reached)
  }

  predicate Reading(w: Worker) {
    w.Announce? || w.Probe? || w.ReadCheck? || w.Receive? || w.Swap?
  }

  /** The last callback, when there is one, was not the connect callback. */
  predicate LastWasNotConnect(cs: seq<Callback>) {
    cs == [] || cs[|cs| - 1].Disconnected?
  }

  predicate NoTwoConnects(cs: seq<Callback>) {
    forall i :: 0 <= i && i + 1 < |cs| && cs[i].Connected? ==> cs[i + 1].Disconnected?
  }

  predicate PastSwap(p: Stopper) { p.CloseTaken? || p.Finished? }

  /** What the flags and the two threads' positions say about each other. */
  ghost predicate Controlled(s: State) {
    && (s.socket.Some? ==> Reading(s.worker))
    && (forall i :: 0 <= i < |s.stoppers| && PastSwap(s.stoppers[i]) ==> s.socket.None?)
    && (forall i :: 0 <= i < |s.stoppers| && (s.stoppers[i].TakeSocket? || PastSwap(s.stoppers[i])) ==> s.stopEvent)
  }

  ghost predicate Alternating(s: State) {
    && NoTwoConnects(s.callbacks)
    && (s.worker.Check? || s.worker.Dial? || s.worker.Install? || s.worker.Announce? || s.worker.Pause?
        ==> LastWasNotConnect(s.callbacks))
  }

  ghost predicate Inv(s: State) {
    Conserved(s) && Controlled(s) && Alternating(s)
  }

  lemma StartedInv(n: nat)
    ensures Inv(Started(n))
  {
    forall k: Socket
      ensures Held(Started(n).stoppers, k) == 0
    {
      NothingHeld(Started(n).stoppers, k);
    }
  }

  /** Sockets seen and sockets due move together in a worker step. */
  ghost predicate Balanced(s: State, t: State, k: Socket) {
    Sightings(t, k) + Due(s, k) == Sightings(s, k) + Due(t, k)
  }

  lemma InstallMovesSockets(s: State, luck: Luck, k: Socket)
    requires s.worker.Install? && s.worker.dialled !in s.reached && s.socket.None?
    ensures Balanced(s, WorkerStep(s, luck), k)
  {
    ClosedOnceMore(s.closed, Some(s.worker.dialled), k);
  }

  lemma WorkerMovesSockets(s: State, luck: Luck, k: Socket)
    requires s.worker.Install? ==> s.worker.dialled !in s.reached && s.socket.None?
    ensures Balanced(s, WorkerStep(s, luck), k)
  {
    match s.worker
    case Install(_) => InstallMovesSockets(s, luck, k);
    case Close(o) => ClosedOnceMore(s.closed, o, k);
    case _ =>
  }

  lemma ClosedOnceMore(cs: seq<Socket>, o: Option<Socket>, k: Socket)
    ensures multiset(cs + CloseCall(o))[k] == multiset(cs)[k] + Is(o, k)
  {
  }

  lemma StopperMovesSockets(s: State, i: nat, k: Socket)
    requires i < |s.stoppers| && !s.stoppers[i].Finished?
    ensures Sightings(StopperStep(s, i), k) == Sightings(s, k)
  {
    match s.stoppers[i]
    case ClearRunning => HeldUpdate(s.stoppers, i, SetStop, k);
    case SetStop => HeldUpdate(s.stoppers, i, TakeSocket, k);
    case TakeSocket => HeldUpdate(s.stoppers, i, CloseTaken(s.socket), k);
    case CloseTaken(o) =>
      HeldUpdate(s.stoppers, i, Finished, k);
      ClosedOnceMore(s.closed, o, k);
  }

  lemma StepConserves(s: State, step: Step)
    requires Conserved(s) && Controlled(s)
    ensures Conserved(Next(s, step))
  {
    var t := Next(s, step);
    forall k: Socket
      ensures Sightings(t, k) == Due(t, k)
    {
      assert Sightings(s, k) == Due(s, k);
      if step.Work? {
        WorkerMovesSockets(s, step.luck, k);
      } else if t != s {
        StopperMovesSockets(s, step.who, k);
      }
    }
  }

  lemma StepControls(s: State, step: Step)
    requires Controlled(s)
    ensures Controlled(Next(s, step))
  {
  }

  lemma StepAlternates(s: State, step: Step)
    requires Alternating(s)
    ensures Alternating(Next(s, step))
  {
  }

  lemma StepKeepsInv(s: State, step: Step)
    requires Inv(s)
    ensures Inv(Next(s, step))
  {
    StepConserves(s, step);
    StepControls(s, step);
    StepAlternates(s, step);
  }

  lemma {:induction false} RunKeepsInv(s: State, steps: seq<Step>)
    requires Inv(s)
    ensures Inv(Run(s, steps))
    decreases |steps|
  {
    if steps != [] {
      StepKeepsInv(s, steps[0]);
      RunKeepsInv(Next(s, steps[0]), steps[1..]);
    }
  }

  /** In every reachable state no socket has been closed twice, a closed one is no longer installed, and
      the connect callback never runs twice without a disconnect callback in between. */
  lemma NoDoubleClose(n: nat, steps: seq<Step>)
    ensures var s := Run(Started(n), steps);
            && (forall k: Socket :: multiset(s.closed)[k] <= 1)
            && (s.socket.Some? ==> s.socket.value !in s.closed)
            && NoTwoConnects(s.callbacks)
  {
    StartedInv(n);
    RunKeepsInv(Started(n), steps);
    var s := Run(Started(n), steps);
    forall k: Socket
      ensures multiset(s.closed)[k] <= 1
    {
      assert Sightings(s, k) == Due(s, k);
    }
    if s.socket.Some? {
      assert Sightings(s, s.socket.value) == Due(s, s.socket.value);
      assert s.socket.value in s.closed <==> s.socket.value in multiset(s.closed);
    }
  }

  /** Once a stop() has taken the socket away, no socket is installed then or ever after. */
  lemma NoSocketAfterStop(n: nat, before: seq<Step>, after: seq<Step>, i: nat)
    requires var s := Run(Started(n), before); i < |s.stoppers| && PastSwap(s.stoppers[i])
    ensures Run(Run(Started(n), before), after).socket == None
  {
    StartedInv(n);
    RunKeepsInv(Started(n), before);
    StaysPastSwap(Run(Started(n), before), after, i);
  }

  lemma {:induction false} StaysPastSwap(s: State, steps: seq<Step>, i: nat)
    requires Inv(s) && i < |s.stoppers| && PastSwap(s.stoppers[i])
    ensures Run(s, steps).socket == None
    decreases |steps|
  {
    if steps != [] {
      StepKeepsInv(s, steps[0]);
      StaysPastSwap(Next(s, steps[0]), steps[1..], i);
    }
  }

  /** When the worker has left its loop and no stop() is about to close something, every socket that reached the
      lock has been closed exactly once and nothing else has been closed. */
  lemma EverySocketClosedOnce(n: nat, steps: seq<Step>)
    requires var s := Run(Started(n), steps); s.worker.Exited? && forall p :: p in s.stoppers ==> !p.CloseTaken?
    ensures var s := Run(Started(n), steps); multiset(s.closed) == multiset(s.reached)
  {
    StartedInv(n);
    RunKeepsInv(Started(n), steps);
    var s := Run(Started(n), steps);
    forall k: Socket
      ensures multiset(s.closed)[k] == multiset(s.reached)[k]
    {
      NothingHeld(s.stoppers, k);
      assert Sightings(s, k) == Due(s, k);
    }
  }

  // Progress.

  function WorkerRank(w: Worker): nat {
    match w
    case Exited => 0
    case Check => 1
    case Pause => 2
    case Report => 3
    case Close(_) => 4
    case Swap => 5
    case ReadCheck => 6
    case Receive => 7
    case Probe => 8
    case Announce => 9
    case Install(_) => 10
    case Dial => 11
  }

  /** With the stop event set, every worker step brings the worker closer to leaving its loop, whatever the outside
      world does, and steps of stop() calls never set it back. */
  lemma StopEventBringsWorkerHome(s: State, step: Step)
    requires s.stopEvent
    ensures Next(s, step).stopEvent
    ensures step.Work? && !s.worker.Exited? ==> WorkerRank(Next(s, step).worker) < WorkerRank(s.worker)
    ensures step.Stop? ==> Next(s, step).worker == s.worker
  {
  }

  function WorkerSteps(steps: seq<Step>): nat {
    if steps == [] then 0 else (if steps[0].Work? then 1 else 0) + WorkerSteps(steps[1..])
  }

  /** Hence at most eleven worker steps after the stop event, in any interleaving, the worker has exited. */
  lemma {:induction false} WorkerExitsAfterStop(s: State, steps: seq<Step>)
    requires s.stopEvent && WorkerSteps(steps) >= WorkerRank(s.worker)
    ensures Run(s, steps).worker.Exited?
    decreases |steps|
  {
    if steps != [] {
      StopEventBringsWorkerHome(s, steps[0]);
      WorkerExitsAfterStop(Next(s, steps[0]), steps[1..]);
    }
  }

  // Progress while nobody stops the client.

  /** While a socket is installed and the worker is past the connect callback, that callback was the last one. */
  ghost predicate Announced(s: State) {
    s.socket.Some? && (s.worker.Probe? || s.worker.ReadCheck? || s.worker.Receive? || s.worker.Swap?) ==>
      s.callbacks != [] && s.callbacks[|s.callbacks| - 1].Connected?
  }

  lemma StepAnnounces(s: State, step: Step)
    requires Controlled(s) && Announced(s)
    ensures Announced(Next(s, step))
  {
  }

  lemma {:induction false} RunAnnounces(s: State, steps: seq<Step>)
    requires Inv(s) && Announced(s)
    ensures Inv(Run(s, steps)) && Announced(Run(s, steps))
    decreases |steps|
  {
    if steps != [] {
      StepKeepsInv(s, steps[0]);
      StepAnnounces(s, steps[0]);
      RunAnnounces(Next(s, steps[0]), steps[1..]);
    }
  }

  /** Nobody has asked the worker to stop, and it has not given up by itself. */
  predicate Unstopped(s: State) { s.running && !s.stopEvent && !s.worker.Exited? }

  predicate IsReading(s: State) { s.socket.Some? && (s.worker.ReadCheck? || s.worker.Receive?) }

  /** How many working steps separate the worker from reading a socket. */
  function Distance(s: State): nat {
    match s.worker
    case ReadCheck => if s.socket.Some? then 0 else 11
    case Receive => if s.socket.Some? then 0 else 10
    case Probe => if s.socket.Some? then 1 else 10
    case Announce => if s.socket.Some? then 2 else 11
    case Install(_) => 3
    case Dial => 4
    case Check => 5
    case Pause => 6
    case Report => 7
    case Close(_) => 8
    case Swap => 9
    case Exited => 0
  }

  lemma WorkingStep(s: State)
    requires Unstopped(s)
    ensures var t := WorkerStep(s, Works);
            && Unstopped(t) && (IsReading(s) ==> IsReading(t))
            && (!IsReading(s) ==> Distance(t) < Distance(s) || IsReading(t))
  {
  }

  lemma {:induction false} WorkingSteps(s: State, steps: seq<Step>)
    requires Unstopped(s) && forall x :: x in steps ==> x == Work(Works)
    requires IsReading(s) || |steps| >= Distance(s)
    ensures IsReading(Run(s, steps))
    decreases |steps|
  {
    if steps != [] {
      assert steps[0] in steps && forall x :: x in steps[1..] ==> x in steps;
      WorkingStep(s);
      WorkingSteps(Next(s, steps[0]), steps[1..]);
    }
  }

  /** Until somebody stops the client, whatever has failed before, eleven steps in which dialling and reading work leave the
      worker reading an open socket, and the last callback was the connect callback. */
  lemma WorkerReconnects(n: nat, before: seq<Step>, after: seq<Step>)
    requires Unstopped(Run(Started(n), before))
    requires |after| >= 11 && forall x :: x in after ==> x == Work(Works)
    ensures var s := Run(Run(Started(n), before), after);
            && IsReading(s) && s.socket.value !in s.closed
            && s.callbacks != [] && s.callbacks[|s.callbacks| - 1].Connected?
  {
    StartedInv(n);
    RunAnnounces(Started(n), before);
    var s := Run(Started(n), before);
    WorkingSteps(s, after);
    RunAnnounces(s, after);
    var t := Run(s, after);
    assert Sightings(t, t.socket.value) == Due(t, t.socket.value);
    assert t.socket.value in t.closed <==> t.socket.value in multiset(t.closed);
  }

  /** Until somebody stops the client, the worker does not leave its loop. */
  lemma {:induction false} WorkerStaysWhileRunning(s: State, steps: seq<Step>)
    requires Unstopped(s) && forall x :: x in steps ==> x.Work?
    ensures Unstopped(Run(s, steps))
    decreases |steps|
  {
    if steps != [] {
      assert steps[0] in steps && forall x :: x in steps[1..] ==> x in steps;
      WorkerStaysWhileRunning(Next(s, steps[0]), steps[1..]);
    }
  }

  /** Each turn of the loop ends alike, whether dialling or reading failed: the socket, if there was one, is closed and the
      disconnect callback runs once. */
  lemma TurnEnds(s: State, a: Luck, b: Luck, c: Luck, d: Luck)
    requires s.worker.Swap?
    ensures Run(s, [Work(a), Work(b), Work(c), Work(d)])
         == s.(worker := Check, socket := None, closed := s.closed + CloseCall(s.socket),
               callbacks := s.callbacks + [Disconnected])
  {
    var steps := [Work(a), Work(b), Work(c), Work(d)];
    var s1 := Next(s, Work(a));
    var s2 := Next(s1, Work(b));
    var s3 := Next(s2, Work(c));
    assert steps[1..] == [Work(b), Work(c), Work(d)] && steps[1..][1..] == [Work(c), Work(d)];
    assert Run(s, steps) == Run(s1, [Work(b), Work(c), Work(d)]);
    assert [Work(c), Work(d)][1..] == [Work(d)];
    assert Run(s2, [Work(c), Work(d)]) == Run(s3, [Work(d)]) == Next(s3, Work(d));
  }
}
