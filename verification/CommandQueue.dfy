/** Command encoding for mochad (protocol/encoder.py). */
module Encoder {
  import opened Text
  import opened Models
  import opened Addresses

  function Suffix(c: Command): Option<string> {
    match c
    case On => Some("on")
    case Off => Some("off")
    case Dim => Some("dim")
    case Bright => Some("bright")
    case _ => None
  }

  function EncodeRf(address: string, c: Command): Option<string> {
    match NormalizeAddress(address)
    case None => None
    case Some(a) =>
      match Suffix(c)
      case None => None
      case Some(suffix) => Some("rf " + a + " " + suffix)
  }

  predicate Encodable(address: string, c: Command) {
    Canonical(Normal(address)) && c in LIGHT_COMMANDS
  }

  lemma EncodableExactly(address: string, c: Command)
    ensures EncodeRf(address, c).Some? <==> Encodable(address, c)
  {
  }

  // What the lines mean.

  /** Mochad's side of a line: the transport, the address and the word for the command. */
  function ReadRf(line: string): Option<(string, Command)> {
    var parts := Split(line, ' ');
    if |parts| != 3 || parts[0] != "rf" || !Canonical(parts[1]) then None
    else if parts[2] == "on" then Some((parts[1], On))
    else if parts[2] == "off" then Some((parts[1], Off))
    else if parts[2] == "dim" then Some((parts[1], Dim))
    else if parts[2] == "bright" then Some((parts[1], Bright))
    else None
  }

  /** The four lines, word for word. */
  lemma EncodedWordForWord(a: string)
    requires Canonical(a)
    ensures EncodeRf(a, On) == Some("rf " + a + " on") && EncodeRf(a, Off) == Some("rf " + a + " off")
    ensures EncodeRf(a, Dim) == Some("rf " + a + " dim") && EncodeRf(a, Bright) == Some("rf " + a + " bright")
  {
    CanonicalIsNormal(a);
    assert "rf " + a + " " + "on" == "rf " + a + " on" && "rf " + a + " " + "off" == "rf " + a + " off";
    assert "rf " + a + " " + "dim" == "rf " + a + " dim" && "rf " + a + " " + "bright" == "rf " + a + " bright";
  }

  lemma JoinedLine(a: string, word: string)
    ensures Join(["rf", a, word], ' ') == "rf " + a + " " + word
  {
    assert ["rf", a, word][1..] == [a, word] && [a, word][1..] == [word];
    assert Join([a, word], ' ') == a + " " + word;
    assert "rf" + " " + (a + " " + word) == "rf " + a + " " + word;
  }

  lemma LineParts(a: string, word: string)
    requires Canonical(a) && ' ' !in word
    ensures Split("rf " + a + " " + word, ' ') == ["rf", a, word]
  {
    forall i | 0 <= i < |a|
      ensures a[i] != ' '
    {
      assert i > 0 ==> a[i] == a[1..][i - 1];
    }
    JoinedLine(a, word);
    SplitJoin(["rf", a, word], ' ');
  }

  lemma EncodedIsRead(address: string, c: Command)
    requires EncodeRf(address, c).Some?
    ensures ReadRf(EncodeRf(address, c).value) == Some((Normal(address), c))
  {
    LineParts(Normal(address), Suffix(c).value);
  }

  lemma ReadIsEncoded(address: string, c: Command, line: string)
    requires ReadRf(line) == Some((Normal(address), c))
    ensures EncodeRf(address, c) == Some(line)
  {
    var parts := Split(line, ' ');
    SplitPieces(line, ' ');
    assert parts == ["rf", parts[1], parts[2]];
    JoinedLine(parts[1], parts[2]);
  }

  /** A command is encoded as a line if and only if mochad reads that line as the command for the device. */
  lemma EncodingIsRead(address: string, c: Command, line: string)
    ensures EncodeRf(address, c) == Some(line) <==> ReadRf(line) == Some((Normal(address), c))
  {
    if EncodeRf(address, c) == Some(line) {
      EncodedIsRead(address, c);
    }
    if ReadRf(line) == Some((Normal(address), c)) {
      ReadIsEncoded(address, c, line);
    }
  }
}

/** The bounded queue of device commands in bridge.py, with the sending and flushing that drain it. */
module CommandQueue {
  import opened Text
  import opened Models
  import opened Encoder

  const MAX_QUEUED := 100

  datatype Message = Message(address: string, command: Command)

  function DeviceAt(devices: Devices, address: string): DeviceConfig {
    var n := Normal(address);
    if n in devices then devices[n] else DefaultDevice(n)
  }

  /** What the configuration loader guarantees about repeats. */
  ghost predicate Bounded(devices: Devices) {
    forall n :: n in devices ==>
      1 <= devices[n].repeats <= MAX_REPEATS && 0 <= devices[n].repeatDelayMs <= MAX_DELAY_MS
  }

  function Attempts(devices: Devices, m: Message): nat {
    var r := DeviceAt(devices, m.address).repeats;
    if m.command !in {On, Off} then 1 else if r < 0 then 0 else r
  }

  function Pause(devices: Devices, m: Message): nat {
    var d := DeviceAt(devices, m.address).repeatDelayMs;
    if d < 0 then 0 else d
  }

  function Copies(line: string, n: nat): seq<string> {
    seq(n, _ => line)
  }

  /** What sending a command comes to: its line, how often, and the pause in between. */
  datatype Job = Job(line: Option<string>, attempts: nat, pause: nat)

  function JobOf(devices: Devices, m: Message): Job {
    Job(EncodeRf(m.address, m.command), Attempts(devices, m), Pause(devices, m))
  }

  function Jobs(devices: Devices, q: seq<Message>): (r: seq<Job>)
    ensures |r| == |q| && forall i :: 0 <= i < |r| ==> r[i] == JobOf(devices, q[i])
  {
    seq(|q|, i requires 0 <= i < |q| => JobOf(devices, q[i]))
  }

  datatype Status = Sent | SocketFailed | NotEncodable

  /** What went onto the wire, the time slept, how many commands were taken off the queue for good, and the outcome. */
  datatype Progress = Progress(written: seq<string>, slept: nat, gone: nat, status: Status)

  /** One command on a socket that takes `accepts` more lines and then fails. */
  function Transmit(j: Job, accepts: nat): (s: Progress)
    ensures s.status == Sent ==> s.gone == 1 && |s.written| <= accepts
  {
    if j.line.None? then Progress([], 0, 1, NotEncodable)
    else if j.attempts == 0 then Progress([], 0, 1, Sent)
    else if j.attempts <= accepts then Progress(Copies(j.line.value, j.attempts), (j.attempts - 1) * j.pause, 1, Sent)
    else Progress(Copies(j.line.value, accepts), accepts * j.pause, 0, SocketFailed)
  }

  /** Draining a queue: a command that fails on the socket goes back to the head; one that cannot be encoded is lost. */
  function FlushJobs(jobs: seq<Job>, accepts: nat): (p: Progress)
    ensures p.gone <= |jobs| && (p.status == NotEncodable ==> p.gone >= 1)
    decreases |jobs|
  {
    if jobs == [] then Progress([], 0, 0, Sent)
    else
      var s := Transmit(jobs[0], accepts);
      if s.status != Sent then s
      else
        var p := FlushJobs(jobs[1..], accepts - |s.written|);
        Then(s, p)
  }

  /** One stretch of progress after another. */
  function Then(p: Progress, q: Progress): Progress {
    Progress(p.written + q.written, p.slept + q.slept, p.gone + q.gone, q.status)
  }

  /** What sending a command means. A device asks for its configured repeats of ON and OFF, for one of other commands, and
      for one if nobody configured it. As many lines are written as it asks for, or as the socket takes, and mochad reads
      each of them as this command; there is a pause after each but the last; and the command is done if and only if the
      socket took all of them. */
  ghost predicate Means(devices: Devices, m: Message, accepts: nat, s: Progress) {
    var n := Normal(m.address);
    var asked := if n in devices && (m.command == On || m.command == Off) then devices[n].repeats else 1;
    var repeats := if asked > 0 then asked else 0;
    var ms := if n !in devices then 150 else if devices[n].repeatDelayMs > 0 then devices[n].repeatDelayMs else 0;
    && (forall l :: l in s.written ==> ReadRf(l) == Some((n, m.command)))
    && if !Encodable(m.address, m.command) then s == Progress([], 0, 1, NotEncodable)
       else if repeats <= accepts then
         |s.written| == repeats && s.slept == (if repeats == 0 then 0 else repeats - 1) * ms && s.gone == 1 && s.status == Sent
       else |s.written| == accepts && s.slept == accepts * ms && s.gone == 0 && s.status == SocketFailed
  }

  lemma TransmitMeans(devices: Devices, m: Message, accepts: nat)
    ensures Means(devices, m, accepts, Transmit(JobOf(devices, m), accepts))
  {
    EncodableExactly(m.address, m.command);
    if EncodeRf(m.address, m.command).Some? {
      EncodedIsRead(m.address, m.command);
    }
  }

  method SendDeviceCommand(devices: Devices, m: Message, accepts: nat) returns (s: Progress)
    ensures s == Transmit(JobOf(devices, m), accepts)
    ensures Means(devices, m, accepts, s)
  {
    TransmitMeans(devices, m, accepts);
    var line := EncodeRf(m.address, m.command);
    if line.None? {
      return Progress([], 0, 1, NotEncodable);
    }
    var repeats, ms := Attempts(devices, m), Pause(devices, m);
    var written, slept: nat := [], 0;
    for attempt := 1 to repeats + 1
      invariant written == Copies(line.value, attempt - 1) && attempt - 1 <= accepts
      invariant slept == (if attempt <= repeats then attempt - 1 else if repeats == 0 then 0 else repeats - 1) * ms
    {
      if |written| == accepts {
        return Progress(written, slept, 0, SocketFailed);
      }
      written := written + [line.value];
      if attempt < repeats && ms > 0 {
        SleepOnceMore(attempt - 1, ms);
        slept := slept + ms;
      }
    }
    return Progress(written, slept, 1, Sent);
  }

  lemma SleepOnceMore(n: nat, ms: nat)
    ensures n * ms + ms == (n + 1) * ms
  {
  }

  /** The queue as the bridge keeps it. */
  class Queue {
    var waiting: seq<Message>
    var dropped: nat

    constructor ()
      ensures waiting == [] && dropped == 0
    {
      waiting, dropped := [], 0;
    }

    method Enqueue(m: Message)
      modifies this
      ensures waiting == Pushed(old(waiting), m)
      ensures waiting == (if |old(waiting)| >= 100 then old(waiting)[1..] else old(waiting)) + [m]
      ensures dropped == old(dropped) + if |old(waiting)| >= 100 then 1 else 0
    {
      if |waiting| >= MAX_QUEUED {
        waiting := waiting[1..];
        dropped := dropped + 1;
      }
      waiting := waiting + [m];
    }

    /** Take the oldest command and send it; put it back if the socket fails. */
    method FlushHead(devices: Devices, accepts: nat) returns (s: Progress)
      requires waiting != []
      modifies this
      ensures s == Transmit(JobOf(devices, old(waiting)[0]), accepts)
      ensures waiting == old(waiting)[s.gone..] && dropped == old(dropped)
    {
      var m := waiting[0];
      waiting := waiting[1..];
      s := SendDeviceCommand(devices, m, accepts);
      if s.status == SocketFailed {
        waiting := [m] + waiting;
      }
    }

    /** The loop over the queue. */
    method FlushAll(devices: Devices, accepts: nat) returns (p: Progress)
      modifies this
      ensures p == FlushJobs(Jobs(devices, old(waiting)), accepts)
      ensures waiting == old(waiting)[p.gone..] && dropped == old(dropped)
    {
      p := Progress([], 0, 0, Sent);
      ghost var whole := FlushJobs(Jobs(devices, waiting), accepts);
      var left: nat := accepts;
      FlushStarts(devices, waiting, accepts);
      while waiting != []
        invariant dropped == old(dropped) && p.status == Sent
        invariant p.gone <= |old(waiting)| && waiting == old(waiting)[p.gone..]
        invariant Flushing(devices, waiting, p, left, whole)
        decreases |waiting|
      {
        FlushAdvances(devices, waiting, p, left, whole);
        DropAll(old(waiting), p.gone);
        var s := FlushHead(devices, left);
        p := Then(p, s);
        if s.status != Sent {
          return;
        }
        left := left - |s.written|;
      }
      FlushEnds(devices, p, left, whole);
    }

    /** The readiness gate is the caller's `ready`. */
    method Flush(devices: Devices, ready: bool, accepts: nat) returns (p: Progress)
      modifies this
      ensures p == if ready then FlushJobs(Jobs(devices, old(waiting)), accepts) else Progress([], 0, 0, Sent)
      ensures waiting == old(waiting)[p.gone..] && dropped == old(dropped)
    {
      if waiting == [] || !ready {
        return Progress([], 0, 0, Sent);
      }
      p := FlushAll(devices, accepts);
    }
  }

  lemma DropAll(q: seq<Message>, i: nat)
    requires i < |q|
    ensures forall j: nat :: j <= |q| - i ==> q[i..][j..] == q[i + j..]
  {
  }

  /** With progress p made and `left` more lines to go, flushing the rest of the queue completes the whole. */
  ghost predicate Flushing(devices: Devices, rest: seq<Message>, p: Progress, left: nat, whole: Progress) {
    Then(p, FlushJobs(Jobs(devices, rest), left)) == whole
  }

  lemma FlushStarts(devices: Devices, q: seq<Message>, accepts: nat)
    ensures Flushing(devices, q, Progress([], 0, 0, Sent), accepts, FlushJobs(Jobs(devices, q), accepts))
  {
    var whole := FlushJobs(Jobs(devices, q), accepts);
    assert [] + whole.written == whole.written;
  }

  lemma FlushEnds(devices: Devices, p: Progress, left: nat, whole: Progress)
    requires Flushing(devices, [], p, left, whole) && p.status == Sent
    ensures p == whole
  {
    assert p.written + [] == p.written;
  }

  /** One command of the loop in Flush. */
  lemma FlushAdvances(devices: Devices, rest: seq<Message>, p: Progress, left: nat, whole: Progress)
    requires rest != [] && Flushing(devices, rest, p, left, whole)
    ensures var s := Transmit(JobOf(devices, rest[0]), left);
            if s.status != Sent then Then(p, s) == whole
            else Flushing(devices, rest[1..], Then(p, s), left - |s.written|, whole)
  {
    var s := Transmit(JobOf(devices, rest[0]), left);
    FlushUnfolds(Jobs(devices, rest), left);
    assert Jobs(devices, rest)[1..] == Jobs(devices, rest[1..]);
    if s.status == Sent {
      ThenThen(p, s, FlushJobs(Jobs(devices, rest[1..]), left - |s.written|));
    }
  }

  lemma FlushUnfolds(jobs: seq<Job>, accepts: nat)
    requires jobs != []
    ensures var s := Transmit(jobs[0], accepts);
            FlushJobs(jobs, accepts) == if s.status != Sent then s
                                        else Then(s, FlushJobs(jobs[1..], accepts - |s.written|))
  {
  }

  lemma ThenThen(p: Progress, q: Progress, r: Progress)
    ensures Then(p, Then(q, r)) == Then(Then(p, q), r)
  {
    assert p.written + (q.written + r.written) == (p.written + q.written) + r.written;
  }

  function Pushed(q: seq<Message>, m: Message): seq<Message> {
    (if |q| >= MAX_QUEUED then q[1..] else q) + [m]
  }

  // What a flush does.

  ghost predicate AllEncodable(q: seq<Message>) {
    forall i :: 0 <= i < |q| ==> Encodable(q[i].address, q[i].command)
  }

  predicate HaveLines(jobs: seq<Job>) {
    forall i :: 0 <= i < |jobs| ==> jobs[i].line.Some?
  }

  lemma EncodableHaveLines(devices: Devices, q: seq<Message>)
    ensures AllEncodable(q) <==> HaveLines(Jobs(devices, q))
  {
    forall i | 0 <= i < |q|
      ensures Jobs(devices, q)[i].line.Some? <==> Encodable(q[i].address, q[i].command)
    {
      EncodableExactly(q[i].address, q[i].command);
    }
  }

  /** Every line the queue stands for, in order. */
  function AllLines(jobs: seq<Job>): seq<string>
    requires HaveLines(jobs)
  {
    if jobs == [] then [] else Copies(jobs[0].line.value, jobs[0].attempts) + AllLines(jobs[1..])
  }

  /** The flush stopped inside one command: it wrote every repeat of all earlier commands and a proper part of that
      command's repeats, as many lines as the socket took. */
  predicate StoppedInside(jobs: seq<Job>, accepts: nat, p: Progress)
    requires HaveLines(jobs)
  {
    && p.gone < |jobs|
    && var done := AllLines(jobs[..p.gone]);
       && |done| <= accepts < |done| + jobs[p.gone].attempts
       && p.written == done + Copies(jobs[p.gone].line.value, accepts - |done|)
  }

  lemma StoppedOneEarlier(jobs: seq<Job>, accepts: nat, p: Progress)
    requires HaveLines(jobs) && jobs != [] && jobs[0].attempts <= accepts
    requires StoppedInside(jobs[1..], accepts - jobs[0].attempts, p)
    ensures var first := Copies(jobs[0].line.value, jobs[0].attempts);
            StoppedInside(jobs, accepts, p.(written := first + p.written, gone := 1 + p.gone))
  {
    var first := Copies(jobs[0].line.value, jobs[0].attempts);
    assert jobs[..p.gone + 1][1..] == jobs[1..][..p.gone];
    var done := AllLines(jobs[1..][..p.gone]);
    assert AllLines(jobs[..p.gone + 1]) == first + done;
    var part := Copies(jobs[p.gone + 1].line.value, accepts - |first| - |done|);
    assert first + (done + part) == (first + done) + part;
  }

  /** Everything was sent, or the flush stopped inside one command. */
  predicate Shaped(jobs: seq<Job>, accepts: nat, p: Progress)
    requires HaveLines(jobs)
  {
    match p.status
    case Sent => p.gone == |jobs| && p.written == AllLines(jobs)
    case SocketFailed => StoppedInside(jobs, accepts, p)
    case NotEncodable => false
  }

  lemma ShapedFirst(jobs: seq<Job>, accepts: nat)
    requires HaveLines(jobs) && jobs != [] && accepts < jobs[0].attempts
    ensures Shaped(jobs, accepts, FlushJobs(jobs, accepts))
  {
    var part := Copies(jobs[0].line.value, accepts);
    assert AllLines(jobs[..0]) == [] && [] + part == part;
  }

  lemma FlushFirst(jobs: seq<Job>, accepts: nat)
    requires jobs != [] && jobs[0].line.Some? && jobs[0].attempts <= accepts
    ensures var p := FlushJobs(jobs[1..], accepts - jobs[0].attempts); var q := FlushJobs(jobs, accepts);
            && q.written == Copies(jobs[0].line.value, jobs[0].attempts) + p.written
            && q.gone == 1 + p.gone && q.status == p.status
  {
    assert Copies(jobs[0].line.value, 0) == [];
  }

  /** A flush of encodable commands either sends everything and empties the queue, or stops inside one command, which
      stays queued with all its successors. Nothing is lost. */
  lemma {:induction false} FlushShape(jobs: seq<Job>, accepts: nat)
    requires HaveLines(jobs)
    ensures Shaped(jobs, accepts, FlushJobs(jobs, accepts))
    decreases |jobs|
  {
    if jobs != [] {
      if jobs[0].attempts <= accepts {
        var p := FlushJobs(jobs[1..], accepts - jobs[0].attempts);
        FlushShape(jobs[1..], accepts - jobs[0].attempts);
        FlushFirst(jobs, accepts);
        if p.status == SocketFailed {
          StoppedOneEarlier(jobs, accepts, p);
        }
      } else {
        ShapedFirst(jobs, accepts);
      }
    }
  }

  lemma JobBounds(devices: Devices, m: Message)
    requires Bounded(devices)
    ensures JobOf(devices, m).attempts <= MAX_REPEATS && JobOf(devices, m).pause <= MAX_DELAY_MS
  {
  }

  lemma TransmitBounds(j: Job, accepts: nat)
    requires j.attempts <= MAX_REPEATS && j.pause <= MAX_DELAY_MS
    ensures var s := Transmit(j, accepts);
            |s.written| <= MAX_REPEATS && s.slept <= (MAX_REPEATS - 1) * MAX_DELAY_MS
  {
    var naps: nat := if j.attempts == 0 then 0 else if j.attempts <= accepts then j.attempts - 1 else accepts;
    if j.attempts >= 1 {
      assert naps <= MAX_REPEATS - 1;
      assert naps * j.pause <= (MAX_REPEATS - 1) * MAX_DELAY_MS;
    }
  }

  ghost predicate JobsBounded(jobs: seq<Job>) {
    forall j :: j in jobs ==> j.attempts <= MAX_REPEATS && j.pause <= MAX_DELAY_MS
  }

  lemma {:induction false} JobsTakeBoundedWork(jobs: seq<Job>, accepts: nat)
    requires JobsBounded(jobs)
    ensures var p := FlushJobs(jobs, accepts); |p.written| <= 5 * |jobs| && p.slept <= 20000 * |jobs|
    decreases |jobs|
  {
    if jobs != [] {
      assert jobs[0] in jobs && JobsBounded(jobs[1..]);
      TransmitBounds(jobs[0], accepts);
      var s := Transmit(jobs[0], accepts);
      if s.status == Sent {
        JobsTakeBoundedWork(jobs[1..], accepts - |s.written|);
      }
    }
  }

  /** The work of a flush is bounded: at most 5 lines and 20 seconds per queued command, hence 500 lines and 2000
      seconds for a full queue. */
  lemma FlushBounds(devices: Devices, q: seq<Message>, accepts: nat)
    requires Bounded(devices)
    ensures var p := FlushJobs(Jobs(devices, q), accepts);
            && |p.written| <= 5 * |q| && p.slept <= 20000 * |q|
            && (|q| <= 100 ==> |p.written| <= 500 && p.slept <= 2000 * 1000)
  {
    forall i | 0 <= i < |q|
      ensures JobOf(devices, q[i]).attempts <= MAX_REPEATS && JobOf(devices, q[i]).pause <= MAX_DELAY_MS
    {
      JobBounds(devices, q[i]);
    }
    JobsTakeBoundedWork(Jobs(devices, q), accepts);
  }

  // The ledger of a whole run.

  /** How a command left the queue; an eviction records how many were waiting. */
  datatype Fate = Flushed(message: Message) | Evicted(message: Message, among: nat) | LostToEncoding(message: Message)

  /** The queue and its counter, with the history of everything that ever entered and left. */
  datatype Ledger = Ledger(waiting: seq<Message>, dropped: nat, entered: seq<Message>, left: seq<Fate>)

  const NEW := Ledger([], 0, [], [])

  datatype Op = Push(message: Message) | Drain(devices: Devices, accepts: nat)

  function Messages(fates: seq<Fate>): (r: seq<Message>)
    ensures |r| == |fates| && forall i :: 0 <= i < |r| ==> r[i] == fates[i].message
  {
    seq(|fates|, i requires 0 <= i < |fates| => fates[i].message)
  }

  function AllFlushed(q: seq<Message>): (r: seq<Fate>)
    ensures |r| == |q| && forall i :: 0 <= i < |r| ==> r[i] == Flushed(q[i])
  {
    seq(|q|, i requires 0 <= i < |q| => Flushed(q[i]))
  }

  function Departures(q: seq<Message>, p: Progress): seq<Fate>
    requires p.gone <= |q| && (p.status == NotEncodable ==> p.gone >= 1)
  {
    if p.status == NotEncodable then AllFlushed(q[..p.gone - 1]) + [LostToEncoding(q[p.gone - 1])]
    else AllFlushed(q[..p.gone])
  }

  function Perform(l: Ledger, op: Op): Ledger {
    match op
    case Push(m) =>
      var full := |l.waiting| >= MAX_QUEUED;
      Ledger(Pushed(l.waiting, m), if full then l.dropped + 1 else l.dropped, l.entered + [m],
             if full then l.left + [Evicted(l.waiting[0], |l.waiting|)] else l.left)
    case Drain(devices, accepts) =>
      Drained(l, FlushJobs(Jobs(devices, l.waiting), accepts))
  }

  function Drained(l: Ledger, p: Progress): Ledger
    requires p.gone <= |l.waiting| && (p.status == NotEncodable ==> p.gone >= 1)
  {
    l.(waiting := l.waiting[p.gone..], left := l.left + Departures(l.waiting, p))
  }

  function Evictions(fates: seq<Fate>): nat {
    if fates == [] then 0 else Evictions(fates[..|fates| - 1]) + (if fates[|fates| - 1].Evicted? then 1 else 0)
  }

  lemma {:induction false} EvictionsAppend(x: seq<Fate>, y: seq<Fate>)
    requires forall i :: 0 <= i < |y| ==> !y[i].Evicted?
    ensures Evictions(x + y) == Evictions(x)
  {
    if y == [] {
      assert x + y == x;
    } else {
      assert (x + y)[..|x + y| - 1] == x + y[..|y| - 1];
      EvictionsAppend(x, y[..|y| - 1]);
    }
  }

  /** Everything that ever entered is either gone, in the order it came, or still waiting behind it; the dropped counter
      counts the evictions; the queue never exceeds its bound; and an eviction happens only among 100 waiting. */
  ghost predicate Balanced(l: Ledger) {
    && l.entered == Messages(l.left) + l.waiting
    && l.dropped == Evictions(l.left)
    && |l.waiting| <= 100
    && (forall i :: 0 <= i < |l.left| && l.left[i].Evicted? ==> l.left[i].among == 100)
  }

  lemma PushBalances(l: Ledger, m: Message)
    requires Balanced(l)
    ensures Balanced(Perform(l, Push(m)))
  {
    var k := Perform(l, Push(m));
    if |l.waiting| >= MAX_QUEUED {
      var gone := Evicted(l.waiting[0], |l.waiting|);
      assert (l.left + [gone])[..|l.left|] == l.left;
      assert Messages(k.left) == Messages(l.left) + [l.waiting[0]];
      assert l.waiting == [l.waiting[0]] + l.waiting[1..];
      assert k.entered == Messages(k.left) + k.waiting;
    }
  }

  lemma DrainBalances(l: Ledger, p: Progress)
    requires Balanced(l) && p.gone <= |l.waiting| && (p.status == NotEncodable ==> p.gone >= 1)
    ensures Balanced(Drained(l, p))
  {
    var out := Departures(l.waiting, p);
    assert Messages(out) == l.waiting[..p.gone];
    assert l.waiting == l.waiting[..p.gone] + l.waiting[p.gone..];
    assert Messages(l.left + out) == Messages(l.left) + Messages(out);
    EvictionsAppend(l.left, out);
  }

  function RunOps(l: Ledger, ops: seq<Op>): Ledger
    decreases |ops|
  {
    if ops == [] then l else Perform(RunOps(l, ops[..|ops| - 1]), ops[|ops| - 1])
  }

  /** Over every history of queueing and flushing the books balance. */
  lemma {:induction false} LedgerBalances(ops: seq<Op>)
    ensures Balanced(RunOps(NEW, ops))
    decreases |ops|
  {
    if ops != [] {
      var l := RunOps(NEW, ops[..|ops| - 1]);
      LedgerBalances(ops[..|ops| - 1]);
      match ops[|ops| - 1] {
        case Push(m) => PushBalances(l, m);
        case Drain(devices, accepts) => DrainBalances(l, FlushJobs(Jobs(devices, l.waiting), accepts));
      }
    }
  }
}
