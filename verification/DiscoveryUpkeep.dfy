/** Keeping the broker's retained discovery topics, the registry and the wanted topics in step (bridge.py). */
module DiscoveryUpkeep {
  import opened Text
  import opened Models
  import opened Addresses
  import opened DiscoveryRegistry
  import Topics
  import Discovery

  // On sets.

  /** What the broker retains, what the registry records and what the bridge wants published. */
  datatype Books = Books(retained: set<string>, recorded: set<string>, desired: set<string>)

  /** What can go wrong with the registry file during an operation. */
  datatype Luck = Luck(loads: bool, saves: bool)

  function Saved(b: Books, topics: set<string>, luck: Luck): Books {
    if luck.saves then b.(recorded := Tidied(topics)) else b
  }

  /** An empty retained publication removes the topic, section 3.3.1.3 of MQTT 3.1.1. */
  function Cleared(b: Books, topics: set<string>): Books {
    b.(retained := b.retained - topics)
  }

  /** Cleanup that is enabled or forced. */
  function Pruned(b: Books, luck: Luck): Books {
    if !luck.loads then b else Saved(Cleared(b, b.recorded - b.desired), b.desired, luck)
  }

  /** Cleanup that is disabled only extends the record. */
  function Tracked(b: Books, luck: Luck): Books {
    Saved(b, (if luck.loads then b.recorded else {}) + b.desired, luck)
  }

  function WipedOut(b: Books, luck: Luck): Books {
    Saved(Cleared(b, b.desired + (if luck.loads then b.recorded else {})), {}, luck)
  }

  /** REDISCOVER, and a hello or health report. */
  function Rediscovered(b: Books, luck: Luck): Books {
    Saved(b.(retained := b.retained + b.desired), b.desired, luck)
  }

  // The bridge's operations.

  datatype Report = Report(success: bool, count: nat)

  class Upkeep {
    var retained: set<string>
    const registry: Registry
    const cleanup: bool

    ghost function Model(desired: set<string>): Books
      reads this, registry
    {
      Books(retained, Recorded(registry.files, registry.name), desired)
    }

    constructor (registry: Registry, cleanup: bool, retained: set<string>)
      ensures this.registry == registry && this.cleanup == cleanup && this.retained == retained
    {
      this.registry, this.cleanup, this.retained := registry, cleanup, retained;
    }

    /** The loops that publish an empty payload to each topic. */
    method ClearAll(topics: set<string>)
      modifies this`retained
      ensures retained == old(retained) - topics
    {
      var left := topics;
      while left != {}
        invariant left <= topics && retained == old(retained) - (topics - left)
        decreases |left|
      {
        var t :| t in left;
        retained := retained - {t};
        left := left - {t};
      }
    }

    /** The loop that publishes the discovery payloads. */
    method PublishAll(desired: set<string>)
      modifies this`retained
      ensures retained == old(retained) + desired
    {
      var left := desired;
      while left != {}
        invariant left <= desired && retained == old(retained) + (desired - left)
        decreases |left|
      {
        var t :| t in left;
        retained := retained + {t};
        left := left - {t};
      }
    }

    /** _run_discovery_cleanup. `desired` is None when some device's discovery is refused; that raises first. */
    method RunCleanup(desired: Option<set<string>>, force: bool, stamp: string, readable: bool, movable: bool,
                      writable: bool) returns (r: Option<Report>)
      modifies this, registry
      ensures desired.None? ==> r.None? && retained == old(retained) && registry.files == old(registry.files)
      ensures var luck := Luck(Loads(old(registry.files), registry.name, readable, movable), writable);
        desired.Some? ==>
          && r.Some? && r.value.success == (writable && (luck.loads || !(force || cleanup)))
          && r.value.count == (var known := if luck.loads then old(Model(desired.value)).recorded else {};
                               if !force && !cleanup then |known + desired.value| else |known - desired.value|)
          && Model(desired.value) == if force || cleanup then Pruned(old(Model(desired.value)), luck)
                                     else Tracked(old(Model(desired.value)), luck)
    {
      if desired.None? {
        return None;
      }
      var previous := registry.Load(stamp, readable, movable);
      if !force && !cleanup {
        var topics := (if previous.Ok? then previous.value else {}) + desired.value;
        var saved := registry.Save(topics, writable);
        return Some(Report(saved, |topics|));
      }
      if previous.Err? {
        return Some(Report(false, 0));
      }
      var stale := previous.value - desired.value;
      ClearAll(stale);
      var saved := registry.Save(desired.value, writable);
      return Some(Report(saved, |stale|));
    }

    method ResetDiscovery(desired: Option<set<string>>, stamp: string, readable: bool, movable: bool, writable: bool)
      returns (r: Option<Report>)
      modifies this, registry
      ensures desired.None? ==> r.None? && retained == old(retained) && registry.files == old(registry.files)
      ensures var luck := Luck(Loads(old(registry.files), registry.name, readable, movable), writable);
        desired.Some? ==>
          && r.Some? && r.value.success == writable && Model(desired.value) == WipedOut(old(Model(desired.value)), luck)
          && r.value.count == |desired.value + if luck.loads then old(Model(desired.value)).recorded else {}|
    {
      if desired.None? {
        return None;
      }
      var known := registry.Load(stamp, readable, movable);
      var topics := desired.value + (if known.Ok? then known.value else {});
      ClearAll(topics);
      var saved := registry.Save({}, writable);
      return Some(Report(saved, |topics|));
    }

    method Rediscover(desired: Option<set<string>>, writable: bool) returns (done: bool)
      modifies this, registry
      ensures done == desired.Some?
      ensures desired.None? ==> retained == old(retained) && registry.files == old(registry.files)
      ensures desired.Some? ==> Model(desired.value) == Rediscovered(old(Model(desired.value)), Luck(true, writable))
    {
      if desired.None? {
        return false;
      }
      PublishAll(desired.value);
      var saved := registry.Save(desired.value, writable);
      return true;
    }
  }

  // What the operations mean.

  /** A successful prune removes exactly the recorded topics that are no longer wanted, never a wanted one, and leaves
      the record equal to the wanted topics; doing it again changes nothing. */
  lemma PruneIsExact(b: Books)
    requires AllTidy(b.desired)
    ensures var p := Pruned(b, Luck(true, true));
            && p == Books(b.retained - (b.recorded - b.desired), b.desired, b.desired)
            && b.retained * b.desired <= p.retained
            && Pruned(p, Luck(true, true)) == p
  {
    TidiedExactly(b.desired);
    var p := Pruned(b, Luck(true, true));
    assert p.retained - (p.recorded - p.desired) == p.retained;
  }

  /** The broker retains nothing that the bridge could not find again. */
  predicate Covered(b: Books) {
    b.retained <= b.recorded + b.desired
  }

  /** If everything retained is recorded or wanted, a prune leaves only wanted topics and a reset leaves none. */
  lemma PruneAndResetSucceed(b: Books)
    requires Covered(b) && AllTidy(b.desired)
    ensures Pruned(b, Luck(true, true)).retained <= b.desired
    ensures WipedOut(b, Luck(true, true)).retained == {} && WipedOut(b, Luck(true, true)).recorded == {}
  {
  }

  /** With cleanup disabled nothing is cleared and the record only grows, to everything recorded or wanted. */
  lemma TrackingOnlyGrows(b: Books)
    requires AllTidy(b.desired) && AllTidy(b.recorded)
    ensures Tracked(b, Luck(true, true)) == b.(recorded := b.recorded + b.desired)
  {
    TidiedExactly(b.recorded + b.desired);
  }

  // Whole runs.

  datatype Op =
    | Publish(topic: string)
    | Cleanup(prune: bool, luck: Luck)
    | Reset(luck: Luck)
    | Rediscovery(luck: Luck)
    | Reconfigure(desired: set<string>)

  /** Only wanted topics are ever published. */
  predicate Possible(b: Books, op: Op) {
    op.Publish? ==> op.topic in b.desired
  }

  function Next(b: Books, op: Op): Books {
    match op
    case Publish(t) => b.(retained := b.retained + {t})
    case Cleanup(prune, luck) => if prune then Pruned(b, luck) else Tracked(b, luck)
    case Reset(luck) => WipedOut(b, luck)
    case Rediscovery(luck) => Rediscovered(b, luck)
    case Reconfigure(desired) => b.(desired := desired)
  }

  /** The registry file is rewritten without regard to what it recorded. */
  predicate Overwrites(op: Op) {
    match op
    case Rediscovery(luck) => luck.saves
    case Reset(luck) => luck.saves && !luck.loads
    case Cleanup(prune, luck) => luck.saves && !luck.loads && !prune
    case _ => false
  }

  /** The operation loses track of a retained topic: it overwrites the record while a topic that is not wanted is still
      retained, or stops wanting a retained topic that was never recorded. */
  predicate Forgets(b: Books, op: Op) {
    || (Overwrites(op) && !(b.retained <= b.desired))
    || (op.Reconfigure? && !(b.retained <= b.recorded + op.desired))
  }

  ghost predicate Kept(b: Books) { AllTidy(b.desired) && AllTidy(b.recorded) }

  /** Next on tidy topics, where saving keeps them as they are. */
  function Written(b: Books, topics: set<string>, luck: Luck): Books {
    if luck.saves then b.(recorded := topics) else b
  }

  lemma SavedIsWritten(b: Books, topics: set<string>, luck: Luck)
    requires AllTidy(topics)
    ensures Saved(b, topics, luck) == Written(b, topics, luck)
  {
    TidiedExactly(topics);
  }

  function NextTidy(b: Books, op: Op): Books {
    match op
    case Publish(t) => b.(retained := b.retained + {t})
    case Cleanup(true, luck) =>
      if !luck.loads then b else Written(Cleared(b, b.recorded - b.desired), b.desired, luck)
    case Cleanup(false, luck) => Written(b, (if luck.loads then b.recorded else {}) + b.desired, luck)
    case Reset(luck) => Written(Cleared(b, b.desired + (if luck.loads then b.recorded else {})), {}, luck)
    case Rediscovery(luck) => Written(b.(retained := b.retained + b.desired), b.desired, luck)
    case Reconfigure(desired) => b.(desired := desired)
  }

  lemma NextOnTidy(b: Books, op: Op)
    requires Kept(b)
    ensures Next(b, op) == NextTidy(b, op)
  {
    match op
    case Cleanup(true, luck) => SavedIsWritten(Cleared(b, b.recorded - b.desired), b.desired, luck);
    case Cleanup(false, luck) => SavedIsWritten(b, (if luck.loads then b.recorded else {}) + b.desired, luck);
    case Reset(luck) => SavedIsWritten(Cleared(b, b.desired + (if luck.loads then b.recorded else {})), {}, luck);
    case Rediscovery(luck) => SavedIsWritten(b.(retained := b.retained + b.desired), b.desired, luck);
    case _ =>
  }

  lemma TidyStays(b: Books, op: Op)
    requires Kept(b) && (op.Reconfigure? ==> AllTidy(op.desired))
    ensures Kept(Next(b, op))
  {
    NextOnTidy(b, op);
  }

  lemma ForgettingOnTidy(b: Books, op: Op)
    requires Covered(b) && Possible(b, op)
    ensures Covered(NextTidy(b, op)) <==> !Forgets(b, op)
  {
  }

  /** An operation keeps every retained topic within reach exactly when it does not forget one. */
  lemma OnlyForgettingLosesTopics(b: Books, op: Op)
    requires Covered(b) && Kept(b) && Possible(b, op)
    ensures Covered(Next(b, op)) <==> !Forgets(b, op)
  {
    NextOnTidy(b, op);
    ForgettingOnTidy(b, op);
  }

  function Run(b: Books, ops: seq<Op>): Books
    decreases |ops|
  {
    if ops == [] then b else Next(Run(b, ops[..|ops| - 1]), ops[|ops| - 1])
  }

  /** The step is possible, forgets nothing and wants only tidy topics. */
  ghost predicate CarefulStep(b: Books, op: Op) {
    Possible(b, op) && !Forgets(b, op) && (op.Reconfigure? ==> AllTidy(op.desired))
  }

  ghost predicate Careful(b: Books, ops: seq<Op>)
    decreases |ops|
  {
    ops == [] || (Careful(b, ops[..|ops| - 1]) && CarefulStep(Run(b, ops[..|ops| - 1]), ops[|ops| - 1]))
  }

  lemma {:induction false} CarefulRunsStayCovered(b: Books, ops: seq<Op>)
    requires Covered(b) && Kept(b) && Careful(b, ops)
    ensures Covered(Run(b, ops)) && Kept(Run(b, ops))
    decreases |ops|
  {
    if ops != [] {
      var before, last := Run(b, ops[..|ops| - 1]), ops[|ops| - 1];
      CarefulRunsStayCovered(b, ops[..|ops| - 1]);
      TidyStays(before, last);
      OnlyForgettingLosesTopics(before, last);
    }
  }

  /** After every run that forgets nothing, a prune that succeeds leaves only wanted topics on the broker, and a reset
      that succeeds leaves none. */
  lemma CleanupIsComplete(b: Books, ops: seq<Op>)
    requires Covered(b) && Kept(b) && Careful(b, ops)
    ensures var e := Run(b, ops);
            Pruned(e, Luck(true, true)).retained <= e.desired && WipedOut(e, Luck(true, true)).retained == {}
  {
    CarefulRunsStayCovered(b, ops);
    PruneAndResetSucceed(Run(b, ops));
  }

  /** Retained, but neither recorded nor wanted. */
  ghost predicate Orphaned(b: Books, t: string) {
    t in b.retained && t !in b.recorded && t !in b.desired
  }

  lemma OrphanStaysOnTidy(b: Books, op: Op, t: string)
    requires Orphaned(b, t) && Possible(b, op) && (op.Reconfigure? ==> t !in op.desired)
    ensures Orphaned(NextTidy(b, op), t)
  {
  }

  lemma OrphanStays(b: Books, op: Op, t: string)
    requires Orphaned(b, t) && Kept(b) && Possible(b, op) && (op.Reconfigure? ==> t !in op.desired)
    ensures Orphaned(Next(b, op), t)
  {
    NextOnTidy(b, op);
    OrphanStaysOnTidy(b, op, t);
  }

  /** Steps that never want t. */
  ghost predicate Unwanted(b: Books, ops: seq<Op>, t: string)
    decreases |ops|
  {
    ops == [] ||
    var before, last := Run(b, ops[..|ops| - 1]), ops[|ops| - 1];
    && Unwanted(b, ops[..|ops| - 1], t) && Possible(before, last)
    && (last.Reconfigure? ==> AllTidy(last.desired) && t !in last.desired)
  }

  lemma {:induction false} OrphansStay(b: Books, ops: seq<Op>, t: string)
    requires Orphaned(b, t) && Kept(b) && Unwanted(b, ops, t)
    ensures Orphaned(Run(b, ops), t) && Kept(Run(b, ops))
    decreases |ops|
  {
    if ops != [] {
      var before, last := Run(b, ops[..|ops| - 1]), ops[|ops| - 1];
      OrphansStay(b, ops[..|ops| - 1], t);
      TidyStays(before, last);
      OrphanStays(before, last, t);
    }
  }

  /** Rediscovery forgets: once it has saved the wanted topics over the record, a recorded stale topic stays on the broker
      through every later prune and reset, until it is wanted again. */
  lemma RediscoveryForgets(b: Books, ops: seq<Op>, t: string)
    requires t in b.retained && t in b.recorded && t !in b.desired && Kept(b)
    requires Unwanted(Rediscovered(b, Luck(true, true)), ops, t)
    ensures t in Run(Rediscovered(b, Luck(true, true)), ops).retained
  {
    TidiedExactly(b.desired);
    OrphansStay(Rediscovered(b, Luck(true, true)), ops, t);
  }

  // Are discovery topics tidy?

  lemma JoinStarts(parts: seq<string>, c: char)
    requires |parts| >= 1 && parts[0] != ""
    ensures Join(parts, c) != "" && Join(parts, c)[0] == parts[0][0]
  {
  }

  lemma {:induction false} JoinEnds(parts: seq<string>, c: char)
    requires |parts| >= 1 && parts[|parts| - 1] != ""
    ensures var s, last := Join(parts, c), parts[|parts| - 1]; s != "" && s[|s| - 1] == last[|last| - 1]
    decreases |parts|
  {
    if |parts| > 1 {
      JoinEnds(parts[1..], c);
    }
  }

  /** The topics of devices are tidy exactly when the cleaned prefix does not begin with white space. */
  lemma TopicsAreTidyExactly(d: DeviceConfig, prefix: string)
    requires Discovery.DiscoveryTopic(d, prefix).Some?
    ensures IsTidy(Discovery.DiscoveryTopic(d, prefix).value) <==> Topics.CleanSegment(prefix).value[0] !in SPACES
  {
    var p, a := Topics.CleanSegment(prefix).value, NormalizeAddress(d.address).value;
    var k, id := Discovery.Component(d.entityType), "x10_" + a;
    var topic := Discovery.DiscoveryTopic(d, prefix).value;
    JoinStarts([p, k, id, "config"], '/');
    JoinEnds([p, k, id, "config"], '/');
  }
}
