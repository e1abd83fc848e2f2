/** MQTT topic construction and parsing (topics.py) and the routing that depends on it (mqtt_client.py). */
module Topics {
  import opened Text
  import opened Models
  import opened Addresses

  function CleanSegment(value: string): Option<string> {
    var t := StripOf({'/'}, Strip(value));
    if t == "" || '#' in t || '+' in t then None else Some(t)
  }

  lemma {:induction false} LeftStripHolds(cs: set<char>, s: string, c: char)
    requires c !in cs
    ensures c in LeftStrip(cs, s) <==> c in s
  {
    if s != "" && s[0] in cs {
      LeftStripHolds(cs, s[1..], c);
      assert s == [s[0]] + s[1..];
    }
  }

  lemma {:induction false} RightStripHolds(cs: set<char>, s: string, c: char)
    requires c !in cs
    ensures c in RightStrip(cs, s) <==> c in s
  {
    if s != "" && s[|s| - 1] in cs {
      RightStripHolds(cs, s[..|s| - 1], c);
      assert s == s[..|s| - 1] + [s[|s| - 1]];
    }
  }

  lemma StripHolds(cs: set<char>, s: string, c: char)
    requires c !in cs
    ensures c in StripOf(cs, s) <==> c in s
  {
    LeftStripHolds(cs, s, c);
    RightStripHolds(cs, LeftStrip(cs, s), c);
  }

  /** A setting is usable as a topic prefix exactly if it holds no wildcard and something else than slashes within its outer
      spaces; and then it is used without its outer slashes. */
  lemma UsableExactly(value: string)
    ensures CleanSegment(value).Some?
       <==> '#' !in value && '+' !in value && exists c :: c in Strip(value) && c != '/'
    ensures CleanSegment(value).Some? ==> CleanSegment(value).value != "" && Trimmed({'/'}, CleanSegment(value).value)
    ensures CleanSegment(value).Some? && value != "" && Trimmed(SPACES + {'/'}, value) ==> CleanSegment(value).value == value
  {
    var s, t := Strip(value), StripOf({'/'}, Strip(value));
    StripHolds(SPACES, value, '#');
    StripHolds({'/'}, s, '#');
    StripHolds(SPACES, value, '+');
    StripHolds({'/'}, s, '+');
    StripIsTrimmed({'/'}, s);
    if t != "" {
      assert t[0] in t;
      StripHolds({'/'}, s, t[0]);
    }
    forall c | c in s && c != '/'
      ensures c in t
    {
      StripHolds({'/'}, s, c);
    }
    if value != "" && Trimmed(SPACES + {'/'}, value) {
      TrimmedIsFixed(SPACES, value);
      TrimmedIsFixed({'/'}, value);
    }
  }

  function CommandTopic(base: string, address: string): Option<string> {
    match (CleanSegment(base), NormalizeAddress(address))
    case (Some(b), Some(a)) => Some(Join([b, a, "command"], '/'))
    case _ => None
  }

  function BridgeCommandTopic(base: string): Option<string> {
    match CleanSegment(base)
    case Some(b) => Some(Join([b, "bridge", "command"], '/'))
    case None => None
  }

  function CommandFilter(base: string): Option<string> {
    match CleanSegment(base)
    case Some(b) => Some(Join([b, "+", "command"], '/'))
    case None => None
  }

  function ParseCommandTopic(topic: string, base: string): Option<string> {
    var parts := Split(StripOf({'/'}, topic), '/');
    if CleanSegment(base) == None || |parts| != 3 then None
    else if parts[0] != CleanSegment(base).value || parts[2] != "command" then None
    else NormalizeAddress(parts[1])
  }

  predicate IsBridgeCommandTopic(topic: string, base: string) {
    var parts := Split(StripOf({'/'}, topic), '/');
    && CleanSegment(base).Some? && |parts| == 3
    && parts[0] == CleanSegment(base).value && parts[1] == "bridge" && parts[2] == "command"
  }

  datatype Destination = ToBridge | ToDevice(address: string) | Ignored

  /** _on_message: the bridge topic is tried first. */
  function Route(topic: string, base: string): Destination {
    if IsBridgeCommandTopic(topic, base) then ToBridge
    else
      match ParseCommandTopic(topic, base)
      case Some(a) => ToDevice(a)
      case None => Ignored
  }

  /** Filter matching with the single-level wildcard, section 4.7.1.3 of MQTT 3.1.1. */
  predicate Matches(filter: string, topic: string) {
    var f, t := Split(filter, '/'), Split(topic, '/');
    |f| == |t| && forall i :: 0 <= i < |f| ==> f[i] == "+" || f[i] == t[i]
  }

  lemma SplitPrefix(b: string, r: string)
    ensures Split(b + "/" + r, '/') == Split(b, '/') + Split(r, '/')
  {
    var tail := "/" + r;
    assert tail[1..] == r;
    assert b + "/" + r == b + tail;
    SplitAppend(b, tail, '/');
    var x := Split(b, '/');
    assert x[|x| - 1] + "" == x[|x| - 1];
    assert x == x[..|x| - 1] + [x[|x| - 1]];
  }

  lemma SplitThree(b: string, x: string, y: string)
    requires '/' !in x && '/' !in y
    ensures Split(Join([b, x, y], '/'), '/') == Split(b, '/') + [x, y]
  {
    SplitPrefix(b, x + "/" + y);
    SplitPrefix(x, y);
    SplitWithout(x, '/');
    SplitWithout(y, '/');
    assert [b, x, y][1..] == [x, y] && [x, y][1..] == [y];
    assert Join([x, y], '/') == x + "/" + y;
    assert Join([b, x, y], '/') == b + "/" + (x + "/" + y);
  }

  lemma CleanSegmentEnds(value: string)
    ensures var c := CleanSegment(value); c.Some? ==> c.value != "" && c.value[0] != '/' && '+' !in c.value
  {
    StripIsTrimmed({'/'}, Strip(value));
  }

  lemma TopicIsTrimmed(b: string, x: string)
    requires b != "" && b[0] != '/'
    ensures var t := Join([b, x, "command"], '/'); StripOf({'/'}, t) == t
  {
    var t := Join([b, x, "command"], '/');
    assert [b, x, "command"][1..] == [x, "command"] && [x, "command"][1..] == ["command"];
    assert Join([x, "command"], '/') == x + "/" + "command";
    assert t == b + "/" + (x + "/" + "command");
    assert t[0] == b[0] && t[|t| - 1] == 'd';
    TrimmedIsFixed({'/'}, t);
  }

  /** Parsing a built command topic gives the address back exactly when the base topic is a single segment;
      with a slash inside the base, no built topic is ever accepted. */
  lemma CommandTopicRoundTrip(base: string, address: string)
    requires CommandTopic(base, address).Some?
    ensures ParseCommandTopic(CommandTopic(base, address).value, base)
         == if '/' in CleanSegment(base).value then None else NormalizeAddress(address)
  {
    var b, a := CleanSegment(base).value, NormalizeAddress(address).value;
    CanonicalIsNormal(a);
    CleanSegmentEnds(base);
    TopicIsTrimmed(b, a);
    SplitThree(b, a, "command");
    if '/' in b {
      SplitFirst(b, '/');
    } else {
      SplitWithout(b, '/');
    }
  }

  // Exactly which topics are accepted.

  lemma JoinThree(b: string, x: string, y: string)
    ensures Join([b, x, y], '/') == b + "/" + x + "/" + y
  {
    assert [b, x, y][1..] == [x, y] && [x, y][1..] == [y];
    assert Join([x, y], '/') == x + "/" + y;
    assert b + "/" + (x + "/" + y) == b + "/" + x + "/" + y;
  }

  lemma ThreeParts(t: string, b: string, x: string, y: string)
    ensures Split(t, '/') == [b, x, y] <==> '/' !in b && '/' !in x && '/' !in y && t == b + "/" + x + "/" + y
  {
    JoinThree(b, x, y);
    SplitPieces(t, '/');
    if Split(t, '/') == [b, x, y] {
      assert b in Split(t, '/') && x in Split(t, '/') && y in Split(t, '/');
    }
    if '/' !in b && '/' !in x && '/' !in y {
      SplitJoin([b, x, y], '/');
    }
  }

  /** A topic is taken for the command topic of an address if and only if, without slashes at its ends, it reads
      base/x/command for a base of one segment and a text x that says this address in any case and with any spaces. */
  lemma CommandTopicsExactly(topic: string, base: string, a: string)
    ensures ParseCommandTopic(topic, base) == Some(a) <==>
      && CleanSegment(base).Some? && '/' !in CleanSegment(base).value && Canonical(a)
      && exists x :: Normal(x) == a && '/' !in x && StripOf({'/'}, topic) == CleanSegment(base).value + "/" + x + "/command"
  {
    if CleanSegment(base).Some? {
      var t, b := StripOf({'/'}, topic), CleanSegment(base).value;
      if ParseCommandTopic(topic, base) == Some(a) {
        var parts := Split(t, '/');
        assert parts == [b, parts[1], "command"];
        ThreeParts(t, b, parts[1], "command");
        assert b + "/" + parts[1] + "/" + "command" == b + "/" + parts[1] + "/command";
      }
      forall x | Normal(x) == a && '/' !in x && '/' !in b && Canonical(a) && t == b + "/" + x + "/command"
        ensures ParseCommandTopic(topic, base) == Some(a)
      {
        assert b + "/" + x + "/" + "command" == b + "/" + x + "/command";
        ThreeParts(t, b, x, "command");
      }
    }
  }

  /** A topic is taken for the bridge's own command topic if and only if, without slashes at its ends, it reads
      base/bridge/command for a base of one segment. */
  lemma BridgeTopicsExactly(topic: string, base: string)
    ensures IsBridgeCommandTopic(topic, base) <==>
      && CleanSegment(base).Some? && '/' !in CleanSegment(base).value
      && StripOf({'/'}, topic) == CleanSegment(base).value + "/bridge/command"
  {
    if CleanSegment(base).Some? {
      var t, b := StripOf({'/'}, topic), CleanSegment(base).value;
      ThreeParts(t, b, "bridge", "command");
      assert b + "/" + "bridge" + "/" + "command" == b + "/bridge/command";
      var parts := Split(t, '/');
      assert |parts| == 3 ==> parts == [parts[0], parts[1], parts[2]];
    }
  }

  lemma BridgeIsNotAnAddress()
    ensures NormalizeAddress("bridge") == None
  {
    var t := "bridge";
    assert t[0] !in SPACES && t[5] !in SPACES;
    TrimmedIsFixed(SPACES, t);
    assert |Normal(t)| == 6;
  }

  /** No topic is both a device command and a bridge command, so the order in which they are tried is irrelevant. */
  lemma NoTopicIsBoth(topic: string, base: string)
    ensures !(IsBridgeCommandTopic(topic, base) && ParseCommandTopic(topic, base).Some?)
    ensures Route(topic, base).ToDevice? <==> ParseCommandTopic(topic, base).Some?
    ensures Route(topic, base).ToBridge? <==> IsBridgeCommandTopic(topic, base)
  {
    BridgeIsNotAnAddress();
  }

  /** The one subscription covers both kinds of command topic, for every usable base. */
  lemma FilterCoversCommands(base: string, address: string)
    requires CommandTopic(base, address).Some?
    ensures Matches(CommandFilter(base).value, CommandTopic(base, address).value)
    ensures Matches(CommandFilter(base).value, BridgeCommandTopic(base).value)
  {
    var b, a := CleanSegment(base).value, NormalizeAddress(address).value;
    CanonicalIsNormal(a);
    SplitThree(b, "+", "command");
    SplitThree(b, a, "command");
    SplitThree(b, "bridge", "command");
  }

  lemma SameSegments(s: string, t: string)
    requires Split(s, '/') == Split(t, '/')
    ensures s == t
  {
    SplitPieces(s, '/');
    SplitPieces(t, '/');
  }

  lemma NoPlusInSegments(b: string)
    requires '+' !in b
    ensures forall i :: 0 <= i < |Split(b, '/')| ==> Split(b, '/')[i] != "+"
  {
    forall i | 0 <= i < |Split(b, '/')|
      ensures '+' !in Split(b, '/')[i]
    {
      if '+' in Split(b, '/')[i] {
        SegmentsHold(b, i, '+');
      }
    }
  }

  lemma {:induction false} SegmentsHold(b: string, i: nat, c: char)
    requires i < |Split(b, '/')| && c in Split(b, '/')[i]
    ensures c in b
    decreases |b|
  {
    if b != "" {
      var rest := Split(b[1..], '/');
      if b[0] == '/' {
        assert Split(b, '/')[i] == if i == 0 then "" else rest[i - 1];
        SegmentsHold(b[1..], i - 1, c);
      } else if i > 0 || c in rest[0] {
        SegmentsHold(b[1..], i, c);
      }
    }
  }

  /** A text made of b, one segment and "command". */
  lemma CommandSegments(b: string, x: string, topic: string)
    requires '/' !in x
    ensures topic == b + "/" + x + "/command" <==> Split(topic, '/') == Split(b, '/') + [x, "command"]
  {
    SplitThree(b, x, "command");
    JoinThree(b, x, "command");
    assert b + "/" + x + "/" + "command" == b + "/" + x + "/command";
    if Split(topic, '/') == Split(b, '/') + [x, "command"] {
      SameSegments(topic, Join([b, x, "command"], '/'));
    }
  }

  /** Segments that match those of b, a wildcard and "command". */
  lemma MatchedSegments(b: seq<string>, t: seq<string>)
    requires forall i :: 0 <= i < |b| ==> b[i] != "+"
    requires var f := b + ["+", "command"]; |f| == |t| && forall i :: 0 <= i < |f| ==> f[i] == "+" || f[i] == t[i]
    ensures t == b + [t[|b|], "command"]
  {
    var f := b + ["+", "command"];
    assert f[|b| + 1] == "command";
    forall i | 0 <= i < |b|
      ensures t[i] == b[i]
    {
      assert f[i] == b[i];
    }
  }

  /** And it covers nothing else: exactly the topics base/x/command with one segment x. */
  lemma FilterMatchesExactly(base: string, topic: string)
    requires CleanSegment(base).Some?
    ensures Matches(CommandFilter(base).value, topic) <==>
      exists x :: '/' !in x && topic == CleanSegment(base).value + "/" + x + "/command"
  {
    var b, t := CleanSegment(base).value, Split(topic, '/');
    CleanSegmentEnds(base);
    NoPlusInSegments(b);
    SplitThree(b, "+", "command");
    SplitPieces(topic, '/');
    if Matches(CommandFilter(base).value, topic) {
      MatchedSegments(Split(b, '/'), t);
      var x := t[|Split(b, '/')|];
      assert x in t;
      CommandSegments(b, x, topic);
    }
    forall x | '/' !in x && topic == b + "/" + x + "/command"
      ensures Matches(CommandFilter(base).value, topic)
    {
      CommandSegments(b, x, topic);
    }
  }

  /** Every device topic a message can be routed by carries a canonical address. */
  lemma RoutedAddressIsCanonical(topic: string, base: string)
    ensures Route(topic, base).ToDevice? ==> Canonical(Route(topic, base).address)
  {
  }
}

/** When Home Assistant discovery can be generated for a device (discovery.py). Payload contents are reduced to
    whether the payload has the button shape. */
module Discovery {
  import opened Text
  import opened Models
  import opened Addresses
  import opened Topics

  function Component(t: DeviceType): string {
    match t
    case Light => "light"
    case Switch => "switch"
    case Chime => "button"
  }

  /** _payload: a button payload for chimes and for anything without state. */
  predicate ButtonPayload(d: DeviceConfig) {
    d.entityType.Chime? || !d.stateful
  }

  function DiscoveryTopic(d: DeviceConfig, prefix: string): Option<string> {
    match (CleanSegment(prefix), NormalizeAddress(d.address))
    case (Some(p), Some(a)) => Some(Join([p, Component(d.entityType), "x10_" + a, "config"], '/'))
    case _ => None
  }

  datatype Failure = NoName | BadTopic | MissingFields

  /** discovery_messages: the topic of the one message, or the reason it is refused. */
  function DiscoveryMessage(d: DeviceConfig, prefix: string, base: string): Result<string, Failure> {
    if Strip(d.name) == "" then Err(NoName)
    else if CleanSegment(base) == None || DiscoveryTopic(d, prefix) == None then Err(BadTopic)
    else
      var topic := DiscoveryTopic(d, prefix).value;
      if |Split(topic, '/')| < 2 || (Split(topic, '/')[1] == "button") != ButtonPayload(d) then Err(MissingFields)
      else Ok(topic)
  }

  lemma DiscoverySegments(d: DeviceConfig, prefix: string)
    requires DiscoveryTopic(d, prefix).Some?
    ensures var p := CleanSegment(prefix).value;
            Split(DiscoveryTopic(d, prefix).value, '/')
            == Split(p, '/') + [Component(d.entityType), "x10_" + NormalizeAddress(d.address).value, "config"]
  {
    var p, a := CleanSegment(prefix).value, NormalizeAddress(d.address).value;
    CanonicalIsNormal(a);
    var k, id := Component(d.entityType), "x10_" + a;
    assert '/' !in k && '/' !in id && '/' !in "config";
    SplitFour(p, k, id, "config");
  }

  lemma SplitFour(p: string, x: string, y: string, z: string)
    requires '/' !in x && '/' !in y && '/' !in z
    ensures Split(Join([p, x, y, z], '/'), '/') == Split(p, '/') + [x, y, z]
  {
    SplitPrefix(p, Join([x, y, z], '/'));
    SplitThree(x, y, z);
    SplitWithout(x, '/');
    assert [p, x, y, z][1..] == [x, y, z];
  }

  /** With a one-segment prefix, discovery of a named device with a valid address succeeds exactly for chimes and
      stateful devices: a switch or light without state is always refused. The topic names the kind of the device. */
  lemma DiscoverySucceedsExactly(d: DeviceConfig, prefix: string, base: string)
    requires Strip(d.name) != "" && CleanSegment(base).Some? && DiscoveryTopic(d, prefix).Some?
    requires '/' !in CleanSegment(prefix).value
    ensures DiscoveryMessage(d, prefix, base).Ok? <==> d.entityType.Chime? || d.stateful
    ensures DiscoveryMessage(d, prefix, base).Ok? ==>
      var p, id, topic := CleanSegment(prefix).value, "x10_" + Normal(d.address), DiscoveryMessage(d, prefix, base).value;
      && (d.entityType.Light? ==> topic == Join([p, "light", id, "config"], '/'))
      && (d.entityType.Switch? ==> topic == Join([p, "switch", id, "config"], '/'))
      && (d.entityType.Chime? ==> topic == Join([p, "button", id, "config"], '/'))
  {
    DiscoverySegments(d, prefix);
    SplitWithout(CleanSegment(prefix).value, '/');
  }

  /** The segment that is taken for the component: the component, or the second segment of a prefix with a slash. */
  function Taken(d: DeviceConfig, prefix: string): string {
    var parts := Split(prefix, '/');
    if |parts| >= 2 then parts[1] else Component(d.entityType)
  }

  /** For any device and any settings: discovery succeeds exactly if the name is visible, the settings are usable, the
      address is valid, and "button" is what is taken for the component exactly for chimes and devices without state. */
  lemma DiscoveryExactly(d: DeviceConfig, prefix: string, base: string)
    ensures DiscoveryMessage(d, prefix, base).Ok? <==>
      && Strip(d.name) != "" && CleanSegment(base).Some? && CleanSegment(prefix).Some? && Canonical(Normal(d.address))
      && (Taken(d, CleanSegment(prefix).value) == "button" <==> d.entityType.Chime? || !d.stateful)
  {
    if DiscoveryTopic(d, prefix).Some? {
      DiscoverySegments(d, prefix);
    }
  }

  /** With a slash inside the prefix, it is the prefix's second segment that is mistaken for the component. */
  lemma InnerSlashMisleads(d: DeviceConfig, prefix: string, base: string)
    requires Strip(d.name) != "" && CleanSegment(base).Some? && DiscoveryTopic(d, prefix).Some?
    requires '/' in CleanSegment(prefix).value
    ensures |Split(CleanSegment(prefix).value, '/')| >= 2
    ensures DiscoveryMessage(d, prefix, base).Ok?
       <==> ((Split(CleanSegment(prefix).value, '/')[1] == "button") <==> ButtonPayload(d))
  {
    DiscoverySegments(d, prefix);
    SplitFirst(CleanSegment(prefix).value, '/');
  }
}
