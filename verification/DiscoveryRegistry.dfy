/** The file that remembers published discovery topics (discovery_registry.py). */
module DiscoveryRegistry {
  import opened Text
  import opened JsonValues

  /** A file in the registry's directory: decodable JSON or not. */
  datatype File = Garbage | Decoded(json: Json)

  /** DiscoveryRegistryError */
  datatype Fault = Unreadable | NotMoved

  // The format.

  function ReadTopic(entry: Json): Option<string> {
    match entry
    case Object(fields, _) =>
      (match Field(fields, "topic")
       case Some(Text(s)) => if Strip(s) == "" then None else Some(Strip(s))
       case _ => None)
    case _ => None
  }

  function ReadTopics(entries: seq<Json>): Option<set<string>>
    decreases |entries|
  {
    if entries == [] then Some({})
    else
      match (ReadTopics(entries[..|entries| - 1]), ReadTopic(entries[|entries| - 1]))
      case (Some(ts), Some(t)) => Some(ts + {t})
      case _ => None
  }

  /** `data.get("version") == 1`, as Python compares. */
  predicate IsVersionOne(j: Option<Json>) {
    j == Some(Int(1)) || j == Some(Bool(true)) || j == Some(Other("1.0"))
  }

  function ParseRegistry(f: File): Option<set<string>> {
    match f
    case Decoded(Object(fields, _)) =>
      if !IsVersionOne(Field(fields, "version")) then None
      else
        (match Field(fields, "topics")
         case Some(List(entries, _)) => ReadTopics(entries)
         case _ => None)
    case _ => None
  }

  /** An entry is an object whose topic is a text with something visible in it. */
  predicate IsTopicEntry(e: Json) {
    && e.Object? && Field(e.fields, "topic").Some? && Field(e.fields, "topic").value.Text?
    && Strip(Field(e.fields, "topic").value.s) != ""
  }

  ghost function TopicsOf(entries: seq<Json>): set<string> {
    set e | e in entries && IsTopicEntry(e) :: Strip(Field(e.fields, "topic").value.s)
  }

  lemma {:induction false} TopicsAreRead(entries: seq<Json>)
    ensures ReadTopics(entries).Some? <==> forall e :: e in entries ==> IsTopicEntry(e)
    ensures ReadTopics(entries).Some? ==> ReadTopics(entries).value == TopicsOf(entries)
    decreases |entries|
  {
    if entries != [] {
      var init, last := entries[..|entries| - 1], entries[|entries| - 1];
      TopicsAreRead(init);
      assert entries == init + [last];
      assert ReadTopic(last).Some? <==> IsTopicEntry(last);
      if IsTopicEntry(last) {
        assert TopicsOf(entries) == TopicsOf(init) + {Strip(Field(last.fields, "topic").value.s)};
      }
    }
  }

  /** A file is a registry exactly if it is a JSON object of version 1 whose topics are a list of nothing but such entries;
      and then it records their stripped topics. */
  lemma RegistryIsReadExactly(f: File)
    ensures ParseRegistry(f).Some?
       <==> && f.Decoded? && f.json.Object?
            && Field(f.json.fields, "version") in {Some(Int(1)), Some(Bool(true)), Some(Other("1.0"))}
            && Field(f.json.fields, "topics").Some? && Field(f.json.fields, "topics").value.List?
            && forall e :: e in Field(f.json.fields, "topics").value.items ==> IsTopicEntry(e)
    ensures ParseRegistry(f).Some? ==> ParseRegistry(f).value == TopicsOf(Field(f.json.fields, "topics").value.items)
  {
    if f.Decoded? && f.json.Object? {
      var topics := Field(f.json.fields, "topics");
      if topics.Some? && topics.value.List? {
        TopicsAreRead(topics.value.items);
      }
    }
  }

  type Directory = map<string, File>

  /** The topics on record; a missing or invalid file records nothing. */
  function Recorded(files: Directory, name: string): set<string> {
    if name in files && ParseRegistry(files[name]).Some? then ParseRegistry(files[name]).value else {}
  }

  predicate Invalid(files: Directory, name: string) {
    name in files && ParseRegistry(files[name]) == None
  }

  /** Loading succeeds: there is no file, or it can be read and, if it is invalid, moved aside. */
  predicate Loads(files: Directory, name: string, readable: bool, movable: bool) {
    name in files ==> readable && (Invalid(files, name) ==> movable)
  }

  // Writing.

  function TopicEntry(t: string): Json {
    Object([("topic", Text(t))], "")
  }

  function Entries(ts: seq<string>): (r: seq<Json>)
    ensures |r| == |ts| && forall i :: 0 <= i < |r| ==> r[i] == TopicEntry(ts[i])
  {
    seq(|ts|, i requires 0 <= i < |ts| => TopicEntry(ts[i]))
  }

  function Payload(ts: seq<string>): Json {
    Object([("topics", List(Entries(ts), "")), ("version", Int(1))], "")
  }

  predicate IsTidy(t: string) { t != "" && Trimmed(SPACES, t) }

  /** What save keeps of a set of topics. */
  function Tidied(topics: set<string>): set<string> {
    set t | t in topics && Strip(t) != "" :: Strip(t)
  }

  lemma EntryIsRead(t: string)
    requires IsTidy(t)
    ensures ReadTopic(TopicEntry(t)) == Some(t)
  {
    FieldAt(TopicEntry(t).fields, 0);
    TrimmedIsFixed(SPACES, t);
  }

  function Members(ts: seq<string>): set<string> {
    set t | t in ts
  }

  lemma MembersGrow(ts: seq<string>, t: string)
    ensures Members(ts + [t]) == Members(ts) + {t}
  {
  }

  ghost predicate AllTidy(topics: set<string>) {
    forall t :: t in topics ==> IsTidy(t)
  }

  lemma {:induction false} EntriesAreRead(ts: seq<string>)
    requires AllTidy(Members(ts))
    ensures ReadTopics(Entries(ts)) == Some(Members(ts))
    decreases |ts|
  {
    if ts == [] {
      assert Entries(ts) == [] && Members(ts) == {};
    } else {
      var init, last := ts[..|ts| - 1], ts[|ts| - 1];
      MembersGrow(init, last);
      assert ts == init + [last] && last in Members(ts);
      EntriesAreRead(init);
      EntryIsRead(last);
      assert Entries(ts)[..|ts| - 1] == Entries(init) && Entries(ts)[|ts| - 1] == TopicEntry(last);
    }
  }

  lemma PayloadIsRead(ts: seq<string>)
    requires AllTidy(Members(ts))
    ensures ParseRegistry(Decoded(Payload(ts))) == Some(Members(ts))
  {
    FieldAt(Payload(ts).fields, 0);
    FieldAt(Payload(ts).fields, 1);
    EntriesAreRead(ts);
  }

  lemma StrippedIsTidy(t: string)
    requires Strip(t) != ""
    ensures IsTidy(Strip(t))
  {
    StripIsTrimmed(SPACES, t);
  }

  lemma TidiedIsTidy(topics: set<string>)
    ensures AllTidy(Tidied(topics))
  {
    forall t | t in Tidied(topics)
      ensures IsTidy(t)
    {
      var s :| s in topics && Strip(s) != "" && t == Strip(s);
      StrippedIsTidy(s);
    }
  }

  /** Tidy topics are kept as they are, and only those. */
  lemma TidiedExactly(topics: set<string>)
    ensures Tidied(topics) == topics <==> AllTidy(topics)
  {
    TidiedIsTidy(topics);
    if AllTidy(topics) {
      forall t | t in topics
        ensures Strip(t) == t
      {
        TrimmedIsFixed(SPACES, t);
      }
      assert forall t :: t in topics ==> t in Tidied(topics);
    }
  }

  lemma TidiedGrows(topics: set<string>, t: string)
    ensures Tidied(topics + {t}) == Tidied(topics) + if Strip(t) == "" then {} else {Strip(t)}
  {
  }

  /** The stripped, non-blank topics, in some order. */
  method TidyList(topics: set<string>) returns (list: seq<string>)
    ensures Members(list) == Tidied(topics)
  {
    list := [];
    var left := topics;
    ghost var done: set<string> := {};
    while left != {}
      invariant done + left == topics
      invariant Members(list) == Tidied(done)
      decreases |left|
    {
      var t :| t in left;
      TidiedGrows(done, t);
      if Strip(t) != "" {
        MembersGrow(list, Strip(t));
        list := list + [Strip(t)];
      }
      done, left := done + {t}, left - {t};
    }
    assert done == topics;
  }

  // Quarantine names.

  function Candidate(stem: string, k: nat): string {
    if k == 0 then stem else stem + "." + Decimal(k)
  }

  lemma CandidatesDiffer(stem: string, j: nat, k: nat)
    requires j < k
    ensures Candidate(stem, j) != Candidate(stem, k)
  {
    var x, y := Candidate(stem, j), Candidate(stem, k);
    assert y[|stem| + 1..] == Decimal(k);
    if j > 0 && x == y {
      assert x[|stem| + 1..] == Decimal(j);
      DecimalInjective(j, k);
    }
  }

  ghost function Tried(stem: string, k: nat): set<string> {
    set j: nat | j < k :: Candidate(stem, j)
  }

  lemma TriedGrows(stem: string, k: nat)
    ensures Tried(stem, k + 1) == Tried(stem, k) + {Candidate(stem, k)}
    ensures Candidate(stem, k) !in Tried(stem, k)
  {
    forall j: nat | j < k
      ensures Candidate(stem, j) != Candidate(stem, k)
    {
      CandidatesDiffer(stem, j, k);
    }
  }

  class Registry {
    var files: Directory
    const name: string

    constructor (name: string, files: Directory)
      ensures this.name == name && this.files == files
    {
      this.name := name;
      this.files := files;
    }

    /** The counter loop of _quarantine_invalid_file: the first free candidate. There are finitely many files and the
        candidates all differ, so it ends. */
    method QuarantineName(stamp: string) returns (q: string)
      ensures q !in files && q != name
      ensures exists k: nat :: q == Candidate(name + ".invalid." + stamp, k)
                            && Tried(name + ".invalid." + stamp, k) <= files.Keys
    {
      var stem := name + ".invalid." + stamp;
      q := stem;
      var counter := 1;
      while q in files
        invariant counter >= 1 && q == Candidate(stem, counter - 1) && Tried(stem, counter - 1) <= files.Keys
        decreases |files.Keys - Tried(stem, counter - 1)|
      {
        TriedGrows(stem, counter - 1);
        ghost var before := files.Keys - Tried(stem, counter - 1);
        assert files.Keys - Tried(stem, counter) == before - {q};
        q := stem + "." + Decimal(counter);
        counter := counter + 1;
      }
      assert |q| > |name|;
    }

    method Load(stamp: string, readable: bool, movable: bool) returns (r: Result<set<string>, Fault>)
      modifies this
      ensures r.Ok? <==> Loads(old(files), name, readable, movable)
      ensures r.Ok? ==> r.value == Recorded(old(files), name)
      // Loading never changes what is on record, and an invalid file is moved aside, never lost.
      ensures Recorded(files, name) == Recorded(old(files), name)
      ensures if r.Ok? && Invalid(old(files), name)
              then exists q :: q !in old(files) && files == (old(files) - {name})[q := old(files)[name]]
              else files == old(files)
    {
      if name !in files {
        return Ok({});
      }
      if !readable {
        return Err(Unreadable);
      }
      var parsed := ParseRegistry(files[name]);
      if parsed.Some? {
        return Ok(parsed.value);
      }
      var q := QuarantineName(stamp);
      if !movable {
        return Err(NotMoved);
      }
      files := (files - {name})[q := files[name]];
      return Ok({});
    }

    method Save(topics: set<string>, writable: bool) returns (ok: bool)
      modifies this
      ensures ok == writable
      ensures !ok ==> files == old(files)
      ensures ok ==> Recorded(files, name) == Tidied(topics) && files - {name} == old(files) - {name}
    {
      var list := TidyList(topics);
      if !writable {
        return false;
      }
      TidiedIsTidy(topics);
      PayloadIsRead(list);
      files := files[name := Decoded(Payload(list))];
      return true;
    }
  }
}
