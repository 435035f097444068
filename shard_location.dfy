/** The scheduler's dataset-shard locator: a registry from shard names to the
    locations where their data can be fetched, with the sequential effect of its
    non-blocking lookup and update, of its two wait operations, and of the
    rendering of a task's input locations. The mutexes and the condition variable
    that make it safe to share between goroutines are not part of this model. */
module ShardLocation {
  import CommaList

  datatype Option<T> = None | Some(value: T)

  /** Where a shard's data lives. Only its URL is visible to the locator. */
  datatype Location = Location(url: string)
  {
    function URL(): string { url }
  }

  /** What a lookup of a missing name yields besides the not-found flag (Go's
      zero value of the location type). */
  const ZeroLocation: Location := Location("")

  /** A task as the locator sees it: the names of its input shards and of its
      output shards, each in the task's order. */
  datatype Task = Task(inputShards: seq<string>, outputShards: seq<string>)

  /** The outcome of one pass of a wait over a sequence of names: either every
      name is registered, or the wait would block on the first one that is not. */
  datatype WaitOutcome = Ready | WouldBlock(index: nat, shard: string)

  /** The rendering of a task's input locations, or the panic raised when one of
      them is not registered. */
  datatype Rendering = Rendered(text: string) | Panicked(message: string)

  const PanicMessage: string := "hmmm, we just checked all inputs are registered!"

  /** One call `SetShardLocation(name, location)`. */
  datatype SetCall = SetCall(name: string, location: Location)

  // ---------------------------------------------------------------------------
  // Specification over the value of the registry's map

  ghost predicate AllRegistered(m: map<string, Location>, names: seq<string>)
  {
    forall i :: 0 <= i < |names| ==> names[i] in m
  }

  /** One rendered entry: the shard name, an at-sign, and the location's URL. */
  function Entry(name: string, location: Location): string
  {
    name + "@" + location.URL()
  }

  ghost function Entries(m: map<string, Location>, names: seq<string>): seq<string>
    requires AllRegistered(m, names)
  {
    seq(|names|, i requires 0 <= i < |names| => Entry(names[i], m[names[i]]))
  }

  /** What `allInputLocations` renders for these names when all are registered. */
  ghost function Describe(m: map<string, Location>, names: seq<string>): string
    requires AllRegistered(m, names)
  {
    CommaList.Join(Entries(m, names))
  }

  /** The map after a history of SetShardLocation calls, applied in order. */
  ghost function ApplySets(m: map<string, Location>, calls: seq<SetCall>): map<string, Location>
  {
    if |calls| == 0 then m
    else
      var last := calls[|calls| - 1];
      ApplySets(m, calls[..|calls| - 1])[last.name := last.location]
  }

  /** The location given to the last call in the history that names `name`. */
  ghost function LatestSet(calls: seq<SetCall>, name: string): (r: Option<Location>)
    ensures r.Some? <==> exists j :: 0 <= j < |calls| && calls[j].name == name
    ensures r.Some? ==>
      exists j :: 0 <= j < |calls| && calls[j].name == name && calls[j].location == r.value &&
        forall k :: j < k < |calls| ==> calls[k].name != name
  {
    if |calls| == 0 then None
    else if calls[|calls| - 1].name == name then Some(calls[|calls| - 1].location)
    else
      var r := LatestSet(calls[..|calls| - 1], name);
      assert forall j :: 0 <= j < |calls| - 1 ==> calls[..|calls| - 1][j] == calls[j];
      r
  }

  /** Splits a rendered entry at its first at-sign into the shard name and the URL. */
  function ParseEntry(e: string): Option<(string, string)>
  {
    if |e| == 0 then None
    else if e[0] == '@' then Some(("", e[1..]))
    else
      match ParseEntry(e[1..])
      case None => None
      case Some((name, url)) => Some(([e[0]] + name, url))
  }

  // ---------------------------------------------------------------------------
  // Histories of SetShardLocation calls

  /** After a history of calls, a name holds the location of the last call that
      named it, and a name no call named keeps what it had before. */
  lemma {:induction false} ApplySetsLookup(m: map<string, Location>, calls: seq<SetCall>, name: string)
    ensures LatestSet(calls, name).Some? ==>
      name in ApplySets(m, calls) && ApplySets(m, calls)[name] == LatestSet(calls, name).value
    ensures LatestSet(calls, name).None? ==>
      (name in ApplySets(m, calls) <==> name in m) &&
      (name in m ==> ApplySets(m, calls)[name] == m[name])
  {
    if |calls| > 0 && calls[|calls| - 1].name != name {
      ApplySetsLookup(m, calls[..|calls| - 1], name);
    }
  }

  /** Calls never unregister a name: a wait that has got past a name never needs
      to look at it again. */
  lemma {:induction false} SetsKeepRegistered(m: map<string, Location>, calls: seq<SetCall>, names: seq<string>)
    requires AllRegistered(m, names)
    ensures AllRegistered(ApplySets(m, calls), names)
  {
    if |calls| > 0 {
      SetsKeepRegistered(m, calls[..|calls| - 1], names);
    }
  }

  /** Once every name has been registered by some call, in any order and mixed
      with calls for unrelated names, a wait over those names finds them all. */
  lemma SetsMakeReady(m: map<string, Location>, calls: seq<SetCall>, names: seq<string>)
    requires forall i :: 0 <= i < |names| ==>
      names[i] in m || exists j :: 0 <= j < |calls| && calls[j].name == names[i]
    ensures AllRegistered(ApplySets(m, calls), names)
  {
    forall i | 0 <= i < |names|
      ensures names[i] in ApplySets(m, calls)
    {
      ApplySetsLookup(m, calls, names[i]);
    }
  }

  // ---------------------------------------------------------------------------
  // Reading a rendering back

  /** A shard name without an at-sign is recovered from its entry, and so is
      the URL, whatever it contains. */
  lemma {:induction false} ParseEntryOfEntry(name: string, location: Location)
    requires '@' !in name
    ensures ParseEntry(Entry(name, location)) == Some((name, location.URL()))
  {
    var e := Entry(name, location);
    if |name| == 0 {
      assert e == "@" + location.URL();
      assert e[1..] == location.URL();
    } else {
      assert e[0] == name[0];
      assert e[1..] == Entry(name[1..], location);
      ParseEntryOfEntry(name[1..], location);
      assert [name[0]] + name[1..] == name;
    }
  }

  /** The rendering of registered shards can be read back: split at commas it
      gives one entry per shard, in the task's order, and each entry gives back
      the shard's name and the URL of its location. This needs names free of
      commas and at-signs and URLs free of commas; the empty list renders as "". */
  lemma DescribeReadsBack(m: map<string, Location>, names: seq<string>)
    requires AllRegistered(m, names)
    requires forall i :: 0 <= i < |names| ==> ',' !in names[i] && '@' !in names[i]
    requires forall i :: 0 <= i < |names| ==> ',' !in m[names[i]].URL()
    ensures |names| == 0 ==> Describe(m, names) == ""
    ensures |names| > 0 ==>
      var parts := CommaList.Split(Describe(m, names));
      && |parts| == |names|
      && forall i :: 0 <= i < |names| ==> ParseEntry(parts[i]) == Some((names[i], m[names[i]].URL()))
  {
    var es := Entries(m, names);
    if |names| > 0 {
      forall i | 0 <= i < |es|
        ensures CommaList.CommaFree(es[i])
      {
        assert es[i] == names[i] + "@" + m[names[i]].URL();
      }
      CommaList.SplitJoin(es);
      forall i | 0 <= i < |names|
        ensures ParseEntry(es[i]) == Some((names[i], m[names[i]].URL()))
      {
        ParseEntryOfEntry(names[i], m[names[i]]);
      }
    }
  }

  // ---------------------------------------------------------------------------
  // The locator

  class DatasetShardLocator {
    var datasetShard2Location: map<string, Location>

    /** A fresh locator knows no shard. */
    constructor ()
      ensures datasetShard2Location == map[]
      ensures forall name :: !IsDatasetShardRegistered(name)
    {
      datasetShard2Location := map[];
    }

    /** The location registered for the name and a found flag, which is set
        exactly when the name is a key of the map. */
    function GetShardLocation(shardName: string): (r: (Location, bool))
      reads this
      ensures r.1 <==> shardName in datasetShard2Location
      ensures r.1 ==> r.0 == datasetShard2Location[shardName]
      ensures !r.1 ==> r.0 == ZeroLocation
    {
      if shardName in datasetShard2Location then (datasetShard2Location[shardName], true)
      else (ZeroLocation, false)
    }

    /** Records where a shard lives, replacing any earlier location for the same
        name; every other name keeps the lookup result it had. */
    method SetShardLocation(name: string, location: Location)
      modifies this
      ensures datasetShard2Location == old(datasetShard2Location)[name := location]
      ensures GetShardLocation(name) == (location, true)
      ensures forall other :: other != name ==> GetShardLocation(other) == old(GetShardLocation(other))
    {
      datasetShard2Location := datasetShard2Location[name := location];
    }

    function IsDatasetShardRegistered(shardName: string): (registered: bool)
      reads this
      ensures registered <==> GetShardLocation(shardName).1
      ensures registered <==> shardName in datasetShard2Location
    {
      var (_, hasValue) := GetShardLocation(shardName);
      hasValue
    }

    /** One non-blocking pass of the wait loop over `names`, in order: Ready when
        every name is registered, otherwise the first unregistered name, where the
        Go wait loop suspends on its condition variable until a later
        SetShardLocation broadcasts. */
    method WaitForAll(names: seq<string>) returns (outcome: WaitOutcome)
      ensures outcome.Ready? <==> AllRegistered(datasetShard2Location, names)
      ensures outcome.WouldBlock? ==>
        && outcome.index < |names|
        && outcome.shard == names[outcome.index]
        && !IsDatasetShardRegistered(outcome.shard)
        && AllRegistered(datasetShard2Location, names[..outcome.index])
    {
      for i := 0 to |names|
        invariant AllRegistered(datasetShard2Location, names[..i])
      {
        if !IsDatasetShardRegistered(names[i]) {
          return WouldBlock(i, names[i]);
        }
      }
      assert names[..|names|] == names;
      return Ready;
    }

    method WaitForInputDatasetShardLocations(task: Task) returns (outcome: WaitOutcome)
      ensures outcome.Ready? <==> AllRegistered(datasetShard2Location, task.inputShards)
      ensures outcome.WouldBlock? ==>
        && outcome.index < |task.inputShards|
        && outcome.shard == task.inputShards[outcome.index]
        && !IsDatasetShardRegistered(outcome.shard)
        && AllRegistered(datasetShard2Location, task.inputShards[..outcome.index])
    {
      outcome := WaitForAll(task.inputShards);
    }

    method WaitForOutputDatasetShardLocations(task: Task) returns (outcome: WaitOutcome)
      ensures outcome.Ready? <==> AllRegistered(datasetShard2Location, task.outputShards)
      ensures outcome.WouldBlock? ==>
        && outcome.index < |task.outputShards|
        && outcome.shard == task.outputShards[outcome.index]
        && !IsDatasetShardRegistered(outcome.shard)
        && AllRegistered(datasetShard2Location, task.outputShards[..outcome.index])
    {
      outcome := WaitForAll(task.outputShards);
    }

    /** Renders `name@url` for every input shard, in order, separated by commas;
        panics when an input shard is not registered. */
    method AllInputLocations(task: Task) returns (r: Rendering)
      ensures r.Panicked? <==> !AllRegistered(datasetShard2Location, task.inputShards)
      ensures r.Panicked? ==> r.message == PanicMessage
      ensures r.Rendered? ==> r.text == Describe(datasetShard2Location, task.inputShards)
    {
      var names := task.inputShards;
      var buf := "";
      for i := 0 to |names|
        invariant AllRegistered(datasetShard2Location, names[..i])
        invariant buf == CommaList.Join(Entries(datasetShard2Location, names[..i]))
      {
        var name := names[i];
        var (location, hasValue) := GetShardLocation(name);
        if !hasValue {
          return Panicked(PanicMessage);
        }
        ghost var done := Entries(datasetShard2Location, names[..i]);
        assert AllRegistered(datasetShard2Location, names[..i + 1]);
        assert Entries(datasetShard2Location, names[..i + 1]) == done + [Entry(name, location)];
        if i != 0 {
          buf := buf + ",";
          CommaList.JoinAppend(done, Entry(name, location));
        }
        buf := buf + name + "@" + location.URL();
      }
      assert names[..|names|] == names;
      return Rendered(buf);
    }
  }

  /** A waiter on two input shards: blocked on the second while only the first is
      registered, ready once both are, after which the task's input locations
      render as both entries in the task's order. */
  method TwoInputsScenario(loc1: Location, loc2: Location)
    returns (first: WaitOutcome, second: WaitOutcome, rendering: Rendering)
    ensures first == WouldBlock(1, "shardY")
    ensures second == Ready
    ensures rendering == Rendered("shardX@" + loc1.URL() + ",shardY@" + loc2.URL())
  {
    var locator := new DatasetShardLocator();
    var task := Task(["shardX", "shardY"], []);
    locator.SetShardLocation("shardX", loc1);
    assert "shardX"[5] != "shardY"[5];
    first := locator.WaitForInputDatasetShardLocations(task);
    assert task.inputShards[1] !in locator.datasetShard2Location;
    locator.SetShardLocation("shardY", loc2);
    second := locator.WaitForInputDatasetShardLocations(task);
    assert locator.datasetShard2Location == map["shardX" := loc1, "shardY" := loc2];
    rendering := locator.AllInputLocations(task);
    ghost var es := Entries(locator.datasetShard2Location, task.inputShards);
    assert es == [Entry("shardX", loc1), Entry("shardY", loc2)];
    assert es[1..] == [Entry("shardY", loc2)];
    assert CommaList.Join(es) == Entry("shardX", loc1) + "," + Entry("shardY", loc2);
  }

  /** Performs a history of SetShardLocation calls on a locator, in order. */
  method ApplyAll(locator: DatasetShardLocator, calls: seq<SetCall>)
    modifies locator
    ensures locator.datasetShard2Location == ApplySets(old(locator.datasetShard2Location), calls)
  {
    ghost var m0 := locator.datasetShard2Location;
    for i := 0 to |calls|
      invariant locator.datasetShard2Location == ApplySets(m0, calls[..i])
    {
      locator.SetShardLocation(calls[i].name, calls[i].location);
      assert calls[..i + 1][..i] == calls[..i];
    }
    assert calls[..|calls|] == calls;
  }
}
