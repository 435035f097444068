# Dataset-shard locator

A model of gleam's `DatasetShardLocator`, the in-process registry the
distributed scheduler uses. It maps a dataset-shard name to the location where
that shard's data can be fetched. Tasks wait until the locations of their input
(or output) shards are known. Once the inputs are known, the scheduler renders
them as a `name@url,name@url,…` string.

The model keeps the sequential core that runs under the locator's locks:

- `comma_list.dfy`, module `CommaList`: joining entries with single commas
  (`Join`). It also holds `Split`, a reference splitter with the semantics of Go's
  `strings.Split(s, ",")`, and the lemmas connecting the two.
- `shard_location.dfy`, module `ShardLocation`:
  - the class `DatasetShardLocator`, whose field `datasetShard2Location` is a
    `map<string, Location>` that `SetShardLocation` reassigns;
  - `GetShardLocation` and `IsDatasetShardRegistered`, read-only functions of
    that map;
  - the two wait operations, as methods that check the names in order;
  - `AllInputLocations`, a loop that appends to a buffer;
  - functions over the map's value that specify them (`AllRegistered`,
    `Entries`, `Describe`);
  - a fold over histories of `SetShardLocation` calls (`ApplySets`,
    `LatestSet`), with the lemmas about it;
  - a reader for rendered entries (`ParseEntry`);
  - a client method that runs the two-input scenario.

`Location` is represented only by its URL (`Location.URL()`). A task is
represented by two sequences of shard names (`Task.inputShards`,
`Task.outputShards`). A lookup of a missing name returns `ZeroLocation` with the
flag `false`. `ZeroLocation` stands in for Go's zero value of the location type.

Each Go wait function blocks on a condition variable until the
current name is registered. In the model, a wait is one non-blocking pass over
the names in order. It returns `Ready` when every name is registered. Otherwise
it returns `WouldBlock(i, name)`, where `name` is the first unregistered name, at
index `i`; that is where the Go wait loop would block. The wait methods have no
`modifies` clause, so waiting cannot change the map.

The Go code can wake a blocked wait after any number of `SetShardLocation` calls.
The lemmas on `ApplySets` cover this:

- `SetsKeepRegistered`: a set never removes a name. So the names a wait has
  already passed stay registered, and the Go wait loop is right not to check them
  again after it wakes.
- `SetsMakeReady`: once every awaited name has been set, a wait over those names
  is ready, whatever the order of the sets and whatever unrelated sets are mixed
  in.

Registration is not write-once: `SetShardLocation` overwrites an existing entry
(shard_location.go:42), and the latest location wins (`ApplySetsLookup`).
`ApplyAll` performs a history of calls on a locator through
`SetShardLocation`, and leaves exactly the map `ApplySets` describes, so the
lemmas about histories hold of the locator's own state.

## Model

| member | source | states |
|---|---|---|
| `ShardLocation.DatasetShardLocator.constructor` | distributed/driver/scheduler/shard_location.go:19-25 | a new locator has an empty map, so no shard name is registered |
| `ShardLocation.DatasetShardLocator.GetShardLocation` | distributed/driver/scheduler/shard_location.go:27-33 | the found flag is true exactly when the name is a key; then the value is that key's location, otherwise the zero location; being a function, it changes nothing |
| `ShardLocation.DatasetShardLocator.SetShardLocation` | distributed/driver/scheduler/shard_location.go:35-44 | the map gains or overwrites exactly the entry for `name`; afterwards `GetShardLocation(name)` is `(location, true)`, and every other name looks up as before |
| `ShardLocation.DatasetShardLocator.IsDatasetShardRegistered` | distributed/driver/scheduler/shard_location.go:46-54 | true if and only if `GetShardLocation` reports a value for the name, i.e. the name is a key of the map |
| `ShardLocation.DatasetShardLocator.WaitForAll` | distributed/driver/scheduler/shard_location.go:60-64 | checking the names in order: `Ready` exactly when every name is registered; otherwise the index and name of the first unregistered name, with every earlier name registered; the map is not modified |
| `ShardLocation.DatasetShardLocator.WaitForInputDatasetShardLocations` | distributed/driver/scheduler/shard_location.go:56-65 | the same as `WaitForAll`, over the task's input shard names |
| `ShardLocation.DatasetShardLocator.WaitForOutputDatasetShardLocations` | distributed/driver/scheduler/shard_location.go:67-76 | the same as `WaitForAll`, over the task's output shard names |
| `ShardLocation.DatasetShardLocator.AllInputLocations` | distributed/driver/scheduler/shard_location.go:78-97 | panics with the Go code's message if and only if some input name is unregistered; otherwise returns the `name@url` entries of the inputs in order, joined by single commas (`Describe`); no inputs give the empty string |
| `CommaList.JoinAppend` | distributed/driver/scheduler/shard_location.go:89-94 | adding an entry after a non-empty list adds one comma and the entry: the step the rendering loop takes for every input after the first |
| `CommaList.SplitJoin` | distributed/driver/scheduler/shard_location.go:82-96 | for a non-empty list of comma-free entries, splitting the joined string at commas gives back exactly the entries, in order: single separators, none leading or trailing |
| `ShardLocation.ParseEntryOfEntry` | distributed/driver/scheduler/shard_location.go:92-94 | an entry `name@url` whose name has no at-sign splits at its first at-sign back into the name and the URL |
| `ShardLocation.DescribeReadsBack` | distributed/driver/scheduler/shard_location.go:82-96 | the rendering of registered inputs is "" for no inputs; otherwise it splits into one entry per input, in input order, and each entry gives back that input's name and URL (names free of `,` and `@`, URLs free of `,`) |
| `ShardLocation.ApplySetsLookup` | distributed/driver/scheduler/shard_location.go:35-44 | after any history of set calls, a name holds the location from the last call that named it; a name no call named keeps its earlier entry, or its absence |
| `ShardLocation.ApplyAll` | distributed/driver/scheduler/shard_location.go:35-44 | performing a history of set calls, in order, on a locator leaves its map equal to `ApplySets` of the old map and the history |
| `ShardLocation.LatestSet` | distributed/driver/scheduler/shard_location.go:42 | there is a latest location for a name exactly when some call named it, and then it is the location of a call naming it after which no call names it |
| `ShardLocation.SetsKeepRegistered` | distributed/driver/scheduler/shard_location.go:60-64 | set calls never unregister a name, so names a wait has already passed stay registered while it waits for later ones |
| `ShardLocation.SetsMakeReady` | distributed/driver/scheduler/shard_location.go:56-76 | once every awaited name was registered before or set by some call, all are registered, whatever the call order and the unrelated calls |
| `ShardLocation.TwoInputsScenario` | distributed/driver/scheduler/shard_location.go:35-97 | with inputs `shardX`, `shardY` and only `shardX` set, the input wait would block at index 1 on `shardY`; after `shardY` is set it is ready, and the inputs render as `shardX@<url1>,shardY@<url2>` |

## Left out

- The embedded `sync.Mutex`, `datasetShard2LocationLock` and the `sync.Cond` with its `Wait` and `Broadcast` (shard_location.go:13-16, 23, 43, 62, 73). They synchronise goroutines: mutual exclusion, wake-ups, fairness. A sequential model cannot state these. The model keeps only the effect on the map and what holds when each call returns.
- WaitForAll: does not block. Where the Go wait loop suspends until a later set wakes it, the model returns `WouldBlock` at the first unregistered name. Termination of a real wait is covered only by `SetsMakeReady`: the condition it waits for becomes true once the names are set.
- WaitForInputDatasetShardLocations: returns `WouldBlock` instead of blocking, for the reason given for `WaitForAll`.
- WaitForOutputDatasetShardLocations: returns `WouldBlock` instead of blocking, for the reason given for `WaitForAll`.
- The `fmt.Printf` diagnostics in `isDatasetShardRegistered` (shard_location.go:49, 52). They are logging only.
- The unused `executableFileHash` parameter of `NewDatasetShardLocator`.
- The internals of `resource.Location`, `flow.Task` and `flow.DatasetShard`. These packages are not part of this model. A location is only its URL string. A task is only its two sequences of shard names. `Dataset.Step.Name`, which is used only in log messages, is dropped.
- The panic is modelled as a `Panicked(message)` result. Unwinding of the goroutine and the release of the lock by `defer` are not modelled.
