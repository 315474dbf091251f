# colyseus: state sync, room actor, matchmaker locks and snapshots, verified

A Dafny model of the parts of the `colyseus` crate and its clients in which a mistake is easy to
make and hard to see: the JSON-Patch generator and the replica protocol built on it, the room actor
with its seats, clients and reconnection tokens, the matchmaker's reference-counted lock table, and
room snapshots. `dafny verify dfyconfig.toml` checks everything.

## What is modelled

**JSON and patches.** `Json` has the values of `serde_json` (objects are maps; the key order of its
maps is `SortedKeys`). `Pointer` has the printer of `diff.rs` and the parser of both clients.
`JsonPatch` is section 4 of RFC 6902 for add, remove and replace, the independent reference that
everything else is proved against. `Diff` gives the operations of `diff(old, new)` relative to the
values compared; `PatchBuilder` is the code itself, a class with one `diff_*` method per function of
`diff.rs`, a shared list that they push into, the nested loops that fill the table and the walk over
it. `Lcs` holds what a longest common subsequence is, apart from any algorithm, `PatchPrecision` says
where the operations of a patch lie, and `DiffRepeats` which patches change nothing when they are applied
once more.

**The room actor.** `Room` is the room context (client handles, seats, reconnections, state slot,
views, listing) and every call that room code can make on it. `Actor` gives what each event does to
the context, `RoomActor` is the actor: a class whose methods change the context step by step, hooks
included, proved equal to `Actor`. Hook bodies are arbitrary sequences of context calls.
`RoomInvariant`, `ActorInvariant` and `ActorRuns` prove the invariant for every hook, every event and
every run; `ActorLimits` says exactly where the code promises less, `Stranded` follows a kicked client
through whole runs, and `ActorExamples` has runs, each from a new room, after which a promise is broken
because a guard of `Permitted` was not met.
What events do is stated apart from the functions that do it, as relations between the context before, the
inputs and the context after: `HookEffects` for hook bodies, `JoinEffects`, `LeaveEffects`, `DeadlineEffects`
and `RoomEffects` for the events and calls, `EventEffects` for all of them together, which the methods of
`RoomActor` promise too. `MessageRate` ties the messages of a connection to its rate window. Client handles are reference counted in the source: here the
context holds one store of handles by connection id, so a handle that the client list, a reconnection
entry and a socket share is one entry.

**The replica protocol.** `Sync` folds the frames queued to a client into the state it holds; `SyncRuns`
proves for all runs that this is what the server takes it to hold, with a view filter and without one;
`SyncExamples` has the runs after which a replica does not hold the state.
`ClientPatch` is the TypeScript applier on an explicit heap of arrays and objects, changed in place by
`splice`, assignment and `delete`; `ClientSync` proves that it refines RFC 6902, and `ClientRuns` puts both
together: what a client's heap holds after all frames of its connection.

**Matchmaking.** `Query` is the flat form of listings with its dotted paths and conditions, `Handlers`
what room types declare and what a request makes of its options: conditions, printed locks, the fields
its room shows, its unique key. `LockTable` is the table of per-key mutexes with `Arc` counts, `LockKeys` the strings
it is keyed by, `Matchmaker` the requests that use it: any number of them interleave, one atomic
operation on the lock table, the room map or the driver at a time. Requests may be cancelled, rooms
disposed and listings changed or dropped at any moment; what matching code, hooks and seat replies
decide is left open, but lookups and the query for a unique key give what the driver finds (`FindMatch`,
`DriverAnswers`). `JoinOrCreate` says what a request ends with and why, `CriteriaRooms` when the requests of
one criteria lock make one room, and `ScatteredRooms` for exactly which declarations they can make two.
`UniqueRooms` says for exactly which declarations a unique key has one live room, `Deadlock` exactly when
requests can come to wait for one another for ever, and `Progress` that without that every request ends.

**Snapshots.** `Snapshot` is what is written and what `apply_snapshot` rebuilds, `Restart` the round
trip through both, `RestartRuns` the runs before and after it, `Deadlines` the two clock conversions in
between. **Limits and listings.**
`RateLimit` is the per-connection message window, `Driver` the listing store with its cached flat
forms, the multi-key comparator and the paging loop of the admin client.

## Conditions on runs

A run starts in a new room, in a restored one, or wherever another run ended (`MayStart`). It is
`Permitted` when ids are as `generate_id` makes them (new sessions, connections and tokens),
`set_max_clients` is left to `on_create`, `allow_reconnection` is asked for a client that is still
listed and whose own `on_leave` is not running, and a connection without a token does not name a
session that waits for its reconnection. The code checks neither of the last two. `AllowReconnectionIff`,
`JoinHookIff` and `TokenlessConnectIff` prove that the invariant survives the call exactly when the guard
holds; `SessionLeavesTwice`, `LimitIsExceeded` and `SessionServedTwice` are runs without it after which
a session has left twice, the room is over its limit, and one session is served by two clients.

Without a view filter a run is `Synced` when nobody calls `set_state` any more and clients join only
while no change is waiting to be patched. `JoinSyncIff` and `SetStateSyncIff` prove the same of these two
guards, `LateJoinerIff` (those that change values in place) and `ResetIsMissedIff` say for which changes a
client is still up to date after the next patch, and `LateJoinerDiverges` and `ResetDiverges` are runs after which it is not.

## Where the code differs from its documentation or from what one might expect

- The header of `diff.rs` says that a queue shift becomes `add /list/-`; the code prints the numeric
  index (`crates/colyseus/src/diff.rs:125-134`), and so does the model.
- `crates/colyseus/src/matchmaker.rs:491-494` calls a criteria mismatch after a `unique_by` reuse
  retryable; the error is returned at once (line 509), and the model follows the code.
- `unique_by` looks a field up as a dotted path, but listings show it under its literal name. With
  `unique_by(["a.b"])` every `create_room` makes another live room of the same key (`DottedTwins`), and a
  declared field `name` hides the room type that the same query asks for. Declarations without a dot and
  without `name` are exactly those that have one live room per key (`TwinsIff`).
- Defaults are merged into the options for creation only (`crates/colyseus/src/matchmaker.rs:485-490`),
  while the lookup uses the options as sent, and `create_room` merges none. A strict room type with a default
  for a field it filters by never finds the room it made: equal requests scatter (`DefaultScatters`).
- A lock-table entry can outlive its users (`LeftoverEntry`): two requests that look at the count
  together both see the other and neither removes the entry. The last user leaves it behind exactly when
  it saw others at the count, or gave up before it (`LeavesBehindIff`): every early return does.
- Criteria locks and unique locks share one space of printed keys. A request that matches on a field
  `unique:slug` and is unique by `slug` waits for its own mutex (`SelfDeadlock`), and several requests can
  form a longer ring; without such a ring no request is ever held up (`DeadlockIff`).
- The join path never looks at `waiting_reconnection`, so a connection without a token can list a
  waiting session a second time (`WaitingSeatIsTakenTwice`, `SessionServedTwice`).
- `allow_reconnection` asks neither whether the client is still listed nor whether its `on_leave` is
  running (`LimitIsExceeded`, `SessionLeavesTwice`).
- A client gets the current state when it joins, changes not yet patched included, and then the patch
  for those changes (`LateJoinerDiverges`). `set_state` moves the baseline without telling anybody
  (`ResetDiverges`).
- A kicked client is already marked as leaving when its disconnect arrives, so `on_leave` never runs
  for it and it stays listed, until room code forgets it (`KickedNeverLeaves`).
- A deadline that crosses a restart may come back up to two milliseconds early (`EarlyDeadline`).
- The TypeScript applier has no case for the empty pointer, and assigning the key `__proto__` creates
  no property; these are exactly the two patches it cannot follow (`ClientFollowsIff`).
- The rate check is documented as a sliding window; it is a fixed one, so twice the limit can pass in
  one second, and never more (`TwiceTheLimitIsReached`, `AtMostTwiceTheLimit`), unless 2^32 calls in one
  window wrap its counter, which then accepts a whole limit again (`WrapExceedsTheBound`).
- Sorting by a column of mixed kinds is no order at all (`PreorderIff`, `LastColumnIff`).

## Model

| member | source | states |
|---|---|---|
| `Pointer.UnescapeEscape` | clients/ts/client/src/client.ts:346-351 | the decoder's two global replaces undo the two of the encoder, for every key |
| `Pointer.SwappedPassesFail` | clients/ts/client/src/client.ts:346-351 | in the other order they do not: a concrete key is lost |
| `Pointer.ParsePointerRoundTrip` | crates/colyseus/admin-ui/src/jsonpatch.js:4-9 | any list of keys, empty ones and ones with `~` or `/` included, survives printing and parsing |
| `Pointer.PointerInjective` | crates/colyseus/src/diff.rs:26-28 | different key lists have different pointers |
| `Pointer.DecimalIsIndex` | crates/colyseus/src/diff.rs:62-64 | a printed index is an array index in the sense of RFC 6901 and reads back as itself |
| `JsonPatch.ApplyRendered` | crates/colyseus/src/diff.rs:138-148 | applying the string patch is applying the operations it was printed from |
| `JsonPatch.ApplyPrefix` | crates/colyseus/src/diff.rs:41-54 | operations moved below a member act inside it and leave its siblings alone |
| `Lcs.LengthIsUpperBound` | crates/colyseus/src/diff.rs:98-108 | no common subsequence is longer than the table's corner entry |
| `Lcs.LengthIsAttained` | crates/colyseus/src/diff.rs:98-108 | a common subsequence of that length exists |
| `Lcs.FillTable` | crates/colyseus/src/diff.rs:98-108 | the nested loops put the LCS length of both tails into every cell |
| `Lcs.RemovalChangesLengthByOne` | crates/colyseus/src/diff.rs:93-95 | one whole-element edit changes the LCS with the target by at most one |
| `Diff.WalkApplies` | crates/colyseus/src/diff.rs:110-135 | behind any prefix, the walk turns the old tail into the new one |
| `Diff.PositionalApplies` | crates/colyseus/src/diff.rs:79-91 | the fallback of large arrays turns the old array into the new one |
| `Diff.ObjectApplies` | crates/colyseus/src/diff.rs:41-54 | removals and upserts turn the old object into the new one |
| `Diff.DiffPatchApplies` | crates/colyseus/src/diff.rs:20-136 | for all values, the patch applies without error under RFC 6902 and yields exactly the new value |
| `Diff.DiffPatchEmptyIffEqual` | crates/colyseus/src/diff.rs:30-33 | the patch is empty exactly when nothing changed |
| `Diff.DiffBelowRoot` | crates/colyseus/src/diff.rs:34-38 | two objects, or two arrays, are never replaced as a whole |
| `Diff.WalkSize` | crates/colyseus/src/diff.rs:110-135 | the walk emits n + m - 2 LCS operations |
| `Diff.ScriptLowerBound` | crates/colyseus/src/diff.rs:93-95 | every add/remove script of whole elements needs at least that many |
| `Diff.WalkIsShortest` | crates/colyseus/src/diff.rs:93-95 | so the walk is a shortest such script |
| `Diff.SlidingWindowCost` | crates/colyseus/src/diff.rs:56-67 | a capped window of 9 to 90 distinct items shifted by k costs at most 2k operations |
| `PatchPrecision.UpdatesArePrecise` | crates/colyseus/src/diff.rs:56-69 | arrays of one length that are short or agree in at least half of their positions are patched item by item: every operation lies within an item that changed |
| `PatchPrecision.ShiftsAreShortest` | crates/colyseus/src/diff.rs:56-77 | any other two arrays with at most 8192 pairs of items get a patch no longer than any script of whole-element adds and removes |
| `PatchPrecision.HugeArraysByPosition` | crates/colyseus/src/diff.rs:72-91 | beyond that, operations lie within changed items, or remove from or add to the end |
| `PatchPrecision.MembersArePrecise` | crates/colyseus/src/diff.rs:41-54 | every operation on an object removes a lost member, adds a new one, or lies within one that changed |
| `DiffRepeats.RepeatsIff` | crates/colyseus/src/diff.rs:30-136 | a patch changes nothing when applied once more exactly when the change was in place: no member lost, no array resized, except as its walk allows |
| `DiffRepeats.InPlaceKeepsLength` | crates/colyseus/src/diff.rs:56-76 | whichever branch is taken, a resized array does not repeat |
| `PatchBuilder.Builder.DiffValue` | crates/colyseus/src/diff.rs:30-39 | pushes exactly the operations of the pair, printed below the current path |
| `PatchBuilder.Builder.DiffObject` | crates/colyseus/src/diff.rs:41-54 | pushes exactly the operations of two objects: removals first, then one turn per new key |
| `PatchBuilder.Builder.DiffArray` | crates/colyseus/src/diff.rs:56-76 | pushes exactly the operations of two arrays, whichever of the three branches is taken |
| `PatchBuilder.Builder.DiffArrayPositional` | crates/colyseus/src/diff.rs:79-91 | pushes exactly the operations of the fallback: overlap, truncation, growth |
| `PatchBuilder.Builder.DiffArrayLcs` | crates/colyseus/src/diff.rs:95-136 | the table and the walk with `i`, `j` and `cur` push the operations of the specified walk |
| `PatchBuilder.CountAligned` | crates/colyseus/src/diff.rs:61 | counts the positions at which both arrays agree |
| `PatchBuilder.ComputeDiff` | crates/colyseus/src/diff.rs:20-24 | returns a patch that yields the new value, empty exactly when the values are equal |
| `LockTable.MutualExclusion` | crates/colyseus/src/matchmaker.rs:1103-1119 | under the invariant two sessions are never inside the critical section of one key |
| `LockTable.NextKeepsInv` | crates/colyseus/src/matchmaker.rs:1103-1119 | every step keeps it: whoever has not decided yet holds the very mutex in the map |
| `LockTable.RunsExclude` | crates/colyseus/src/matchmaker.rs:475-508 | mutual exclusion over every interleaving of any number of sessions |
| `LockTable.ChecksIffSoleUser` | crates/colyseus/src/matchmaker.rs:1113-1114 | the first look at the count leads to the removal exactly when nobody else refers to the mutex |
| `LockTable.RemovesIffSoleUser` | crates/colyseus/src/matchmaker.rs:1115-1117 | `remove_if` drops the entry exactly when nobody else refers to the mutex |
| `LockTable.ReleaseDropsIff` | crates/colyseus/src/matchmaker.rs:1113-1119 | a whole release, with any steps of others in between, drops the entry exactly when nobody else refers to the mutex at both looks and it is not abandoned |
| `LockTable.EntryGoneIff` | crates/colyseus/src/matchmaker.rs:1103-1119 | over any run, an entry is gone exactly when at some point the sole user of its mutex removed it |
| `LockTable.LeavesBehindIff` | crates/colyseus/src/matchmaker.rs:483-508 | the last user leaves an unused entry behind exactly when it abandons its session or drops its `Arc` after a release that saw others |
| `LockTable.LeftoverEntry` | crates/colyseus/src/matchmaker.rs:1111-1119 | a run after which the map keeps an entry that nobody uses |
| `Handlers.ExtraKeepsKey` | crates/colyseus/src/matchmaker.rs:238-246 | a listing carries the unique key of the options its room was created with |
| `Handlers.FoundIff` | crates/colyseus/src/driver.rs:584-638 | the query for a key finds a listing that carries it exactly when its flat form shows the type as `name` and each dotted field leads to the value |
| `Handlers.AlwaysFoundIff` | crates/colyseus/src/matchmaker.rs:226-246 | whatever options and listings are, it finds them exactly when no unique field has a dot and no declared field is `name` |
| `Query.OperatorsMean` | crates/colyseus/src/driver.rs:594-643 | what each operator asks of a field: numbers by value, strings by code points, false before true, missing fields |
| `Query.FlattenShows` | crates/colyseus/src/driver.rs:46-51 | what the flat form shows under each name: extra fields first, then the room's own |
| `Query.PathWalks` | crates/colyseus/src/driver.rs:584-590 | a dotted path goes from object to object, and stops where there is none |
| `UniqueRooms.DriverAnswers` | crates/colyseus/src/matchmaker.rs:1050-1066 | what the driver answers to the query of `find_live` is what the step of a request is given |
| `Matchmaker.HappenKeepsInv` | crates/colyseus/src/matchmaker.rs:458-997 | every step, cancellation, disposal, change and loss of a listing keeps the protocol invariant |
| `Matchmaker.UniqueRoomPerKey` | crates/colyseus/src/matchmaker.rs:966-997 | in every interleaving at most one room that is listed and in the room map carries a unique key, for room types without a dotted unique field whose requests show the type as `name` |
| `UniqueRooms.TwinsIff` | crates/colyseus/src/matchmaker.rs:163-166 | for a room type with unique fields, two live rooms of one key are reachable exactly when a unique field has a dot or a declared field is `name` |
| `UniqueRooms.DottedTwins` | crates/colyseus/src/matchmaker.rs:966-997 | for a type unique by `a.b` and any value, two requests one after the other make two live rooms of one key |
| `Matchmaker.PrunesOnlyStaleListings` | crates/colyseus/src/matchmaker.rs:1050-1066 | `find_live` never deletes the listing of a room that is in the room map |
| `Matchmaker.LockOrder` | crates/colyseus/src/matchmaker.rs:973-991 | the criteria lock is taken before the unique lock, whose holder waits for no lock |
| `LockKeys.LocksCollide` | crates/colyseus/src/matchmaker.rs:1207-1226 | conditions on a field `unique:…` print to the unique lock of the rest of its name |
| `Deadlock.DeadlockIff` | crates/colyseus/src/matchmaker.rs:468-508 | from any start, some requests can come to wait for one another exactly when the locks of some form a ring |
| `Deadlock.NoDeadlock` | crates/colyseus/src/matchmaker.rs:468-521 | without such a ring some request can step while one is unfinished |
| `Deadlock.RingsNeedSharedLock` | crates/colyseus/src/matchmaker.rs:973-980 | there is a ring only if some criteria lock is also some unique lock |
| `Deadlock.SelfDeadlock` | crates/colyseus/src/matchmaker.rs:475-480 | one request is enough whose type filters by `unique:…` and is unique by that field, with one value for both |
| `Matchmaker.StepsEnd` | crates/colyseus/src/matchmaker.rs:468-521 | each step brings its request closer to its end within three attempts, and touches no other request |
| `Progress.RunsEnd` | crates/colyseus/src/matchmaker.rs:468-521 | no run of requests' steps is endless, whoever steps and whatever is chosen |
| `Progress.StandstillIsDone` | crates/colyseus/src/matchmaker.rs:468-521 | where no request can step and no locks form a ring, all requests are done |
| `FindMatch.DriverFinds` | crates/colyseus/src/matchmaker.rs:1071-1100 | what `find_match` makes of the driver's answer is what the lookup of a request is given: a listing that its conditions, its filter and the custom predicate accept, or none if there is none |
| `FindMatch.TakesTheFirst` | crates/colyseus/src/matchmaker.rs:1071-1100 | for a declared order by columns of one kind, no room that the request matches stands ahead of the one it takes |
| `JoinOrCreate.FoundNeverCreates` | crates/colyseus/src/matchmaker.rs:468-484 | over runs: a request whose lookup found a room, before the lock or under it, generates no id and lists nothing until its seat in that room is answered |
| `JoinOrCreate.ConfirmOutcome` | crates/colyseus/src/matchmaker.rs:492-505 | a room reused for its unique key is gone on to exactly when the criteria still lead to it; otherwise the request gives up |
| `JoinOrCreate.GivingUpEnds` | crates/colyseus/src/matchmaker.rs:501-509 | over runs: a request that gave up asks for no seat and makes no room |
| `JoinOrCreate.ReplyOutcome` | crates/colyseus/src/matchmaker.rs:511-521 | a seat ends the request; only a refused `join_or_create` tries again, while attempts are left; a dead room's listing goes |
| `JoinOrCreate.SeatedMeans` | crates/colyseus/src/matchmaker.rs:458-521 | in every run from the start, a request is seated in a room only after that room granted it a seat, and after a lookup, its own creation or, for `create`, its unique key led it there |
| `JoinOrCreate.FindLiveOutcome` | crates/colyseus/src/matchmaker.rs:1050-1066 | undisturbed, the loop takes the first listing whose room is there, and drops exactly the listings before it |
| `JoinOrCreate.CreationOutcome` | crates/colyseus/src/matchmaker.rs:1037-1038 | the new room is in the room map before the driver lists it, under its own id |
| `CriteriaRooms.OneRoomPerCriteria` | crates/colyseus/src/matchmaker.rs:475-508 | in every interleaving of requests, dropped ones included, without disposal and changed listings, the requests of one criteria lock list at most one room, if what they list is what all of them look for |
| `CriteriaRooms.AlwaysTakesIff` | crates/colyseus/src/matchmaker.rs:204-224 | whatever its options, a request takes every open room made for them exactly when no filter field has a dot, none of the fields shown is `name`, `locked` or `private`, and, if strict, none has a default or names a field that listings have anyway |
| `ScatteredRooms.ScatterIff` | crates/colyseus/src/matchmaker.rs:468-508 | requests for one type with equal options can end up in two open rooms exactly when its declaration is not of that kind (types without `unique_by` and custom predicate) |
| `ScatteredRooms.DefaultScatters` | crates/colyseus/src/matchmaker.rs:267-280 | for one: a strict type whose filter field has a default |
| `RoomInvariant.ForgetKeepsInv` | crates/colyseus/src/room.rs:1044-1050 | `remove_client` keeps the invariant of clients, seats, tokens, history, capacity and listing |
| `RoomInvariant.AllowKeepsInv` | crates/colyseus/src/room.rs:1006-1035 | so does `allow_reconnection`, and it adds no load |
| `RoomInvariant.CallKeepsInv` | crates/colyseus/src/room.rs:952-1050 | so does every call of room code, and none of them adds clients or pending seats |
| `RoomInvariant.CallsKeepInv` | crates/colyseus/src/room.rs:952-1050 | so does every hook body |
| `RoomInvariant.OneEntryPerSession` | crates/colyseus/src/room.rs:1014-1033 | a session waits under one token only |
| `ActorInvariant.JoinKeepsInv` | crates/colyseus/src/actor.rs:672-738 | a join, accepted or refused, leaves no tombstone and keeps the invariant around its hook |
| `ActorInvariant.ReconnectKeepsInv` | crates/colyseus/src/actor.rs:605-664 | a reconnect replaces the held client by the new one and keeps the invariant |
| `ActorInvariant.TokenNamesListedClient` | crates/colyseus/src/actor.rs:629-638 | an accepted token names the listed client of its session, so the branch that appends is dead |
| `ActorInvariant.LeaveKeepsInv` | crates/colyseus/src/actor.rs:862-890 | leaving and dropping keep the invariant, through both hooks |
| `ActorInvariant.HeldByOwnToken` | crates/colyseus/src/actor.rs:872-878 | a dropped client without an entry holds no seat, whatever `on_drop` did |
| `ActorInvariant.ExpireTokensKeepsInv` | crates/colyseus/src/actor.rs:895-916 | the loop over expired reconnections keeps it, hook after hook |
| `ActorInvariant.ExpireSeatsKeepsInv` | crates/colyseus/src/actor.rs:918-931 | dropping expired reservations keeps the invariant and takes no held seat |
| `ActorRuns.ReserveSeatKeepsInv` | crates/colyseus/src/actor.rs:553-590 | the limit check before `on_auth` still leaves room for the seat after it |
| `ActorRuns.HandleKeepsInv` | crates/colyseus/src/actor.rs:462-550 | every event keeps the invariant |
| `ActorRuns.RunsRespectCapacity` | crates/colyseus/src/room.rs:994-1002 | in every run clients and open reservations stay within the limit |
| `ActorRuns.RunsKeepSessionsApart` | crates/colyseus/src/actor.rs:666-696 | in every run sessions are distinct, pending seats name nobody present, no tombstone survives |
| `ActorRuns.RunsPairTokensWithSeats` | crates/colyseus/src/room.rs:1006-1035 | in every run tokens and held seats correspond one to one, each naming a listed client |
| `ActorRuns.RunsGiveTokens` | crates/colyseus/src/actor.rs:644-707 | in every run whoever is listed as joined holds a token |
| `ActorRuns.RunsHappenOnce` | crates/colyseus/src/actor.rs:862-916 | in every run `on_leave` runs at most once a session, and a token is accepted at most once |
| `ActorRuns.RunsKeepListing` | crates/colyseus/src/room.rs:1159-1188 | after every event the driver shows the listing the room would build |
| `ActorRuns.SupersededConnectionsAreInert` | crates/colyseus/src/actor.rs:741-751 | a connection that is no longer listed never acts on the room again, whatever happens first |
| `ActorLimits.TokenlessConnectIff` | crates/colyseus/src/actor.rs:672-688 | a connect without a token, with a hook that accepts and calls nothing, keeps sessions apart exactly when the seat it names is not waiting |
| `ActorLimits.WaitingSeatIsTakenTwice` | crates/colyseus/src/actor.rs:672-692 | otherwise two listed clients serve the waiting session |
| `ActorLimits.JoinHookIff` | crates/colyseus/src/actor.rs:672-692 | whatever `on_join` does, it starts with sessions apart exactly when the seat taken was not waiting |
| `ActorExamples.SessionServedTwice` | crates/colyseus/src/actor.rs:672-692 | a run from any new open room after which two listed clients serve one session |
| `ActorLimits.AllowReconnectionIff` | crates/colyseus/src/room.rs:1004-1035 | a granted reconnection keeps entries and history sound exactly for a listed client whose `on_leave` is not running |
| `ActorExamples.LeavesTwice` | crates/colyseus/src/actor.rs:862-890 | in any room, a client let back in by its own `on_leave` returns, leaves, and is logged twice |
| `ActorExamples.SessionLeavesTwice` | crates/colyseus/src/actor.rs:862-890 | the same as a run from any new open room |
| `ActorExamples.LimitIsExceeded` | crates/colyseus/src/room.rs:1006-1035 | a run from any new open room for one client after which its load is two: a removed client was let back in |
| `ActorLimits.OnLeaveRunsIff` | crates/colyseus/src/actor.rs:862-890 | exactly when `on_leave` runs for a client that goes |
| `ActorLimits.KickedClientStays` | crates/colyseus/src/client.rs:193-199 | after a kick the disconnect is ignored: no `on_leave`, and the client stays listed |
| `Stranded.KickedNeverLeaves` | crates/colyseus/src/actor.rs:862-890 | a kicked client without a granted reconnection stays listed, and `on_leave` never runs for it, in every run whose hooks do not call `remove_client` or `allow_reconnection` for it |
| `HookEffects.CallsAfter` | crates/colyseus/src/room.rs:952-1050 | whatever a hook does: only `leave` changes the state of a handle, only `remove_client` unlists it, and a client that has not joined is sent nothing but closes |
| `HookEffects.CallsDeliver` | crates/colyseus/src/client.rs:201-230 | every message of a hook reaches a client once and in the order of the calls: at once if it has joined and is listed, held back while it is let in |
| `JoinEffects.JoinHookSees` | crates/colyseus/src/actor.rs:666-696 | `on_join` sees the client listed last and joining, with the auth of its seat, and the seat consumed |
| `JoinEffects.JoinOutcome` | crates/colyseus/src/actor.rs:666-739 | whatever `on_join` calls and answers: let in, with token, full state and held-back messages, exactly when it is accepted and has not left; else unlisted, `hadClients` as it was, with an error and the close code queued last and no part of the handshake |
| `JoinEffects.ReconnectHookSees` | crates/colyseus/src/actor.rs:605-640 | `on_reconnect` sees the connection at the place of the one before, with its auth and user data; entry and seat are gone, the token spent |
| `JoinEffects.ReconnectOutcome` | crates/colyseus/src/actor.rs:605-664 | a connection with the token of its session is let in with a new token and is the only one listed for the session, unless the hook forgets it |
| `JoinEffects.WrongTokenOutcome` | crates/colyseus/src/actor.rs:605-620 | a token that is unknown or of another session lists nobody and changes nothing |
| `LeaveEffects.DataOutcome` | crates/colyseus/src/actor.rs:767-840 | handlers run exactly for a listed client that has joined and whose message is within the rate |
| `LeaveEffects.PingOutcome` | crates/colyseus/src/actor.rs:741-755 | a ping is answered once, for the listed connection of a session or one whose session has none, and changes nothing else |
| `LeaveEffects.LeaveOutcome` | crates/colyseus/src/actor.rs:756-760 | a leave message closes the listed connection as consented, without `on_drop`: gone for good unless a reconnection holds it |
| `LeaveEffects.DisconnectOutcome` | crates/colyseus/src/actor.rs:850-890 | a dropped client runs through `on_drop` unless the room is being disposed; held with its reconnection, it is recycled, else logged, unlisted and without its view |
| `MessageRate.MessagesOutcome` | crates/colyseus/src/actor.rs:767-780 | over a run of timed messages of one connection, exactly the handlers of those its window lets pass run, in order, and nothing else happens |
| `MessageRate.HandlersAreBounded` | crates/colyseus/src/client.rs:258-268 | so in any half-open second at most twice the limit of handlers run, plus the allowance of counter wraps |
| `DeadlineEffects.DeadlinesOutcome` | crates/colyseus/src/actor.rs:918-931 | without due reconnections and timers: a seat stays, as it was, exactly when it is consumed, waiting or not yet due, and nothing else changes |
| `DeadlineEffects.ReconnectionsOutcome` | crates/colyseus/src/actor.rs:892-916 | a due session is logged and gone, whatever hooks run; an entry without a deadline, or with a later one, stays as it is; unless a hook forgets the session |
| `DeadlineEffects.ReservationsStay` | crates/colyseus/src/actor.rs:918-931 | over runs: a reservation stays as it is until it is connected to, its deadline is handled, or room code forgets its session |
| `RoomEffects.ReserveOutcome` | crates/colyseus/src/actor.rs:553-590 | a seat is reserved exactly when the room takes clients and `on_auth` accepts, with the options, auth and deadline given |
| `RoomEffects.RunsShowRoom` | crates/colyseus/src/room.rs:1145-1190 | after every event of every run the driver's entry shows the clients and open reservations, the limit and the settings of the room |
| `RoomEffects.LockingOutcome` | crates/colyseus/src/room.rs:952-966 | locking and unlocking set one field, the listing follows, and nothing else changes |
| `RoomEffects.SettingsOutcome` | crates/colyseus/src/room.rs:980-992 | so do privacy and metadata |
| `RoomEffects.AllowOutcome` | crates/colyseus/src/room.rs:1006-1035 | a granted reconnection makes the client wait with its deadline and holds its seat with its auth |
| `RoomEffects.ForgetOutcome` | crates/colyseus/src/room.rs:1044-1050 | everything of the session goes, everything of others stays |
| `RoomEffects.BroadcastOutcome` | crates/colyseus/src/room.rs:1067-1107 | a broadcast queues at most one patch to each listed client that has joined, and touches no other handle |
| `RoomEffects.DisposeOutcome` | crates/colyseus/src/actor.rs:948-986 | everybody listed is closed once with the code before `on_dispose` runs in an empty room, and the driver forgets the room |
| `EventEffects.EventOutcome` | crates/colyseus/src/actor.rs:462-550 | every permitted event in a valid room leads where its relation between old context, inputs and new context says |
| `RoomActor.RoomActor.OnReserveSeat` | crates/colyseus/src/actor.rs:553-590 | step by step the context becomes `Actor.ReserveSeat` of the old one; the answer is yes exactly when a seat was reserved, with the options, auth and deadline given, and clients and open reservations stay within the limit |
| `RoomActor.RoomActor.OnConnect` | crates/colyseus/src/actor.rs:592-739 | in a valid room a connection to an open seat is welcomed exactly when the hook accepts it and it has not left, else unlisted, told and closed; one with the token of its session takes it over; any other one changes nothing but its own handle |
| `RoomActor.RoomActor.OnClientMessage` | crates/colyseus/src/actor.rs:741-848 | handlers run exactly for a listed client that has joined and is within its rate; a ping is answered; a leave closes as consented without `on_drop` |
| `RoomActor.RoomActor.OnData` | crates/colyseus/src/actor.rs:767-780 | with the window of its connection: an ignored message is not counted, any other is counted, and its handlers run exactly when the count is within the limit |
| `RoomActor.RoomActor.OnDisconnected` | crates/colyseus/src/actor.rs:850-860 | only the listed connection of a session leaves: held if `on_drop` left it a reconnection, else gone without being closed |
| `RoomActor.RoomActor.LeaveClient` | crates/colyseus/src/actor.rs:862-890 | the context becomes `Actor.LeaveRoom`, through both hooks and both early returns |
| `RoomActor.RoomActor.HandleDeadlines` | crates/colyseus/src/actor.rs:892-946 | sessions whose time has come are logged and gone, open reservations go exactly at their deadline, everything else waits on; the loops make the context `Actor.HandleDeadlines` |
| `RoomActor.RoomActor.BroadcastPatch` | crates/colyseus/src/room.rs:1067-1107 | both loops, over views and over receivers of the shared patch, make the context `Room.BroadcastPatch` |
| `RoomActor.RoomActor.AllowReconnection` | crates/colyseus/src/room.rs:1006-1035 | grants exactly when not disposing and the token is real and unused |
| `RoomActor.RoomActor.RemoveClient` | crates/colyseus/src/room.rs:1044-1050 | the field-by-field removal is `Room.Forget`: the session is gone from clients, entries, seats and views, and the listing follows |
| `RoomActor.RoomActor.HandleEvent` | crates/colyseus/src/actor.rs:462-550 | the context becomes `Actor.Handle` of the event; after a permitted event a valid actor is valid and the event has led where `EventEffects.Leads` says |
| `RoomActor.RoomActor.Serve` | crates/colyseus/src/actor.rs:295-340 | the loop over events is `ActorRuns.Run`, and leaves a valid actor valid |
| `RoomActor.RoomActor.SaveReconnections` | crates/colyseus/src/room.rs:540-575 | the two loops collect the waiting sessions, then the connected ones whose token is real and has no entry |
| `RoomActor.RoomActor.Dispose` | crates/colyseus/src/actor.rs:948-986 | the snapshot saved is that of the room before anything is cleared |
| `RoomActor.RoomActor.ApplySnapshot` | crates/colyseus/src/room.rs:634-694 | the loops over entries and seats make the context `Snapshot.Apply`, about which `Restart` speaks |
| `Sync.SlotDiffPatches` | crates/colyseus/src/state.rs:202-214 | a changed slot always has a non-empty patch to its value: the branch for an empty one is dead |
| `Sync.PatchViewsKeepsSync` | crates/colyseus/src/room.rs:1071-1093 | patching every view brings every joined client to its view of the current state |
| `Sync.SendSharedKeepsSync` | crates/colyseus/src/room.rs:1094-1106 | one shared patch moves every joined client from the old baseline to the new one |
| `Sync.BroadcastBringsUpToDate` | crates/colyseus/src/room.rs:1067-1107 | after a broadcast everybody joined holds the current state or view, and no patch fails to apply |
| `Sync.CallsKeepSync` | crates/colyseus/src/room.rs:745-797 | no hook body gets a joined client out of sync |
| `SyncRuns.HandshakeOrder` | crates/colyseus/src/actor.rs:703-721 | token, then full state, then the messages held back meanwhile, in order |
| `SyncRuns.HandleKeepsSync` | crates/colyseus/src/actor.rs:462-550 | no event gets a joined client out of sync |
| `SyncRuns.ViewsFollow` | crates/colyseus/src/room.rs:1071-1093 | in every run the frames queued to a client fold to the view on record for it |
| `SyncRuns.ReplicasFollow` | crates/colyseus/src/state.rs:202-214 | in every guarded run without a filter they fold to the slot's snapshot |
| `SyncRuns.PatchedReplicasAreCurrent` | crates/colyseus/src/room.rs:1133-1139 | after any run and one more broadcast they fold to the full state for that client |
| `SyncRuns.JoinSyncIff` | crates/colyseus/src/actor.rs:644-721 | without a filter both kinds of join keep replicas in sync exactly when no change waits to be patched |
| `SyncRuns.LateJoinerIff` | crates/colyseus/src/actor.rs:710-719 | a late joiner is up to date after the next patch exactly when the waiting change is one of values in place |
| `SyncExamples.LateJoinerDiverges` | crates/colyseus/src/actor.rs:710-719 | a run from any new open room after which a client holds `[x, y, y]` and the state is `[x, y]` |
| `SyncRuns.SetStateSyncIff` | crates/colyseus/src/room.rs:454-456 | without a filter `set_state` keeps replicas in sync exactly when nobody has joined or nothing changes |
| `SyncRuns.ResetIsMissedIff` | crates/colyseus/src/state.rs:202-214 | after `set_state` a joined client is up to date after the next patch exactly when it held the new state before |
| `SyncExamples.ResetDiverges` | crates/colyseus/src/room.rs:454-456 | a run from any new open room after which a client holds `[x]` and the state is `[x, y]` |
| `ClientPatch.Applier.ApplyOp` | clients/ts/client/src/client.ts:354-380 | the walk and the switch change the heap as specified, or throw |
| `ClientPatch.Applier.ApplyPatch` | clients/ts/client/src/client.ts:353-381 | a whole patch changes the heap as specified; on an error the operations before the failing one stay applied, and nothing else |
| `ClientPatch.MemberRefines` | clients/ts/client/src/client.ts:368-378 | `splice`, assignment and `delete` at the parent are RFC 6902's add, replace and remove |
| `ClientPatch.OpRefines` | clients/ts/client/src/client.ts:354-380 | one operation accepted by RFC 6902 is applied in place, writing a single container |
| `ClientSync.PatchRefines` | clients/ts/client/src/client.ts:353-381 | a whole accepted patch never throws and ends in the RFC's result under the same root |
| `ClientSync.DiffTokens` | crates/colyseus/src/diff.rs:30-136 | the pointers of a diff consist of array indices and keys of the two values |
| `ClientSync.ApplyKeepsNoProto` | clients/ts/client/src/client.ts:368-378 | no operation gives any object of the client an own `__proto__` |
| `ClientSync.ReplacedRootMissed` | clients/ts/client/src/client.ts:355-366 | a root replacement is never followed |
| `ClientSync.ClientFollowsIff` | clients/ts/client/src/client.ts:128-135 | the client reaches the new state exactly for equal or same-kind roots without a `__proto__` key |
| `ClientRuns.HeapFollows` | clients/ts/client/src/client.ts:110-135 | frames whose patches were computed from what the client holds leave exactly the folded value in its heap, if that stays one kind of root without `__proto__` |
| `ClientRuns.HeapsAreCurrent` | clients/ts/client/src/client.ts:110-135 | in every guarded run, after a broadcast, the heap of a joined client that took all its frames holds the current state or view |
| `Deadlines.CarriedBounds` | crates/colyseus/src/utils.rs:20-35 | a passed deadline is due at once, any other moves by less than two milliseconds |
| `Deadlines.NotEarlierIff` | crates/colyseus/src/utils.rs:20-35 | exactly when a deadline comes back no earlier |
| `Deadlines.EarlyDeadline` | crates/colyseus/src/utils.rs:20-35 | a concrete deadline that comes back early |
| `Deadlines.WholeMillisecondsAreExact` | crates/colyseus/src/utils.rs:20-35 | on whole milliseconds a deadline comes back exactly, or as due now |
| `Snapshot.SnapshotOwners` | crates/colyseus/src/room.rs:540-575 | everybody saved is a different listed client, and nobody who may come back is left out |
| `Snapshot.OwnedApart` | crates/colyseus/src/snapshot.rs:28-35 | saved tokens and sessions are pairwise different |
| `Restart.RestartKeepsSessions` | crates/colyseus/src/room.rs:653-683 | joined and waiting sessions are found again under the same token, auth and user data |
| `Restart.RestartCarriesDeadlines` | crates/colyseus/src/room.rs:653-683 | waiting ones with their deadline as the clocks carry it, joined ones without a deadline |
| `Restart.RestartKeepsSeats` | crates/colyseus/src/room.rs:685-694 | pending seats survive, for the same sessions and nobody else |
| `Restart.RestartKeepsInv` | crates/colyseus/src/actor.rs:204-239 | the restored room satisfies the invariant again, with no more load than before |
| `RestartRuns.RunsAfterRestart` | crates/colyseus/src/actor.rs:204-239 | the invariant, and the replicas of guarded runs, hold in every run after a restart, whatever run led to the snapshot |
| `Restart.SecondSnapshotEqual` | crates/colyseus/src/room.rs:510-575 | saving the restored room gives the first snapshot again, but for deadlines that passed |
| `Restart.SecondSnapshotSeatsEqual` | crates/colyseus/src/room.rs:577-588 | and the same seats: the same sessions, each with its options, auth and deadline |
| `RateLimit.Window.CheckRate` | crates/colyseus/src/client.rs:259-268 | the window and its 32-bit counter after a call, and the answer |
| `RateLimit.AtMostTwiceTheLimit` | crates/colyseus/src/client.rs:259-268 | any half-open second sees at most twice the limit accepted, and one limit and one call more for each wrap of the counter |
| `RateLimit.WrapLetsOnePass` | crates/colyseus/src/client.rs:266-267 | the call that wraps the counter is accepted though the window is exhausted |
| `RateLimit.WrapExceedsTheBound` | crates/colyseus/src/client.rs:266-267 | for every limit below 2^32 - 1, a run in which a second sees one more than twice the limit: its window sees 2^32 calls |
| `RateLimit.TwiceTheLimitIsReached` | crates/colyseus/src/client.rs:258-268 | for every limit, a run in which it sees exactly twice |
| `Driver.LocalDriver.Insert` | crates/colyseus/src/driver.rs:492-495 | the stored flat form is that of the listing |
| `Driver.LocalDriver.UpdateById` | crates/colyseus/src/driver.rs:497-505 | and stays so after a change in place, which leaves other entries alone |
| `Driver.LocalDriver.QueryRooms` | crates/colyseus/src/driver.rs:519-576 | the page cut out of all matches in order, for any order in which the map lists each key once |
| `Driver.OneKindIsPreorder` | crates/colyseus/src/driver.rs:645-661 | with columns of one kind each the multi-key comparator is a total preorder |
| `Driver.PreorderIff` | crates/colyseus/src/driver.rs:607-661 | for one column, exactly then, or when no two values can be told apart |
| `Driver.LastColumnIff` | crates/colyseus/src/driver.rs:645-661 | several columns of which only the last may hold several kinds are a preorder exactly when that one sorts each group the others leave level |
| `Driver.AnswerOnce` | crates/colyseus/src/driver.rs:519-576 | an answer holds every matching listing exactly once and nothing else |
| `Driver.AnswerSorted` | crates/colyseus/src/driver.rs:645-661 | every row is at most the next ones by the comparator, for columns of one kind each |
| `Driver.AnswerOrdered` | crates/colyseus/src/driver.rs:607-661 | the first column that tells two rows apart puts the smaller value first, or the greater one if it is descending: numbers by value, strings by code points, false before true |
| `Driver.AnswerStable` | crates/colyseus/src/driver.rs:645-661 | matches that no column tells apart keep the store's order |
| `Driver.NumbersInOrder` | crates/colyseus/src/driver.rs:645-661 | for one: sorted upwards by a number, no row has a greater one than a later row; downwards, no smaller one |
| `Driver.PageShows` | crates/colyseus/src/driver.rs:547-575 | a page shows the total and the rows from its offset on, as many as the limit allows, and says where the next one begins |
| `Driver.ListRoomsAll` | clients/ts/admin/src/admin.ts:230-239 | following `nextOffset` from 0 through queries of the driver ends, with every matching listing exactly once, nothing else, and in the order of `AnswerOrdered` for columns of one kind each |
| `Driver.PagesAdvanceIff` | crates/colyseus/src/driver.rs:556-568 | a page moves on exactly when its limit is not zero |

## Left out

- Transports, routing, MessagePack framing, the snapshot envelope and its checksum, file and background writing: frames and snapshots are taken to arrive as they were sent.
- Hook bodies and message handlers: arbitrary sequences of context calls; a hook always returns. Typed state is its JSON value, so deserialization failures of `apply_edit` and `restore_state` are not modelled.
- `edit_at_path`: an admin edit enters the model as an arbitrary new state value, which is more than any single edit can reach.
- The `after_next_patch` queue, `except` of a broadcast, taps, lobby events, presence, timers (a due timer is a hook), simulation and patch intervals, auto-save and auto-dispose decisions.
- View filters read only session id, auth and user data of a client.
- `Room.StateSlot`: numbers are compared as `serde_json` compares them, by representation; floats are real numbers, so NaN and rounding are not modelled.
- The clock of a room across a restart: restored elapsed time is forgotten by the next tick, so nothing is claimed about it.
- `Matchmaker.UniqueRoomPerKey`: restoring rooms from snapshots is not one of the steps. Keys are equal when their values are; values that only `value_eq` takes for equal, like 1 and "1", are different keys with different locks.
- `Matchmaker.IsLookup`: which of several candidates a lookup takes is a free choice of the step; `TakesTheFirst` says which one a declared order gives, and a custom comparator is not modelled. Options are objects.
- `CriteriaRooms.OneRoomPerCriteria`: runs in which rooms end, or listings are lost or changed, make another room when nothing matches any more, as they should.
- Answers to the client after a failing handler are not modelled; a handler that fails has done its calls.
- `Matchmaker`: whether `join_or_create` succeeds while rooms are full; matching ignores capacity, which only the room actor enforces.
- `ActorRuns.RunsHappenOnce`: at most once, not exactly once; `OnLeaveRunsIff` and `KickedNeverLeaves` say when it is never.
- `Restart.RestartKeepsSessions`: the history of left sessions and accepted tokens starts over in the new process.
- `Deadlines`: monotonic and wall clock are read at one moment, and the wall clock is not set back.
- `Handlers`: how values and numbers print (`to_string`) is a parameter, the same for all requests.
- `Query`: `as_f64` is taken as exact, so that large integers are not rounded before they are compared.
- `ClientRuns.HeapsAreCurrent`: what fits is asked of the values the client was sent, not of the room's states; patches before the first full state do not occur.
- `ClientSync.ClientFollowsIff`: no object of the client has an own `__proto__` before the patch; the decoder of full states is not part of this model.
- `Driver.LastColumnIff`: a column of several kinds before the last one; then the columns after it decide, pair by pair.
- `ClientPatch`: `Number` of anything but decimal digits is taken as NaN, and properties inherited from prototypes are taken as absent; RFC-valid patches reach neither.
- `JsonPatch.ApplyRoot`: removing the whole document is given no meaning; the library never emits it.
- `Driver`: query conditions are an arbitrary predicate on the flat form (`Query.Accepts` is theirs); the library sort is an insertion sort, stable like it; the store does not change between two pages.
- Runs end with disposal: `RoomActor.Dispose` is specified, and no event is handled after it.
- `RoomActor`: reading of inspection data, reconnection checks and the auto-dispose loop around `handle_event`.
