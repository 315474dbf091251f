/** For which declarations a unique key has one live room: exactly those whose listings are always found. */
module UniqueRooms {
  import opened Json
  import opened LockKeys
  import LockTable
  import opened Query
  import opened Handlers
  import opened Matchmaker
  import Driver

  // ------------------------------------------------------------------
  // The query
  // ------------------------------------------------------------------

  function Ids(rows: seq<Driver.Entry>): (ids: seq<RoomId>)
    ensures |ids| == |rows| && forall i :: 0 <= i < |rows| ==> ids[i] == rows[i].listing.roomId
  {
    seq(|rows|, i requires 0 <= i < |rows| => rows[i].listing.roomId)
  }

  /** The ids of one more row. */
  lemma IdsCons(e: Driver.Entry, rows: seq<Driver.Entry>)
    requires Distinct(Ids(rows)) && e.listing.roomId !in Ids(rows)
    ensures Ids([e] + rows) == [e.listing.roomId] + Ids(rows) && Distinct(Ids([e] + rows))
  {
  }

  ghost predicate HasMatching(store: map<Id, Driver.Entry>, order: seq<Id>, accepts: Json -> bool, ids: seq<Id>)
    requires forall id :: id in order ==> id in store
  {
    Distinct(ids) && forall r :: r in ids <==> r in order && accepts(store[r].flat)
  }

  lemma {:induction false} MatchingIds(store: map<Id, Driver.Entry>, order: seq<Id>, accepts: Json -> bool)
    requires Driver.IsKeyed(store) && Distinct(order) && forall id :: id in order ==> id in store
    ensures HasMatching(store, order, accepts, Ids(Driver.Matching(Driver.Entries(store, order), accepts)))
    decreases |order|
  {
    if order != [] {
      MatchingIds(store, order[1..], accepts);
      var rows := Driver.Entries(store, order);
      assert rows[1..] == Driver.Entries(store, order[1..]) && rows[0] == store[order[0]];
      var later := Driver.Matching(rows[1..], accepts);
      assert order == [order[0]] + order[1..] && order[0] !in order[1..];
      if accepts(rows[0].flat) {
        IdsCons(rows[0], later);
        assert Driver.Matching(rows, accepts) == [rows[0]] + later;
      } else {
        assert Driver.Matching(rows, accepts) == later;
      }
    }
  }

  /** The driver's store, with the listings of this world in their flat form. */
  ghost predicate IsStoreOf(w: World, store: map<Id, Driver.Entry>, order: seq<Id>) {
    && Enumerates(order, store.Keys) && store.Keys == w.listings.Keys
    && forall r :: r in store ==> w.listings[r].roomId == r && store[r] == Driver.Entry(w.listings[r], Flatten(w.listings[r]))
  }

  lemma MatchingIdsFound(w: World, task: Task, store: map<Id, Driver.Entry>, order: seq<Id>, accepts: Json -> bool, ids: seq<Id>)
    requires task.room in w.registry.handlers && IsStoreOf(w, store, order) && HasMatching(store, order, accepts, ids)
    requires var conditions := UniqueConditions(w.registry.handlers[task.room], task.room, task.made);
             forall flat :: accepts(flat) <==> Accepts(flat, conditions, w.registry.text)
    ensures IsQueryResult(w, task, ids)
  {
    forall r | r in w.listings ensures r in ids <==> Finds(w.registry, task, w.listings[r]) { assert r in order; }
  }

  /** What the driver answers to the unsorted query of `find_live` is what the step of a request is given. */
  lemma DriverAnswers(w: World, task: Task, store: map<Id, Driver.Entry>, order: seq<Id>)
    requires task.room in w.registry.handlers && IsStoreOf(w, store, order)
    ensures var conditions := UniqueConditions(w.registry.handlers[task.room], task.room, task.made);
            IsQueryResult(w, task, Ids(Driver.Answer(Driver.Entries(store, order), flat => Accepts(flat, conditions, w.registry.text), [])))
  {
    var conditions := UniqueConditions(w.registry.handlers[task.room], task.room, task.made);
    var accepts := flat => Accepts(flat, conditions, w.registry.text);
    MatchingIds(store, order, accepts);
    MatchingIdsFound(w, task, store, order, accepts, Ids(Driver.Matching(Driver.Entries(store, order), accepts)));
  }

  // ------------------------------------------------------------------
  // One request creates a room
  // ------------------------------------------------------------------

  /** Nobody is inside any critical section. */
  ghost predicate IsCalm(table: LockTable.Table) { forall id :: !LockTable.InSection(table, id) }

  ghost predicate SameRooms(w: World, w': World) {
    && w'.registry == w.registry && w'.rooms == w.rooms && w'.listings == w.listings
    && w'.everListed == w.everListed && w'.usedIds == w.usedIds
  }

  ghost predicate AtPc(w: World, t: nat, pc: Pc) { t in w.tasks && w.tasks[t].pc == pc && w.tasks[t].unique.Some? }

  ghost predicate OthersSame(before: LockTable.Table, after: LockTable.Table, id: LockTable.SessionId) {
    forall other :: other != id ==> LockTable.SessionOf(after, other) == LockTable.SessionOf(before, other)
  }

  /** `create_lock` of the unique key. */
  lemma CreatesLock(w: World, t: nat) returns (w': World)
    requires AtPc(w, t, UniqCreate) && LockTable.SessionOf(w.table, Uniq(t)).Idle?
    ensures Leads(w, w') && SameRooms(w, w') && w'.tasks == w.tasks[t := w.tasks[t].(pc := UniqWait)]
    ensures OthersSame(w.table, w'.table, Uniq(t))
    ensures LockTable.SessionOf(w'.table, Uniq(t)).Active? && LockTable.SessionOf(w'.table, Uniq(t)).phase.Waiting?
  {
    w' := GoStep(w, t, Proceed);
    LeadsStep(w, t, Proceed);
    NextMoves(w.table, Uniq(t), LockTable.Create(UniqueLock(w.tasks[t].unique.value)));
  }

  /** `lock().await` of the unique key. */
  lemma TakesGuard(w: World, t: nat) returns (w': World)
    requires AtPc(w, t, UniqWait) && IsCalm(w.table)
    requires LockTable.SessionOf(w.table, Uniq(t)).Active? && LockTable.SessionOf(w.table, Uniq(t)).phase.Waiting?
    ensures Leads(w, w') && SameRooms(w, w') && w'.tasks == w.tasks[t := w.tasks[t].(pc := Query)]
    ensures OthersSame(w.table, w'.table, Uniq(t)) && LockTable.InSection(w'.table, Uniq(t))
  {
    assert forall id :: id in w.table.sessions ==> !LockTable.InSection(w.table, id);
    w' := GoStep(w, t, Proceed);
    LeadsStep(w, t, Proceed);
    NextMoves(w.table, Uniq(t), LockTable.Acquire);
  }

  /** The query that finds nothing. */
  lemma FindsNone(w: World, t: nat) returns (w': World)
    requires AtPc(w, t, Query) && forall q :: q in w.listings ==> !Finds(w.registry, w.tasks[t], w.listings[q])
    ensures Leads(w, w') && SameRooms(w, w') && w'.table == w.table && w'.tasks == w.tasks[t := w.tasks[t].(pc := Spawn)]
  {
    var none: seq<RoomId> := [];
    var w1 := GoStep(w, t, Candidates(none));
    LeadsStep(w, t, Candidates(none));
    assert w1.tasks == w.tasks[t := w.tasks[t].(pc := Check(none))];
    w' := GoStep(w1, t, Proceed);
    LeadsStep(w1, t, Proceed);
    LeadsOn(w, w1, w');
  }

  function NewListing(reg: Registry, task: Task, r: RoomId): RoomListing {
    BareListing(r, task.room, FilterExtra(reg, task.room, task.made))
  }

  lemma Spawns(w: World, t: nat, r: RoomId) returns (w': World)
    requires AtPc(w, t, Spawn) && r !in w.usedIds
    ensures Leads(w, w') && w'.tasks == w.tasks[t := w.tasks[t].(pc := PutRoom(r))]
    ensures w' == w.(tasks := w'.tasks, usedIds := w.usedIds + {r})
  {
    w' := GoStep(w, t, NewRoom(r));
    LeadsStep(w, t, NewRoom(r));
  }

  lemma EntersMap(w: World, t: nat, r: RoomId) returns (w': World)
    requires AtPc(w, t, PutRoom(r))
    ensures Leads(w, w') && w'.tasks == w.tasks[t := w.tasks[t].(pc := PutListing(r))]
    ensures w' == w.(tasks := w'.tasks, rooms := w.rooms + {r})
  {
    w' := GoStep(w, t, Proceed);
    LeadsStep(w, t, Proceed);
  }

  lemma EntersDriver(w: World, t: nat, r: RoomId) returns (w': World)
    requires AtPc(w, t, PutListing(r))
    ensures Leads(w, w') && w'.tasks == w.tasks[t := w.tasks[t].(pc := UniqUnlock(Created(r)))]
    ensures w' == w.(tasks := w'.tasks, listings := w.listings[r := NewListing(w.registry, w.tasks[t], r)], everListed := w.everListed + {r})
  {
    w' := GoStep(w, t, Listed(NewListing(w.registry, w.tasks[t], r)));
    LeadsStep(w, t, Listed(NewListing(w.registry, w.tasks[t], r)));
  }

  /** The room goes into the room map and the driver. */
  lemma PutsRoom(w: World, t: nat, r: RoomId) returns (w': World)
    requires AtPc(w, t, Spawn) && r !in w.usedIds
    ensures Leads(w, w') && w'.table == w.table && w'.tasks == w.tasks[t := w.tasks[t].(pc := UniqUnlock(Created(r)))]
    ensures HasRoom(w, w', r, NewListing(w.registry, w.tasks[t], r))
  {
    var w1 := Spawns(w, t, r);
    var w2 := EntersMap(w1, t, r);
    LeadsOn(w, w1, w2);
    w' := EntersDriver(w2, t, r);
    LeadsOn(w, w2, w');
  }

  ghost predicate HasRoom(w: World, w': World, r: RoomId, l: RoomListing) {
    w'.registry == w.registry && w'.rooms == w.rooms + {r} && w'.usedIds == w.usedIds + {r} && w'.listings == w.listings[r := l]
  }

  /** The guard is dropped; the release of the lock-table entry may come much later. */
  lemma DropsGuard(w: World, t: nat, o: Outcome) returns (w': World)
    requires AtPc(w, t, UniqUnlock(o)) && LockTable.InSection(w.table, Uniq(t))
    ensures Leads(w, w') && SameRooms(w, w') && w'.tasks == w.tasks[t := w.tasks[t].(pc := UniqCheck(o))]
    ensures OthersSame(w.table, w'.table, Uniq(t)) && !LockTable.InSection(w'.table, Uniq(t))
  {
    w' := GoStep(w, t, Proceed);
    LeadsStep(w, t, Proceed);
    NextMoves(w.table, Uniq(t), LockTable.DropGuard);
  }

  lemma TakesUniqueLock(w: World, t: nat) returns (w': World)
    requires AtPc(w, t, UniqCreate) && LockTable.SessionOf(w.table, Uniq(t)).Idle? && IsCalm(w.table)
    ensures Leads(w, w') && SameRooms(w, w') && w'.tasks == w.tasks[t := w.tasks[t].(pc := Query)]
    ensures OthersSame(w.table, w'.table, Uniq(t)) && LockTable.InSection(w'.table, Uniq(t))
  {
    var w1 := CreatesLock(w, t);
    forall id ensures !LockTable.InSection(w1.table, id) { assert !LockTable.InSection(w.table, id); }
    w' := TakesGuard(w1, t);
    LeadsOn(w, w1, w');
  }

  /** Alone with its key, the request looks in vain. */
  lemma SearchesInVain(w: World, t: nat) returns (w': World)
    requires AtPc(w, t, UniqCreate) && LockTable.SessionOf(w.table, Uniq(t)).Idle? && IsCalm(w.table)
    requires forall q :: q in w.listings ==> !Finds(w.registry, w.tasks[t], w.listings[q])
    ensures Leads(w, w') && SameRooms(w, w') && w'.tasks == w.tasks[t := w.tasks[t].(pc := Spawn)]
    ensures OthersSame(w.table, w'.table, Uniq(t)) && LockTable.InSection(w'.table, Uniq(t))
  {
    var w1 := TakesUniqueLock(w, t);
    forall q | q in w1.listings ensures !Finds(w1.registry, w1.tasks[t], w1.listings[q]) { assert !Finds(w.registry, w.tasks[t], w.listings[q]); }
    w' := FindsNone(w1, t);
    LeadsOn(w, w1, w');
  }

  /** A whole creation by a request whose query finds nothing. */
  lemma Creates(w: World, t: nat, r: RoomId) returns (w': World)
    requires AtPc(w, t, UniqCreate) && LockTable.SessionOf(w.table, Uniq(t)).Idle? && IsCalm(w.table) && r !in w.usedIds
    requires forall q :: q in w.listings ==> !Finds(w.registry, w.tasks[t], w.listings[q])
    ensures Leads(w, w') && w'.tasks == w.tasks[t := w.tasks[t].(pc := UniqCheck(Created(r)))]
    ensures OthersSame(w.table, w'.table, Uniq(t)) && IsCalm(w'.table)
    ensures HasRoom(w, w', r, NewListing(w.registry, w.tasks[t], r))
  {
    var w1 := SearchesInVain(w, t);
    w' := PutsAndDrops(w1, t, r);
    LeadsOn(w, w1, w');
    CalmAgain(w.table, w1.table, w'.table, Uniq(t));
  }

  lemma PutsAndDrops(w: World, t: nat, r: RoomId) returns (w': World)
    requires AtPc(w, t, Spawn) && r !in w.usedIds && LockTable.InSection(w.table, Uniq(t))
    ensures Leads(w, w') && w'.tasks == w.tasks[t := w.tasks[t].(pc := UniqCheck(Created(r)))]
    ensures HasRoom(w, w', r, NewListing(w.registry, w.tasks[t], r))
    ensures OthersSame(w.table, w'.table, Uniq(t)) && !LockTable.InSection(w'.table, Uniq(t))
  {
    var w1 := PutsRoom(w, t, r);
    w' := DropsGuard(w1, t, Created(r));
    LeadsOn(w, w1, w');
  }

  lemma CalmAgain(before: LockTable.Table, between: LockTable.Table, after: LockTable.Table, id: LockTable.SessionId)
    requires IsCalm(before) && OthersSame(before, between, id) && OthersSame(between, after, id) && !LockTable.InSection(after, id)
    ensures IsCalm(after) && OthersSame(before, after, id)
  {
    forall other ensures !LockTable.InSection(after, other) { assert !LockTable.InSection(before, other); }
  }

  // ------------------------------------------------------------------
  // Two rooms of one key
  // ------------------------------------------------------------------

  /** Some run leads to two live rooms of one unique key of this room type. */
  ghost predicate MayHaveTwins(reg: Registry, room: string) { exists w, key, r, q :: AreTwins(w, reg, room, key, r, q) }

  ghost predicate AreTwins(w: World, reg: Registry, room: string, key: Key, r: RoomId, q: RoomId) {
    Reachable(w) && w.registry == reg && key.room == room && Live(w, key, r) && Live(w, key, q) && r != q
  }

  /** A `create_room` request with these options. */
  function CreateRequest(reg: Registry, room: string, options: Options): Task
    requires room in reg.handlers
  {
    Task(room, options, options, [], None, Some(Subject(room, Print(UniqueConditions(reg.handlers[room], room, options), reg.show))),
         false, JOIN_OR_CREATE_RETRIES, UniqCreate)
  }

  function TwoRequests(reg: Registry, room: string, options: Options): World
    requires room in reg.handlers
  {
    World(reg, map[0 := CreateRequest(reg, room, options), 1 := CreateRequest(reg, room, options)], LockTable.Empty, {}, map[], {}, {})
  }

  /** One request after the other, with options whose listing their own query does not find. */
  lemma SecondCreation(reg: Registry, room: string, options: Options) returns (w: World)
    requires room in reg.handlers && KeyOf(reg, room, options).Some?
    requires !Finds(reg, CreateRequest(reg, room, options), NewListing(reg, CreateRequest(reg, room, options), "a"))
    ensures AreTwins(w, reg, room, KeyOf(reg, room, options).value, "a", "b")
  {
    var start := TwoRequests(reg, room, options);
    var w1 := Creates(start, 0, "a");
    SameFinds(reg, CreateRequest(reg, room, options), w1.tasks[1], w1.listings["a"]);
    w := Creates(w1, 1, "b");
    LeadsOn(start, w1, w);
    StartIsInitial(reg, room, options);
    StartReaches(start, w);
    BothLive(w, reg, CreateRequest(reg, room, options), KeyOf(reg, room, options).value);
  }

  lemma StartReaches(start: World, w: World)
    requires Initial(start) && Leads(start, w)
    ensures Reachable(w)
  {
    var events :| Matchmaker.Run(start, events) == Some(w);
  }

  lemma BothLive(w: World, reg: Registry, task: Task, key: Key)
    requires w.registry == reg && TaskKey(reg, task) == Some(key) && "a" in w.rooms && "b" in w.rooms
    requires "a" in w.listings && "b" in w.listings
    requires w.listings["a"] == NewListing(reg, task, "a") && w.listings["b"] == NewListing(reg, task, "b")
    ensures Live(w, key, "a") && Live(w, key, "b")
  {
    ExtraKeepsKey(reg, task.room, task.made);
  }

  lemma StartIsInitial(reg: Registry, room: string, options: Options)
    requires room in reg.handlers && KeyOf(reg, room, options).Some?
    ensures Initial(TwoRequests(reg, room, options))
  {
  }

  lemma SameFinds(reg: Registry, a: Task, b: Task, l: RoomListing)
    requires a == b
    ensures Finds(reg, a, l) == Finds(reg, b, l)
  {
  }

  /** Two live rooms can carry one unique key exactly when the room type's declaration is not plain. */
  lemma TwinsIff(reg: Registry, room: string)
    requires room in reg.handlers && reg.handlers[room].uniqueBy != []
    ensures MayHaveTwins(reg, room) <==> !IsPlain(reg.handlers[room])
  {
    if !IsPlain(reg.handlers[room]) {
      var options := Nulls(reg.handlers[room]);
      NullsAreHidden(reg, room, "a");
      var w := SecondCreation(reg, room, options);
      assert AreTwins(w, reg, room, KeyOf(reg, room, options).value, "a", "b");
    } else if MayHaveTwins(reg, room) {
      var w, key, r, q :| AreTwins(w, reg, room, key, r, q);
      PlainIsSearchable(w, room);
      UniqueRoomPerKey(w, key, r, q);
      assert false;
    }
  }

  lemma PlainIsSearchable(w: World, room: string)
    requires room in w.registry.handlers && IsPlain(w.registry.handlers[room])
    ensures IsSearchable(w, room)
  {
  }

  lemma DottedIsHidden(reg: Registry, room: string, v: Json, l: RoomListing)
    requires room in reg.handlers && reg.handlers[room].uniqueBy == ["a.b"] && reg.handlers[room].filterBy == []
    requires l == BareListing("a", room, FilterExtra(reg, room, map["a.b" := v]))
    ensures KeyOf(reg, room, map["a.b" := v]) == Some(Key(room, map["a.b" := v]))
    ensures !Accepts(Flatten(l), UniqueConditions(reg.handlers[room], room, map["a.b" := v]), reg.text)
  {
    var h, options := reg.handlers[room], map["a.b" := v];
    assert "a.b" in h.uniqueBy && KeyOf(reg, room, options).Some?;
    assert KeyOf(reg, room, options).value.values == options;
    PathIsMissing(l, "a.b");
    ExtraKeepsKey(reg, room, options);
    FoundIff(reg, l, options);
    assert !FieldShown(l, "a.b", v, reg.text);
  }

  lemma PathIsMissing(l: RoomListing, f: string)
    requires f == "a.b" && l.metadata.None? && l.maxClients.None? && "a" !in l.extra
    ensures '.' in f && ResolvePath(Flatten(l), f).None?
  {
    PartsOfDotted();
    if ResolvePath(Flatten(l), f).Some? { DottedField(Flatten(l), f); }
  }

  /** For one: a type unique by `a.b`, and any two requests with the same `a.b`, one after the other. */
  lemma DottedTwins(reg: Registry, room: string, v: Json) returns (w: World)
    requires room in reg.handlers && reg.handlers[room].uniqueBy == ["a.b"] && reg.handlers[room].filterBy == []
    ensures AreTwins(w, reg, room, Key(room, map["a.b" := v]), "a", "b")
  {
    var options := map["a.b" := v];
    DottedIsHidden(reg, room, v, NewListing(reg, CreateRequest(reg, room, options), "a"));
    w := SecondCreation(reg, room, options);
  }

  lemma PartsOfDotted()
    ensures '.' in "a.b" && Parts("a.b")[0] == "a"
  {
    assert "a.b"[1] == '.' && "a.b"[1..] == ".b" && ".b"[0] == '.';
    assert Parts(".b")[0] == "";
    assert Parts("a.b")[0] == ['a'] + "";
  }
}
