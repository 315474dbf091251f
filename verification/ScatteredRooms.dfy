/** For which declarations requests that ask for the same can be scattered over two rooms. */
module ScatteredRooms {
  import opened Json
  import opened LockKeys
  import LockTable
  import opened Query
  import opened Handlers
  import opened Matchmaker
  import opened CriteriaRooms
  import opened UniqueRooms

  /** `join_or_create` requests for one room type with one set of options. */
  ghost predicate Alike(w: World, room: string, options: Options) {
    forall t :: t in w.tasks ==> IsOrdinary(w.tasks[t], room, options)
  }

  predicate IsOrdinary(task: Task, room: string, options: Options) {
    task.room == room && task.options == options && task.filter == [] && task.criteria.Some? && task.reserves
  }

  /** Rooms are open when they are listed. */
  predicate ListsOpen(events: seq<Happening>) {
    forall k :: 0 <= k < |events| && events[k].Go? && events[k].choice.Listed? ==> IsOpen(events[k].choice.listing)
  }

  /** Requests for the same make two rooms, though every room stays open and listed. */
  ghost predicate Scatters(start: World, events: seq<Happening>, reg: Registry, room: string, options: Options) {
    && Initial(start) && start.registry == reg && Alike(start, room, options)
    && Matchmaker.Run(start, events).Some? && IsQuiet(events) && ListsOpen(events)
    && Creations(events, start.tasks.Keys) >= 2
  }

  ghost predicate MayScatter(reg: Registry, room: string) {
    exists start, events, options :: Scatters(start, events, reg, room, options)
  }

  /** No custom predicate on listings. */
  ghost predicate SuitsAll(h: Handler) { forall l, options :: h.suits(l, options) }

  // ------------------------------------------------------------------
  // One room
  // ------------------------------------------------------------------

  /** Requests for the same, of a type that takes whatever is made for it. */
  ghost predicate IsFair(w: World, room: string, options: Options) {
    && room in w.registry.handlers && AlwaysTakes(w.registry, room) && SuitsAll(w.registry.handlers[room])
    && forall t :: t in w.tasks ==> IsOrdinary(w.tasks[t], room, options) && Asks(w.registry, w.tasks[t])
  }

  lemma OrdinaryTakes(reg: Registry, task: Task, room: string, options: Options, l: RoomListing)
    requires room in reg.handlers && SuitsAll(reg.handlers[room]) && IsOrdinary(task, room, options) && Takes(reg, room, options, l)
    ensures Matches(reg, task, l)
  {
    var conditions := MatchConditions(reg.handlers[room], room, options);
    assert conditions + [] == conditions;
  }

  lemma ListingIsTaken(w: World, room: string, options: Options, t: nat, l: RoomListing)
    requires IsFair(w, room, options) && CanGo(w, t, Listed(l)) && IsOpen(l)
    ensures MatchedByAll(w, w.tasks.Keys, l)
  {
    assert IsOrdinary(w.tasks[t], room, options) && Asks(w.registry, w.tasks[t]);
    assert IsMadeFor(w.registry, room, options, l);
    assert !Overlooks(w.registry, room, options, l);
    forall u | u in w.tasks ensures Matches(w.registry, w.tasks[u], l) {
      OrdinaryTakes(w.registry, w.tasks[u], room, options, l);
    }
  }

  ghost predicate SameTakers(w: World, w': World, group: set<nat>) {
    forall l :: MatchedByAll(w', group, l) <==> MatchedByAll(w, group, l)
  }

  lemma SameTaken(w: World, w': World, group: set<nat>, l: RoomListing)
    requires SameTakers(w, w', group)
    ensures MatchedByAll(w', group, l) <==> MatchedByAll(w, group, l)
  {
  }

  lemma SoughtFirst(w: World, w': World, events: seq<Happening>, group: set<nat>)
    requires events != [] && SameTakers(w, w', group) && MakeWhatTheySeek(w', events[1..], group)
    requires Lists(events[0], group) ==> MatchedByAll(w, group, events[0].choice.listing)
    ensures MakeWhatTheySeek(w, events, group)
  {
    forall k | 0 <= k < |events| && Lists(events[k], group) ensures MatchedByAll(w, group, events[k].choice.listing) {
      if k > 0 {
        assert events[1..][k - 1] == events[k];
        SameTaken(w, w', group, events[k].choice.listing);
      }
    }
  }

  lemma FairOn(w: World, e: Happening, room: string, options: Options)
    requires IsFair(w, room, options) && Possible(w, e) && (e.Go? || e.Cancel?)
    requires e.Go? && e.choice.Listed? ==> IsOpen(e.choice.listing)
    ensures IsFair(Happen(w, e), room, options) && Happen(w, e).tasks.Keys == w.tasks.Keys
    ensures SameTakers(w, Happen(w, e), w.tasks.Keys)
    ensures Lists(e, w.tasks.Keys) ==> MatchedByAll(w, w.tasks.Keys, e.choice.listing)
  {
    QuietStays(w, e);
    forall t | t in w.tasks ensures IsOrdinary(Happen(w, e).tasks[t], room, options) && Asks(w.registry, Happen(w, e).tasks[t]) {
      SameAsks(w.registry, w.tasks[t], Happen(w, e).tasks[t]);
    }
    GroupStays(w, Happen(w, e), w.tasks.Keys);
    if e.Go? && e.choice.Listed? { ListingIsTaken(w, room, options, e.task, e.choice.listing); }
  }

  lemma {:induction false} MadeIsSought(w: World, events: seq<Happening>, room: string, options: Options)
    requires IsFair(w, room, options) && Matchmaker.Run(w, events).Some? && IsQuiet(events) && ListsOpen(events)
    ensures MakeWhatTheySeek(w, events, w.tasks.Keys)
    decreases |events|
  {
    if events != [] {
      var w', rest := Happen(w, events[0]), events[1..];
      FairOn(w, events[0], room, options);
      assert IsQuiet(rest) && ListsOpen(rest);
      MadeIsSought(w', rest, room, options);
      SoughtFirst(w, w', events, w.tasks.Keys);
    }
  }

  lemma AlikeGroup(start: World, room: string, options: Options)
    requires Initial(start) && Alike(start, room, options)
    ensures IsGroup(start, start.tasks.Keys)
  {
    forall t | t in start.tasks ensures Asks(start.registry, start.tasks[t]) && IsOrdinary(start.tasks[t], room, options) {}
  }

  lemma NeverScatters(start: World, events: seq<Happening>, reg: Registry, room: string, options: Options)
    requires room in reg.handlers && AlwaysTakes(reg, room) && SuitsAll(reg.handlers[room])
    ensures !Scatters(start, events, reg, room, options)
  {
    if Scatters(start, events, reg, room, options) {
      Matchmaker.InitialInv(start);
      AlikeGroup(start, room, options);
      MadeIsSought(start, events, room, options);
      OneRoomPerCriteria(start, events, start.tasks.Keys);
    }
  }

  // ------------------------------------------------------------------
  // Two rooms
  // ------------------------------------------------------------------

  /** A quiet run leads from one world to the other, and lists `n` open rooms of the group. */
  ghost predicate Makes(w: World, w': World, group: set<nat>, n: nat) {
    exists events :: Matchmaker.Run(w, events) == Some(w') && IsQuiet(events) && ListsOpen(events) && Creations(events, group) == n
  }

  lemma {:induction false} CreationsAppend(a: seq<Happening>, b: seq<Happening>, group: set<nat>)
    ensures Creations(a + b, group) == Creations(a, group) + Creations(b, group)
    decreases |a|
  {
    if a == [] {
      assert a + b == b;
    } else {
      assert (a + b)[1..] == a[1..] + b;
      CreationsAppend(a[1..], b, group);
    }
  }

  lemma MakesOn(w: World, mid: World, w': World, group: set<nat>, n: nat, m: nat)
    requires Makes(w, mid, group, n) && Makes(mid, w', group, m)
    ensures Makes(w, w', group, n + m)
  {
    var a :| Matchmaker.Run(w, a) == Some(mid) && IsQuiet(a) && ListsOpen(a) && Creations(a, group) == n;
    var b :| Matchmaker.Run(mid, b) == Some(w') && IsQuiet(b) && ListsOpen(b) && Creations(b, group) == m;
    RunAppend(w, a, b);
    CreationsAppend(a, b, group);
    assert IsQuiet(a + b) && ListsOpen(a + b);
  }

  lemma MakesStep(w: World, t: nat, choice: Choice, group: set<nat>)
    requires CanGo(w, t, choice) && t in group && (choice.Listed? ==> IsOpen(choice.listing))
    ensures Makes(w, GoStep(w, t, choice), group, if choice.Listed? then 1 else 0)
  {
    var events := [Go(t, choice)];
    assert events[1..] == [];
    assert Matchmaker.Run(w, events) == Matchmaker.Run(Happen(w, events[0]), events[1..]);
    assert IsQuiet(events) && ListsOpen(events);
    assert Creations(events[1..], group) == 0;
  }

  /** A request with a criteria lock and no unique key is at this program counter. */
  ghost predicate OnPc(w: World, t: nat, group: set<nat>, pc: Pc) {
    t in w.tasks && t in group && w.tasks[t].pc == pc && w.tasks[t].criteria.Some? && w.tasks[t].unique.None?
  }

  /** The request goes on to `pc`; nothing else about requests changes. */
  ghost predicate GoesOnTo(w: World, w': World, t: nat, pc: Pc) {
    t in w.tasks && w'.tasks == w.tasks[t := w.tasks[t].(pc := pc)]
  }

  lemma LooksInVain(w: World, t: nat, pc: Pc, group: set<nat>) returns (w': World)
    requires OnPc(w, t, group, pc) && (pc == FindMatch || pc == Recheck) && IsLookup(w, w.tasks[t], None)
    ensures Makes(w, w', group, 0) && SameRooms(w, w') && w'.table == w.table && GoesOnTo(w, w', t, if pc == FindMatch then CritCreate else Spawn)
  {
    w' := GoStep(w, t, Lookup(None));
    MakesStep(w, t, Lookup(None), group);
  }

  lemma AsksForLock(w: World, t: nat, group: set<nat>) returns (w': World)
    requires OnPc(w, t, group, CritCreate) && LockTable.SessionOf(w.table, Crit(t)).Idle?
    ensures Makes(w, w', group, 0) && SameRooms(w, w') && GoesOnTo(w, w', t, CritWait) && OthersSame(w.table, w'.table, Crit(t))
    ensures LockTable.SessionOf(w'.table, Crit(t)).Active? && LockTable.SessionOf(w'.table, Crit(t)).phase.Waiting?
  {
    w' := GoStep(w, t, Proceed);
    MakesStep(w, t, Proceed, group);
    NextMoves(w.table, Crit(t), LockTable.Create(CriteriaLock(w.tasks[t].criteria.value)));
  }

  lemma EntersLock(w: World, t: nat, group: set<nat>) returns (w': World)
    requires OnPc(w, t, group, CritWait) && IsCalm(w.table)
    requires LockTable.SessionOf(w.table, Crit(t)).Active? && LockTable.SessionOf(w.table, Crit(t)).phase.Waiting?
    ensures Makes(w, w', group, 0) && SameRooms(w, w') && GoesOnTo(w, w', t, Recheck) && OthersSame(w.table, w'.table, Crit(t))
    ensures LockTable.InSection(w'.table, Crit(t))
  {
    assert forall id :: id in w.table.sessions ==> !LockTable.InSection(w.table, id);
    w' := GoStep(w, t, Proceed);
    MakesStep(w, t, Proceed, group);
    NextMoves(w.table, Crit(t), LockTable.Acquire);
  }

  lemma SpawnsRoom(w: World, t: nat, r: RoomId, group: set<nat>) returns (w': World)
    requires OnPc(w, t, group, Spawn) && r !in w.usedIds
    ensures Makes(w, w', group, 0) && GoesOnTo(w, w', t, PutRoom(r)) && w' == w.(tasks := w'.tasks, usedIds := w.usedIds + {r})
  {
    w' := GoStep(w, t, NewRoom(r));
    MakesStep(w, t, NewRoom(r), group);
  }

  lemma MapsRoom(w: World, t: nat, r: RoomId, group: set<nat>) returns (w': World)
    requires OnPc(w, t, group, PutRoom(r))
    ensures Makes(w, w', group, 0) && GoesOnTo(w, w', t, PutListing(r)) && w' == w.(tasks := w'.tasks, rooms := w.rooms + {r})
  {
    w' := GoStep(w, t, Proceed);
    MakesStep(w, t, Proceed, group);
  }

  lemma ListsRoom(w: World, t: nat, r: RoomId, l: RoomListing, group: set<nat>) returns (w': World)
    requires OnPc(w, t, group, PutListing(r)) && l.roomId == r && IsOpen(l) && IsListingOf(w.registry, w.tasks[t].room, w.tasks[t].made, l)
    ensures Makes(w, w', group, 1) && GoesOnTo(w, w', t, Return(Created(r)))
    ensures w' == w.(tasks := w'.tasks, listings := w.listings[r := l], everListed := w.everListed + {r})
  {
    w' := GoStep(w, t, Listed(l));
    MakesStep(w, t, Listed(l), group);
  }

  lemma Returns(w: World, t: nat, r: RoomId, group: set<nat>) returns (w': World)
    requires OnPc(w, t, group, Return(Created(r)))
    ensures Makes(w, w', group, 0) && SameRooms(w, w') && w'.table == w.table && GoesOnTo(w, w', t, CritUnlock(Some(r)))
  {
    w' := GoStep(w, t, Proceed);
    MakesStep(w, t, Proceed, group);
  }

  lemma LeavesLock(w: World, t: nat, r: RoomId, group: set<nat>) returns (w': World)
    requires OnPc(w, t, group, CritUnlock(Some(r))) && LockTable.InSection(w.table, Crit(t))
    ensures Makes(w, w', group, 0) && SameRooms(w, w') && GoesOnTo(w, w', t, CritCheck(Some(r))) && OthersSame(w.table, w'.table, Crit(t))
    ensures !LockTable.InSection(w'.table, Crit(t))
  {
    w' := GoStep(w, t, Proceed);
    MakesStep(w, t, Proceed, group);
    NextMoves(w.table, Crit(t), LockTable.DropGuard);
  }

  ghost predicate SeesNone(w: World, t: nat) { t in w.tasks && forall q :: q in w.listings ==> !Matches(w.registry, w.tasks[t], w.listings[q]) }

  lemma StillSeesNone(w: World, w': World, t: nat, pc: Pc)
    requires SeesNone(w, t) && SameRooms(w, w') && GoesOnTo(w, w', t, pc)
    ensures SeesNone(w', t)
  {
    forall q | q in w'.listings ensures !Matches(w'.registry, w'.tasks[t], w'.listings[q]) { assert !Matches(w.registry, w.tasks[t], w.listings[q]); }
  }

  lemma QueuesForLock(w: World, t: nat, group: set<nat>) returns (w': World)
    requires OnPc(w, t, group, FindMatch) && SeesNone(w, t) && LockTable.SessionOf(w.table, Crit(t)).Idle?
    ensures Makes(w, w', group, 0) && SameRooms(w, w') && GoesOnTo(w, w', t, CritWait) && OthersSame(w.table, w'.table, Crit(t))
    ensures LockTable.SessionOf(w'.table, Crit(t)).Active? && LockTable.SessionOf(w'.table, Crit(t)).phase.Waiting?
  {
    var w1 := LooksInVain(w, t, FindMatch, group);
    w' := AsksForLock(w1, t, group);
    MakesOn(w, w1, w', group, 0, 0);
  }

  /** The request looks in vain and waits its turn. */
  lemma TakesCriteriaLock(w: World, t: nat, group: set<nat>) returns (w': World)
    requires OnPc(w, t, group, FindMatch) && SeesNone(w, t) && LockTable.SessionOf(w.table, Crit(t)).Idle? && IsCalm(w.table)
    ensures Makes(w, w', group, 0) && SameRooms(w, w') && GoesOnTo(w, w', t, Recheck) && OthersSame(w.table, w'.table, Crit(t))
    ensures LockTable.InSection(w'.table, Crit(t))
  {
    var w1 := QueuesForLock(w, t, group);
    forall id ensures !LockTable.InSection(w1.table, id) { assert !LockTable.InSection(w.table, id); }
    w' := EntersLock(w1, t, group);
    MakesOn(w, w1, w', group, 0, 0);
  }

  lemma BeginsRoom(w: World, t: nat, r: RoomId, group: set<nat>) returns (w': World)
    requires OnPc(w, t, group, Recheck) && SeesNone(w, t) && r !in w.usedIds
    ensures Makes(w, w', group, 0) && GoesOnTo(w, w', t, PutRoom(r)) && w' == w.(tasks := w'.tasks, usedIds := w.usedIds + {r})
  {
    var w1 := LooksInVain(w, t, Recheck, group);
    w' := SpawnsRoom(w1, t, r, group);
    MakesOn(w, w1, w', group, 0, 0);
  }

  lemma PutsRoomAndListing(w: World, t: nat, r: RoomId, l: RoomListing, group: set<nat>) returns (w': World)
    requires OnPc(w, t, group, PutRoom(r)) && l.roomId == r && IsOpen(l) && IsListingOf(w.registry, w.tasks[t].room, w.tasks[t].made, l)
    ensures Makes(w, w', group, 1) && GoesOnTo(w, w', t, Return(Created(r)))
    ensures w' == w.(tasks := w'.tasks, rooms := w.rooms + {r}, listings := w.listings[r := l], everListed := w.everListed + {r})
  {
    var w1 := MapsRoom(w, t, r, group);
    w' := ListsRoom(w1, t, r, l, group);
    MakesOn(w, w1, w', group, 0, 1);
  }

  /** It looks in vain again, and puts an open room. */
  lemma PutsOpenRoom(w: World, t: nat, r: RoomId, l: RoomListing, group: set<nat>) returns (w': World)
    requires OnPc(w, t, group, Recheck) && SeesNone(w, t)
    requires r !in w.usedIds && l.roomId == r && IsOpen(l) && IsListingOf(w.registry, w.tasks[t].room, w.tasks[t].made, l)
    ensures Makes(w, w', group, 1) && HasRoom(w, w', r, l) && w'.table == w.table && GoesOnTo(w, w', t, Return(Created(r)))
  {
    var w1 := BeginsRoom(w, t, r, group);
    w' := PutsRoomAndListing(w1, t, r, l, group);
    MakesOn(w, w1, w', group, 0, 1);
  }

  lemma ReturnsAndLeaves(w: World, t: nat, r: RoomId, group: set<nat>) returns (w': World)
    requires OnPc(w, t, group, Return(Created(r))) && LockTable.InSection(w.table, Crit(t))
    ensures Makes(w, w', group, 0) && SameRooms(w, w') && GoesOnTo(w, w', t, CritCheck(Some(r))) && OthersSame(w.table, w'.table, Crit(t))
    ensures !LockTable.InSection(w'.table, Crit(t))
  {
    var w1 := Returns(w, t, r, group);
    w' := LeavesLock(w1, t, r, group);
    MakesOn(w, w1, w', group, 0, 0);
  }

  lemma PutsAndLeaves(w: World, t: nat, r: RoomId, l: RoomListing, group: set<nat>) returns (w': World)
    requires OnPc(w, t, group, Recheck) && SeesNone(w, t) && LockTable.InSection(w.table, Crit(t))
    requires r !in w.usedIds && l.roomId == r && IsOpen(l) && IsListingOf(w.registry, w.tasks[t].room, w.tasks[t].made, l)
    ensures Makes(w, w', group, 1) && HasRoom(w, w', r, l) && GoesOnTo(w, w', t, CritCheck(Some(r)))
    ensures OthersSame(w.table, w'.table, Crit(t)) && !LockTable.InSection(w'.table, Crit(t))
  {
    var w1 := PutsOpenRoom(w, t, r, l, group);
    w' := ReturnsAndLeaves(w1, t, r, group);
    MakesOn(w, w1, w', group, 1, 0);
  }

  /** A whole creation by a request that finds nothing. */
  lemma MakesRoom(w: World, t: nat, r: RoomId, l: RoomListing, group: set<nat>) returns (w': World)
    requires OnPc(w, t, group, FindMatch) && SeesNone(w, t) && LockTable.SessionOf(w.table, Crit(t)).Idle? && IsCalm(w.table)
    requires r !in w.usedIds && l.roomId == r && IsOpen(l) && IsListingOf(w.registry, w.tasks[t].room, w.tasks[t].made, l)
    ensures Makes(w, w', group, 1) && HasRoom(w, w', r, l) && OthersSame(w.table, w'.table, Crit(t)) && IsCalm(w'.table)
    ensures GoesOnTo(w, w', t, CritCheck(Some(r)))
  {
    var w1 := TakesCriteriaLock(w, t, group);
    StillSeesNone(w, w1, t, Recheck);
    w' := PutsAndLeaves(w1, t, r, l, group);
    MakesOn(w, w1, w', group, 0, 1);
    CalmAgain(w.table, w1.table, w'.table, Crit(t));
  }

  function JoinRequest(reg: Registry, room: string, options: Options): Task
    requires room in reg.handlers
  {
    var h := reg.handlers[room];
    Task(room, options, h.defaults + options, [], Some(Subject(room, Print(MatchConditions(h, room, options), reg.show))), None,
         true, JOIN_OR_CREATE_RETRIES, FindMatch)
  }

  function TwoJoins(reg: Registry, room: string, options: Options): World
    requires room in reg.handlers
  {
    World(reg, map[0 := JoinRequest(reg, room, options), 1 := JoinRequest(reg, room, options)], LockTable.Empty, {}, map[], {}, {})
  }

  /** One listing, which the request overlooks. */
  lemma SeesNotThat(w: World, t: nat, room: string, options: Options, a: RoomListing)
    requires t in w.tasks && w.tasks[t].room == room && w.tasks[t].options == options && w.tasks[t].filter == []
    requires room in w.registry.handlers && Overlooks(w.registry, room, options, a) && w.listings == map[a.roomId := a]
    ensures SeesNone(w, t)
  {
    SameLookup(w.registry, room, options, w.tasks[t], a);
  }

  /** The second request is as it was, and sees nothing to join. */
  ghost predicate IsHalfway(start: World, w: World, room: string, options: Options) {
    && Makes(start, w, {0, 1}, 1) && OthersSame(LockTable.Empty, w.table, Crit(0)) && IsCalm(w.table)
    && room in w.registry.handlers && 1 in w.tasks && w.tasks[1] == JoinRequest(w.registry, room, options) && SeesNone(w, 1)
  }

  lemma StartIsReady(reg: Registry, room: string, options: Options, l: RoomListing)
    requires room in reg.handlers && IsMadeFor(reg, room, options, l)
    ensures var start := TwoJoins(reg, room, options);
            && OnPc(start, 0, {0, 1}, FindMatch) && SeesNone(start, 0) && LockTable.SessionOf(start.table, Crit(0)).Idle? && IsCalm(start.table)
            && IsOpen(l) && IsListingOf(start.registry, start.tasks[0].room, start.tasks[0].made, l)
  {
  }

  lemma HalfwayThen(start: World, w: World, reg: Registry, room: string, options: Options, a: RoomListing, pc: Pc)
    requires room in reg.handlers && start == TwoJoins(reg, room, options) && Overlooks(reg, room, options, a)
    requires HasRoom(start, w, a.roomId, a) && GoesOnTo(start, w, 0, pc)
    ensures w.registry == reg && w.usedIds == {a.roomId} && 1 in w.tasks && w.tasks[1] == JoinRequest(w.registry, room, options) && SeesNone(w, 1)
  {
    SeesNotThat(w, 1, room, options, a);
  }

  /** The first request makes its room, which the second one overlooks. */
  lemma FirstRoom(reg: Registry, room: string, options: Options, a: RoomListing) returns (w: World)
    requires room in reg.handlers && reg.handlers[room].uniqueBy == [] && Overlooks(reg, room, options, a)
    ensures IsHalfway(TwoJoins(reg, room, options), w, room, options) && w.registry == reg && w.usedIds == {a.roomId}
  {
    var start := TwoJoins(reg, room, options);
    StartIsReady(reg, room, options, a);
    w := MakesRoom(start, 0, a.roomId, a, {0, 1});
    HalfwayThen(start, w, reg, room, options, a, CritCheck(Some(a.roomId)));
  }

  lemma OneMoreRoom(w: World, room: string, options: Options, b: RoomListing) returns (w': World)
    requires room in w.registry.handlers && 1 in w.tasks && w.tasks[1] == JoinRequest(w.registry, room, options) && SeesNone(w, 1)
    requires OthersSame(LockTable.Empty, w.table, Crit(0)) && IsCalm(w.table) && b.roomId !in w.usedIds
    requires IsOpen(b) && IsListingOf(w.registry, room, w.tasks[1].made, b)
    ensures Makes(w, w', {0, 1}, 1)
  {
    assert LockTable.SessionOf(w.table, Crit(1)) == LockTable.SessionOf(LockTable.Empty, Crit(1));
    w' := MakesRoom(w, 1, b.roomId, b, {0, 1});
  }

  /** The second request makes its own. */
  lemma SecondRoom(start: World, w: World, room: string, options: Options, b: RoomListing) returns (w': World)
    requires IsHalfway(start, w, room, options) && b.roomId !in w.usedIds
    requires IsOpen(b) && IsListingOf(w.registry, room, w.tasks[1].made, b)
    ensures Makes(start, w', {0, 1}, 2)
  {
    w' := OneMoreRoom(w, room, options, b);
    MakesOn(start, w, w', {0, 1}, 1, 1);
  }

  lemma SameLookup(reg: Registry, room: string, options: Options, task: Task, l: RoomListing)
    requires room in reg.handlers && Overlooks(reg, room, options, l) && task.room == room && task.options == options && task.filter == []
    ensures !Matches(reg, task, l)
  {
    var conditions := MatchConditions(reg.handlers[room], room, options);
    assert conditions + [] == conditions;
  }

  lemma TwoJoinsAreAlike(reg: Registry, room: string, options: Options)
    requires room in reg.handlers && reg.handlers[room].uniqueBy == []
    ensures Initial(TwoJoins(reg, room, options)) && Alike(TwoJoins(reg, room, options), room, options)
  {
  }

  lemma TellingScatters(reg: Registry, room: string)
    requires room in reg.handlers && reg.handlers[room].uniqueBy == [] && !SeeksWhatItMakes(reg.handlers[room])
    ensures MayScatter(reg, room)
  {
    var h, options := reg.handlers[room], Telling(reg.handlers[room]);
    TellingOverlooks(reg, room, "a");
    var w1 := FirstRoom(reg, room, options, MadeListing(h, reg, room, "a", options));
    var w := SecondRoom(TwoJoins(reg, room, options), w1, room, options, MadeListing(h, reg, room, "b", options));
    MadeTwo(reg, room, options, w);
  }

  lemma MadeTwo(reg: Registry, room: string, options: Options, w: World)
    requires room in reg.handlers && reg.handlers[room].uniqueBy == [] && Makes(TwoJoins(reg, room, options), w, {0, 1}, 2)
    ensures MayScatter(reg, room)
  {
    var start := TwoJoins(reg, room, options);
    TwoJoinsAreAlike(reg, room, options);
    assert start.tasks.Keys == {0, 1};
    var events :| Matchmaker.Run(start, events) == Some(w) && IsQuiet(events) && ListsOpen(events) && Creations(events, {0, 1}) == 2;
    assert Scatters(start, events, reg, room, options);
  }

  /**
   * Requests that ask for the same can be scattered over two open rooms exactly when the room type's
   * declaration lets a request overlook what it makes.
   */
  lemma ScatterIff(reg: Registry, room: string)
    requires room in reg.handlers && reg.handlers[room].uniqueBy == [] && SuitsAll(reg.handlers[room])
    ensures MayScatter(reg, room) <==> !SeeksWhatItMakes(reg.handlers[room])
  {
    AlwaysTakesIff(reg, room);
    if SeeksWhatItMakes(reg.handlers[room]) {
      forall start, events, options ensures !Scatters(start, events, reg, room, options) {
        NeverScatters(start, events, reg, room, options);
      }
    } else {
      TellingScatters(reg, room);
    }
  }

  /** For one: a strict type with a default for a field it filters by, asked for without options. */
  lemma DefaultScatters(reg: Registry, room: string, field: string)
    requires room in reg.handlers && reg.handlers[room].uniqueBy == [] && SuitsAll(reg.handlers[room])
    requires reg.handlers[room].strict && reg.handlers[room].filterBy == [field] && field in reg.handlers[room].defaults
    ensures MayScatter(reg, room)
  {
    assert field in reg.handlers[room].filterBy;
    ScatterIff(reg, room);
  }
}
