/**
 * What `join_or_create`, `create` and `create_room` answer: which room a request gets its seat in, why a
 * request that finds a room makes none, and that requests of one criteria lock make one room together.
 */
module JoinOrCreate {
  import opened Json
  import opened LockTable
  import opened Query
  import opened Handlers
  import opened Matchmaker

  type Happening = Matchmaker.Event

  // ------------------------------------------------------------------
  // Lookups
  // ------------------------------------------------------------------

  /** On its way to reserve a seat in this room, releasing its criteria lock first if it holds it. */
  predicate HeadsFor(pc: Pc, r: RoomId) {
    pc == CritUnlock(Some(r)) || pc == CritCheck(Some(r)) || pc == CritRemove(Some(r)) || pc == CritDrop(Some(r)) || pc == Reserve(r)
  }

  /** On its way to an error, releasing its criteria lock. */
  predicate GivesUp(pc: Pc) {
    pc == CritUnlock(None) || pc == CritCheck(None) || pc == CritRemove(None) || pc == CritDrop(None) || pc == Done(NoSeat)
  }

  /** A lookup that finds a room, before the criteria lock or under it, ends the search. */
  lemma FoundOutcome(w: World, t: nat, r: RoomId)
    requires CanGo(w, t, Lookup(Some(r))) && (w.tasks[t].pc.FindMatch? || w.tasks[t].pc.Recheck?)
    ensures HeadsFor(GoStep(w, t, Lookup(Some(r))).tasks[t].pc, r)
  {
  }

  /** One that finds none leads to the lock, and under it to the creation. */
  lemma NotFoundOutcome(w: World, t: nat)
    requires CanGo(w, t, Lookup(None)) && (w.tasks[t].pc.FindMatch? || w.tasks[t].pc.Recheck?)
    ensures GoStep(w, t, Lookup(None)).tasks[t].pc ==
              if w.tasks[t].pc.FindMatch? then CritCreate else if w.tasks[t].unique.Some? then UniqCreate else Spawn
  {
  }

  /** A room reused for its unique key gets the seat only if the criteria still lead to it. */
  lemma ConfirmOutcome(w: World, t: nat, r: RoomId, found: Option<RoomId>)
    requires CanGo(w, t, Lookup(found)) && w.tasks[t].pc == Confirm(r)
    ensures var pc := GoStep(w, t, Lookup(found)).tasks[t].pc; if found == Some(r) then HeadsFor(pc, r) else GivesUp(pc)
  {
  }

  predicate IsReply(e: Happening, t: nat) { e.Go? && e.task == t && e.choice.SeatReply? }

  predicate IsCreation(e: Happening, t: nat) { e.Go? && e.task == t && (e.choice.NewRoom? || e.choice.Listed?) }

  lemma StepsTo(w: World, t: nat, choice: Choice)
    requires CanGo(w, t, choice)
    ensures GoStep(w, t, choice).tasks == w.tasks[t := GoStep(w, t, choice).tasks[t]]
    ensures GoStep(w, t, choice).tasks[t].pc == NextPc(w, t, GoStep(w, t, choice).table, choice)
  {
  }

  lemma HeadsNext(w: World, t: nat, choice: Choice, table: Table, r: RoomId)
    requires t in w.tasks && HasShape(w.tasks[t].pc, choice) && HeadsFor(w.tasks[t].pc, r) && !choice.SeatReply?
    ensures HeadsFor(NextPc(w, t, table, choice), r) && !choice.NewRoom? && !choice.Listed?
  {
  }

  lemma HeadsOn(w: World, e: Happening, t: nat, r: RoomId)
    requires Possible(w, e) && t in w.tasks && HeadsFor(w.tasks[t].pc, r) && e != Cancel(t) && !IsReply(e, t)
    ensures t in Happen(w, e).tasks && HeadsFor(Happen(w, e).tasks[t].pc, r) && !IsCreation(e, t)
  {
    if e.Go? {
      StepsTo(w, e.task, e.choice);
      if e.task == t { HeadsNext(w, t, e.choice, GoStep(w, t, e.choice).table, r); }
    }
  }

  /** Whoever found a room makes none: until its seat is answered, it only goes on to reserve one there. */
  lemma {:induction false} FoundNeverCreates(w: World, events: seq<Happening>, t: nat, r: RoomId)
    requires Matchmaker.Run(w, events).Some? && t in w.tasks && HeadsFor(w.tasks[t].pc, r)
    requires forall k :: 0 <= k < |events| ==> events[k] != Cancel(t) && !IsReply(events[k], t)
    ensures var w' := Matchmaker.Run(w, events).value; t in w'.tasks && HeadsFor(w'.tasks[t].pc, r)
    ensures forall k :: 0 <= k < |events| ==> !IsCreation(events[k], t)
    decreases |events|
  {
    if events != [] {
      HeadsOn(w, events[0], t, r);
      FoundNeverCreates(Happen(w, events[0]), events[1..], t, r);
      assert forall k :: 0 < k < |events| ==> events[k] == events[1..][k - 1];
    }
  }

  lemma GivesUpNext(w: World, t: nat, choice: Choice, table: Table)
    requires t in w.tasks && HasShape(w.tasks[t].pc, choice) && GivesUp(w.tasks[t].pc)
    ensures GivesUp(NextPc(w, t, table, choice)) && choice.Proceed?
  {
  }

  lemma GivesUpOn(w: World, e: Happening, t: nat)
    requires Possible(w, e) && t in w.tasks && GivesUp(w.tasks[t].pc) && e != Cancel(t)
    ensures t in Happen(w, e).tasks && GivesUp(Happen(w, e).tasks[t].pc) && !IsReply(e, t) && !IsCreation(e, t)
  {
    if e.Go? {
      StepsTo(w, e.task, e.choice);
      if e.task == t { GivesUpNext(w, t, e.choice, GoStep(w, t, e.choice).table); }
    }
  }

  /** Whoever gives up asks for no seat and makes no room. */
  lemma {:induction false} GivingUpEnds(w: World, events: seq<Happening>, t: nat)
    requires Matchmaker.Run(w, events).Some? && t in w.tasks && GivesUp(w.tasks[t].pc)
    requires forall k :: 0 <= k < |events| ==> events[k] != Cancel(t)
    ensures var w' := Matchmaker.Run(w, events).value; t in w'.tasks && GivesUp(w'.tasks[t].pc)
    ensures forall k :: 0 <= k < |events| ==> !IsReply(events[k], t) && !IsCreation(events[k], t)
    decreases |events|
  {
    if events != [] {
      GivesUpOn(w, events[0], t);
      GivingUpEnds(Happen(w, events[0]), events[1..], t);
      assert forall k :: 0 < k < |events| ==> events[k] == events[1..][k - 1];
    }
  }

  // ------------------------------------------------------------------
  // Answers
  // ------------------------------------------------------------------

  /** What a request ends with, or does next, when its seat is answered: only a refusal is tried again, and only by `join_or_create`. */
  lemma ReplyOutcome(w: World, t: nat, r: RoomId, reply: Reply)
    requires CanGo(w, t, SeatReply(reply)) && w.tasks[t].pc == Reserve(r)
    ensures GoStep(w, t, SeatReply(reply)).tasks[t] == w.tasks[t].(
              pc := if reply.Granted? then Done(Seated(r))
                    else if reply.Refused? && w.tasks[t].criteria.Some? && w.tasks[t].attempts > 1 then FindMatch
                    else Done(NoSeat),
              attempts := if reply.Refused? && w.tasks[t].criteria.Some? && w.tasks[t].attempts > 1 then w.tasks[t].attempts - 1
                          else w.tasks[t].attempts)
    ensures GoStep(w, t, SeatReply(reply)).listings == if r in w.rooms then w.listings else w.listings - {r}
  {
  }

  /** `create_room_inner` returns: an error ends the request; otherwise its room is confirmed, reserved or given. */
  lemma ReturnOutcome(w: World, t: nat, o: Outcome)
    requires CanGo(w, t, Proceed) && w.tasks[t].pc == Return(o)
    ensures var pc, task := GoStep(w, t, Proceed).tasks[t].pc, w.tasks[t];
            && (o.Failed? ==> pc == Done(NoSeat))
            && (!o.Failed? && task.criteria.None? ==> pc == if task.reserves then Reserve(o.room) else Done(Given(o)))
            && (o.Created? && task.criteria.Some? ==> HeadsFor(pc, o.room))
            && (o.Reused? && task.criteria.Some? ==> pc == Confirm(o.room))
  {
  }

  // ------------------------------------------------------------------
  // Looking for a live room, and making one
  // ------------------------------------------------------------------

  /** How many listings in front name rooms that are gone. */
  function Stale(found: seq<RoomId>, rooms: set<RoomId>): (n: nat)
    ensures n <= |found| && (forall i :: 0 <= i < n ==> found[i] !in rooms) && (n < |found| ==> found[n] in rooms)
  {
    if found == [] || found[0] in rooms then 0 else 1 + Stale(found[1..], rooms)
  }

  lemma PruneStep(w: World, t: nat, found: seq<RoomId>) returns (w': World)
    requires t in w.tasks && w.tasks[t].pc == Check(found) && found != [] && found[0] !in w.rooms
    ensures Leads(w, w') && w' == w.(tasks := w.tasks[t := w.tasks[t].(pc := Check(found[1..]))], listings := w.listings - {found[0]})
  {
    var w1 := GoStep(w, t, Proceed);
    LeadsStep(w, t, Proceed);
    assert w1 == w.(tasks := w.tasks[t := w.tasks[t].(pc := Prune(found))]);
    w' := GoStep(w1, t, Proceed);
    LeadsStep(w1, t, Proceed);
    LeadsOn(w, w1, w');
    assert w'.tasks == w.tasks[t := w.tasks[t].(pc := Check(found[1..]))];
  }

  /** Undisturbed, `find_live` drops the listings in front whose rooms are gone, and takes the first room that is there. */
  lemma {:induction false} FindLiveOutcome(w: World, t: nat, found: seq<RoomId>) returns (w': World)
    requires t in w.tasks && w.tasks[t].pc == Check(found) && w.tasks[t].unique.Some?
    ensures Leads(w, w')
    ensures var n := Stale(found, w.rooms);
            w' == w.(tasks := w.tasks[t := w.tasks[t].(pc := if n < |found| then UniqUnlock(Reused(found[n])) else Spawn)],
                     listings := w.listings - (set i | 0 <= i < n :: found[i]))
    decreases |found|
  {
    if found == [] || found[0] in w.rooms {
      w' := GoStep(w, t, Proceed);
      LeadsStep(w, t, Proceed);
      assert w.listings - {} == w.listings;
    } else {
      var w1 := PruneStep(w, t, found);
      w' := FindLiveOutcome(w1, t, found[1..]);
      LeadsOn(w, w1, w');
      PrunedTogether(w.listings, found, w.rooms);
      assert w'.tasks == w.tasks[t := w'.tasks[t]];
    }
  }

  lemma PrunedTogether(listings: map<RoomId, RoomListing>, found: seq<RoomId>, rooms: set<RoomId>)
    requires found != [] && found[0] !in rooms
    ensures var n, m := Stale(found, rooms), Stale(found[1..], rooms);
            n == m + 1 && listings - {found[0]} - (set i | 0 <= i < m :: found[1..][i]) == listings - (set i | 0 <= i < n :: found[i])
  {
    var n, m := Stale(found, rooms), Stale(found[1..], rooms);
    var all, later := set i | 0 <= i < n :: found[i], set i | 0 <= i < m :: found[1..][i];
    forall r | r in all ensures r in {found[0]} + later {
      var i :| 0 <= i < n && found[i] == r;
      if i > 0 { assert found[1..][i - 1] == r; }
    }
    forall r | r in later ensures r in all {
      var i :| 0 <= i < m && found[1..][i] == r;
      assert found[i + 1] == r;
    }
    assert all == {found[0]} + later;
  }

  /** A new room goes into the room map first and into the driver then, and the request that made it goes for it. */
  lemma CreationOutcome(w: World, t: nat, r: RoomId, l: RoomListing)
    requires t in w.tasks && w.tasks[t].pc == PutRoom(r) && l.roomId == r && IsListingOf(w.registry, w.tasks[t].room, w.tasks[t].made, l)
    ensures CanGo(w, t, Proceed)
    ensures var w1 := GoStep(w, t, Proceed);
            && w1 == w.(tasks := w1.tasks, rooms := w.rooms + {r}) && CanGo(w1, t, Listed(l))
            && var w2 := GoStep(w1, t, Listed(l));
               && w2 == w1.(tasks := w2.tasks, listings := w.listings[r := l], everListed := w.everListed + {r})
               && OutcomeOf(w2.tasks[t].pc) == Some(Created(r))
  {
  }

  // ------------------------------------------------------------------
  // Why a request is seated where it is
  // ------------------------------------------------------------------

  function OutcomeOf(pc: Pc): Option<Outcome> {
    match pc
    case UniqUnlock(o) => Some(o)
    case UniqCheck(o) => Some(o)
    case UniqRemove(o) => Some(o)
    case UniqDrop(o) => Some(o)
    case Return(o) => Some(o)
    case _ => None
  }

  /** The step makes this room the one that the request goes for: by a lookup, or by making it, or, without criteria, by its key. */
  ghost predicate Picks(w: World, e: Happening, t: nat, r: RoomId) {
    && e.Go? && e.task == t && t in w.tasks
    && (|| e.choice == Lookup(Some(r))
        || (e.choice.Listed? && w.tasks[t].pc == PutListing(r))
        || (w.tasks[t].criteria.None? && w.tasks[t].pc.Check? && w.tasks[t].pc.found != [] && w.tasks[t].pc.found[0] == r && r in w.rooms))
  }

  /** The request goes for this room. */
  predicate GoesFor(task: Task, r: RoomId) {
    || HeadsFor(task.pc, r) || task.pc == Done(Seated(r))
    || OutcomeOf(task.pc) == Some(Created(r)) || (task.criteria.None? && OutcomeOf(task.pc) == Some(Reused(r)))
  }

  /** A request that goes for a room after a step went for it before, or has just picked it. */
  lemma GoesForBefore(w: World, e: Happening, t: nat, r: RoomId)
    requires Possible(w, e) && t in w.tasks && GoesFor(Happen(w, e).tasks[t], r)
    ensures GoesFor(w.tasks[t], r) || Picks(w, e, t, r)
  {
    if e.Go? {
      StepsTo(w, e.task, e.choice);
      if e.task == t { GoesForNext(w, t, e.choice, GoStep(w, t, e.choice).table, r); }
    }
  }

  lemma GoesForNext(w: World, t: nat, choice: Choice, table: Table, r: RoomId)
    requires t in w.tasks && HasShape(w.tasks[t].pc, choice) && GoesFor(w.tasks[t].(pc := NextPc(w, t, table, choice)), r)
    ensures GoesFor(w.tasks[t], r) || Picks(w, Go(t, choice), t, r)
  {
    var pc := NextPc(w, t, table, choice);
    if HeadsFor(pc, r) { HeadsForBefore(w, t, choice, table, pc, r); }
    else if pc == Done(Seated(r)) { SeatedBefore(w, t, choice, table, pc, r); }
    else { OutcomeBefore(w, t, choice, table, pc, OutcomeOf(pc).value); }
  }

  lemma HeadsForBefore(w: World, t: nat, choice: Choice, table: Table, pc: Pc, r: RoomId)
    requires t in w.tasks && HasShape(w.tasks[t].pc, choice) && pc == NextPc(w, t, table, choice) && HeadsFor(pc, r)
    ensures HeadsFor(w.tasks[t].pc, r) || choice == Lookup(Some(r)) || w.tasks[t].pc == Return(Created(r))
            || (w.tasks[t].criteria.None? && w.tasks[t].pc == Return(Reused(r)))
  {
  }

  lemma SeatedBefore(w: World, t: nat, choice: Choice, table: Table, pc: Pc, r: RoomId)
    requires t in w.tasks && HasShape(w.tasks[t].pc, choice) && pc == NextPc(w, t, table, choice) && pc == Done(Seated(r))
    ensures w.tasks[t].pc == Reserve(r)
  {
  }

  lemma OutcomeBefore(w: World, t: nat, choice: Choice, table: Table, pc: Pc, o: Outcome)
    requires t in w.tasks && HasShape(w.tasks[t].pc, choice) && pc == NextPc(w, t, table, choice) && OutcomeOf(pc) == Some(o) && !o.Failed?
    ensures OutcomeOf(w.tasks[t].pc) == Some(o) || (w.tasks[t].pc.PutListing? && o == Created(w.tasks[t].pc.room))
            || (w.tasks[t].pc.Check? && w.tasks[t].pc.found != [] && w.tasks[t].pc.found[0] in w.rooms && o == Reused(w.tasks[t].pc.found[0]))
  {
  }

  ghost predicate PicksAt(w: World, events: seq<Happening>, k: int, t: nat, r: RoomId) {
    0 <= k < |events| && Matchmaker.Run(w, events[..k]).Some? && Picks(Matchmaker.Run(w, events[..k]).value, events[k], t, r)
  }

  ghost predicate GrantedAt(w: World, events: seq<Happening>, k: int, t: nat, r: RoomId) {
    && 0 <= k < |events| && Matchmaker.Run(w, events[..k]).Some? && events[k] == Go(t, SeatReply(Granted))
    && t in Matchmaker.Run(w, events[..k]).value.tasks && Matchmaker.Run(w, events[..k]).value.tasks[t].pc == Reserve(r)
  }

  lemma {:induction false} RunInit(w: World, events: seq<Happening>)
    requires events != [] && Matchmaker.Run(w, events).Some?
    ensures var n := |events| - 1;
            && Matchmaker.Run(w, events[..n]).Some? && Possible(Matchmaker.Run(w, events[..n]).value, events[n])
            && Matchmaker.Run(w, events).value == Happen(Matchmaker.Run(w, events[..n]).value, events[n])
    decreases |events|
  {
    var n := |events| - 1;
    if n == 0 {
      assert events[..0] == [] && events[1..] == [];
    } else {
      assert events[1..][..n - 1] == events[..n][1..] && events[..n][0] == events[0];
      RunInit(Happen(w, events[0]), events[1..]);
    }
  }

  lemma LaterPrefix(w: World, events: seq<Happening>, n: nat, k: int)
    requires 0 <= k < n <= |events|
    ensures events[..n][..k] == events[..k]
  {
  }

  /** In any run from the start, a request goes for a room only because it picked it. */
  lemma {:induction false} GoesForMeansPicked(w: World, events: seq<Happening>, t: nat, r: RoomId)
    requires Initial(w) && Matchmaker.Run(w, events).Some? && t in Matchmaker.Run(w, events).value.tasks
    requires GoesFor(Matchmaker.Run(w, events).value.tasks[t], r)
    ensures exists k :: PicksAt(w, events, k, t, r)
    decreases |events|
  {
    if events != [] {
      var n := |events| - 1;
      RunInit(w, events);
      var before := Matchmaker.Run(w, events[..n]).value;
      GoesForBefore(before, events[n], t, r);
      if Picks(before, events[n], t, r) {
        assert PicksAt(w, events, n, t, r);
      } else {
        GoesForMeansPicked(w, events[..n], t, r);
        var k :| PicksAt(w, events[..n], k, t, r);
        LaterPrefix(w, events, n, k);
        assert PicksAt(w, events, k, t, r);
      }
    }
  }

  /** A seat is what the room granted, and the room is one that the request picked before. */
  lemma {:induction false} SeatedMeans(w: World, events: seq<Happening>, t: nat, r: RoomId) returns (k: int, j: int)
    requires Initial(w) && Matchmaker.Run(w, events).Some? && t in Matchmaker.Run(w, events).value.tasks
    requires Matchmaker.Run(w, events).value.tasks[t].pc == Done(Seated(r))
    ensures PicksAt(w, events, j, t, r) && j < k && GrantedAt(w, events, k, t, r)
    decreases |events|
  {
    assert events != [];
    var n := |events| - 1;
    RunInit(w, events);
    var before := Matchmaker.Run(w, events[..n]).value;
    if before.tasks[t].pc == Done(Seated(r)) {
      k, j := SeatedMeans(w, events[..n], t, r);
      LaterPrefix(w, events, n, k);
      LaterPrefix(w, events, n, j);
    } else {
      SeatedByReply(before, events[n], t, r);
      k := n;
      GoesForMeansPicked(w, events[..n], t, r);
      j :| PicksAt(w, events[..n], j, t, r);
      LaterPrefix(w, events, n, j);
    }
  }

  lemma SeatedByReply(w: World, e: Happening, t: nat, r: RoomId)
    requires Possible(w, e) && t in w.tasks && w.tasks[t].pc != Done(Seated(r)) && Happen(w, e).tasks[t].pc == Done(Seated(r))
    ensures e == Go(t, SeatReply(Granted)) && w.tasks[t].pc == Reserve(r)
  {
    if e.Go? {
      StepsTo(w, e.task, e.choice);
      if e.task == t { SeatedNext(w, t, e.choice, GoStep(w, t, e.choice).table, r); }
    }
  }

  lemma SeatedNext(w: World, t: nat, choice: Choice, table: Table, r: RoomId)
    requires t in w.tasks && HasShape(w.tasks[t].pc, choice) && NextPc(w, t, table, choice) == Done(Seated(r))
    ensures choice == SeatReply(Granted) && w.tasks[t].pc == Reserve(r)
  {
  }
}
