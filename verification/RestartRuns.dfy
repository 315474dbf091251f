/** Runs that begin in a restored room: everything proved of runs holds after a restart as well. */
module RestartRuns {
  import opened Json
  import opened Room
  import opened RoomInvariant
  import opened Actor
  import opened ActorRuns
  import opened Sync
  import opened SyncRuns
  import opened Snapshot
  import opened Restart

  lemma {:induction false} EntriesKeepSlot(c: RoomContext, rs: seq<PersistedReconnection>, conns: seq<Id>, now: int, far: int)
    requires |conns| == |rs|
    ensures RestoreEntries(c, rs, conns, now, far).slot == c.slot
    decreases |rs|
  {
    if rs != [] { EntriesKeepSlot(c, rs[..|rs| - 1], conns[..|rs| - 1], now, far); }
  }

  lemma {:induction false} SeatsKeepSlot(c: RoomContext, ss: seq<PersistedSeat>, now: int)
    ensures RestoreSeats(c, ss, now).slot == c.slot
    decreases |ss|
  {
    if ss != [] { SeatsKeepSlot(c, ss[..|ss| - 1], now); }
  }

  /** Every handle of the restored room is an orphan: not joined, nothing pending. */
  lemma RebuiltAreOrphans(c: RoomContext, rs: seq<PersistedReconnection>, owners: seq<Id>, d: RoomContext, conns: seq<Id>, now: int, restored: int)
    requires Rebuilt(c, rs, owners, d, conns, now, restored)
    ensures forall i :: i in d.conns ==> !d.conns[i].IsJoined() && d.conns[i].pending == []
  {
    forall i | i in d.conns ensures !d.conns[i].IsJoined() && d.conns[i].pending == [] {
      var k := IndexOf(conns, i);
      assert EntryIn(d, rs[k], conns[k], restored);
    }
  }

  lemma OrphansInSync(d: RoomContext)
    requires d.slot.Some? && forall i :: i in d.conns ==> !d.conns[i].IsJoined() && d.conns[i].pending == []
    ensures SyncOk(d)
  {
  }

  lemma RestoringKeepsSlot(blank: RoomContext, s: RoomSnapshot, conns: seq<Id>, now: int, far: int)
    requires |conns| == |s.reconnections|
    ensures Restored(blank, s, conns, now, far).slot == blank.slot
  {
    EntriesKeepSlot(Clear(blank, s), s.reconnections, conns, now, far);
    SeatsKeepSlot(RestoreEntries(Clear(blank, s), s.reconnections, conns, now, far), s.seats, now);
  }

  /** A restored room is a place where runs may start, in sync when `on_restore` set the state. */
  lemma RestoredMayStart(c: RoomContext, tokens: seq<Id>, sids: seq<Id>, blank: RoomContext, conns: seq<Id>, now: int, restored: int, far: int)
    requires Restarts(c, tokens, sids, blank, conns)
    ensures var d := Restored(blank, Take(c, tokens, sids, now), conns, restored, far);
            MayStart(d) && (blank.slot.Some? ==> StartsSynced(d))
  {
    var s := Take(c, tokens, sids, now);
    var d := Restored(blank, s, conns, restored, far);
    var owners := RestartRebuilds(c, tokens, sids, blank, conns, now, restored, far);
    RebuiltAreOrphans(c, s.reconnections, owners, d, conns, now, restored);
    RestartKeepsInv(c, tokens, sids, blank, conns, now, restored, far);
    RestoringKeepsSlot(blank, s, conns, restored, far);
    if blank.slot.Some? { OrphansInSync(d); }
  }

  /** Invariant and replicas in every run after a restart, whatever run led to the snapshot. */
  lemma RunsAfterRestart(start: RoomContext, before: seq<Event>, tokens: seq<Id>, sids: seq<Id>, blank: RoomContext, conns: seq<Id>,
                         now: int, restored: int, far: int, events: seq<Event>)
    requires MayStart(start) && PermittedRun(start, before)
    requires Restarts(Run(start, before), tokens, sids, blank, conns)
    requires PermittedRun(Restored(blank, Take(Run(start, before), tokens, sids, now), conns, restored, far), events)
    ensures var d := Restored(blank, Take(Run(start, before), tokens, sids, now), conns, restored, far);
            && Inv(Run(d, events), None, None)
            && (blank.slot.Some? && SyncedRun(d, events) ==> SyncOk(Run(d, events)))
  {
    var c := Run(start, before);
    var d := Restored(blank, Take(c, tokens, sids, now), conns, restored, far);
    RestoredMayStart(c, tokens, sids, blank, conns, now, restored, far);
    StartInv(d);
    RunKeepsInv(d, events);
    if blank.slot.Some? && SyncedRun(d, events) { RunKeepsSync(d, events); }
  }
}
