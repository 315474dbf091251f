/** What reservations, calls of room code, broadcasts and disposal change, field by field, and what they leave as it was. */
module RoomEffects {
  import opened Json
  import opened JsonPatch
  import opened Diff
  import opened Room
  import opened RoomInvariant
  import opened Actor
  import opened ActorRuns
  import opened HookEffects

  // ------------------------------------------------------------------
  // Reservations
  // ------------------------------------------------------------------

  /** The seats that are reserved and neither taken nor held for a reconnection. */
  ghost function OpenReservations(c: RoomContext): set<Id> { set sid | sid in c.seats && !c.seats[sid].consumed && !c.seats[sid].waiting }

  lemma OpenArePending(c: RoomContext)
    ensures OpenReservations(c) == PendingSeats(c) && Load(c) == |c.clients| + |OpenReservations(c)|
  {
  }

  /** No room for one more client. */
  ghost predicate IsFull(c: RoomContext) { c.maxClients.Some? && |c.clients| + |OpenReservations(c)| >= c.maxClients.value }

  /** What becomes of a request for a seat: it is reserved exactly when the room takes clients and `on_auth` accepts. */
  ghost predicate ReserveLeads(c: RoomContext, d: RoomContext, sid: Id, options: Json, calls: seq<Call>, auth: HookResult, expiresAt: int) {
    if c.disposing || c.locked || IsFull(c) then d == c
    else if auth.Rejected? then d == DoCalls(c, calls)
    else
      var h := DoCalls(c, calls);
      && d == h.(seats := h.seats[sid := Seat(options, auth.auth, false, false, expiresAt)], issued := h.issued + {sid}, driver := d.driver)
      && Shows(d)
  }

  /** The seat has the options, auth and deadline given. */
  lemma ReserveOutcome(c: RoomContext, sid: Id, options: Json, calls: seq<Call>, auth: HookResult, expiresAt: int)
    requires CapacityOk(c)
    ensures ReserveLeads(c, ReserveSeat(c, sid, options, calls, auth, expiresAt), sid, options, calls, auth, expiresAt)
  {
    FullIff(c);
    if !(c.disposing || c.locked || IsFull(c)) {
      match auth
      case Rejected =>
      case Accepted(data) =>
        var h := DoCalls(c, calls);
        SyncShows(h.(seats := h.seats[sid := Seat(options, data, false, false, expiresAt)], issued := h.issued + {sid}));
        assert ReserveSeat(c, sid, options, calls, auth, expiresAt)
            == SyncListing(h.(seats := h.seats[sid := Seat(options, data, false, false, expiresAt)], issued := h.issued + {sid}));
    }
  }

  lemma FullIff(c: RoomContext)
    requires CapacityOk(c)
    ensures IsFull(c) <==> HasReachedMaxClients(c)
  {
    OpenArePending(c);
    if c.maxClients.Some? { assert Load(c) % U32 == Load(c); }
  }

  // ------------------------------------------------------------------
  // The listing
  // ------------------------------------------------------------------

  /** The driver, if it lists the room, shows who is in it and how it is set. */
  ghost predicate Shows(c: RoomContext) {
    c.driver.Some? ==>
      && c.driver.value.clients == (|c.clients| + |OpenReservations(c)|) % U32
      && c.driver.value.maxClients == c.maxClients && c.driver.value.locked == c.locked
      && c.driver.value.isPrivate == c.isPrivate && c.driver.value.metadata == c.metadata
  }

  lemma SyncShows(c: RoomContext)
    ensures Shows(SyncListing(c)) && SyncListing(c) == c.(driver := SyncListing(c).driver) && (SyncListing(c).driver.Some? <==> c.driver.Some?)
  {
    OpenArePending(c);
    OpenArePending(SyncListing(c));
  }

  /** After every event of every run. */
  lemma RunsShowRoom(c: RoomContext, events: seq<Event>)
    requires MayStart(c) && PermittedRun(c, events)
    ensures var d := Run(c, events);
            && Shows(d) && (d.maxClients.Some? ==> |d.clients| + |OpenReservations(d)| <= d.maxClients.value)
            && (d.driver.Some? && d.maxClients.Some? ==> d.driver.value.clients == |d.clients| + |OpenReservations(d)|)
  {
    StartInv(c);
    RunKeepsInv(c, events);
    InvShows(Run(c, events));
  }

  lemma InvShows(d: RoomContext)
    requires ListingOk(d) && CapacityOk(d)
    ensures Shows(d) && (d.maxClients.Some? ==> |d.clients| + |OpenReservations(d)| <= d.maxClients.value)
    ensures d.driver.Some? && d.maxClients.Some? ==> d.driver.value.clients == |d.clients| + |OpenReservations(d)|
  {
    OpenArePending(d);
    if d.maxClients.Some? { assert Load(d) % U32 == Load(d); }
  }

  /** Locking and unlocking set one field, the listing follows, and nothing else changes. */
  lemma LockingOutcome(c: RoomContext)
    requires Shows(c)
    ensures var d := DoCall(c, Lock); Shows(d) && d == c.(locked := true, driver := d.driver)
    ensures var d := DoCall(c, Unlock); Shows(d) && d == c.(locked := false, driver := d.driver)
  {
    SyncShows(c.(locked := true));
    SyncShows(c.(locked := false));
  }

  /** The settings of a room: each call sets its own field, the listing follows, and nothing else changes. */
  lemma SettingsOutcome(c: RoomContext, isPrivate: bool, metadata: Json)
    requires Shows(c)
    ensures var d := DoCall(c, SetPrivate(isPrivate)); Shows(d) && d == c.(isPrivate := isPrivate, driver := d.driver)
    ensures var d := DoCall(c, SetMetadata(metadata)); Shows(d) && d == c.(metadata := Some(metadata), driver := d.driver)
  {
    SyncShows(c.(isPrivate := isPrivate));
    SyncShows(c.(metadata := Some(metadata)));
  }

  // ------------------------------------------------------------------
  // Reconnections
  // ------------------------------------------------------------------

  /** A reconnection is granted for a real, unused token: the client waits, with its deadline, and its seat is held. */
  lemma AllowOutcome(c: RoomContext, conn: Id, expiresAt: Option<int>, never: int)
    requires conn in c.conns
    ensures var d, a := Allow(c, conn, expiresAt, never), c.conns[conn];
            if c.disposing || a.token == "" || a.token in c.reconnections then d == c
            else
              d == c.(conns := c.conns[conn := a.(state := Reconnecting)],
                      reconnections := c.reconnections[a.token := Reconnection(a.sessionId, conn, expiresAt)],
                      seats := c.seats[a.sessionId := Seat(Null, a.auth, false, true, if expiresAt.Some? then expiresAt.value else never)])
  {
  }

  /** A session is forgotten: its clients, entries, seat and view go, everybody else's stay. */
  lemma ForgetOutcome(c: RoomContext, sid: Id)
    ensures var d := Forget(c, sid);
            && Shows(d) && d.conns == c.conns && d.seats == c.seats - {sid} && d.views == c.views - {sid}
            && (forall i :: i in d.clients <==> i in c.clients && Session(c, i) != sid)
            && (forall t :: t in d.reconnections <==> t in c.reconnections && c.reconnections[t].sessionId != sid)
            && (forall t :: t in d.reconnections ==> d.reconnections[t] == c.reconnections[t])
            && d.slot == c.slot && d.left == c.left && d.locked == c.locked
  {
    SyncShows(Without(c, sid));
  }

  // ------------------------------------------------------------------
  // Broadcasts
  // ------------------------------------------------------------------

  /** A listed client that has joined gets at most one patch; nobody else's handle changes. */
  ghost predicate OnePatchAtMost(a: Client, b: Client, listed: bool) {
    b == a || (listed && a.IsJoined() && exists p :: b == a.(outbox := a.outbox + [Bytes(PatchFrame(p))]))
  }

  lemma HoldViewOnce(c: RoomContext, conn: Id, held: Json, view: Json, ops: seq<PatchOp>, i: Id)
    requires conn in c.conns && c.conns[conn].IsJoined() && i in c.conns
    ensures var d := HoldView(c, conn, held, view, ops);
            && i in d.conns && d.clients == c.clients && d.slot == c.slot && d.filter == c.filter
            && OnePatchAtMost(c.conns[i], d.conns[i], i == conn)
  {
    HoldViewHandles(c, conn, held, view, ops);
    PatchedOnce(c.conns[conn], c.conns[conn].RawNow(PatchFrame(ops)), ops);
  }

  lemma PatchedOnce(a: Client, b: Client, ops: seq<PatchOp>)
    requires a.IsJoined() && b == a.(outbox := a.outbox + [Bytes(PatchFrame(ops))])
    ensures OnePatchAtMost(a, b, true)
  {
  }

  lemma PatchViewOnce(c: RoomContext, conn: Id, i: Id)
    requires c.slot.Some? && c.filter.Some? && i in c.conns
    ensures var d := PatchView(c, conn);
            && i in d.conns && d.clients == c.clients && d.slot == c.slot && d.filter == c.filter
            && OnePatchAtMost(c.conns[i], d.conns[i], i == conn)
  {
    if conn in c.conns && c.conns[conn].IsJoined() {
      var client := c.conns[conn];
      var view := c.filter.value(c.slot.value.typed, client.Info());
      var held := if client.sessionId in c.views then c.views[client.sessionId] else view;
      HoldViewOnce(c, conn, held, view, DiffPatch(held, view), i);
    }
  }

  lemma {:induction false} PatchViewsOnce(c: RoomContext, list: seq<Id>, i: Id)
    requires c.slot.Some? && c.filter.Some? && i in c.conns && Distinct(list)
    ensures var d := PatchViews(c, list);
            i in d.conns && d.clients == c.clients && d.slot == c.slot && OnePatchAtMost(c.conns[i], d.conns[i], i in list)
    decreases |list|
  {
    if list != [] {
      PatchViewOnce(c, list[0], i);
      assert list == [list[0]] + list[1..] && list[0] !in list[1..];
      PatchViewsOnce(PatchView(c, list[0]), list[1..], i);
    }
  }

  /** A broadcast touches only listed clients that have joined, and queues one patch to each at most. */
  lemma BroadcastOutcome(c: RoomContext, i: Id)
    requires Distinct(c.clients) && i in c.conns
    ensures var d := BroadcastPatch(c);
            i in d.conns && d.clients == c.clients && OnePatchAtMost(c.conns[i], d.conns[i], i in c.clients)
  {
    if c.slot.Some? && c.filter.Some? {
      PatchViewsOnce(c, c.clients, i);
    } else if c.slot.Some? {
      SharedOnce(c, SlotDiff(c.slot.value).0, SlotDiff(c.slot.value).1, i);
    }
  }

  lemma SharedOnce(c: RoomContext, slot: StateSlot, patch: Option<seq<PatchOp>>, i: Id)
    requires Distinct(c.clients) && i in c.conns
    ensures var d := SendShared(c, slot, patch);
            i in d.conns && d.clients == c.clients && OnePatchAtMost(c.conns[i], d.conns[i], i in c.clients)
  {
    if patch.Some? {
      ToJoinedOnce(c.conns, c.clients, PatchFrame(patch.value), i);
      assert c.conns[i].RawNow(PatchFrame(patch.value)) == c.conns[i].(outbox := c.conns[i].outbox + [Bytes(PatchFrame(patch.value))]);
    }
  }

  // ------------------------------------------------------------------
  // Disposal
  // ------------------------------------------------------------------

  lemma {:induction false} CloseAllCloses(conns: map<Id, Client>, list: seq<Id>, code: nat, i: Id)
    requires Distinct(list) && i in conns
    ensures i in CloseAll(conns, list, code)
    ensures CloseAll(conns, list, code)[i] ==
              if i in list then conns[i].(state := Leaving, outbox := conns[i].outbox + [Close(code)]) else conns[i]
    decreases |list|
  {
    if list != [] {
      assert list == [list[0]] + list[1..] && list[0] !in list[1..];
      var next := if list[0] in conns then conns[list[0] := conns[list[0]].(state := Closed).Leave(code)] else conns;
      CloseAllCloses(next, list[1..], code, i);
    }
  }

  /**
   * A room is disposed once: everybody listed is closed with the code, once, before `on_dispose` runs on
   * an empty room, and the driver no longer lists it.
   */
  lemma DisposeOutcome(c: RoomContext, code: nat, calls: seq<Call>) returns (h: RoomContext)
    requires Distinct(c.clients) && !c.disposing
    ensures Dispose(c, code, calls) == DoCalls(h, calls).(driver := None)
    ensures h == c.(disposing := true, requestDispose := None, clients := [], seats := map[], reconnections := map[], conns := h.conns)
    ensures forall i :: i in c.conns ==>
              && i in h.conns
              && h.conns[i] == if i in c.clients then c.conns[i].(state := Leaving, outbox := c.conns[i].outbox + [Close(code)]) else c.conns[i]
  {
    h := c.(disposing := true, requestDispose := None, clients := [], seats := map[], reconnections := map[],
            conns := CloseAll(c.conns, c.clients, code));
    forall i | i in c.conns
      ensures i in h.conns
      ensures h.conns[i] == if i in c.clients then c.conns[i].(state := Leaving, outbox := c.conns[i].outbox + [Close(code)]) else c.conns[i]
    {
      CloseAllCloses(c.conns, c.clients, code, i);
    }
  }

  lemma DisposedOnce(c: RoomContext, code: nat, calls: seq<Call>)
    requires c.disposing
    ensures Dispose(c, code, calls) == c
  {
  }
}
