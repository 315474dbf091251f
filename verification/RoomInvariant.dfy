/** What every hook call keeps: the invariant of seats, clients, tokens, capacity and listing. */
module RoomInvariant {
  import opened Json
  import opened JsonPatch
  import opened Diff
  import opened Room

  // ------------------------------------------------------------------
  // The invariant
  // ------------------------------------------------------------------

  /** Listed handles exist, and no two of them serve one session. */
  ghost predicate ClientsOk(c: RoomContext) {
    && Distinct(c.clients)
    && (forall i :: i in c.clients ==> i in c.conns && Session(c, i) in c.issued)
    && (forall i, j :: i in c.clients && j in c.clients && Session(c, i) == Session(c, j) ==> i == j)
  }

  /** Tokens were generated, and no two listed clients hold the same one. */
  ghost predicate TokensOk(c: RoomContext) {
    && (forall i :: i in c.conns ==> Token(c, i) == "" || Token(c, i) in c.issued)
    && (forall i, j :: i in c.clients && j in c.clients && Token(c, i) == Token(c, j) != "" ==> i == j)
  }

  /** Whoever has joined was given a token to come back with. */
  ghost predicate JoinedOk(c: RoomContext) {
    forall i :: i in c.conns && c.conns[i].IsJoined() ==> c.conns[i].token != ""
  }

  /** A reconnection entry names a listed client by its own token, and holds its seat. */
  ghost predicate EntryOk(c: RoomContext, t: Id)
    requires t in c.reconnections
  {
    var e := c.reconnections[t];
    && t != "" && e.conn in c.clients && Token(c, e.conn) == t && Session(c, e.conn) == e.sessionId
    && e.sessionId in c.seats && c.seats[e.sessionId].waiting
  }

  ghost predicate EntriesOk(c: RoomContext) {
    forall t :: t in c.reconnections ==> EntryOk(c, t)
  }

  /** Every seat held for a reconnection has its entry. */
  ghost predicate WaitingOk(c: RoomContext) {
    forall sid :: sid in c.seats && c.seats[sid].waiting ==> HasEntry(c, sid)
  }

  ghost predicate HasEntry(c: RoomContext, sid: Id) {
    exists t :: t in c.reconnections && c.reconnections[t].sessionId == sid
  }

  /**
   * A pending seat names nobody who is listed. `tomb` is the session whose `on_join` is running:
   * only its seat may be consumed, and its client has no token yet.
   */
  ghost predicate SeatsOk(c: RoomContext, tomb: Option<Id>) {
    && (forall sid :: sid in c.seats ==> sid in c.issued)
    && (forall sid :: sid in c.seats && c.seats[sid].consumed ==> tomb == Some(sid) && !c.seats[sid].waiting)
    && (forall sid, i :: sid in c.seats && IsPending(c.seats[sid]) && i in c.clients ==> Session(c, i) != sid)
    && (forall i :: i in c.clients && tomb == Some(Session(c, i)) ==> Token(c, i) == "")
  }

  /**
   * `on_leave` ran at most once per session, and a session it ran for is gone: `leaving` is the
   * one whose `on_leave` is running. An accepted token is spent for good.
   */
  ghost predicate HistoryOk(c: RoomContext, leaving: Option<Id>) {
    && Distinct(c.left) && Distinct(c.accepted)
    && (forall s :: s in c.left ==> s in c.issued && s !in c.seats)
    && (forall i :: i in c.clients && Session(c, i) in c.left ==> leaving == Some(Session(c, i)))
    && (forall t :: t in c.accepted ==> t in c.issued && t != "")
    && (forall i :: i in c.clients ==> Token(c, i) !in c.accepted)
  }

  /** Clients and pending seats stay within the limit. */
  ghost predicate CapacityOk(c: RoomContext) {
    c.maxClients.Some? ==> c.maxClients.value < U32 && Load(c) <= c.maxClients.value
  }

  /** The driver shows the room as it is. */
  ghost predicate ListingOk(c: RoomContext) {
    c.driver.Some? ==> c.driver.value == BuildListing(c)
  }

  ghost predicate Inv(c: RoomContext, tomb: Option<Id>, leaving: Option<Id>) {
    && ClientsOk(c) && TokensOk(c) && JoinedOk(c) && EntriesOk(c) && WaitingOk(c)
    && SeatsOk(c, tomb) && HistoryOk(c, leaving) && CapacityOk(c) && ListingOk(c)
  }

  /** One-to-one: a held session has exactly one entry, under exactly one token. */
  lemma OneEntryPerSession(c: RoomContext, t: Id, u: Id)
    requires ClientsOk(c) && EntriesOk(c)
    requires t in c.reconnections && u in c.reconnections
    requires c.reconnections[t].sessionId == c.reconnections[u].sessionId
    ensures t == u
  {
    assert EntryOk(c, t) && EntryOk(c, u);
  }

  // ------------------------------------------------------------------
  // Calls that leave clients, seats and entries alone
  // ------------------------------------------------------------------

  /** A handle keeps its session and token, and does not become joined without one. */
  ghost predicate SameHandle(a: Client, b: Client) {
    a.sessionId == b.sessionId && a.token == b.token && (b.IsJoined() ==> a.IsJoined() || b.token != "")
  }

  /** Only the state, data and queues of handles may differ. */
  ghost predicate SameHandles(a: map<Id, Client>, b: map<Id, Client>) {
    a.Keys == b.Keys && forall i :: i in a ==> SameHandle(a[i], b[i])
  }

  lemma SameHandlesJoined(c: RoomContext, d: RoomContext)
    requires JoinedOk(c) && SameHandles(c.conns, d.conns)
    ensures JoinedOk(d)
  {
    forall i | i in d.conns && d.conns[i].IsJoined() ensures d.conns[i].token != "" { assert SameHandle(c.conns[i], d.conns[i]); }
  }

  lemma SameHandlesNames(c: RoomContext, d: RoomContext)
    requires SameHandles(c.conns, d.conns)
    ensures forall i :: Session(d, i) == Session(c, i) && Token(d, i) == Token(c, i)
  {
  }

  ghost predicate SameCore(c: RoomContext, d: RoomContext) {
    && SameHandles(c.conns, d.conns)
    && c.clients == d.clients && c.seats == d.seats && c.reconnections == d.reconnections
    && c.maxClients == d.maxClients && c.left == d.left && c.accepted == d.accepted && c.issued == d.issued
    && c.disposing == d.disposing && c.hadClients == d.hadClients && c.filter == d.filter
  }

  lemma SameCoreKeepsInv(c: RoomContext, d: RoomContext, tomb: Option<Id>, leaving: Option<Id>)
    requires Inv(c, tomb, leaving) && SameCore(c, d) && ListingOk(d)
    ensures Inv(d, tomb, leaving)
  {
    SameHandlesNames(c, d);
    forall t | t in d.reconnections ensures EntryOk(d, t) { assert EntryOk(c, t); }
    forall sid | sid in d.seats && d.seats[sid].waiting ensures HasEntry(d, sid) { assert HasEntry(c, sid); }
    assert PendingSeats(d) == PendingSeats(c);
  }

  lemma {:induction false} ToJoinedKeepsHandles(conns: map<Id, Client>, list: seq<Id>, frame: Frame)
    ensures SameHandles(conns, ToJoined(conns, list, frame))
    decreases |list|
  {
    if list != [] {
      var next := if list[0] in conns && conns[list[0]].IsJoined() then conns[list[0] := conns[list[0]].RawNow(frame)] else conns;
      ToJoinedKeepsHandles(next, list[1..], frame);
    }
  }

  lemma SyncKeepsCore(c: RoomContext)
    ensures SameCore(c, SyncListing(c)) && ListingOk(SyncListing(c))
  {
    assert PendingSeats(SyncListing(c)) == PendingSeats(c);
  }

  /** The parts of the context that a listing shows besides the count. */
  ghost predicate SameListing(c: RoomContext, d: RoomContext) {
    c.locked == d.locked && c.isPrivate == d.isPrivate && c.metadata == d.metadata && c.driver == d.driver
  }

  lemma WithClientKeepsCore(c: RoomContext, conn: Id, client: Client)
    requires conn in c.conns && SameHandle(c.conns[conn], client)
    ensures SameCore(c, WithClient(c, conn, client)) && SameListing(c, WithClient(c, conn, client))
  {
  }

  lemma HoldViewKeepsCore(c: RoomContext, conn: Id, held: Json, view: Json, ops: seq<PatchOp>)
    requires conn in c.conns
    ensures SameCore(c, HoldView(c, conn, held, view, ops)) && SameListing(c, HoldView(c, conn, held, view, ops))
    ensures HoldView(c, conn, held, view, ops).slot == c.slot
  {
    var client := c.conns[conn];
    WithClientKeepsCore(c.(views := c.views[client.sessionId := view]), conn, client.RawNow(PatchFrame(ops)));
  }

  lemma PatchViewKeepsCore(c: RoomContext, conn: Id)
    requires c.slot.Some? && c.filter.Some?
    ensures SameCore(c, PatchView(c, conn)) && PatchView(c, conn).slot == c.slot
    ensures SameListing(c, PatchView(c, conn))
  {
    if conn in c.conns && c.conns[conn].IsJoined() {
      var client := c.conns[conn];
      var view := c.filter.value(c.slot.value.typed, client.Info());
      var held := if client.sessionId in c.views then c.views[client.sessionId] else view;
      HoldViewKeepsCore(c, conn, held, view, DiffPatch(held, view));
    }
  }

  lemma {:induction false} PatchViewsKeepsCore(c: RoomContext, list: seq<Id>)
    requires c.slot.Some? && c.filter.Some?
    ensures SameCore(c, PatchViews(c, list))
    ensures SameListing(c, PatchViews(c, list))
    decreases |list|
  {
    if list != [] {
      var d := PatchView(c, list[0]);
      PatchViewKeepsCore(c, list[0]);
      PatchViewsKeepsCore(d, list[1..]);
      SameCoreTransitive(c, d, PatchViews(d, list[1..]));
    }
  }

  lemma SameCoreTransitive(c: RoomContext, d: RoomContext, e: RoomContext)
    requires SameCore(c, d) && SameCore(d, e)
    ensures SameCore(c, e)
  {
  }

  lemma SharedPatchKeepsCore(c: RoomContext, slot: StateSlot, patch: Option<seq<PatchOp>>)
    ensures var d := SendShared(c, slot, patch); SameCore(c, d) && SameListing(c, d)
  {
    if patch.Some? { ToJoinedKeepsHandles(c.conns, c.clients, PatchFrame(patch.value)); }
  }

  lemma BroadcastKeepsCore(c: RoomContext)
    ensures SameCore(c, BroadcastPatch(c)) && SameListing(c, BroadcastPatch(c))
  {
    if c.slot.Some? && c.filter.Some? {
      PatchViewsKeepsCore(c, c.clients);
    } else if c.slot.Some? {
      SharedPatchKeepsCore(c, SlotDiff(c.slot.value).0, SlotDiff(c.slot.value).1);
    }
  }

  lemma SameListingOk(c: RoomContext, d: RoomContext)
    requires SameCore(c, d) && SameListing(c, d) && ListingOk(c)
    ensures ListingOk(d)
  {
    assert PendingSeats(d) == PendingSeats(c);
  }

  /** The calls that only touch handles, state or the listing fields. */
  predicate IsPlain(call: Call) {
    !call.RemoveClient? && !call.AllowReconnection? && !call.SetMaxClients?
  }

  predicate TouchesListing(call: Call) {
    call.Lock? || call.Unlock? || call.SetPrivate? || call.SetMetadata?
  }

  lemma LeaveCallKeepsCore(c: RoomContext, conn: Id, code: nat)
    ensures SameCore(c, DoCall(c, LeaveClient(conn, code))) && SameListing(c, DoCall(c, LeaveClient(conn, code)))
  {
    if conn in c.conns { WithClientKeepsCore(c, conn, c.conns[conn].Leave(code)); }
  }

  lemma UserDataCallKeepsCore(c: RoomContext, conn: Id, data: Json)
    ensures SameCore(c, DoCall(c, SetUserData(conn, data))) && SameListing(c, DoCall(c, SetUserData(conn, data)))
  {
    if conn in c.conns { WithClientKeepsCore(c, conn, c.conns[conn].(userData := Some(data))); }
  }

  lemma SendCallKeepsCore(c: RoomContext, conn: Id, payload: Json)
    ensures SameCore(c, DoCall(c, SendTo(conn, payload))) && SameListing(c, DoCall(c, SendTo(conn, payload)))
  {
    if conn in c.conns { WithClientKeepsCore(c, conn, c.conns[conn].Deliver(DataFrame(payload))); }
  }

  lemma SlotKeepsCore(c: RoomContext, slot: Option<StateSlot>)
    ensures SameCore(c, c.(slot := slot)) && SameListing(c, c.(slot := slot))
  {
  }

  lemma MutateCallKeepsCore(c: RoomContext, state: Json)
    ensures SameCore(c, DoCall(c, MutateState(state))) && SameListing(c, DoCall(c, MutateState(state)))
  {
    SlotKeepsCore(c, if c.slot.Some? then Some(c.slot.value.(typed := state)) else c.slot);
  }

  lemma SetStateCallKeepsCore(c: RoomContext, state: Json)
    ensures SameCore(c, DoCall(c, SetState(state))) && SameListing(c, DoCall(c, SetState(state)))
  {
    SlotKeepsCore(c, Some(StateSlot(state, state)));
  }

  lemma DisconnectCallKeepsCore(c: RoomContext, code: nat)
    ensures SameCore(c, DoCall(c, Disconnect(code))) && SameListing(c, DoCall(c, Disconnect(code)))
  {
  }

  lemma QuietCallKeepsCore(c: RoomContext, call: Call)
    requires IsPlain(call) && !TouchesListing(call)
    ensures SameCore(c, DoCall(c, call)) && SameListing(c, DoCall(c, call))
  {
    match call
    case LeaveClient(conn, code) => LeaveCallKeepsCore(c, conn, code);
    case SetUserData(conn, data) => UserDataCallKeepsCore(c, conn, data);
    case SendTo(conn, payload) => SendCallKeepsCore(c, conn, payload);
    case Broadcast(payload) => ToJoinedKeepsHandles(c.conns, c.clients, DataFrame(payload));
    case CallBroadcastPatch => BroadcastKeepsCore(c);
    case Disconnect(code) => DisconnectCallKeepsCore(c, code);
    case MutateState(state) => MutateCallKeepsCore(c, state);
    case SetState(state) => SetStateCallKeepsCore(c, state);
  }

  lemma ListingCallKeepsCore(c: RoomContext, call: Call)
    requires TouchesListing(call) && ListingOk(c)
    ensures SameCore(c, DoCall(c, call)) && ListingOk(DoCall(c, call))
  {
    match call
    case Lock => if !c.locked { SyncKeepsCore(c.(locked := true)); }
    case Unlock => if c.locked { SyncKeepsCore(c.(locked := false)); }
    case SetPrivate(p) => SyncKeepsCore(c.(isPrivate := p));
    case SetMetadata(m) => SyncKeepsCore(c.(metadata := Some(m)));
  }

  lemma PlainCallKeepsCore(c: RoomContext, call: Call)
    requires IsPlain(call) && ListingOk(c)
    ensures SameCore(c, DoCall(c, call)) && ListingOk(DoCall(c, call))
  {
    if TouchesListing(call) {
      ListingCallKeepsCore(c, call);
    } else {
      QuietCallKeepsCore(c, call);
      SameListingOk(c, DoCall(c, call));
    }
  }

  // ------------------------------------------------------------------
  // What a hook may ask for, and what it changes
  // ------------------------------------------------------------------

  /**
   * Room code may call anything at any time, with two exceptions: `set_max_clients` belongs to
   * `on_create`, and `allow_reconnection` is for a client that is still listed and whose own
   * `on_leave` is not running.
   */
  ghost predicate Legal(c: RoomContext, call: Call, leaving: Option<Id>) {
    && !call.SetMaxClients?
    && (call.AllowReconnection? ==> call.conn in c.clients && leaving != Some(Session(c, call.conn)))
  }

  ghost predicate LegalCalls(c: RoomContext, calls: seq<Call>, leaving: Option<Id>)
    decreases |calls|
  {
    calls == [] || (Legal(c, calls[0], leaving) && LegalCalls(DoCall(c, calls[0]), calls[1..], leaving))
  }

  /** Hooks take clients and seats away; the only seats they add are held for a reconnection. */
  ghost predicate Framed(c: RoomContext, d: RoomContext) {
    && SameHandles(c.conns, d.conns)
    && (forall i :: i in d.clients ==> i in c.clients)
    && (forall sid :: sid in d.seats ==> d.seats[sid].waiting || (sid in c.seats && d.seats[sid] == c.seats[sid]))
    && Load(d) <= Load(c)
    && c.maxClients == d.maxClients && c.left == d.left && c.accepted == d.accepted && c.issued == d.issued
    && c.disposing == d.disposing && c.hadClients == d.hadClients && c.filter == d.filter
  }

  lemma FramedTransitive(c: RoomContext, d: RoomContext, e: RoomContext)
    requires Framed(c, d) && Framed(d, e)
    ensures Framed(c, e)
  {
  }

  lemma SameCoreFramed(c: RoomContext, d: RoomContext)
    requires SameCore(c, d)
    ensures Framed(c, d)
  {
    assert PendingSeats(d) == PendingSeats(c);
  }

  // ------------------------------------------------------------------
  // remove_client
  // ------------------------------------------------------------------

  lemma ForgetFramed(c: RoomContext, sid: Id)
    ensures Framed(c, Forget(c, sid))
  {
    SubsetSize(PendingSeats(Forget(c, sid)), PendingSeats(c));
  }

  lemma ForgetKeepsEntries(c: RoomContext, sid: Id)
    requires EntriesOk(c) && WaitingOk(c)
    ensures EntriesOk(Forget(c, sid)) && WaitingOk(Forget(c, sid))
  {
    var d := Forget(c, sid);
    forall t | t in d.reconnections ensures EntryOk(d, t) { assert EntryOk(c, t); }
    forall s | s in d.seats && d.seats[s].waiting ensures HasEntry(d, s) {
      assert HasEntry(c, s);
      var t :| t in c.reconnections && c.reconnections[t].sessionId == s;
      assert t in d.reconnections;
    }
  }

  lemma ForgetKeepsSeats(c: RoomContext, sid: Id, tomb: Option<Id>, leaving: Option<Id>)
    requires ClientsOk(c) && TokensOk(c) && SeatsOk(c, tomb) && HistoryOk(c, leaving)
    ensures ClientsOk(Forget(c, sid)) && TokensOk(Forget(c, sid))
    ensures SeatsOk(Forget(c, sid), tomb) && HistoryOk(Forget(c, sid), leaving)
  {
    var d := Forget(c, sid);
    SameHandlesNames(c, d);
  }

  lemma ForgetKeepsCounts(c: RoomContext, sid: Id)
    requires CapacityOk(c)
    ensures CapacityOk(Forget(c, sid)) && ListingOk(Forget(c, sid))
  {
    ForgetFramed(c, sid);
    SyncKeepsCore(Without(c, sid));
  }

  lemma ForgetKeepsInv(c: RoomContext, sid: Id, tomb: Option<Id>, leaving: Option<Id>)
    requires Inv(c, tomb, leaving)
    ensures Inv(Forget(c, sid), tomb, leaving)
  {
    ForgetKeepsCounts(c, sid);
    ForgetKeepsEntries(c, sid);
    ForgetKeepsSeats(c, sid, tomb, leaving);
  }

  // ------------------------------------------------------------------
  // allow_reconnection
  // ------------------------------------------------------------------

  /** Whoever listed waits for a reconnection has an entry under its own token. */
  lemma WaitingMeansEntry(c: RoomContext, conn: Id)
    requires ClientsOk(c) && EntriesOk(c) && WaitingOk(c) && conn in c.clients
    ensures Session(c, conn) in c.seats && c.seats[Session(c, conn)].waiting ==> Token(c, conn) in c.reconnections
  {
    var sid := Session(c, conn);
    if sid in c.seats && c.seats[sid].waiting {
      assert HasEntry(c, sid);
      var t :| t in c.reconnections && c.reconnections[t].sessionId == sid;
      assert EntryOk(c, t);
    }
  }

  /** A listed client with a token that has no entry yet has no seat either. */
  lemma AllowedHasNoSeat(c: RoomContext, conn: Id, tomb: Option<Id>)
    requires ClientsOk(c) && EntriesOk(c) && WaitingOk(c) && SeatsOk(c, tomb) && conn in c.clients
    requires Token(c, conn) != "" && Token(c, conn) !in c.reconnections
    ensures Session(c, conn) !in c.seats
  {
    WaitingMeansEntry(c, conn);
  }

  /** The context after an `allow_reconnection` that was granted. */
  ghost predicate Allowed(c: RoomContext, d: RoomContext, conn: Id) {
    && conn in c.conns && Token(c, conn) != "" && Token(c, conn) !in c.reconnections
    && SameHandles(c.conns, d.conns) && d.clients == c.clients
    && Token(c, conn) in d.reconnections && Session(c, conn) in d.seats
    && d.reconnections == c.reconnections[Token(c, conn) := d.reconnections[Token(c, conn)]]
    && d.seats == c.seats[Session(c, conn) := d.seats[Session(c, conn)]]
    && d.reconnections[Token(c, conn)].sessionId == Session(c, conn)
    && d.reconnections[Token(c, conn)].conn == conn
    && d.seats[Session(c, conn)].waiting && !d.seats[Session(c, conn)].consumed
    && SameListing(c, d)
    && c.maxClients == d.maxClients && c.left == d.left && c.accepted == d.accepted && c.issued == d.issued
    && c.disposing == d.disposing && c.hadClients == d.hadClients && c.filter == d.filter
  }

  lemma AllowAllows(c: RoomContext, conn: Id, expiresAt: Option<int>, never: int)
    requires conn in c.conns
    ensures var d := Allow(c, conn, expiresAt, never); d == c || Allowed(c, d, conn)
  {
  }

  lemma AllowedKeepsEntries(c: RoomContext, d: RoomContext, conn: Id)
    requires EntriesOk(c) && WaitingOk(c) && conn in c.clients && Allowed(c, d, conn)
    requires Session(c, conn) !in c.seats
    ensures EntriesOk(d) && WaitingOk(d)
  {
    SameHandlesNames(c, d);
    forall t | t in d.reconnections ensures EntryOk(d, t) {
      if t != Token(c, conn) { assert EntryOk(c, t); }
    }
    forall s | s in d.seats && d.seats[s].waiting ensures HasEntry(d, s) {
      if s == Session(c, conn) {
        assert Token(c, conn) in d.reconnections;
      } else {
        assert HasEntry(c, s);
        var t :| t in c.reconnections && c.reconnections[t].sessionId == s;
        assert t in d.reconnections && d.reconnections[t].sessionId == s;
      }
    }
  }

  lemma AllowedKeepsClients(c: RoomContext, d: RoomContext, conn: Id)
    requires ClientsOk(c) && TokensOk(c) && Allowed(c, d, conn)
    ensures ClientsOk(d) && TokensOk(d)
  {
    SameHandlesNames(c, d);
  }

  lemma AllowedKeepsSeats(c: RoomContext, d: RoomContext, conn: Id, tomb: Option<Id>)
    requires ClientsOk(c) && SeatsOk(c, tomb) && conn in c.clients && Allowed(c, d, conn)
    ensures SeatsOk(d, tomb)
  {
    SameHandlesNames(c, d);
  }

  lemma AllowedKeepsHistory(c: RoomContext, d: RoomContext, conn: Id, leaving: Option<Id>)
    requires HistoryOk(c, leaving) && conn in c.clients && Allowed(c, d, conn) && leaving != Some(Session(c, conn))
    ensures HistoryOk(d, leaving)
  {
    SameHandlesNames(c, d);
  }

  lemma AllowedKeepsPending(c: RoomContext, d: RoomContext, conn: Id)
    requires Allowed(c, d, conn) && Session(c, conn) !in c.seats
    ensures PendingSeats(d) == PendingSeats(c)
  {
  }

  lemma AllowedFramed(c: RoomContext, d: RoomContext, conn: Id)
    requires Allowed(c, d, conn) && PendingSeats(d) == PendingSeats(c) && conn in c.clients
    ensures Framed(c, d) && Load(d) == Load(c)
    ensures ListingOk(c) ==> ListingOk(d)
  {
  }

  lemma AllowKeepsInv(c: RoomContext, conn: Id, expiresAt: Option<int>, never: int, tomb: Option<Id>, leaving: Option<Id>)
    requires Inv(c, tomb, leaving) && conn in c.clients && leaving != Some(Session(c, conn))
    ensures Inv(Allow(c, conn, expiresAt, never), tomb, leaving)
    ensures Framed(c, Allow(c, conn, expiresAt, never))
  {
    var d := Allow(c, conn, expiresAt, never);
    AllowAllows(c, conn, expiresAt, never);
    if d != c {
      AllowedHasNoSeat(c, conn, tomb);
      AllowedKeepsEntries(c, d, conn);
      AllowedKeepsClients(c, d, conn);
      AllowedKeepsSeats(c, d, conn, tomb);
      AllowedKeepsHistory(c, d, conn, leaving);
      AllowedKeepsPending(c, d, conn);
      AllowedFramed(c, d, conn);
    } else {
      SameCoreFramed(c, c);
    }
  }

  // ------------------------------------------------------------------
  // Whole hooks
  // ------------------------------------------------------------------

  lemma CallKeepsInv(c: RoomContext, call: Call, tomb: Option<Id>, leaving: Option<Id>)
    requires Inv(c, tomb, leaving) && Legal(c, call, leaving)
    ensures Inv(DoCall(c, call), tomb, leaving) && Framed(c, DoCall(c, call))
  {
    match call
    case RemoveClient(sid) =>
      ForgetKeepsInv(c, sid, tomb, leaving);
      ForgetFramed(c, sid);
    case AllowReconnection(conn, expiresAt, never) => AllowKeepsInv(c, conn, expiresAt, never, tomb, leaving);
    case _ =>
      PlainCallKeepsCore(c, call);
      SameCoreKeepsInv(c, DoCall(c, call), tomb, leaving);
      SameCoreFramed(c, DoCall(c, call));
  }

  /** Any hook body keeps the invariant. */
  lemma {:induction false} CallsKeepInv(c: RoomContext, calls: seq<Call>, tomb: Option<Id>, leaving: Option<Id>)
    requires Inv(c, tomb, leaving) && LegalCalls(c, calls, leaving)
    ensures Inv(DoCalls(c, calls), tomb, leaving) && Framed(c, DoCalls(c, calls))
    decreases |calls|
  {
    if calls == [] {
      SameCoreFramed(c, c);
    } else {
      var d := DoCall(c, calls[0]);
      CallKeepsInv(c, calls[0], tomb, leaving);
      CallsKeepInv(d, calls[1..], tomb, leaving);
      FramedTransitive(c, d, DoCalls(d, calls[1..]));
    }
  }
}
