/** Every event the actor handles keeps the invariant, in every run and for every hook body. */
module ActorInvariant {
  import opened Json
  import opened Room
  import opened RoomInvariant
  import opened Actor

  // ------------------------------------------------------------------
  // Building blocks
  // ------------------------------------------------------------------

  /** Entries and the seats they hold, when neither they nor their clients change. */
  lemma EntriesCarry(c: RoomContext, d: RoomContext)
    requires EntriesOk(c) && WaitingOk(c) && d.reconnections == c.reconnections
    requires forall i :: i in c.clients ==> i in d.clients && Session(d, i) == Session(c, i) && Token(d, i) == Token(c, i)
    requires forall sid :: sid in c.seats && c.seats[sid].waiting <==> sid in d.seats && d.seats[sid].waiting
    ensures EntriesOk(d) && WaitingOk(d)
  {
    forall t | t in d.reconnections ensures EntryOk(d, t) { assert EntryOk(c, t); }
    forall s | s in d.seats && d.seats[s].waiting ensures HasEntry(d, s) { assert HasEntry(c, s); }
  }

  /** Old handles keep their names; new ones have no token and have not joined. */
  ghost predicate SameNames(c: RoomContext, d: RoomContext) {
    && (forall i :: i in c.conns ==> i in d.conns && Session(d, i) == Session(c, i) && Token(d, i) == Token(c, i))
    && (forall i :: i in d.conns && i !in c.conns ==> Token(d, i) == "")
  }

  lemma ClientsCarry(c: RoomContext, d: RoomContext)
    requires ClientsOk(c) && SameNames(c, d) && d.clients == c.clients && c.issued <= d.issued
    ensures ClientsOk(d)
  {
  }

  lemma TokensCarry(c: RoomContext, d: RoomContext)
    requires ClientsOk(c) && TokensOk(c) && SameNames(c, d) && d.clients == c.clients && c.issued <= d.issued
    ensures TokensOk(d)
  {
  }

  lemma SeatsCarry(c: RoomContext, d: RoomContext, tomb: Option<Id>)
    requires ClientsOk(c) && SeatsOk(c, tomb) && SameNames(c, d)
    requires d.clients == c.clients && d.seats == c.seats && c.issued <= d.issued
    ensures SeatsOk(d, tomb)
  {
  }

  lemma HistoryCarry(c: RoomContext, d: RoomContext, leaving: Option<Id>)
    requires ClientsOk(c) && HistoryOk(c, leaving) && SameNames(c, d) && d.clients == c.clients
    requires d.seats.Keys <= c.seats.Keys && d.left == c.left && d.accepted == c.accepted && c.issued <= d.issued
    ensures HistoryOk(d, leaving)
  {
  }

  lemma CountsCarry(c: RoomContext, d: RoomContext)
    requires CapacityOk(c) && ListingOk(c) && SameListing(c, d)
    requires |d.clients| == |c.clients| && PendingSeats(d) == PendingSeats(c) && d.maxClients == c.maxClients
    ensures CapacityOk(d) && ListingOk(d)
  {
  }

  /** Only handles that nobody lists, the state and the flags differ. */
  ghost predicate Extended(c: RoomContext, d: RoomContext) {
    && SameNames(c, d) && d.clients == c.clients && d.seats == c.seats && d.reconnections == c.reconnections
    && d.maxClients == c.maxClients && d.left == c.left && d.accepted == c.accepted && d.issued == c.issued && SameListing(c, d)
  }

  lemma ExtendedKeepsInv(c: RoomContext, d: RoomContext)
    requires Inv(c, None, None) && Extended(c, d) && JoinedOk(d)
    ensures Inv(d, None, None)
  {
    ClientsCarry(c, d);
    TokensCarry(c, d);
    SeatsCarry(c, d, None);
    HistoryCarry(c, d, None);
    EntriesCarry(c, d);
    assert PendingSeats(d) == PendingSeats(c);
    CountsCarry(c, d);
  }

  lemma NewHandleKeepsInv(c: RoomContext, conn: Id, sid: Id)
    requires Inv(c, None, None) && conn !in c.conns
    ensures Inv(WithClient(c, conn, NewClient(sid)), None, None)
  {
    ExtendedKeepsInv(c, WithClient(c, conn, NewClient(sid)));
  }

  /** The context with one more pending seat, under a session id nobody had before. */
  ghost predicate SeatAdded(c: RoomContext, d: RoomContext, sid: Id) {
    && d.conns == c.conns && d.clients == c.clients && d.reconnections == c.reconnections
    && sid in d.seats && IsPending(d.seats[sid]) && d.seats == c.seats[sid := d.seats[sid]]
    && d.maxClients == c.maxClients && d.left == c.left && d.accepted == c.accepted && d.issued == c.issued + {sid}
  }

  lemma SeatAddedKeepsCapacity(c: RoomContext, d: RoomContext, sid: Id)
    requires SeatsOk(c, None) && CapacityOk(c) && sid !in c.issued && SeatAdded(c, d, sid)
    requires c.maxClients.Some? ==> Load(c) < c.maxClients.value
    ensures CapacityOk(d)
  {
    assert PendingSeats(d) == PendingSeats(c) + {sid};
  }

  lemma SeatAddedKeepsSeats(c: RoomContext, d: RoomContext, sid: Id)
    requires ClientsOk(c) && SeatsOk(c, None) && sid !in c.issued && SeatAdded(c, d, sid)
    ensures SeatsOk(d, None)
  {
    SameHandlesNames(c, d);
  }

  lemma SeatAddedKeepsHistory(c: RoomContext, d: RoomContext, sid: Id)
    requires HistoryOk(c, None) && sid !in c.issued && SeatAdded(c, d, sid)
    ensures HistoryOk(d, None)
  {
    SameHandlesNames(c, d);
  }

  /** A reserved seat under a new session id, while there is room for it. */
  lemma AddSeatKeepsInv(c: RoomContext, d: RoomContext, sid: Id)
    requires Inv(c, None, None) && sid !in c.issued && SeatAdded(c, d, sid) && ListingOk(d)
    requires c.maxClients.Some? ==> Load(c) < c.maxClients.value
    ensures Inv(d, None, None)
  {
    SeatAddedKeepsCapacity(c, d, sid);
    SeatAddedKeepsSeats(c, d, sid);
    SeatAddedKeepsHistory(c, d, sid);
    ClientsCarry(c, d);
    TokensCarry(c, d);
    EntriesCarry(c, d);
  }

  /** The context without the listed clients of one session. */
  ghost predicate Unlisted(c: RoomContext, d: RoomContext, sid: Id) {
    && SameHandles(c.conns, d.conns) && d.seats == c.seats && d.reconnections == c.reconnections
    && d.maxClients == c.maxClients && d.left == c.left && d.accepted == c.accepted && d.issued == c.issued
    && d.clients == Others(c, c.clients, sid) && ListingOk(d)
  }

  /** Unlisting a session that has no entry. */
  lemma UnlistKeepsInv(c: RoomContext, d: RoomContext, sid: Id, leaving: Option<Id>)
    requires Inv(c, None, leaving) && (leaving == None || leaving == Some(sid)) && !HasEntry(c, sid)
    requires Unlisted(c, d, sid)
    ensures Inv(d, None, None)
  {
    SameHandlesNames(c, d);
    SameHandlesJoined(c, d);
    assert PendingSeats(d) == PendingSeats(c);
    forall t | t in d.reconnections ensures EntryOk(d, t) { assert EntryOk(c, t); }
    forall s | s in d.seats && d.seats[s].waiting ensures HasEntry(d, s) { assert HasEntry(c, s); }
  }

  /** Entries are stored under real tokens only. */
  lemma EmptyTokenHasNoEntry(c: RoomContext)
    requires EntriesOk(c)
    ensures "" !in c.reconnections
  {
    assert forall t :: t in c.reconnections ==> EntryOk(c, t) && t != "";
  }

  /** Nobody listed under a session whose token has no entry, or listed without a token, has an entry. */
  lemma NoEntryOf(c: RoomContext, conn: Id, sid: Id)
    requires ClientsOk(c) && EntriesOk(c)
    requires forall i :: i in c.clients && Session(c, i) == sid ==> i == conn
    requires Token(c, conn) !in c.reconnections
    ensures !HasEntry(c, sid)
  {
    forall t | t in c.reconnections ensures c.reconnections[t].sessionId != sid {
      assert EntryOk(c, t);
    }
  }

  // ------------------------------------------------------------------
  // The handshake
  // ------------------------------------------------------------------

  /** One handle has a new token; nothing else of the core differs. */
  ghost predicate Tokened(c: RoomContext, d: RoomContext, conn: Id, token: Id) {
    && conn in c.conns && d.conns.Keys == c.conns.Keys
    && (forall i :: Session(d, i) == Session(c, i))
    && (forall i :: Token(d, i) == if i == conn then token else Token(c, i))
    && d.clients == c.clients && d.seats == c.seats && d.reconnections == c.reconnections
    && d.maxClients == c.maxClients && d.left == c.left && d.accepted == c.accepted
    && d.issued == c.issued + {token}
    && (token != "" && JoinedOk(c) ==> JoinedOk(d))
  }

  lemma GiveTokenTokens(c: RoomContext, conn: Id, client: Client, token: Id)
    requires conn in c.conns && client.sessionId == Session(c, conn) && client.token == token
    ensures Tokened(c, WithClient(c.(issued := c.issued + {token}), conn, client), conn, token)
  {
  }

  lemma TokenedSameCore(c: RoomContext, d: RoomContext, e: RoomContext, conn: Id, token: Id)
    requires Tokened(c, d, conn, token) && SameCore(d, e)
    ensures Tokened(c, e, conn, token)
  {
    SameHandlesNames(d, e);
    if JoinedOk(d) { SameHandlesJoined(d, e); }
  }

  lemma SendFullStateKeepsCore(c: RoomContext, conn: Id)
    requires conn in c.conns
    ensures SameCore(c, SendFullState(c, conn))
  {
    var client := c.conns[conn];
    var state := FullStateFor(c, client);
    if state.Some? {
      WithClientKeepsCore(c.(views := c.views[client.sessionId := state.value]), conn, client.RawNow(StateFrame(state.value)));
    }
  }

  /** The rest of the handshake after the token. */
  lemma WelcomeTailKeepsCore(c: RoomContext, conn: Id)
    requires conn in c.conns
    ensures conn in SendFullState(c, conn).conns
    ensures var d := SendFullState(c, conn);
            var e := SyncListing(WithClient(d, conn, d.conns[conn].FlushPending()));
            SameCore(c, e) && ListingOk(e)
  {
    SendFullStateKeepsCore(c, conn);
    var d := SendFullState(c, conn);
    var e := WithClient(d, conn, d.conns[conn].FlushPending());
    WithClientKeepsCore(d, conn, d.conns[conn].FlushPending());
    SameCoreTransitive(c, d, e);
    SyncKeepsCore(e);
    SameCoreTransitive(c, e, SyncListing(e));
  }

  /** The handshake gives one handle a new token and touches nothing else of the core. */
  lemma WelcomeTokens(c: RoomContext, conn: Id, state: ClientState, token: Id)
    requires conn in c.conns
    ensures Tokened(c, Welcome(c, conn, state, token), conn, token) && ListingOk(Welcome(c, conn, state, token))
  {
    var client := c.conns[conn].(state := state, token := token).RawNow(JoinFrame(token));
    var c1 := WithClient(c.(issued := c.issued + {token}), conn, client);
    GiveTokenTokens(c, conn, client, token);
    WelcomeTailKeepsCore(c1, conn);
    TokenedSameCore(c, c1, Welcome(c, conn, state, token), conn, token);
  }

  lemma TokenedKeepsClients(c: RoomContext, d: RoomContext, conn: Id, token: Id)
    requires ClientsOk(c) && TokensOk(c) && Tokened(c, d, conn, token) && token !in c.issued
    ensures ClientsOk(d) && TokensOk(d)
  {
  }

  lemma TokenedKeepsHistory(c: RoomContext, d: RoomContext, conn: Id, token: Id)
    requires SeatsOk(c, None) && HistoryOk(c, None) && Tokened(c, d, conn, token) && token !in c.issued
    ensures SeatsOk(d, None) && HistoryOk(d, None)
  {
  }

  lemma TokenedKeepsEntries(c: RoomContext, d: RoomContext, conn: Id, token: Id)
    requires EntriesOk(c) && WaitingOk(c) && Tokened(c, d, conn, token) && Token(c, conn) == ""
    ensures EntriesOk(d) && WaitingOk(d)
  {
    forall t | t in d.reconnections ensures EntryOk(d, t) { assert EntryOk(c, t); }
    forall s | s in d.seats && d.seats[s].waiting ensures HasEntry(d, s) { assert HasEntry(c, s); }
  }

  lemma TokenedKeepsInv(c: RoomContext, d: RoomContext, conn: Id, token: Id)
    requires Inv(c, None, None) && Tokened(c, d, conn, token) && ListingOk(d)
    requires Token(c, conn) == "" && token != "" && token !in c.issued
    ensures Inv(d, None, None)
  {
    TokenedKeepsClients(c, d, conn, token);
    TokenedKeepsHistory(c, d, conn, token);
    TokenedKeepsEntries(c, d, conn, token);
    assert PendingSeats(d) == PendingSeats(c);
  }

  // ------------------------------------------------------------------
  // Joining
  // ------------------------------------------------------------------

  /** The context after a seat became a tombstone and its client was listed. */
  ghost predicate SeatTaken(c: RoomContext, d: RoomContext, conn: Id, sid: Id) {
    && SameHandles(c.conns, d.conns) && d.clients == c.clients + [conn] && d.reconnections == c.reconnections
    && sid in c.seats && IsPending(c.seats[sid]) && sid in d.seats
    && d.seats == c.seats[sid := d.seats[sid]] && d.seats[sid].consumed && !d.seats[sid].waiting
    && d.maxClients == c.maxClients && d.left == c.left && d.accepted == c.accepted && d.issued == c.issued
    && SameListing(c, d)
  }

  lemma TakeSeatTakes(c: RoomContext, conn: Id)
    requires conn in c.conns && Session(c, conn) in c.seats && IsPending(c.seats[Session(c, conn)])
    ensures SeatTaken(c, TakeSeat(c, conn), conn, Session(c, conn))
  {
  }

  /** The load stays the same: one pending seat less, one client more. */
  lemma SeatTakenKeepsLoad(c: RoomContext, d: RoomContext, conn: Id, sid: Id)
    requires SeatTaken(c, d, conn, sid)
    ensures Load(d) == Load(c)
  {
    assert PendingSeats(d) == PendingSeats(c) - {sid};
  }

  lemma SeatTakenKeepsClients(c: RoomContext, d: RoomContext, conn: Id, sid: Id)
    requires ClientsOk(c) && TokensOk(c) && SeatsOk(c, None) && HistoryOk(c, None) && SeatTaken(c, d, conn, sid)
    requires conn in c.conns && conn !in c.clients && Token(c, conn) == "" && Session(c, conn) == sid
    ensures ClientsOk(d) && TokensOk(d) && HistoryOk(d, None)
  {
    SameHandlesNames(c, d);
    assert forall i :: i in d.clients <==> i in c.clients || i == conn;
  }

  lemma SeatTakenKeepsSeats(c: RoomContext, d: RoomContext, conn: Id, sid: Id)
    requires SeatsOk(c, None) && SeatTaken(c, d, conn, sid)
    requires conn in c.conns && Token(c, conn) == "" && Session(c, conn) == sid
    ensures SeatsOk(d, Some(sid))
  {
    SameHandlesNames(c, d);
    assert forall i :: i in d.clients <==> i in c.clients || i == conn;
  }

  lemma TakeSeatKeepsInv(c: RoomContext, d: RoomContext, conn: Id, sid: Id)
    requires Inv(c, None, None) && SeatTaken(c, d, conn, sid)
    requires conn in c.conns && conn !in c.clients && Token(c, conn) == "" && Session(c, conn) == sid
    ensures Inv(d, Some(sid), None)
  {
    SeatTakenKeepsLoad(c, d, conn, sid);
    SeatTakenKeepsClients(c, d, conn, sid);
    SeatTakenKeepsSeats(c, d, conn, sid);
    SameHandlesNames(c, d);
    SameHandlesJoined(c, d);
    EntriesCarry(c, d);
  }

  lemma DropTombKeepsCounts(c: RoomContext, d: RoomContext, sid: Id)
    requires CapacityOk(c) && ListingOk(c) && (sid in c.seats ==> c.seats[sid].consumed)
    requires d == c.(seats := c.seats - {sid})
    ensures CapacityOk(d) && ListingOk(d)
  {
    assert PendingSeats(d) == PendingSeats(c);
  }

  /** Dropping the tombstone after `on_join`, whatever the hook did. */
  lemma DropTombKeepsInv(c: RoomContext, d: RoomContext, sid: Id)
    requires Inv(c, Some(sid), None) && (sid in c.seats ==> c.seats[sid].consumed)
    requires d == c.(seats := c.seats - {sid})
    ensures Inv(d, None, None)
  {
    SameHandlesNames(c, d);
    DropTombKeepsCounts(c, d, sid);
    EntriesCarry(c, d);
  }

  /** While `on_join` runs nobody of that session can be given a seat to reconnect to. */
  lemma TombOnly(c: RoomContext, d: RoomContext, conn: Id, sid: Id)
    requires Inv(c, Some(sid), None) && Inv(d, Some(sid), None) && Framed(c, d)
    requires sid in c.seats && c.seats[sid].consumed && conn in c.clients && Session(c, conn) == sid
    ensures sid in d.seats ==> d.seats[sid].consumed
  {
    assert forall i :: i in d.clients ==> Session(d, i) == Session(c, i);
    forall t | t in d.reconnections ensures d.reconnections[t].sessionId != sid { assert EntryOk(d, t); }
    assert !HasEntry(d, sid);
  }

  lemma JoinAccepted(c: RoomContext, conn: Id, newToken: Id)
    requires Inv(c, None, None) && conn in c.conns && Token(c, conn) == ""
    requires newToken != "" && newToken !in c.issued
    ensures Inv(Welcome(c.(hadClients := true), conn, Joined, newToken), None, None)
  {
    var d := c.(hadClients := true);
    ExtendedKeepsInv(c, d);
    WelcomeTokens(d, conn, Joined, newToken);
    TokenedKeepsInv(d, Welcome(d, conn, Joined, newToken), conn, newToken);
  }

  lemma RefuseUnlists(c: RoomContext, conn: Id)
    requires conn in c.conns
    ensures Unlisted(c, Refuse(c, conn), Session(c, conn))
  {
    var c1 := c.(clients := Others(c, c.clients, Session(c, conn)));
    var client := c1.conns[conn].RawNow(ErrorFrame).Leave(WITH_ERROR);
    WithClientKeepsCore(c1, conn, client);
    SyncKeepsCore(WithClient(c1, conn, client));
  }

  lemma JoinRefused(c: RoomContext, conn: Id)
    requires Inv(c, None, None) && conn in c.conns && Token(c, conn) == ""
    requires forall i :: i in c.clients && Session(c, i) == Session(c, conn) ==> i == conn
    ensures Inv(Refuse(c, conn), None, None)
  {
    EmptyTokenHasNoEntry(c);
    NoEntryOf(c, conn, Session(c, conn));
    RefuseUnlists(c, conn);
    UnlistKeepsInv(c, Refuse(c, conn), Session(c, conn), None);
  }

  lemma EndJoinKeepsInv(c: RoomContext, conn: Id, accepted: bool, newToken: Id)
    requires conn in c.conns && Inv(c, Some(Session(c, conn)), None) && Token(c, conn) == ""
    requires Session(c, conn) in c.seats ==> c.seats[Session(c, conn)].consumed
    requires forall i :: i in c.clients && Session(c, i) == Session(c, conn) ==> i == conn
    requires newToken != "" && newToken !in c.issued
    ensures Inv(EndJoin(c, conn, accepted, newToken), None, None)
  {
    var c1 := c.(seats := c.seats - {Session(c, conn)});
    DropTombKeepsInv(c, c1, Session(c, conn));
    assert forall i :: Session(c1, i) == Session(c, i);
    if accepted && !c1.conns[conn].state.Leaving? {
      JoinAccepted(c1, conn, newToken);
    } else {
      JoinRefused(c1, conn);
    }
  }

  lemma JoinKeepsInv(c: RoomContext, conn: Id, calls: seq<Call>, accepted: bool, newToken: Id)
    requires Inv(c, None, None) && conn in c.conns && conn !in c.clients && Token(c, conn) == ""
    requires !(Session(c, conn) in c.seats && c.seats[Session(c, conn)].waiting)
    requires Session(c, conn) in c.seats ==> LegalCalls(TakeSeat(c, conn), calls, None)
    requires newToken != "" && newToken !in c.issued
    ensures Inv(Join(c, conn, calls, accepted, newToken), None, None)
  {
    var sid := Session(c, conn);
    if sid in c.seats && !c.seats[sid].consumed {
      var c1 := TakeSeat(c, conn);
      TakeSeatTakes(c, conn);
      TakeSeatKeepsInv(c, c1, conn, sid);
      CallsKeepInv(c1, calls, Some(sid), None);
      var c2 := DoCalls(c1, calls);
      TombOnly(c1, c2, conn, sid);
      assert forall i :: i in c1.conns ==> Session(c2, i) == Session(c1, i) && Token(c2, i) == Token(c1, i);
      assert Session(c1, conn) == sid && Token(c1, conn) == "" && conn in c1.clients;
      EndJoinKeepsInv(c2, conn, accepted, newToken);
    }
  }

  // ------------------------------------------------------------------
  // Reconnecting
  // ------------------------------------------------------------------

  lemma DistinctCons(x: Id, s: seq<Id>)
    requires Distinct(s) && x !in s
    ensures Distinct([x] + s)
  {
  }

  /** Replacing keeps every other handle and the length, when the session is listed once. */
  lemma {:induction false} ReplacedListed(c: RoomContext, list: seq<Id>, sid: Id, prev: Id, conn: Id)
    requires prev in list && Distinct(list) && conn !in list && Session(c, prev) == sid
    requires forall i :: i in list && Session(c, i) == sid ==> i == prev
    ensures |Replaced(c, list, sid, conn)| == |list| && Distinct(Replaced(c, list, sid, conn))
    ensures forall i :: i in Replaced(c, list, sid, conn) <==> i == conn || (i in list && i != prev)
    decreases |list|
  {
    var rest := list[1..];
    assert list == [list[0]] + rest;
    if list[0] == prev {
      DistinctCons(conn, rest);
    } else {
      ReplacedListed(c, rest, sid, prev, conn);
      DistinctCons(list[0], Replaced(c, rest, sid, conn));
    }
  }

  /**
   * A token that fits names the one listed client of its session, so the branch of `on_connect`
   * that appends a reconnecting client to the list is never taken.
   */
  lemma TokenNamesListedClient(c: RoomContext, token: Id, sid: Id)
    requires Inv(c, None, None) && TokenFits(c, token, sid)
    ensures FindClient(c, c.clients, sid) == Some(c.reconnections[token].conn)
    ensures Token(c, c.reconnections[token].conn) == token && token != "" && token !in c.accepted
    ensures sid in c.seats && c.seats[sid].waiting
  {
    assert EntryOk(c, token);
  }

  /** The context after a takeover, seen from the one before. */
  ghost predicate TakenOver(c: RoomContext, d: RoomContext, conn: Id, prev: Id, token: Id, sid: Id) {
    && d.conns.Keys == c.conns.Keys
    && (forall i :: Session(d, i) == Session(c, i) && Token(d, i) == Token(c, i))
    && (forall i :: i in d.clients <==> i == conn || (i in c.clients && i != prev))
    && |d.clients| == |c.clients| && Distinct(d.clients)
    && d.seats == c.seats - {sid} && d.reconnections == c.reconnections - {token}
    && d.accepted == c.accepted + [token]
    && d.maxClients == c.maxClients && d.left == c.left && d.issued == c.issued
    && SameListing(c, d) && (JoinedOk(c) ==> JoinedOk(d))
  }

  lemma HandOverKeepsHandles(conns: map<Id, Client>, conn: Id, previous: Id)
    requires conn in conns && (previous in conns ==> conns[previous].token != "")
    ensures SameHandles(conns, HandOver(conns, conn, previous))
  {
  }

  lemma TakenOverFrom(c: RoomContext, d: RoomContext, conn: Id, prev: Id, token: Id, sid: Id)
    requires conn in c.conns && d.conns == HandOver(c.conns, conn, prev)
    requires d.seats == c.seats - {sid} && d.reconnections == c.reconnections - {token} && d.accepted == c.accepted + [token]
    requires d.maxClients == c.maxClients && d.left == c.left && d.issued == c.issued && SameListing(c, d)
    requires |d.clients| == |c.clients| && Distinct(d.clients) && (prev in c.conns ==> Token(c, prev) != "")
    requires forall i :: i in d.clients <==> i == conn || (i in c.clients && i != prev)
    ensures TakenOver(c, d, conn, prev, token, sid)
  {
    HandOverKeepsHandles(c.conns, conn, prev);
    SameHandlesNames(c, d);
    if JoinedOk(c) { SameHandlesJoined(c, d); }
  }

  lemma TakenOverKeepsEntries(c: RoomContext, d: RoomContext, conn: Id, prev: Id, token: Id, sid: Id)
    requires ClientsOk(c) && EntriesOk(c) && TakenOver(c, d, conn, prev, token, sid)
    requires token in c.reconnections && c.reconnections[token].sessionId == sid && c.reconnections[token].conn == prev
    ensures EntriesOk(d)
  {
    forall t | t in d.reconnections ensures EntryOk(d, t) {
      assert EntryOk(c, t) && EntryOk(c, token);
      if c.reconnections[t].sessionId == sid { OneEntryPerSession(c, t, token); }
    }
  }

  lemma TakenOverKeepsWaiting(c: RoomContext, d: RoomContext, conn: Id, prev: Id, token: Id, sid: Id)
    requires WaitingOk(c) && TakenOver(c, d, conn, prev, token, sid)
    requires token in c.reconnections && c.reconnections[token].sessionId == sid
    ensures WaitingOk(d)
  {
    forall s | s in d.seats && d.seats[s].waiting ensures HasEntry(d, s) {
      assert HasEntry(c, s);
      var t :| t in c.reconnections && c.reconnections[t].sessionId == s;
      assert t in d.reconnections;
    }
  }

  lemma TakenOverKeepsClients(c: RoomContext, d: RoomContext, conn: Id, prev: Id, token: Id, sid: Id)
    requires ClientsOk(c) && TokensOk(c) && TakenOver(c, d, conn, prev, token, sid) && conn in c.conns
    requires prev in c.clients && Session(c, prev) == sid == Session(c, conn) && Token(c, conn) == ""
    ensures ClientsOk(d) && TokensOk(d)
  {
  }

  lemma TakenOverKeepsSeats(c: RoomContext, d: RoomContext, conn: Id, prev: Id, token: Id, sid: Id)
    requires SeatsOk(c, None) && TakenOver(c, d, conn, prev, token, sid) && Session(c, conn) == sid
    ensures SeatsOk(d, None)
  {
  }

  lemma TakenOverKeepsHistory(c: RoomContext, d: RoomContext, conn: Id, prev: Id, token: Id, sid: Id)
    requires ClientsOk(c) && TokensOk(c) && HistoryOk(c, None) && TakenOver(c, d, conn, prev, token, sid)
    requires prev in c.clients && Session(c, prev) == sid == Session(c, conn)
    requires Token(c, prev) == token != "" && Token(c, conn) == ""
    ensures HistoryOk(d, None)
  {
  }

  lemma TakenOverKeepsCounts(c: RoomContext, d: RoomContext, conn: Id, prev: Id, token: Id, sid: Id)
    requires CapacityOk(c) && ListingOk(c) && TakenOver(c, d, conn, prev, token, sid)
    requires sid in c.seats && c.seats[sid].waiting
    ensures CapacityOk(d) && ListingOk(d)
  {
    assert PendingSeats(d) == PendingSeats(c);
  }

  lemma TakenOverKeepsInv(c: RoomContext, d: RoomContext, conn: Id, prev: Id, token: Id, sid: Id)
    requires Inv(c, None, None) && conn in c.conns && conn !in c.clients && Token(c, conn) == ""
    requires token in c.reconnections && EntryOk(c, token) && c.reconnections[token].sessionId == sid == Session(c, conn)
    requires prev == c.reconnections[token].conn && TakenOver(c, d, conn, prev, token, sid)
    ensures Inv(d, None, None)
  {
    TakenOverKeepsEntries(c, d, conn, prev, token, sid);
    TakenOverKeepsWaiting(c, d, conn, prev, token, sid);
    TakenOverKeepsClients(c, d, conn, prev, token, sid);
    TakenOverKeepsSeats(c, d, conn, prev, token, sid);
    TakenOverKeepsHistory(c, d, conn, prev, token, sid);
    TakenOverKeepsCounts(c, d, conn, prev, token, sid);
  }

  lemma TakeOverKeepsInv(c: RoomContext, conn: Id, token: Id)
    requires Inv(c, None, None) && conn in c.conns && conn !in c.clients && Token(c, conn) == ""
    requires TokenFits(c, token, Session(c, conn))
    ensures Inv(TakeOver(c, conn, token), None, None)
  {
    var prev, sid := c.reconnections[token].conn, Session(c, conn);
    assert EntryOk(c, token);
    ReplacedListed(c, c.clients, sid, prev, conn);
    TakenOverFrom(c, TakeOver(c, conn, token), conn, prev, token, sid);
    TakenOverKeepsInv(c, TakeOver(c, conn, token), conn, prev, token, sid);
  }

  lemma ReconnectKeepsInv(c: RoomContext, conn: Id, token: Id, calls: seq<Call>, newToken: Id)
    requires Inv(c, None, None) && conn in c.conns && conn !in c.clients && Token(c, conn) == ""
    requires TokenFits(c, token, Session(c, conn)) ==> LegalCalls(TakeOver(c, conn, token), calls, None)
    requires newToken != "" && newToken !in c.issued
    ensures Inv(Reconnect(c, conn, token, calls, newToken), None, None)
  {
    if TokenFits(c, token, Session(c, conn)) {
      var c1 := TakeOver(c, conn, token);
      TakeOverKeepsInv(c, conn, token);
      CallsKeepInv(c1, calls, None, None);
      var c2 := DoCalls(c1, calls);
      assert Token(c1, conn) == "" && conn in c1.conns;
      assert Token(c2, conn) == Token(c1, conn);
      WelcomeTokens(c2, conn, Reconnected, newToken);
      TokenedKeepsInv(c2, Welcome(c2, conn, Reconnected, newToken), conn, newToken);
    }
  }

  // ------------------------------------------------------------------
  // Leaving
  // ------------------------------------------------------------------

  /** Log that `on_leave` runs now for a session that has no seat and is nobody else's. */
  lemma LogLeaveKeepsHistory(c: RoomContext, d: RoomContext, sid: Id)
    requires HistoryOk(c, None) && sid !in c.left && sid !in c.seats && sid in c.issued
    requires d == c.(left := c.left + [sid])
    ensures HistoryOk(d, Some(sid))
  {
    SameHandlesNames(c, d);
  }

  lemma LogLeaveKeepsInv(c: RoomContext, sid: Id)
    requires Inv(c, None, None) && sid !in c.left && sid !in c.seats && sid in c.issued
    ensures Inv(c.(left := c.left + [sid]), None, Some(sid))
  {
    var d := c.(left := c.left + [sid]);
    LogLeaveKeepsHistory(c, d, sid);
    ClientsCarry(c, d);
    TokensCarry(c, d);
    SeatsCarry(c, d, None);
    EntriesCarry(c, d);
    assert PendingSeats(d) == PendingSeats(c);
    CountsCarry(c, d);
  }

  lemma {:induction false} OthersSame(c: RoomContext, d: RoomContext, list: seq<Id>, sid: Id)
    requires SameHandles(c.conns, d.conns)
    ensures Others(c, list, sid) == Others(d, list, sid)
    decreases |list|
  {
    if list != [] {
      assert Session(c, list[0]) == Session(d, list[0]);
      OthersSame(c, d, list[1..], sid);
    }
  }

  lemma UnlistUnlists(c: RoomContext, d: RoomContext, sid: Id)
    requires SameCore(c, d)
    ensures Unlisted(c, SyncListing(d.(views := d.views - {sid}, clients := Others(d, d.clients, sid))), sid)
  {
    OthersSame(c, d, c.clients, sid);
    SyncKeepsCore(d.(views := d.views - {sid}, clients := Others(d, d.clients, sid)));
  }

  /** After the hook the handle is closed and the session is unlisted. */
  lemma EndLeaveUnlists(c: RoomContext, conn: Id, sid: Id, code: Option<nat>)
    ensures Unlisted(c, EndLeave(c, conn, sid, code), sid)
  {
    if conn in c.conns {
      var c1 := WithClient(c, conn, c.conns[conn].(state := Closed));
      WithClientKeepsCore(c, conn, c.conns[conn].(state := Closed));
      if code.Some? {
        WithClientKeepsCore(c1, conn, c1.conns[conn].Leave(code.value));
        SameCoreTransitive(c, c1, WithClient(c1, conn, c1.conns[conn].Leave(code.value)));
        UnlistUnlists(c, WithClient(c1, conn, c1.conns[conn].Leave(code.value)), sid);
      } else {
        UnlistUnlists(c, c1, sid);
      }
    } else {
      UnlistUnlists(c, c, sid);
    }
  }

  lemma EndLeaveKeepsInv(c: RoomContext, conn: Id, sid: Id, code: Option<nat>)
    requires Inv(c, None, Some(sid)) && sid in c.left
    ensures Inv(EndLeave(c, conn, sid, code), None, None)
  {
    forall t | t in c.reconnections ensures c.reconnections[t].sessionId != sid { assert EntryOk(c, t); }
    EndLeaveUnlists(c, conn, sid, code);
    UnlistKeepsInv(c, EndLeave(c, conn, sid, code), sid, Some(sid));
  }

  lemma FinishLeaveKeepsInv(c: RoomContext, conn: Id, code: Option<nat>, calls: seq<Call>)
    requires Inv(c, None, None) && conn in c.conns
    requires Session(c, conn) !in c.left && Session(c, conn) !in c.seats && Session(c, conn) in c.issued
    requires LegalCalls(c.(left := c.left + [Session(c, conn)]), calls, Some(Session(c, conn)))
    ensures Inv(FinishLeave(c, conn, code, calls), None, None)
  {
    var sid := Session(c, conn);
    var c1 := c.(left := c.left + [sid]);
    LogLeaveKeepsInv(c, sid);
    CallsKeepInv(c1, calls, None, Some(sid));
    EndLeaveKeepsInv(DoCalls(c1, calls), conn, sid, code);
  }

  /** After `on_drop`, a seat of the dropped session is held by the dropped client's own token. */
  lemma HeldByOwnToken(c: RoomContext, d: RoomContext, conn: Id)
    requires Inv(c, None, None) && Inv(d, None, None) && Framed(c, d) && conn in c.clients
    ensures Session(c, conn) in d.seats ==> Token(d, conn) in d.reconnections
  {
    var sid := Session(c, conn);
    if sid in d.seats {
      assert d.seats[sid].waiting;
      assert HasEntry(d, sid);
      var t :| t in d.reconnections && d.reconnections[t].sessionId == sid;
      assert EntryOk(d, t);
      var i := d.reconnections[t].conn;
      assert i in c.clients && Session(c, i) == Session(d, i) == sid;
    }
  }

  /** What the hooks of `leave_client` may do. */
  ghost predicate LeavePermitted(c: RoomContext, conn: Id, consented: bool, dropCalls: seq<Call>, leaveCalls: seq<Call>)
    requires conn in c.conns
  {
    var sid := Session(c, conn);
    var c1 := WithClient(c, conn, c.conns[conn].(state := Leaving));
    var drops := !consented && !c.disposing;
    var c2 := if drops then DoCalls(c1, dropCalls) else c1;
    && (drops ==> LegalCalls(c1, dropCalls, None))
    && (Token(c2, conn) !in c2.reconnections ==> LegalCalls(c2.(left := c2.left + [sid]), leaveCalls, Some(sid)))
  }

  /** Up to the decision, whether or not `on_drop` ran. */
  lemma DropKeepsInv(c: RoomContext, c1: RoomContext, drops: bool, calls: seq<Call>)
    requires Inv(c, None, None) && SameCore(c, c1) && SameListing(c, c1)
    requires drops ==> LegalCalls(c1, calls, None)
    ensures var c2 := if drops then DoCalls(c1, calls) else c1;
            Inv(c2, None, None) && Framed(c, c2)
  {
    SameListingOk(c, c1);
    SameCoreKeepsInv(c, c1, None, None);
    SameCoreFramed(c, c1);
    if drops {
      CallsKeepInv(c1, calls, None, None);
      FramedTransitive(c, c1, DoCalls(c1, calls));
    }
  }

  lemma RecycleKeepsInv(c: RoomContext, conn: Id, code: nat)
    requires Inv(c, None, None) && conn in c.conns
    ensures Inv(WithClient(c, conn, c.conns[conn].Queue(Close(code))), None, None)
  {
    WithClientKeepsCore(c, conn, c.conns[conn].Queue(Close(code)));
    SameListingOk(c, WithClient(c, conn, c.conns[conn].Queue(Close(code))));
    SameCoreKeepsInv(c, WithClient(c, conn, c.conns[conn].Queue(Close(code))), None, None);
  }

  lemma LeaveKeepsInv(c: RoomContext, conn: Id, code: nat, consented: bool, dropCalls: seq<Call>, leaveCalls: seq<Call>)
    requires Inv(c, None, None) && conn in c.clients
    requires LeavePermitted(c, conn, consented, dropCalls, leaveCalls)
    ensures Inv(LeaveRoom(c, conn, code, consented, dropCalls, leaveCalls), None, None)
  {
    if !c.conns[conn].state.Leaving? && !c.conns[conn].state.Closed? {
      var c1 := WithClient(c, conn, c.conns[conn].(state := Leaving));
      var drops := !consented && !c.disposing;
      var c2 := if drops then DoCalls(c1, dropCalls) else c1;
      WithClientKeepsCore(c, conn, c.conns[conn].(state := Leaving));
      DropKeepsInv(c, c1, drops, dropCalls);
      HeldByOwnToken(c, c2, conn);
      assert Session(c2, conn) == Session(c, conn);
      if c2.conns[conn].token in c2.reconnections {
        RecycleKeepsInv(c2, conn, code);
      } else {
        FinishLeaveKeepsInv(c2, conn, if consented then Some(code) else None, leaveCalls);
      }
    }
  }

  // ------------------------------------------------------------------
  // Deadlines
  // ------------------------------------------------------------------

  /** The context when a reconnection has expired and its `on_leave` is about to run. */
  ghost predicate Expired(c: RoomContext, d: RoomContext, token: Id, sid: Id) {
    && d.conns == c.conns && d.clients == c.clients
    && d.reconnections == c.reconnections - {token} && d.seats == c.seats - {sid} && d.left == c.left + [sid]
    && d.maxClients == c.maxClients && d.accepted == c.accepted && d.issued == c.issued && SameListing(c, d)
  }

  lemma ExpiredKeepsEntries(c: RoomContext, d: RoomContext, token: Id, sid: Id)
    requires ClientsOk(c) && EntriesOk(c) && WaitingOk(c) && Expired(c, d, token, sid)
    requires token in c.reconnections && c.reconnections[token].sessionId == sid
    ensures EntriesOk(d) && WaitingOk(d)
  {
    forall t | t in d.reconnections ensures EntryOk(d, t) {
      assert EntryOk(c, t);
      if c.reconnections[t].sessionId == sid { OneEntryPerSession(c, t, token); }
    }
    forall s | s in d.seats && d.seats[s].waiting ensures HasEntry(d, s) {
      assert HasEntry(c, s);
      var t :| t in c.reconnections && c.reconnections[t].sessionId == s;
      assert t in d.reconnections;
    }
  }

  lemma ExpiredKeepsRest(c: RoomContext, d: RoomContext, token: Id, conn: Id, sid: Id)
    requires ClientsOk(c) && TokensOk(c) && SeatsOk(c, None) && HistoryOk(c, None) && Expired(c, d, token, sid)
    requires conn in c.clients && Session(c, conn) == sid
    ensures ClientsOk(d) && TokensOk(d) && SeatsOk(d, None) && HistoryOk(d, Some(sid))
  {
    SameHandlesNames(c, d);
  }

  lemma ExpiredKeepsCounts(c: RoomContext, d: RoomContext, token: Id, sid: Id)
    requires CapacityOk(c) && ListingOk(c) && Expired(c, d, token, sid) && sid in c.seats && c.seats[sid].waiting
    ensures CapacityOk(d) && ListingOk(d)
  {
    assert PendingSeats(d) == PendingSeats(c);
  }

  lemma ExpiredKeepsInv(c: RoomContext, d: RoomContext, token: Id, sid: Id)
    requires Inv(c, None, None) && Expired(c, d, token, sid)
    requires token in c.reconnections && c.reconnections[token].sessionId == sid
    ensures Inv(d, None, Some(sid))
  {
    assert EntryOk(c, token);
    ExpiredKeepsEntries(c, d, token, sid);
    ExpiredKeepsRest(c, d, token, c.reconnections[token].conn, sid);
    ExpiredKeepsCounts(c, d, token, sid);
  }

  ghost predicate ExpiryPermitted(c: RoomContext, token: Id, calls: seq<Call>) {
    token in c.reconnections ==>
      var sid := c.reconnections[token].sessionId;
      LegalCalls(
        c.(reconnections := c.reconnections - {token}, seats := c.seats - {sid}, left := c.left + [sid]), calls, Some(sid))
  }

  lemma ExpireTokenKeepsInv(c: RoomContext, token: Id, calls: seq<Call>)
    requires Inv(c, None, None) && ExpiryPermitted(c, token, calls)
    ensures Inv(ExpireToken(c, token, calls), None, None)
  {
    if token in c.reconnections {
      var sid := c.reconnections[token].sessionId;
      var c1 := c.(reconnections := c.reconnections - {token}, seats := c.seats - {sid}, left := c.left + [sid]);
      ExpiredKeepsInv(c, c1, token, sid);
      CallsKeepInv(c1, calls, None, Some(sid));
      EndLeaveKeepsInv(DoCalls(c1, calls), c.reconnections[token].conn, sid, None);
    }
  }

  ghost predicate ExpiriesPermitted(c: RoomContext, expired: seq<Expiry>)
    decreases |expired|
  {
    expired == [] || (
      && ExpiryPermitted(c, expired[0].token, expired[0].calls)
      && ExpiriesPermitted(ExpireToken(c, expired[0].token, expired[0].calls), expired[1..]))
  }

  lemma {:induction false} ExpireTokensKeepsInv(c: RoomContext, expired: seq<Expiry>)
    requires Inv(c, None, None) && ExpiriesPermitted(c, expired)
    ensures Inv(ExpireTokens(c, expired), None, None)
    decreases |expired|
  {
    if expired != [] {
      ExpireTokenKeepsInv(c, expired[0].token, expired[0].calls);
      ExpireTokensKeepsInv(ExpireToken(c, expired[0].token, expired[0].calls), expired[1..]);
    }
  }

  /** The context with some pending seats gone. */
  ghost predicate SeatsExpired(c: RoomContext, d: RoomContext) {
    && d.conns == c.conns && d.clients == c.clients && d.reconnections == c.reconnections
    && (forall sid :: sid in d.seats ==> sid in c.seats && d.seats[sid] == c.seats[sid])
    && (forall sid :: sid in c.seats && c.seats[sid].waiting ==> sid in d.seats)
    && d.maxClients == c.maxClients && d.left == c.left && d.accepted == c.accepted && d.issued == c.issued
  }

  lemma SeatsExpiredKeepsInv(c: RoomContext, d: RoomContext)
    requires Inv(c, None, None) && SeatsExpired(c, d) && ListingOk(d)
    ensures Inv(d, None, None)
  {
    SameHandlesNames(c, d);
    SubsetSize(PendingSeats(d), PendingSeats(c));
    EntriesCarry(c, d);
  }

  lemma ExpireSeatsKeepsInv(c: RoomContext, now: int)
    requires Inv(c, None, None)
    ensures Inv(ExpireSeats(c, now), None, None)
  {
    if ExpiredSeats(c, now) != {} {
      var d := c.(seats := c.seats - ExpiredSeats(c, now));
      SyncKeepsCore(d);
      SeatsExpiredKeepsInv(c, SyncListing(d));
    }
  }
}
