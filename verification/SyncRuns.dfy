/** Whole runs of the replica protocol: joins, edits, patches, drops, reconnects and leaves in any order. */
module SyncRuns {
  import opened Json
  import opened JsonPatch
  import opened Diff
  import opened DiffRepeats
  import opened Room
  import opened RoomInvariant
  import opened Actor
  import opened ActorInvariant
  import opened ActorRuns
  import opened Sync

  // ------------------------------------------------------------------
  // When the shared patch stream is sound
  // ------------------------------------------------------------------

  /** A full state sent now agrees with the baseline the next patch is computed from. */
  ghost predicate Settled(c: RoomContext) {
    c.filter.Some? || (c.slot.Some? && c.slot.value.typed == c.slot.value.snapshot)
  }

  ghost predicate ConnectSettled(c: RoomContext, conn: Id, sid: Id, token: Option<Id>, calls: seq<Call>) {
    var c0 := WithClient(c, conn, NewClient(sid));
    match token
    case None => sid in c.seats ==> Settled(DoCalls(TakeSeat(c0, conn), calls))
    case Some(t) => TokenFits(c0, t, sid) ==> Settled(DoCalls(TakeOver(c0, conn, t), calls))
  }

  ghost predicate ResetsNothing(c: RoomContext, e: Event) {
    match e
    case EvReserveSeat(_, _, calls, _, _) => !Resets(c, calls)
    case EvConnect(_, _, _, calls, _, _) => !Resets(c, calls)
    case EvMessage(_, msg) => (msg.Leave? ==> !Resets(c, msg.leaveCalls)) && (msg.Data? ==> !Resets(c, msg.handlerCalls))
    case EvDisconnected(_, _, dropCalls, leaveCalls) => !Resets(c, dropCalls) && !Resets(c, leaveCalls)
    case EvCommand(calls) => !Resets(c, calls)
    case EvDeadlines(_, expired, timerCalls) => !Resets(c, timerCalls) && forall x :: x in expired ==> !Resets(c, x.calls)
    case _ => true
  }

  /** Without a filter: nobody replaces the whole state, and clients join only when nothing is waiting to be patched. */
  ghost predicate Synced(c: RoomContext, e: Event) {
    && ResetsNothing(c, e)
    && (e.EvConnect? ==> ConnectSettled(c, e.conn, e.session, e.token, e.hookCalls))
  }

  // ------------------------------------------------------------------
  // The handshake
  // ------------------------------------------------------------------

  /** The full state is sent and recorded. */
  lemma SendFullStateSends(c: RoomContext, conn: Id)
    requires conn in c.conns && c.slot.Some?
    ensures var d, full := SendFullState(c, conn), FullStateFor(c, c.conns[conn]);
            && full.Some? && d.views == c.views[c.conns[conn].sessionId := full.value]
            && d.conns == c.conns[conn := c.conns[conn].RawNow(StateFrame(full.value))]
            && d.clients == c.clients && d.slot == c.slot && d.filter == c.filter
            && Held(d.conns[conn].outbox) == full && Diffed(d.conns[conn].outbox)
  {
    HeldAppend(c.conns[conn].outbox, Bytes(StateFrame(FullStateFor(c, c.conns[conn]).value)));
  }

  /** The token comes first, then the full state, then whatever was sent while the client was joining, in order. */
  lemma HandshakeOrder(c: RoomContext, conn: Id, state: ClientState, token: Id)
    requires conn in c.conns && c.slot.Some?
    ensures var d := Welcome(c, conn, state, token);
            && conn in d.conns && d.conns[conn].state == state && d.conns[conn].token == token && d.conns[conn].pending == []
            && FullStateFor(c, c.conns[conn]).Some?
            && d.conns[conn].outbox == c.conns[conn].outbox
               + ([Bytes(JoinFrame(token)), Bytes(StateFrame(FullStateFor(c, c.conns[conn]).value))] + AsBytes(c.conns[conn].pending))
  {
    var client := c.conns[conn].(state := state, token := token).RawNow(JoinFrame(token));
    var c1 := WithClient(c.(issued := c.issued + {token}), conn, client);
    SendFullStateSends(c1, conn);
  }

  /** Seen from outside, a handshake leaves the client holding the full state, recorded as its view. */
  ghost predicate Greeted(c: RoomContext, d: RoomContext, conn: Id)
    requires conn in c.conns && c.slot.Some?
  {
    var full := FullStateFor(c, c.conns[conn]);
    && full.Some? && d.conns.Keys == c.conns.Keys && (forall i :: i in c.conns && i != conn ==> d.conns[i] == c.conns[i])
    && d.conns[conn].sessionId == c.conns[conn].sessionId && Held(d.conns[conn].outbox) == full && d.conns[conn].pending == []
    && Diffed(d.conns[conn].outbox)
    && d.views == c.views[c.conns[conn].sessionId := full.value]
    && d.clients == c.clients && d.slot == c.slot && d.filter == c.filter
  }

  lemma WelcomeGreets(c: RoomContext, conn: Id, state: ClientState, token: Id)
    requires conn in c.conns && c.slot.Some? && DataOnly(c.conns[conn].pending)
    ensures Greeted(c, Welcome(c, conn, state, token), conn)
  {
    var client := c.conns[conn].(state := state, token := token).RawNow(JoinFrame(token));
    var c1 := WithClient(c.(issued := c.issued + {token}), conn, client);
    SendFullStateSends(c1, conn);
    var c2 := SendFullState(c1, conn);
    HeldFlush(c2.conns[conn].outbox, c2.conns[conn].pending);
  }

  lemma GreetedKeepsSync(c: RoomContext, d: RoomContext, conn: Id)
    requires SyncOk(c) && conn in c.conns && Greeted(c, d, conn) && Settled(c)
    requires forall i :: i in c.clients && i in c.conns && c.conns[i].sessionId == c.conns[conn].sessionId ==> i == conn
    ensures SyncOk(d) && d.filter == c.filter
  {
    forall i | JoinedHere(d, i) ensures InSync(d, i) {
      if i != conn { assert JoinedHere(c, i) && InSync(c, i); }
    }
  }

  lemma WelcomeKeepsSync(c: RoomContext, conn: Id, state: ClientState, token: Id)
    requires SyncOk(c) && conn in c.conns && Settled(c)
    requires forall i :: i in c.clients && Session(c, i) == Session(c, conn) ==> i == conn
    ensures SyncOk(Welcome(c, conn, state, token)) && Welcome(c, conn, state, token).filter == c.filter
  {
    WelcomeGreets(c, conn, state, token);
    GreetedKeepsSync(c, Welcome(c, conn, state, token), conn);
  }

  // ------------------------------------------------------------------
  // Connecting
  // ------------------------------------------------------------------

  lemma NewHandleQuiet(c: RoomContext, conn: Id, sid: Id)
    requires conn !in c.conns && conn !in c.clients
    ensures Quiet(c, WithClient(c, conn, NewClient(sid)))
  {
  }

  lemma TakeSeatQuiet(c: RoomContext, conn: Id)
    requires conn in c.conns && c.conns[conn].sessionId in c.seats
    ensures Quiet(c, TakeSeat(c, conn))
  {
    var joining := c.conns[conn].(auth := c.seats[c.conns[conn].sessionId].auth, state := Joining);
    var c1 := WithClient(c, conn, joining);
    WithClientQuiet(c, conn, joining);
    BookkeepingQuiet(c1, TakeSeat(c, conn));
    QuietTransitive(c, c1, TakeSeat(c, conn));
  }

  lemma RefuseKeepsSync(c: RoomContext, conn: Id)
    requires SyncOk(c) && conn in c.conns
    ensures SyncOk(Refuse(c, conn)) && Refuse(c, conn).filter == c.filter
  {
    var c1 := c.(clients := Others(c, c.clients, c.conns[conn].sessionId));
    BookkeepingQuiet(c, c1);
    QuietKeepsSync(c, c1);
    var refused := c1.conns[conn].RawNow(ErrorFrame).Leave(WITH_ERROR);
    FollowsQueue(c1.conns[conn], Bytes(ErrorFrame));
    WithClientQuiet(c1, conn, refused);
    QuietKeepsSync(c1, WithClient(c1, conn, refused));
    SyncListingKeepsSync(WithClient(c1, conn, refused));
  }

  lemma SyncListingKeepsSync(c: RoomContext)
    requires SyncOk(c)
    ensures SyncOk(SyncListing(c)) && SyncListing(c).filter == c.filter
  {
    BookkeepingQuiet(c, SyncListing(c));
    QuietKeepsSync(c, SyncListing(c));
  }

  lemma EndJoinKeepsSync(c: RoomContext, conn: Id, accepted: bool, newToken: Id)
    requires SyncOk(c) && conn in c.conns && Settled(c)
    requires forall i :: i in c.clients && Session(c, i) == Session(c, conn) ==> i == conn
    ensures SyncOk(EndJoin(c, conn, accepted, newToken)) && EndJoin(c, conn, accepted, newToken).filter == c.filter
  {
    var c1 := c.(seats := c.seats - {c.conns[conn].sessionId});
    BookkeepingQuiet(c, c1);
    QuietKeepsSync(c, c1);
    if accepted && !c1.conns[conn].state.Leaving? {
      var c2 := c1.(hadClients := true);
      BookkeepingQuiet(c, c2);
      QuietKeepsSync(c, c2);
      assert forall i :: Session(c2, i) == Session(c, i);
      WelcomeKeepsSync(c2, conn, Joined, newToken);
    } else {
      RefuseKeepsSync(c1, conn);
    }
  }

  /** The other clients of the hook's context were there before it. */
  lemma AloneAfterHook(c: RoomContext, d: RoomContext, conn: Id)
    requires ClientsOk(c) && Framed(c, d) && conn in c.clients
    ensures conn in d.conns && forall i :: i in d.clients && Session(d, i) == Session(d, conn) ==> i == conn
  {
    assert forall i :: i in c.conns ==> Session(d, i) == Session(c, i);
  }

  lemma JoinKeepsSync(c: RoomContext, conn: Id, calls: seq<Call>, accepted: bool, newToken: Id)
    requires Inv(c, None, None) && SyncOk(c) && conn in c.conns && conn !in c.clients && Token(c, conn) == ""
    requires var sid := Session(c, conn);
             sid in c.seats ==>
               && !c.seats[sid].waiting && LegalCalls(TakeSeat(c, conn), calls, None)
               && Settled(DoCalls(TakeSeat(c, conn), calls)) && !Resets(c, calls)
    ensures SyncOk(Join(c, conn, calls, accepted, newToken)) && Join(c, conn, calls, accepted, newToken).filter == c.filter
  {
    var sid := Session(c, conn);
    if sid in c.seats && !c.seats[sid].consumed {
      var c1 := TakeSeat(c, conn);
      TakeSeatTakes(c, conn);
      TakeSeatKeepsInv(c, c1, conn, sid);
      TakeSeatQuiet(c, conn);
      QuietKeepsSync(c, c1);
      CallsKeepInv(c1, calls, Some(sid), None);
      CallsKeepSync(c1, calls, Some(sid), None);
      AloneAfterHook(c1, DoCalls(c1, calls), conn);
      EndJoinKeepsSync(DoCalls(c1, calls), conn, accepted, newToken);
    }
  }

  /** What a takeover does to handles: only the two connections of the session change. */
  ghost predicate HandedOver(c: RoomContext, d: RoomContext, conn: Id, prev: Id) {
    && d.filter == c.filter && d.slot == c.slot && d.views == c.views && d.conns.Keys == c.conns.Keys
    && conn in c.conns && !d.conns[conn].IsJoined()
    && (forall i :: i in c.conns && i != conn && i != prev ==> d.conns[i] == c.conns[i])
    && (forall i :: i in c.conns ==> d.conns[i].pending == c.conns[i].pending)
  }

  lemma TakeOverHandsOver(c: RoomContext, conn: Id, token: Id)
    requires conn in c.conns && TokenFits(c, token, Session(c, conn))
    ensures HandedOver(c, TakeOver(c, conn, token), conn, c.reconnections[token].conn)
  {
  }

  /** The replaced handle counts as joined from now on, but it is no longer listed. */
  lemma HandedOverQuiet(c: RoomContext, d: RoomContext, conn: Id, prev: Id)
    requires HandedOver(c, d, conn, prev)
    requires forall i :: i in d.clients ==> i == conn || (i in c.clients && i != prev)
    ensures Quiet(c, d)
  {
  }

  lemma ReconnectKeepsSync(c: RoomContext, conn: Id, token: Id, calls: seq<Call>, newToken: Id)
    requires Inv(c, None, None) && SyncOk(c) && conn in c.conns && conn !in c.clients && Token(c, conn) == ""
    requires TokenFits(c, token, Session(c, conn)) ==>
               && LegalCalls(TakeOver(c, conn, token), calls, None)
               && Settled(DoCalls(TakeOver(c, conn, token), calls)) && !Resets(c, calls)
    ensures SyncOk(Reconnect(c, conn, token, calls, newToken)) && Reconnect(c, conn, token, calls, newToken).filter == c.filter
  {
    if TokenFits(c, token, Session(c, conn)) {
      var c1 := TakeOver(c, conn, token);
      assert EntryOk(c, token);
      ReplacedListed(c, c.clients, Session(c, conn), c.reconnections[token].conn, conn);
      TakeOverKeepsInv(c, conn, token);
      TakeOverHandsOver(c, conn, token);
      HandedOverQuiet(c, c1, conn, c.reconnections[token].conn);
      QuietKeepsSync(c, c1);
      CallsKeepInv(c1, calls, None, None);
      CallsKeepSync(c1, calls, None, None);
      AloneAfterHook(c1, DoCalls(c1, calls), conn);
      WelcomeKeepsSync(DoCalls(c1, calls), conn, Reconnected, newToken);
    }
  }

  lemma ConnectKeepsSync(c: RoomContext, conn: Id, sid: Id, token: Option<Id>, calls: seq<Call>, accepted: bool, newToken: Id)
    requires Inv(c, None, None) && SyncOk(c) && ConnectPermitted(c, conn, sid, token, calls, newToken)
    requires !Resets(c, calls) && ConnectSettled(c, conn, sid, token, calls)
    ensures SyncOk(Connect(c, conn, sid, token, calls, accepted, newToken))
    ensures Connect(c, conn, sid, token, calls, accepted, newToken).filter == c.filter
  {
    var c0 := WithClient(c, conn, NewClient(sid));
    NewHandleKeepsInv(c, conn, sid);
    NewHandleQuiet(c, conn, sid);
    QuietKeepsSync(c, c0);
    match token
    case None => JoinKeepsSync(c0, conn, calls, accepted, newToken);
    case Some(t) => ReconnectKeepsSync(c0, conn, t, calls, newToken);
  }

  // ------------------------------------------------------------------
  // Leaving, deadlines and the rest
  // ------------------------------------------------------------------

  function Closing(c: RoomContext, conn: Id, code: Option<nat>): RoomContext {
    var c1 := if conn in c.conns then WithClient(c, conn, c.conns[conn].(state := Closed)) else c;
    if code.Some? && conn in c1.conns then WithClient(c1, conn, c1.conns[conn].Leave(code.value)) else c1
  }

  lemma ClosingKeepsSync(c: RoomContext, conn: Id, code: Option<nat>)
    requires SyncOk(c)
    ensures SyncOk(Closing(c, conn, code)) && Closing(c, conn, code).filter == c.filter
  {
    if conn in c.conns {
      var c1 := WithClient(c, conn, c.conns[conn].(state := Closed));
      HandleChangeKeepsSync(c, conn, c.conns[conn].(state := Closed));
      if code.Some? { HandleChangeKeepsSync(c1, conn, c1.conns[conn].Leave(code.value)); }
    }
  }

  lemma EndLeaveKeepsSync(c: RoomContext, conn: Id, sid: Id, code: Option<nat>)
    requires SyncOk(c)
    ensures SyncOk(EndLeave(c, conn, sid, code)) && EndLeave(c, conn, sid, code).filter == c.filter
  {
    var c2 := Closing(c, conn, code);
    ClosingKeepsSync(c, conn, code);
    UnlistQuiet(c2, EndLeave(c, conn, sid, code), sid);
    QuietKeepsSync(c2, EndLeave(c, conn, sid, code));
  }

  lemma FinishLeaveKeepsSync(c: RoomContext, conn: Id, code: Option<nat>, calls: seq<Call>)
    requires Inv(c, None, None) && SyncOk(c) && conn in c.conns && !Resets(c, calls)
    requires Session(c, conn) !in c.left && Session(c, conn) !in c.seats && Session(c, conn) in c.issued
    requires LegalCalls(c.(left := c.left + [Session(c, conn)]), calls, Some(Session(c, conn)))
    ensures SyncOk(FinishLeave(c, conn, code, calls)) && FinishLeave(c, conn, code, calls).filter == c.filter
  {
    var sid := Session(c, conn);
    var c1 := c.(left := c.left + [sid]);
    LogLeaveKeepsInv(c, sid);
    BookkeepingQuiet(c, c1);
    QuietKeepsSync(c, c1);
    CallsKeepSync(c1, calls, None, Some(sid));
    EndLeaveKeepsSync(DoCalls(c1, calls), conn, sid, code);
  }

  lemma HandleChangeKeepsSync(c: RoomContext, conn: Id, client: Client)
    requires SyncOk(c) && conn in c.conns && Follows(c.conns[conn], client)
    ensures SyncOk(WithClient(c, conn, client)) && WithClient(c, conn, client).filter == c.filter
  {
    WithClientQuiet(c, conn, client);
    QuietKeepsSync(c, WithClient(c, conn, client));
  }

  lemma DropKeepsSync(c: RoomContext, c1: RoomContext, drops: bool, calls: seq<Call>)
    requires Inv(c, None, None) && SyncOk(c1) && SameCore(c, c1) && SameListing(c, c1) && !Resets(c1, calls)
    requires drops ==> LegalCalls(c1, calls, None)
    ensures var c2 := if drops then DoCalls(c1, calls) else c1; SyncOk(c2) && c2.filter == c1.filter
  {
    SameListingOk(c, c1);
    SameCoreKeepsInv(c, c1, None, None);
    if drops { CallsKeepSync(c1, calls, None, None); }
  }

  /** A client that leaves for good was not logged before and holds no seat. */
  lemma ReadyToFinish(c: RoomContext, c2: RoomContext, conn: Id)
    requires Inv(c, None, None) && Inv(c2, None, None) && Framed(c, c2) && conn in c.clients
    ensures conn in c2.conns && Session(c2, conn) == Session(c, conn)
    ensures Token(c2, conn) !in c2.reconnections ==>
              Session(c2, conn) !in c2.left && Session(c2, conn) !in c2.seats && Session(c2, conn) in c2.issued
  {
    HeldByOwnToken(c, c2, conn);
  }

  lemma AfterDropKeepsSync(c: RoomContext, conn: Id, code: nat, consented: bool, calls: seq<Call>)
    requires Inv(c, None, None) && SyncOk(c) && conn in c.conns && !Resets(c, calls)
    requires Token(c, conn) !in c.reconnections ==>
               && Session(c, conn) !in c.left && Session(c, conn) !in c.seats && Session(c, conn) in c.issued
               && LegalCalls(c.(left := c.left + [Session(c, conn)]), calls, Some(Session(c, conn)))
    ensures SyncOk(AfterDrop(c, conn, code, consented, calls)) && AfterDrop(c, conn, code, consented, calls).filter == c.filter
  {
    if Token(c, conn) in c.reconnections {
      HandleChangeKeepsSync(c, conn, c.conns[conn].Queue(Close(code)));
    } else {
      FinishLeaveKeepsSync(c, conn, if consented then Some(code) else None, calls);
    }
  }

  /** Up to the end of `on_drop`. */
  lemma DroppedKeepsSync(c: RoomContext, c1: RoomContext, conn: Id, drops: bool, calls: seq<Call>)
    requires Inv(c, None, None) && SyncOk(c) && conn in c.clients && !Resets(c, calls)
    requires conn in c.conns && c1 == WithClient(c, conn, c.conns[conn].(state := Leaving)) && (drops ==> LegalCalls(c1, calls, None))
    ensures var c2 := if drops then DoCalls(c1, calls) else c1;
            Inv(c2, None, None) && Framed(c, c2) && SyncOk(c2) && c2.filter == c.filter
  {
    WithClientKeepsCore(c, conn, c.conns[conn].(state := Leaving));
    HandleChangeKeepsSync(c, conn, c.conns[conn].(state := Leaving));
    DropKeepsInv(c, c1, drops, calls);
    DropKeepsSync(c, c1, drops, calls);
  }

  lemma LeaveKeepsSync(c: RoomContext, conn: Id, code: nat, consented: bool, dropCalls: seq<Call>, leaveCalls: seq<Call>)
    requires Inv(c, None, None) && SyncOk(c) && conn in c.clients && !Resets(c, dropCalls) && !Resets(c, leaveCalls)
    requires LeavePermitted(c, conn, consented, dropCalls, leaveCalls)
    ensures var d := LeaveRoom(c, conn, code, consented, dropCalls, leaveCalls); SyncOk(d) && d.filter == c.filter
  {
    if !c.conns[conn].state.Leaving? && !c.conns[conn].state.Closed? {
      var c1 := WithClient(c, conn, c.conns[conn].(state := Leaving));
      var drops := !consented && !c.disposing;
      var c2 := if drops then DoCalls(c1, dropCalls) else c1;
      DroppedKeepsSync(c, c1, conn, drops, dropCalls);
      assert Session(c2, conn) == Session(c, conn);
      ReadyToFinish(c, c2, conn);
      AfterDropKeepsSync(c2, conn, code, consented, leaveCalls);
    }
  }

  lemma ExpireTokenKeepsSync(c: RoomContext, token: Id, calls: seq<Call>)
    requires Inv(c, None, None) && SyncOk(c) && ExpiryPermitted(c, token, calls) && !Resets(c, calls)
    ensures SyncOk(ExpireToken(c, token, calls)) && ExpireToken(c, token, calls).filter == c.filter
  {
    if token in c.reconnections {
      var sid := c.reconnections[token].sessionId;
      var c1 := c.(reconnections := c.reconnections - {token}, seats := c.seats - {sid}, left := c.left + [sid]);
      ExpiredKeepsInv(c, c1, token, sid);
      BookkeepingQuiet(c, c1);
      QuietKeepsSync(c, c1);
      CallsKeepSync(c1, calls, None, Some(sid));
      EndLeaveKeepsSync(DoCalls(c1, calls), c.reconnections[token].conn, sid, None);
    }
  }

  lemma {:induction false} ExpireTokensKeepsSync(c: RoomContext, expired: seq<Expiry>)
    requires Inv(c, None, None) && SyncOk(c) && ExpiriesPermitted(c, expired)
    requires forall x :: x in expired ==> !Resets(c, x.calls)
    ensures SyncOk(ExpireTokens(c, expired)) && ExpireTokens(c, expired).filter == c.filter
    decreases |expired|
  {
    if expired != [] {
      var d := ExpireToken(c, expired[0].token, expired[0].calls);
      ExpireTokenKeepsInv(c, expired[0].token, expired[0].calls);
      ExpireTokenKeepsSync(c, expired[0].token, expired[0].calls);
      forall x | x in expired[1..] ensures !Resets(d, x.calls) { assert x in expired && !Resets(c, x.calls); }
      ExpireTokensKeepsSync(d, expired[1..]);
    }
  }

  lemma DeadlinesKeepSync(c: RoomContext, now: int, expired: seq<Expiry>, timerCalls: seq<Call>)
    requires Inv(c, None, None) && SyncOk(c) && ExpiriesPermitted(c, expired)
    requires !Resets(c, timerCalls) && forall x :: x in expired ==> !Resets(c, x.calls)
    requires LegalCalls(ExpireSeats(ExpireTokens(c, expired), now), timerCalls, None)
    ensures SyncOk(HandleDeadlines(c, now, expired, timerCalls)) && HandleDeadlines(c, now, expired, timerCalls).filter == c.filter
  {
    var c1 := ExpireTokens(c, expired);
    ExpireTokensKeepsInv(c, expired);
    ExpireTokensKeepsSync(c, expired);
    ExpireSeatsKeepsInv(c1, now);
    BookkeepingQuiet(c1, ExpireSeats(c1, now));
    QuietKeepsSync(c1, ExpireSeats(c1, now));
    CallsKeepSync(ExpireSeats(c1, now), timerCalls, None, None);
  }

  lemma ReserveSeatKeepsSync(c: RoomContext, sid: Id, options: Json, calls: seq<Call>, auth: HookResult, expiresAt: int)
    requires Inv(c, None, None) && SyncOk(c) && Permitted(c, EvReserveSeat(sid, options, calls, auth, expiresAt)) && !Resets(c, calls)
    ensures var d := ReserveSeat(c, sid, options, calls, auth, expiresAt); SyncOk(d) && d.filter == c.filter
  {
    if !c.disposing && !c.locked && !HasReachedMaxClients(c) {
      CallsKeepSync(c, calls, None, None);
      BookkeepingQuiet(DoCalls(c, calls), ReserveSeat(c, sid, options, calls, auth, expiresAt));
      QuietKeepsSync(DoCalls(c, calls), ReserveSeat(c, sid, options, calls, auth, expiresAt));
    }
  }

  lemma MessageKeepsSync(c: RoomContext, conn: Id, msg: Message)
    requires Inv(c, None, None) && SyncOk(c) && MessagePermitted(c, conn, msg) && ResetsNothing(c, EvMessage(conn, msg))
    ensures SyncOk(ClientMessage(c, conn, msg)) && ClientMessage(c, conn, msg).filter == c.filter
  {
    if conn in c.conns {
      match msg
      case Ping =>
        FollowsQueue(c.conns[conn], Bytes(PingFrame));
        WithClientQuiet(c, conn, c.conns[conn].RawNow(PingFrame));
        QuietKeepsSync(c, WithClient(c, conn, c.conns[conn].RawNow(PingFrame)));
      case Leave(calls) =>
        if IsCurrent(c, conn) { LeaveKeepsSync(c, conn, CONSENTED, true, [], calls); }
      case Data(_, calls) => CallsKeepSync(c, calls, None, None);
    }
  }

  lemma OneCallKeepsSync(c: RoomContext, e: Event)
    requires Inv(c, None, None) && SyncOk(c) && IsOneCall(e)
    ensures SyncOk(Handle(c, e)) && Handle(c, e).filter == c.filter
  {
    var call := TheCall(c, e);
    if call.Some? { CallKeepsSync(c, call.value); }
    HandleIsOneCall(c, e);
  }

  // ------------------------------------------------------------------
  // Runs
  // ------------------------------------------------------------------

  lemma HandleKeepsSync(c: RoomContext, e: Event)
    requires Inv(c, None, None) && SyncOk(c) && Permitted(c, e) && Synced(c, e)
    ensures SyncOk(Handle(c, e)) && Handle(c, e).filter == c.filter
  {
    match e
    case EvReserveSeat(sid, options, calls, auth, expiresAt) => ReserveSeatKeepsSync(c, sid, options, calls, auth, expiresAt);
    case EvConnect(conn, sid, token, calls, accepted, newToken) => ConnectKeepsSync(c, conn, sid, token, calls, accepted, newToken);
    case EvMessage(conn, msg) => MessageKeepsSync(c, conn, msg);
    case EvDisconnected(conn, code, dropCalls, leaveCalls) =>
      if IsCurrent(c, conn) { LeaveKeepsSync(c, conn, code, false, dropCalls, leaveCalls); }
    case EvCommand(calls) => CallsKeepSync(c, calls, None, None);
    case EvDeadlines(now, expired, timerCalls) => DeadlinesKeepSync(c, now, expired, timerCalls);
    case _ => OneCallKeepsSync(c, e);
  }

  ghost predicate SyncedRun(c: RoomContext, events: seq<Event>)
    decreases |events|
  {
    events == [] || (Synced(c, events[0]) && SyncedRun(Handle(c, events[0]), events[1..]))
  }

  lemma {:induction false} RunKeepsSync(c: RoomContext, events: seq<Event>)
    requires Inv(c, None, None) && SyncOk(c) && PermittedRun(c, events) && SyncedRun(c, events)
    ensures SyncOk(Run(c, events)) && Run(c, events).filter == c.filter
    decreases |events|
  {
    if events != [] {
      HandleKeepsInv(c, events[0]);
      HandleKeepsSync(c, events[0]);
      RunKeepsSync(Handle(c, events[0]), events[1..]);
    }
  }

  /** A room whose state is set, and whose joined clients, if any, are in sync: a new or a restored one, for example. */
  ghost predicate StartsSynced(c: RoomContext) { MayStart(c) && SyncOk(c) }

  /**
   * With a view filter, in every run: folding the frames queued to a joined client gives the view
   * the server has on record for it, and no replica ever fails to apply a patch.
   */
  lemma ViewsFollow(c: RoomContext, events: seq<Event>, conn: Id)
    requires StartsSynced(c) && c.filter.Some? && PermittedRun(c, events) && SyncedRun(c, events)
    requires JoinedHere(Run(c, events), conn)
    ensures var d := Run(c, events);
            var sid := d.conns[conn].sessionId;
            sid in d.views && Held(d.conns[conn].outbox) == Some(d.views[sid])
  {
    StartInv(c);
    RunKeepsSync(c, events);
    assert InSync(Run(c, events), conn);
  }

  /** Without a filter, in every run: every joined client holds exactly the slot's snapshot. */
  lemma ReplicasFollow(c: RoomContext, events: seq<Event>, conn: Id)
    requires StartsSynced(c) && c.filter.None? && PermittedRun(c, events) && SyncedRun(c, events)
    requires JoinedHere(Run(c, events), conn)
    ensures var d := Run(c, events); d.slot.Some? && Held(d.conns[conn].outbox) == Some(d.slot.value.snapshot)
  {
    StartInv(c);
    RunKeepsSync(c, events);
    assert InSync(Run(c, events), conn);
  }

  /** And right after a patch is broadcast, whatever happened before, it holds the current state or view. */
  lemma PatchedReplicasAreCurrent(c: RoomContext, events: seq<Event>, conn: Id)
    requires StartsSynced(c) && PermittedRun(c, events) && SyncedRun(c, events)
    requires JoinedHere(BroadcastPatch(Run(c, events)), conn)
    ensures var d := BroadcastPatch(Run(c, events));
            Held(d.conns[conn].outbox) == FullStateFor(d, d.conns[conn]) && FullStateFor(d, d.conns[conn]).Some?
  {
    StartInv(c);
    RunKeepsInv(c, events);
    RunKeepsSync(c, events);
    BroadcastBringsUpToDate(Run(c, events));
    assert UpToDate(BroadcastPatch(Run(c, events)), conn);
  }

  // ------------------------------------------------------------------
  // The two guards are exact
  // ------------------------------------------------------------------

  /** Without a filter, both kinds of join keep the replicas in sync exactly when no change is waiting to be patched. */
  lemma JoinSyncIff(c: RoomContext, conn: Id, state: ClientState, token: Id)
    requires SyncOk(c) && ClientsOk(c) && c.filter.None? && conn in c.clients && (state.Joined? || state.Reconnected?)
    ensures SyncOk(Welcome(c, conn, state, token)) <==> c.slot.value.typed == c.slot.value.snapshot
  {
    WelcomeGreets(c, conn, state, token);
    WelcomeState(c, conn, state, token);
    if c.slot.value.typed == c.slot.value.snapshot {
      WelcomeKeepsSync(c, conn, state, token);
    } else {
      var d := Welcome(c, conn, state, token);
      assert JoinedHere(d, conn) && !InSync(d, conn);
    }
  }

  lemma WelcomeState(c: RoomContext, conn: Id, state: ClientState, token: Id)
    requires conn in c.conns && c.slot.Some?
    ensures conn in Welcome(c, conn, state, token).conns && Welcome(c, conn, state, token).conns[conn].state == state
  {
    HandshakeOrder(c, conn, state, token);
  }

  /** The next shared patch reaches a joined client: what it held, with the patch applied if there is one. */
  lemma SharedPatchReaches(c: RoomContext, conn: Id)
    requires c.slot.Some? && c.filter.None? && Distinct(c.clients) && JoinedHere(c, conn)
    requires Held(c.conns[conn].outbox).Some?
    ensures var d, slot := BroadcastPatch(c), c.slot.value;
            && JoinedHere(d, conn) && d.filter.None? && d.slot == Some(StateSlot(slot.typed, slot.typed))
            && Held(d.conns[conn].outbox) == ApplyPatch(Held(c.conns[conn].outbox).value, DiffPatch(slot.snapshot, slot.typed))
  {
    var slot := c.slot.value;
    DiffPatchEmptyIffEqual(slot.snapshot, slot.typed);
    if slot.typed != slot.snapshot {
      ToJoinedEffect(c.conns, c.clients, PatchFrame(DiffPatch(slot.snapshot, slot.typed)));
      HeldAppend(c.conns[conn].outbox, Bytes(PatchFrame(DiffPatch(slot.snapshot, slot.typed))));
    }
  }

  /**
   * A client that joins while a change is waiting gets that change twice, in its full state and in the
   * next patch: it is up to date after that patch exactly when the change was one of values in place.
   */
  lemma LateJoinerIff(c: RoomContext, conn: Id, state: ClientState, token: Id)
    requires c.slot.Some? && c.filter.None? && Distinct(c.clients) && conn in c.clients && conn in c.conns
    requires DataOnly(c.conns[conn].pending) && (state.Joined? || state.Reconnected?)
    ensures var d, slot := BroadcastPatch(Welcome(c, conn, state, token)), c.slot.value;
            && JoinedHere(d, conn) && FullStateFor(d, d.conns[conn]) == Some(slot.typed)
            && Held(d.conns[conn].outbox) == ApplyPatch(slot.typed, DiffPatch(slot.snapshot, slot.typed))
            && (UpToDate(d, conn) <==> IsInPlace(slot.snapshot, slot.typed))
  {
    PatchRepeatsIff(c.slot.value.snapshot, c.slot.value.typed);
    WelcomeGreets(c, conn, state, token);
    WelcomeState(c, conn, state, token);
    SharedPatchReaches(Welcome(c, conn, state, token), conn);
  }

  /** Without a filter, replacing the whole state keeps them in sync exactly when nobody has joined or nothing changes. */
  lemma SetStateSyncIff(c: RoomContext, state: Json)
    requires SyncOk(c) && c.filter.None?
    ensures SyncOk(DoCall(c, SetState(state))) <==>
              (forall i :: i in c.conns ==> !JoinedHere(c, i)) || state == c.slot.value.snapshot
  {
    var d := DoCall(c, SetState(state));
    forall i | i in c.conns && JoinedHere(c, i) ensures JoinedHere(d, i) && (InSync(d, i) <==> state == c.slot.value.snapshot) {
      assert InSync(c, i);
    }
  }

  /** And a joined client is up to date after the next patch exactly when the new state is what it held: no patch is sent. */
  lemma ResetIsMissedIff(c: RoomContext, state: Json, conn: Id)
    requires SyncOk(c) && c.filter.None? && Distinct(c.clients) && JoinedHere(c, conn)
    ensures var d := BroadcastPatch(DoCall(c, SetState(state)));
            && JoinedHere(d, conn) && Held(d.conns[conn].outbox) == Some(c.slot.value.snapshot)
            && FullStateFor(d, d.conns[conn]) == Some(state)
            && (UpToDate(d, conn) <==> state == c.slot.value.snapshot)
  {
    assert InSync(c, conn);
    SharedPatchReaches(DoCall(c, SetState(state)), conn);
    DiffPatchEmptyIffEqual(state, state);
  }
}
