/** Whole runs of the room actor: what holds after any sequence of events, and where the code stops short. */
module ActorRuns {
  import opened Json
  import opened Room
  import opened RoomInvariant
  import opened Actor
  import opened ActorInvariant

  // ------------------------------------------------------------------
  // Which events the outside world may send
  // ------------------------------------------------------------------

  /** Generated ids are new, and a connection without a token does not name a session that waits. */
  ghost predicate ConnectPermitted(c: RoomContext, conn: Id, sid: Id, token: Option<Id>, calls: seq<Call>, newToken: Id) {
    var c0 := WithClient(c, conn, NewClient(sid));
    && conn !in c.conns && newToken != "" && newToken !in c.issued
    && (match token
        case None =>
          && (sid in c.seats ==> !c.seats[sid].waiting)
          && (sid in c.seats ==> LegalCalls(TakeSeat(c0, conn), calls, None))
        case Some(t) => TokenFits(c0, t, sid) ==> LegalCalls(TakeOver(c0, conn, t), calls, None))
  }

  ghost predicate MessagePermitted(c: RoomContext, conn: Id, msg: Message) {
    match msg
    case Ping => true
    case Leave(calls) => IsCurrent(c, conn) ==> LeavePermitted(c, conn, true, [], calls)
    case Data(_, calls) => LegalCalls(c, calls, None)
  }

  ghost predicate Permitted(c: RoomContext, e: Event) {
    match e
    case EvReserveSeat(sid, _, calls, _, _) =>
      sid !in c.issued && (c.disposing || c.locked || HasReachedMaxClients(c) || LegalCalls(c, calls, None))
    case EvConnect(conn, sid, token, calls, _, newToken) => ConnectPermitted(c, conn, sid, token, calls, newToken)
    case EvMessage(conn, msg) => MessagePermitted(c, conn, msg)
    case EvDisconnected(conn, _, dropCalls, leaveCalls) =>
      IsCurrent(c, conn) ==> LeavePermitted(c, conn, false, dropCalls, leaveCalls)
    case EvCommand(calls) => LegalCalls(c, calls, None)
    case EvDeadlines(now, expired, timerCalls) =>
      && AreExpired(c, now, expired) && ExpiriesPermitted(c, expired)
      && LegalCalls(ExpireSeats(ExpireTokens(c, expired), now), timerCalls, None)
    case _ => true
  }

  // ------------------------------------------------------------------
  // Every event keeps the invariant
  // ------------------------------------------------------------------

  lemma SeatAddedKeepsInv(c: RoomContext, sid: Id, seat: Seat)
    requires Inv(c, None, None) && sid !in c.issued && IsPending(seat)
    requires c.maxClients.Some? ==> Load(c) < c.maxClients.value
    ensures Inv(SyncListing(c.(seats := c.seats[sid := seat], issued := c.issued + {sid})), None, None)
  {
    var d := c.(seats := c.seats[sid := seat], issued := c.issued + {sid});
    SyncKeepsCore(d);
    AddSeatKeepsInv(c, SyncListing(d), sid);
  }

  lemma RoomForOneMore(c: RoomContext, d: RoomContext)
    requires CapacityOk(c) && !HasReachedMaxClients(c) && Framed(c, d)
    ensures d.maxClients.Some? ==> Load(d) < d.maxClients.value
  {
  }

  /** The limit check passed, so there is room for one more even after the `on_auth` hook. */
  lemma ReserveSeatKeepsInv(c: RoomContext, sid: Id, options: Json, calls: seq<Call>, auth: HookResult, expiresAt: int)
    requires Inv(c, None, None) && Permitted(c, EvReserveSeat(sid, options, calls, auth, expiresAt))
    ensures Inv(ReserveSeat(c, sid, options, calls, auth, expiresAt), None, None)
  {
    if !c.disposing && !c.locked && !HasReachedMaxClients(c) {
      var c1 := DoCalls(c, calls);
      CallsKeepInv(c, calls, None, None);
      RoomForOneMore(c, c1);
      if auth.Accepted? {
        SeatAddedKeepsInv(c1, sid, Seat(options, auth.auth, false, false, expiresAt));
      }
    }
  }

  lemma ConnectKeepsInv(c: RoomContext, conn: Id, sid: Id, token: Option<Id>, calls: seq<Call>, accepted: bool, newToken: Id)
    requires Inv(c, None, None) && ConnectPermitted(c, conn, sid, token, calls, newToken)
    ensures Inv(Connect(c, conn, sid, token, calls, accepted, newToken), None, None)
  {
    var c0 := WithClient(c, conn, NewClient(sid));
    NewHandleKeepsInv(c, conn, sid);
    match token
    case None => JoinKeepsInv(c0, conn, calls, accepted, newToken);
    case Some(t) => ReconnectKeepsInv(c0, conn, t, calls, newToken);
  }

  lemma HandleCallKeepsInv(c: RoomContext, conn: Id, client: Client)
    requires Inv(c, None, None) && conn in c.conns && SameHandle(c.conns[conn], client)
    ensures Inv(WithClient(c, conn, client), None, None)
  {
    WithClientKeepsCore(c, conn, client);
    SameListingOk(c, WithClient(c, conn, client));
    SameCoreKeepsInv(c, WithClient(c, conn, client), None, None);
  }

  lemma MessageKeepsInv(c: RoomContext, conn: Id, msg: Message)
    requires Inv(c, None, None) && MessagePermitted(c, conn, msg)
    ensures Inv(ClientMessage(c, conn, msg), None, None)
  {
    if conn in c.conns {
      match msg
      case Ping => HandleCallKeepsInv(c, conn, c.conns[conn].RawNow(PingFrame));
      case Leave(calls) =>
        if IsCurrent(c, conn) { LeaveKeepsInv(c, conn, CONSENTED, true, [], calls); }
      case Data(_, calls) => CallsKeepInv(c, calls, None, None);
    }
  }

  lemma DisconnectedKeepsInv(c: RoomContext, conn: Id, code: nat, dropCalls: seq<Call>, leaveCalls: seq<Call>)
    requires Inv(c, None, None) && Permitted(c, EvDisconnected(conn, code, dropCalls, leaveCalls))
    ensures Inv(Disconnected(c, conn, code, dropCalls, leaveCalls), None, None)
  {
    if IsCurrent(c, conn) { LeaveKeepsInv(c, conn, code, false, dropCalls, leaveCalls); }
  }

  lemma DeadlinesKeepInv(c: RoomContext, now: int, expired: seq<Expiry>, timerCalls: seq<Call>)
    requires Inv(c, None, None) && ExpiriesPermitted(c, expired)
    requires LegalCalls(ExpireSeats(ExpireTokens(c, expired), now), timerCalls, None)
    ensures Inv(HandleDeadlines(c, now, expired, timerCalls), None, None)
  {
    ExpireTokensKeepsInv(c, expired);
    ExpireSeatsKeepsInv(ExpireTokens(c, expired), now);
    CallsKeepInv(ExpireSeats(ExpireTokens(c, expired), now), timerCalls, None, None);
  }

  /** The events that come down to one call on the context. */
  predicate IsOneCall(e: Event) {
    e.EvKick? || e.EvHandleClosed? || e.EvSetLocked? || e.EvEditState? || e.EvPatch?
  }

  function TheCall(c: RoomContext, e: Event): Option<Call>
    requires IsOneCall(e)
  {
    match e
    case EvKick(sid) =>
      var found := FindClient(c, c.clients, sid);
      if found.Some? then Some(LeaveClient(found.value, CONSENTED)) else None
    case EvHandleClosed(conn, code) => Some(LeaveClient(conn, code))
    case EvSetLocked(locked) => Some(if locked then Lock else Unlock)
    case EvEditState(s) => Some(MutateState(s))
    case _ => Some(CallBroadcastPatch)
  }

  lemma HandleIsOneCall(c: RoomContext, e: Event)
    requires IsOneCall(e)
    ensures Handle(c, e) == if TheCall(c, e).Some? then DoCall(c, TheCall(c, e).value) else c
  {
  }

  lemma OneCallKeepsInv(c: RoomContext, e: Event)
    requires Inv(c, None, None) && IsOneCall(e)
    ensures Inv(Handle(c, e), None, None)
  {
    var call := TheCall(c, e);
    if call.Some? { CallKeepsInv(c, call.value, None, None); }
    HandleIsOneCall(c, e);
  }

  /** No event breaks the invariant, whatever the hooks, messages and times are. */
  lemma HandleKeepsInv(c: RoomContext, e: Event)
    requires Inv(c, None, None) && Permitted(c, e)
    ensures Inv(Handle(c, e), None, None)
  {
    match e
    case EvReserveSeat(sid, options, calls, auth, expiresAt) => ReserveSeatKeepsInv(c, sid, options, calls, auth, expiresAt);
    case EvConnect(conn, sid, token, calls, accepted, newToken) => ConnectKeepsInv(c, conn, sid, token, calls, accepted, newToken);
    case EvMessage(conn, msg) => MessageKeepsInv(c, conn, msg);
    case EvDisconnected(conn, code, dropCalls, leaveCalls) => DisconnectedKeepsInv(c, conn, code, dropCalls, leaveCalls);
    case EvCommand(calls) => CallsKeepInv(c, calls, None, None);
    case EvDeadlines(now, expired, timerCalls) => DeadlinesKeepInv(c, now, expired, timerCalls);
    case _ => OneCallKeepsInv(c, e);
  }

  // ------------------------------------------------------------------
  // Runs
  // ------------------------------------------------------------------

  function Run(c: RoomContext, events: seq<Event>): RoomContext
    decreases |events|
  {
    if events == [] then c else Run(Handle(c, events[0]), events[1..])
  }

  ghost predicate PermittedRun(c: RoomContext, events: seq<Event>)
    decreases |events|
  {
    events == [] || (Permitted(c, events[0]) && PermittedRun(Handle(c, events[0]), events[1..]))
  }

  /** A room that was just created: nobody is in it, and its limit is a 32-bit number. */
  predicate IsNew(c: RoomContext) {
    && c.conns == map[] && c.clients == [] && c.seats == map[] && c.reconnections == map[]
    && c.left == [] && c.accepted == [] && c.issued == {}
    && (c.maxClients.Some? ==> c.maxClients.value < U32)
    && (c.driver.Some? ==> c.driver.value == BuildListing(c))
  }

  lemma NewRoomInv(c: RoomContext)
    requires IsNew(c)
    ensures Inv(c, None, None)
  {
    assert PendingSeats(c) == {};
  }

  /** Where a run may start: a new room, a restored one, or wherever another run ended. */
  ghost predicate MayStart(c: RoomContext) { IsNew(c) || Inv(c, None, None) }

  lemma StartInv(c: RoomContext)
    requires MayStart(c)
    ensures Inv(c, None, None)
  {
    if IsNew(c) { NewRoomInv(c); }
  }

  lemma {:induction false} RunKeepsInv(c: RoomContext, events: seq<Event>)
    requires Inv(c, None, None) && PermittedRun(c, events)
    ensures Inv(Run(c, events), None, None)
    decreases |events|
  {
    if events != [] {
      HandleKeepsInv(c, events[0]);
      RunKeepsInv(Handle(c, events[0]), events[1..]);
    }
  }

  /** The room never holds more clients and open reservations than its limit. */
  lemma RunsRespectCapacity(c: RoomContext, events: seq<Event>)
    requires MayStart(c) && PermittedRun(c, events)
    ensures var d := Run(c, events); d.maxClients.Some? ==> |d.clients| + |PendingSeats(d)| <= d.maxClients.value
  {
    StartInv(c);
    RunKeepsInv(c, events);
  }

  /** One client per session, no open reservation for somebody present, no tombstone left behind. */
  lemma RunsKeepSessionsApart(c: RoomContext, events: seq<Event>)
    requires MayStart(c) && PermittedRun(c, events)
    ensures var d := Run(c, events);
            && (forall i, j :: i in d.clients && j in d.clients && Session(d, i) == Session(d, j) ==> i == j)
            && (forall sid, i :: sid in d.seats && IsPending(d.seats[sid]) && i in d.clients ==> Session(d, i) != sid)
            && (forall sid :: sid in d.seats ==> !d.seats[sid].consumed)
  {
    StartInv(c);
    RunKeepsInv(c, events);
  }

  /** Tokens and held seats correspond one to one, and each token names a client still listed. */
  lemma RunsPairTokensWithSeats(c: RoomContext, events: seq<Event>)
    requires MayStart(c) && PermittedRun(c, events)
    ensures var d := Run(c, events);
            && (forall t :: t in d.reconnections ==>
                  var sid := d.reconnections[t].sessionId;
                  && sid in d.seats && d.seats[sid].waiting
                  && FindClient(d, d.clients, sid) == Some(d.reconnections[t].conn) && Token(d, d.reconnections[t].conn) == t)
            && (forall sid :: sid in d.seats && d.seats[sid].waiting ==>
                  exists t :: t in d.reconnections && d.reconnections[t].sessionId == sid)
            && (forall t, u :: t in d.reconnections && u in d.reconnections && d.reconnections[t].sessionId == d.reconnections[u].sessionId ==> t == u)
  {
    var d := Run(c, events);
    StartInv(c);
    RunKeepsInv(c, events);
    forall t | t in d.reconnections
      ensures EntryOk(d, t) && FindClient(d, d.clients, d.reconnections[t].sessionId) == Some(d.reconnections[t].conn)
    {
      TokenNamesListedClient(d, t, d.reconnections[t].sessionId);
    }
    forall sid | sid in d.seats && d.seats[sid].waiting ensures HasEntry(d, sid) {}
  }

  /** Everybody who has joined holds a token to come back with. */
  lemma RunsGiveTokens(c: RoomContext, events: seq<Event>)
    requires MayStart(c) && PermittedRun(c, events)
    ensures var d := Run(c, events); forall i :: i in d.clients && i in d.conns && d.conns[i].IsJoined() ==> d.conns[i].token != ""
  {
    StartInv(c);
    RunKeepsInv(c, events);
  }

  /** `on_leave` runs at most once for a session, and a reconnection token is accepted at most once. */
  lemma RunsHappenOnce(c: RoomContext, events: seq<Event>)
    requires MayStart(c) && PermittedRun(c, events)
    ensures Distinct(Run(c, events).left) && Distinct(Run(c, events).accepted)
  {
    StartInv(c);
    RunKeepsInv(c, events);
  }

  /** After every event the driver shows the room as it is. */
  lemma RunsKeepListing(c: RoomContext, events: seq<Event>)
    requires MayStart(c) && PermittedRun(c, events)
    ensures var d := Run(c, events); d.driver.Some? ==> d.driver.value == BuildListing(d)
  {
    StartInv(c);
    RunKeepsInv(c, events);
  }

  // ------------------------------------------------------------------
  // Superseded connections
  // ------------------------------------------------------------------

  /** Handles are kept, and whoever is listed was listed before or has just connected. */
  ghost predicate Carries(c: RoomContext, d: RoomContext) {
    && (forall i :: i in c.conns ==> i in d.conns && d.conns[i].sessionId == c.conns[i].sessionId)
    && (forall i :: i in d.clients ==> i in c.clients || i !in c.conns)
  }

  lemma CarriesTransitive(c: RoomContext, d: RoomContext, e: RoomContext)
    requires Carries(c, d) && Carries(d, e)
    ensures Carries(c, e)
  {
  }

  lemma ForgetCarries(c: RoomContext, sid: Id)
    ensures Carries(c, Forget(c, sid))
  {
  }

  lemma AllowCarries(c: RoomContext, conn: Id, expiresAt: Option<int>, never: int)
    requires conn in c.conns
    ensures Carries(c, Allow(c, conn, expiresAt, never))
  {
  }

  lemma ListingCallCarries(c: RoomContext, call: Call)
    requires TouchesListing(call) || call.SetMaxClients?
    ensures Carries(c, DoCall(c, call))
  {
  }

  lemma CallCarries(c: RoomContext, call: Call)
    ensures Carries(c, DoCall(c, call))
  {
    match call
    case RemoveClient(sid) => ForgetCarries(c, sid);
    case AllowReconnection(conn, expiresAt, never) => if conn in c.conns { AllowCarries(c, conn, expiresAt, never); }
    case _ =>
      if TouchesListing(call) || call.SetMaxClients? {
        ListingCallCarries(c, call);
      } else {
        QuietCallKeepsCore(c, call);
      }
  }

  lemma {:induction false} CallsCarry(c: RoomContext, calls: seq<Call>)
    ensures Carries(c, DoCalls(c, calls))
    decreases |calls|
  {
    if calls != [] {
      CallCarries(c, calls[0]);
      CallsCarry(DoCall(c, calls[0]), calls[1..]);
      CarriesTransitive(c, DoCall(c, calls[0]), DoCalls(c, calls));
    }
  }

  lemma ReserveSeatCarries(c: RoomContext, sid: Id, options: Json, calls: seq<Call>, auth: HookResult, expiresAt: int)
    ensures Carries(c, ReserveSeat(c, sid, options, calls, auth, expiresAt))
  {
    CallsCarry(c, calls);
  }

  lemma WelcomeCarries(c: RoomContext, conn: Id, state: ClientState, token: Id)
    requires conn in c.conns
    ensures Carries(c, Welcome(c, conn, state, token))
  {
    WelcomeTokens(c, conn, state, token);
    var d := Welcome(c, conn, state, token);
    forall i | i in c.conns ensures d.conns[i].sessionId == c.conns[i].sessionId { assert Session(d, i) == Session(c, i); }
  }

  lemma {:induction false} ReplacedLists(c: RoomContext, list: seq<Id>, sid: Id, conn: Id)
    ensures forall i :: i in Replaced(c, list, sid, conn) ==> i in list || i == conn
    decreases |list|
  {
    if list != [] { ReplacedLists(c, list[1..], sid, conn); }
  }

  /** Nobody is listed by a connect but the connection itself. */
  lemma ConnectLists(c: RoomContext, c0: RoomContext, d: RoomContext, conn: Id, sid: Id)
    requires conn !in c.conns && c0 == WithClient(c, conn, NewClient(sid))
    requires (forall i :: i in c0.conns ==> i in d.conns && d.conns[i].sessionId == c0.conns[i].sessionId)
    requires forall i :: i in d.clients ==> i in c0.clients || i == conn
    ensures Carries(c, d)
  {
  }

  lemma TakeOverCarries(c: RoomContext, conn: Id, sid: Id, token: Id)
    requires conn !in c.conns && TokenFits(WithClient(c, conn, NewClient(sid)), token, sid)
    ensures Carries(c, TakeOver(WithClient(c, conn, NewClient(sid)), conn, token))
  {
    var c0 := WithClient(c, conn, NewClient(sid));
    ReplacedLists(c0, c0.clients, sid, conn);
    ConnectLists(c, c0, TakeOver(c0, conn, token), conn, sid);
  }

  lemma TakeSeatCarries(c: RoomContext, conn: Id, sid: Id)
    requires conn !in c.conns && sid in c.seats
    ensures Carries(c, TakeSeat(WithClient(c, conn, NewClient(sid)), conn))
  {
    var c0 := WithClient(c, conn, NewClient(sid));
    ConnectLists(c, c0, TakeSeat(c0, conn), conn, sid);
  }

  lemma EndJoinCarries(c: RoomContext, conn: Id, accepted: bool, newToken: Id)
    requires conn in c.conns
    ensures Carries(c, EndJoin(c, conn, accepted, newToken))
  {
    var c1 := c.(seats := c.seats - {c.conns[conn].sessionId});
    if accepted && !c1.conns[conn].state.Leaving? {
      WelcomeCarries(c1.(hadClients := true), conn, Joined, newToken);
    } else {
      RefuseUnlists(c1, conn);
    }
  }

  lemma ReconnectCarries(c: RoomContext, c0: RoomContext, conn: Id, token: Id, calls: seq<Call>, newToken: Id)
    requires conn in c0.conns && TokenFits(c0, token, c0.conns[conn].sessionId) && Carries(c, TakeOver(c0, conn, token))
    ensures Carries(c, Reconnect(c0, conn, token, calls, newToken))
  {
    var c1 := TakeOver(c0, conn, token);
    CallsCarry(c1, calls);
    CarriesTransitive(c, c1, DoCalls(c1, calls));
    WelcomeCarries(DoCalls(c1, calls), conn, Reconnected, newToken);
    CarriesTransitive(c, DoCalls(c1, calls), Welcome(DoCalls(c1, calls), conn, Reconnected, newToken));
  }

  lemma JoinCarries(c: RoomContext, c0: RoomContext, conn: Id, calls: seq<Call>, accepted: bool, newToken: Id)
    requires conn in c0.conns && Session(c0, conn) in c0.seats && !c0.seats[Session(c0, conn)].consumed
    requires Carries(c, TakeSeat(c0, conn))
    ensures Carries(c, Join(c0, conn, calls, accepted, newToken))
  {
    var c1 := TakeSeat(c0, conn);
    CallsCarry(c1, calls);
    CarriesTransitive(c, c1, DoCalls(c1, calls));
    EndJoinCarries(DoCalls(c1, calls), conn, accepted, newToken);
    CarriesTransitive(c, DoCalls(c1, calls), EndJoin(DoCalls(c1, calls), conn, accepted, newToken));
  }

  lemma ConnectCarries(c: RoomContext, conn: Id, sid: Id, token: Option<Id>, calls: seq<Call>, accepted: bool, newToken: Id)
    requires conn !in c.conns
    ensures Carries(c, Connect(c, conn, sid, token, calls, accepted, newToken))
  {
    var c0 := WithClient(c, conn, NewClient(sid));
    if token.Some? && TokenFits(c0, token.value, sid) {
      TakeOverCarries(c, conn, sid, token.value);
      ReconnectCarries(c, c0, conn, token.value, calls, newToken);
    } else if token.None? && sid in c.seats && !c.seats[sid].consumed {
      TakeSeatCarries(c, conn, sid);
      JoinCarries(c, c0, conn, calls, accepted, newToken);
    }
  }

  lemma EndLeaveCarries(c: RoomContext, conn: Id, sid: Id, code: Option<nat>)
    ensures Carries(c, EndLeave(c, conn, sid, code))
  {
    EndLeaveUnlists(c, conn, sid, code);
  }

  lemma FinishLeaveCarries(c: RoomContext, conn: Id, code: Option<nat>, calls: seq<Call>)
    requires conn in c.conns
    ensures Carries(c, FinishLeave(c, conn, code, calls))
  {
    var sid := c.conns[conn].sessionId;
    var c1 := c.(left := c.left + [sid]);
    CallsCarry(c1, calls);
    CarriesTransitive(c, c1, DoCalls(c1, calls));
    EndLeaveCarries(DoCalls(c1, calls), conn, sid, code);
    CarriesTransitive(c, DoCalls(c1, calls), FinishLeave(c, conn, code, calls));
  }

  lemma DropCarries(c: RoomContext, c1: RoomContext, drops: bool, calls: seq<Call>)
    requires Carries(c, c1)
    ensures Carries(c, if drops then DoCalls(c1, calls) else c1)
  {
    if drops {
      CallsCarry(c1, calls);
      CarriesTransitive(c, c1, DoCalls(c1, calls));
    }
  }

  lemma LeaveCarries(c: RoomContext, conn: Id, code: nat, consented: bool, dropCalls: seq<Call>, leaveCalls: seq<Call>)
    requires conn in c.conns
    ensures Carries(c, LeaveRoom(c, conn, code, consented, dropCalls, leaveCalls))
  {
    if !c.conns[conn].state.Leaving? && !c.conns[conn].state.Closed? {
      var c1 := WithClient(c, conn, c.conns[conn].(state := Leaving));
      var drops := !consented && !c1.disposing;
      var c2 := if drops then DoCalls(c1, dropCalls) else c1;
      WithClientKeepsCore(c, conn, c.conns[conn].(state := Leaving));
      DropCarries(c, c1, drops, dropCalls);
      if c2.conns[conn].token in c2.reconnections {
        WithClientKeepsCore(c2, conn, c2.conns[conn].Queue(Close(code)));
        CarriesTransitive(c, c2, WithClient(c2, conn, c2.conns[conn].Queue(Close(code))));
      } else {
        var ended := if consented then Some(code) else None;
        FinishLeaveCarries(c2, conn, ended, leaveCalls);
        CarriesTransitive(c, c2, FinishLeave(c2, conn, ended, leaveCalls));
      }
    }
  }

  lemma ExpireTokenCarries(c: RoomContext, token: Id, calls: seq<Call>)
    ensures Carries(c, ExpireToken(c, token, calls))
  {
    if token in c.reconnections {
      var sid := c.reconnections[token].sessionId;
      var c1 := c.(reconnections := c.reconnections - {token}, seats := c.seats - {sid}, left := c.left + [sid]);
      CallsCarry(c1, calls);
      EndLeaveCarries(DoCalls(c1, calls), c.reconnections[token].conn, sid, None);
      CarriesTransitive(c, DoCalls(c1, calls), ExpireToken(c, token, calls));
    }
  }

  lemma {:induction false} ExpireTokensCarry(c: RoomContext, expired: seq<Expiry>)
    ensures Carries(c, ExpireTokens(c, expired))
    decreases |expired|
  {
    if expired != [] {
      ExpireTokenCarries(c, expired[0].token, expired[0].calls);
      ExpireTokensCarry(ExpireToken(c, expired[0].token, expired[0].calls), expired[1..]);
      CarriesTransitive(c, ExpireToken(c, expired[0].token, expired[0].calls), ExpireTokens(c, expired));
    }
  }

  lemma DeadlinesCarry(c: RoomContext, now: int, expired: seq<Expiry>, timerCalls: seq<Call>)
    ensures Carries(c, HandleDeadlines(c, now, expired, timerCalls))
  {
    var c1 := ExpireTokens(c, expired);
    ExpireTokensCarry(c, expired);
    CarriesTransitive(c, c1, ExpireSeats(c1, now));
    CallsCarry(ExpireSeats(c1, now), timerCalls);
    CarriesTransitive(c, ExpireSeats(c1, now), HandleDeadlines(c, now, expired, timerCalls));
  }

  lemma MessageCarries(c: RoomContext, conn: Id, msg: Message)
    ensures Carries(c, ClientMessage(c, conn, msg))
  {
    if conn in c.conns {
      match msg
      case Ping => WithClientKeepsCore(c, conn, c.conns[conn].RawNow(PingFrame));
      case Leave(calls) => LeaveCarries(c, conn, CONSENTED, true, [], calls);
      case Data(_, calls) => CallsCarry(c, calls);
    }
  }

  lemma OneCallCarries(c: RoomContext, e: Event)
    requires IsOneCall(e)
    ensures Carries(c, Handle(c, e))
  {
    var call := TheCall(c, e);
    if call.Some? { CallCarries(c, call.value); }
    HandleIsOneCall(c, e);
  }

  lemma DisconnectedCarries(c: RoomContext, conn: Id, code: nat, dropCalls: seq<Call>, leaveCalls: seq<Call>)
    ensures Carries(c, Disconnected(c, conn, code, dropCalls, leaveCalls))
  {
    if IsCurrent(c, conn) { LeaveCarries(c, conn, code, false, dropCalls, leaveCalls); }
  }

  lemma HandleCarries(c: RoomContext, e: Event)
    requires e.EvConnect? ==> e.conn !in c.conns
    ensures Carries(c, Handle(c, e))
  {
    match e
    case EvReserveSeat(sid, options, calls, auth, expiresAt) => ReserveSeatCarries(c, sid, options, calls, auth, expiresAt);
    case EvConnect(conn, sid, token, calls, accepted, newToken) => ConnectCarries(c, conn, sid, token, calls, accepted, newToken);
    case EvMessage(conn, msg) => MessageCarries(c, conn, msg);
    case EvDisconnected(conn, code, dropCalls, leaveCalls) => DisconnectedCarries(c, conn, code, dropCalls, leaveCalls);
    case EvCommand(calls) => CallsCarry(c, calls);
    case EvDeadlines(now, expired, timerCalls) => DeadlinesCarry(c, now, expired, timerCalls);
    case _ => OneCallCarries(c, e);
  }

  ghost predicate FreshConnections(c: RoomContext, events: seq<Event>)
    decreases |events|
  {
    events == [] || (
      && (events[0].EvConnect? ==> events[0].conn !in c.conns)
      && FreshConnections(Handle(c, events[0]), events[1..]))
  }

  lemma {:induction false} RunCarries(c: RoomContext, events: seq<Event>)
    requires FreshConnections(c, events)
    ensures Carries(c, Run(c, events))
    decreases |events|
  {
    if events != [] {
      HandleCarries(c, events[0]);
      RunCarries(Handle(c, events[0]), events[1..]);
      CarriesTransitive(c, Handle(c, events[0]), Run(c, events));
    }
  }

  /**
   * A connection that is no longer listed, because its session reconnected or left, never acts
   * on the room again: whatever happens first, its disconnect changes nothing at all, and its
   * messages change at most its own handle, by an answer to a ping.
   */
  lemma SupersededConnectionsAreInert(c: RoomContext, events: seq<Event>, conn: Id, code: nat,
                                      dropCalls: seq<Call>, leaveCalls: seq<Call>, msg: Message)
    requires conn in c.conns && conn !in c.clients && FreshConnections(c, events)
    ensures var d := Run(c, events);
            && conn !in d.clients
            && Disconnected(d, conn, code, dropCalls, leaveCalls) == d
            && (ClientMessage(d, conn, msg) == d ||
                (msg.Ping? && FindClient(d, d.clients, Session(c, conn)).None? &&
                 ClientMessage(d, conn, msg) == WithClient(d, conn, d.conns[conn].RawNow(PingFrame))))
  {
    RunCarries(c, events);
  }
}
