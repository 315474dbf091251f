/** Kicked clients: what becomes of a client that is marked as leaving before its disconnect arrives. */
module Stranded {
  import opened Json
  import opened JsonPatch
  import opened Diff
  import opened Room
  import opened RoomInvariant
  import opened Actor
  import opened ActorInvariant
  import opened ActorRuns

  /** Listed and marked as leaving, with no reconnection to come back by. */
  ghost predicate Stranded(c: RoomContext, conn: Id, sid: Id, token: Id) {
    && conn in c.conns && conn in c.clients && c.conns[conn].state.Leaving?
    && c.conns[conn].sessionId == sid && c.conns[conn].token == token && token !in c.reconnections
  }

  // ------------------------------------------------------------------
  // Calls
  // ------------------------------------------------------------------

  /** Only these two calls can help a stranded client. */
  predicate Spares(call: Call, conn: Id, sid: Id) {
    call != RemoveClient(sid) && !(call.AllowReconnection? && call.conn == conn)
  }

  predicate SparesAll(calls: seq<Call>, conn: Id, sid: Id) {
    forall k :: 0 <= k < |calls| ==> Spares(calls[k], conn, sid)
  }

  lemma {:induction false} ToJoinedSkips(conns: map<Id, Client>, list: seq<Id>, frame: Frame, conn: Id)
    requires conn in conns && !conns[conn].IsJoined()
    ensures conn in ToJoined(conns, list, frame) && ToJoined(conns, list, frame)[conn] == conns[conn]
    decreases |list|
  {
    if list != [] {
      var next := if list[0] in conns && conns[list[0]].IsJoined() then conns[list[0] := conns[list[0]].RawNow(frame)] else conns;
      ToJoinedSkips(next, list[1..], frame, conn);
    }
  }

  /** The handle and the entries that `Stranded` speaks of are the same. */
  ghost predicate SameFor(c: RoomContext, d: RoomContext, conn: Id) {
    && conn in c.conns && conn in d.conns && d.conns[conn] == c.conns[conn]
    && d.clients == c.clients && d.reconnections == c.reconnections
  }

  lemma HoldViewSkips(c: RoomContext, i: Id, held: Json, view: Json, ops: seq<PatchOp>, conn: Id)
    requires i in c.conns && conn in c.conns && i != conn
    ensures SameFor(c, HoldView(c, i, held, view, ops), conn)
  {
  }

  lemma PatchViewSkips(c: RoomContext, i: Id, conn: Id)
    requires c.slot.Some? && c.filter.Some? && conn in c.conns && !c.conns[conn].IsJoined()
    ensures SameFor(c, PatchView(c, i), conn)
  {
    if i in c.conns && c.conns[i].IsJoined() {
      var client := c.conns[i];
      var view := c.filter.value(c.slot.value.typed, client.Info());
      var held := if client.sessionId in c.views then c.views[client.sessionId] else view;
      HoldViewSkips(c, i, held, view, DiffPatch(held, view), conn);
    }
  }

  lemma {:induction false} PatchViewsSkip(c: RoomContext, list: seq<Id>, conn: Id)
    requires c.slot.Some? && c.filter.Some? && conn in c.conns && !c.conns[conn].IsJoined()
    ensures SameFor(c, PatchViews(c, list), conn)
    decreases |list|
  {
    if list != [] {
      PatchViewSkips(c, list[0], conn);
      PatchViewKeepsCore(c, list[0]);
      PatchViewsSkip(PatchView(c, list[0]), list[1..], conn);
    }
  }

  lemma BroadcastSkips(c: RoomContext, conn: Id)
    requires conn in c.conns && !c.conns[conn].IsJoined()
    ensures SameFor(c, BroadcastPatch(c), conn)
  {
    if c.slot.Some? && c.filter.Some? {
      PatchViewsSkip(c, c.clients, conn);
    } else if c.slot.Some? {
      SharedSkips(c, SlotDiff(c.slot.value).0, SlotDiff(c.slot.value).1, conn);
    }
  }

  lemma SharedSkips(c: RoomContext, slot: StateSlot, patch: Option<seq<PatchOp>>, conn: Id)
    requires conn in c.conns && !c.conns[conn].IsJoined()
    ensures SameFor(c, SendShared(c, slot, patch), conn)
  {
    if patch.Some? { ToJoinedSkips(c.conns, c.clients, PatchFrame(patch.value), conn); }
  }

  lemma ForgetStrands(c: RoomContext, other: Id, conn: Id, sid: Id, token: Id)
    requires Stranded(c, conn, sid, token) && other != sid
    ensures Stranded(Forget(c, other), conn, sid, token)
  {
  }

  lemma AllowStrands(c: RoomContext, other: Id, expiresAt: Option<int>, never: int, conn: Id, sid: Id, token: Id)
    requires TokensOk(c) && Stranded(c, conn, sid, token) && other != conn && other in c.clients && other in c.conns
    ensures Stranded(Allow(c, other, expiresAt, never), conn, sid, token)
  {
    assert Token(c, conn) == token && Token(c, other) == c.conns[other].token;
  }

  lemma HandleCallStrands(c: RoomContext, call: Call, conn: Id, sid: Id, token: Id)
    requires Stranded(c, conn, sid, token) && (call.LeaveClient? || call.SetUserData? || call.SendTo?)
    ensures Stranded(DoCall(c, call), conn, sid, token)
  {
  }

  lemma CallStrands(c: RoomContext, call: Call, leaving: Option<Id>, conn: Id, sid: Id, token: Id)
    requires ClientsOk(c) && TokensOk(c) && Legal(c, call, leaving) && Stranded(c, conn, sid, token) && Spares(call, conn, sid)
    ensures Stranded(DoCall(c, call), conn, sid, token)
  {
    match call
    case RemoveClient(other) => ForgetStrands(c, other, conn, sid, token);
    case AllowReconnection(other, expiresAt, never) => AllowStrands(c, other, expiresAt, never, conn, sid, token);
    case Broadcast(payload) => ToJoinedSkips(c.conns, c.clients, DataFrame(payload), conn);
    case CallBroadcastPatch => BroadcastSkips(c, conn);
    case LeaveClient(_, _) => HandleCallStrands(c, call, conn, sid, token);
    case SetUserData(_, _) => HandleCallStrands(c, call, conn, sid, token);
    case SendTo(_, _) => HandleCallStrands(c, call, conn, sid, token);
    case _ =>
  }

  lemma {:induction false} CallsStrand(c: RoomContext, calls: seq<Call>, tomb: Option<Id>, leaving: Option<Id>, conn: Id, sid: Id, token: Id)
    requires Inv(c, tomb, leaving) && LegalCalls(c, calls, leaving) && Stranded(c, conn, sid, token) && SparesAll(calls, conn, sid)
    ensures Stranded(DoCalls(c, calls), conn, sid, token)
    ensures Inv(DoCalls(c, calls), tomb, leaving) && Framed(c, DoCalls(c, calls))
    decreases |calls|
  {
    CallsKeepInv(c, calls, tomb, leaving);
    if calls != [] {
      assert Spares(calls[0], conn, sid);
      CallStrands(c, calls[0], leaving, conn, sid, token);
      CallKeepsInv(c, calls[0], tomb, leaving);
      CallsStrand(DoCall(c, calls[0]), calls[1..], tomb, leaving, conn, sid, token);
    }
  }

  // ------------------------------------------------------------------
  // Events
  // ------------------------------------------------------------------

  lemma OthersKeep(c: RoomContext, d: RoomContext, other: Id, conn: Id, sid: Id, token: Id)
    requires Stranded(c, conn, sid, token) && other != sid && SameFor(c, d, conn)
    ensures Stranded(SyncListing(d.(views := d.views - {other}, clients := Others(d, d.clients, other))), conn, sid, token)
  {
    assert Session(d, conn) == sid;
  }

  lemma EndLeaveStrands(c: RoomContext, i: Id, other: Id, code: Option<nat>, conn: Id, sid: Id, token: Id)
    requires Stranded(c, conn, sid, token) && other != sid && i != conn
    ensures Stranded(EndLeave(c, i, other, code), conn, sid, token)
  {
    var c1 := if i in c.conns then WithClient(c, i, c.conns[i].(state := Closed)) else c;
    var c2 := if code.Some? && i in c1.conns then WithClient(c1, i, c1.conns[i].Leave(code.value)) else c1;
    OthersKeep(c, c2, other, conn, sid, token);
  }

  lemma FinishLeaveStrands(c: RoomContext, i: Id, code: Option<nat>, calls: seq<Call>, conn: Id, sid: Id, token: Id)
    requires Inv(c, None, None) && i in c.conns && Stranded(c, conn, sid, token) && SparesAll(calls, conn, sid) && i != conn
    requires Session(c, i) != sid && Session(c, i) !in c.left && Session(c, i) !in c.seats && Session(c, i) in c.issued
    requires LegalCalls(c.(left := c.left + [Session(c, i)]), calls, Some(Session(c, i)))
    ensures Stranded(FinishLeave(c, i, code, calls), conn, sid, token)
  {
    var other := Session(c, i);
    LogLeaveKeepsInv(c, other);
    CallsStrand(c.(left := c.left + [other]), calls, None, Some(other), conn, sid, token);
    EndLeaveStrands(DoCalls(c.(left := c.left + [other]), calls), i, other, code, conn, sid, token);
  }

  lemma DropStrands(c: RoomContext, drops: bool, calls: seq<Call>, conn: Id, sid: Id, token: Id)
    requires Inv(c, None, None) && (drops ==> LegalCalls(c, calls, None)) && Stranded(c, conn, sid, token) && SparesAll(calls, conn, sid)
    ensures Stranded(if drops then DoCalls(c, calls) else c, conn, sid, token)
  {
    if drops { CallsStrand(c, calls, None, None, conn, sid, token); }
  }

  /** The leave of another client once `on_drop` has run. */
  lemma AfterDropStrands(c: RoomContext, i: Id, code: nat, consented: bool, calls: seq<Call>, conn: Id, sid: Id, token: Id)
    requires Inv(c, None, None) && i in c.conns && i != conn && Session(c, i) != sid && Session(c, i) in c.issued
    requires Session(c, i) !in c.left && (Session(c, i) in c.seats ==> Token(c, i) in c.reconnections)
    requires Token(c, i) !in c.reconnections ==> LegalCalls(c.(left := c.left + [Session(c, i)]), calls, Some(Session(c, i)))
    requires Stranded(c, conn, sid, token) && SparesAll(calls, conn, sid)
    ensures Stranded(AfterDrop(c, i, code, consented, calls), conn, sid, token)
  {
    if c.conns[i].token !in c.reconnections {
      FinishLeaveStrands(c, i, if consented then Some(code) else None, calls, conn, sid, token);
    }
  }

  /** The leave of another client, or of the stranded one, which is ignored. */
  lemma LeaveStrands(c: RoomContext, i: Id, code: nat, consented: bool, dropCalls: seq<Call>, leaveCalls: seq<Call>,
                     conn: Id, sid: Id, token: Id)
    requires Inv(c, None, None) && i in c.clients && LeavePermitted(c, i, consented, dropCalls, leaveCalls)
    requires Stranded(c, conn, sid, token) && SparesAll(dropCalls, conn, sid) && SparesAll(leaveCalls, conn, sid)
    ensures Stranded(LeaveRoom(c, i, code, consented, dropCalls, leaveCalls), conn, sid, token)
  {
    if !c.conns[i].state.Leaving? && !c.conns[i].state.Closed? {
      var c1 := WithClient(c, i, c.conns[i].(state := Leaving));
      var drops := !consented && !c.disposing;
      var c2 := if drops then DoCalls(c1, dropCalls) else c1;
      WithClientKeepsCore(c, i, c.conns[i].(state := Leaving));
      DropKeepsInv(c, c1, drops, dropCalls);
      DropKeepsInv(c, c1, false, []);
      DropStrands(c1, drops, dropCalls, conn, sid, token);
      HeldByOwnToken(c, c2, i);
      assert Session(c2, i) == Session(c, i) != Session(c, conn);
      AfterDropStrands(c2, i, code, consented, leaveCalls, conn, sid, token);
    }
  }

  lemma ExpireTokenStrands(c: RoomContext, expired: Id, calls: seq<Call>, conn: Id, sid: Id, token: Id)
    requires Inv(c, None, None) && ExpiryPermitted(c, expired, calls) && Stranded(c, conn, sid, token) && SparesAll(calls, conn, sid)
    ensures Stranded(ExpireToken(c, expired, calls), conn, sid, token)
  {
    if expired in c.reconnections {
      var entry := c.reconnections[expired];
      var other := entry.sessionId;
      assert EntryOk(c, expired);
      var c1 := c.(reconnections := c.reconnections - {expired}, seats := c.seats - {other}, left := c.left + [other]);
      ExpiredKeepsInv(c, c1, expired, other);
      assert Session(c, entry.conn) == other && entry.conn != conn && Session(c, conn) == sid != other;
      CallsStrand(c1, calls, None, Some(other), conn, sid, token);
      EndLeaveStrands(DoCalls(c1, calls), entry.conn, other, None, conn, sid, token);
    }
  }

  predicate ExpiriesSpare(expired: seq<Expiry>, conn: Id, sid: Id) {
    forall k :: 0 <= k < |expired| ==> SparesAll(expired[k].calls, conn, sid)
  }

  lemma {:induction false} ExpireTokensStrand(c: RoomContext, expired: seq<Expiry>, conn: Id, sid: Id, token: Id)
    requires Inv(c, None, None) && ExpiriesPermitted(c, expired) && Stranded(c, conn, sid, token) && ExpiriesSpare(expired, conn, sid)
    ensures Stranded(ExpireTokens(c, expired), conn, sid, token)
    decreases |expired|
  {
    if expired != [] {
      assert SparesAll(expired[0].calls, conn, sid);
      ExpireTokenStrands(c, expired[0].token, expired[0].calls, conn, sid, token);
      ExpireTokenKeepsInv(c, expired[0].token, expired[0].calls);
      ExpireTokensStrand(ExpireToken(c, expired[0].token, expired[0].calls), expired[1..], conn, sid, token);
    }
  }

  lemma DeadlinesStrand(c: RoomContext, now: int, expired: seq<Expiry>, timerCalls: seq<Call>, conn: Id, sid: Id, token: Id)
    requires Inv(c, None, None) && ExpiriesPermitted(c, expired)
    requires LegalCalls(ExpireSeats(ExpireTokens(c, expired), now), timerCalls, None)
    requires Stranded(c, conn, sid, token) && ExpiriesSpare(expired, conn, sid) && SparesAll(timerCalls, conn, sid)
    ensures Stranded(HandleDeadlines(c, now, expired, timerCalls), conn, sid, token)
  {
    ExpireTokensStrand(c, expired, conn, sid, token);
    ExpireTokensKeepsInv(c, expired);
    ExpireSeatsKeepsInv(ExpireTokens(c, expired), now);
    CallsStrand(ExpireSeats(ExpireTokens(c, expired), now), timerCalls, None, None, conn, sid, token);
  }

  lemma ReserveStrands(c: RoomContext, other: Id, options: Json, calls: seq<Call>, auth: HookResult, expiresAt: int, conn: Id, sid: Id, token: Id)
    requires Inv(c, None, None) && Permitted(c, EvReserveSeat(other, options, calls, auth, expiresAt))
    requires Stranded(c, conn, sid, token) && SparesAll(calls, conn, sid)
    ensures Stranded(ReserveSeat(c, other, options, calls, auth, expiresAt), conn, sid, token)
  {
    if !c.disposing && !c.locked && !HasReachedMaxClients(c) {
      CallsStrand(c, calls, None, None, conn, sid, token);
    }
  }

  // ------------------------------------------------------------------
  // Connects
  // ------------------------------------------------------------------

  lemma SendFullStateSkips(c: RoomContext, i: Id, conn: Id)
    requires i in c.conns && conn in c.conns && i != conn
    ensures SameFor(c, SendFullState(c, i), conn) && i in SendFullState(c, i).conns
  {
  }

  lemma WelcomeStrands(c: RoomContext, i: Id, state: ClientState, newToken: Id, conn: Id, sid: Id, token: Id)
    requires i in c.conns && i != conn && Stranded(c, conn, sid, token)
    ensures Stranded(Welcome(c, i, state, newToken), conn, sid, token)
  {
    var client := c.conns[i].(state := state, token := newToken).RawNow(JoinFrame(newToken));
    SendFullStateSkips(WithClient(c.(issued := c.issued + {newToken}), i, client), i, conn);
  }

  lemma RefuseStrands(c: RoomContext, i: Id, conn: Id, sid: Id, token: Id)
    requires i in c.conns && i != conn && Session(c, i) != sid && Stranded(c, conn, sid, token)
    ensures Stranded(Refuse(c, i), conn, sid, token)
  {
    assert Session(c, conn) == sid;
  }

  lemma EndJoinStrands(c: RoomContext, i: Id, accepted: bool, newToken: Id, conn: Id, sid: Id, token: Id)
    requires i in c.conns && i != conn && Session(c, i) != sid && Stranded(c, conn, sid, token)
    ensures Stranded(EndJoin(c, i, accepted, newToken), conn, sid, token)
  {
    var c1 := c.(seats := c.seats - {Session(c, i)});
    if accepted && !c1.conns[i].state.Leaving? {
      WelcomeStrands(c1.(hadClients := true), i, Joined, newToken, conn, sid, token);
    } else {
      RefuseStrands(c1, i, conn, sid, token);
    }
  }

  lemma JoinStrands(c: RoomContext, i: Id, calls: seq<Call>, accepted: bool, newToken: Id, conn: Id, sid: Id, token: Id)
    requires Inv(c, None, None) && i in c.conns && i !in c.clients && Token(c, i) == ""
    requires !(Session(c, i) in c.seats && c.seats[Session(c, i)].waiting)
    requires Session(c, i) in c.seats ==> LegalCalls(TakeSeat(c, i), calls, None)
    requires Stranded(c, conn, sid, token) && SparesAll(calls, conn, sid)
    ensures Stranded(Join(c, i, calls, accepted, newToken), conn, sid, token)
  {
    var other := Session(c, i);
    if other in c.seats && !c.seats[other].consumed {
      var c1 := TakeSeat(c, i);
      TakeSeatTakes(c, i);
      TakeSeatKeepsInv(c, c1, i, other);
      assert Session(c, conn) == sid && IsPending(c.seats[other]);
      CallsStrand(c1, calls, Some(other), None, conn, sid, token);
      assert Session(DoCalls(c1, calls), i) == Session(c1, i) == other;
      EndJoinStrands(DoCalls(c1, calls), i, accepted, newToken, conn, sid, token);
    }
  }

  lemma TakeOverStrands(c: RoomContext, i: Id, held: Id, conn: Id, sid: Id, token: Id)
    requires Inv(c, None, None) && i in c.conns && i !in c.clients && TokenFits(c, held, Session(c, i))
    requires Stranded(c, conn, sid, token)
    ensures Stranded(TakeOver(c, i, held), conn, sid, token)
  {
    var prev := c.reconnections[held].conn;
    assert EntryOk(c, held);
    assert Token(c, conn) == token && Token(c, prev) == held;
    ReplacedListed(c, c.clients, Session(c, i), prev, i);
  }

  lemma ReconnectStrands(c: RoomContext, i: Id, held: Id, calls: seq<Call>, newToken: Id, conn: Id, sid: Id, token: Id)
    requires Inv(c, None, None) && i in c.conns && i !in c.clients && Token(c, i) == ""
    requires TokenFits(c, held, Session(c, i)) ==> LegalCalls(TakeOver(c, i, held), calls, None)
    requires Stranded(c, conn, sid, token) && SparesAll(calls, conn, sid)
    ensures Stranded(Reconnect(c, i, held, calls, newToken), conn, sid, token)
  {
    if TokenFits(c, held, Session(c, i)) {
      TakeOverKeepsInv(c, i, held);
      TakeOverStrands(c, i, held, conn, sid, token);
      var c1 := TakeOver(c, i, held);
      CallsStrand(c1, calls, None, None, conn, sid, token);
      if i in DoCalls(c1, calls).conns { WelcomeStrands(DoCalls(c1, calls), i, Reconnected, newToken, conn, sid, token); }
    }
  }

  lemma ConnectStrands(c: RoomContext, i: Id, other: Id, held: Option<Id>, calls: seq<Call>, accepted: bool, newToken: Id,
                       conn: Id, sid: Id, token: Id)
    requires Inv(c, None, None) && ConnectPermitted(c, i, other, held, calls, newToken)
    requires Stranded(c, conn, sid, token) && SparesAll(calls, conn, sid)
    ensures Stranded(Connect(c, i, other, held, calls, accepted, newToken), conn, sid, token)
  {
    var c0 := WithClient(c, i, NewClient(other));
    NewHandleKeepsInv(c, i, other);
    assert Stranded(c0, conn, sid, token);
    match held
    case None => JoinStrands(c0, i, calls, accepted, newToken, conn, sid, token);
    case Some(t) => ReconnectStrands(c0, i, t, calls, newToken, conn, sid, token);
  }

  // ------------------------------------------------------------------
  // Runs
  // ------------------------------------------------------------------

  /** No hook of the event forgets the session or grants its client a reconnection. */
  predicate SparesIn(e: Event, conn: Id, sid: Id) {
    match e
    case EvReserveSeat(_, _, calls, _, _) => SparesAll(calls, conn, sid)
    case EvConnect(_, _, _, calls, _, _) => SparesAll(calls, conn, sid)
    case EvMessage(_, msg) =>
      (match msg case Ping => true case Leave(calls) => SparesAll(calls, conn, sid) case Data(_, calls) => SparesAll(calls, conn, sid))
    case EvDisconnected(_, _, dropCalls, leaveCalls) => SparesAll(dropCalls, conn, sid) && SparesAll(leaveCalls, conn, sid)
    case EvCommand(calls) => SparesAll(calls, conn, sid)
    case EvDeadlines(_, expired, timerCalls) => ExpiriesSpare(expired, conn, sid) && SparesAll(timerCalls, conn, sid)
    case _ => true
  }

  lemma AnswerStrands(c: RoomContext, i: Id, conn: Id, sid: Id, token: Id)
    requires i in c.conns && Stranded(c, conn, sid, token)
    ensures Stranded(WithClient(c, i, c.conns[i].RawNow(PingFrame)), conn, sid, token)
  {
  }

  lemma PingStrands(c: RoomContext, i: Id, conn: Id, sid: Id, token: Id)
    requires Stranded(c, conn, sid, token)
    ensures Stranded(ClientMessage(c, i, Ping), conn, sid, token)
  {
    if i in c.conns {
      AnswerStrands(c, i, conn, sid, token);
      assert ClientMessage(c, i, Ping) in {c, WithClient(c, i, c.conns[i].RawNow(PingFrame))};
    }
  }

  lemma LeaveMessageStrands(c: RoomContext, i: Id, calls: seq<Call>, conn: Id, sid: Id, token: Id)
    requires Inv(c, None, None) && MessagePermitted(c, i, Leave(calls)) && Stranded(c, conn, sid, token) && SparesAll(calls, conn, sid)
    ensures Stranded(ClientMessage(c, i, Leave(calls)), conn, sid, token)
  {
    if IsCurrent(c, i) {
      LeaveStrands(c, i, CONSENTED, true, [], calls, conn, sid, token);
      assert ClientMessage(c, i, Leave(calls)) == LeaveRoom(c, i, CONSENTED, true, [], calls);
    } else {
      assert ClientMessage(c, i, Leave(calls)) == c;
    }
  }

  lemma DataStrands(c: RoomContext, i: Id, within: bool, calls: seq<Call>, conn: Id, sid: Id, token: Id)
    requires Inv(c, None, None) && LegalCalls(c, calls, None) && Stranded(c, conn, sid, token) && SparesAll(calls, conn, sid)
    ensures Stranded(ClientMessage(c, i, Data(within, calls)), conn, sid, token)
  {
    CallsStrand(c, calls, None, None, conn, sid, token);
    assert ClientMessage(c, i, Data(within, calls)) in {c, DoCalls(c, calls)};
  }

  lemma MessageStrands(c: RoomContext, i: Id, msg: Message, conn: Id, sid: Id, token: Id)
    requires Inv(c, None, None) && MessagePermitted(c, i, msg) && Stranded(c, conn, sid, token)
    requires SparesIn(EvMessage(i, msg), conn, sid)
    ensures Stranded(ClientMessage(c, i, msg), conn, sid, token)
  {
    match msg
    case Ping => PingStrands(c, i, conn, sid, token);
    case Leave(calls) => LeaveMessageStrands(c, i, calls, conn, sid, token);
    case Data(within, calls) => DataStrands(c, i, within, calls, conn, sid, token);
  }

  lemma OneCallStrands(c: RoomContext, e: Event, conn: Id, sid: Id, token: Id)
    requires Inv(c, None, None) && IsOneCall(e) && Stranded(c, conn, sid, token)
    ensures Stranded(Handle(c, e), conn, sid, token)
  {
    var call := TheCall(c, e);
    if call.Some? { CallStrands(c, call.value, None, conn, sid, token); }
    HandleIsOneCall(c, e);
  }

  lemma HandleStrands(c: RoomContext, e: Event, conn: Id, sid: Id, token: Id)
    requires Inv(c, None, None) && Permitted(c, e) && Stranded(c, conn, sid, token) && SparesIn(e, conn, sid)
    ensures Stranded(Handle(c, e), conn, sid, token)
  {
    match e
    case EvReserveSeat(other, options, calls, auth, expiresAt) =>
      ReserveStrands(c, other, options, calls, auth, expiresAt, conn, sid, token);
    case EvConnect(i, other, held, calls, accepted, newToken) =>
      ConnectStrands(c, i, other, held, calls, accepted, newToken, conn, sid, token);
    case EvMessage(i, msg) => MessageStrands(c, i, msg, conn, sid, token);
    case EvDisconnected(i, code, dropCalls, leaveCalls) =>
      if IsCurrent(c, i) { LeaveStrands(c, i, code, false, dropCalls, leaveCalls, conn, sid, token); }
    case EvCommand(calls) => CallsStrand(c, calls, None, None, conn, sid, token);
    case EvDeadlines(now, expired, timerCalls) => DeadlinesStrand(c, now, expired, timerCalls, conn, sid, token);
    case _ => OneCallStrands(c, e, conn, sid, token);
  }

  ghost predicate SparesThroughout(events: seq<Event>, conn: Id, sid: Id) {
    forall k :: 0 <= k < |events| ==> SparesIn(events[k], conn, sid)
  }

  lemma {:induction false} RunStrands(c: RoomContext, events: seq<Event>, conn: Id, sid: Id, token: Id)
    requires Inv(c, None, None) && PermittedRun(c, events) && Stranded(c, conn, sid, token) && SparesThroughout(events, conn, sid)
    ensures Stranded(Run(c, events), conn, sid, token) && Inv(Run(c, events), None, None)
    decreases |events|
  {
    if events != [] {
      HandleStrands(c, events[0], conn, sid, token);
      HandleKeepsInv(c, events[0]);
      RunStrands(Handle(c, events[0]), events[1..], conn, sid, token);
    }
  }

  /**
   * A client without a granted reconnection that is kicked stays listed, and `on_leave` never runs
   * for it, in every run whose hooks call neither `remove_client` nor `allow_reconnection` for it.
   */
  lemma KickedNeverLeaves(c: RoomContext, events: seq<Event>, conn: Id, sid: Id)
    requires Inv(c, None, None) && conn in c.clients && Session(c, conn) == sid && Token(c, conn) !in c.reconnections
    requires PermittedRun(Handle(c, EvKick(sid)), events) && SparesThroughout(events, conn, sid)
    ensures var d := Run(Handle(c, EvKick(sid)), events); conn in d.clients && sid !in d.left
  {
    var d := Handle(c, EvKick(sid));
    assert FindClient(c, c.clients, sid) == Some(conn);
    HandleKeepsInv(c, EvKick(sid));
    assert d.conns[conn].state.Leaving? && d.conns[conn].token == c.conns[conn].token;
    RunStrands(d, events, conn, sid, Token(c, conn));
    assert Session(Run(d, events), conn) == sid;
  }
}
