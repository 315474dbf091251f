/** What each event of `actor.rs` does to the room context; events are handled one at a time. */
module Actor {
  import opened Json
  import opened Room

  datatype HookResult = Accepted(auth: Option<Json>) | Rejected

  // ------------------------------------------------------------------
  // Seats
  // ------------------------------------------------------------------

  /** `on_reserve_seat`; `auth` is what `on_auth` does and answers. */
  function ReserveSeat(c: RoomContext, sid: Id, options: Json, calls: seq<Call>, auth: HookResult, expiresAt: int): RoomContext {
    if c.disposing || c.locked || HasReachedMaxClients(c) then c
    else
      var c1 := DoCalls(c, calls);
      match auth
      case Rejected => c1
      case Accepted(data) =>
        SyncListing(c1.(seats := c1.seats[sid := Seat(options, data, false, false, expiresAt)],
                        issued := c1.issued + {sid}))
  }

  // ------------------------------------------------------------------
  // Connecting
  // ------------------------------------------------------------------

  /** The full state, recorded as the view the client now holds. */
  function SendFullState(c: RoomContext, conn: Id): RoomContext
    requires conn in c.conns
  {
    var client := c.conns[conn];
    var state := FullStateFor(c, client);
    if state.None? then c
    else
      WithClient(c.(views := c.views[client.sessionId := state.value]), conn, client.RawNow(StateFrame(state.value)))
  }

  /** The handshake both join paths end with. */
  function Welcome(c: RoomContext, conn: Id, state: ClientState, token: Id): RoomContext
    requires conn in c.conns
  {
    var client := c.conns[conn].(state := state, token := token).RawNow(JoinFrame(token));
    var c1 := SendFullState(WithClient(c.(issued := c.issued + {token}), conn, client), conn);
    SyncListing(WithClient(c1, conn, c1.conns[conn].FlushPending()))
  }

  predicate TokenFits(c: RoomContext, token: Id, sid: Id) {
    token in c.reconnections && c.reconnections[token].sessionId == sid
  }

  /** The new connection inherits auth and user data; the old one is marked as reconnected. */
  function HandOver(conns: map<Id, Client>, conn: Id, previous: Id): map<Id, Client>
    requires conn in conns
  {
    var held := if previous in conns then conns[previous] else conns[conn];
    var client := conns[conn].(auth := held.auth, userData := if held.userData.Some? then held.userData else conns[conn].userData);
    var released := if previous in conns then conns[previous := held.(state := Reconnected)] else conns;
    released[conn := client.(state := Reconnecting)]
  }

  /** Take the held session over, up to the `on_reconnect` hook. */
  function TakeOver(c: RoomContext, conn: Id, token: Id): RoomContext
    requires conn in c.conns && TokenFits(c, token, c.conns[conn].sessionId)
  {
    var sid := c.conns[conn].sessionId;
    c.(reconnections := c.reconnections - {token},
       seats := c.seats - {sid},
       conns := HandOver(c.conns, conn, c.reconnections[token].conn),
       clients := Replaced(c, c.clients, sid, conn),
       accepted := c.accepted + [token])
  }

  function Reconnect(c: RoomContext, conn: Id, token: Id, calls: seq<Call>, newToken: Id): RoomContext
    requires conn in c.conns
  {
    if !TokenFits(c, token, c.conns[conn].sessionId) then c
    else
      var c1 := DoCalls(TakeOver(c, conn, token), calls);
      if conn in c1.conns then Welcome(c1, conn, Reconnected, newToken) else c1
  }

  /** Mark the seat consumed and list the client, up to the `on_join` hook. */
  function TakeSeat(c: RoomContext, conn: Id): RoomContext
    requires conn in c.conns && c.conns[conn].sessionId in c.seats
  {
    var sid := c.conns[conn].sessionId;
    var seat := c.seats[sid];
    c.(seats := c.seats[sid := seat.(consumed := true)],
       conns := c.conns[conn := c.conns[conn].(auth := seat.auth, state := Joining)],
       clients := c.clients + [conn])
  }

  /** A refused client is unlisted, told, and closed. */
  function Refuse(c: RoomContext, conn: Id): RoomContext
    requires conn in c.conns
  {
    var c1 := c.(clients := Others(c, c.clients, c.conns[conn].sessionId));
    SyncListing(WithClient(c1, conn, c1.conns[conn].RawNow(ErrorFrame).Leave(WITH_ERROR)))
  }

  /** After `on_join`: the tombstone goes either way; then welcome the client or send it away. */
  function EndJoin(c: RoomContext, conn: Id, accepted: bool, newToken: Id): RoomContext
    requires conn in c.conns
  {
    var c1 := c.(seats := c.seats - {c.conns[conn].sessionId});
    if accepted && !c1.conns[conn].state.Leaving? then
      Welcome(c1.(hadClients := true), conn, Joined, newToken)
    else Refuse(c1, conn)
  }

  function Join(c: RoomContext, conn: Id, calls: seq<Call>, accepted: bool, newToken: Id): RoomContext
    requires conn in c.conns
  {
    var sid := c.conns[conn].sessionId;
    if sid !in c.seats || c.seats[sid].consumed then c
    else
      var c1 := DoCalls(TakeSeat(c, conn), calls);
      if conn in c1.conns then EndJoin(c1, conn, accepted, newToken) else c1
  }

  /** `on_connect`: a new handle for session `sid`, with or without a reconnection token. */
  function Connect(c: RoomContext, conn: Id, sid: Id, token: Option<Id>, calls: seq<Call>, accepted: bool, newToken: Id): RoomContext {
    var c0 := WithClient(c, conn, NewClient(sid));
    if token.Some? then Reconnect(c0, conn, token.value, calls, newToken)
    else Join(c0, conn, calls, accepted, newToken)
  }

  // ------------------------------------------------------------------
  // Leaving
  // ------------------------------------------------------------------

  /** What follows `on_leave`, in `leave_client` and for an expired reconnection alike. */
  function EndLeave(c: RoomContext, conn: Id, sid: Id, code: Option<nat>): RoomContext {
    var c1 := if conn in c.conns then WithClient(c, conn, c.conns[conn].(state := Closed)) else c;
    var c2 := if code.Some? && conn in c1.conns then WithClient(c1, conn, c1.conns[conn].Leave(code.value)) else c1;
    SyncListing(c2.(views := c2.views - {sid}, clients := Others(c2, c2.clients, sid)))
  }

  /** `on_leave` and what follows it in `leave_client`. */
  function FinishLeave(c: RoomContext, conn: Id, code: Option<nat>, calls: seq<Call>): RoomContext
    requires conn in c.conns
  {
    var sid := c.conns[conn].sessionId;
    EndLeave(DoCalls(c.(left := c.left + [sid]), calls), conn, sid, code)
  }

  /** Once `on_drop` has run: recycle the transport of a client that may come back, or let it leave. */
  function AfterDrop(c: RoomContext, conn: Id, code: nat, consented: bool, leaveCalls: seq<Call>): RoomContext {
    if conn !in c.conns then c
    else if c.conns[conn].token in c.reconnections then WithClient(c, conn, c.conns[conn].Queue(Close(code)))
    else FinishLeave(c, conn, if consented then Some(code) else None, leaveCalls)
  }

  /** `leave_client`; `dropCalls` and `leaveCalls` are the bodies of `on_drop` and `on_leave`. */
  function LeaveRoom(c: RoomContext, conn: Id, code: nat, consented: bool, dropCalls: seq<Call>, leaveCalls: seq<Call>): RoomContext
    requires conn in c.conns
  {
    if c.conns[conn].state.Leaving? || c.conns[conn].state.Closed? then c
    else
      var c1 := WithClient(c, conn, c.conns[conn].(state := Leaving));
      AfterDrop(if !consented && !c1.disposing then DoCalls(c1, dropCalls) else c1, conn, code, consented, leaveCalls)
  }

  /** Is `conn` the current connection of its session? */
  predicate IsCurrent(c: RoomContext, conn: Id) {
    conn in c.conns && FindClient(c, c.clients, c.conns[conn].sessionId) == Some(conn)
  }

  function Disconnected(c: RoomContext, conn: Id, code: nat, dropCalls: seq<Call>, leaveCalls: seq<Call>): RoomContext {
    if IsCurrent(c, conn) then LeaveRoom(c, conn, code, false, dropCalls, leaveCalls) else c
  }

  datatype Message = Ping | Leave(leaveCalls: seq<Call>) | Data(withinRate: bool, handlerCalls: seq<Call>)

  /** `on_client_message`; the rate check and the handlers are choices of the event. */
  function ClientMessage(c: RoomContext, conn: Id, msg: Message): RoomContext {
    if conn !in c.conns then c
    else if FindClient(c, c.clients, c.conns[conn].sessionId).None? then
      if msg.Ping? then WithClient(c, conn, c.conns[conn].RawNow(PingFrame)) else c
    else if !IsCurrent(c, conn) then c
    else
      match msg
      case Ping => WithClient(c, conn, c.conns[conn].RawNow(PingFrame))
      case Leave(calls) => LeaveRoom(c, conn, CONSENTED, true, [], calls)
      case Data(withinRate, calls) => if c.conns[conn].IsJoined() && withinRate then DoCalls(c, calls) else c
  }

  // ------------------------------------------------------------------
  // Deadlines
  // ------------------------------------------------------------------

  /** Finalize one expired reconnection; an earlier hook may have removed it already. */
  function ExpireToken(c: RoomContext, token: Id, calls: seq<Call>): RoomContext {
    if token !in c.reconnections then c
    else
      var entry := c.reconnections[token];
      var sid := entry.sessionId;
      var c1 := c.(reconnections := c.reconnections - {token}, seats := c.seats - {sid}, left := c.left + [sid]);
      EndLeave(DoCalls(c1, calls), entry.conn, sid, None)
  }

  datatype Expiry = Expiry(token: Id, calls: seq<Call>)

  function ExpireTokens(c: RoomContext, expired: seq<Expiry>): RoomContext
    decreases |expired|
  {
    if expired == [] then c else ExpireTokens(ExpireToken(c, expired[0].token, expired[0].calls), expired[1..])
  }

  /** The tokens collected before the first of them is handled, in whatever order the map has. */
  predicate AreExpired(c: RoomContext, now: int, expired: seq<Expiry>) {
    && (forall i, j :: 0 <= i < j < |expired| ==> expired[i].token != expired[j].token)
    && (forall e :: e in expired ==> e.token in c.reconnections && HasExpired(c.reconnections[e.token], now))
    && (forall t :: t in c.reconnections && HasExpired(c.reconnections[t], now) ==> exists e :: e in expired && e.token == t)
  }

  predicate HasExpired(r: Reconnection, now: int) { r.expiresAt.Some? && r.expiresAt.value <= now }

  function ExpiredSeats(c: RoomContext, now: int): set<Id> {
    set sid | sid in c.seats && IsPending(c.seats[sid]) && c.seats[sid].expiresAt <= now
  }

  function ExpireSeats(c: RoomContext, now: int): RoomContext {
    if ExpiredSeats(c, now) == {} then c else SyncListing(c.(seats := c.seats - ExpiredSeats(c, now)))
  }

  /** `handle_deadlines`; `timerCalls` is what the due timers do. */
  function HandleDeadlines(c: RoomContext, now: int, expired: seq<Expiry>, timerCalls: seq<Call>): RoomContext {
    DoCalls(ExpireSeats(ExpireTokens(c, expired), now), timerCalls)
  }

  // ------------------------------------------------------------------
  // Disposal
  // ------------------------------------------------------------------

  /** Close every handle of the list. */
  function CloseAll(conns: map<Id, Client>, list: seq<Id>, code: nat): map<Id, Client>
    decreases |list|
  {
    if list == [] then conns
    else if list[0] in conns then
      CloseAll(conns[list[0] := conns[list[0]].(state := Closed).Leave(code)], list[1..], code)
    else CloseAll(conns, list[1..], code)
  }

  /** Everybody is closed, seats and reconnections are cleared, `on_dispose` runs, and the driver forgets the room. */
  function Emptied(c: RoomContext, code: nat, calls: seq<Call>): RoomContext {
    var c1 := c.(clients := [], seats := map[], reconnections := map[], conns := CloseAll(c.conns, c.clients, code));
    DoCalls(c1, calls).(driver := None)
  }

  /** `dispose`, apart from the snapshot it may save. */
  function Dispose(c: RoomContext, code: nat, calls: seq<Call>): RoomContext {
    if c.disposing then c else Emptied(c.(disposing := true, requestDispose := None), code, calls)
  }

  // ------------------------------------------------------------------
  // All events
  // ------------------------------------------------------------------

  datatype Event =
    | EvReserveSeat(sid: Id, options: Json, authCalls: seq<Call>, auth: HookResult, expiresAt: int)
    | EvConnect(conn: Id, session: Id, token: Option<Id>, hookCalls: seq<Call>, accepted: bool, newToken: Id)
    | EvMessage(conn: Id, msg: Message)
    | EvDisconnected(conn: Id, code: nat, dropCalls: seq<Call>, leaveCalls: seq<Call>)
    | EvCommand(calls: seq<Call>)                 // commands, room RPCs and ticks
    | EvKick(kicked: Id)
    | EvHandleClosed(conn: Id, code: nat)         // the socket task gives up on its own handle
    | EvSetLocked(locked: bool)
    | EvEditState(state: Json)
    | EvPatch
    | EvDeadlines(now: int, expired: seq<Expiry>, timerCalls: seq<Call>)

  function Handle(c: RoomContext, e: Event): RoomContext {
    match e
    case EvReserveSeat(sid, options, calls, auth, expiresAt) => ReserveSeat(c, sid, options, calls, auth, expiresAt)
    case EvConnect(conn, sid, token, calls, accepted, newToken) => Connect(c, conn, sid, token, calls, accepted, newToken)
    case EvMessage(conn, msg) => ClientMessage(c, conn, msg)
    case EvDisconnected(conn, code, dropCalls, leaveCalls) => Disconnected(c, conn, code, dropCalls, leaveCalls)
    case EvCommand(calls) => DoCalls(c, calls)
    case EvKick(sid) =>
      var found := FindClient(c, c.clients, sid);
      if found.Some? then DoCall(c, LeaveClient(found.value, CONSENTED)) else c
    case EvHandleClosed(conn, code) => DoCall(c, LeaveClient(conn, code))
    case EvSetLocked(locked) => DoCall(c, if locked then Lock else Unlock)
    case EvEditState(s) => DoCall(c, MutateState(s))
    case EvPatch => BroadcastPatch(c)
    case EvDeadlines(now, expired, timerCalls) => HandleDeadlines(c, now, expired, timerCalls)
  }
}
