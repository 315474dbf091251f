/** What each event leads to: a relation between the context before it, its inputs and the context after it. */
module EventEffects {
  import opened Json
  import opened Room
  import opened RoomInvariant
  import opened Actor
  import opened ActorRuns
  import opened HookEffects
  import opened JoinEffects
  import opened LeaveEffects
  import opened DeadlineEffects
  import opened RoomEffects

  /** `on_connect`: a new handle, ignored unless it names an open seat, or shows the token of its own session. */
  ghost predicate ConnectLeads(
      c: RoomContext, d: RoomContext, conn: Id, sid: Id, token: Option<Id>, calls: seq<Call>, accepted: bool, newToken: Id) {
    if token.None? && sid in c.seats && !c.seats[sid].consumed then JoinLeads(c, d, conn, sid, calls, accepted, newToken)
    else if token.Some? && token.value in c.reconnections && c.reconnections[token.value].sessionId == sid then
      c.reconnections[token.value].conn in c.conns && ReconnectLeads(c, d, conn, sid, token.value, calls, newToken)
    else d == c.(conns := c.conns[conn := FreshHandle(sid, Joining, None, None)])
  }

  /** `on_client_message`. */
  ghost predicate MessageLeads(c: RoomContext, d: RoomContext, conn: Id, msg: Message)
    requires conn in c.clients ==> conn in c.conns
  {
    match msg
    case Data(withinRate, calls) => d == if conn in c.clients && c.conns[conn].IsJoined() && withinRate then DoCalls(c, calls) else c
    case Ping =>
      if conn in c.conns && (conn in c.clients || forall i :: i in c.clients ==> Session(c, i) != Session(c, conn)) then Answers(c, d, conn)
      else d == c
    case Leave(calls) =>
      if conn !in c.clients || IsLeaving(c, conn) then d == c
      else if Token(c, conn) in c.reconnections then IsHeld(MarkedLeaving(c, conn), d, conn, CONSENTED)
      else IsGone(c, d, conn, Some(CONSENTED))
  }

  /** The end of a connection. */
  ghost predicate DisconnectLeads(c: RoomContext, d: RoomContext, conn: Id, code: nat, dropCalls: seq<Call>)
    requires conn in c.clients ==> conn in c.conns
  {
    if conn !in c.clients || IsLeaving(c, conn) then d == c
    else
      var h := if c.disposing then MarkedLeaving(c, conn) else DoCalls(MarkedLeaving(c, conn), dropCalls);
      if Token(h, conn) in h.reconnections then IsHeld(h, d, conn, code) else IsGone(h, d, conn, None)
  }

  /** Room code forgets this session on the way. */
  ghost predicate ForgottenBy(expired: seq<Expiry>, timerCalls: seq<Call>, sid: Id) {
    HooksRemove(expired, sid) || Removes(timerCalls, sid)
  }

  /** What becomes of an entry: a due session is logged and gone, any other one waits on. */
  ghost predicate EntryLeads(c: RoomContext, d: RoomContext, now: int, t: Id)
    requires t in c.reconnections
  {
    var r := c.reconnections[t];
    if IsDue(r, now) then IsOver(d, r.sessionId) && r.sessionId in d.left else HasEntryAs(d, t, r)
  }

  /** What becomes of a reservation: it goes at its time, and stays as it is before. */
  ghost predicate SeatLeads(c: RoomContext, d: RoomContext, now: int, sid: Id)
    requires sid in c.seats
  {
    if now < c.seats[sid].expiresAt then sid in d.seats && d.seats[sid] == c.seats[sid] else sid !in d.seats
  }

  /** `handle_deadlines`. */
  ghost predicate DeadlinesLead(c: RoomContext, d: RoomContext, now: int, expired: seq<Expiry>, timerCalls: seq<Call>) {
    && (forall t :: t in c.reconnections && !ForgottenBy(expired, timerCalls, c.reconnections[t].sessionId) ==> EntryLeads(c, d, now, t))
    && (forall sid :: sid in OpenReservations(c) && !ForgottenBy(expired, timerCalls, sid) ==> SeatLeads(c, d, now, sid))
    && (expired == [] && timerCalls == [] ==>
          && d == c.(seats := d.seats, driver := d.driver)
          && (forall sid :: sid in d.seats <==> sid in c.seats && OutlastsDeadline(c.seats[sid], now))
          && (forall sid :: sid in d.seats ==> d.seats[sid] == c.seats[sid]))
  }

  /** A kick closes the client of the session, if there is one, and leaves it listed. */
  ghost predicate KickLeads(c: RoomContext, d: RoomContext, sid: Id) {
    if i :| i in c.clients && Session(c, i) == sid then IsClosedOnly(c, d, i, CONSENTED) else d == c
  }

  ghost predicate IsClosedOnly(c: RoomContext, d: RoomContext, conn: Id, code: nat) {
    conn in c.conns && d == c.(conns := c.conns[conn := c.conns[conn].(state := Leaving, outbox := c.conns[conn].outbox + [Close(code)])])
  }

  /** All events. */
  ghost predicate Leads(c: RoomContext, e: Event, d: RoomContext)
    requires ClientsOk(c)
  {
    match e
    case EvReserveSeat(sid, options, calls, auth, expiresAt) => ReserveLeads(c, d, sid, options, calls, auth, expiresAt)
    case EvConnect(conn, sid, token, calls, accepted, newToken) => ConnectLeads(c, d, conn, sid, token, calls, accepted, newToken)
    case EvMessage(conn, msg) => MessageLeads(c, d, conn, msg)
    case EvDisconnected(conn, code, dropCalls, leaveCalls) => DisconnectLeads(c, d, conn, code, dropCalls)
    case EvCommand(calls) => d == DoCalls(c, calls)
    case EvKick(sid) => KickLeads(c, d, sid)
    case EvHandleClosed(conn, code) => if conn in c.conns then IsClosedOnly(c, d, conn, code) else d == c
    case EvSetLocked(locked) => Shows(d) && d == c.(locked := locked, driver := d.driver)
    case EvEditState(s) => d == if c.slot.None? then c else c.(slot := Some(StateSlot(s, c.slot.value.snapshot)))
    case EvPatch => d.clients == c.clients && forall i :: i in c.conns ==> i in d.conns && OnePatchAtMost(c.conns[i], d.conns[i], i in c.clients)
    case EvDeadlines(now, expired, timerCalls) => DeadlinesLead(c, d, now, expired, timerCalls)
  }

  // ------------------------------------------------------------------
  // Every event leads where it should
  // ------------------------------------------------------------------

  lemma ConnectOutcome(c: RoomContext, conn: Id, sid: Id, token: Option<Id>, calls: seq<Call>, accepted: bool, newToken: Id)
    requires Inv(c, None, None) && conn !in c.conns
    ensures ConnectLeads(c, Connect(c, conn, sid, token, calls, accepted, newToken), conn, sid, token, calls, accepted, newToken)
  {
    match token
    case Some(t) =>
      if t in c.reconnections && c.reconnections[t].sessionId == sid {
        assert EntryOk(c, t);
        ReconnectOutcome(c, conn, sid, t, calls, accepted, newToken);
      } else {
        WrongTokenOutcome(c, conn, sid, t, calls, accepted, newToken);
      }
    case None =>
      if sid in c.seats && !c.seats[sid].consumed { JoinOutcome(c, conn, sid, calls, accepted, newToken); }
  }

  lemma MessageOutcome(c: RoomContext, conn: Id, msg: Message)
    requires ClientsOk(c) && MessagePermitted(c, conn, msg)
    ensures MessageLeads(c, ClientMessage(c, conn, msg), conn, msg)
  {
    match msg
    case Data(withinRate, calls) => DataOutcome(c, conn, withinRate, calls);
    case Ping => if conn in c.conns { PingOutcome(c, conn); }
    case Leave(calls) =>
      ListedIsCurrent(c, conn);
      LeaveOutcome(c, conn, calls);
  }

  lemma EntryOutcome(c: RoomContext, now: int, expired: seq<Expiry>, timerCalls: seq<Call>, t: Id)
    requires Inv(c, None, None) && Permitted(c, EvDeadlines(now, expired, timerCalls)) && t in c.reconnections
    requires !ForgottenBy(expired, timerCalls, c.reconnections[t].sessionId)
    ensures EntryLeads(c, HandleDeadlines(c, now, expired, timerCalls), now, t)
  {
    var r := c.reconnections[t];
    var c1 := ExpireTokens(c, expired);
    var c2 := ExpireSeats(c1, now);
    ReconnectionsOutcome(c, now, expired, t);
    ExpireSeatsEffects(c1, now);
    if IsDue(r, now) {
      assert forall i :: Session(c2, i) == Session(c1, i);
      CallsKeepOver(c2, timerCalls, None, r.sessionId);
      CallsKeepLeft(c2, timerCalls);
    } else {
      CallsKeepEntry(c2, timerCalls, t, r);
    }
  }

  lemma SeatOutcome(c: RoomContext, now: int, expired: seq<Expiry>, timerCalls: seq<Call>, sid: Id)
    requires Inv(c, None, None) && Permitted(c, EvDeadlines(now, expired, timerCalls)) && sid in OpenReservations(c)
    requires !ForgottenBy(expired, timerCalls, sid)
    ensures SeatLeads(c, HandleDeadlines(c, now, expired, timerCalls), now, sid)
  {
    assert IsReserved(c, sid, c.seats[sid]);
    ReservationOutcome(c, now, expired, timerCalls, sid, c.seats[sid]);
  }

  lemma DeadlinesLeadOn(c: RoomContext, now: int, expired: seq<Expiry>, timerCalls: seq<Call>)
    requires Inv(c, None, None) && Permitted(c, EvDeadlines(now, expired, timerCalls))
    ensures DeadlinesLead(c, HandleDeadlines(c, now, expired, timerCalls), now, expired, timerCalls)
  {
    var d := HandleDeadlines(c, now, expired, timerCalls);
    forall t | t in c.reconnections && !ForgottenBy(expired, timerCalls, c.reconnections[t].sessionId) ensures EntryLeads(c, d, now, t) {
      EntryOutcome(c, now, expired, timerCalls, t);
    }
    forall sid | sid in OpenReservations(c) && !ForgottenBy(expired, timerCalls, sid) ensures SeatLeads(c, d, now, sid) {
      SeatOutcome(c, now, expired, timerCalls, sid);
    }
    if expired == [] && timerCalls == [] { DeadlinesOutcome(c, now); }
  }

  lemma KickOutcome(c: RoomContext, sid: Id)
    requires ClientsOk(c)
    ensures KickLeads(c, Handle(c, EvKick(sid)), sid)
  {
    var found := FindClient(c, c.clients, sid);
    if found.Some? {
      assert c.conns[found.value].Leave(CONSENTED) == c.conns[found.value].(state := Leaving, outbox := c.conns[found.value].outbox + [Close(CONSENTED)]);
    }
  }

  lemma PatchOutcome(c: RoomContext)
    requires ClientsOk(c)
    ensures Leads(c, EvPatch, BroadcastPatch(c))
  {
    forall i | i in c.conns ensures i in BroadcastPatch(c).conns && OnePatchAtMost(c.conns[i], BroadcastPatch(c).conns[i], i in c.clients) {
      BroadcastOutcome(c, i);
    }
    BroadcastKeepsCore(c);
  }

  lemma LockOutcome(c: RoomContext, locked: bool)
    requires ClientsOk(c) && ListingOk(c)
    ensures Leads(c, EvSetLocked(locked), Handle(c, EvSetLocked(locked)))
  {
    OpenArePending(c);
    LockingOutcome(c);
  }

  /** Every permitted event leads where its relation says. */
  lemma EventOutcome(c: RoomContext, e: Event)
    requires Inv(c, None, None) && Permitted(c, e)
    ensures Leads(c, e, Handle(c, e))
  {
    match e
    case EvReserveSeat(sid, options, calls, auth, expiresAt) => ReserveOutcome(c, sid, options, calls, auth, expiresAt);
    case EvConnect(conn, sid, token, calls, accepted, newToken) => ConnectOutcome(c, conn, sid, token, calls, accepted, newToken);
    case EvMessage(conn, msg) => MessageOutcome(c, conn, msg);
    case EvDisconnected(conn, code, dropCalls, leaveCalls) =>
      ListedIsCurrent(c, conn);
      DisconnectOutcome(c, conn, code, dropCalls, leaveCalls);
    case EvCommand(calls) =>
    case EvKick(sid) => KickOutcome(c, sid);
    case EvHandleClosed(conn, code) =>
    case EvSetLocked(locked) => LockOutcome(c, locked);
    case EvEditState(s) => StateOutcome(c, 0, s);
    case EvPatch => PatchOutcome(c);
    case EvDeadlines(now, expired, timerCalls) => DeadlinesLeadOn(c, now, expired, timerCalls);
  }
}
