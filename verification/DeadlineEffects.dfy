/** Which reservations and reconnections a deadline ends, and which it does not, over whole runs. */
module DeadlineEffects {
  import opened Json
  import opened Room
  import opened RoomInvariant
  import opened Actor
  import opened ActorInvariant
  import opened ActorRuns
  import opened HookEffects

  // ------------------------------------------------------------------
  // Reservations
  // ------------------------------------------------------------------

  /** A seat stays unless it is an open reservation whose time has come. */
  predicate OutlastsDeadline(s: Seat, now: int) { s.waiting || s.consumed || now < s.expiresAt }

  lemma ExpireSeatsEffects(c: RoomContext, now: int)
    ensures var d := ExpireSeats(c, now);
            && d == c.(seats := d.seats, driver := d.driver)
            && (forall sid :: sid in d.seats <==> sid in c.seats && OutlastsDeadline(c.seats[sid], now))
            && (forall sid :: sid in d.seats ==> d.seats[sid] == c.seats[sid])
  {
    if ExpiredSeats(c, now) == {} {
      forall sid | sid in c.seats ensures OutlastsDeadline(c.seats[sid], now) { assert sid !in ExpiredSeats(c, now); }
    }
  }

  /** Without expired reconnections and timers, nothing else happens. */
  lemma DeadlinesOutcome(c: RoomContext, now: int)
    ensures var d := HandleDeadlines(c, now, [], []);
            && d == c.(seats := d.seats, driver := d.driver)
            && (forall sid :: sid in d.seats <==> sid in c.seats && OutlastsDeadline(c.seats[sid], now))
            && (forall sid :: sid in d.seats ==> d.seats[sid] == c.seats[sid])
  {
    ExpireSeatsEffects(c, now);
    assert HandleDeadlines(c, now, [], []) == ExpireSeats(c, now);
  }

  // ------------------------------------------------------------------
  // Entries that stay
  // ------------------------------------------------------------------

  ghost predicate HasEntryAs(c: RoomContext, t: Id, r: Reconnection) { t in c.reconnections && c.reconnections[t] == r }

  lemma CallKeepsEntry(c: RoomContext, call: Call, t: Id, r: Reconnection)
    requires HasEntryAs(c, t, r) && call != RemoveClient(r.sessionId)
    ensures HasEntryAs(DoCall(c, call), t, r)
  {
    if IsPlain(call) && !TouchesListing(call) { QuietCallKeepsCore(c, call); }
  }

  /** Room code takes an entry away only by forgetting its session. */
  lemma {:induction false} CallsKeepEntry(c: RoomContext, calls: seq<Call>, t: Id, r: Reconnection)
    requires HasEntryAs(c, t, r) && !Removes(calls, r.sessionId)
    ensures HasEntryAs(DoCalls(c, calls), t, r)
    decreases |calls|
  {
    if calls != [] {
      assert calls == [calls[0]] + calls[1..];
      CallsCons(calls[0], calls[1..], "", r.sessionId);
      OneOf(calls[0], "", r.sessionId);
      CallKeepsEntry(c, calls[0], t, r);
      CallsKeepEntry(DoCall(c, calls[0]), calls[1..], t, r);
    }
  }

  ghost predicate HooksRemove(expired: seq<Expiry>, sid: Id) { exists k :: 0 <= k < |expired| && Removes(expired[k].calls, sid) }

  lemma RestRemoves(expired: seq<Expiry>, sid: Id)
    requires expired != []
    ensures HooksRemove(expired, sid) <==> Removes(expired[0].calls, sid) || HooksRemove(expired[1..], sid)
  {
    if HooksRemove(expired[1..], sid) {
      var k :| 0 <= k < |expired[1..]| && Removes(expired[1..][k].calls, sid);
      assert expired[k + 1] == expired[1..][k];
    }
    if HooksRemove(expired, sid) && !Removes(expired[0].calls, sid) {
      var k :| 0 <= k < |expired| && Removes(expired[k].calls, sid);
      assert expired[1..][k - 1] == expired[k];
    }
  }

  lemma ExpireTokenKeepsEntry(c: RoomContext, token: Id, calls: seq<Call>, t: Id, r: Reconnection)
    requires HasEntryAs(c, t, r) && t != token && !Removes(calls, r.sessionId)
    ensures HasEntryAs(ExpireToken(c, token, calls), t, r)
  {
    if token in c.reconnections {
      var sid := c.reconnections[token].sessionId;
      var c1 := c.(reconnections := c.reconnections - {token}, seats := c.seats - {sid}, left := c.left + [sid]);
      CallsKeepEntry(c1, calls, t, r);
      EndLeaveUnlists(DoCalls(c1, calls), c.reconnections[token].conn, sid, None);
    }
  }

  /** An entry that is not due stays as it is, unless a hook forgets its session. */
  lemma {:induction false} EntriesNotDueStay(c: RoomContext, expired: seq<Expiry>, t: Id, r: Reconnection)
    requires HasEntryAs(c, t, r) && (forall e :: e in expired ==> e.token != t) && !HooksRemove(expired, r.sessionId)
    ensures HasEntryAs(ExpireTokens(c, expired), t, r)
    decreases |expired|
  {
    if expired != [] {
      RestRemoves(expired, r.sessionId);
      assert expired[0] in expired;
      ExpireTokenKeepsEntry(c, expired[0].token, expired[0].calls, t, r);
      EntriesNotDueStay(ExpireToken(c, expired[0].token, expired[0].calls), expired[1..], t, r);
    }
  }

  // ------------------------------------------------------------------
  // Sessions whose time has come
  // ------------------------------------------------------------------

  /** Nothing of a session is left: no client, no entry, no seat. */
  ghost predicate IsOver(c: RoomContext, sid: Id) {
    && (forall i :: i in c.clients ==> Session(c, i) != sid)
    && (forall t :: t in c.reconnections ==> c.reconnections[t].sessionId != sid)
    && sid !in c.seats
  }

  lemma CallKeepsOver(c: RoomContext, call: Call, leaving: Option<Id>, sid: Id)
    requires IsOver(c, sid) && Legal(c, call, leaving)
    ensures IsOver(DoCall(c, call), sid)
  {
    if IsPlain(call) && !TouchesListing(call) {
      QuietCallKeepsCore(c, call);
      SameHandlesNames(c, DoCall(c, call));
    }
  }

  lemma {:induction false} CallsKeepOver(c: RoomContext, calls: seq<Call>, leaving: Option<Id>, sid: Id)
    requires IsOver(c, sid) && LegalCalls(c, calls, leaving)
    ensures IsOver(DoCalls(c, calls), sid)
    decreases |calls|
  {
    if calls != [] {
      CallKeepsOver(c, calls[0], leaving, sid);
      CallsKeepOver(DoCall(c, calls[0]), calls[1..], leaving, sid);
    }
  }

  lemma UnlistedKeepsOver(c: RoomContext, d: RoomContext, other: Id, sid: Id)
    requires Unlisted(c, d, other) && IsOver(c, sid)
    ensures IsOver(d, sid)
  {
    SameHandlesNames(c, d);
  }

  lemma ExpireTokenKeepsOver(c: RoomContext, token: Id, calls: seq<Call>, sid: Id)
    requires IsOver(c, sid) && ExpiryPermitted(c, token, calls)
    ensures IsOver(ExpireToken(c, token, calls), sid)
  {
    if token in c.reconnections {
      var other := c.reconnections[token].sessionId;
      var c1 := c.(reconnections := c.reconnections - {token}, seats := c.seats - {other}, left := c.left + [other]);
      assert forall i :: Session(c1, i) == Session(c, i);
      CallsKeepOver(c1, calls, Some(other), sid);
      EndLeaveUnlists(DoCalls(c1, calls), c.reconnections[token].conn, other, None);
      UnlistedKeepsOver(DoCalls(c1, calls), ExpireToken(c, token, calls), other, sid);
    }
  }

  lemma CallKeepsLeft(c: RoomContext, call: Call)
    ensures DoCall(c, call).left == c.left
  {
    if IsPlain(call) && !TouchesListing(call) { QuietCallKeepsCore(c, call); }
  }

  /** Hooks log nothing. */
  lemma {:induction false} CallsKeepLeft(c: RoomContext, calls: seq<Call>)
    ensures DoCalls(c, calls).left == c.left
    decreases |calls|
  {
    if calls != [] {
      CallKeepsLeft(c, calls[0]);
      CallsKeepLeft(DoCall(c, calls[0]), calls[1..]);
    }
  }

  /** A due entry whose turn comes: its session is logged, and nothing of it is left. */
  lemma ExpireTokenEnds(c: RoomContext, token: Id, calls: seq<Call>)
    requires Inv(c, None, None) && ExpiryPermitted(c, token, calls) && token in c.reconnections
    ensures var d, sid := ExpireToken(c, token, calls), c.reconnections[token].sessionId;
            d.left == c.left + [sid] && IsOver(d, sid)
  {
    var sid := c.reconnections[token].sessionId;
    var c1 := c.(reconnections := c.reconnections - {token}, seats := c.seats - {sid}, left := c.left + [sid]);
    CallsKeepLeft(c1, calls);
    EndLeaveUnlists(DoCalls(c1, calls), c.reconnections[token].conn, sid, None);
    ExpireTokenKeepsInv(c, token, calls);
    LeftIsOver(ExpireToken(c, token, calls), sid);
  }

  lemma LeftIsOver(c: RoomContext, sid: Id)
    requires Inv(c, None, None) && sid in c.left
    ensures IsOver(c, sid)
  {
    forall t | t in c.reconnections ensures c.reconnections[t].sessionId != sid { assert EntryOk(c, t); }
  }

  lemma ExpireTokenKeepsLeft(c: RoomContext, token: Id, calls: seq<Call>, sid: Id)
    requires sid in c.left
    ensures sid in ExpireToken(c, token, calls).left
  {
    if token in c.reconnections {
      var other := c.reconnections[token].sessionId;
      var c1 := c.(reconnections := c.reconnections - {token}, seats := c.seats - {other}, left := c.left + [other]);
      CallsKeepLeft(c1, calls);
      EndLeaveUnlists(DoCalls(c1, calls), c.reconnections[token].conn, other, None);
    }
  }

  lemma {:induction false} ExpireTokensKeepOver(c: RoomContext, expired: seq<Expiry>, sid: Id)
    requires IsOver(c, sid) && ExpiriesPermitted(c, expired)
    ensures IsOver(ExpireTokens(c, expired), sid)
    ensures sid in c.left ==> sid in ExpireTokens(c, expired).left
    decreases |expired|
  {
    if expired != [] {
      ExpireTokenKeepsOver(c, expired[0].token, expired[0].calls, sid);
      if sid in c.left { ExpireTokenKeepsLeft(c, expired[0].token, expired[0].calls, sid); }
      ExpireTokensKeepOver(ExpireToken(c, expired[0].token, expired[0].calls), expired[1..], sid);
    }
  }

  /** Every due session ends: it is logged, unless a hook of an earlier one forgot it. */
  lemma {:induction false} DueSessionsEnd(c: RoomContext, expired: seq<Expiry>, t: Id, r: Reconnection)
    requires Inv(c, None, None) && ExpiriesPermitted(c, expired) && HasEntryAs(c, t, r) && exists e :: e in expired && e.token == t
    requires !HooksRemove(expired, r.sessionId)
    ensures IsOver(ExpireTokens(c, expired), r.sessionId) && r.sessionId in ExpireTokens(c, expired).left
    decreases |expired|
  {
    var next := ExpireToken(c, expired[0].token, expired[0].calls);
    RestRemoves(expired, r.sessionId);
    ExpireTokenKeepsInv(c, expired[0].token, expired[0].calls);
    if expired[0].token == t {
      ExpireTokenEnds(c, t, expired[0].calls);
      ExpireTokensKeepOver(next, expired[1..], r.sessionId);
    } else {
      var e :| e in expired && e.token == t;
      assert e in expired[1..];
      ExpireTokenKeepsEntry(c, expired[0].token, expired[0].calls, t, r);
      DueSessionsEnd(next, expired[1..], t, r);
    }
  }

  predicate IsDue(r: Reconnection, now: int) { r.expiresAt.Some? && r.expiresAt.value <= now }

  /** Up to the seats and timers: whose time has come is logged and gone, everybody else waits on. */
  lemma ReconnectionsOutcome(c: RoomContext, now: int, expired: seq<Expiry>, t: Id)
    requires Inv(c, None, None) && AreExpired(c, now, expired) && ExpiriesPermitted(c, expired) && t in c.reconnections
    requires !HooksRemove(expired, c.reconnections[t].sessionId)
    ensures var d, r := ExpireTokens(c, expired), c.reconnections[t];
            if IsDue(r, now) then IsOver(d, r.sessionId) && r.sessionId in d.left else HasEntryAs(d, t, r)
  {
    if IsDue(c.reconnections[t], now) {
      DueSessionsEnd(c, expired, t, c.reconnections[t]);
    } else {
      EntriesNotDueStay(c, expired, t, c.reconnections[t]);
    }
  }

  // ------------------------------------------------------------------
  // A reservation over whole runs
  // ------------------------------------------------------------------

  /** An open reservation, for a session that nobody serves. */
  ghost predicate IsReserved(c: RoomContext, sid: Id, seat: Seat) {
    && sid in c.seats && c.seats[sid] == seat && IsPending(seat) && sid in c.issued
    && forall i :: i in c.clients ==> Session(c, i) != sid
  }

  lemma CallReserves(c: RoomContext, call: Call, leaving: Option<Id>, sid: Id, seat: Seat)
    requires IsReserved(c, sid, seat) && Legal(c, call, leaving) && call != RemoveClient(sid)
    ensures IsReserved(DoCall(c, call), sid, seat)
  {
    if IsPlain(call) && !TouchesListing(call) {
      QuietCallKeepsCore(c, call);
      SameHandlesNames(c, DoCall(c, call));
    }
  }

  lemma {:induction false} CallsReserve(c: RoomContext, calls: seq<Call>, leaving: Option<Id>, sid: Id, seat: Seat)
    requires IsReserved(c, sid, seat) && LegalCalls(c, calls, leaving) && !Removes(calls, sid)
    ensures IsReserved(DoCalls(c, calls), sid, seat)
    decreases |calls|
  {
    if calls != [] {
      assert calls == [calls[0]] + calls[1..];
      CallsCons(calls[0], calls[1..], "", sid);
      OneOf(calls[0], "", sid);
      CallReserves(c, calls[0], leaving, sid, seat);
      CallsReserve(DoCall(c, calls[0]), calls[1..], leaving, sid, seat);
    }
  }

  lemma UnlistedReserves(c: RoomContext, d: RoomContext, other: Id, sid: Id, seat: Seat)
    requires Unlisted(c, d, other) && IsReserved(c, sid, seat)
    ensures IsReserved(d, sid, seat)
  {
    SameHandlesNames(c, d);
  }

  lemma TokenedReserves(c: RoomContext, d: RoomContext, conn: Id, token: Id, sid: Id, seat: Seat)
    requires Tokened(c, d, conn, token) && IsReserved(c, sid, seat)
    ensures IsReserved(d, sid, seat)
  {
  }

  lemma SameCoreReserves(c: RoomContext, d: RoomContext, sid: Id, seat: Seat)
    requires SameCore(c, d) && IsReserved(c, sid, seat)
    ensures IsReserved(d, sid, seat)
  {
    SameHandlesNames(c, d);
  }

  lemma ReserveReserves(c: RoomContext, other: Id, options: Json, calls: seq<Call>, auth: HookResult, expiresAt: int, sid: Id, seat: Seat)
    requires IsReserved(c, sid, seat) && Permitted(c, EvReserveSeat(other, options, calls, auth, expiresAt)) && !Removes(calls, sid)
    ensures IsReserved(ReserveSeat(c, other, options, calls, auth, expiresAt), sid, seat)
  {
    if !c.disposing && !c.locked && !HasReachedMaxClients(c) { CallsReserve(c, calls, None, sid, seat); }
  }

  lemma EndJoinReserves(c: RoomContext, conn: Id, accepted: bool, newToken: Id, sid: Id, seat: Seat)
    requires IsReserved(c, sid, seat) && conn in c.conns && Session(c, conn) != sid
    ensures IsReserved(EndJoin(c, conn, accepted, newToken), sid, seat)
  {
    var c1 := c.(seats := c.seats - {Session(c, conn)});
    assert forall i :: Session(c1, i) == Session(c, i);
    if accepted && !c1.conns[conn].state.Leaving? {
      var c2 := c1.(hadClients := true);
      assert forall i :: Session(c2, i) == Session(c, i);
      WelcomeTokens(c2, conn, Joined, newToken);
      TokenedReserves(c2, Welcome(c2, conn, Joined, newToken), conn, newToken, sid, seat);
    } else {
      RefuseUnlists(c1, conn);
      UnlistedReserves(c1, Refuse(c1, conn), Session(c1, conn), sid, seat);
    }
  }

  lemma JoinReserves(c: RoomContext, conn: Id, calls: seq<Call>, accepted: bool, newToken: Id, sid: Id, seat: Seat)
    requires IsReserved(c, sid, seat) && conn in c.conns && Session(c, conn) != sid
    requires Session(c, conn) in c.seats ==> LegalCalls(TakeSeat(c, conn), calls, None)
    requires !Removes(calls, sid)
    ensures IsReserved(Join(c, conn, calls, accepted, newToken), sid, seat)
  {
    var other := Session(c, conn);
    if other in c.seats && !c.seats[other].consumed {
      var c1 := TakeSeat(c, conn);
      assert forall i :: Session(c1, i) == Session(c, i);
      CallsReserve(c1, calls, None, sid, seat);
      CallsCarry(c1, calls);
      EndJoinReserves(DoCalls(c1, calls), conn, accepted, newToken, sid, seat);
    }
  }

  lemma TakeOverReserves(c: RoomContext, conn: Id, token: Id, sid: Id, seat: Seat)
    requires IsReserved(c, sid, seat) && conn in c.conns && Session(c, conn) != sid && TokenFits(c, token, Session(c, conn))
    ensures IsReserved(TakeOver(c, conn, token), sid, seat)
  {
    ReplacedLists(c, c.clients, Session(c, conn), conn);
    var d := TakeOver(c, conn, token);
    assert forall i :: i in c.conns ==> Session(d, i) == Session(c, i);
  }

  lemma ReconnectReserves(c: RoomContext, conn: Id, token: Id, calls: seq<Call>, newToken: Id, sid: Id, seat: Seat)
    requires IsReserved(c, sid, seat) && conn in c.conns && (TokenFits(c, token, Session(c, conn)) ==> Session(c, conn) != sid)
    requires TokenFits(c, token, Session(c, conn)) ==> LegalCalls(TakeOver(c, conn, token), calls, None)
    requires !Removes(calls, sid)
    ensures IsReserved(Reconnect(c, conn, token, calls, newToken), sid, seat)
  {
    if TokenFits(c, token, Session(c, conn)) {
      var c1 := TakeOver(c, conn, token);
      TakeOverReserves(c, conn, token, sid, seat);
      CallsReserve(c1, calls, None, sid, seat);
      CallsCarry(c1, calls);
      WelcomeTokens(DoCalls(c1, calls), conn, Reconnected, newToken);
      TokenedReserves(DoCalls(c1, calls), Welcome(DoCalls(c1, calls), conn, Reconnected, newToken), conn, newToken, sid, seat);
    }
  }

  lemma ConnectReserves(c: RoomContext, conn: Id, other: Id, token: Option<Id>, calls: seq<Call>, accepted: bool, newToken: Id, sid: Id, seat: Seat)
    requires Inv(c, None, None) && IsReserved(c, sid, seat) && ConnectPermitted(c, conn, other, token, calls, newToken)
    requires !Removes(calls, sid) && (token.None? ==> other != sid)
    ensures IsReserved(Connect(c, conn, other, token, calls, accepted, newToken), sid, seat)
  {
    var c0 := WithClient(c, conn, NewClient(other));
    assert forall i :: i in c.conns ==> Session(c0, i) == Session(c, i);
    match token
    case None => JoinReserves(c0, conn, calls, accepted, newToken, sid, seat);
    case Some(t) =>
      if TokenFits(c0, t, other) { assert EntryOk(c, t); }
      ReconnectReserves(c0, conn, t, calls, newToken, sid, seat);
  }

  lemma EndLeaveReserves(c: RoomContext, conn: Id, other: Id, code: Option<nat>, sid: Id, seat: Seat)
    requires IsReserved(c, sid, seat)
    ensures IsReserved(EndLeave(c, conn, other, code), sid, seat)
  {
    EndLeaveUnlists(c, conn, other, code);
    UnlistedReserves(c, EndLeave(c, conn, other, code), other, sid, seat);
  }

  lemma AfterDropReserves(c: RoomContext, conn: Id, code: nat, consented: bool, calls: seq<Call>, sid: Id, seat: Seat)
    requires IsReserved(c, sid, seat) && conn in c.conns && !Removes(calls, sid)
    requires Token(c, conn) !in c.reconnections ==> LegalCalls(c.(left := c.left + [Session(c, conn)]), calls, Some(Session(c, conn)))
    ensures IsReserved(AfterDrop(c, conn, code, consented, calls), sid, seat)
  {
    if Token(c, conn) in c.reconnections {
      WithClientKeepsCore(c, conn, c.conns[conn].Queue(Close(code)));
      SameCoreReserves(c, WithClient(c, conn, c.conns[conn].Queue(Close(code))), sid, seat);
    } else {
      var c1 := c.(left := c.left + [Session(c, conn)]);
      assert forall i :: Session(c1, i) == Session(c, i);
      CallsReserve(c1, calls, Some(Session(c, conn)), sid, seat);
      EndLeaveReserves(DoCalls(c1, calls), conn, Session(c, conn), if consented then Some(code) else None, sid, seat);
    }
  }

  lemma LeaveReserves(c: RoomContext, conn: Id, code: nat, consented: bool, dropCalls: seq<Call>, leaveCalls: seq<Call>, sid: Id, seat: Seat)
    requires IsReserved(c, sid, seat) && conn in c.conns && LeavePermitted(c, conn, consented, dropCalls, leaveCalls)
    requires !Removes(dropCalls, sid) && !Removes(leaveCalls, sid)
    ensures IsReserved(LeaveRoom(c, conn, code, consented, dropCalls, leaveCalls), sid, seat)
  {
    if !c.conns[conn].state.Leaving? && !c.conns[conn].state.Closed? {
      var c1 := WithClient(c, conn, c.conns[conn].(state := Leaving));
      var drops := !consented && !c.disposing;
      WithClientKeepsCore(c, conn, c.conns[conn].(state := Leaving));
      SameCoreReserves(c, c1, sid, seat);
      if drops { CallsReserve(c1, dropCalls, None, sid, seat); }
      CallsCarry(c1, dropCalls);
      AfterDropReserves(if drops then DoCalls(c1, dropCalls) else c1, conn, code, consented, leaveCalls, sid, seat);
    }
  }

  lemma ExpireTokenReserves(c: RoomContext, token: Id, calls: seq<Call>, sid: Id, seat: Seat)
    requires Inv(c, None, None) && IsReserved(c, sid, seat) && ExpiryPermitted(c, token, calls) && !Removes(calls, sid)
    ensures IsReserved(ExpireToken(c, token, calls), sid, seat)
  {
    if token in c.reconnections {
      assert EntryOk(c, token);
      var other := c.reconnections[token].sessionId;
      var c1 := c.(reconnections := c.reconnections - {token}, seats := c.seats - {other}, left := c.left + [other]);
      assert forall i :: Session(c1, i) == Session(c, i);
      CallsReserve(c1, calls, Some(other), sid, seat);
      EndLeaveReserves(DoCalls(c1, calls), c.reconnections[token].conn, other, None, sid, seat);
    }
  }

  lemma {:induction false} ExpireTokensReserve(c: RoomContext, expired: seq<Expiry>, sid: Id, seat: Seat)
    requires Inv(c, None, None) && IsReserved(c, sid, seat) && ExpiriesPermitted(c, expired) && !HooksRemove(expired, sid)
    ensures IsReserved(ExpireTokens(c, expired), sid, seat)
    decreases |expired|
  {
    if expired != [] {
      RestRemoves(expired, sid);
      ExpireTokenReserves(c, expired[0].token, expired[0].calls, sid, seat);
      ExpireTokenKeepsInv(c, expired[0].token, expired[0].calls);
      ExpireTokensReserve(ExpireToken(c, expired[0].token, expired[0].calls), expired[1..], sid, seat);
    }
  }

  /** A reservation outlives the deadlines exactly when its time has not come, whatever else is due. */
  lemma ReservationOutcome(c: RoomContext, now: int, expired: seq<Expiry>, timerCalls: seq<Call>, sid: Id, seat: Seat)
    requires Inv(c, None, None) && IsReserved(c, sid, seat) && Permitted(c, EvDeadlines(now, expired, timerCalls))
    requires !HooksRemove(expired, sid) && !Removes(timerCalls, sid)
    ensures var d := HandleDeadlines(c, now, expired, timerCalls);
            if now < seat.expiresAt then IsReserved(d, sid, seat) else sid !in d.seats
  {
    var c1 := ExpireTokens(c, expired);
    ExpireTokensReserve(c, expired, sid, seat);
    ExpireTokensKeepsInv(c, expired);
    var c2 := ExpireSeats(c1, now);
    ExpireSeatsEffects(c1, now);
    assert forall i :: Session(c2, i) == Session(c1, i);
    if now < seat.expiresAt {
      CallsReserve(c2, timerCalls, None, sid, seat);
    } else {
      ReservationGone(c1, c2, timerCalls, sid, seat);
    }
  }

  lemma ReservationGone(c1: RoomContext, c2: RoomContext, timerCalls: seq<Call>, sid: Id, seat: Seat)
    requires Inv(c1, None, None) && IsReserved(c1, sid, seat) && LegalCalls(c2, timerCalls, None)
    requires c2 == c1.(seats := c2.seats, driver := c2.driver) && sid !in c2.seats
    ensures sid !in DoCalls(c2, timerCalls).seats
  {
    assert forall i :: Session(c2, i) == Session(c1, i);
    forall t | t in c2.reconnections ensures c2.reconnections[t].sessionId != sid { assert EntryOk(c1, t); }
    CallsKeepOver(c2, timerCalls, None, sid);
  }

  // ------------------------------------------------------------------
  // Events and runs
  // ------------------------------------------------------------------

  /** The event neither uses the reservation, nor forgets its session, nor comes at its deadline. */
  predicate LeavesAlone(e: Event, sid: Id, seat: Seat) {
    match e
    case EvReserveSeat(_, _, calls, _, _) => !Removes(calls, sid)
    case EvConnect(_, other, token, calls, _, _) => !Removes(calls, sid) && (token.None? ==> other != sid)
    case EvMessage(_, msg) =>
      (match msg case Ping => true case Leave(calls) => !Removes(calls, sid) case Data(_, calls) => !Removes(calls, sid))
    case EvDisconnected(_, _, dropCalls, leaveCalls) => !Removes(dropCalls, sid) && !Removes(leaveCalls, sid)
    case EvCommand(calls) => !Removes(calls, sid)
    case EvDeadlines(now, expired, timerCalls) =>
      (forall k :: 0 <= k < |expired| ==> !Removes(expired[k].calls, sid)) && !Removes(timerCalls, sid) && now < seat.expiresAt
    case _ => true
  }

  lemma MessageReserves(c: RoomContext, conn: Id, msg: Message, sid: Id, seat: Seat)
    requires ClientsOk(c) && IsReserved(c, sid, seat) && MessagePermitted(c, conn, msg) && LeavesAlone(EvMessage(conn, msg), sid, seat)
    ensures IsReserved(ClientMessage(c, conn, msg), sid, seat)
  {
    if conn in c.conns {
      match msg
      case Ping =>
        WithClientKeepsCore(c, conn, c.conns[conn].RawNow(PingFrame));
        SameCoreReserves(c, WithClient(c, conn, c.conns[conn].RawNow(PingFrame)), sid, seat);
      case Leave(calls) => if IsCurrent(c, conn) { LeaveReserves(c, conn, CONSENTED, true, [], calls, sid, seat); }
      case Data(_, calls) => CallsReserve(c, calls, None, sid, seat);
    }
  }

  lemma OneCallReserves(c: RoomContext, e: Event, sid: Id, seat: Seat)
    requires IsReserved(c, sid, seat) && IsOneCall(e)
    ensures IsReserved(Handle(c, e), sid, seat)
  {
    HandleIsOneCall(c, e);
    if TheCall(c, e).Some? { CallReserves(c, TheCall(c, e).value, None, sid, seat); }
  }

  lemma HandleReserves(c: RoomContext, e: Event, sid: Id, seat: Seat)
    requires Inv(c, None, None) && Permitted(c, e) && IsReserved(c, sid, seat) && LeavesAlone(e, sid, seat)
    ensures IsReserved(Handle(c, e), sid, seat)
  {
    match e
    case EvReserveSeat(other, options, calls, auth, expiresAt) => ReserveReserves(c, other, options, calls, auth, expiresAt, sid, seat);
    case EvConnect(conn, other, token, calls, accepted, newToken) => ConnectReserves(c, conn, other, token, calls, accepted, newToken, sid, seat);
    case EvMessage(conn, msg) => MessageReserves(c, conn, msg, sid, seat);
    case EvDisconnected(conn, code, dropCalls, leaveCalls) =>
      if IsCurrent(c, conn) { LeaveReserves(c, conn, code, false, dropCalls, leaveCalls, sid, seat); }
    case EvCommand(calls) => CallsReserve(c, calls, None, sid, seat);
    case EvDeadlines(now, expired, timerCalls) => ReservationOutcome(c, now, expired, timerCalls, sid, seat);
    case _ => OneCallReserves(c, e, sid, seat);
  }

  /** A reservation stays, as it is, until it is used, its time comes, or room code forgets its session. */
  lemma {:induction false} ReservationsStay(c: RoomContext, events: seq<Event>, sid: Id, seat: Seat)
    requires Inv(c, None, None) && PermittedRun(c, events) && IsReserved(c, sid, seat)
    requires forall k :: 0 <= k < |events| ==> LeavesAlone(events[k], sid, seat)
    ensures IsReserved(Run(c, events), sid, seat)
    decreases |events|
  {
    if events != [] {
      HandleReserves(c, events[0], sid, seat);
      HandleKeepsInv(c, events[0]);
      ReservationsStay(Handle(c, events[0]), events[1..], sid, seat);
    }
  }
}
