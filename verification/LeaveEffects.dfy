/** What a message or the end of a connection leads to, read off the context before it, its inputs and the context after it. */
module LeaveEffects {
  import opened Json
  import opened Room
  import opened RoomInvariant
  import opened Actor
  import opened ActorInvariant
  import ActorRuns
  import opened HookEffects

  // ------------------------------------------------------------------
  // Leaving
  // ------------------------------------------------------------------

  /** Nobody but the clients of this session has gone from the list. */
  ghost predicate Unlists(c: RoomContext, d: RoomContext, sid: Id) {
    forall i :: i in d.clients <==> i in c.clients && Session(c, i) != sid
  }

  lemma EndLeaveEffects(c: RoomContext, conn: Id, sid: Id, code: Option<nat>)
    requires conn in c.conns
    ensures var d, a := EndLeave(c, conn, sid, code), c.conns[conn];
            && d.conns == c.conns[conn := if code.Some? then a.(state := Leaving, outbox := a.outbox + [Close(code.value)]) else a.(state := Closed)]
            && Unlists(c, d, sid) && d.views == c.views - {sid}
            && d.left == c.left && d.seats == c.seats && d.reconnections == c.reconnections && d.slot == c.slot
  {
    var closed := WithClient(c, conn, c.conns[conn].(state := Closed));
    assert forall i :: Session(closed, i) == Session(c, i);
  }

  /** A client that may come back, and whose transport is recycled. */
  ghost predicate IsHeld(c: RoomContext, d: RoomContext, conn: Id, code: nat) {
    conn in c.conns && d == c.(conns := c.conns[conn := c.conns[conn].(outbox := c.conns[conn].outbox + [Close(code)])])
  }

  /** A client that is gone: logged once, unlisted with its view, and closed with its code if it asked to go. */
  ghost predicate IsGone(c: RoomContext, d: RoomContext, conn: Id, code: Option<nat>) {
    && conn in c.conns && conn in d.conns && d.left == c.left + [Session(c, conn)] && Session(c, conn) !in d.views
    && (forall i :: i in d.clients ==> Session(d, i) != Session(c, conn))
    && d.conns[conn].state == (if code.Some? then Leaving else Closed)
    && (code.Some? ==> d.conns[conn].outbox != [] && d.conns[conn].outbox[|d.conns[conn].outbox| - 1] == Close(code.value))
    && Grown(c.conns[conn].outbox, d.conns[conn].outbox)
  }

  /** Room code does not hold back a client whose `on_leave` is running. */
  lemma {:induction false} LegalAllowsNot(c: RoomContext, calls: seq<Call>, sid: Id, conn: Id)
    requires LegalCalls(c, calls, Some(sid)) && conn in c.conns && c.conns[conn].sessionId == sid
    ensures !Allows(calls, conn)
    decreases |calls|
  {
    if calls != [] {
      assert calls == [calls[0]] + calls[1..];
      CallsCons(calls[0], calls[1..], conn, sid);
      assert [calls[0]][0] == calls[0];
      ActorRuns.CallCarries(c, calls[0]);
      LegalAllowsNot(DoCall(c, calls[0]), calls[1..], sid, conn);
    }
  }

  lemma FinishLeaveEffects(c: RoomContext, conn: Id, code: Option<nat>, calls: seq<Call>)
    requires conn in c.conns && LegalCalls(c.(left := c.left + [Session(c, conn)]), calls, Some(Session(c, conn)))
    ensures IsGone(c, FinishLeave(c, conn, code, calls), conn, code)
  {
    var sid := Session(c, conn);
    var c1 := c.(left := c.left + [sid]);
    LegalAllowsNot(c1, calls, sid, conn);
    CallsAfter(c1, calls, conn);
    EndLeaveEffects(DoCalls(c1, calls), conn, sid, code);
    GoneAfter(c, DoCalls(c1, calls), EndLeave(DoCalls(c1, calls), conn, sid, code), conn, code);
  }

  lemma GoneAfter(c: RoomContext, h: RoomContext, d: RoomContext, conn: Id, code: Option<nat>)
    requires conn in c.conns && conn in h.conns && Hooked(c.conns[conn], h.conns[conn]) && h.left == c.left + [Session(c, conn)]
    requires d.conns == h.conns[conn := if code.Some? then h.conns[conn].(state := Leaving, outbox := h.conns[conn].outbox + [Close(code.value)])
                                        else h.conns[conn].(state := Closed)]
    requires Unlists(h, d, Session(c, conn)) && d.views == h.views - {Session(c, conn)} && d.left == h.left
    ensures IsGone(c, d, conn, code)
  {
    assert forall i :: Session(d, i) == Session(h, i);
  }

  /** A client that is leaving, or closed, already. */
  predicate IsLeaving(c: RoomContext, conn: Id) { conn in c.conns && (c.conns[conn].state.Leaving? || c.conns[conn].state.Closed?) }

  function MarkedLeaving(c: RoomContext, conn: Id): RoomContext
    requires conn in c.conns
  {
    c.(conns := c.conns[conn := c.conns[conn].(state := Leaving)])
  }

  /** A client that asks to leave is closed with the code, without `on_drop`: for good, unless a reconnection holds it. */
  lemma ConsentedOutcome(c: RoomContext, conn: Id, code: nat, calls: seq<Call>)
    requires conn in c.conns && LeavePermitted(c, conn, true, [], calls)
    ensures var d := LeaveRoom(c, conn, code, true, [], calls);
            if IsLeaving(c, conn) then d == c
            else if Token(c, conn) in c.reconnections then IsHeld(MarkedLeaving(c, conn), d, conn, code)
            else IsGone(c, d, conn, Some(code))
  {
    if !IsLeaving(c, conn) {
      var c1 := MarkedLeaving(c, conn);
      assert LeaveRoom(c, conn, code, true, [], calls) == AfterDrop(c1, conn, code, true, calls);
      if Token(c, conn) !in c.reconnections {
        FinishLeaveEffects(c1, conn, Some(code), calls);
        assert IsGone(c1, FinishLeave(c1, conn, Some(code), calls), conn, Some(code));
      }
    }
  }

  /**
   * A client that drops out runs through `on_drop` unless the room is being disposed: if that leaves it a
   * reconnection it is held, otherwise it is gone without being closed.
   */
  lemma DroppedOutcome(c: RoomContext, conn: Id, code: nat, dropCalls: seq<Call>, leaveCalls: seq<Call>)
    requires conn in c.conns && LeavePermitted(c, conn, false, dropCalls, leaveCalls)
    requires !IsLeaving(c, conn)
    ensures var d := LeaveRoom(c, conn, code, false, dropCalls, leaveCalls);
            var h := if c.disposing then MarkedLeaving(c, conn) else DoCalls(MarkedLeaving(c, conn), dropCalls);
            && conn in h.conns
            && if Token(h, conn) in h.reconnections then IsHeld(h, d, conn, code) else IsGone(h, d, conn, None)
  {
    var c1 := MarkedLeaving(c, conn);
    var h := if c.disposing then c1 else DoCalls(c1, dropCalls);
    ActorRuns.CallsCarry(c1, dropCalls);
    assert LeaveRoom(c, conn, code, false, dropCalls, leaveCalls) == AfterDrop(h, conn, code, false, leaveCalls);
    assert Session(h, conn) == Session(c, conn);
    if Token(h, conn) !in h.reconnections { FinishLeaveEffects(h, conn, None, leaveCalls); }
  }

  // ------------------------------------------------------------------
  // Messages
  // ------------------------------------------------------------------

  /** The handle with an answer to a ping, and nothing else changed. */
  ghost predicate Answers(c: RoomContext, d: RoomContext, conn: Id) {
    conn in c.conns && d == c.(conns := c.conns[conn := c.conns[conn].(outbox := c.conns[conn].outbox + [Bytes(PingFrame)])])
  }

  /** Handlers run exactly for a listed client that has joined and whose message is within the rate. */
  lemma DataOutcome(c: RoomContext, conn: Id, withinRate: bool, calls: seq<Call>)
    requires ClientsOk(c)
    ensures ClientMessage(c, conn, Data(withinRate, calls)) ==
            if conn in c.clients && c.conns[conn].IsJoined() && withinRate then DoCalls(c, calls) else c
  {
    ListedIsCurrent(c, conn);
  }

  lemma ListedIsCurrent(c: RoomContext, conn: Id)
    requires ClientsOk(c)
    ensures IsCurrent(c, conn) <==> conn in c.clients
  {
  }

  /** A ping is answered for the listed connection of a session, and for one whose session has none. */
  lemma PingOutcome(c: RoomContext, conn: Id)
    requires ClientsOk(c) && conn in c.conns
    ensures var d := ClientMessage(c, conn, Ping);
            if conn in c.clients || forall i :: i in c.clients ==> Session(c, i) != Session(c, conn) then Answers(c, d, conn) else d == c
  {
    ListedIsCurrent(c, conn);
  }

  /** A leave message is for the listed connection only: it closes it as consented, without `on_drop`. */
  lemma LeaveOutcome(c: RoomContext, conn: Id, calls: seq<Call>)
    requires ClientsOk(c) && (conn in c.clients ==> LeavePermitted(c, conn, true, [], calls))
    ensures var d := ClientMessage(c, conn, Leave(calls));
            if conn !in c.clients || IsLeaving(c, conn) then d == c
            else if Token(c, conn) in c.reconnections then IsHeld(MarkedLeaving(c, conn), d, conn, CONSENTED)
            else IsGone(c, d, conn, Some(CONSENTED))
  {
    ListedIsCurrent(c, conn);
    if conn in c.clients {
      ConsentedOutcome(c, conn, CONSENTED, calls);
      assert ClientMessage(c, conn, Leave(calls)) == LeaveRoom(c, conn, CONSENTED, true, [], calls);
    }
  }

  /** The end of a connection matters for the listed connection only. */
  lemma DisconnectOutcome(c: RoomContext, conn: Id, code: nat, dropCalls: seq<Call>, leaveCalls: seq<Call>)
    requires ClientsOk(c) && (conn in c.clients ==> LeavePermitted(c, conn, false, dropCalls, leaveCalls))
    ensures var d := Disconnected(c, conn, code, dropCalls, leaveCalls);
            if conn !in c.clients || IsLeaving(c, conn) then d == c
            else
              var h := if c.disposing then MarkedLeaving(c, conn) else DoCalls(MarkedLeaving(c, conn), dropCalls);
              conn in h.conns && if Token(h, conn) in h.reconnections then IsHeld(h, d, conn, code) else IsGone(h, d, conn, None)
  {
    ListedIsCurrent(c, conn);
    if conn in c.clients {
      if !IsLeaving(c, conn) { DroppedOutcome(c, conn, code, dropCalls, leaveCalls); }
      assert Disconnected(c, conn, code, dropCalls, leaveCalls) == LeaveRoom(c, conn, code, false, dropCalls, leaveCalls);
    }
  }
}
