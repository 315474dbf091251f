/** Where the actor promises less than one might expect: exactly when each guard of a run matters. */
module ActorLimits {
  import opened Json
  import opened Room
  import opened RoomInvariant
  import opened Actor
  import opened ActorInvariant
  import opened ActorRuns

  // ------------------------------------------------------------------
  // A connection without a token may not name a session that waits
  // ------------------------------------------------------------------

  ghost predicate SessionsDistinct(c: RoomContext) {
    forall i, j :: i in c.clients && j in c.clients && Session(c, i) == Session(c, j) ==> i == j
  }

  /** Somebody is listed for every session that waits. */
  lemma WaitingIsListed(c: RoomContext, sid: Id) returns (prev: Id)
    requires ClientsOk(c) && EntriesOk(c) && WaitingOk(c) && sid in c.seats && c.seats[sid].waiting
    ensures prev in c.clients && prev in c.conns && Session(c, prev) == sid
  {
    assert HasEntry(c, sid);
    var t :| t in c.reconnections && c.reconnections[t].sessionId == sid;
    assert EntryOk(c, t);
    prev := c.reconnections[t].conn;
  }

  /** An accepted join appends its client to the list, whoever is on it. */
  lemma JoinLists(c: RoomContext, conn: Id, newToken: Id)
    requires conn in c.conns && Session(c, conn) in c.seats && !c.seats[Session(c, conn)].consumed
    ensures var d := Join(c, conn, [], true, newToken);
            d.clients == c.clients + [conn] && forall i :: Session(d, i) == Session(c, i)
  {
    var c1 := TakeSeat(c, conn);
    assert DoCalls(c1, []) == c1;
    assert forall i :: Session(c1, i) == Session(c, i);
    EndJoinLists(c1, conn, newToken);
  }

  lemma ConnectLists(c: RoomContext, conn: Id, sid: Id, newToken: Id)
    requires conn !in c.conns && sid in c.seats && !c.seats[sid].consumed
    ensures var d := Connect(c, conn, sid, None, [], true, newToken);
            d.clients == c.clients + [conn] && Session(d, conn) == sid && forall i :: i in c.conns ==> Session(d, i) == Session(c, i)
  {
    JoinLists(WithClient(c, conn, NewClient(sid)), conn, newToken);
  }

  /** The join path never looks at `waiting_reconnection`, so it lists a waiting session twice. */
  lemma WaitingSeatIsTakenTwice(c: RoomContext, conn: Id, sid: Id, newToken: Id) returns (prev: Id)
    requires Inv(c, None, None) && conn !in c.conns && sid in c.seats && c.seats[sid].waiting
    ensures var d := Connect(c, conn, sid, None, [], true, newToken);
            prev in d.clients && conn in d.clients && prev != conn && Session(d, prev) == Session(d, conn) == sid
  {
    prev := WaitingIsListed(c, sid);
    ConnectLists(c, conn, sid, newToken);
  }

  lemma EndJoinLists(c: RoomContext, conn: Id, newToken: Id)
    requires conn in c.conns && c.conns[conn].state == Joining
    ensures var d := EndJoin(c, conn, true, newToken);
            d.clients == c.clients && forall i :: Session(d, i) == Session(c, i)
  {
    var c1 := c.(seats := c.seats - {c.conns[conn].sessionId}, hadClients := true);
    WelcomeTokens(c1, conn, Joined, newToken);
    assert forall i :: Session(c1, i) == Session(c, i);
  }

  /** Sessions stay apart on a connect without a token exactly when the named seat is not waiting. */
  lemma TokenlessConnectIff(c: RoomContext, conn: Id, sid: Id, newToken: Id)
    requires Inv(c, None, None) && conn !in c.conns && newToken != "" && newToken !in c.issued
    ensures SessionsDistinct(Connect(c, conn, sid, None, [], true, newToken)) <==> !(sid in c.seats && c.seats[sid].waiting)
  {
    if sid in c.seats && c.seats[sid].waiting {
      var prev := WaitingSeatIsTakenTwice(c, conn, sid, newToken);
    } else {
      ConnectKeepsInv(c, conn, sid, None, [], true, newToken);
    }
  }

  /** Whatever `on_join` will do, it starts with sessions apart exactly when the seat it took was not waiting. */
  lemma JoinHookIff(c: RoomContext, conn: Id, sid: Id)
    requires Inv(c, None, None) && conn !in c.conns && sid in c.seats
    ensures SessionsDistinct(TakeSeat(WithClient(c, conn, NewClient(sid)), conn)) <==> !c.seats[sid].waiting
  {
    var c0 := WithClient(c, conn, NewClient(sid));
    var d := TakeSeat(c0, conn);
    assert forall i :: i in c.conns ==> Session(d, i) == Session(c, i);
    assert d.clients == c.clients + [conn] && Session(d, conn) == sid;
    if c.seats[sid].waiting {
      var prev := WaitingIsListed(c, sid);
      assert prev in d.clients && conn in d.clients;
    } else {
      assert IsPending(c.seats[sid]);
    }
  }

  // ------------------------------------------------------------------
  // allow_reconnection is for listed clients that are not leaving
  // ------------------------------------------------------------------

  predicate Grants(c: RoomContext, conn: Id) {
    !c.disposing && Token(c, conn) != "" && Token(c, conn) !in c.reconnections
  }

  /** Granting a reconnection keeps entries and history sound exactly for such clients. */
  lemma AllowReconnectionIff(c: RoomContext, conn: Id, expiresAt: Option<int>, never: int, leaving: Option<Id>)
    requires Inv(c, None, leaving) && (leaving.Some? ==> leaving.value in c.left) && conn in c.conns && Grants(c, conn)
    ensures var d := Allow(c, conn, expiresAt, never);
            EntriesOk(d) && HistoryOk(d, leaving) <==> conn in c.clients && leaving != Some(Session(c, conn))
  {
    var d := Allow(c, conn, expiresAt, never);
    AllowAllows(c, conn, expiresAt, never);
    if conn in c.clients && leaving != Some(Session(c, conn)) {
      AllowKeepsInv(c, conn, expiresAt, never, None, leaving);
    } else if conn in c.clients {
      assert Session(c, conn) in d.left && Session(c, conn) in d.seats;
    } else {
      assert !EntryOk(d, Token(c, conn));
    }
  }

  // ------------------------------------------------------------------
  // on_leave runs at most once, not exactly once
  // ------------------------------------------------------------------

  lemma FinishLeaveLogs(c: RoomContext, conn: Id, code: Option<nat>, calls: seq<Call>)
    requires Inv(c, None, None) && conn in c.conns
    requires Session(c, conn) !in c.left && Session(c, conn) !in c.seats && Session(c, conn) in c.issued
    requires LegalCalls(c.(left := c.left + [Session(c, conn)]), calls, Some(Session(c, conn)))
    ensures FinishLeave(c, conn, code, calls).left == c.left + [Session(c, conn)]
  {
    var sid := Session(c, conn);
    LogLeaveKeepsInv(c, sid);
    CallsKeepInv(c.(left := c.left + [sid]), calls, None, Some(sid));
    EndLeaveUnlists(DoCalls(c.(left := c.left + [sid]), calls), conn, sid, code);
  }

  lemma AfterDropLogs(c: RoomContext, conn: Id, code: nat, consented: bool, calls: seq<Call>)
    requires Inv(c, None, None) && conn in c.conns && Session(c, conn) !in c.left && Session(c, conn) in c.issued
    requires Session(c, conn) in c.seats ==> Token(c, conn) in c.reconnections
    requires Token(c, conn) !in c.reconnections ==> LegalCalls(c.(left := c.left + [Session(c, conn)]), calls, Some(Session(c, conn)))
    ensures AfterDrop(c, conn, code, consented, calls).left ==
            if Token(c, conn) !in c.reconnections then c.left + [Session(c, conn)] else c.left
  {
    if Token(c, conn) !in c.reconnections {
      FinishLeaveLogs(c, conn, if consented then Some(code) else None, calls);
    }
  }

  /** `on_leave` runs for a client that leaves exactly when it was not leaving already and holds no reconnection. */
  lemma OnLeaveRunsIff(c: RoomContext, conn: Id, code: nat, consented: bool, dropCalls: seq<Call>, leaveCalls: seq<Call>)
    requires Inv(c, None, None) && conn in c.clients && LeavePermitted(c, conn, consented, dropCalls, leaveCalls)
    ensures var d := LeaveRoom(c, conn, code, consented, dropCalls, leaveCalls);
            var c1 := WithClient(c, conn, c.conns[conn].(state := Leaving));
            var c2 := if !consented && !c.disposing then DoCalls(c1, dropCalls) else c1;
            var runs := !c.conns[conn].state.Leaving? && !c.conns[conn].state.Closed? && Token(c, conn) !in c2.reconnections;
            d.left == if runs then c.left + [Session(c, conn)] else c.left
  {
    if !c.conns[conn].state.Leaving? && !c.conns[conn].state.Closed? {
      var c1 := WithClient(c, conn, c.conns[conn].(state := Leaving));
      var drops := !consented && !c.disposing;
      var c2 := if drops then DoCalls(c1, dropCalls) else c1;
      WithClientKeepsCore(c, conn, c.conns[conn].(state := Leaving));
      DropKeepsInv(c, c1, drops, dropCalls);
      HeldByOwnToken(c, c2, conn);
      assert Session(c2, conn) == Session(c, conn) && Token(c2, conn) == Token(c, conn);
      AfterDropLogs(c2, conn, code, consented, leaveCalls);
    }
  }

  lemma KickMarks(c: RoomContext, sid: Id, conn: Id)
    requires ClientsOk(c) && conn in c.clients && Session(c, conn) == sid
    ensures conn in c.conns && Handle(c, EvKick(sid)) == WithClient(c, conn, c.conns[conn].Leave(CONSENTED))
  {
    var found := FindClient(c, c.clients, sid);
    assert found == Some(conn);
  }

  lemma LeavingIsIgnored(c: RoomContext, conn: Id, code: nat, dropCalls: seq<Call>, leaveCalls: seq<Call>)
    requires conn in c.conns && c.conns[conn].state.Leaving?
    ensures Handle(c, EvDisconnected(conn, code, dropCalls, leaveCalls)) == c
  {
  }

  /**
   * A kicked client is marked as leaving before its disconnect arrives, so that disconnect is
   * ignored: `on_leave` does not run for it and it stays listed.
   */
  lemma KickedClientStays(c: RoomContext, sid: Id, conn: Id, code: nat, dropCalls: seq<Call>, leaveCalls: seq<Call>)
    requires Inv(c, None, None) && conn in c.clients && Session(c, conn) == sid
    ensures var d := Handle(c, EvKick(sid));
            && Handle(d, EvDisconnected(conn, code, dropCalls, leaveCalls)) == d
            && conn in d.clients && d.left == c.left
  {
    KickMarks(c, sid, conn);
    LeavingIsIgnored(WithClient(c, conn, c.conns[conn].Leave(CONSENTED)), conn, code, dropCalls, leaveCalls);
  }
}
