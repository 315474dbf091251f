/** What a connection leads to, read off the context before it, its inputs and the context after it. */
module JoinEffects {
  import opened Json
  import opened Room
  import opened RoomInvariant
  import opened Actor
  import opened ActorInvariant
  import ActorRuns
  import opened HookEffects

  /** A handle as the socket task makes it, once the actor has given it auth and user data. */
  function FreshHandle(sid: Id, state: ClientState, auth: Option<Json>, userData: Option<Json>): Client {
    Client(sid, state, auth, userData, "", [], [])
  }

  /** What a client that is let in is sent: its token, the full state if there is one, then the messages held back. */
  function Greeting(token: Id, full: Option<Json>, heldBack: seq<Json>): seq<Outbound> {
    [Bytes(JoinFrame(token))] + (if full.Some? then [Bytes(StateFrame(full.value))] else []) + AsBytes(Messages(heldBack))
  }

  // ------------------------------------------------------------------
  // The handshake
  // ------------------------------------------------------------------

  /** A handle that is let in. */
  function Greeted(a: Client, state: ClientState, token: Id, full: Option<Json>): Client {
    a.(state := state, token := token, pending := [],
       outbox := a.outbox + [Bytes(JoinFrame(token))] + (if full.Some? then [Bytes(StateFrame(full.value))] else []) + AsBytes(a.pending))
  }

  lemma SendFullStateEffects(c: RoomContext, conn: Id)
    requires conn in c.conns
    ensures var full, a := FullStateFor(c, c.conns[conn]), c.conns[conn];
            SendFullState(c, conn) ==
              if full.None? then c
              else c.(views := c.views[a.sessionId := full.value], conns := c.conns[conn := a.(outbox := a.outbox + [Bytes(StateFrame(full.value))])])
  {
  }

  /** One handle is greeted, its full state recorded as its view, the listing updated; nothing else changes. */
  lemma WelcomeEffects(c: RoomContext, conn: Id, state: ClientState, token: Id)
    requires conn in c.conns
    ensures var full, a := FullStateFor(c, c.conns[conn]), c.conns[conn];
            var d := Welcome(c, conn, state, token);
            d == c.(conns := c.conns[conn := Greeted(a, state, token, full)], issued := c.issued + {token},
                    views := if full.Some? then c.views[a.sessionId := full.value] else c.views, driver := d.driver)
  {
    var a := c.conns[conn];
    var client := a.(state := state, token := token).RawNow(JoinFrame(token));
    var c1 := WithClient(c.(issued := c.issued + {token}), conn, client);
    var full := FullStateFor(c, a);
    assert FullStateFor(c1, client) == full;
    SendFullStateEffects(c1, conn);
    FlushEffects(c, SendFullState(c1, conn), conn, client.(outbox := client.outbox + FullFrames(full)), state, token, full);
  }

  function FullFrames(full: Option<Json>): seq<Outbound> { if full.Some? then [Bytes(StateFrame(full.value))] else [] }

  lemma FlushEffects(c: RoomContext, c2: RoomContext, conn: Id, client: Client, state: ClientState, token: Id, full: Option<Json>)
    requires conn in c.conns && conn in c2.conns && c2.conns[conn].outbox == client.outbox
    requires client == c.conns[conn].(state := state, token := token, outbox := c.conns[conn].outbox + [Bytes(JoinFrame(token))] + FullFrames(full))
    requires c2 == c.(conns := c.conns[conn := client], issued := c.issued + {token},
                      views := if full.Some? then c.views[c.conns[conn].sessionId := full.value] else c.views)
    ensures var d := SyncListing(WithClient(c2, conn, c2.conns[conn].FlushPending()));
            d == c.(conns := c.conns[conn := Greeted(c.conns[conn], state, token, full)], issued := c.issued + {token},
                    views := if full.Some? then c.views[c.conns[conn].sessionId := full.value] else c.views, driver := d.driver)
  {
    assert c.conns[conn := client][conn := client.FlushPending()] == c.conns[conn := client.FlushPending()];
  }

  // ------------------------------------------------------------------
  // Joining
  // ------------------------------------------------------------------

  /** What `on_join` sees: the client is listed last and `Joining`, with the auth of its seat, and the seat is consumed. */
  lemma JoinHookSees(c: RoomContext, conn: Id, sid: Id)
    requires conn !in c.conns && sid in c.seats
    ensures TakeSeat(WithClient(c, conn, NewClient(sid)), conn) ==
            c.(conns := c.conns[conn := FreshHandle(sid, Joining, c.seats[sid].auth, None)],
               clients := c.clients + [conn],
               seats := c.seats[sid := c.seats[sid].(consumed := true)])
  {
  }

  /** A client that is let in. */
  ghost predicate IsWelcomed(d: RoomContext, conn: Id, state: ClientState, token: Id, heldBack: seq<Json>) {
    && conn in d.conns && d.conns[conn].state == state && d.conns[conn].token == token && d.conns[conn].pending == []
    && d.conns[conn].outbox == Greeting(token, FullStateFor(d, d.conns[conn]), heldBack)
  }

  /** A client that is sent away: unlisted, told and closed, and nothing of the handshake was queued. */
  ghost predicate IsRefused(d: RoomContext, conn: Id) {
    && conn in d.conns && conn !in d.clients && d.conns[conn].state == Leaving && d.conns[conn].token == ""
    && |d.conns[conn].outbox| >= 2
    && d.conns[conn].outbox[|d.conns[conn].outbox| - 2..] == [Bytes(ErrorFrame), Close(WITH_ERROR)]
    && forall k :: 0 <= k < |d.conns[conn].outbox| - 2 ==> d.conns[conn].outbox[k].Close?
  }

  lemma RefuseEffects(c: RoomContext, conn: Id)
    requires conn in c.conns
    ensures var d, a := Refuse(c, conn), c.conns[conn];
            && d.conns == c.conns[conn := a.(state := Leaving, outbox := a.outbox + [Bytes(ErrorFrame)] + [Close(WITH_ERROR)])]
            && (forall i :: i in d.clients <==> i in c.clients && Session(c, i) != a.sessionId)
            && d.seats == c.seats && d.hadClients == c.hadClients && d.left == c.left && d.reconnections == c.reconnections
  {
  }

  /** The context that `on_join` leaves, seen at the new handle. */
  lemma HookOfJoin(c: RoomContext, c1: RoomContext, conn: Id, sid: Id, calls: seq<Call>)
    requires conn !in c.conns && sid in c.seats
    requires c1 == c.(conns := c.conns[conn := FreshHandle(sid, Joining, c.seats[sid].auth, None)], clients := c.clients + [conn],
                      seats := c.seats[sid := c.seats[sid].(consumed := true)])
    ensures var h := DoCalls(c1, calls);
            && conn in h.conns && AfterCalls(c1, h, calls, conn) && h.hadClients == c.hadClients && h.left == c.left
            && (conn in h.clients <==> !Removes(calls, sid))
  {
    CallsAfter(c1, calls, conn);
  }

  lemma HookHeldBack(c1: RoomContext, conn: Id, calls: seq<Call>)
    requires conn in c1.conns && IsHeldBack(c1.conns[conn]) && c1.conns[conn].token == "" && c1.conns[conn].pending == []
    requires c1.conns[conn].outbox == [] && !Leaves(calls, conn)
    ensures var h := DoCalls(c1, calls);
            conn in h.conns && h.conns[conn].pending == Messages(Sent(calls, conn, false)) && h.conns[conn].outbox == []
  {
    HeldBackGrows(c1, calls, conn);
    NothingBefore(c1.conns[conn], DoCalls(c1, calls).conns[conn], Sent(calls, conn, false));
  }

  lemma NothingBefore(a: Client, b: Client, sent: seq<Json>)
    requires HoldsBack(a, b, sent) && a.pending == []
    ensures b.pending == Messages(sent)
  {
    assert [] + Messages(sent) == Messages(sent);
  }

  lemma WelcomedAfter(h: RoomContext, conn: Id, state: ClientState, token: Id, heldBack: seq<Json>)
    requires conn in h.conns && h.conns[conn].outbox == [] && h.conns[conn].pending == Messages(heldBack)
    ensures IsWelcomed(Welcome(h, conn, state, token), conn, state, token, heldBack)
  {
    WelcomeEffects(h, conn, state, token);
    var d, a := Welcome(h, conn, state, token), h.conns[conn];
    assert FullStateFor(d, d.conns[conn]) == FullStateFor(h, a);
    assert [] + [Bytes(JoinFrame(token))] == [Bytes(JoinFrame(token))];
  }

  /** What becomes of a connection that takes a seat: let in exactly when the hook accepts it and has not asked it to leave. */
  ghost predicate JoinLeads(c: RoomContext, d: RoomContext, conn: Id, sid: Id, calls: seq<Call>, accepted: bool, newToken: Id)
    requires sid in c.seats
  {
    && sid !in d.seats && d.left == c.left && conn in d.conns && d.conns[conn].auth == c.seats[sid].auth
    && if accepted && !Leaves(calls, conn) then
         && IsWelcomed(d, conn, Joined, newToken, Sent(calls, conn, false)) && d.hadClients
         && (conn in d.clients <==> !Removes(calls, sid))
       else
         IsRefused(d, conn) && d.hadClients == c.hadClients && forall i :: i in d.clients ==> Session(d, i) != sid
  }

  /**
   * A connection to a reserved seat, whatever `on_join` calls and answers: the client is let in exactly
   * when the hook accepts it and has not asked it to leave, and sent away otherwise.
   */
  lemma JoinOutcome(c: RoomContext, conn: Id, sid: Id, calls: seq<Call>, accepted: bool, newToken: Id)
    requires conn !in c.conns && conn !in c.clients && sid in c.seats && !c.seats[sid].consumed
    ensures JoinLeads(c, Connect(c, conn, sid, None, calls, accepted, newToken), conn, sid, calls, accepted, newToken)
  {
    var c1 := TakeSeat(WithClient(c, conn, NewClient(sid)), conn);
    JoinHookSees(c, conn, sid);
    var h := DoCalls(c1, calls);
    HookOfJoin(c, c1, conn, sid, calls);
    assert Connect(c, conn, sid, None, calls, accepted, newToken) == EndJoin(h, conn, accepted, newToken);
    EndJoinOutcome(c1, h, conn, sid, calls, accepted, newToken);
  }

  lemma EndJoinOutcome(c1: RoomContext, h: RoomContext, conn: Id, sid: Id, calls: seq<Call>, accepted: bool, newToken: Id)
    requires h == DoCalls(c1, calls) && conn in c1.conns && AfterCalls(c1, h, calls, conn)
    requires c1.conns[conn] == FreshHandle(sid, Joining, c1.conns[conn].auth, None)
    requires conn in h.clients <==> !Removes(calls, sid)
    ensures var d := EndJoin(h, conn, accepted, newToken);
            && sid !in d.seats && d.left == h.left && conn in d.conns && d.conns[conn].auth == c1.conns[conn].auth
            && (if accepted && !Leaves(calls, conn) then
                  && IsWelcomed(d, conn, Joined, newToken, Sent(calls, conn, false)) && d.hadClients
                  && (conn in d.clients <==> !Removes(calls, sid))
                else
                  IsRefused(d, conn) && d.hadClients == h.hadClients && forall i :: i in d.clients ==> Session(d, i) != sid)
  {
    var h1 := h.(seats := h.seats - {sid});
    if accepted && !Leaves(calls, conn) {
      HookHeldBack(c1, conn, calls);
      WelcomedAfter(h1.(hadClients := true), conn, Joined, newToken, Sent(calls, conn, false));
      WelcomeEffects(h1.(hadClients := true), conn, Joined, newToken);
    } else {
      RefuseEffects(h1, conn);
      RefusedAfter(h1, conn, sid);
    }
  }

  lemma RefusedAfter(h: RoomContext, conn: Id, sid: Id)
    requires conn in h.conns && h.conns[conn].sessionId == sid && h.conns[conn].token == ""
    requires forall k :: 0 <= k < |h.conns[conn].outbox| ==> h.conns[conn].outbox[k].Close?
    ensures var d := Refuse(h, conn); IsRefused(d, conn) && forall i :: i in d.clients ==> Session(d, i) != sid
  {
    RefuseEffects(h, conn);
    var d := Refuse(h, conn);
    assert d.conns[conn].outbox[|d.conns[conn].outbox| - 2..] == [Bytes(ErrorFrame), Close(WITH_ERROR)];
  }

  // ------------------------------------------------------------------
  // Reconnecting
  // ------------------------------------------------------------------

  /** A token that is unknown, or of another session, changes nothing. */
  lemma WrongTokenOutcome(c: RoomContext, conn: Id, sid: Id, token: Id, calls: seq<Call>, accepted: bool, newToken: Id)
    requires token !in c.reconnections || c.reconnections[token].sessionId != sid
    ensures Connect(c, conn, sid, Some(token), calls, accepted, newToken) == c.(conns := c.conns[conn := FreshHandle(sid, Joining, None, None)])
  {
  }

  /** The first client of the session gives its place in the list to the new one. */
  lemma {:induction false} ReplacedInPlace(c: RoomContext, list: seq<Id>, sid: Id, prev: Id, conn: Id) returns (k: nat)
    requires FindClient(c, list, sid) == Some(prev)
    ensures k < |list| && list[k] == prev && Replaced(c, list, sid, conn) == list[k := conn]
    decreases |list|
  {
    if Session(c, list[0]) == sid {
      k := 0;
    } else {
      var j := ReplacedInPlace(c, list[1..], sid, prev, conn);
      k := j + 1;
      assert list[k := conn] == [list[0]] + list[1..][j := conn];
    }
  }

  lemma {:induction false} SameFind(c: RoomContext, d: RoomContext, list: seq<Id>, sid: Id)
    requires forall i :: i in list ==> Session(d, i) == Session(c, i)
    ensures FindClient(d, list, sid) == FindClient(c, list, sid)
    decreases |list|
  {
    if list != [] { SameFind(c, d, list[1..], sid); }
  }

  /**
   * What `on_reconnect` sees: entry and seat are gone, the token is spent, and the new connection has
   * the place in the list, the auth and the user data of the one that held the session.
   */
  lemma ReconnectHookSees(c: RoomContext, conn: Id, sid: Id, token: Id) returns (prev: Id, k: nat)
    requires Inv(c, None, None) && conn !in c.conns && TokenFits(c, token, sid)
    ensures prev == c.reconnections[token].conn && prev in c.conns && prev != conn && k < |c.clients| && c.clients[k] == prev
    ensures TakeOver(WithClient(c, conn, NewClient(sid)), conn, token) ==
            c.(reconnections := c.reconnections - {token}, seats := c.seats - {sid}, accepted := c.accepted + [token],
               clients := c.clients[k := conn],
               conns := c.conns[prev := c.conns[prev].(state := Reconnected)]
                               [conn := FreshHandle(sid, Reconnecting, c.conns[prev].auth, c.conns[prev].userData)])
  {
    var c0 := WithClient(c, conn, NewClient(sid));
    prev := c.reconnections[token].conn;
    assert EntryOk(c, token);
    TokenNamesListedClient(c, token, sid);
    SameFind(c, c0, c.clients, sid);
    k := ReplacedInPlace(c0, c0.clients, sid, prev, conn);
    TakeOverEffects(c, c0, conn, sid, token, prev);
  }

  lemma TakeOverEffects(c: RoomContext, c0: RoomContext, conn: Id, sid: Id, token: Id, prev: Id)
    requires conn !in c.conns && c0 == WithClient(c, conn, NewClient(sid)) && TokenFits(c0, token, sid)
    requires prev == c0.reconnections[token].conn && prev in c.conns && prev != conn
    ensures TakeOver(c0, conn, token) ==
            c.(reconnections := c.reconnections - {token}, seats := c.seats - {sid}, accepted := c.accepted + [token],
               clients := Replaced(c0, c0.clients, sid, conn),
               conns := c.conns[prev := c.conns[prev].(state := Reconnected)]
                               [conn := FreshHandle(sid, Reconnecting, c.conns[prev].auth, c.conns[prev].userData)])
  {
    assert c0.conns[prev := c.conns[prev].(state := Reconnected)]
                   [conn := FreshHandle(sid, Reconnecting, c.conns[prev].auth, c.conns[prev].userData)]
        == c.conns[prev := c.conns[prev].(state := Reconnected)]
                  [conn := FreshHandle(sid, Reconnecting, c.conns[prev].auth, c.conns[prev].userData)];
  }

  /** What becomes of a connection with the token of its session: it holds a new token, and serves the session alone. */
  ghost predicate ReconnectLeads(c: RoomContext, d: RoomContext, conn: Id, sid: Id, token: Id, calls: seq<Call>, newToken: Id)
    requires token in c.reconnections && c.reconnections[token].conn in c.conns
  {
    && conn in d.conns && d.conns[conn].state == Reconnected && d.conns[conn].token == newToken && d.conns[conn].pending == []
    && d.conns[conn].sessionId == sid && d.conns[conn].auth == c.conns[c.reconnections[token].conn].auth
    && (forall i :: i in d.clients && Session(d, i) == sid <==> i == conn && !Removes(calls, sid))
    && d.left == c.left && d.accepted == c.accepted + [token]
    && (!Leaves(calls, conn) ==> IsWelcomed(d, conn, Reconnected, newToken, Sent(calls, conn, false)))
  }

  /** Whatever `on_reconnect` does: the connection is let in, and it is the only one listed for its session, unless the hook forgets the session. */
  lemma ReconnectOutcome(c: RoomContext, conn: Id, sid: Id, token: Id, calls: seq<Call>, accepted: bool, newToken: Id)
    requires Inv(c, None, None) && conn !in c.conns && TokenFits(c, token, sid) && c.reconnections[token].conn in c.conns
    ensures ReconnectLeads(c, Connect(c, conn, sid, Some(token), calls, accepted, newToken), conn, sid, token, calls, newToken)
  {
    var prev, k := ReconnectHookSees(c, conn, sid, token);
    var c1 := TakeOver(WithClient(c, conn, NewClient(sid)), conn, token);
    CallsAfter(c1, calls, conn);
    assert Connect(c, conn, sid, Some(token), calls, accepted, newToken) == Welcome(DoCalls(c1, calls), conn, Reconnected, newToken);
    TakenOverLeads(c, c1, DoCalls(c1, calls), conn, sid, token, calls, newToken, prev, k);
  }

  lemma TakenOverLeads(
      c: RoomContext, c1: RoomContext, h: RoomContext, conn: Id, sid: Id, token: Id, calls: seq<Call>, newToken: Id, prev: Id, k: nat)
    requires ClientsOk(c) && conn !in c.conns && k < |c.clients| && c.clients[k] == prev && Session(c, prev) == sid
    requires token in c.reconnections && prev == c.reconnections[token].conn && prev in c.conns && prev != conn
    requires c1.conns == c.conns[prev := c.conns[prev].(state := Reconnected)]
                                [conn := FreshHandle(sid, Reconnecting, c.conns[prev].auth, c.conns[prev].userData)]
    requires c1.clients == c.clients[k := conn] && c1.left == c.left && c1.accepted == c.accepted + [token]
    requires h == DoCalls(c1, calls) && AfterCalls(c1, h, calls, conn)
    ensures ReconnectLeads(c, Welcome(h, conn, Reconnected, newToken), conn, sid, token, calls, newToken)
  {
    ReconnectedAfter(c1, h, conn, calls, newToken);
    ClientsOnlyGo(c1, calls);
    OnlyOneOfSession(c, c1, conn, sid, prev, k, calls, Welcome(h, conn, Reconnected, newToken));
  }

  lemma ReconnectedAfter(c1: RoomContext, h: RoomContext, conn: Id, calls: seq<Call>, newToken: Id)
    requires conn in c1.conns && h == DoCalls(c1, calls) && AfterCalls(c1, h, calls, conn)
    requires c1.conns[conn] == FreshHandle(c1.conns[conn].sessionId, Reconnecting, c1.conns[conn].auth, c1.conns[conn].userData)
    ensures var d := Welcome(h, conn, Reconnected, newToken);
            && conn in d.conns && d.conns[conn].state == Reconnected && d.conns[conn].token == newToken && d.conns[conn].pending == []
            && d.conns[conn].sessionId == c1.conns[conn].sessionId && d.conns[conn].auth == c1.conns[conn].auth
            && d.clients == h.clients && d.left == h.left && d.accepted == h.accepted
            && (forall i :: i in h.conns ==> Session(d, i) == Session(h, i))
            && (!Leaves(calls, conn) ==> IsWelcomed(d, conn, Reconnected, newToken, Sent(calls, conn, false)))
  {
    WelcomeEffects(h, conn, Reconnected, newToken);
    if !Leaves(calls, conn) {
      HookHeldBack(c1, conn, calls);
      WelcomedAfter(h, conn, Reconnected, newToken, Sent(calls, conn, false));
    }
  }

  lemma OnlyOneOfSession(c: RoomContext, c1: RoomContext, conn: Id, sid: Id, prev: Id, k: nat, calls: seq<Call>, d: RoomContext)
    requires ClientsOk(c) && conn !in c.conns && k < |c.clients| && c.clients[k] == prev && Session(c, prev) == sid
    requires c1.clients == c.clients[k := conn] && conn in c1.conns && Session(c1, conn) == sid && c1.conns[conn].token == ""
    requires forall i :: i in c.conns ==> i in c1.conns && Session(c1, i) == Session(c, i)
    requires d.clients == DoCalls(c1, calls).clients
    requires forall i :: i in c1.conns ==> Session(d, i) == Session(DoCalls(c1, calls), i)
    ensures forall i :: i in d.clients && Session(d, i) == sid <==> i == conn && !Removes(calls, sid)
  {
    CallsAfter(c1, calls, conn);
    ClientsOnlyGo(c1, calls);
    assert c1.clients[k] == conn;
    forall i | i in d.clients && Session(d, i) == sid ensures i == conn {
      assert i in c1.clients && i in c1.conns && Session(c1, i) == sid;
    }
  }

  lemma ClientsOnlyGo(c: RoomContext, calls: seq<Call>)
    ensures forall i :: i in DoCalls(c, calls).clients ==> i in c.clients
    ensures forall i :: i in c.conns ==> Session(DoCalls(c, calls), i) == Session(c, i)
  {
    ActorRuns.CallsCarry(c, calls);
    CallsKeepKeys(c, calls);
  }

  /** Hooks make no handles. */
  lemma {:induction false} CallsKeepKeys(c: RoomContext, calls: seq<Call>)
    ensures DoCalls(c, calls).conns.Keys == c.conns.Keys && forall i :: i in DoCalls(c, calls).clients ==> i in c.clients
    decreases |calls|
  {
    if calls != [] {
      CallKeepsKeys(c, calls[0]);
      CallsKeepKeys(DoCall(c, calls[0]), calls[1..]);
    }
  }

  lemma CallKeepsKeys(c: RoomContext, call: Call)
    ensures DoCall(c, call).conns.Keys == c.conns.Keys && forall i :: i in DoCall(c, call).clients ==> i in c.clients
  {
    if IsPlain(call) && !TouchesListing(call) { QuietCallKeepsCore(c, call); }
  }
}
