/** Concrete runs, each from a new room, that show what happens when a guard of `ActorRuns` is not met. */
module ActorExamples {
  import opened Json
  import opened Room
  import opened RoomInvariant
  import opened Actor
  import opened ActorInvariant
  import opened ActorRuns

  // ------------------------------------------------------------------
  // The events the runs are made of, and what each of them does
  // ------------------------------------------------------------------

  function Reserves(sid: Id): Event { EvReserveSeat(sid, Null, [], Accepted(None), 0) }

  function Enters(conn: Id, sid: Id, token: Id): Event { EvConnect(conn, sid, None, [], true, token) }

  function Returns(conn: Id, sid: Id, token: Id, newToken: Id): Event { EvConnect(conn, sid, Some(token), [], true, newToken) }

  function Drops(conn: Id, dropCalls: seq<Call>, leaveCalls: seq<Call>): Event { EvDisconnected(conn, 1006, dropCalls, leaveCalls) }

  function Allows(conn: Id): seq<Call> { [AllowReconnection(conn, None, 0)] }

  /** What none of these events touches. */
  ghost predicate SameRoom(c: RoomContext, d: RoomContext) {
    && d.disposing == c.disposing && d.locked == c.locked && d.maxClients == c.maxClients && d.filter == c.filter && d.slot == c.slot
  }

  lemma OneCall(c: RoomContext, call: Call)
    ensures DoCalls(c, [call]) == DoCall(c, call)
  {
    assert [call][1..] == [];
  }

  lemma ReserveStep(c: RoomContext, d: RoomContext, sid: Id)
    requires d == Handle(c, Reserves(sid)) && !c.disposing && !c.locked && !HasReachedMaxClients(c)
    ensures SameRoom(c, d) && d.conns == c.conns && d.clients == c.clients && d.reconnections == c.reconnections
    ensures d.left == c.left && d.issued == c.issued + {sid} && d.seats == c.seats[sid := Seat(Null, None, false, false, 0)]
  {
    assert DoCalls(c, []) == c;
  }

  lemma SendFullStateHandle(c: RoomContext, conn: Id)
    requires conn in c.conns
    ensures var d := SendFullState(c, conn); conn in d.conns && d.conns[conn].state == c.conns[conn].state && SameRoom(c, d)
  {
  }

  lemma WelcomeHandle(c: RoomContext, conn: Id, state: ClientState, token: Id)
    requires conn in c.conns
    ensures var d := Welcome(c, conn, state, token); conn in d.conns && d.conns[conn].state == state && SameRoom(c, d)
  {
    var client := c.conns[conn].(state := state, token := token).RawNow(JoinFrame(token));
    SendFullStateHandle(WithClient(c.(issued := c.issued + {token}), conn, client), conn);
  }

  /** The room just before the handshake of a join whose hook does nothing. */
  function Entering(c: RoomContext, conn: Id, sid: Id): RoomContext
    requires sid in c.seats
  {
    c.(conns := c.conns[conn := NewClient(sid).(auth := c.seats[sid].auth)], clients := c.clients + [conn],
       seats := c.seats - {sid}, hadClients := true)
  }

  lemma TakeSeatEnters(c: RoomContext, conn: Id, sid: Id)
    requires conn !in c.conns && sid in c.seats
    ensures var d := TakeSeat(WithClient(c, conn, NewClient(sid)), conn);
            d.conns[conn].sessionId == sid && d.conns[conn].state == Joining
            && d.(seats := d.seats - {sid}, hadClients := true) == Entering(c, conn, sid)
  {
    var d := TakeSeat(WithClient(c, conn, NewClient(sid)), conn);
    assert d.seats - {sid} == c.seats - {sid};
  }

  lemma EntersIsWelcome(c: RoomContext, conn: Id, sid: Id, token: Id)
    requires conn !in c.conns && sid in c.seats && !c.seats[sid].consumed
    ensures Handle(c, Enters(conn, sid, token)) == Welcome(Entering(c, conn, sid), conn, Joined, token)
  {
    var c0 := WithClient(c, conn, NewClient(sid));
    var c1 := TakeSeat(c0, conn);
    TakeSeatEnters(c, conn, sid);
    assert DoCalls(c1, []) == c1;
    assert Join(c0, conn, [], true, token) == EndJoin(c1, conn, true, token);
    assert Handle(c, Enters(conn, sid, token)) == Join(c0, conn, [], true, token);
  }

  lemma EnterStep(c: RoomContext, d: RoomContext, conn: Id, sid: Id, token: Id)
    requires d == Handle(c, Enters(conn, sid, token)) && conn !in c.conns && sid in c.seats && !c.seats[sid].consumed
    ensures SameRoom(c, d) && d.clients == c.clients + [conn] && d.conns.Keys == c.conns.Keys + {conn}
    ensures d.conns[conn].state == Joined && Session(d, conn) == sid && Token(d, conn) == token
    ensures forall i :: i in c.conns ==> Session(d, i) == Session(c, i)
    ensures d.seats == c.seats - {sid} && d.reconnections == c.reconnections && d.left == c.left && d.issued == c.issued + {token}
  {
    EntersIsWelcome(c, conn, sid, token);
    WelcomedGuest(c, Entering(c, conn, sid), d, conn, sid, token);
  }

  lemma WelcomedGuest(c: RoomContext, mid: RoomContext, d: RoomContext, conn: Id, sid: Id, token: Id)
    requires sid in c.seats && mid == Entering(c, conn, sid) && d == Welcome(mid, conn, Joined, token) && conn !in c.conns
    ensures SameRoom(c, d) && d.clients == c.clients + [conn] && d.conns.Keys == c.conns.Keys + {conn}
    ensures d.conns[conn].state == Joined && Session(d, conn) == sid && Token(d, conn) == token
    ensures forall i :: i in c.conns ==> Session(d, i) == Session(c, i)
    ensures d.seats == c.seats - {sid} && d.reconnections == c.reconnections && d.left == c.left && d.issued == c.issued + {token}
  {
    WelcomeTokens(mid, conn, Joined, token);
    WelcomeHandle(mid, conn, Joined, token);
    assert forall i :: i in c.conns ==> Session(mid, i) == Session(c, i);
  }

  lemma {:induction false} ReplacedAppends(c: RoomContext, list: seq<Id>, sid: Id, conn: Id)
    requires forall i :: i in list ==> Session(c, i) != sid
    ensures Replaced(c, list, sid, conn) == list + [conn]
    decreases |list|
  {
    if list != [] { ReplacedAppends(c, list[1..], sid, conn); }
  }

  /** The room just before the handshake of a reconnect whose hook does nothing. */
  function Returning(c: RoomContext, conn: Id, sid: Id, token: Id): RoomContext
    requires TokenFits(c, token, sid)
  {
    var c0 := WithClient(c, conn, NewClient(sid));
    TakeOver(c0, conn, token)
  }

  /** A reconnect when nobody of the session is listed takes the branch that appends. */
  lemma ReturnStep(c: RoomContext, d: RoomContext, conn: Id, sid: Id, token: Id, newToken: Id)
    requires d == Handle(c, Returns(conn, sid, token, newToken)) && conn !in c.conns && TokenFits(c, token, sid)
    requires forall i :: i in c.clients ==> i in c.conns && Session(c, i) != sid
    ensures d.clients == c.clients + [conn] && d.left == c.left && d.reconnections == c.reconnections - {token}
    ensures conn in d.conns && d.conns[conn].state == Reconnected && Session(d, conn) == sid && Token(d, conn) == newToken
    ensures forall i :: i in c.conns ==> Session(d, i) == Session(c, i)
    ensures d.seats == c.seats - {sid} && d.maxClients == c.maxClients
  {
    var c0 := WithClient(c, conn, NewClient(sid));
    var c1 := Returning(c, conn, sid, token);
    ReplacedAppends(c0, c0.clients, sid, conn);
    assert DoCalls(c1, []) == c1;
    WelcomeTokens(c1, conn, Reconnected, newToken);
    WelcomeHandle(c1, conn, Reconnected, newToken);
  }

  /** The drop of a joined client that nothing holds back goes straight to `on_leave`. */
  lemma DropsIsFinish(c: RoomContext, conn: Id, calls: seq<Call>)
    requires IsCurrent(c, conn) && c.conns[conn].IsJoined() && Token(c, conn) !in c.reconnections
    ensures Handle(c, Drops(conn, [], calls)) == FinishLeave(WithClient(c, conn, c.conns[conn].(state := Leaving)), conn, None, calls)
  {
    var c1 := WithClient(c, conn, c.conns[conn].(state := Leaving));
    assert DoCalls(c1, []) == c1;
    assert Handle(c, Drops(conn, [], calls)) == LeaveRoom(c, conn, 1006, false, [], calls);
    assert AfterDrop(c1, conn, 1006, false, calls) == FinishLeave(c1, conn, None, calls);
  }

  lemma FinishAllowing(c: RoomContext, conn: Id)
    requires conn in c.conns && !c.disposing && Token(c, conn) != "" && Token(c, conn) !in c.reconnections
    ensures var d := FinishLeave(c, conn, None, Allows(conn));
            && d.left == c.left + [Session(c, conn)] && TokenFits(d, Token(c, conn), Session(c, conn))
            && (forall i :: i in d.clients ==> i in c.clients && Session(c, i) != Session(c, conn))
            && d.reconnections.Keys == c.reconnections.Keys + {Token(c, conn)} && SameHandles(c.conns, d.conns)
  {
    var sid := Session(c, conn);
    var c2 := c.(left := c.left + [sid]);
    var c3 := Allow(c2, conn, None, 0);
    AllowAllows(c2, conn, None, 0);
    OneCall(c2, Allows(conn)[0]);
    EndLeaveUnlists(c3, conn, sid, None);
    SameHandlesNames(c, c3);
    assert FinishLeave(c, conn, None, Allows(conn)) == EndLeave(c3, conn, sid, None);
  }

  /** A client that is let back in while it leaves: unlisted, but its token works. */
  lemma LeaveAllowingStep(c: RoomContext, d: RoomContext, conn: Id)
    requires d == Handle(c, Drops(conn, [], Allows(conn))) && IsCurrent(c, conn) && c.conns[conn].IsJoined() && !c.disposing
    requires Token(c, conn) != "" && Token(c, conn) !in c.reconnections
    ensures d.left == c.left + [Session(c, conn)] && TokenFits(d, Token(c, conn), Session(c, conn))
    ensures forall i :: i in d.clients ==> i in c.clients && Session(c, i) != Session(c, conn)
    ensures d.reconnections.Keys == c.reconnections.Keys + {Token(c, conn)} && SameHandles(c.conns, d.conns)
  {
    var c1 := WithClient(c, conn, c.conns[conn].(state := Leaving));
    WithClientKeepsCore(c, conn, c.conns[conn].(state := Leaving));
    SameHandlesNames(c, c1);
    DropsIsFinish(c, conn, Allows(conn));
    FinishAllowing(c1, conn);
  }

  lemma FinishPlain(c: RoomContext, conn: Id)
    requires conn in c.conns
    ensures FinishLeave(c, conn, None, []).left == c.left + [Session(c, conn)]
  {
    var c2 := c.(left := c.left + [Session(c, conn)]);
    assert DoCalls(c2, []) == c2;
    EndLeaveUnlists(c2, conn, Session(c, conn), None);
  }

  /** A joined client that nothing holds back leaves, and is logged. */
  lemma LeaveStep(c: RoomContext, d: RoomContext, conn: Id)
    requires d == Handle(c, Drops(conn, [], [])) && IsCurrent(c, conn) && c.conns[conn].IsJoined()
    requires Token(c, conn) !in c.reconnections
    ensures d.left == c.left + [Session(c, conn)]
  {
    DropsIsFinish(c, conn, []);
    FinishPlain(WithClient(c, conn, c.conns[conn].(state := Leaving)), conn);
  }

  // ------------------------------------------------------------------
  // Runs
  // ------------------------------------------------------------------

  lemma RunCons(c: RoomContext, e: Event, rest: seq<Event>) returns (d: RoomContext)
    ensures d == Handle(c, e) && Run(c, [e] + rest) == Run(d, rest)
  {
    d := Handle(c, e);
    assert ([e] + rest)[1..] == rest;
  }

  /** A new room that takes reservations. */
  predicate IsOpen(c: RoomContext) { IsNew(c) && !c.locked && !c.disposing && !HasReachedMaxClients(c) }

  /** One guest has joined, as connection "a" of session "s" with token "t". */
  ghost predicate OneGuest(d: RoomContext) {
    && d.clients == ["a"] && d.conns.Keys == {"a"}
    && d.conns["a"].state == Joined && Session(d, "a") == "s" && Token(d, "a") == "t"
    && d.seats == map[] && d.reconnections == map[] && d.left == [] && d.issued == {"s", "t"}
  }

  function GuestThen(rest: seq<Event>): seq<Event> { [Reserves("s")] + ([Enters("a", "s", "t")] + rest) }

  /** After the guest has joined. */
  lemma GuestJoins(c: RoomContext, rest: seq<Event>) returns (d: RoomContext)
    requires IsOpen(c)
    ensures OneGuest(d) && SameRoom(c, d) && Run(c, GuestThen(rest)) == Run(d, rest)
  {
    var c1 := RunCons(c, Reserves("s"), [Enters("a", "s", "t")] + rest);
    ReserveStep(c, c1, "s");
    d := RunCons(c1, Enters("a", "s", "t"), rest);
    EnterStep(c1, d, "a", "s", "t");
    assert c1.seats - {"s"} == map[];
  }

  // ------------------------------------------------------------------
  // allow_reconnection in on_leave: the session leaves twice
  // ------------------------------------------------------------------

  /** In any room: a client let back in by its own `on_leave` can return, leave again, and is logged twice. */
  lemma LeavesTwice(c: RoomContext, d1: RoomContext, d2: RoomContext, d3: RoomContext, conn: Id, again: Id, newToken: Id)
    requires IsCurrent(c, conn) && c.conns[conn].IsJoined() && !c.disposing && forall i :: i in c.clients ==> i in c.conns
    requires Token(c, conn) != "" && Token(c, conn) !in c.reconnections
    requires again !in c.conns && newToken != Token(c, conn) && newToken !in c.reconnections
    requires d1 == Handle(c, Drops(conn, [], Allows(conn)))
    requires d2 == Handle(d1, Returns(again, Session(c, conn), Token(c, conn), newToken))
    requires d3 == Handle(d2, Drops(again, [], []))
    ensures d3.left == c.left + [Session(c, conn)] + [Session(c, conn)]
  {
    LeaveAllowingStep(c, d1, conn);
    SameHandlesNames(c, d1);
    ReturnStep(d1, d2, again, Session(c, conn), Token(c, conn), newToken);
    LastOfItsSession(d1, d2, again);
    LeaveStep(d2, d3, again);
  }

  lemma LastOfItsSession(c: RoomContext, d: RoomContext, conn: Id)
    requires d.clients == c.clients + [conn] && conn in d.conns && conn !in c.conns
    requires forall i :: i in c.clients ==> i in c.conns && Session(c, i) != Session(d, conn)
    requires forall i :: i in c.conns ==> Session(d, i) == Session(c, i)
    ensures IsCurrent(d, conn)
  {
  }

  /** A run from any new room after which `on_leave` has run twice for one session. */
  lemma SessionLeavesTwice(c: RoomContext)
    requires IsOpen(c)
    ensures Run(c, GuestThen([Drops("a", [], Allows("a"))] + ([Returns("b", "s", "t", "u")] + ([Drops("b", [], [])] + [])))).left == ["s", "s"]
  {
    var d := GuestJoins(c, [Drops("a", [], Allows("a"))] + ([Returns("b", "s", "t", "u")] + ([Drops("b", [], [])] + [])));
    var d1 := RunCons(d, Drops("a", [], Allows("a")), [Returns("b", "s", "t", "u")] + ([Drops("b", [], [])] + []));
    var d2 := RunCons(d1, Returns("b", "s", "t", "u"), [Drops("b", [], [])] + []);
    var d3 := RunCons(d2, Drops("b", [], []), []);
    LeavesTwice(d, d1, d2, d3, "a", "b", "u");
  }

  // ------------------------------------------------------------------
  // allow_reconnection for a removed client: the limit is exceeded
  // ------------------------------------------------------------------

  function Removal(): Event { EvCommand([RemoveClient("s"), AllowReconnection("a", None, 0)]) }

  /** The guest is removed, and let back in all the same. */
  lemma RemovalStep(c: RoomContext, d: RoomContext)
    requires d == Handle(c, Removal()) && OneGuest(c) && !c.disposing
    ensures d.clients == [] && d.conns.Keys == {"a"} && TokenFits(d, "t", "s") && d.seats.Keys == {"s"} && d.seats["s"].waiting
    ensures SameRoom(c, d)
  {
    var c1 := Forget(c, "s");
    var calls := [RemoveClient("s"), AllowReconnection("a", None, 0)];
    assert calls[1..] == [AllowReconnection("a", None, 0)];
    OneCall(c1, AllowReconnection("a", None, 0));
    AllowAllows(c1, "a", None, 0);
    assert Others(c, c.clients, "s") == Others(c, c.clients[1..], "s") && c.clients[1..] == [];
  }

  lemma ReserveBeside(c: RoomContext, d: RoomContext)
    requires d == Handle(c, Reserves("r")) && c.clients == [] && c.conns.Keys == {"a"} && TokenFits(c, "t", "s")
    requires c.seats.Keys == {"s"} && c.seats["s"].waiting && !c.disposing && !c.locked && c.maxClients == Some(1)
    ensures d.maxClients == Some(1) && d.clients == [] && d.conns.Keys == {"a"} && TokenFits(d, "t", "s")
    ensures d.seats.Keys == {"r", "s"} && IsPending(d.seats["r"])
  {
    assert PendingSeats(c) == {};
    ReserveStep(c, d, "r");
  }

  /** A reservation and the return fill the room beyond what it holds. */
  lemma ReserveAndReturn(c: RoomContext, d1: RoomContext, d2: RoomContext)
    requires d1 == Handle(c, Reserves("r")) && d2 == Handle(d1, Returns("b", "s", "t", "u"))
    requires c.clients == [] && c.conns.Keys == {"a"} && TokenFits(c, "t", "s") && c.seats.Keys == {"s"} && c.seats["s"].waiting
    requires !c.disposing && !c.locked && c.maxClients == Some(1)
    ensures d2.maxClients == Some(1) && Load(d2) == 2
  {
    ReserveBeside(c, d1);
    ReturnStep(d1, d2, "b", "s", "t", "u");
    assert PendingSeats(d2) == {"r"};
  }

  /** A run from any new room for one client after which two are in it: one listed, one with a reservation. */
  lemma LimitIsExceeded(c: RoomContext)
    requires IsOpen(c) && c.maxClients == Some(1)
    ensures var d := Run(c, GuestThen([Removal()] + ([Reserves("r")] + ([Returns("b", "s", "t", "u")] + []))));
            d.maxClients == Some(1) && Load(d) == 2
  {
    var d := GuestJoins(c, [Removal()] + ([Reserves("r")] + ([Returns("b", "s", "t", "u")] + [])));
    var d1 := RunCons(d, Removal(), [Reserves("r")] + ([Returns("b", "s", "t", "u")] + []));
    RemovalStep(d, d1);
    var d2 := RunCons(d1, Reserves("r"), [Returns("b", "s", "t", "u")] + []);
    var d3 := RunCons(d2, Returns("b", "s", "t", "u"), []);
    ReserveAndReturn(d1, d2, d3);
  }

  // ------------------------------------------------------------------
  // A connection without a token for a session that waits
  // ------------------------------------------------------------------

  /** The guest drops and may come back. */
  lemma DropStep(c: RoomContext, d: RoomContext)
    requires d == Handle(c, Drops("a", Allows("a"), [])) && OneGuest(c) && !c.disposing
    ensures d.clients == ["a"] && d.conns.Keys == {"a"} && Session(d, "a") == "s" && "s" in d.seats && d.seats["s"].waiting && !d.seats["s"].consumed
  {
    var c1 := WithClient(c, "a", c.conns["a"].(state := Leaving));
    WithClientKeepsCore(c, "a", c.conns["a"].(state := Leaving));
    OneCall(c1, Allows("a")[0]);
    AllowAllows(c1, "a", None, 0);
    assert FindClient(c, c.clients, "s") == Some("a");
  }

  /** A run from any new room after which two listed clients serve one session. */
  lemma SessionServedTwice(c: RoomContext)
    requires IsOpen(c)
    ensures var d := Run(c, GuestThen([Drops("a", Allows("a"), [])] + ([Enters("b", "s", "u")] + [])));
            d.clients == ["a", "b"] && Session(d, "a") == Session(d, "b") == "s"
  {
    var d := GuestJoins(c, [Drops("a", Allows("a"), [])] + ([Enters("b", "s", "u")] + []));
    var d1 := RunCons(d, Drops("a", Allows("a"), []), [Enters("b", "s", "u")] + []);
    DropStep(d, d1);
    var d2 := RunCons(d1, Enters("b", "s", "u"), []);
    EnterStep(d1, d2, "b", "s", "u");
  }
}
