/** What a hook body can do to one client handle, read off its calls. */
module HookEffects {
  import opened Json
  import opened JsonPatch
  import opened Diff
  import opened Room
  import opened RoomInvariant

  predicate Leaves(calls: seq<Call>, conn: Id) { exists k :: 0 <= k < |calls| && calls[k].LeaveClient? && calls[k].conn == conn }

  predicate Removes(calls: seq<Call>, sid: Id) { exists k :: 0 <= k < |calls| && calls[k] == RemoveClient(sid) }

  predicate Allows(calls: seq<Call>, conn: Id) { exists k :: 0 <= k < |calls| && calls[k].AllowReconnection? && calls[k].conn == conn }

  /** What room code can queue: messages, patches and closes, never a part of the handshake. */
  predicate IsHookOutput(o: Outbound) { o.Close? || o.frame.DataFrame? || o.frame.PatchFrame? }

  ghost predicate Grown<T>(a: seq<T>, b: seq<T>) { |a| <= |b| && b[..|a|] == a }

  /** The same connection, with more output. */
  ghost predicate Hooked(a: Client, b: Client) {
    && b.sessionId == a.sessionId && b.token == a.token && b.auth == a.auth
    && Grown(a.outbox, b.outbox) && Grown(a.pending, b.pending)
    && (forall k :: |a.outbox| <= k < |b.outbox| ==> IsHookOutput(b.outbox[k]))
    && (forall k :: |a.pending| <= k < |b.pending| ==> b.pending[k].DataFrame?)
  }

  lemma HookedTransitive(a: Client, b: Client, c: Client)
    requires Hooked(a, b) && Hooked(b, c)
    ensures Hooked(a, c)
  {
    assert c.outbox[..|a.outbox|] == c.outbox[..|b.outbox|][..|a.outbox|];
    assert c.pending[..|a.pending|] == c.pending[..|b.pending|][..|a.pending|];
    forall k | |a.outbox| <= k < |c.outbox| ensures IsHookOutput(c.outbox[k]) {
      if k < |b.outbox| { assert c.outbox[k] == c.outbox[..|b.outbox|][k]; }
    }
    forall k | |a.pending| <= k < |c.pending| ensures c.pending[k].DataFrame? {
      if k < |b.pending| { assert c.pending[k] == c.pending[..|b.pending|][k]; }
    }
  }

  lemma QueueHooks(a: Client, o: Outbound)
    requires IsHookOutput(o)
    ensures Hooked(a, a.Queue(o))
  {
  }

  lemma {:induction false} ToJoinedHooks(conns: map<Id, Client>, list: seq<Id>, frame: Frame, i: Id)
    requires i in conns && (frame.DataFrame? || frame.PatchFrame?)
    ensures i in ToJoined(conns, list, frame) && Hooked(conns[i], ToJoined(conns, list, frame)[i])
    ensures ToJoined(conns, list, frame)[i].state == conns[i].state
    ensures !conns[i].IsJoined() ==> ToJoined(conns, list, frame)[i] == conns[i]
    decreases |list|
  {
    if list != [] {
      var next := if list[0] in conns && conns[list[0]].IsJoined() then conns[list[0] := conns[list[0]].RawNow(frame)] else conns;
      QueueHooks(conns[i], Bytes(frame));
      ToJoinedHooks(next, list[1..], frame, i);
      HookedTransitive(conns[i], next[i], ToJoined(next, list[1..], frame)[i]);
    }
  }

  /** One handle, hooked, in the same state. */
  ghost predicate HookedIn(c: RoomContext, d: RoomContext, i: Id) {
    && i in c.conns && i in d.conns && Hooked(c.conns[i], d.conns[i]) && d.conns[i].state == c.conns[i].state
    && (!c.conns[i].IsJoined() ==> d.conns[i] == c.conns[i])
  }

  /** Holding a view touches one handle, and queues one patch to it at most. */
  lemma HoldViewHandles(c: RoomContext, conn: Id, held: Json, view: Json, ops: seq<PatchOp>)
    requires conn in c.conns
    ensures var d := HoldView(c, conn, held, view, ops);
            && d.clients == c.clients && d.slot == c.slot && d.filter == c.filter
            && (d.conns == c.conns || d.conns == c.conns[conn := c.conns[conn].RawNow(PatchFrame(ops))])
  {
  }

  lemma HoldViewHooks(c: RoomContext, conn: Id, held: Json, view: Json, ops: seq<PatchOp>, i: Id)
    requires conn in c.conns && c.conns[conn].IsJoined() && i in c.conns
    ensures HookedIn(c, HoldView(c, conn, held, view, ops), i)
  {
    HoldViewHandles(c, conn, held, view, ops);
    PatchHooks(c, HoldView(c, conn, held, view, ops), conn, ops, i);
  }

  lemma PatchHooks(c: RoomContext, d: RoomContext, conn: Id, ops: seq<PatchOp>, i: Id)
    requires conn in c.conns && c.conns[conn].IsJoined() && i in c.conns
    requires d.conns == c.conns || d.conns == c.conns[conn := c.conns[conn].RawNow(PatchFrame(ops))]
    ensures HookedIn(c, d, i)
  {
    QueueHooks(c.conns[conn], Bytes(PatchFrame(ops)));
  }

  lemma PatchViewHooks(c: RoomContext, conn: Id, i: Id)
    requires c.slot.Some? && c.filter.Some? && i in c.conns
    ensures HookedIn(c, PatchView(c, conn), i)
  {
    if conn in c.conns && c.conns[conn].IsJoined() {
      var client := c.conns[conn];
      var view := c.filter.value(c.slot.value.typed, client.Info());
      var held := if client.sessionId in c.views then c.views[client.sessionId] else view;
      HoldViewHooks(c, conn, held, view, DiffPatch(held, view), i);
    }
  }

  lemma {:induction false} PatchViewsHook(c: RoomContext, list: seq<Id>, i: Id)
    requires c.slot.Some? && c.filter.Some? && i in c.conns
    ensures HookedIn(c, PatchViews(c, list), i)
    decreases |list|
  {
    if list != [] {
      PatchViewHooks(c, list[0], i);
      PatchViewKeepsCore(c, list[0]);
      PatchViewsHook(PatchView(c, list[0]), list[1..], i);
      HookedTransitive(c.conns[i], PatchView(c, list[0]).conns[i], PatchViews(c, list).conns[i]);
    }
  }

  lemma BroadcastHooks(c: RoomContext, i: Id)
    requires i in c.conns
    ensures HookedIn(c, BroadcastPatch(c), i)
  {
    if c.slot.Some? && c.filter.Some? {
      PatchViewsHook(c, c.clients, i);
    } else if c.slot.Some? {
      SharedHooks(c, SlotDiff(c.slot.value).0, SlotDiff(c.slot.value).1, i);
    }
  }

  lemma SharedHooks(c: RoomContext, slot: StateSlot, patch: Option<seq<PatchOp>>, i: Id)
    requires i in c.conns
    ensures HookedIn(c, SendShared(c, slot, patch), i)
  {
    if patch.Some? { ToJoinedHooks(c.conns, c.clients, PatchFrame(patch.value), i); }
  }

  // ------------------------------------------------------------------
  // One call
  // ------------------------------------------------------------------

  /** What is queued to a client that has not joined: only closes, one for each `leave`. */
  ghost predicate OnlyCloses(a: Client, b: Client, left: bool) {
    && Grown(a.outbox, b.outbox) && (forall k :: |a.outbox| <= k < |b.outbox| ==> b.outbox[k].Close?)
    && (!left ==> b.outbox == a.outbox)
  }

  lemma OnlyClosesTransitive(a: Client, b: Client, c: Client, first: bool, second: bool)
    requires OnlyCloses(a, b, first) && OnlyCloses(b, c, second)
    ensures OnlyCloses(a, c, first || second)
  {
    assert c.outbox[..|a.outbox|] == c.outbox[..|b.outbox|][..|a.outbox|];
    forall k | |a.outbox| <= k < |c.outbox| ensures c.outbox[k].Close? {
      if k < |b.outbox| { assert c.outbox[k] == c.outbox[..|b.outbox|][k]; }
    }
  }

  /** The handle and its place in the list after some calls. */
  ghost predicate AfterCalls(c: RoomContext, d: RoomContext, calls: seq<Call>, i: Id) {
    && i in c.conns && i in d.conns && Hooked(c.conns[i], d.conns[i])
    && d.conns[i].state == (if Leaves(calls, i) then Leaving else c.conns[i].state)
    && (!c.conns[i].IsJoined() ==> OnlyCloses(c.conns[i], d.conns[i], Leaves(calls, i)))
    && (i in d.clients <==> i in c.clients && !Removes(calls, c.conns[i].sessionId))
    && d.hadClients == c.hadClients && d.left == c.left && d.accepted == c.accepted && d.issued == c.issued && d.disposing == c.disposing
  }

  lemma OneOf(call: Call, i: Id, sid: Id)
    ensures Leaves([call], i) <==> call.LeaveClient? && call.conn == i
    ensures Removes([call], sid) <==> call == RemoveClient(sid)
  {
    assert [call][0] == call;
  }

  lemma ForgetAfter(c: RoomContext, sid: Id, i: Id)
    requires i in c.conns
    ensures AfterCalls(c, Forget(c, sid), [RemoveClient(sid)], i)
  {
    OneOf(RemoveClient(sid), i, c.conns[i].sessionId);
    assert Session(c, i) == c.conns[i].sessionId;
  }

  /** A call that changes one handle. */
  lemma WithClientAfter(c: RoomContext, conn: Id, client: Client, call: Call, i: Id)
    requires i in c.conns && conn in c.conns && !call.RemoveClient? && Hooked(c.conns[conn], client)
    requires client.state == if call.LeaveClient? && call.conn == conn then Leaving else c.conns[conn].state
    requires call.LeaveClient? ==> call.conn == conn
    requires !c.conns[conn].IsJoined() ==> OnlyCloses(c.conns[conn], client, call.LeaveClient?)
    ensures AfterCalls(c, WithClient(c, conn, client), [call], i)
  {
    OneOf(call, i, c.conns[i].sessionId);
    assert Hooked(c.conns[i], c.conns[i]);
  }

  /** A call that leaves this handle as it was. */
  lemma ElsewhereAfter(c: RoomContext, d: RoomContext, call: Call, i: Id)
    requires i in c.conns && !call.RemoveClient? && !(call.LeaveClient? && call.conn == i)
    requires i in d.conns && d.conns[i] == c.conns[i] && d.clients == c.clients && d.hadClients == c.hadClients && d.left == c.left
    requires d.accepted == c.accepted && d.issued == c.issued && d.disposing == c.disposing
    ensures AfterCalls(c, d, [call], i)
  {
    OneOf(call, i, c.conns[i].sessionId);
    assert Hooked(c.conns[i], c.conns[i]);
  }

  lemma LeaveCallAfter(c: RoomContext, conn: Id, code: nat, i: Id)
    requires i in c.conns
    ensures AfterCalls(c, DoCall(c, LeaveClient(conn, code)), [LeaveClient(conn, code)], i)
  {
    if conn in c.conns {
      QueueHooks(c.conns[conn], Close(code));
      WithClientAfter(c, conn, c.conns[conn].Leave(code), LeaveClient(conn, code), i);
    } else {
      ElsewhereAfter(c, c, LeaveClient(conn, code), i);
    }
  }

  lemma UserDataCallAfter(c: RoomContext, conn: Id, data: Json, i: Id)
    requires i in c.conns
    ensures AfterCalls(c, DoCall(c, SetUserData(conn, data)), [SetUserData(conn, data)], i)
  {
    if conn in c.conns {
      WithClientAfter(c, conn, c.conns[conn].(userData := Some(data)), SetUserData(conn, data), i);
    } else {
      ElsewhereAfter(c, c, SetUserData(conn, data), i);
    }
  }

  lemma DeliverHooks(a: Client, payload: Json)
    ensures Hooked(a, a.Deliver(DataFrame(payload))) && a.Deliver(DataFrame(payload)).state == a.state
  {
    QueueHooks(a, Bytes(DataFrame(payload)));
  }

  lemma SendCallAfter(c: RoomContext, conn: Id, payload: Json, i: Id)
    requires i in c.conns
    ensures AfterCalls(c, DoCall(c, SendTo(conn, payload)), [SendTo(conn, payload)], i)
  {
    if conn in c.conns {
      DeliverHooks(c.conns[conn], payload);
      WithClientAfter(c, conn, c.conns[conn].Deliver(DataFrame(payload)), SendTo(conn, payload), i);
    } else {
      ElsewhereAfter(c, c, SendTo(conn, payload), i);
    }
  }

  lemma AllowAfter(c: RoomContext, call: Call, i: Id)
    requires i in c.conns && call.AllowReconnection? && (c.conns[i].token == "" || call.conn != i)
    ensures AfterCalls(c, DoCall(c, call), [call], i)
  {
    AllowElsewhere(c, call, i);
    ElsewhereAfter(c, DoCall(c, call), call, i);
  }

  lemma AllowElsewhere(c: RoomContext, call: Call, i: Id)
    requires i in c.conns && call.AllowReconnection? && (c.conns[i].token == "" || call.conn != i)
    ensures var d := DoCall(c, call);
            && i in d.conns && d.conns[i] == c.conns[i] && d.clients == c.clients && d.hadClients == c.hadClients && d.left == c.left
            && d.accepted == c.accepted && d.issued == c.issued && d.disposing == c.disposing
  {
  }

  lemma ListingCallAfter(c: RoomContext, call: Call, i: Id)
    requires i in c.conns && (TouchesListing(call) || call.SetMaxClients? || call.Disconnect? || call.MutateState? || call.SetState?)
    ensures AfterCalls(c, DoCall(c, call), [call], i)
  {
    if TouchesListing(call) || call.SetMaxClients? { SyncElsewhere(c, call); } else { StateElsewhere(c, call); }
    ElsewhereAfter(c, DoCall(c, call), call, i);
  }

  /** Nothing of clients, their handles or their history differs. */
  ghost predicate SameClients(c: RoomContext, d: RoomContext) {
    && d.conns == c.conns && d.clients == c.clients && d.hadClients == c.hadClients && d.left == c.left
    && d.accepted == c.accepted && d.issued == c.issued && d.disposing == c.disposing
  }

  lemma SyncElsewhere(c: RoomContext, call: Call)
    requires TouchesListing(call) || call.SetMaxClients?
    ensures SameClients(c, DoCall(c, call))
  {
  }

  /** The calls that set the state, or ask for disposal. */
  lemma StateOutcome(c: RoomContext, code: nat, state: Json)
    ensures DoCall(c, Disconnect(code)) == c.(requestDispose := Some(code))
    ensures DoCall(c, SetState(state)) == c.(slot := Some(StateSlot(state, state)))
    ensures DoCall(c, MutateState(state)) == if c.slot.None? then c else c.(slot := Some(StateSlot(state, c.slot.value.snapshot)))
  {
  }

  lemma StateElsewhere(c: RoomContext, call: Call)
    requires call.Disconnect? || call.MutateState? || call.SetState?
    ensures SameClients(c, DoCall(c, call))
  {
    match call
    case Disconnect(code) => StateOutcome(c, code, Null);
    case MutateState(s) => StateOutcome(c, 0, s);
    case SetState(s) => StateOutcome(c, 0, s);
  }

  lemma CallAfter(c: RoomContext, call: Call, i: Id)
    requires i in c.conns && (c.conns[i].token == "" || !Allows([call], i))
    ensures AfterCalls(c, DoCall(c, call), [call], i)
  {
    OneOf(call, i, c.conns[i].sessionId);
    match call
    case RemoveClient(sid) => ForgetAfter(c, sid, i);
    case AllowReconnection(conn, _, _) =>
      assert [call][0] == call;
      AllowAfter(c, call, i);
    case Broadcast(payload) => ToJoinedHooks(c.conns, c.clients, DataFrame(payload), i);
    case CallBroadcastPatch =>
      BroadcastHooks(c, i);
      BroadcastKeepsCore(c);
    case LeaveClient(conn, code) => LeaveCallAfter(c, conn, code, i);
    case SetUserData(conn, data) => UserDataCallAfter(c, conn, data, i);
    case SendTo(conn, payload) => SendCallAfter(c, conn, payload, i);
    case _ =>
      ListingCallAfter(c, call, i);
  }

  // ------------------------------------------------------------------
  // Whole hooks
  // ------------------------------------------------------------------

  lemma CallsCons(call: Call, rest: seq<Call>, i: Id, sid: Id)
    ensures Leaves([call] + rest, i) <==> Leaves([call], i) || Leaves(rest, i)
    ensures Removes([call] + rest, sid) <==> Removes([call], sid) || Removes(rest, sid)
    ensures Allows([call] + rest, i) <==> Allows([call], i) || Allows(rest, i)
  {
    var all := [call] + rest;
    assert all[0] == call && [call][0] == call;
    assert forall k :: 1 <= k < |all| ==> all[k] == rest[k - 1];
    assert forall k :: 0 <= k < |rest| ==> rest[k] == all[k + 1];
  }

  lemma AfterCallsThen(c: RoomContext, mid: RoomContext, d: RoomContext, call: Call, rest: seq<Call>, i: Id)
    requires AfterCalls(c, mid, [call], i) && AfterCalls(mid, d, rest, i)
    ensures AfterCalls(c, d, [call] + rest, i)
  {
    CallsCons(call, rest, i, c.conns[i].sessionId);
    HookedTransitive(c.conns[i], mid.conns[i], d.conns[i]);
    if !c.conns[i].IsJoined() {
      OnlyClosesTransitive(c.conns[i], mid.conns[i], d.conns[i], Leaves([call], i), Leaves(rest, i));
    }
  }

  /** Whatever the hook does: only `leave` changes the state of the handle, and only `remove_client` unlists it. */
  lemma {:induction false} CallsAfter(c: RoomContext, calls: seq<Call>, i: Id)
    requires i in c.conns && (c.conns[i].token == "" || !Allows(calls, i))
    ensures AfterCalls(c, DoCalls(c, calls), calls, i)
    decreases |calls|
  {
    if calls == [] {
      assert Grown(c.conns[i].outbox, c.conns[i].outbox);
    } else {
      assert calls == [calls[0]] + calls[1..];
      CallsCons(calls[0], calls[1..], i, c.conns[i].sessionId);
      CallAfter(c, calls[0], i);
      CallsAfter(DoCall(c, calls[0]), calls[1..], i);
      AfterCallsThen(c, DoCall(c, calls[0]), DoCalls(c, calls), calls[0], calls[1..], i);
    }
  }

  // ------------------------------------------------------------------
  // Messages: each one once, in order
  // ------------------------------------------------------------------

  /** The messages that some calls send to one client; a broadcast is for those who have joined. */
  function Sent(calls: seq<Call>, i: Id, joined: bool): seq<Json>
    decreases |calls|
  {
    if calls == [] then []
    else SentBy(calls[0], i, joined) + Sent(calls[1..], i, joined)
  }

  function SentBy(call: Call, i: Id, joined: bool): seq<Json> {
    match call
    case SendTo(conn, payload) => if conn == i then [payload] else []
    case Broadcast(payload) => if joined then [payload] else []
    case _ => []
  }

  function Messages(payloads: seq<Json>): (r: seq<Frame>)
    ensures |r| == |payloads| && forall k :: 0 <= k < |r| ==> r[k] == DataFrame(payloads[k])
  {
    seq(|payloads|, k requires 0 <= k < |payloads| => DataFrame(payloads[k]))
  }

  /** The messages among what was queued. */
  function Queued(out: seq<Outbound>): seq<Json> {
    if out == [] then [] else Queued(out[..|out| - 1]) + QueuedBy(out[|out| - 1])
  }

  function QueuedBy(o: Outbound): seq<Json> {
    match o
    case Bytes(DataFrame(payload)) => [payload]
    case _ => []
  }

  predicate IsHeldBack(a: Client) { a.state.Joining? || a.state.Reconnecting? }

  /** A client that is being let in gets the messages later; one that has joined and is listed gets them at once. */
  ghost predicate Delivered(a: Client, b: Client, listed: bool, before: seq<Json>, now: seq<Json>) {
    && (IsHeldBack(a) ==> b.pending == a.pending + Messages(before) && b.outbox == a.outbox)
    && (a.IsJoined() ==> b.pending == a.pending)
    && (a.IsJoined() && listed ==> Queued(b.outbox) == Queued(a.outbox) + now)
  }

  lemma QueuedMore(out: seq<Outbound>, o: Outbound)
    ensures Queued(out + [o]) == Queued(out) + QueuedBy(o)
  {
    assert (out + [o])[..|out|] == out;
  }

  lemma DeliveredNothing(a: Client, b: Client, listed: bool)
    requires b.outbox == a.outbox && b.pending == a.pending
    ensures Delivered(a, b, listed, [], [])
  {
    assert a.pending + Messages([]) == a.pending;
  }

  /** A frame that is no message. */
  lemma DeliveredOther(a: Client, b: Client, listed: bool, o: Outbound)
    requires a.IsJoined() && b.outbox == a.outbox + [o] && b.pending == a.pending && QueuedBy(o) == []
    ensures Delivered(a, b, listed, [], [])
  {
    QueuedMore(a.outbox, o);
  }

  lemma DeliveredTransitive(a: Client, b: Client, c: Client, listed: bool, x: seq<Json>, y: seq<Json>, x': seq<Json>, y': seq<Json>)
    requires Delivered(a, b, listed, x, x') && Delivered(b, c, listed, y, y') && b.state == a.state
    ensures Delivered(a, c, listed, x + y, x' + y')
  {
    assert a.pending + Messages(x) + Messages(y) == a.pending + Messages(x + y);
  }

  lemma DeliverDelivers(a: Client, payload: Json, listed: bool)
    ensures Delivered(a, a.Deliver(DataFrame(payload)), listed, [payload], [payload])
  {
    QueuedMore(a.outbox, Bytes(DataFrame(payload)));
  }

  /** One frame for everybody who has joined: once for each who is listed. */
  lemma {:induction false} ToJoinedOnce(conns: map<Id, Client>, list: seq<Id>, frame: Frame, i: Id)
    requires Distinct(list) && i in conns
    ensures i in ToJoined(conns, list, frame)
    ensures ToJoined(conns, list, frame)[i] == if i in list && conns[i].IsJoined() then conns[i].RawNow(frame) else conns[i]
    decreases |list|
  {
    if list != [] {
      var next := if list[0] in conns && conns[list[0]].IsJoined() then conns[list[0] := conns[list[0]].RawNow(frame)] else conns;
      assert list == [list[0]] + list[1..];
      ToJoinedOnce(next, list[1..], frame, i);
    }
  }

  lemma DeliveredIdle(a: Client, listed: bool, now: seq<Json>)
    requires !(a.IsJoined() && listed)
    ensures Delivered(a, a, listed, [], now)
  {
    assert a.pending + Messages([]) == a.pending;
  }

  lemma RawDelivers(a: Client, payload: Json, listed: bool)
    requires a.IsJoined()
    ensures Delivered(a, a.RawNow(DataFrame(payload)), listed, [], [payload])
  {
    QueuedMore(a.outbox, Bytes(DataFrame(payload)));
  }

  lemma BroadcastDelivers(c: RoomContext, payload: Json, i: Id)
    requires Distinct(c.clients) && i in c.conns
    ensures var d := DoCall(c, Broadcast(payload)); i in d.conns && Delivered(c.conns[i], d.conns[i], i in c.clients, [], [payload])
  {
    assert DoCall(c, Broadcast(payload)).conns == ToJoined(c.conns, c.clients, DataFrame(payload));
    ToJoinedOnce(c.conns, c.clients, DataFrame(payload), i);
    if i in c.clients && c.conns[i].IsJoined() {
      RawDelivers(c.conns[i], payload, true);
    } else {
      DeliveredIdle(c.conns[i], i in c.clients, [payload]);
    }
  }

  /** A patch is no message. */
  ghost predicate Patched(c: RoomContext, d: RoomContext, i: Id) {
    && i in c.conns && i in d.conns && d.conns[i].state == c.conns[i].state
    && Delivered(c.conns[i], d.conns[i], true, [], [])
  }

  lemma HoldViewPatched(c: RoomContext, conn: Id, held: Json, view: Json, ops: seq<PatchOp>, i: Id)
    requires conn in c.conns && c.conns[conn].IsJoined() && i in c.conns
    ensures Patched(c, HoldView(c, conn, held, view, ops), i)
  {
    HoldViewHandles(c, conn, held, view, ops);
    PatchPatched(c, HoldView(c, conn, held, view, ops), conn, ops, i);
  }

  lemma PatchPatched(c: RoomContext, d: RoomContext, conn: Id, ops: seq<PatchOp>, i: Id)
    requires conn in c.conns && c.conns[conn].IsJoined() && i in c.conns
    requires d.conns == c.conns || d.conns == c.conns[conn := c.conns[conn].RawNow(PatchFrame(ops))]
    ensures Patched(c, d, i)
  {
    if d.conns == c.conns || i != conn {
      DeliveredNothing(c.conns[i], d.conns[i], true);
    } else {
      DeliveredOther(c.conns[i], d.conns[i], true, Bytes(PatchFrame(ops)));
    }
  }

  lemma PatchViewPatched(c: RoomContext, conn: Id, i: Id)
    requires c.slot.Some? && c.filter.Some? && i in c.conns
    ensures Patched(c, PatchView(c, conn), i)
  {
    if conn in c.conns && c.conns[conn].IsJoined() {
      var client := c.conns[conn];
      var view := c.filter.value(c.slot.value.typed, client.Info());
      var held := if client.sessionId in c.views then c.views[client.sessionId] else view;
      HoldViewPatched(c, conn, held, view, DiffPatch(held, view), i);
    } else {
      DeliveredNothing(c.conns[i], c.conns[i], true);
    }
  }

  lemma {:induction false} PatchViewsPatched(c: RoomContext, list: seq<Id>, i: Id)
    requires c.slot.Some? && c.filter.Some? && i in c.conns
    ensures Patched(c, PatchViews(c, list), i)
    decreases |list|
  {
    if list == [] {
      DeliveredNothing(c.conns[i], c.conns[i], true);
    } else {
      var d := PatchView(c, list[0]);
      PatchViewPatched(c, list[0], i);
      PatchViewKeepsCore(c, list[0]);
      PatchViewsPatched(d, list[1..], i);
      DeliveredTransitive(c.conns[i], d.conns[i], PatchViews(d, list[1..]).conns[i], true, [], [], [], []);
    }
  }

  lemma SharedPatched(c: RoomContext, slot: StateSlot, patch: Option<seq<PatchOp>>, i: Id)
    requires Distinct(c.clients) && i in c.conns
    ensures Patched(c, SendShared(c, slot, patch), i)
  {
    DeliveredNothing(c.conns[i], c.conns[i], true);
    if patch.Some? {
      ToJoinedOnce(c.conns, c.clients, PatchFrame(patch.value), i);
      if i in c.clients && c.conns[i].IsJoined() {
        DeliveredOther(c.conns[i], c.conns[i].RawNow(PatchFrame(patch.value)), true, Bytes(PatchFrame(patch.value)));
      }
    }
  }

  lemma BroadcastPatched(c: RoomContext, i: Id)
    requires Distinct(c.clients) && i in c.conns
    ensures Patched(c, BroadcastPatch(c), i)
  {
    if c.slot.Some? && c.filter.Some? {
      PatchViewsPatched(c, c.clients, i);
    } else if c.slot.Some? {
      SharedPatched(c, SlotDiff(c.slot.value).0, SlotDiff(c.slot.value).1, i);
    } else {
      DeliveredNothing(c.conns[i], c.conns[i], true);
    }
  }

  /** Calls that send nothing but closes. */
  predicate IsSilent(call: Call) { !call.SendTo? && !call.Broadcast? && !call.CallBroadcastPatch? }

  ghost predicate SameQueues(c: RoomContext, d: RoomContext, i: Id) {
    i in c.conns && i in d.conns && d.conns[i].outbox == c.conns[i].outbox && d.conns[i].pending == c.conns[i].pending
  }

  lemma AllowSends(c: RoomContext, conn: Id, expiresAt: Option<int>, never: int, i: Id)
    requires i in c.conns && conn in c.conns
    ensures SameQueues(c, Allow(c, conn, expiresAt, never), i)
  {
  }

  lemma SilentCallSends(c: RoomContext, call: Call, i: Id)
    requires i in c.conns && IsSilent(call) && !(call.LeaveClient? && call.conn == i)
    ensures SameQueues(c, DoCall(c, call), i)
  {
    match call
    case RemoveClient(sid) => assert Forget(c, sid).conns == c.conns;
    case AllowReconnection(conn, expiresAt, never) => if conn in c.conns { AllowSends(c, conn, expiresAt, never, i); }
    case LeaveClient(conn, code) =>
    case SetUserData(conn, data) =>
    case _ => if TouchesListing(call) || call.SetMaxClients? { SyncElsewhere(c, call); } else { StateElsewhere(c, call); }
  }

  lemma CallKeepsDistinct(c: RoomContext, call: Call)
    requires Distinct(c.clients)
    ensures Distinct(DoCall(c, call).clients)
  {
    if call.CallBroadcastPatch? { BroadcastKeepsCore(c); }
  }

  lemma SendDelivers(c: RoomContext, conn: Id, payload: Json, i: Id)
    requires i in c.conns
    ensures var d, sent := DoCall(c, SendTo(conn, payload)), if conn == i then [payload] else [];
            i in d.conns && Delivered(c.conns[i], d.conns[i], i in c.clients, sent, sent)
  {
    if conn == i {
      DeliverDelivers(c.conns[i], payload, i in c.clients);
    } else {
      DeliveredNothing(c.conns[i], c.conns[i], i in c.clients);
    }
  }

  lemma CallDelivers(c: RoomContext, call: Call, i: Id)
    requires Distinct(c.clients) && i in c.conns && !Leaves([call], i)
    ensures var d := DoCall(c, call);
            Distinct(d.clients) && i in d.conns && Delivered(c.conns[i], d.conns[i], i in c.clients, SentBy(call, i, false), SentBy(call, i, true))
  {
    OneOf(call, i, "");
    CallKeepsDistinct(c, call);
    if IsSilent(call) {
      SilentCallSends(c, call, i);
      DeliveredNothing(c.conns[i], DoCall(c, call).conns[i], i in c.clients);
    } else if call.SendTo? {
      SendDelivers(c, call.conn, call.payload, i);
    } else if call.Broadcast? {
      BroadcastDelivers(c, call.payload, i);
    } else {
      BroadcastPatched(c, i);
    }
  }

  /** Every message of a hook reaches a client once and in the order of the calls, at once or when it is let in. */
  lemma {:induction false} CallsDeliver(c: RoomContext, calls: seq<Call>, i: Id)
    requires Distinct(c.clients) && i in c.conns && !Leaves(calls, i) && (c.conns[i].token == "" || !Allows(calls, i))
    requires !Removes(calls, c.conns[i].sessionId)
    ensures var d := DoCalls(c, calls);
            i in d.conns && Delivered(c.conns[i], d.conns[i], i in c.clients, Sent(calls, i, false), Sent(calls, i, true))
    decreases |calls|
  {
    if calls == [] {
      DeliveredNothing(c.conns[i], c.conns[i], i in c.clients);
    } else {
      assert calls == [calls[0]] + calls[1..];
      CallsCons(calls[0], calls[1..], i, c.conns[i].sessionId);
      var mid := DoCall(c, calls[0]);
      CallDelivers(c, calls[0], i);
      CallAfter(c, calls[0], i);
      CallsDeliver(mid, calls[1..], i);
      DeliveredTransitive(c.conns[i], mid.conns[i], DoCalls(c, calls).conns[i], i in c.clients,
                          SentBy(calls[0], i, false), Sent(calls[1..], i, false), SentBy(calls[0], i, true), Sent(calls[1..], i, true));
    }
  }

  /** What is held back does not depend on the list of clients. */
  lemma CallHoldsBack(c: RoomContext, call: Call, i: Id)
    requires i in c.conns && IsHeldBack(c.conns[i]) && !Leaves([call], i)
    ensures var d := DoCall(c, call); i in d.conns && HoldsBack(c.conns[i], d.conns[i], SentBy(call, i, false))
  {
    OneOf(call, i, "");
    HoldsBackNothing(c.conns[i]);
    if IsSilent(call) {
      SilentCallSends(c, call, i);
    } else if call.SendTo? {
      SendDelivers(c, call.conn, call.payload, i);
    } else if call.Broadcast? {
      ToJoinedHooks(c.conns, c.clients, DataFrame(call.payload), i);
    } else {
      BroadcastHooks(c, i);
    }
  }

  /** What is held back grows by these messages, and nothing is sent. */
  ghost predicate HoldsBack(a: Client, b: Client, sent: seq<Json>) {
    b.pending == a.pending + Messages(sent) && b.outbox == a.outbox
  }

  lemma HoldsBackNothing(a: Client)
    ensures HoldsBack(a, a, [])
  {
    assert a.pending + Messages([]) == a.pending;
  }

  lemma HoldsBackMore(a: Client, b: Client, c: Client, x: seq<Json>, y: seq<Json>)
    requires HoldsBack(a, b, x) && HoldsBack(b, c, y)
    ensures HoldsBack(a, c, x + y)
  {
    assert a.pending + Messages(x) + Messages(y) == a.pending + Messages(x + y);
  }

  lemma {:induction false} HeldBackGrows(c: RoomContext, calls: seq<Call>, i: Id)
    requires i in c.conns && IsHeldBack(c.conns[i]) && c.conns[i].token == "" && !Leaves(calls, i)
    ensures var d := DoCalls(c, calls); i in d.conns && HoldsBack(c.conns[i], d.conns[i], Sent(calls, i, false))
    decreases |calls|
  {
    if calls == [] {
      HoldsBackNothing(c.conns[i]);
    } else {
      assert calls == [calls[0]] + calls[1..];
      CallsCons(calls[0], calls[1..], i, c.conns[i].sessionId);
      var mid := DoCall(c, calls[0]);
      CallAfter(c, calls[0], i);
      CallHoldsBack(c, calls[0], i);
      HeldBackGrows(mid, calls[1..], i);
      HoldsBackMore(c.conns[i], mid.conns[i], DoCalls(c, calls).conns[i], SentBy(calls[0], i, false), Sent(calls[1..], i, false));
    }
  }
}
