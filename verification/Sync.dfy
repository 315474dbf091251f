/** The replica protocol: what a client holds after folding the frames queued to it. */
module Sync {
  import opened Json
  import opened JsonPatch
  import opened Diff
  import opened Room
  import opened RoomInvariant

  // ------------------------------------------------------------------
  // The replica
  // ------------------------------------------------------------------

  /** The state a client holds after the frames in its outbox: ROOM_STATE sets it, ROOM_STATE_PATCH patches it. */
  function Held(out: seq<Outbound>): Option<Json>
    decreases |out|
  {
    if out == [] then None
    else Receive(Held(out[..|out| - 1]), out[|out| - 1])
  }

  function Receive(held: Option<Json>, o: Outbound): Option<Json> {
    match o
    case Bytes(StateFrame(s)) => Some(s)
    case Bytes(PatchFrame(p)) => if held.Some? then ApplyPatch(held.value, p) else None
    case _ => held
  }

  ghost predicate IsDiffFrom(held: Json, patch: seq<PatchOp>) { exists view :: patch == DiffPatch(held, view) }

  /** Since the last full state, every patch was computed from what the client held when it was queued. */
  ghost predicate Diffed(out: seq<Outbound>)
    decreases |out|, 0
  {
    out == [] || DiffedBy(out[..|out| - 1], out[|out| - 1])
  }

  ghost predicate DiffedBy(out: seq<Outbound>, o: Outbound)
    decreases |out|, 1
  {
    match o
    case Bytes(StateFrame(_)) => true
    case Bytes(PatchFrame(p)) => Diffed(out) && Held(out).Some? && IsDiffFrom(Held(out).value, p)
    case _ => Diffed(out)
  }

  predicate IsData(f: Frame) { f.DataFrame? }

  predicate DataOnly(frames: seq<Frame>) { forall f :: f in frames ==> IsData(f) }

  lemma HeldAppend(out: seq<Outbound>, o: Outbound)
    ensures Held(out + [o]) == Receive(Held(out), o)
    ensures Diffed(out + [o]) <==> DiffedBy(out, o)
  {
    assert (out + [o])[..|out|] == out;
  }

  lemma {:induction false} HeldFlush(out: seq<Outbound>, frames: seq<Frame>)
    requires DataOnly(frames)
    ensures Held(out + AsBytes(frames)) == Held(out)
    ensures Diffed(out) ==> Diffed(out + AsBytes(frames))
    decreases |frames|
  {
    if frames == [] {
      assert out + AsBytes(frames) == out;
    } else {
      var init, last := frames[..|frames| - 1], frames[|frames| - 1];
      HeldFlush(out, init);
      assert out + AsBytes(frames) == (out + AsBytes(init)) + [Bytes(last)];
      HeldAppend(out + AsBytes(init), Bytes(last));
      assert last in frames && IsData(last);
    }
  }

  /** What the server takes the clients of a session to hold. */
  function Baseline(c: RoomContext, sid: Id): Option<Json> {
    if c.filter.Some? then (if sid in c.views then Some(c.views[sid]) else None)
    else if c.slot.Some? then Some(c.slot.value.snapshot)
    else None
  }

  predicate JoinedHere(c: RoomContext, conn: Id) {
    conn in c.clients && conn in c.conns && c.conns[conn].IsJoined()
  }

  /** Every joined client holds what the server takes it to hold. */
  ghost predicate SyncOk(c: RoomContext) {
    && c.slot.Some?
    && (forall i :: i in c.conns ==> DataOnly(c.conns[i].pending))
    && (forall i :: JoinedHere(c, i) ==> InSync(c, i))
  }

  ghost predicate InSync(c: RoomContext, conn: Id)
    requires conn in c.conns
  {
    && Held(c.conns[conn].outbox) == Baseline(c, c.conns[conn].sessionId) && Baseline(c, c.conns[conn].sessionId).Some?
    && Diffed(c.conns[conn].outbox)
  }

  /** The client holds the current state, or its current view of it. */
  ghost predicate UpToDate(c: RoomContext, conn: Id)
    requires conn in c.conns
  {
    Held(c.conns[conn].outbox) == FullStateFor(c, c.conns[conn])
  }

  // ------------------------------------------------------------------
  // Steps that no replica can notice
  // ------------------------------------------------------------------

  /** The same connection, with nothing new in its state stream and no new claim to have joined. */
  ghost predicate Follows(a: Client, b: Client) {
    && b.sessionId == a.sessionId
    && (DataOnly(a.pending) ==> DataOnly(b.pending))
    && (b.IsJoined() ==> a.IsJoined() && Held(b.outbox) == Held(a.outbox) && (Diffed(a.outbox) ==> Diffed(b.outbox)))
  }

  lemma FollowsQueue(a: Client, o: Outbound)
    requires o.Close? || !(o.frame.StateFrame? || o.frame.PatchFrame?)
    ensures Follows(a, a.Queue(o))
  {
    HeldAppend(a.outbox, o);
  }

  lemma FollowsDeliver(a: Client, payload: Json)
    ensures Follows(a, a.Deliver(DataFrame(payload)))
  {
    FollowsQueue(a, Bytes(DataFrame(payload)));
  }

  /** A joined client of the new context was a joined client of the old one, and neither side noticed the step. */
  ghost predicate Quiet(c: RoomContext, d: RoomContext) {
    && d.filter == c.filter && (c.slot.Some? ==> d.slot.Some?)
    && (forall i :: JoinedHere(d, i) && i in c.conns ==> Follows(c.conns[i], d.conns[i]))
    && (forall i :: i in d.conns ==> (i in c.conns ==> DataOnly(c.conns[i].pending)) ==> DataOnly(d.conns[i].pending))
    && (forall i :: JoinedHere(d, i) ==> i in c.clients && i in c.conns && Baseline(d, d.conns[i].sessionId) == Baseline(c, d.conns[i].sessionId))
  }

  lemma QuietKeepsSync(c: RoomContext, d: RoomContext)
    requires SyncOk(c) && Quiet(c, d)
    ensures SyncOk(d)
  {
    forall i | JoinedHere(d, i) ensures InSync(d, i) {
      assert Follows(c.conns[i], d.conns[i]);
      assert JoinedHere(c, i) && InSync(c, i);
    }
  }

  lemma QuietTransitive(c: RoomContext, d: RoomContext, e: RoomContext)
    requires Quiet(c, d) && Quiet(d, e) && d.conns.Keys >= c.conns.Keys
    ensures Quiet(c, e)
  {
  }

  /** Only one handle changes, and quietly. */
  lemma WithClientQuiet(c: RoomContext, conn: Id, client: Client)
    requires conn in c.conns && Follows(c.conns[conn], client)
    ensures Quiet(c, WithClient(c, conn, client))
  {
  }

  /** Fields that no client and no baseline depends on. */
  lemma BookkeepingQuiet(c: RoomContext, d: RoomContext)
    requires d.conns == c.conns && d.filter == c.filter && d.views == c.views
    requires c.slot.Some? ==> d.slot.Some? && (c.filter.Some? || d.slot.value.snapshot == c.slot.value.snapshot)
    requires c.slot.None? && c.filter.None? ==> d.slot == c.slot
    requires forall i :: i in d.clients ==> i in c.clients || i !in c.conns || !c.conns[i].IsJoined()
    ensures Quiet(c, d)
  {
  }

  /** Unlisting a session, with its view. */
  lemma UnlistQuiet(c: RoomContext, d: RoomContext, sid: Id)
    requires d.conns == c.conns && d.filter == c.filter && d.slot == c.slot && d.views == c.views - {sid}
    requires forall i :: i in d.clients ==> i in c.clients && Session(c, i) != sid
    ensures Quiet(c, d)
  {
  }

  lemma {:induction false} DataToJoined(conns: map<Id, Client>, list: seq<Id>, payload: Json)
    ensures ToJoined(conns, list, DataFrame(payload)).Keys == conns.Keys
    ensures forall i :: i in conns ==> Follows(conns[i], ToJoined(conns, list, DataFrame(payload))[i])
    decreases |list|
  {
    if list != [] {
      var next := if list[0] in conns && conns[list[0]].IsJoined() then conns[list[0] := conns[list[0]].RawNow(DataFrame(payload))] else conns;
      if list[0] in conns { FollowsQueue(conns[list[0]], Bytes(DataFrame(payload))); }
      DataToJoined(next, list[1..], payload);
    }
  }

  lemma BroadcastDataQuiet(c: RoomContext, payload: Json)
    ensures Quiet(c, DoCall(c, Broadcast(payload)))
  {
    DataToJoined(c.conns, c.clients, payload);
  }

  // ------------------------------------------------------------------
  // The shared patch
  // ------------------------------------------------------------------

  /** The patch of a slot that changed is never empty: the branch for that case is dead. */
  lemma SlotDiffPatches(slot: StateSlot)
    ensures SlotDiff(slot).0 == StateSlot(slot.typed, slot.typed)
    ensures SlotDiff(slot).1.None? <==> slot.typed == slot.snapshot
    ensures SlotDiff(slot).1.Some? ==> ApplyPatch(slot.snapshot, SlotDiff(slot).1.value) == Some(slot.typed)
    ensures SlotDiff(slot).1.Some? ==> IsDiffFrom(slot.snapshot, SlotDiff(slot).1.value)
  {
    DiffPatchEmptyIffEqual(slot.snapshot, slot.typed);
    DiffPatchApplies(slot.snapshot, slot.typed);
  }

  lemma {:induction false} ToJoinedEffect(conns: map<Id, Client>, list: seq<Id>, frame: Frame)
    requires Distinct(list)
    ensures ToJoined(conns, list, frame).Keys == conns.Keys
    ensures forall i :: i in conns ==>
              ToJoined(conns, list, frame)[i] == if i in list && conns[i].IsJoined() then conns[i].RawNow(frame) else conns[i]
    decreases |list|
  {
    if list != [] {
      var next := if list[0] in conns && conns[list[0]].IsJoined() then conns[list[0] := conns[list[0]].RawNow(frame)] else conns;
      assert list == [list[0]] + list[1..];
      ToJoinedEffect(next, list[1..], frame);
    }
  }

  /** Sending the patch to everybody who joined moves every replica from the old baseline to the new one. */
  lemma SendSharedKeepsSync(c: RoomContext, slot: StateSlot, patch: Option<seq<PatchOp>>)
    requires SyncOk(c) && c.filter.None? && Distinct(c.clients)
    requires patch.None? ==> slot.snapshot == c.slot.value.snapshot
    requires patch.Some? ==> ApplyPatch(c.slot.value.snapshot, patch.value) == Some(slot.snapshot)
    requires patch.Some? ==> IsDiffFrom(c.slot.value.snapshot, patch.value)
    ensures SyncOk(SendShared(c, slot, patch))
  {
    var d := SendShared(c, slot, patch);
    if patch.Some? {
      ToJoinedEffect(c.conns, c.clients, PatchFrame(patch.value));
      forall i | JoinedHere(d, i) ensures InSync(d, i) {
        assert JoinedHere(c, i) && InSync(c, i);
        HeldAppend(c.conns[i].outbox, Bytes(PatchFrame(patch.value)));
      }
    } else {
      forall i | JoinedHere(d, i) ensures InSync(d, i) {
        assert JoinedHere(c, i) && InSync(c, i);
      }
    }
  }

  // ------------------------------------------------------------------
  // The patch of one view
  // ------------------------------------------------------------------

  function ViewOf(c: RoomContext, conn: Id): Json
    requires c.slot.Some? && c.filter.Some? && conn in c.conns
  {
    c.filter.value(c.slot.value.typed, c.conns[conn].Info())
  }

  /** A joined client's view is always on record, so its patch is computed from what it holds. */
  lemma JoinedHasView(c: RoomContext, conn: Id)
    requires SyncOk(c) && c.filter.Some? && JoinedHere(c, conn)
    ensures c.conns[conn].sessionId in c.views && Held(c.conns[conn].outbox) == Some(c.views[c.conns[conn].sessionId])
    ensures Diffed(c.conns[conn].outbox)
  {
    assert InSync(c, conn);
  }

  /** One client is brought to its view; everybody else is left alone. */
  ghost predicate ViewPatched(c: RoomContext, d: RoomContext, conn: Id)
    requires c.slot.Some? && c.filter.Some? && conn in c.conns
  {
    && d.filter == c.filter && d.slot == c.slot && d.clients == c.clients && d.conns.Keys == c.conns.Keys
    && (forall i :: i in c.conns && i != conn ==> d.conns[i] == c.conns[i])
    && (forall s :: s != c.conns[conn].sessionId ==> (s in d.views <==> s in c.views) && (s in c.views ==> d.views[s] == c.views[s]))
    && d.conns[conn] == c.conns[conn].(outbox := d.conns[conn].outbox)
    && c.conns[conn].sessionId in d.views && d.views[c.conns[conn].sessionId] == ViewOf(c, conn)
    && Held(d.conns[conn].outbox) == Some(ViewOf(c, conn)) && Diffed(d.conns[conn].outbox)
  }

  lemma ViewPatchedFrom(c: RoomContext, d: RoomContext, conn: Id, out: seq<Outbound>)
    requires c.slot.Some? && c.filter.Some? && conn in c.conns
    requires d == c.(views := c.views[c.conns[conn].sessionId := ViewOf(c, conn)], conns := c.conns[conn := c.conns[conn].(outbox := out)])
    requires Held(out) == Some(ViewOf(c, conn)) && Diffed(out)
    ensures ViewPatched(c, d, conn)
  {
  }

  lemma PatchQueued(out: seq<Outbound>, held: Json, view: Json, ops: seq<PatchOp>)
    requires Held(out) == Some(held) && Diffed(out) && ApplyPatch(held, ops) == Some(view) && IsDiffFrom(held, ops)
    ensures Held(out + [Bytes(PatchFrame(ops))]) == Some(view) && Diffed(out + [Bytes(PatchFrame(ops))])
  {
    HeldAppend(out, Bytes(PatchFrame(ops)));
  }

  lemma HoldViewPatches(c: RoomContext, conn: Id, held: Json, view: Json, ops: seq<PatchOp>)
    requires c.slot.Some? && c.filter.Some? && conn in c.conns && view == ViewOf(c, conn)
    requires Held(c.conns[conn].outbox) == Some(held) && Diffed(c.conns[conn].outbox)
    requires ApplyPatch(held, ops) == Some(view) && IsDiffFrom(held, ops) && (ops == [] ==> held == view)
    ensures ViewPatched(c, HoldView(c, conn, held, view, ops), conn)
  {
    var client := c.conns[conn];
    if held == view || ops == [] {
      assert c.conns[conn := client.(outbox := client.outbox)] == c.conns;
      ViewPatchedFrom(c, HoldView(c, conn, held, view, ops), conn, client.outbox);
    } else {
      PatchQueued(client.outbox, held, view, ops);
      ViewPatchedFrom(c, HoldView(c, conn, held, view, ops), conn, client.outbox + [Bytes(PatchFrame(ops))]);
    }
  }

  lemma PatchViewPatches(c: RoomContext, conn: Id)
    requires SyncOk(c) && c.filter.Some? && JoinedHere(c, conn)
    ensures ViewPatched(c, PatchView(c, conn), conn)
  {
    var sid, view := c.conns[conn].sessionId, ViewOf(c, conn);
    JoinedHasView(c, conn);
    DiffPatchApplies(c.views[sid], view);
    DiffPatchEmptyIffEqual(c.views[sid], view);
    HoldViewPatches(c, conn, c.views[sid], view, DiffPatch(c.views[sid], view));
  }

  ghost predicate SessionsApart(c: RoomContext) {
    forall i, j :: JoinedHere(c, i) && JoinedHere(c, j) && c.conns[i].sessionId == c.conns[j].sessionId ==> i == j
  }

  /** Patching one view keeps every replica in sync, and those already up to date stay so. */
  lemma ViewPatchedKeepsSync(c: RoomContext, d: RoomContext, conn: Id)
    requires SyncOk(c) && SessionsApart(c) && c.filter.Some? && JoinedHere(c, conn) && ViewPatched(c, d, conn)
    ensures SyncOk(d) && SessionsApart(d) && UpToDate(d, conn)
    ensures forall i :: JoinedHere(d, i) <==> JoinedHere(c, i)
    ensures forall i :: JoinedHere(c, i) && UpToDate(c, i) ==> UpToDate(d, i)
  {
    forall i | JoinedHere(d, i) ensures InSync(d, i) {
      assert JoinedHere(c, i) && InSync(c, i);
    }
  }

  /** After all views are patched, everybody who joined holds its own view of the current state. */
  lemma {:induction false} PatchViewsKeepsSync(c: RoomContext, list: seq<Id>)
    requires SyncOk(c) && SessionsApart(c) && c.filter.Some?
    requires forall i :: i in list ==> i in c.clients
    ensures var d := PatchViews(c, list);
            && SyncOk(d) && d.filter == c.filter
            && (forall i :: JoinedHere(d, i) <==> JoinedHere(c, i))
            && (forall i :: JoinedHere(c, i) && (i in list || UpToDate(c, i)) ==> UpToDate(d, i))
    decreases |list|
  {
    if list != [] {
      var d := PatchView(c, list[0]);
      if JoinedHere(c, list[0]) {
        PatchViewPatches(c, list[0]);
        ViewPatchedKeepsSync(c, d, list[0]);
      }
      PatchViewsKeepsSync(d, list[1..]);
      assert forall i :: i in list ==> i == list[0] || i in list[1..];
    }
  }

  /**
   * Right after a patch broadcast every joined client holds the current state, through its view
   * filter when there is one; and nobody's replica ever fails to apply its patch.
   */
  lemma BroadcastBringsUpToDate(c: RoomContext)
    requires SyncOk(c) && SessionsApart(c) && Distinct(c.clients)
    ensures var d := BroadcastPatch(c);
            && SyncOk(d) && forall i :: JoinedHere(d, i) ==> UpToDate(d, i)
  {
    if c.filter.Some? {
      PatchViewsKeepsSync(c, c.clients);
      var d := BroadcastPatch(c);
      PatchViewsKeepsCore(c, c.clients);
      assert forall i :: JoinedHere(d, i) ==> i in c.clients;
    } else {
      SlotDiffPatches(c.slot.value);
      SendSharedKeepsSync(c, SlotDiff(c.slot.value).0, SlotDiff(c.slot.value).1);
      InSyncIsUpToDate(BroadcastPatch(c));
    }
  }

  lemma InSyncIsUpToDate(c: RoomContext)
    requires SyncOk(c) && c.filter.None? && c.slot.value.snapshot == c.slot.value.typed
    ensures forall i :: JoinedHere(c, i) ==> UpToDate(c, i)
  {
    forall i | JoinedHere(c, i) ensures UpToDate(c, i) { assert InSync(c, i); }
  }

  // ------------------------------------------------------------------
  // Hooks
  // ------------------------------------------------------------------

  /** With one shared patch stream the baseline must not be reset under joined clients. */
  predicate Resets(c: RoomContext, calls: seq<Call>) {
    c.filter.None? && exists call :: call in calls && call.SetState?
  }

  lemma ForgetQuiet(c: RoomContext, sid: Id)
    ensures Quiet(c, Forget(c, sid))
  {
    UnlistQuiet(c, Forget(c, sid), sid);
  }

  lemma AllowQuiet(c: RoomContext, conn: Id, expiresAt: Option<int>, never: int)
    requires conn in c.conns
    ensures Quiet(c, Allow(c, conn, expiresAt, never))
  {
    var d, paused := Allow(c, conn, expiresAt, never), c.conns[conn].(state := Reconnecting);
    BookkeepingQuiet(c, c);
    if d != c {
      WithClientQuiet(c, conn, paused);
      var c1 := WithClient(c, conn, paused);
      BookkeepingQuiet(c1, d);
      QuietTransitive(c, c1, d);
    }
  }

  lemma HandleCallQuiet(c: RoomContext, call: Call)
    requires call.LeaveClient? || call.SetUserData? || call.SendTo?
    ensures Quiet(c, DoCall(c, call))
  {
    if call.conn in c.conns {
      var client := c.conns[call.conn];
      match call
      case LeaveClient(conn, code) => WithClientQuiet(c, conn, client.Leave(code));
      case SetUserData(conn, data) => WithClientQuiet(c, conn, client.(userData := Some(data)));
      case SendTo(conn, payload) =>
        FollowsDeliver(client, payload);
        WithClientQuiet(c, conn, client.Deliver(DataFrame(payload)));
    } else {
      BookkeepingQuiet(c, c);
    }
  }

  lemma ListingCallQuiet(c: RoomContext, call: Call)
    requires TouchesListing(call) || call.SetMaxClients?
    ensures Quiet(c, DoCall(c, call))
  {
    BookkeepingQuiet(c, DoCall(c, call));
  }

  lemma MutateQuiet(c: RoomContext, call: Call)
    requires c.slot.Some? && (call.MutateState? || call.Disconnect?)
    ensures Quiet(c, DoCall(c, call))
  {
    BookkeepingQuiet(c, DoCall(c, call));
  }

  /** With a filter the views are the baselines, so even a new state is not noticed before the next patch. */
  lemma SetStateQuiet(c: RoomContext, state: Json)
    requires c.filter.Some?
    ensures Quiet(c, DoCall(c, SetState(state)))
  {
    BookkeepingQuiet(c, DoCall(c, SetState(state)));
  }

  lemma CallKeepsSync(c: RoomContext, call: Call)
    requires SyncOk(c) && ClientsOk(c) && !(c.filter.None? && call.SetState?)
    ensures SyncOk(DoCall(c, call)) && DoCall(c, call).filter == c.filter
  {
    match call
    case CallBroadcastPatch =>
      BroadcastKeepsCore(c);
      BroadcastBringsUpToDate(c);
    case RemoveClient(sid) => ForgetQuiet(c, sid); QuietKeepsSync(c, DoCall(c, call));
    case AllowReconnection(conn, expiresAt, never) =>
      if conn in c.conns { AllowQuiet(c, conn, expiresAt, never); QuietKeepsSync(c, DoCall(c, call)); }
    case Broadcast(payload) => BroadcastDataQuiet(c, payload); QuietKeepsSync(c, DoCall(c, call));
    case SetState(state) => SetStateQuiet(c, state); QuietKeepsSync(c, DoCall(c, call));
    case _ =>
      if call.LeaveClient? || call.SetUserData? || call.SendTo? {
        HandleCallQuiet(c, call);
      } else if TouchesListing(call) || call.SetMaxClients? {
        ListingCallQuiet(c, call);
      } else {
        MutateQuiet(c, call);
      }
      QuietKeepsSync(c, DoCall(c, call));
  }

  /** Any hook body keeps every joined client in sync. */
  lemma {:induction false} CallsKeepSync(c: RoomContext, calls: seq<Call>, tomb: Option<Id>, leaving: Option<Id>)
    requires Inv(c, tomb, leaving) && LegalCalls(c, calls, leaving) && SyncOk(c) && !Resets(c, calls)
    ensures SyncOk(DoCalls(c, calls)) && DoCalls(c, calls).filter == c.filter
    decreases |calls|
  {
    if calls != [] {
      CallKeepsInv(c, calls[0], tomb, leaving);
      CallKeepsSync(c, calls[0]);
      assert forall call :: call in calls[1..] ==> call in calls;
      CallsKeepSync(DoCall(c, calls[0]), calls[1..], tomb, leaving);
    }
  }
}
