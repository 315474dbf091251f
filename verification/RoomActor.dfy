/** The room actor as it runs: one method per event, changing the context step by step. */
module RoomActor {
  import opened Json
  import opened JsonPatch
  import PatchBuilder
  import Room
  import opened Snapshot
  import A = Actor
  import ActorInvariant
  import RoomInvariant
  import ActorRuns
  import E = EventEffects
  import L = LeaveEffects
  import RoomEffects
  import RateLimit

  type Id = Room.Id
  type RoomContext = Room.RoomContext
  type Client = Room.Client
  type Call = Room.Call

  class RoomActor {
    var ctx: RoomContext

    /** Between events the room is as the actor's invariant says. */
    ghost predicate Valid()
      reads this
    {
      RoomInvariant.Inv(ctx, None, None)
    }

    constructor (c: RoomContext)
      ensures ctx == c
    {
      ctx := c;
    }

    // ----------------------------------------------------------------
    // The context
    // ----------------------------------------------------------------

    method SetClient(conn: Id, client: Client)
      modifies this
      ensures ctx == Room.WithClient(old(ctx), conn, client)
    {
      ctx := ctx.(conns := ctx.conns[conn := client]);
    }

    method SyncListing()
      modifies this
      ensures ctx == Room.SyncListing(old(ctx))
    {
      if ctx.driver.Some? {
        ctx := ctx.(driver := Some(Room.BuildListing(ctx)));
      }
    }

    method RemoveClient(sid: Id)
      modifies this
      ensures ctx == Room.Forget(old(ctx), sid)
    {
      ctx := ctx.(clients := Room.Others(ctx, ctx.clients, sid));
      ctx := ctx.(reconnections := map t | t in ctx.reconnections && ctx.reconnections[t].sessionId != sid :: ctx.reconnections[t]);
      ctx := ctx.(seats := ctx.seats - {sid});
      ctx := ctx.(views := ctx.views - {sid});
      SyncListing();
    }

    method AllowReconnection(conn: Id, expiresAt: Option<int>, never: int) returns (granted: bool)
      requires conn in ctx.conns
      modifies this
      ensures ctx == Room.Allow(old(ctx), conn, expiresAt, never)
      ensures granted <==> !old(ctx).disposing && Room.Token(old(ctx), conn) != "" && Room.Token(old(ctx), conn) !in old(ctx).reconnections
    {
      if ctx.disposing {
        return false;
      }
      var client := ctx.conns[conn];
      var token := client.token;
      if token == "" || token in ctx.reconnections {
        return false;
      }
      SetClient(conn, client.(state := Room.Reconnecting));
      ctx := ctx.(reconnections := ctx.reconnections[token := Room.Reconnection(client.sessionId, conn, expiresAt)]);
      ctx := ctx.(seats := ctx.seats[client.sessionId :=
                      Room.Seat(Null, client.auth, false, true, if expiresAt.Some? then expiresAt.value else never)]);
      return true;
    }

    /** One client's part of a broadcast with views. */
    method PatchClient(conn: Id)
      requires ctx.slot.Some? && ctx.filter.Some?
      modifies this
      ensures ctx == Room.PatchView(old(ctx), conn)
    {
      if conn in ctx.conns && ctx.conns[conn].IsJoined() {
        var client := ctx.conns[conn];
        var sid := client.sessionId;
        var view := ctx.filter.value(ctx.slot.value.typed, client.Info());
        if sid !in ctx.views {
          ctx := ctx.(views := ctx.views[sid := view]);
        }
        var held := ctx.views[sid];
        if held != view {
          var ops := PatchBuilder.ComputeDiff(held, view);
          ctx := ctx.(views := ctx.views[sid := view]);
          if ops != [] {
            SetClient(conn, client.RawNow(Room.PatchFrame(ops)));
          }
        } else {
          assert ctx.views[sid := view] == ctx.views;
        }
      }
    }

    /** `StateSlot::diff`, on the stored slot. */
    method DiffSlot() returns (patch: Option<seq<PatchOp>>)
      requires ctx.slot.Some?
      modifies this
      ensures ctx == old(ctx).(slot := Some(Room.SlotDiff(old(ctx).slot.value).0))
      ensures patch == Room.SlotDiff(old(ctx).slot.value).1
    {
      var slot := ctx.slot.value;
      if slot.typed == slot.snapshot {
        return None;
      }
      var ops := PatchBuilder.ComputeDiff(slot.snapshot, slot.typed);
      ctx := ctx.(slot := Some(slot.(snapshot := slot.typed)));
      patch := if ops == [] then None else Some(ops);
    }

    /** Queue a frame to everybody who has joined. */
    method SendToJoined(frame: Room.Frame)
      modifies this
      ensures ctx == old(ctx).(conns := Room.ToJoined(old(ctx).conns, old(ctx).clients, frame))
    {
      var i := 0;
      while i < |ctx.clients|
        invariant i <= |ctx.clients| && ctx == old(ctx).(conns := ctx.conns)
        invariant Room.ToJoined(ctx.conns, ctx.clients[i..], frame) == Room.ToJoined(old(ctx).conns, old(ctx).clients, frame)
      {
        var conn := ctx.clients[i];
        assert ctx.clients[i..][0] == conn && ctx.clients[i..][1..] == ctx.clients[i + 1..];
        if conn in ctx.conns && ctx.conns[conn].IsJoined() {
          SetClient(conn, ctx.conns[conn].RawNow(frame));
        }
        i := i + 1;
      }
    }

    method BroadcastPatch()
      modifies this
      ensures ctx == Room.BroadcastPatch(old(ctx))
    {
      if ctx.slot.Some? && ctx.filter.Some? {
        var i := 0;
        while i < |ctx.clients|
          invariant ctx.slot.Some? && ctx.filter.Some? && i <= |ctx.clients|
          invariant Room.PatchViews(ctx, ctx.clients[i..]) == Room.PatchViews(old(ctx), old(ctx).clients)
          decreases |ctx.clients| - i
        {
          assert ctx.clients[i..][0] == ctx.clients[i] && ctx.clients[i..][1..] == ctx.clients[i + 1..];
          PatchClient(ctx.clients[i]);
          i := i + 1;
        }
      } else if ctx.slot.Some? {
        var patch := DiffSlot();
        if patch.Some? {
          SendToJoined(Room.PatchFrame(patch.value));
        }
      }
    }

    method Lock()
      modifies this
      ensures ctx == Room.DoCall(old(ctx), Room.Call.Lock)
    {
      if !ctx.locked {
        ctx := ctx.(locked := true);
        SyncListing();
      }
    }

    method Unlock()
      modifies this
      ensures ctx == Room.DoCall(old(ctx), Room.Call.Unlock)
    {
      if ctx.locked {
        ctx := ctx.(locked := false);
        SyncListing();
      }
    }

    method SetPrivate(isPrivate: bool)
      modifies this
      ensures ctx == Room.DoCall(old(ctx), Room.SetPrivate(isPrivate))
    {
      ctx := ctx.(isPrivate := isPrivate);
      SyncListing();
    }

    method SetMetadata(metadata: Json)
      modifies this
      ensures ctx == Room.DoCall(old(ctx), Room.SetMetadata(metadata))
    {
      ctx := ctx.(metadata := Some(metadata));
      SyncListing();
    }

    method SetMaxClients(max: Option<nat>)
      modifies this
      ensures ctx == Room.DoCall(old(ctx), Room.SetMaxClients(max))
    {
      ctx := ctx.(maxClients := max);
      SyncListing();
    }

    method DoCall(call: Call)
      modifies this
      ensures ctx == Room.DoCall(old(ctx), call)
    {
      match call
      case RemoveClient(sid) => RemoveClient(sid);
      case AllowReconnection(conn, expiresAt, never) =>
        if conn in ctx.conns { var granted := AllowReconnection(conn, expiresAt, never); }
      case LeaveClient(conn, code) => if conn in ctx.conns { SetClient(conn, ctx.conns[conn].Leave(code)); }
      case SetUserData(conn, data) => if conn in ctx.conns { SetClient(conn, ctx.conns[conn].(userData := Some(data))); }
      case SendTo(conn, payload) => if conn in ctx.conns { SetClient(conn, ctx.conns[conn].Deliver(Room.DataFrame(payload))); }
      case Broadcast(payload) => SendToJoined(Room.DataFrame(payload));
      case Lock => Lock();
      case Unlock => Unlock();
      case SetPrivate(p) => SetPrivate(p);
      case SetMetadata(m) => SetMetadata(m);
      case SetMaxClients(m) => SetMaxClients(m);
      case Disconnect(code) => ctx := ctx.(requestDispose := Some(code));
      case MutateState(s) => if ctx.slot.Some? { ctx := ctx.(slot := Some(ctx.slot.value.(typed := s))); }
      case SetState(s) => ctx := ctx.(slot := Some(Room.StateSlot(s, s)));
      case CallBroadcastPatch => BroadcastPatch();
    }

    /** A hook body runs to its end before the next event is taken. */
    method RunHook(calls: seq<Call>)
      modifies this
      ensures ctx == Room.DoCalls(old(ctx), calls)
    {
      var i := 0;
      while i < |calls|
        invariant i <= |calls|
        invariant Room.DoCalls(ctx, calls[i..]) == Room.DoCalls(old(ctx), calls)
      {
        assert calls[i..][0] == calls[i] && calls[i..][1..] == calls[i + 1..];
        DoCall(calls[i]);
        i := i + 1;
      }
    }

    // ----------------------------------------------------------------
    // Events
    // ----------------------------------------------------------------

    method OnReserveSeat(sid: Id, options: Json, calls: seq<Call>, auth: A.HookResult, expiresAt: int) returns (ok: bool)
      modifies this
      ensures ctx == A.ReserveSeat(old(ctx), sid, options, calls, auth, expiresAt)
      ensures ok <==> auth.Accepted? && !old(ctx).disposing && !old(ctx).locked && !Room.HasReachedMaxClients(old(ctx))
      ensures ok ==> sid in ctx.seats && Room.IsPending(ctx.seats[sid])
      ensures old(Valid()) && ActorRuns.Permitted(old(ctx), A.EvReserveSeat(sid, options, calls, auth, expiresAt)) ==>
                && Valid() && RoomEffects.ReserveLeads(old(ctx), ctx, sid, options, calls, auth, expiresAt)
                && (ctx.maxClients.Some? ==> Room.Load(ctx) <= ctx.maxClients.value)
    {
      EventLeads(ctx, A.EvReserveSeat(sid, options, calls, auth, expiresAt));
      if ctx.disposing || ctx.locked || Room.HasReachedMaxClients(ctx) {
        return false;
      }
      RunHook(calls);
      match auth
      case Accepted(data) =>
        ctx := ctx.(seats := ctx.seats[sid := Room.Seat(options, data, false, false, expiresAt)], issued := ctx.issued + {sid});
        SyncListing();
        return true;
      case Rejected => return false;
    }

    /** The handshake, as both join paths end with it. */
    method Greet(conn: Id, state: Room.ClientState, token: Id)
      requires conn in ctx.conns
      modifies this
      ensures ctx == A.Welcome(old(ctx), conn, state, token)
    {
      ctx := ctx.(issued := ctx.issued + {token});
      SetClient(conn, ctx.conns[conn].(state := state, token := token).RawNow(Room.JoinFrame(token)));
      var full := Room.FullStateFor(ctx, ctx.conns[conn]);
      if full.Some? {
        ctx := ctx.(views := ctx.views[ctx.conns[conn].sessionId := full.value]);
        SetClient(conn, ctx.conns[conn].RawNow(Room.StateFrame(full.value)));
      }
      SetClient(conn, ctx.conns[conn].FlushPending());
      SyncListing();
    }

    method TakeOver(conn: Id, token: Id)
      requires conn in ctx.conns && A.TokenFits(ctx, token, ctx.conns[conn].sessionId)
      modifies this
      ensures ctx == A.TakeOver(old(ctx), conn, token)
    {
      var sessions, client, sid := ctx, ctx.conns[conn], ctx.conns[conn].sessionId;
      var previous := ctx.reconnections[token].conn;
      ctx := ctx.(accepted := ctx.accepted + [token]);
      ctx := ctx.(reconnections := ctx.reconnections - {token});
      ctx := ctx.(seats := ctx.seats - {sid});
      var held := if previous in ctx.conns then ctx.conns[previous] else client;
      client := client.(auth := held.auth);
      if held.userData.Some? {
        client := client.(userData := held.userData);
      }
      if previous in ctx.conns {
        SetClient(previous, held.(state := Room.Reconnected));
      }
      ctx := ctx.(clients := Room.Replaced(sessions, ctx.clients, sid, conn));
      SetClient(conn, client.(state := Room.Reconnecting));
    }

    method TakeSeat(conn: Id)
      requires conn in ctx.conns && ctx.conns[conn].sessionId in ctx.seats
      modifies this
      ensures ctx == A.TakeSeat(old(ctx), conn)
    {
      var sid := ctx.conns[conn].sessionId;
      var seat := ctx.seats[sid];
      ctx := ctx.(seats := ctx.seats[sid := seat.(consumed := true)]);
      SetClient(conn, ctx.conns[conn].(auth := seat.auth, state := Room.Joining));
      ctx := ctx.(clients := ctx.clients + [conn]);
    }

    method OnConnect(conn: Id, sid: Id, token: Option<Id>, calls: seq<Call>, accepted: bool, newToken: Id)
      modifies this
      ensures ctx == A.Connect(old(ctx), conn, sid, token, calls, accepted, newToken)
      ensures old(Valid()) && ActorRuns.Permitted(old(ctx), A.EvConnect(conn, sid, token, calls, accepted, newToken)) ==>
                Valid() && E.ConnectLeads(old(ctx), ctx, conn, sid, token, calls, accepted, newToken)
    {
      EventLeads(ctx, A.EvConnect(conn, sid, token, calls, accepted, newToken));
      SetClient(conn, Room.NewClient(sid));
      if token.Some? {
        if !A.TokenFits(ctx, token.value, sid) {
          return;
        }
        TakeOver(conn, token.value);
        RunHook(calls);
        if conn in ctx.conns {
          Greet(conn, Room.Reconnected, newToken);
        }
        return;
      }
      if sid !in ctx.seats || ctx.seats[sid].consumed {
        return;
      }
      TakeSeat(conn);
      RunHook(calls);
      if conn in ctx.conns {
        DecideJoin(conn, accepted, newToken);
      }
    }

    method DecideJoin(conn: Id, accepted: bool, newToken: Id)
      requires conn in ctx.conns
      modifies this
      ensures ctx == A.EndJoin(old(ctx), conn, accepted, newToken)
    {
      var sid := ctx.conns[conn].sessionId;
      ctx := ctx.(seats := ctx.seats - {sid});
      var earlyLeave := ctx.conns[conn].state.Leaving?;
      if accepted && !earlyLeave {
        ctx := ctx.(hadClients := true);
        Greet(conn, Room.Joined, newToken);
      } else {
        Refuse(conn);
      }
    }

    method Refuse(conn: Id)
      requires conn in ctx.conns
      modifies this
      ensures ctx == A.Refuse(old(ctx), conn)
    {
      ctx := ctx.(clients := Room.Others(ctx, ctx.clients, ctx.conns[conn].sessionId));
      var told := ctx.conns[conn].RawNow(Room.ErrorFrame);
      SetClient(conn, told.Leave(Room.WITH_ERROR));
      SyncListing();
    }

    /** What follows `on_leave`. */
    method EndLeave(conn: Id, sid: Id, code: Option<nat>)
      modifies this
      ensures ctx == A.EndLeave(old(ctx), conn, sid, code)
    {
      if conn in ctx.conns {
        SetClient(conn, ctx.conns[conn].(state := Room.Closed));
        if code.Some? {
          SetClient(conn, ctx.conns[conn].Leave(code.value));
        }
      }
      ghost var closed := ctx;
      ctx := ctx.(views := ctx.views - {sid});
      ActorInvariant.OthersSame(closed, ctx, ctx.clients, sid);
      ctx := ctx.(clients := Room.Others(ctx, ctx.clients, sid));
      SyncListing();
    }

    method LeaveClient(conn: Id, code: nat, consented: bool, dropCalls: seq<Call>, leaveCalls: seq<Call>)
      requires conn in ctx.conns
      modifies this
      ensures ctx == A.LeaveRoom(old(ctx), conn, code, consented, dropCalls, leaveCalls)
    {
      var state := ctx.conns[conn].state;
      if state.Leaving? || state.Closed? {
        return;
      }
      SetClient(conn, ctx.conns[conn].(state := Room.ClientState.Leaving));
      if !consented && !ctx.disposing {
        RunHook(dropCalls);
      }
      if conn !in ctx.conns {
        return;
      }
      var token, sid := ctx.conns[conn].token, ctx.conns[conn].sessionId;
      if token in ctx.reconnections {
        SetClient(conn, ctx.conns[conn].Queue(Room.Close(code)));
        return;
      }
      ctx := ctx.(left := ctx.left + [sid]);
      RunHook(leaveCalls);
      EndLeave(conn, sid, if consented then Some(code) else None);
    }

    method OnDisconnected(conn: Id, code: nat, dropCalls: seq<Call>, leaveCalls: seq<Call>)
      modifies this
      ensures ctx == A.Disconnected(old(ctx), conn, code, dropCalls, leaveCalls)
      ensures old(Valid()) && ActorRuns.Permitted(old(ctx), A.EvDisconnected(conn, code, dropCalls, leaveCalls)) ==>
                Valid() && E.DisconnectLeads(old(ctx), ctx, conn, code, dropCalls)
    {
      EventLeads(ctx, A.EvDisconnected(conn, code, dropCalls, leaveCalls));
      if conn in ctx.conns {
        var current := Room.FindClient(ctx, ctx.clients, ctx.conns[conn].sessionId);
        if current == Some(conn) {
          LeaveClient(conn, code, false, dropCalls, leaveCalls);
        }
      }
    }

    method OnClientMessage(conn: Id, msg: A.Message)
      modifies this
      ensures ctx == A.ClientMessage(old(ctx), conn, msg)
      ensures old(Valid()) && ActorRuns.Permitted(old(ctx), A.EvMessage(conn, msg)) ==> Valid() && E.MessageLeads(old(ctx), ctx, conn, msg)
    {
      EventLeads(ctx, A.EvMessage(conn, msg));
      if conn !in ctx.conns {
        return;
      }
      var current := Room.FindClient(ctx, ctx.clients, ctx.conns[conn].sessionId);
      if current.None? {
        if msg.Ping? {
          SetClient(conn, ctx.conns[conn].RawNow(Room.PingFrame));
        }
        return;
      }
      if current.value != conn {
        return;
      }
      match msg
      case Ping => SetClient(conn, ctx.conns[conn].RawNow(Room.PingFrame));
      case Leave(calls) => LeaveClient(conn, Room.CONSENTED, true, [], calls);
      case Data(withinRate, calls) =>
        if ctx.conns[conn].IsJoined() && withinRate {
          RunHook(calls);
        }
    }

    /** A message with its rate check: one that is ignored is not counted. */
    method OnData(conn: Id, window: RateLimit.Window, max: Option<nat>, now: int, calls: seq<Call>)
      modifies this, window
      ensures old(Valid()) ==>
                if conn !in old(ctx).clients || !old(ctx).conns[conn].IsJoined() then ctx == old(ctx) && window.rate == old(window.rate)
                else if max.None? then ctx == Room.DoCalls(old(ctx), calls) && window.rate == old(window.rate)
                else
                  && window.rate == RateLimit.Counted(old(window.rate), now)
                  && ctx == if window.rate.count <= max.value then Room.DoCalls(old(ctx), calls) else old(ctx)
    {
      var withinRate := true;
      if A.IsCurrent(ctx, conn) && ctx.conns[conn].IsJoined() {
        withinRate := window.CheckRate(max, now);
      }
      if RoomInvariant.Inv(ctx, None, None) { L.DataOutcome(ctx, conn, withinRate, calls); }
      OnClientMessage(conn, A.Data(withinRate, calls));
    }

    method ExpireToken(token: Id, calls: seq<Call>)
      modifies this
      ensures ctx == A.ExpireToken(old(ctx), token, calls)
    {
      if token in ctx.reconnections {
        var entry := ctx.reconnections[token];
        ctx := ctx.(reconnections := ctx.reconnections - {token});
        ctx := ctx.(seats := ctx.seats - {entry.sessionId});
        ctx := ctx.(left := ctx.left + [entry.sessionId]);
        RunHook(calls);
        EndLeave(entry.conn, entry.sessionId, None);
      }
    }

    method ExpireSeats(now: int)
      modifies this
      ensures ctx == A.ExpireSeats(old(ctx), now)
    {
      var expiredSeats := A.ExpiredSeats(ctx, now);
      if expiredSeats != {} {
        ctx := ctx.(seats := ctx.seats - expiredSeats);
        SyncListing();
      }
    }

    method HandleDeadlines(now: int, expired: seq<A.Expiry>, timerCalls: seq<Call>)
      modifies this
      ensures ctx == A.HandleDeadlines(old(ctx), now, expired, timerCalls)
      ensures old(Valid()) && ActorRuns.Permitted(old(ctx), A.EvDeadlines(now, expired, timerCalls)) ==>
                Valid() && E.DeadlinesLead(old(ctx), ctx, now, expired, timerCalls)
    {
      EventLeads(ctx, A.EvDeadlines(now, expired, timerCalls));
      var i := 0;
      while i < |expired|
        invariant i <= |expired|
        invariant A.ExpireTokens(ctx, expired[i..]) == A.ExpireTokens(old(ctx), expired)
      {
        assert expired[i..][0] == expired[i] && expired[i..][1..] == expired[i + 1..];
        ExpireToken(expired[i].token, expired[i].calls);
        i := i + 1;
      }
      ExpireSeats(now);
      RunHook(timerCalls);
    }

    method HandleEvent(e: A.Event)
      modifies this
      ensures ctx == A.Handle(old(ctx), e)
      ensures old(Valid()) && ActorRuns.Permitted(old(ctx), e) ==> Valid() && E.Leads(old(ctx), e, ctx)
    {
      EventLeads(ctx, e);
      match e
      case EvReserveSeat(sid, options, calls, auth, expiresAt) => var ok := OnReserveSeat(sid, options, calls, auth, expiresAt);
      case EvConnect(conn, sid, token, calls, accepted, newToken) => OnConnect(conn, sid, token, calls, accepted, newToken);
      case EvMessage(conn, msg) => OnClientMessage(conn, msg);
      case EvDisconnected(conn, code, dropCalls, leaveCalls) => OnDisconnected(conn, code, dropCalls, leaveCalls);
      case EvCommand(calls) => RunHook(calls);
      case EvKick(sid) =>
        var found := Room.FindClient(ctx, ctx.clients, sid);
        if found.Some? { DoCall(Room.LeaveClient(found.value, Room.CONSENTED)); }
      case EvHandleClosed(conn, code) => DoCall(Room.LeaveClient(conn, code));
      case EvSetLocked(locked) => DoCall(if locked then Room.Lock else Room.Unlock);
      case EvEditState(s) => DoCall(Room.MutateState(s));
      case EvPatch => BroadcastPatch();
      case EvDeadlines(now, expired, timerCalls) => HandleDeadlines(now, expired, timerCalls);
    }

    /** The actor's loop: one event after the other. */
    method Serve(events: seq<A.Event>)
      modifies this
      ensures ctx == ActorRuns.Run(old(ctx), events)
      ensures old(Valid()) && ActorRuns.PermittedRun(old(ctx), events) ==> Valid()
    {
      ghost var start := ctx;
      var i := 0;
      while i < |events|
        invariant i <= |events| && ActorRuns.Run(ctx, events[i..]) == ActorRuns.Run(start, events)
      {
        assert events[i..][0] == events[i] && events[i..][1..] == events[i + 1..];
        HandleEvent(events[i]);
        i := i + 1;
      }
      RunKeepsInv(start, events);
    }

    // ----------------------------------------------------------------
    // Snapshots and disposal
    // ----------------------------------------------------------------

    /** The clients connected now, whose tokens are saved too. */
    method SaveConnected() returns (out: seq<PersistedReconnection>)
      ensures out == SaveClients(ctx, SavedClients(ctx, ctx.clients))
    {
      var c := ctx;
      out := [];
      var i := 0;
      while i < |c.clients|
        invariant i <= |c.clients|
        invariant out + SaveClients(c, SavedClients(c, c.clients[i..])) == SaveClients(c, SavedClients(c, c.clients))
      {
        SavedClientsStep(c, c.clients, i);
        if SavesClient(c, c.clients[i]) {
          out := out + [SaveClient(c, c.clients[i])];
        }
        i := i + 1;
      }
      assert SaveClients(c, SavedClients(c, c.clients[i..])) == [];
    }

    /** `persisted_reconnections`: those who wait, then those connected; `order` is the map's iteration order. */
    method SaveReconnections(order: seq<Id>, now: int) returns (out: seq<PersistedReconnection>)
      requires forall t :: t in order ==> t in ctx.reconnections
      ensures out == PersistedReconnections(ctx, order, now)
    {
      out := [];
      var i := 0;
      while i < |order|
        invariant i <= |order| && |out| == i
        invariant forall k :: 0 <= k < i ==> out[k] == SaveEntry(ctx, order[k], now)
      {
        out := out + [SaveEntry(ctx, order[i], now)];
        i := i + 1;
      }
      assert out == SaveEntries(ctx, order, now);
      var connected := SaveConnected();
      out := out + connected;
    }

    /** `snapshot`. */
    method TakeSnapshot(tokens: seq<Id>, sids: seq<Id>, now: int) returns (s: RoomSnapshot)
      requires forall t :: t in tokens ==> t in ctx.reconnections
      requires forall sid :: sid in sids ==> sid in ctx.seats
      ensures s == Take(ctx, tokens, sids, now)
    {
      var entries := SaveReconnections(tokens, now);
      s := RoomSnapshot(ctx.options, ctx.metadata, ctx.locked, ctx.isPrivate, ctx.maxClients,
                        entries, PersistedSeats(ctx, sids, now));
    }

    method CloseAll(clients: seq<Id>, code: nat)
      modifies this
      ensures ctx == old(ctx).(conns := A.CloseAll(old(ctx).conns, clients, code))
    {
      var i := 0;
      while i < |clients|
        invariant i <= |clients| && ctx == old(ctx).(conns := ctx.conns)
        invariant A.CloseAll(ctx.conns, clients[i..], code) == A.CloseAll(old(ctx).conns, clients, code)
      {
        assert clients[i..][0] == clients[i] && clients[i..][1..] == clients[i + 1..];
        if clients[i] in ctx.conns {
          SetClient(clients[i], ctx.conns[clients[i]].(state := Room.Closed).Leave(code));
        }
        i := i + 1;
      }
    }

    /** `dispose`: the final snapshot is taken before clients and reconnections are cleared. */
    method Dispose(code: nat, saves: bool, tokens: seq<Id>, sids: seq<Id>, now: int, calls: seq<Call>) returns (saved: Option<RoomSnapshot>)
      requires forall t :: t in tokens ==> t in ctx.reconnections
      requires forall sid :: sid in sids ==> sid in ctx.seats
      modifies this
      ensures ctx == A.Dispose(old(ctx), code, calls)
      ensures saved == if old(ctx).disposing || !saves then None else Some(Take(old(ctx), tokens, sids, now))
    {
      saved := None;
      if ctx.disposing {
        return;
      }
      ctx := ctx.(disposing := true, requestDispose := None);
      if saves {
        var s := TakeSnapshot(tokens, sids, now);
        SnapshotIgnores(old(ctx), ctx, tokens, sids, now);
        saved := Some(s);
      }
      EmptyRoom(code, calls);
    }

    /** Close everybody, clear seats and reconnections, run `on_dispose` and leave the driver. */
    method EmptyRoom(code: nat, calls: seq<Call>)
      modifies this
      ensures ctx == A.Emptied(old(ctx), code, calls)
    {
      var clients := ctx.clients;
      ctx := ctx.(clients := []);
      CloseAll(clients, code);
      ctx := ctx.(seats := map[]);
      ctx := ctx.(reconnections := map[]);
      RunHook(calls);
      ctx := ctx.(driver := None);
    }

    /** `apply_snapshot`. */
    method ApplySnapshot(s: RoomSnapshot, conns: seq<Id>, now: int, far: int)
      requires |conns| == |s.reconnections|
      modifies this
      ensures ctx == Apply(old(ctx), s, conns, now, far)
    {
      ctx := Clear(ctx, s);
      ghost var cleared := ctx;
      var i := 0;
      while i < |s.reconnections|
        invariant i <= |s.reconnections|
        invariant ctx == RestoreEntries(cleared, s.reconnections[..i], conns[..i], now, far)
      {
        assert s.reconnections[..i + 1][..i] == s.reconnections[..i] && conns[..i + 1][..i] == conns[..i];
        ctx := RestoreEntry(ctx, s.reconnections[i], conns[i], now, far);
        i := i + 1;
      }
      assert s.reconnections[..i] == s.reconnections && conns[..i] == conns;
      ghost var filled := ctx;
      i := 0;
      while i < |s.seats|
        invariant i <= |s.seats|
        invariant ctx == RestoreSeats(filled, s.seats[..i], now)
      {
        assert s.seats[..i + 1][..i] == s.seats[..i];
        ctx := RestoreSeat(ctx, s.seats[i], now);
        i := i + 1;
      }
      assert s.seats[..i] == s.seats;
    }
  }

  /** A permitted event keeps the invariant and leads where its relation says. */
  lemma EventLeads(c: RoomContext, e: A.Event)
    ensures RoomInvariant.Inv(c, None, None) && ActorRuns.Permitted(c, e) ==>
              RoomInvariant.Inv(A.Handle(c, e), None, None) && E.Leads(c, e, A.Handle(c, e))
  {
    if RoomInvariant.Inv(c, None, None) && ActorRuns.Permitted(c, e) {
      ActorRuns.HandleKeepsInv(c, e);
      E.EventOutcome(c, e);
    }
  }

  lemma RunKeepsInv(c: RoomContext, events: seq<A.Event>)
    ensures RoomInvariant.Inv(c, None, None) && ActorRuns.PermittedRun(c, events) ==> RoomInvariant.Inv(ActorRuns.Run(c, events), None, None)
  {
    if RoomInvariant.Inv(c, None, None) && ActorRuns.PermittedRun(c, events) { ActorRuns.RunKeepsInv(c, events); }
  }

  lemma SavedClientsStep(c: RoomContext, list: seq<Id>, i: nat)
    requires i < |list|
    ensures SaveClients(c, SavedClients(c, list[i..])) ==
            (if SavesClient(c, list[i]) then [SaveClient(c, list[i])] else []) + SaveClients(c, SavedClients(c, list[i + 1..]))
  {
    assert list[i..][0] == list[i] && list[i..][1..] == list[i + 1..];
  }

  lemma {:induction false} SavedClientsSame(c: RoomContext, d: RoomContext, list: seq<Id>)
    requires c.conns == d.conns && c.reconnections == d.reconnections
    ensures SavedClients(c, list) == SavedClients(d, list)
  {
    if list != [] { SavedClientsSame(c, d, list[1..]); }
  }

  /** A snapshot does not show whether the room is being disposed. */
  lemma SnapshotIgnores(c: RoomContext, d: RoomContext, tokens: seq<Id>, sids: seq<Id>, now: int)
    requires forall t :: t in tokens ==> t in c.reconnections
    requires forall sid :: sid in sids ==> sid in c.seats
    requires d == c.(disposing := true, requestDispose := None)
    ensures Take(c, tokens, sids, now) == Take(d, tokens, sids, now)
  {
    SavedClientsSame(c, d, c.clients);
    assert PersistedSeats(c, sids, now) == PersistedSeats(d, sids, now);
    assert SaveEntries(c, tokens, now) == SaveEntries(d, tokens, now);
    assert SaveClients(c, SavedClients(c, c.clients)) == SaveClients(d, SavedClients(c, c.clients));
  }
}
