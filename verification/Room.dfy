/** The room context of `room.rs` and the client handles of `client.rs`. */
module Room {
  import opened Json
  import opened JsonPatch
  import opened Diff

  type Id = string

  const U32: nat := 0x1_0000_0000

  /** Close codes. */
  const CONSENTED: nat := 4000
  const WITH_ERROR: nat := 4002
  const FAILED_TO_RECONNECT: nat := 4003

  datatype ClientState = Joining | Joined | Reconnecting | Reconnected | Leaving | Closed

  datatype Frame =
    | JoinFrame(token: Id)
    | StateFrame(state: Json)
    | PatchFrame(patch: seq<PatchOp>)
    | DataFrame(payload: Json)
    | ErrorFrame
    | PingFrame

  datatype Outbound = Bytes(frame: Frame) | Close(code: nat)

  /** What a view filter can read of a client. */
  datatype ClientInfo = ClientInfo(sessionId: Id, auth: Option<Json>, userData: Option<Json>)

  type ViewFilter = (Json, ClientInfo) -> Json

  /** The shared part of a client handle; `outbox` is everything queued to its socket so far. */
  datatype Client = Client(
    sessionId: Id, state: ClientState, auth: Option<Json>, userData: Option<Json>, token: Id,
    pending: seq<Frame>, outbox: seq<Outbound>)
  {
    predicate IsJoined() { state.Joined? || state.Reconnected? }

    function Info(): ClientInfo { ClientInfo(sessionId, auth, userData) }

    function Queue(out: Outbound): Client { this.(outbox := outbox + [out]) }

    function RawNow(frame: Frame): Client { Queue(Bytes(frame)) }

    /** `leave`: close the connection, whatever the state was. */
    function Leave(code: nat): Client { this.(state := ClientState.Leaving).Queue(Close(code)) }

    /** `deliver`: now, later, or not at all. */
    function Deliver(frame: Frame): Client {
      match state
      case Joined => RawNow(frame)
      case Reconnected => RawNow(frame)
      case Joining => this.(pending := pending + [frame])
      case Reconnecting => this.(pending := pending + [frame])
      case _ => this
    }

    function FlushPending(): Client {
      this.(outbox := outbox + AsBytes(pending), pending := [])
    }
  }

  function AsBytes(frames: seq<Frame>): (r: seq<Outbound>)
    ensures |r| == |frames| && forall i :: 0 <= i < |r| ==> r[i] == Bytes(frames[i])
  {
    seq(|frames|, i requires 0 <= i < |frames| => Bytes(frames[i]))
  }

  function NewClient(sessionId: Id): Client {
    Client(sessionId, Joining, None, None, "", [], [])
  }

  datatype Seat = Seat(options: Json, auth: Option<Json>, consumed: bool, waiting: bool, expiresAt: int)

  datatype Reconnection = Reconnection(sessionId: Id, conn: Id, expiresAt: Option<int>)

  datatype StateSlot = StateSlot(typed: Json, snapshot: Json)

  /** The listing fields a room keeps up to date in the driver. */
  datatype Listing = Listing(clients: nat, maxClients: Option<nat>, locked: bool, isPrivate: bool, metadata: Option<Json>)

  /**
   * The context a room actor owns. `conns` is the store of client handles, by connection id, so
   * that a handle shared by the client list, a reconnection entry and the socket task is one
   * entry here. `left`, `accepted` and `issued` are history: the sessions `on_leave` ran for, the
   * tokens `on_connect` accepted, and the session ids and tokens ever generated.
   */
  datatype RoomContext = RoomContext(
    conns: map<Id, Client>,
    clients: seq<Id>,
    seats: map<Id, Seat>,
    reconnections: map<Id, Reconnection>,
    slot: Option<StateSlot>,
    filter: Option<ViewFilter>,
    views: map<Id, Json>,
    locked: bool,
    isPrivate: bool,
    maxClients: Option<nat>,
    metadata: Option<Json>,
    options: Json,
    driver: Option<Listing>,
    requestDispose: Option<nat>,
    disposing: bool,
    hadClients: bool,
    left: seq<Id>,
    accepted: seq<Id>,
    issued: set<Id>)

  // ------------------------------------------------------------------
  // Clients
  // ------------------------------------------------------------------

  function Session(c: RoomContext, conn: Id): Id { if conn in c.conns then c.conns[conn].sessionId else "" }

  function Token(c: RoomContext, conn: Id): Id { if conn in c.conns then c.conns[conn].token else "" }

  function WithClient(c: RoomContext, conn: Id, client: Client): RoomContext {
    c.(conns := c.conns[conn := client])
  }

  /** `get_client`: the first listed client of a session. */
  function FindClient(c: RoomContext, list: seq<Id>, sid: Id): (r: Option<Id>)
    ensures r.Some? ==> r.value in list && Session(c, r.value) == sid
    ensures r.None? ==> forall conn :: conn in list ==> Session(c, conn) != sid
  {
    if list == [] then None
    else if Session(c, list[0]) == sid then Some(list[0])
    else FindClient(c, list[1..], sid)
  }

  /** `clients.retain(|c| c.session_id() != sid)`. */
  function Others(c: RoomContext, list: seq<Id>, sid: Id): (r: seq<Id>)
    ensures |r| <= |list|
    ensures forall conn :: conn in r <==> conn in list && Session(c, conn) != sid
    ensures Distinct(list) ==> Distinct(r)
  {
    if list == [] then []
    else if Session(c, list[0]) == sid then Others(c, list[1..], sid)
    else [list[0]] + Others(c, list[1..], sid)
  }

  /** Replace the first listed client of a session, or append when there is none. */
  function Replaced(c: RoomContext, list: seq<Id>, sid: Id, conn: Id): seq<Id> {
    if list == [] then [conn]
    else if Session(c, list[0]) == sid then [conn] + list[1..]
    else [list[0]] + Replaced(c, list[1..], sid, conn)
  }

  // ------------------------------------------------------------------
  // Capacity and listing
  // ------------------------------------------------------------------

  predicate IsPending(s: Seat) { !s.consumed && !s.waiting }

  function PendingSeats(c: RoomContext): set<Id> {
    set sid | sid in c.seats && IsPending(c.seats[sid])
  }

  /** Listed clients plus seats reserved but not taken. */
  function Load(c: RoomContext): nat { |c.clients| + |PendingSeats(c)| }

  /** `listing_client_count`, with its cast to `u32`. */
  function ListingClientCount(c: RoomContext): nat { Load(c) % U32 }

  predicate HasReachedMaxClients(c: RoomContext) {
    c.maxClients.Some? && Load(c) % U32 >= c.maxClients.value
  }

  function BuildListing(c: RoomContext): Listing {
    Listing(ListingClientCount(c), c.maxClients, c.locked, c.isPrivate, c.metadata)
  }

  /** `sync_listing` updates an entry that exists; it never creates one. */
  function SyncListing(c: RoomContext): RoomContext {
    c.(driver := if c.driver.Some? then Some(BuildListing(c)) else None)
  }

  // ------------------------------------------------------------------
  // State synchronization
  // ------------------------------------------------------------------

  /** `StateSlot::diff`: the patch to broadcast, if any, and the slot with its new baseline. */
  function SlotDiff(slot: StateSlot): (StateSlot, Option<seq<PatchOp>>) {
    if slot.typed == slot.snapshot then (slot, None)
    else
      var ops := DiffPatch(slot.snapshot, slot.typed);
      (slot.(snapshot := slot.typed), if ops == [] then None else Some(ops))
  }

  /** Queue one frame to every listed client that has joined. */
  function ToJoined(conns: map<Id, Client>, list: seq<Id>, frame: Frame): map<Id, Client> {
    if list == [] then conns
    else if list[0] in conns && conns[list[0]].IsJoined() then
      ToJoined(conns[list[0] := conns[list[0]].RawNow(frame)], list[1..], frame)
    else ToJoined(conns, list[1..], frame)
  }

  /** Queue the operations that bring `held` to `view`, and record the view as held. */
  function HoldView(c: RoomContext, conn: Id, held: Json, view: Json, ops: seq<PatchOp>): RoomContext
    requires conn in c.conns
  {
    var client := c.conns[conn];
    var c' := c.(views := c.views[client.sessionId := view]);
    if held == view || ops == [] then c' else WithClient(c', conn, client.RawNow(PatchFrame(ops)))
  }

  /** The patch of one client's own view. */
  function PatchView(c: RoomContext, conn: Id): RoomContext
    requires c.slot.Some? && c.filter.Some?
  {
    if conn !in c.conns || !c.conns[conn].IsJoined() then c
    else
      var client := c.conns[conn];
      var view := c.filter.value(c.slot.value.typed, client.Info());
      var held := if client.sessionId in c.views then c.views[client.sessionId] else view;
      HoldView(c, conn, held, view, DiffPatch(held, view))
  }

  function PatchViews(c: RoomContext, list: seq<Id>): RoomContext
    requires c.slot.Some? && c.filter.Some?
    decreases |list|
  {
    if list == [] then c else PatchViews(PatchView(c, list[0]), list[1..])
  }

  /** Store the slot with its new baseline and queue the one patch to everybody. */
  function SendShared(c: RoomContext, slot: StateSlot, patch: Option<seq<PatchOp>>): RoomContext {
    var c' := c.(slot := Some(slot));
    if patch.None? then c' else c'.(conns := ToJoined(c.conns, c.clients, PatchFrame(patch.value)))
  }

  /** `broadcast_patch`, without the queue of deferred messages. */
  function BroadcastPatch(c: RoomContext): RoomContext {
    if c.slot.None? then c
    else if c.filter.Some? then PatchViews(c, c.clients)
    else
      SendShared(c, SlotDiff(c.slot.value).0, SlotDiff(c.slot.value).1)
  }

  /** `full_state_for`. */
  function FullStateFor(c: RoomContext, client: Client): Option<Json> {
    if c.slot.None? then None
    else if c.filter.Some? then Some(c.filter.value(c.slot.value.typed, client.Info()))
    else Some(c.slot.value.typed)
  }

  // ------------------------------------------------------------------
  // What room code may do in a hook
  // ------------------------------------------------------------------

  datatype Call =
    | RemoveClient(sid: Id)
    | AllowReconnection(conn: Id, expiresAt: Option<int>, never: int)
    | LeaveClient(conn: Id, code: nat)
    | SetUserData(conn: Id, data: Json)
    | SendTo(conn: Id, payload: Json)
    | Broadcast(payload: Json)
    | Lock
    | Unlock
    | SetPrivate(isPrivate: bool)
    | SetMetadata(metadata: Json)
    | SetMaxClients(max: Option<nat>)
    | Disconnect(code: nat)
    | MutateState(state: Json)
    | SetState(state: Json)
    | CallBroadcastPatch

  /** Everything of a session taken out. */
  function Without(c: RoomContext, sid: Id): RoomContext {
    c.(clients := Others(c, c.clients, sid),
       reconnections := map t | t in c.reconnections && c.reconnections[t].sessionId != sid :: c.reconnections[t],
       seats := c.seats - {sid},
       views := c.views - {sid})
  }

  /** `remove_client`: forget a session completely. */
  function Forget(c: RoomContext, sid: Id): RoomContext { SyncListing(Without(c, sid)) }

  /** `allow_reconnection`; `never` is the far expiry of a seat whose entry has none. */
  function Allow(c: RoomContext, conn: Id, expiresAt: Option<int>, never: int): RoomContext
    requires conn in c.conns
  {
    var client := c.conns[conn];
    if c.disposing || client.token == "" || client.token in c.reconnections then c
    else
      c.(conns := c.conns[conn := client.(state := Reconnecting)],
         reconnections := c.reconnections[client.token := Reconnection(client.sessionId, conn, expiresAt)],
         seats := c.seats[client.sessionId :=
           Seat(Null, client.auth, false, true, if expiresAt.Some? then expiresAt.value else never)])
  }

  function DoCall(c: RoomContext, call: Call): RoomContext {
    match call
    case RemoveClient(sid) => Forget(c, sid)
    case AllowReconnection(conn, expiresAt, never) => if conn in c.conns then Allow(c, conn, expiresAt, never) else c
    case LeaveClient(conn, code) => if conn in c.conns then WithClient(c, conn, c.conns[conn].Leave(code)) else c
    case SetUserData(conn, data) =>
      if conn in c.conns then WithClient(c, conn, c.conns[conn].(userData := Some(data))) else c
    case SendTo(conn, payload) =>
      if conn in c.conns then WithClient(c, conn, c.conns[conn].Deliver(DataFrame(payload))) else c
    case Broadcast(payload) => c.(conns := ToJoined(c.conns, c.clients, DataFrame(payload)))
    case Lock => if c.locked then c else SyncListing(c.(locked := true))
    case Unlock => if c.locked then SyncListing(c.(locked := false)) else c
    case SetPrivate(p) => SyncListing(c.(isPrivate := p))
    case SetMetadata(m) => SyncListing(c.(metadata := Some(m)))
    case SetMaxClients(m) => SyncListing(c.(maxClients := m))
    case Disconnect(code) => c.(requestDispose := Some(code))
    case MutateState(s) => if c.slot.Some? then c.(slot := Some(c.slot.value.(typed := s))) else c
    case SetState(s) => c.(slot := Some(StateSlot(s, s)))
    case CallBroadcastPatch => BroadcastPatch(c)
  }

  /** A hook body: any sequence of context calls. */
  function DoCalls(c: RoomContext, calls: seq<Call>): RoomContext
    decreases |calls|
  {
    if calls == [] then c else DoCalls(DoCall(c, calls[0]), calls[1..])
  }
}
