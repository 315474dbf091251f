/** Room snapshots: what `persist` writes, what `apply_snapshot` rebuilds, and that nobody is lost in between. */
module Snapshot {
  import opened Json
  import opened Room
  import opened RoomInvariant
  import opened Deadlines

  datatype PersistedReconnection = PersistedReconnection(
    sessionId: Id, token: Id, expiresAtMs: Option<int>, auth: Option<Json>, userData: Option<Json>)

  datatype PersistedSeat = PersistedSeat(sessionId: Id, options: Json, auth: Option<Json>, expiresAtMs: int)

  /** The framework-managed part of a snapshot. */
  datatype RoomSnapshot = RoomSnapshot(
    options: Json, metadata: Option<Json>, locked: bool, isPrivate: bool, maxClients: Option<nat>,
    reconnections: seq<PersistedReconnection>, seats: seq<PersistedSeat>)

  // ------------------------------------------------------------------
  // Taking a snapshot
  // ------------------------------------------------------------------

  function Client0(c: RoomContext, conn: Id): Client { if conn in c.conns then c.conns[conn] else NewClient("") }

  function SavedExpiry(at: Option<int>, now: int): Option<int> {
    if at.Some? then Some(ToWallclock(at.value, now)) else None
  }

  /** A client that waits for its reconnection already. */
  function SaveEntry(c: RoomContext, token: Id, now: int): PersistedReconnection
    requires token in c.reconnections
  {
    var e := c.reconnections[token];
    PersistedReconnection(e.sessionId, token, SavedExpiry(e.expiresAt, now), Client0(c, e.conn).auth, Client0(c, e.conn).userData)
  }

  function SaveEntries(c: RoomContext, order: seq<Id>, now: int): (r: seq<PersistedReconnection>)
    requires forall t :: t in order ==> t in c.reconnections
    ensures |r| == |order| && forall k :: 0 <= k < |r| ==> r[k] == SaveEntry(c, order[k], now)
  {
    seq(|order|, k requires 0 <= k < |order| => SaveEntry(c, order[k], now))
  }

  /** A connected client whose token is saved too, so that it may come back after the restart. */
  predicate SavesClient(c: RoomContext, conn: Id) {
    conn in c.conns && c.conns[conn].IsJoined() && Token(c, conn) != "" && Token(c, conn) !in c.reconnections
  }

  function SaveClient(c: RoomContext, conn: Id): PersistedReconnection {
    PersistedReconnection(Session(c, conn), Token(c, conn), None, Client0(c, conn).auth, Client0(c, conn).userData)
  }

  function SavedClients(c: RoomContext, list: seq<Id>): (r: seq<Id>)
    ensures forall i :: i in r <==> i in list && SavesClient(c, i)
    ensures Distinct(list) ==> Distinct(r)
  {
    if list == [] then []
    else if SavesClient(c, list[0]) then [list[0]] + SavedClients(c, list[1..])
    else SavedClients(c, list[1..])
  }

  function SaveClients(c: RoomContext, list: seq<Id>): (r: seq<PersistedReconnection>)
    ensures |r| == |list| && forall k :: 0 <= k < |r| ==> r[k] == SaveClient(c, list[k])
  {
    seq(|list|, k requires 0 <= k < |list| => SaveClient(c, list[k]))
  }

  /** `persisted_reconnections`. */
  function PersistedReconnections(c: RoomContext, order: seq<Id>, now: int): seq<PersistedReconnection>
    requires forall t :: t in order ==> t in c.reconnections
  {
    SaveEntries(c, order, now) + SaveClients(c, SavedClients(c, c.clients))
  }

  /** `persisted_seats`, over the pending seats in iteration order. */
  function PersistedSeats(c: RoomContext, order: seq<Id>, now: int): (r: seq<PersistedSeat>)
    requires forall sid :: sid in order ==> sid in c.seats
    ensures |r| == |order|
    ensures forall k :: 0 <= k < |r| ==>
              var seat := c.seats[order[k]];
              r[k] == PersistedSeat(order[k], seat.options, seat.auth, ToWallclock(seat.expiresAt, now))
  {
    seq(|order|, k requires 0 <= k < |order| =>
      var seat := c.seats[order[k]];
      PersistedSeat(order[k], seat.options, seat.auth, ToWallclock(seat.expiresAt, now)))
  }

  /** `snapshot`. */
  function Take(c: RoomContext, tokens: seq<Id>, sids: seq<Id>, now: int): RoomSnapshot
    requires forall t :: t in tokens ==> t in c.reconnections
    requires forall sid :: sid in sids ==> sid in c.seats
  {
    RoomSnapshot(c.options, c.metadata, c.locked, c.isPrivate, c.maxClients,
                 PersistedReconnections(c, tokens, now), PersistedSeats(c, sids, now))
  }

  // ------------------------------------------------------------------
  // Restoring it
  // ------------------------------------------------------------------

  /** A handle with no transport, holding what is known of the client. */
  function Orphan(r: PersistedReconnection): Client {
    NewClient(r.sessionId).(auth := r.auth, userData := r.userData, token := r.token, state := Reconnecting)
  }

  function RestoredExpiry(at: Option<int>, now: int): Option<int> {
    if at.Some? then Some(FromWallclock(at.value, now)) else None
  }

  /** `far` is the distant expiry of a seat whose entry has none. */
  function RestoreEntry(c: RoomContext, r: PersistedReconnection, conn: Id, now: int, far: int): RoomContext {
    var expiry := RestoredExpiry(r.expiresAtMs, now);
    c.(conns := c.conns[conn := Orphan(r)],
       reconnections := c.reconnections[r.token := Reconnection(r.sessionId, conn, expiry)],
       seats := c.seats[r.sessionId := Seat(Null, r.auth, false, true, if expiry.Some? then expiry.value else far)],
       clients := c.clients + [conn],
       issued := c.issued + {r.sessionId, r.token})
  }

  function RestoreEntries(c: RoomContext, rs: seq<PersistedReconnection>, conns: seq<Id>, now: int, far: int): RoomContext
    requires |conns| == |rs|
    decreases |rs|
  {
    if rs == [] then c
    else
      var n := |rs| - 1;
      RestoreEntry(RestoreEntries(c, rs[..n], conns[..n], now, far), rs[n], conns[n], now, far)
  }

  function RestoreSeat(c: RoomContext, s: PersistedSeat, now: int): RoomContext {
    c.(seats := c.seats[s.sessionId := Seat(s.options, s.auth, false, false, FromWallclock(s.expiresAtMs, now))],
       issued := c.issued + {s.sessionId})
  }

  function RestoreSeats(c: RoomContext, ss: seq<PersistedSeat>, now: int): RoomContext
    decreases |ss|
  {
    if ss == [] then c
    else RestoreSeat(RestoreSeats(c, ss[..|ss| - 1], now), ss[|ss| - 1], now)
  }

  /** The fields a snapshot overrides, and the collections it clears first. */
  function Clear(c: RoomContext, s: RoomSnapshot): RoomContext {
    c.(metadata := s.metadata, locked := s.locked, isPrivate := s.isPrivate, maxClients := s.maxClients, options := s.options,
       reconnections := map[], seats := map[], clients := [])
  }

  /** `apply_snapshot`; `conns` are the new ids of the orphaned handles. */
  function Apply(c: RoomContext, s: RoomSnapshot, conns: seq<Id>, now: int, far: int): RoomContext
    requires |conns| == |s.reconnections|
  {
    RestoreSeats(RestoreEntries(Clear(c, s), s.reconnections, conns, now, far), s.seats, now)
  }

  // ------------------------------------------------------------------
  // Who is in a snapshot
  // ------------------------------------------------------------------

  /** The listed client a saved entry stands for. */
  ghost predicate Owned(c: RoomContext, r: PersistedReconnection, conn: Id) {
    && conn in c.clients && conn in c.conns && Session(c, conn) == r.sessionId && Token(c, conn) == r.token && r.token != ""
    && c.conns[conn].auth == r.auth && c.conns[conn].userData == r.userData
  }

  ghost predicate OwnedBy(c: RoomContext, rs: seq<PersistedReconnection>, owners: seq<Id>) {
    |owners| == |rs| && Distinct(owners) && forall k :: 0 <= k < |rs| ==> Owned(c, rs[k], owners[k])
  }

  function EntryOwners(c: RoomContext, order: seq<Id>): (r: seq<Id>)
    requires forall t :: t in order ==> t in c.reconnections
    ensures |r| == |order| && forall k :: 0 <= k < |r| ==> r[k] == c.reconnections[order[k]].conn
  {
    seq(|order|, k requires 0 <= k < |order| => c.reconnections[order[k]].conn)
  }

  lemma EntryOwnersOwn(c: RoomContext, order: seq<Id>, now: int)
    requires ClientsOk(c) && EntriesOk(c) && Distinct(order) && forall t :: t in order ==> t in c.reconnections
    ensures OwnedBy(c, SaveEntries(c, order, now), EntryOwners(c, order))
    ensures forall i :: i in EntryOwners(c, order) ==> Token(c, i) in c.reconnections
  {
    var owners := EntryOwners(c, order);
    forall k | 0 <= k < |order| ensures Owned(c, SaveEntry(c, order[k], now), owners[k]) && Token(c, owners[k]) == order[k] {
      assert order[k] in order && EntryOk(c, order[k]);
    }
  }

  lemma ClientOwnersOwn(c: RoomContext)
    requires ClientsOk(c)
    ensures OwnedBy(c, SaveClients(c, SavedClients(c, c.clients)), SavedClients(c, c.clients))
  {
  }

  lemma OwnersJoin(c: RoomContext, a: seq<PersistedReconnection>, b: seq<PersistedReconnection>, x: seq<Id>, y: seq<Id>)
    requires OwnedBy(c, a, x) && OwnedBy(c, b, y)
    requires forall i, j :: 0 <= i < |x| && 0 <= j < |y| ==> x[i] != y[j]
    ensures OwnedBy(c, a + b, x + y)
  {
  }

  /** A client that waits is not saved a second time. */
  lemma OwnersApart(c: RoomContext, order: seq<Id>)
    requires (forall t :: t in order ==> t in c.reconnections)
    requires forall i :: i in EntryOwners(c, order) ==> Token(c, i) in c.reconnections
    ensures var held, joined := EntryOwners(c, order), SavedClients(c, c.clients);
            forall i, j :: 0 <= i < |held| && 0 <= j < |joined| ==> held[i] != joined[j]
  {
    var held, joined := EntryOwners(c, order), SavedClients(c, c.clients);
    forall i, j | 0 <= i < |held| && 0 <= j < |joined| ensures held[i] != joined[j] {
      assert held[i] in held && joined[j] in joined;
    }
  }

  /** Everybody in the snapshot is a different listed client, with its own session and token. */
  lemma SnapshotOwners(c: RoomContext, order: seq<Id>, now: int) returns (owners: seq<Id>)
    requires ClientsOk(c) && TokensOk(c) && EntriesOk(c) && Enumerates(order, c.reconnections.Keys)
    ensures OwnedBy(c, PersistedReconnections(c, order, now), owners)
    ensures forall i :: i in c.clients && (SavesClient(c, i) || Token(c, i) in c.reconnections) ==> i in owners
  {
    var held, joined := EntryOwners(c, order), SavedClients(c, c.clients);
    owners := held + joined;
    EntryOwnersOwn(c, order, now);
    ClientOwnersOwn(c);
    OwnersApart(c, order);
    OwnersJoin(c, SaveEntries(c, order, now), SaveClients(c, joined), held, joined);
    forall i | i in c.clients && (SavesClient(c, i) || Token(c, i) in c.reconnections) ensures i in owners {
      if SavesClient(c, i) { assert i in joined; } else { HeldIsOwner(c, order, i); }
    }
  }

  lemma HeldIsOwner(c: RoomContext, order: seq<Id>, conn: Id)
    requires ClientsOk(c) && EntriesOk(c) && Enumerates(order, c.reconnections.Keys)
    requires conn in c.clients && Token(c, conn) in c.reconnections && TokensOk(c)
    ensures conn in EntryOwners(c, order)
  {
    var t := Token(c, conn);
    assert EntryOk(c, t) && t in order;
    var k :| 0 <= k < |order| && order[k] == t;
    assert EntryOwners(c, order)[k] == c.reconnections[t].conn;
  }

  lemma OwnedApart(c: RoomContext, rs: seq<PersistedReconnection>, owners: seq<Id>)
    requires ClientsOk(c) && TokensOk(c) && OwnedBy(c, rs, owners)
    ensures forall i, j :: 0 <= i < j < |rs| ==> rs[i].token != rs[j].token && rs[i].sessionId != rs[j].sessionId
  {
    forall i, j | 0 <= i < j < |rs| ensures rs[i].token != rs[j].token && rs[i].sessionId != rs[j].sessionId {
      assert Owned(c, rs[i], owners[i]) && Owned(c, rs[j], owners[j]) && owners[i] != owners[j];
    }
  }
}
