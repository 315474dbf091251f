/** A restart, from the snapshot taken to the room rebuilt: sessions, seats, invariant and a second snapshot. */
module Restart {
  import opened Json
  import opened Room
  import opened RoomInvariant
  import opened Deadlines
  import opened Snapshot

  /** The context of a room that `on_create` has just run for, in a new process. */
  predicate IsFresh(c: RoomContext) { c.conns == map[] && c.left == [] && c.accepted == [] && c.issued == {} }

  /** A room rebuilt and registered: `finish_spawn` builds its listing. */
  function Restored(c: RoomContext, s: RoomSnapshot, conns: seq<Id>, now: int, far: int): RoomContext
    requires |conns| == |s.reconnections|
  {
    var d := Apply(c, s, conns, now, far);
    d.(driver := Some(BuildListing(d)))
  }

  // ------------------------------------------------------------------
  // What applying rebuilds
  // ------------------------------------------------------------------

  /** The elements of a list, one by one. */
  function ElementSet(s: seq<Id>): set<Id> {
    if s == [] then {} else ElementSet(s[..|s| - 1]) + {s[|s| - 1]}
  }

  lemma {:induction false} IndexOf(s: seq<Id>, x: Id) returns (k: nat)
    requires x in ElementSet(s)
    ensures k < |s| && s[k] == x
  {
    var n := |s| - 1;
    if x == s[n] { k := n; } else { k := IndexOf(s[..n], x); }
  }

  lemma {:induction false} InElements(s: seq<Id>, k: nat)
    requires k < |s|
    ensures s[k] in ElementSet(s)
  {
    var n := |s| - 1;
    if k < n { InElements(s[..n], k); }
  }

  lemma ElementsOfAppend(s: seq<Id>, x: Id)
    ensures ElementSet(s + [x]) == ElementSet(s) + {x}
  {
    assert (s + [x])[..|s|] == s;
  }

  function Tokens(rs: seq<PersistedReconnection>): (r: seq<Id>)
    ensures |r| == |rs| && forall k :: 0 <= k < |r| ==> r[k] == rs[k].token
  {
    seq(|rs|, k requires 0 <= k < |rs| => rs[k].token)
  }

  function Sessions(rs: seq<PersistedReconnection>): (r: seq<Id>)
    ensures |r| == |rs| && forall k :: 0 <= k < |r| ==> r[k] == rs[k].sessionId
  {
    seq(|rs|, k requires 0 <= k < |rs| => rs[k].sessionId)
  }

  ghost predicate Apart(rs: seq<PersistedReconnection>) {
    forall i, j :: 0 <= i < j < |rs| ==> rs[i].token != rs[j].token && rs[i].sessionId != rs[j].sessionId
  }

  /** One saved entry has a handle, a token and a held seat. */
  ghost predicate EntryIn(d: RoomContext, r: PersistedReconnection, conn: Id, now: int) {
    && conn in d.conns && d.conns[conn] == Orphan(r)
    && r.token in d.reconnections && d.reconnections[r.token] == Reconnection(r.sessionId, conn, RestoredExpiry(r.expiresAtMs, now))
    && r.sessionId in d.seats && d.seats[r.sessionId].waiting && !d.seats[r.sessionId].consumed
    && r.token in d.issued && r.sessionId in d.issued
  }

  ghost predicate AllEntriesIn(d: RoomContext, rs: seq<PersistedReconnection>, conns: seq<Id>, now: int)
    requires |conns| == |rs|
  {
    forall k :: 0 <= k < |rs| ==> EntryIn(d, rs[k], conns[k], now)
  }

  /** Exactly the saved entries. */
  ghost predicate EntriesIn(d: RoomContext, rs: seq<PersistedReconnection>, conns: seq<Id>, now: int)
    requires |conns| == |rs|
  {
    && d.clients == conns && AllEntriesIn(d, rs, conns, now)
    && d.conns.Keys == ElementSet(conns)
    && d.reconnections.Keys == ElementSet(Tokens(rs)) && d.seats.Keys == ElementSet(Sessions(rs))
  }

  ghost predicate SameRest(c: RoomContext, d: RoomContext) {
    && c.maxClients == d.maxClients && c.left == d.left && c.accepted == d.accepted && SameListing(c, d)
    && c.options == d.options
  }

  lemma EntryKeeps(c: RoomContext, rs: seq<PersistedReconnection>, conns: seq<Id>, r: PersistedReconnection, conn: Id, now: int, far: int)
    requires |conns| == |rs| && AllEntriesIn(c, rs, conns, now) && conn !in conns && Apart(rs + [r])
    ensures AllEntriesIn(RestoreEntry(c, r, conn, now, far), rs + [r], conns + [conn], now)
  {
    var d, all := RestoreEntry(c, r, conn, now, far), rs + [r];
    assert all[|rs|] == r;
    forall k | 0 <= k < |all| ensures EntryIn(d, all[k], (conns + [conn])[k], now) {
      if k < |rs| {
        assert EntryIn(c, rs[k], conns[k], now) && all[k] == rs[k] && conns[k] in conns;
      }
    }
  }

  lemma EntryNamed(rs: seq<PersistedReconnection>, conns: seq<Id>, r: PersistedReconnection, conn: Id)
    ensures ElementSet(conns + [conn]) == ElementSet(conns) + {conn}
    ensures ElementSet(Tokens(rs + [r])) == ElementSet(Tokens(rs)) + {r.token}
    ensures ElementSet(Sessions(rs + [r])) == ElementSet(Sessions(rs)) + {r.sessionId}
  {
    ElementsOfAppend(conns, conn);
    ElementsOfAppend(Tokens(rs), r.token);
    ElementsOfAppend(Sessions(rs), r.sessionId);
    assert Tokens(rs + [r]) == Tokens(rs) + [r.token];
    assert Sessions(rs + [r]) == Sessions(rs) + [r.sessionId];
  }

  lemma EntryRestored(c: RoomContext, rs: seq<PersistedReconnection>, conns: seq<Id>, r: PersistedReconnection, conn: Id, now: int, far: int)
    requires |conns| == |rs| && EntriesIn(c, rs, conns, now) && conn !in conns && Apart(rs + [r])
    ensures EntriesIn(RestoreEntry(c, r, conn, now, far), rs + [r], conns + [conn], now)
  {
    EntryKeeps(c, rs, conns, r, conn, now, far);
    EntryNamed(rs, conns, r, conn);
  }

  lemma ApartPrefix(rs: seq<PersistedReconnection>, n: nat)
    requires Apart(rs) && n <= |rs|
    ensures Apart(rs[..n])
  {
  }

  lemma OneMoreRestored(c: RoomContext, mid: RoomContext, rs: seq<PersistedReconnection>, conns: seq<Id>, n: nat, now: int, far: int)
    requires n + 1 == |rs| == |conns| && Distinct(conns) && Apart(rs)
    requires EntriesIn(mid, rs[..n], conns[..n], now) && SameRest(c, mid)
    ensures EntriesIn(RestoreEntry(mid, rs[n], conns[n], now, far), rs, conns, now)
    ensures SameRest(c, RestoreEntry(mid, rs[n], conns[n], now, far))
  {
    assert rs == rs[..n] + [rs[n]] && conns == conns[..n] + [conns[n]];
    EntryRestored(mid, rs[..n], conns[..n], rs[n], conns[n], now, far);
  }

  lemma {:induction false} EntriesRestored(c: RoomContext, rs: seq<PersistedReconnection>, conns: seq<Id>, now: int, far: int)
    requires |conns| == |rs| && Distinct(conns) && Apart(rs)
    requires c.conns == map[] && c.clients == [] && c.seats == map[] && c.reconnections == map[]
    ensures EntriesIn(RestoreEntries(c, rs, conns, now, far), rs, conns, now)
    ensures SameRest(c, RestoreEntries(c, rs, conns, now, far))
    decreases |rs|
  {
    if rs != [] {
      var n := |rs| - 1;
      ApartPrefix(rs, n);
      EntriesRestored(c, rs[..n], conns[..n], now, far);
      OneMoreRestored(c, RestoreEntries(c, rs[..n], conns[..n], now, far), rs, conns, n, now, far);
    }
  }

  function SeatSessions(ss: seq<PersistedSeat>): (r: seq<Id>)
    ensures |r| == |ss| && forall k :: 0 <= k < |r| ==> r[k] == ss[k].sessionId
  {
    seq(|ss|, k requires 0 <= k < |ss| => ss[k].sessionId)
  }

  function RestoredSeat(s: PersistedSeat, now: int): Seat {
    Seat(s.options, s.auth, false, false, FromWallclock(s.expiresAtMs, now))
  }

  /** The saved seats on top of what is there. */
  ghost predicate SeatsIn(c: RoomContext, d: RoomContext, ss: seq<PersistedSeat>, now: int) {
    && d.conns == c.conns && d.clients == c.clients && d.reconnections == c.reconnections && SameRest(c, d)
    && c.issued <= d.issued && d.seats.Keys == c.seats.Keys + ElementSet(SeatSessions(ss))
    && (forall k :: 0 <= k < |ss| ==> SeatIn(d, ss[k], now))
    && (forall sid :: sid in c.seats && sid !in ElementSet(SeatSessions(ss)) ==> d.seats[sid] == c.seats[sid])
  }

  ghost predicate SeatIn(d: RoomContext, s: PersistedSeat, now: int) {
    s.sessionId in d.issued && s.sessionId in d.seats && d.seats[s.sessionId] == RestoredSeat(s, now)
  }

  lemma SeatRestored(c: RoomContext, d: RoomContext, init: seq<PersistedSeat>, s: PersistedSeat, now: int)
    requires SeatsIn(c, d, init, now) && forall k :: 0 <= k < |init| ==> init[k].sessionId != s.sessionId
    ensures SeatsIn(c, RestoreSeat(d, s, now), init + [s], now)
  {
    var all, e := init + [s], RestoreSeat(d, s, now);
    ElementsOfAppend(SeatSessions(init), s.sessionId);
    assert SeatSessions(all) == SeatSessions(init) + [s.sessionId];
    forall k | 0 <= k < |all| ensures SeatIn(e, all[k], now) {
      if k < |init| { assert all[k] == init[k] && SeatIn(d, init[k], now); }
    }
  }

  lemma {:induction false} SeatsRestored(c: RoomContext, ss: seq<PersistedSeat>, now: int)
    requires forall i, j :: 0 <= i < j < |ss| ==> ss[i].sessionId != ss[j].sessionId
    ensures SeatsIn(c, RestoreSeats(c, ss, now), ss, now)
    decreases |ss|
  {
    if ss != [] {
      var n := |ss| - 1;
      SeatsRestored(c, ss[..n], now);
      assert ss == ss[..n] + [ss[n]];
      SeatRestored(c, RestoreSeats(c, ss[..n], now), ss[..n], ss[n], now);
    }
  }

  // ------------------------------------------------------------------
  // The round trip
  // ------------------------------------------------------------------

  /** All that a restart starts from: a room in order, its snapshot, and a new process. */
  ghost predicate Restarts(c: RoomContext, tokens: seq<Id>, sids: seq<Id>, blank: RoomContext, conns: seq<Id>) {
    && Inv(c, None, None) && Enumerates(tokens, c.reconnections.Keys) && Enumerates(sids, PendingSeats(c))
    && IsFresh(blank) && Distinct(conns) && |conns| == |tokens| + |SavedClients(c, c.clients)|
  }

  /** The restored room `d`, described by the snapshot's entries, their owners in `c`, and the pending seats of `c`. */
  ghost predicate Rebuilt(c: RoomContext, rs: seq<PersistedReconnection>, owners: seq<Id>, d: RoomContext, conns: seq<Id>, now: int, restored: int) {
    && OwnedBy(c, rs, owners) && Apart(rs) && |conns| == |rs| && Distinct(conns)
    && d.clients == conns && AllEntriesIn(d, rs, conns, restored) && d.conns.Keys == ElementSet(conns)
    && d.reconnections.Keys == ElementSet(Tokens(rs))
    && d.seats.Keys == PendingSeats(c) + ElementSet(Sessions(rs))
    && (forall sid :: sid in PendingSeats(c) ==> sid in d.issued && d.seats[sid] == CarriedSeat(c.seats[sid], now, restored))
    && d.maxClients == c.maxClients && d.left == [] && d.accepted == [] && d.driver == Some(BuildListing(d))
    && d.locked == c.locked && d.isPrivate == c.isPrivate && d.metadata == c.metadata && d.options == c.options
  }

  function CarriedSeat(seat: Seat, now: int, restored: int): Seat {
    Seat(seat.options, seat.auth, false, false, Carried(seat.expiresAt, now, restored))
  }

  /** Whoever is in the snapshot has no pending seat. */
  lemma OwnedNotPending(c: RoomContext, rs: seq<PersistedReconnection>, owners: seq<Id>)
    requires SeatsOk(c, None) && OwnedBy(c, rs, owners)
    ensures forall sid :: sid in ElementSet(Sessions(rs)) ==> sid !in PendingSeats(c)
  {
    forall sid | sid in ElementSet(Sessions(rs)) ensures sid !in PendingSeats(c) {
      var k := IndexOf(Sessions(rs), sid);
      assert Owned(c, rs[k], owners[k]);
    }
  }

  lemma {:induction false} ElementSetIs(s: seq<Id>, keys: set<Id>)
    requires forall x :: x in s <==> x in keys
    ensures ElementSet(s) == keys
  {
    forall x | x in ElementSet(s) ensures x in keys {
      var k := IndexOf(s, x);
    }
    forall x | x in keys ensures x in ElementSet(s) {
      var k :| 0 <= k < |s| && s[k] == x;
      InElements(s, k);
    }
  }

  lemma EntriesSurviveSeats(c: RoomContext, rs: seq<PersistedReconnection>, owners: seq<Id>, e: RoomContext, d: RoomContext,
                            ss: seq<PersistedSeat>, conns: seq<Id>, restored: int)
    requires SeatsOk(c, None) && OwnedBy(c, rs, owners) && |conns| == |rs|
    requires ElementSet(SeatSessions(ss)) == PendingSeats(c)
    requires AllEntriesIn(e, rs, conns, restored) && SeatsIn(e, d, ss, restored)
    ensures AllEntriesIn(d, rs, conns, restored)
  {
    OwnedNotPending(c, rs, owners);
    forall k | 0 <= k < |rs| ensures EntryIn(d, rs[k], conns[k], restored) {
      assert EntryIn(e, rs[k], conns[k], restored);
      InElements(Sessions(rs), k);
    }
  }

  lemma SeatsCarried(c: RoomContext, e: RoomContext, d: RoomContext, sids: seq<Id>, now: int, restored: int)
    requires Enumerates(sids, PendingSeats(c)) && SeatsIn(e, d, PersistedSeats(c, sids, now), restored)
    ensures ElementSet(SeatSessions(PersistedSeats(c, sids, now))) == PendingSeats(c)
    ensures forall sid :: sid in PendingSeats(c) ==>
              sid in d.issued && sid in d.seats && d.seats[sid] == CarriedSeat(c.seats[sid], now, restored)
  {
    var ss := PersistedSeats(c, sids, now);
    assert SeatSessions(ss) == sids;
    ElementSetIs(sids, PendingSeats(c));
    forall sid | sid in PendingSeats(c)
      ensures sid in d.issued && sid in d.seats && d.seats[sid] == CarriedSeat(c.seats[sid], now, restored)
    {
      var k := IndexOf(sids, sid);
      assert SeatIn(d, ss[k], restored);
    }
  }

  lemma ListedCopy(d: RoomContext, e: RoomContext, rs: seq<PersistedReconnection>, conns: seq<Id>, restored: int)
    requires |conns| == |rs| && AllEntriesIn(d, rs, conns, restored) && e == d.(driver := Some(BuildListing(d)))
    ensures AllEntriesIn(e, rs, conns, restored) && BuildListing(e) == BuildListing(d)
  {
    forall k | 0 <= k < |rs| ensures EntryIn(e, rs[k], conns[k], restored) { assert EntryIn(d, rs[k], conns[k], restored); }
    assert PendingSeats(e) == PendingSeats(d);
  }

  /** `e0` is the cleared context, `e` has the entries, `d` the seats as well. */
  lemma RebuiltFrom(c: RoomContext, rs: seq<PersistedReconnection>, owners: seq<Id>, sids: seq<Id>, e0: RoomContext, e: RoomContext,
                    d: RoomContext, conns: seq<Id>, now: int, restored: int)
    requires SeatsOk(c, None) && Enumerates(sids, PendingSeats(c))
    requires OwnedBy(c, rs, owners) && Apart(rs) && |conns| == |rs| && Distinct(conns)
    requires EntriesIn(e, rs, conns, restored) && SameRest(e0, e) && SeatsIn(e, d, PersistedSeats(c, sids, now), restored)
    requires e0.maxClients == c.maxClients && e0.left == [] && e0.accepted == []
    requires e0.locked == c.locked && e0.isPrivate == c.isPrivate && e0.metadata == c.metadata && e0.options == c.options
    ensures Rebuilt(c, rs, owners, d.(driver := Some(BuildListing(d))), conns, now, restored)
  {
    SeatsCarried(c, e, d, sids, now, restored);
    EntriesSurviveSeats(c, rs, owners, e, d, PersistedSeats(c, sids, now), conns, restored);
    ListedCopy(d, d.(driver := Some(BuildListing(d))), rs, conns, restored);
  }

  /** The restored room, described by the old one. */
  lemma RestartRebuilds(c: RoomContext, tokens: seq<Id>, sids: seq<Id>, blank: RoomContext, conns: seq<Id>, now: int, restored: int, far: int)
    returns (owners: seq<Id>)
    requires Restarts(c, tokens, sids, blank, conns)
    ensures Rebuilt(c, Take(c, tokens, sids, now).reconnections, owners, Restored(blank, Take(c, tokens, sids, now), conns, restored, far), conns, now, restored)
    ensures forall i :: i in c.clients && (SavesClient(c, i) || Token(c, i) in c.reconnections) ==> i in owners
  {
    var s := Take(c, tokens, sids, now);
    owners := SnapshotOwners(c, tokens, now);
    OwnedApart(c, s.reconnections, owners);
    var e0 := Clear(blank, s);
    var e := RestoreEntries(e0, s.reconnections, conns, restored, far);
    EntriesRestored(e0, s.reconnections, conns, restored, far);
    SavedSeatsApart(c, sids, now);
    SeatsRestored(e, s.seats, restored);
    RebuiltFrom(c, s.reconnections, owners, sids, e0, e, RestoreSeats(e, s.seats, restored), conns, now, restored);
  }

  lemma SavedSeatsApart(c: RoomContext, sids: seq<Id>, now: int)
    requires Enumerates(sids, PendingSeats(c))
    ensures var ss := PersistedSeats(c, sids, now); forall i, j :: 0 <= i < j < |ss| ==> ss[i].sessionId != ss[j].sessionId
  {
  }

  function CarriedExpiry(at: Option<int>, now: int, restored: int): Option<int> {
    if at.Some? then Some(Carried(at.value, now, restored)) else None
  }

  /** The client a restored token stands for. */
  function HeldClient(d: RoomContext, token: Id): Option<Client> {
    if token in d.reconnections && d.reconnections[token].conn in d.conns then Some(d.conns[d.reconnections[token].conn]) else None
  }

  /** Every session that has joined, or waits to reconnect, is found again under its own token, with its auth and user data. */
  lemma RestartKeepsSessions(c: RoomContext, tokens: seq<Id>, sids: seq<Id>, blank: RoomContext, conns: seq<Id>,
                             now: int, restored: int, far: int, conn: Id)
    requires Restarts(c, tokens, sids, blank, conns)
    requires conn in c.clients && (Token(c, conn) in c.reconnections || c.conns[conn].IsJoined())
    ensures var d := Restored(blank, Take(c, tokens, sids, now), conns, restored, far);
            var t := Token(c, conn);
            && t in d.reconnections && d.reconnections[t].sessionId == Session(c, conn)
            && HeldClient(d, t) == Some(NewClient(Session(c, conn)).(
                 auth := c.conns[conn].auth, userData := c.conns[conn].userData, token := t, state := Reconnecting))
  {
    var owners := RestartRebuilds(c, tokens, sids, blank, conns, now, restored, far);
    MayComeBack(c, conn);
    OwnersAreHeld(c, Take(c, tokens, sids, now).reconnections, owners, Restored(blank, Take(c, tokens, sids, now), conns, restored, far), conns, now, restored, conn);
  }

  lemma MayComeBack(c: RoomContext, conn: Id)
    requires JoinedOk(c) && conn in c.clients && conn in c.conns && (Token(c, conn) in c.reconnections || c.conns[conn].IsJoined())
    ensures SavesClient(c, conn) || Token(c, conn) in c.reconnections
  {
  }

  lemma OwnersAreHeld(c: RoomContext, rs: seq<PersistedReconnection>, owners: seq<Id>, d: RoomContext, conns: seq<Id>, now: int, restored: int, conn: Id)
    requires Rebuilt(c, rs, owners, d, conns, now, restored) && conn in owners
    ensures conn in c.conns
    ensures var t := Token(c, conn);
            && t in d.reconnections && d.reconnections[t].sessionId == Session(c, conn)
            && HeldClient(d, t) == Some(NewClient(Session(c, conn)).(
                 auth := c.conns[conn].auth, userData := c.conns[conn].userData, token := t, state := Reconnecting))
  {
    var k :| 0 <= k < |owners| && owners[k] == conn;
    assert Owned(c, rs[k], conn) && EntryIn(d, rs[k], conns[k], restored);
    OwnerIsHeld(c, rs[k], conn, d, conns[k], restored);
  }

  lemma OwnerIsHeld(c: RoomContext, r: PersistedReconnection, owner: Id, d: RoomContext, conn: Id, restored: int)
    requires Owned(c, r, owner) && EntryIn(d, r, conn, restored)
    ensures var t := Token(c, owner);
            && t in d.reconnections && d.reconnections[t].sessionId == Session(c, owner)
            && HeldClient(d, t) == Some(NewClient(Session(c, owner)).(
                 auth := c.conns[owner].auth, userData := c.conns[owner].userData, token := t, state := Reconnecting))
  {
  }

  lemma PersistedExpiry(c: RoomContext, order: seq<Id>, now: int, k: nat)
    requires (forall t :: t in order ==> t in c.reconnections) && k < |PersistedReconnections(c, order, now)|
    ensures var r := PersistedReconnections(c, order, now)[k];
            r.expiresAtMs == if r.token in c.reconnections then SavedExpiry(c.reconnections[r.token].expiresAt, now) else None
  {
    if k < |order| {
      assert order[k] in order && PersistedReconnections(c, order, now)[k] == SaveEntry(c, order[k], now);
    } else {
      var saved := SavedClients(c, c.clients);
      assert saved[k - |order|] in saved && PersistedReconnections(c, order, now)[k] == SaveClient(c, saved[k - |order|]);
    }
  }

  lemma EntryCarries(c: RoomContext, d: RoomContext, r: PersistedReconnection, conn: Id, now: int, restored: int)
    requires EntryIn(d, r, conn, restored)
    requires r.expiresAtMs == if r.token in c.reconnections then SavedExpiry(c.reconnections[r.token].expiresAt, now) else None
    ensures r.token in d.reconnections
    ensures d.reconnections[r.token].expiresAt ==
              if r.token in c.reconnections then CarriedExpiry(c.reconnections[r.token].expiresAt, now, restored) else None
  {
  }

  /** A waiting session keeps its deadline, as far as the clocks carry it; a joined one gets no deadline. */
  lemma RestartCarriesDeadlines(c: RoomContext, tokens: seq<Id>, sids: seq<Id>, blank: RoomContext, conns: seq<Id>,
                                now: int, restored: int, far: int, t: Id)
    requires Restarts(c, tokens, sids, blank, conns)
    ensures var d := Restored(blank, Take(c, tokens, sids, now), conns, restored, far);
            t in d.reconnections ==>
              d.reconnections[t].expiresAt ==
                (if t in c.reconnections then CarriedExpiry(c.reconnections[t].expiresAt, now, restored) else None)
  {
    var rs := Take(c, tokens, sids, now).reconnections;
    var d := Restored(blank, Take(c, tokens, sids, now), conns, restored, far);
    var owners := RestartRebuilds(c, tokens, sids, blank, conns, now, restored, far);
    if t in d.reconnections {
      var k := IndexOf(Tokens(rs), t);
      PersistedExpiry(c, tokens, now, k);
      EntryCarries(c, d, rs[k], conns[k], now, restored);
    }
  }

  lemma RebuiltPending(c: RoomContext, rs: seq<PersistedReconnection>, owners: seq<Id>, d: RoomContext, conns: seq<Id>, now: int, restored: int)
    requires Rebuilt(c, rs, owners, d, conns, now, restored)
    ensures PendingSeats(d) == PendingSeats(c)
  {
    forall sid | sid in d.seats && sid !in PendingSeats(c) ensures d.seats[sid].waiting {
      var k := IndexOf(Sessions(rs), sid);
      assert EntryIn(d, rs[k], conns[k], restored);
    }
  }

  /** Open reservations survive, for the same sessions and nobody else, with their options and auth. */
  lemma RestartKeepsSeats(c: RoomContext, tokens: seq<Id>, sids: seq<Id>, blank: RoomContext, conns: seq<Id>, now: int, restored: int, far: int)
    requires Restarts(c, tokens, sids, blank, conns)
    ensures var d := Restored(blank, Take(c, tokens, sids, now), conns, restored, far);
            && PendingSeats(d) == PendingSeats(c)
            && forall sid :: sid in PendingSeats(c) ==> d.seats[sid] == CarriedSeat(c.seats[sid], now, restored)
  {
    var s := Take(c, tokens, sids, now);
    var owners := RestartRebuilds(c, tokens, sids, blank, conns, now, restored, far);
    RebuiltPending(c, s.reconnections, owners, Restored(blank, s, conns, restored, far), conns, now, restored);
  }

  lemma {:induction false} Pigeonhole(xs: seq<Id>, ys: seq<Id>)
    requires Distinct(xs) && forall x :: x in xs ==> x in ys
    ensures |xs| <= |ys|
    decreases |xs|
  {
    if xs != [] {
      assert xs[0] in ys;
      var k :| 0 <= k < |ys| && ys[k] == xs[0];
      var rest := ys[..k] + ys[k + 1..];
      forall x | x in xs[1..] ensures x in rest {
        assert x in xs && x != xs[0];
        var j :| 0 <= j < |ys| && ys[j] == x;
        assert x == if j < k then rest[j] else rest[j - 1];
      }
      Pigeonhole(xs[1..], rest);
    }
  }

  lemma RebuiltNames(rs: seq<PersistedReconnection>, d: RoomContext, conns: seq<Id>, restored: int)
    requires |conns| == |rs| && AllEntriesIn(d, rs, conns, restored)
    ensures forall k :: 0 <= k < |conns| ==> Session(d, conns[k]) == rs[k].sessionId && Token(d, conns[k]) == rs[k].token
    ensures forall k :: 0 <= k < |conns| ==> rs[k].sessionId in d.issued && rs[k].token in d.issued && conns[k] in d.conns
  {
    forall k | 0 <= k < |conns|
      ensures Session(d, conns[k]) == rs[k].sessionId && Token(d, conns[k]) == rs[k].token
      ensures rs[k].sessionId in d.issued && rs[k].token in d.issued && conns[k] in d.conns
    {
      assert EntryIn(d, rs[k], conns[k], restored);
    }
  }

  lemma RebuiltClients(c: RoomContext, rs: seq<PersistedReconnection>, owners: seq<Id>, d: RoomContext, conns: seq<Id>, now: int, restored: int)
    requires Rebuilt(c, rs, owners, d, conns, now, restored)
    ensures ClientsOk(d) && TokensOk(d) && HistoryOk(d, None)
  {
    RebuiltNames(rs, d, conns, restored);
    forall i | i in d.conns ensures Token(d, i) in d.issued {
      var k := IndexOf(conns, i);
    }
  }

  lemma RebuiltEntriesOk(c: RoomContext, rs: seq<PersistedReconnection>, owners: seq<Id>, d: RoomContext, conns: seq<Id>, now: int, restored: int)
    requires Rebuilt(c, rs, owners, d, conns, now, restored)
    ensures EntriesOk(d) && WaitingOk(d)
  {
    forall t | t in d.reconnections ensures EntryOk(d, t) {
      var k := IndexOf(Tokens(rs), t);
      assert EntryIn(d, rs[k], conns[k], restored) && Owned(c, rs[k], owners[k]);
    }
    forall sid | sid in d.seats && d.seats[sid].waiting ensures HasEntry(d, sid) {
      var k := IndexOf(Sessions(rs), sid);
      assert EntryIn(d, rs[k], conns[k], restored);
    }
  }

  lemma RebuiltSeatsOk(c: RoomContext, rs: seq<PersistedReconnection>, owners: seq<Id>, d: RoomContext, conns: seq<Id>, now: int, restored: int)
    requires SeatsOk(c, None) && Rebuilt(c, rs, owners, d, conns, now, restored)
    ensures SeatsOk(d, None)
  {
    RebuiltNames(rs, d, conns, restored);
    RebuiltPending(c, rs, owners, d, conns, now, restored);
    forall sid | sid in d.seats && sid !in PendingSeats(c) ensures sid in d.issued && !d.seats[sid].consumed {
      var k := IndexOf(Sessions(rs), sid);
      assert EntryIn(d, rs[k], conns[k], restored);
    }
    OwnedNotPending(c, rs, owners);
    forall sid, k | sid in PendingSeats(c) && 0 <= k < |conns| ensures Session(d, conns[k]) != sid {
      InElements(Sessions(rs), k);
    }
  }

  /** The restored room satisfies the invariant again, and still respects its limit. */
  lemma RestartKeepsInv(c: RoomContext, tokens: seq<Id>, sids: seq<Id>, blank: RoomContext, conns: seq<Id>, now: int, restored: int, far: int)
    requires Restarts(c, tokens, sids, blank, conns)
    ensures var d := Restored(blank, Take(c, tokens, sids, now), conns, restored, far);
            Inv(d, None, None) && Load(d) <= Load(c)
  {
    var s := Take(c, tokens, sids, now);
    var owners := RestartRebuilds(c, tokens, sids, blank, conns, now, restored, far);
    RebuiltInv(c, s.reconnections, owners, Restored(blank, s, conns, restored, far), conns, now, restored);
  }

  lemma RebuiltInv(c: RoomContext, rs: seq<PersistedReconnection>, owners: seq<Id>, d: RoomContext, conns: seq<Id>, now: int, restored: int)
    requires Inv(c, None, None) && Rebuilt(c, rs, owners, d, conns, now, restored)
    ensures Inv(d, None, None) && Load(d) <= Load(c)
  {
    RebuiltPending(c, rs, owners, d, conns, now, restored);
    RebuiltClients(c, rs, owners, d, conns, now, restored);
    RebuiltWait(c, rs, owners, d, conns, now, restored);
    RebuiltEntriesOk(c, rs, owners, d, conns, now, restored);
    RebuiltSeatsOk(c, rs, owners, d, conns, now, restored);
    assert forall k :: 0 <= k < |owners| ==> Owned(c, rs[k], owners[k]);
    Pigeonhole(owners, c.clients);
  }

  // ------------------------------------------------------------------
  // A second snapshot
  // ------------------------------------------------------------------

  /** Equal but for deadlines that have passed in between, which read as due now. */
  ghost predicate SameSaved(a: PersistedReconnection, b: PersistedReconnection, restored: int) {
    && a.sessionId == b.sessionId && a.token == b.token && a.auth == b.auth && a.userData == b.userData
    && (a.expiresAtMs.None? <==> b.expiresAtMs.None?)
    && (a.expiresAtMs.Some? ==> b.expiresAtMs.value == if a.expiresAtMs.value > restored / MS then a.expiresAtMs.value else restored / MS)
  }

  lemma FromWallclockSaved(ms: int, restored: int)
    requires 0 <= restored
    ensures ToWallclock(FromWallclock(ms, restored), restored) == if ms > restored / MS then ms else restored / MS
  {
  }

  lemma {:induction false} NobodyConnected(d: RoomContext, list: seq<Id>)
    requires forall i :: i in list ==> !SavesClient(d, i)
    ensures SavedClients(d, list) == []
  {
    if list != [] {
      assert list[0] in list;
      NobodyConnected(d, list[1..]);
    }
  }

  /** All clients of the restored room wait, so its snapshot consists of its entries. */
  lemma SecondSnapshotIsEntries(d: RoomContext, tokens: seq<Id>, now: int)
    requires forall i :: i in d.clients ==> i in d.conns && !d.conns[i].IsJoined()
    requires forall t :: t in tokens ==> t in d.reconnections
    ensures PersistedReconnections(d, tokens, now) == SaveEntries(d, tokens, now)
  {
    NobodyConnected(d, d.clients);
  }

  ghost predicate SavedBefore(rs: seq<PersistedReconnection>, b: PersistedReconnection, restored: int) {
    exists k :: 0 <= k < |rs| && SameSaved(rs[k], b, restored)
  }

  ghost predicate SavedAfter(a: PersistedReconnection, again: seq<PersistedReconnection>, restored: int) {
    exists j :: 0 <= j < |again| && SameSaved(a, again[j], restored)
  }

  /** Saving the restored room gives the first snapshot again, entry by entry and seat by seat. */
  lemma SecondSnapshotEqual(c: RoomContext, tokens: seq<Id>, sids: seq<Id>, blank: RoomContext, conns: seq<Id>,
                            now: int, restored: int, far: int, tokens2: seq<Id>, sids2: seq<Id>)
    requires Restarts(c, tokens, sids, blank, conns) && 0 <= now <= restored
    requires var d := Restored(blank, Take(c, tokens, sids, now), conns, restored, far);
             Enumerates(tokens2, d.reconnections.Keys) && Enumerates(sids2, PendingSeats(d))
    ensures var s := Take(c, tokens, sids, now);
            var d := Restored(blank, s, conns, restored, far);
            var s2 := Take(d, tokens2, sids2, restored);
            && s2.options == s.options && s2.metadata == s.metadata && s2.locked == s.locked
            && s2.isPrivate == s.isPrivate && s2.maxClients == s.maxClients
            && (forall j :: 0 <= j < |s2.reconnections| ==> SavedBefore(s.reconnections, s2.reconnections[j], restored))
            && (forall k :: 0 <= k < |s.reconnections| ==> SavedAfter(s.reconnections[k], s2.reconnections, restored))
  {
    var s := Take(c, tokens, sids, now);
    var d := Restored(blank, s, conns, restored, far);
    var owners := RestartRebuilds(c, tokens, sids, blank, conns, now, restored, far);
    RebuiltWait(c, s.reconnections, owners, d, conns, now, restored);
    SecondSnapshotIsEntries(d, tokens2, restored);
    ElementSetIs(tokens2, d.reconnections.Keys);
    SavedTwiceAll(s.reconnections, d, conns, tokens2, restored);
  }

  lemma EntrySavedBefore(rs: seq<PersistedReconnection>, d: RoomContext, conns: seq<Id>, token: Id, restored: int)
    requires |conns| == |rs| && AllEntriesIn(d, rs, conns, restored) && d.reconnections.Keys == ElementSet(Tokens(rs))
    requires token in d.reconnections && 0 <= restored
    ensures SavedBefore(rs, SaveEntry(d, token, restored), restored)
  {
    var k := IndexOf(Tokens(rs), token);
    SavedTwice(d, rs[k], conns[k], restored);
  }

  lemma EntrySavedAfter(d: RoomContext, r: PersistedReconnection, conn: Id, tokens: seq<Id>, restored: int)
    requires EntryIn(d, r, conn, restored) && 0 <= restored
    requires (forall t :: t in tokens ==> t in d.reconnections) && ElementSet(tokens) == d.reconnections.Keys
    ensures SavedAfter(r, SaveEntries(d, tokens, restored), restored)
  {
    var j := IndexOf(tokens, r.token);
    SavedTwice(d, r, conn, restored);
    assert SameSaved(r, SaveEntries(d, tokens, restored)[j], restored);
  }

  /** Every first entry has its second one, and the other way round. */
  lemma SavedTwiceAll(rs: seq<PersistedReconnection>, d: RoomContext, conns: seq<Id>, tokens: seq<Id>, restored: int)
    requires |conns| == |rs| && AllEntriesIn(d, rs, conns, restored) && d.reconnections.Keys == ElementSet(Tokens(rs))
    requires (forall t :: t in tokens ==> t in d.reconnections) && ElementSet(tokens) == d.reconnections.Keys && 0 <= restored
    ensures var again := SaveEntries(d, tokens, restored);
            && (forall j :: 0 <= j < |again| ==> SavedBefore(rs, again[j], restored))
            && (forall k :: 0 <= k < |rs| ==> SavedAfter(rs[k], again, restored))
  {
    forall j | 0 <= j < |tokens| ensures SavedBefore(rs, SaveEntries(d, tokens, restored)[j], restored) {
      InElements(tokens, j);
      EntrySavedBefore(rs, d, conns, tokens[j], restored);
    }
    forall k | 0 <= k < |rs| ensures SavedAfter(rs[k], SaveEntries(d, tokens, restored), restored) {
      assert EntryIn(d, rs[k], conns[k], restored);
      EntrySavedAfter(d, rs[k], conns[k], tokens, restored);
    }
  }

  lemma RebuiltWait(c: RoomContext, rs: seq<PersistedReconnection>, owners: seq<Id>, d: RoomContext, conns: seq<Id>, now: int, restored: int)
    requires Rebuilt(c, rs, owners, d, conns, now, restored)
    ensures forall i :: i in d.clients ==> i in d.conns && !d.conns[i].IsJoined()
    ensures forall i :: i in d.conns ==> !d.conns[i].IsJoined()
  {
    forall k | 0 <= k < |conns| ensures conns[k] in d.conns && !d.conns[conns[k]].IsJoined() {
      assert EntryIn(d, rs[k], conns[k], restored);
    }
    forall i | i in d.conns ensures !d.conns[i].IsJoined() {
      var k := IndexOf(conns, i);
    }
  }

  lemma SavedTwice(d: RoomContext, r: PersistedReconnection, conn: Id, restored: int)
    requires EntryIn(d, r, conn, restored) && 0 <= restored
    ensures SameSaved(r, SaveEntry(d, r.token, restored), restored)
  {
    if r.expiresAtMs.Some? { FromWallclockSaved(r.expiresAtMs.value, restored); }
  }

  /** And the same for the seats. */
  lemma SecondSnapshotSeatsEqual(c: RoomContext, tokens: seq<Id>, sids: seq<Id>, blank: RoomContext, conns: seq<Id>,
                                 now: int, restored: int, far: int, sids2: seq<Id>)
    requires Restarts(c, tokens, sids, blank, conns) && 0 <= now <= restored
    requires Enumerates(sids2, PendingSeats(Restored(blank, Take(c, tokens, sids, now), conns, restored, far)))
    ensures var s := Take(c, tokens, sids, now);
            var d := Restored(blank, s, conns, restored, far);
            && |sids2| == |s.seats| && (forall sid :: sid in sids2 <==> sid in SeatSessions(s.seats))
            && forall j, k :: 0 <= j < |sids2| && 0 <= k < |s.seats| && s.seats[k].sessionId == sids2[j] ==>
                 var again := PersistedSeats(d, sids2, restored)[j];
                 && again.options == s.seats[k].options && again.auth == s.seats[k].auth
                 && again.expiresAtMs == if s.seats[k].expiresAtMs > restored / MS then s.seats[k].expiresAtMs else restored / MS
  {
    RestartKeepsSeats(c, tokens, sids, blank, conns, now, restored, far);
    SeatsSavedAgain(c, Restored(blank, Take(c, tokens, sids, now), conns, restored, far), sids, sids2, now, restored);
  }

  lemma SeatsSavedAgain(c: RoomContext, d: RoomContext, sids: seq<Id>, sids2: seq<Id>, now: int, restored: int)
    requires Enumerates(sids, PendingSeats(c)) && Enumerates(sids2, PendingSeats(d)) && 0 <= now <= restored
    requires PendingSeats(d) == PendingSeats(c)
    requires forall sid :: sid in PendingSeats(c) ==> d.seats[sid] == CarriedSeat(c.seats[sid], now, restored)
    ensures var first, again := PersistedSeats(c, sids, now), PersistedSeats(d, sids2, restored);
            && |sids2| == |first| && (forall sid :: sid in sids2 <==> sid in SeatSessions(first))
            && forall j, k :: 0 <= j < |sids2| && 0 <= k < |first| && first[k].sessionId == sids2[j] ==>
                 && again[j].options == first[k].options && again[j].auth == first[k].auth
                 && again[j].expiresAtMs == if first[k].expiresAtMs > restored / MS then first[k].expiresAtMs else restored / MS
  {
    var first, again := PersistedSeats(c, sids, now), PersistedSeats(d, sids2, restored);
    Pigeonhole(sids, sids2);
    Pigeonhole(sids2, sids);
    assert SeatSessions(first) == sids;
    forall j, k | 0 <= j < |sids2| && 0 <= k < |first| && first[k].sessionId == sids2[j]
      ensures again[j].expiresAtMs == if first[k].expiresAtMs > restored / MS then first[k].expiresAtMs else restored / MS
    {
      SavedAgain(c.seats[sids[k]].expiresAt, now, restored);
    }
  }
}
