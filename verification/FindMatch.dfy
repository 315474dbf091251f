/** `find_match`: which of the listings that a request matches it takes. */
module FindMatch {
  import opened Json
  import opened Query
  import opened Handlers
  import opened Matchmaker
  import opened Driver
  import opened UniqueRooms

  /** The first row that the custom predicate keeps. */
  function FirstSuited(rows: seq<Entry>, suits: RoomListing -> bool): Option<Entry> {
    if rows == [] then None
    else if suits(rows[0].listing) then Some(rows[0])
    else FirstSuited(rows[1..], suits)
  }

  lemma {:induction false} FirstSuitedAt(rows: seq<Entry>, suits: RoomListing -> bool) returns (k: nat)
    ensures FirstSuited(rows, suits).None? ==> forall e :: e in rows ==> !suits(e.listing)
    ensures FirstSuited(rows, suits).Some? ==>
              k < |rows| && rows[k] == FirstSuited(rows, suits).value && suits(rows[k].listing) && forall i :: 0 <= i < k ==> !suits(rows[i].listing)
  {
    k := 0;
    if rows != [] && !suits(rows[0].listing) {
      k := FirstSuitedAt(rows[1..], suits);
      k := k + 1;
      assert rows == [rows[0]] + rows[1..];
    }
  }

  /** What the driver is asked for a request. */
  function MatchQuery(reg: Registry, task: Task): (accepts: Json -> bool)
    requires task.room in reg.handlers
  {
    var conditions := MatchConditions(reg.handlers[task.room], task.room, task.options) + task.filter;
    flat => Accepts(flat, conditions, reg.text)
  }

  function Suited(reg: Registry, task: Task): (suits: RoomListing -> bool)
    requires task.room in reg.handlers
  {
    l => reg.handlers[task.room].suits(l, task.options)
  }

  /** The driver's answer for a request, in the order of the room type. */
  function Candidates(reg: Registry, task: Task, store: map<Id, Entry>, order: seq<Id>, sort: seq<Column>): seq<Entry>
    requires task.room in reg.handlers && forall id :: id in order ==> id in store
  {
    Answer(Entries(store, order), MatchQuery(reg, task), sort)
  }

  /** The room found. */
  function Chosen(reg: Registry, task: Task, store: map<Id, Entry>, order: seq<Id>, sort: seq<Column>): Option<RoomId>
    requires task.room in reg.handlers && forall id :: id in order ==> id in store
  {
    var first := FirstSuited(Candidates(reg, task, store, order, sort), Suited(reg, task));
    if first.Some? then Some(first.value.listing.roomId) else None
  }

  lemma IsCandidate(w: World, task: Task, store: map<Id, Entry>, order: seq<Id>, sort: seq<Column>, e: Entry)
    requires task.room in w.registry.handlers && IsStoreOf(w, store, order)
    ensures e in Candidates(w.registry, task, store, order, sort) && Suited(w.registry, task)(e.listing) <==>
            e.listing.roomId in w.listings && store[e.listing.roomId] == e && Matches(w.registry, task, w.listings[e.listing.roomId])
  {
    EntriesDistinct(store, order);
    SortedHasRows(Matching(Entries(store, order), MatchQuery(w.registry, task)), sort);
  }

  /** What `find_match` makes of the driver's answer is what the step of a request is given. */
  lemma DriverFinds(w: World, task: Task, store: map<Id, Entry>, order: seq<Id>, sort: seq<Column>)
    requires task.room in w.registry.handlers && IsStoreOf(w, store, order)
    ensures IsLookup(w, task, Chosen(w.registry, task, store, order, sort))
  {
    var rows := Candidates(w.registry, task, store, order, sort);
    var k := FirstSuitedAt(rows, Suited(w.registry, task));
    if Chosen(w.registry, task, store, order, sort).Some? {
      IsCandidate(w, task, store, order, sort, rows[k]);
    } else {
      forall r | r in w.listings ensures !Matches(w.registry, task, w.listings[r]) {
        IsCandidate(w, task, store, order, sort, store[r]);
      }
    }
  }

  /** For columns of one kind each, no room that the request matches stands ahead of the one it takes. */
  lemma TakesTheFirst(w: World, task: Task, store: map<Id, Entry>, order: seq<Id>, sort: seq<Column>, r: RoomId)
    requires task.room in w.registry.handlers && IsStoreOf(w, store, order)
    requires OneKind(Flats(Candidates(w.registry, task, store, order, sort)), sort)
    requires r in w.listings && Matches(w.registry, task, w.listings[r])
    ensures var found := Chosen(w.registry, task, store, order, sort);
            && found.Some? && found.value in w.listings
            && (found == Some(r) || AheadBy(Flatten(w.listings[found.value]), Flatten(w.listings[r]), sort)
                || TiedBy(Flatten(w.listings[found.value]), Flatten(w.listings[r]), sort))
  {
    var rows := Candidates(w.registry, task, store, order, sort);
    var k := FirstSuitedAt(rows, Suited(w.registry, task));
    IsCandidate(w, task, store, order, sort, store[r]);
    IsCandidate(w, task, store, order, sort, rows[k]);
    var i :| 0 <= i < |rows| && rows[i] == store[r];
    AnswerOrdered(Entries(store, order), MatchQuery(w.registry, task), sort);
    if k < i { assert AheadBy(rows[k].flat, rows[i].flat, sort) || TiedBy(rows[k].flat, rows[i].flat, sort); }
  }
}
