/**
 * How many rooms the requests of one criteria lock make: one, if what they make is what they look for.
 * And for which declarations that is so.
 */
module CriteriaRooms {
  import opened Json
  import opened LockTable
  import opened Query
  import opened Handlers
  import opened Matchmaker

  type Happening = Matchmaker.Event

  // ------------------------------------------------------------------
  // One creation under one criteria lock
  // ------------------------------------------------------------------

  /** Requests that ask for one criteria lock. */
  ghost predicate IsGroup(w: World, group: set<nat>) {
    forall t, u :: t in group && u in group && t in w.tasks && u in w.tasks ==>
      CritKey(w.tasks[t]).Some? && CritKey(w.tasks[t]) == CritKey(w.tasks[u])
  }

  /** Nothing but requests acts: no room ends, and no listing is lost or changed. Requests may be dropped. */
  predicate IsQuiet(events: seq<Happening>) { forall k :: 0 <= k < |events| ==> events[k].Go? || events[k].Cancel? }

  /** A member of the group puts its room into the driver. */
  predicate Lists(e: Happening, group: set<nat>) { e.Go? && e.choice.Listed? && e.task in group }

  function Creations(events: seq<Happening>, group: set<nat>): nat {
    if events == [] then 0 else (if Lists(events[0], group) then 1 else 0) + Creations(events[1..], group)
  }

  /** Every member would take this listing. */
  ghost predicate MatchedByAll(w: World, group: set<nat>, l: RoomListing) {
    forall t :: t in group && t in w.tasks ==> Matches(w.registry, w.tasks[t], l)
  }

  /** What the members list is what all of them look for. */
  ghost predicate MakeWhatTheySeek(w: World, events: seq<Happening>, group: set<nat>) {
    forall k :: 0 <= k < |events| && Lists(events[k], group) ==> MatchedByAll(w, group, events[k].choice.listing)
  }

  /** Between the lookup under the criteria lock and the listing of the new room. */
  predicate Creating(pc: Pc) {
    pc.UniqCreate? || pc.UniqWait? || pc.Query? || pc.Check? || pc.Prune? || pc.Spawn? || pc.PutRoom? || pc.PutListing?
  }

  ghost predicate NobodyCreates(w: World, group: set<nat>) {
    forall t :: t in group && t in w.tasks ==> !Creating(w.tasks[t].pc)
  }

  /** A room in the room map, listed, and taken by every member. */
  ghost predicate IsStock(w: World, group: set<nat>, r: RoomId) {
    r in w.rooms && r in w.listings && MatchedByAll(w, group, w.listings[r])
  }

  /** A room to be listed is in the room map. */
  ghost predicate NewRoomsStand(w: World) {
    forall t :: t in w.tasks && w.tasks[t].pc.PutListing? ==> w.tasks[t].pc.room in w.rooms
  }

  /** Two members are never both past the lock. */
  lemma OneCreator(w: World, group: set<nat>, t: nat, u: nat)
    requires SessionsAgree(w) && IsGroup(w, group) && t in group && u in group && t in w.tasks && u in w.tasks
    requires Creating(w.tasks[t].pc) && Creating(w.tasks[u].pc)
    ensures t == u
  {
    assert TaskAgrees(w.table, t, w.tasks[t]) && TaskAgrees(w.table, u, w.tasks[u]);
    MutualExclusion(w.table, Crit(t), Crit(u));
  }

  ghost predicate RequestsStay(w: World, w': World) {
    w'.registry == w.registry && SameRequests(w.tasks, w'.tasks)
  }

  lemma QuietStays(w: World, e: Happening)
    requires Possible(w, e) && (e.Go? || e.Cancel?)
    ensures RequestsStay(w, Happen(w, e)) && w.rooms <= Happen(w, e).rooms
  {
    if e.Go? {
      GoSteps(w, e.task, e.choice);
      StepKeepsRequests(w, Happen(w, e), e.task, e.choice);
    }
  }

  lemma GroupStays(w: World, w': World, group: set<nat>)
    requires RequestsStay(w, w')
    ensures IsGroup(w, group) ==> IsGroup(w', group)
    ensures forall l :: MatchedByAll(w', group, l) <==> MatchedByAll(w, group, l)
  {
    forall t | t in w.tasks ensures SameRequest(w.tasks[t], w'.tasks[t]) {}
    forall l ensures MatchedByAll(w', group, l) <==> MatchedByAll(w, group, l) {
      forall t | t in w.tasks ensures Matches(w'.registry, w'.tasks[t], l) <==> Matches(w.registry, w.tasks[t], l) {}
    }
  }

  lemma SeekStays(w: World, events: seq<Happening>, group: set<nat>)
    requires events != [] && Possible(w, events[0]) && IsQuiet(events) && MakeWhatTheySeek(w, events, group)
    ensures IsQuiet(events[1..]) && MakeWhatTheySeek(Happen(w, events[0]), events[1..], group)
  {
    QuietStays(w, events[0]);
    GroupStays(w, Happen(w, events[0]), group);
    forall k | 0 <= k < |events[1..]| && Lists(events[1..][k], group)
      ensures MatchedByAll(Happen(w, events[0]), group, events[1..][k].choice.listing)
    {
      assert Lists(events[k + 1], group);
    }
  }

  lemma NewRoomsStandOn(w: World, e: Happening)
    requires NewRoomsStand(w) && Possible(w, e) && (e.Go? || e.Cancel?)
    ensures NewRoomsStand(Happen(w, e))
  {
    QuietStays(w, e);
    if e.Go? { GoSteps(w, e.task, e.choice); }
    forall t | t in Happen(w, e).tasks && Happen(w, e).tasks[t].pc.PutListing? ensures Happen(w, e).tasks[t].pc.room in Happen(w, e).rooms {
      if e.Go? && e.task == t { assert w.tasks[t].pc == PutRoom(Happen(w, e).tasks[t].pc.room); }
    }
  }

  /** A step removes or replaces no listing of a room that stands. */
  lemma ListingStays(w: World, w': World, t: nat, choice: Choice, r: RoomId)
    requires Stepped(w, w', t, choice) && IdsAgree(w) && Knows(w, w.tasks[t]) && r in w.rooms && r in w.listings
    ensures r in w'.rooms && r in w'.listings && w'.listings[r] == w.listings[r]
  {
    var pc := w.tasks[t].pc;
    if pc.PutListing? { assert Pending(pc, pc.room); }
  }

  /** A quiet event keeps the listing of a room that stands. */
  lemma StockStays(w: World, e: Happening, group: set<nat>, r: RoomId)
    requires IdsAgree(w) && KnowledgeHolds(w) && Possible(w, e) && (e.Go? || e.Cancel?) && IsStock(w, group, r)
    ensures IsStock(Happen(w, e), group, r)
  {
    QuietStays(w, e);
    GroupStays(w, Happen(w, e), group);
    if e.Go? {
      GoSteps(w, e.task, e.choice);
      ListingStays(w, Happen(w, e), e.task, e.choice, r);
    }
  }

  predicate Acts(e: Happening, t: nat) { (e.Go? && e.task == t) || (e.Cancel? && e.victim == t) }

  lemma OthersRest(w: World, e: Happening, t: nat)
    requires Possible(w, e) && Acts(e, t)
    ensures t in w.tasks && Happen(w, e).tasks.Keys == w.tasks.Keys
    ensures forall u :: u in w.tasks && u != t ==> Happen(w, e).tasks[u] == w.tasks[u]
    ensures e.Cancel? ==> Happen(w, e).tasks[t].pc.Done?
  {
  }

  lemma NobodyElseCreates(w: World, w': World, group: set<nat>, t: nat)
    requires t in w.tasks && w'.tasks.Keys == w.tasks.Keys && forall u :: u in w.tasks && u != t ==> w'.tasks[u] == w.tasks[u]
    requires t in group ==> !Creating(w'.tasks[t].pc)
    requires forall u :: u in group && u in w.tasks && u != t ==> !Creating(w.tasks[u].pc)
    ensures NobodyCreates(w', group)
  {
  }

  /** Where a room is in stock, nobody begins to make one. */
  lemma StockSuffices(w: World, e: Happening, group: set<nat>, r: RoomId)
    requires TasksAgree(w) && Possible(w, e) && (e.Go? || e.Cancel?)
    requires IsStock(w, group, r) && NobodyCreates(w, group)
    ensures !Lists(e, group) && NobodyCreates(Happen(w, e), group)
  {
    var t := if e.Go? then e.task else e.victim;
    OthersRest(w, e, t);
    if e.Go? && t in group {
      assert TaskAgrees(w.table, t, w.tasks[t]);
      BeginsNone(w, t, e.choice, r);
    }
    NobodyElseCreates(w, Happen(w, e), group, t);
  }

  lemma BeginsNone(w: World, t: nat, choice: Choice, r: RoomId)
    requires CanGo(w, t, choice) && !Creating(w.tasks[t].pc) && WellFormed(w.tasks[t])
    requires r in w.listings && Matches(w.registry, w.tasks[t], w.listings[r])
    ensures !choice.Listed? && !Creating(GoStep(w, t, choice).tasks[t].pc)
  {
    BeginsToCreate(w, t, choice, GoStep(w, t, choice).table);
  }

  /** Only a lookup under the lock that finds nothing leads to a creation. */
  lemma BeginsToCreate(w: World, t: nat, choice: Choice, table: Table)
    requires CanGo(w, t, choice) && !Creating(w.tasks[t].pc) && WellFormed(w.tasks[t])
    ensures Creating(NextPc(w, t, table, choice)) ==> w.tasks[t].pc.Recheck? && choice == Lookup(None)
    ensures choice.Listed? ==> w.tasks[t].pc.Done?
  {
  }

  ghost predicate IsStocked(w: World, group: set<nat>, r: RoomId) {
    Matchmaker.Inv(w) && IsGroup(w, group) && IsStock(w, group, r) && NobodyCreates(w, group)
  }

  lemma StockedOn(w: World, e: Happening, group: set<nat>, r: RoomId)
    requires IsStocked(w, group, r) && Possible(w, e) && (e.Go? || e.Cancel?)
    ensures IsStocked(Happen(w, e), group, r) && !Lists(e, group)
  {
    HappenKeepsInv(w, e);
    QuietStays(w, e);
    GroupStays(w, Happen(w, e), group);
    StockStays(w, e, group, r);
    StockSuffices(w, e, group, r);
  }

  /** Once a room is in stock, no member lists one. */
  lemma {:induction false} NoneFromStock(w: World, events: seq<Happening>, group: set<nat>, r: RoomId)
    requires IsStocked(w, group, r) && Matchmaker.Run(w, events).Some? && IsQuiet(events)
    ensures Creations(events, group) == 0
    decreases |events|
  {
    if events != [] {
      StockedOn(w, events[0], group, r);
      NoneFromStock(Happen(w, events[0]), events[1..], group, r);
    }
  }

  /** The one that lists its room fills the stock, and nobody else is creating then. */
  lemma ListingFillsStock(w: World, e: Happening, group: set<nat>)
    requires SessionsAgree(w) && IsGroup(w, group) && NewRoomsStand(w) && Possible(w, e) && Lists(e, group)
    requires MatchedByAll(w, group, e.choice.listing)
    ensures w.tasks[e.task].pc.PutListing? && IsStock(Happen(w, e), group, w.tasks[e.task].pc.room) && NobodyCreates(Happen(w, e), group)
  {
    var w', t := Happen(w, e), e.task;
    assert TaskAgrees(w.table, t, w.tasks[t]);
    ListsItsRoom(w, t, e.choice);
    QuietStays(w, e);
    GroupStays(w, w', group);
    OthersRest(w, e, t);
    forall u | u in group && u in w.tasks && u != t ensures !Creating(w.tasks[u].pc) {
      if Creating(w.tasks[u].pc) { OneCreator(w, group, t, u); }
    }
    NobodyElseCreates(w, w', group, t);
  }

  lemma ListsItsRoom(w: World, t: nat, choice: Choice)
    requires CanGo(w, t, choice) && choice.Listed?
    ensures w.tasks[t].pc.PutListing? && !Creating(GoStep(w, t, choice).tasks[t].pc)
    ensures GoStep(w, t, choice).listings == w.listings[w.tasks[t].pc.room := choice.listing] && GoStep(w, t, choice).rooms == w.rooms
  {
  }

  lemma {:induction false} OneCreation(w: World, events: seq<Happening>, group: set<nat>)
    requires Matchmaker.Inv(w) && IsGroup(w, group) && NewRoomsStand(w) && Matchmaker.Run(w, events).Some? && IsQuiet(events)
    requires MakeWhatTheySeek(w, events, group)
    ensures Creations(events, group) <= 1
    decreases |events|
  {
    if events != [] {
      var w' := Happen(w, events[0]);
      HappenKeepsInv(w, events[0]);
      QuietStays(w, events[0]);
      GroupStays(w, w', group);
      SeekStays(w, events, group);
      NewRoomsStandOn(w, events[0]);
      if Lists(events[0], group) {
        ListingFillsStock(w, events[0], group);
        NoneFromStock(w', events[1..], group, w.tasks[events[0].task].pc.room);
      } else {
        OneCreation(w', events[1..], group);
      }
    }
  }

  /**
   * In every interleaving of requests, dropped ones included, the requests of one criteria lock make
   * at most one room, if what they list is what all of them look for.
   */
  lemma OneRoomPerCriteria(start: World, events: seq<Happening>, group: set<nat>)
    requires Initial(start) && Matchmaker.Run(start, events).Some? && IsQuiet(events) && IsGroup(start, group)
    requires MakeWhatTheySeek(start, events, group)
    ensures Creations(events, group) <= 1
  {
    Matchmaker.InitialInv(start);
    OneCreation(start, events, group);
  }

  // ------------------------------------------------------------------
  // Whether requests find what they make
  // ------------------------------------------------------------------

  /** Names under which every listing, or one with all its options, shows something of its own. */
  const CORE: set<string> :=
    {"roomId", "name", "processId", "clients", "maxClients", "locked", "private", "metadata", "createdAt"}

  /** A listing that is open to everybody. */
  predicate IsOpen(l: RoomListing) { !l.locked && !l.isPrivate }

  /** Made for `join_or_create` with these options, and open. */
  predicate IsMadeFor(reg: Registry, room: string, options: Options, l: RoomListing)
    requires room in reg.handlers
  {
    IsListingOf(reg, room, reg.handlers[room].defaults + options, l) && IsOpen(l)
  }

  /** Does the query with these options accept the listing? */
  predicate Takes(reg: Registry, room: string, options: Options, l: RoomListing)
    requires room in reg.handlers
  {
    Accepts(Flatten(l), MatchConditions(reg.handlers[room], room, options), reg.text)
  }

  /** The listing shows what the options ask of this field. */
  predicate FieldFits(l: RoomListing, f: string, options: Options, strict: bool, text: NumberText) {
    if f in options then ResolvePath(Flatten(l), f).Some? && ValueEq(ResolvePath(Flatten(l), f).value, options[f], text)
    else strict ==> ResolvePath(Flatten(l), f).None?
  }

  lemma FieldConditionsSplit(fields: seq<string>, options: Options, strict: bool)
    requires fields != []
    ensures FieldConditions(fields, options, strict) == FieldConditions([fields[0]], options, strict) + FieldConditions(fields[1..], options, strict)
  {
    assert [fields[0]][1..] == [];
  }

  lemma {:induction false} FieldsFit(l: RoomListing, fields: seq<string>, options: Options, strict: bool, text: NumberText)
    ensures Accepts(Flatten(l), FieldConditions(fields, options, strict), text) <==>
            forall f :: f in fields ==> FieldFits(l, f, options, strict, text)
  {
    if fields != [] {
      FieldsFit(l, fields[1..], options, strict, text);
      OneFieldFits(l, fields[0], options, strict, text);
      FieldConditionsSplit(fields, options, strict);
      AcceptsBoth(Flatten(l), FieldConditions([fields[0]], options, strict), FieldConditions(fields[1..], options, strict), text);
      assert fields == [fields[0]] + fields[1..];
    }
  }

  lemma OneFieldFits(l: RoomListing, f: string, options: Options, strict: bool, text: NumberText)
    ensures Accepts(Flatten(l), FieldConditions([f], options, strict), text) <==> FieldFits(l, f, options, strict, text)
  {
    assert [f][1..] == [];
    if f in options {
      assert EqualTo(f, options[f]) in FieldConditions([f], options, strict);
    } else if strict {
      assert Condition(f, NotExists, None) in FieldConditions([f], options, strict);
    }
  }

  /** The three conditions that every request asks: the room type, not locked, not private. */
  function OpenConditions(room: string): seq<Condition> {
    [EqualTo("name", Str(room)), EqualTo("locked", Bool(false)), EqualTo("private", Bool(false))]
  }

  lemma PlainCondition(l: RoomListing, f: string, v: Json, text: NumberText)
    requires '.' !in f
    ensures Accepts(Flatten(l), [EqualTo(f, v)], text) <==> Member(Flatten(l), f).Some? && ValueEq(Member(Flatten(l), f).value, v, text)
  {
    PlainField(Flatten(l), f);
    assert EqualTo(f, v) in [EqualTo(f, v)];
  }

  /** What is asked to be false shows unless an extra field hides it. */
  predicate ShowsFalse(l: RoomListing, f: string) { f in l.extra ==> l.extra[f] == Bool(false) }

  lemma ShowsFalseIff(l: RoomListing, f: string, text: NumberText)
    requires '.' !in f && (f in l.extra || Member(Flatten(l), f) == Some(Bool(false)))
    ensures Accepts(Flatten(l), [EqualTo(f, Bool(false))], text) <==> ShowsFalse(l, f)
  {
    PlainCondition(l, f, Bool(false), text);
  }

  lemma LockedIff(l: RoomListing, text: NumberText)
    requires !l.locked
    ensures Accepts(Flatten(l), [EqualTo("locked", Bool(false))], text) <==> ShowsFalse(l, "locked")
  {
    FlattenShows(l, "locked");
    ShowsFalseIff(l, "locked", text);
  }

  lemma PrivateIff(l: RoomListing, text: NumberText)
    requires !l.isPrivate
    ensures Accepts(Flatten(l), [EqualTo("private", Bool(false))], text) <==> ShowsFalse(l, "private")
  {
    FlattenShows(l, "private");
    ShowsFalseIff(l, "private", text);
  }

  lemma OpenIff(l: RoomListing, text: NumberText)
    requires IsOpen(l)
    ensures Accepts(Flatten(l), OpenConditions(l.name), text) <==>
            NameShown(l.extra, l.name, text) && ShowsFalse(l, "locked") && ShowsFalse(l, "private")
  {
    NameMatchesIff(l, text);
    LockedIff(l, text);
    PrivateIff(l, text);
    AcceptsThree(Flatten(l), EqualTo("name", Str(l.name)), EqualTo("locked", Bool(false)), EqualTo("private", Bool(false)), text);
  }

  lemma AcceptsThree(flat: Json, a: Condition, b: Condition, c: Condition, text: NumberText)
    ensures Accepts(flat, [a, b, c], text) <==> Accepts(flat, [a], text) && Accepts(flat, [b], text) && Accepts(flat, [c], text)
  {
    assert [a, b, c] == [a] + ([b] + [c]);
    AcceptsBoth(flat, [a], [b] + [c], text);
    AcceptsBoth(flat, [b], [c], text);
  }

  /** A request takes an open listing exactly when nothing hides that it is open, and every declared field fits. */
  lemma TakesIff(reg: Registry, room: string, options: Options, l: RoomListing)
    requires room in reg.handlers && l.name == room && IsOpen(l)
    ensures Takes(reg, room, options, l) <==>
            && NameShown(l.extra, room, reg.text) && ShowsFalse(l, "locked") && ShowsFalse(l, "private")
            && forall f :: f in reg.handlers[room].filterBy ==> FieldFits(l, f, options, reg.handlers[room].strict, reg.text)
  {
    var h := reg.handlers[room];
    OpenIff(l, reg.text);
    FieldsFit(l, h.filterBy, options, h.strict, reg.text);
    AcceptsBoth(Flatten(l), OpenConditions(room), FieldConditions(h.filterBy, options, h.strict), reg.text);
  }

  /** The declared fields keep their own names and hide nothing that every request asks for. */
  predicate HidesNothing(h: Handler) {
    && (forall f :: f in h.filterBy ==> '.' !in f)
    && forall f :: f in {"name", "locked", "private"} ==> f !in h.filterBy && f !in h.uniqueBy
  }

  /**
   * Declarations under which a request takes what it makes: no path among the fields, none that hides
   * that a room is open, and, if absent options are asked to be absent, none that a default fills in
   * or that listings have anyway.
   */
  predicate SeeksWhatItMakes(h: Handler) {
    HidesNothing(h) && (h.strict ==> forall f :: f in h.filterBy ==> f !in h.defaults && f !in CORE)
  }

  /** Options whose room they do not find, though it is open. */
  ghost predicate Overlooks(reg: Registry, room: string, options: Options, l: RoomListing)
    requires room in reg.handlers
  {
    IsMadeFor(reg, room, options, l) && !Takes(reg, room, options, l)
  }

  ghost predicate AlwaysTakes(reg: Registry, room: string)
    requires room in reg.handlers
  {
    forall options, l :: !Overlooks(reg, room, options, l)
  }

  lemma MadeFits(reg: Registry, room: string, options: Options, l: RoomListing, f: string)
    requires room in reg.handlers && SeeksWhatItMakes(reg.handlers[room]) && IsMadeFor(reg, room, options, l) && f in reg.handlers[room].filterBy
    ensures FieldFits(l, f, options, reg.handlers[room].strict, reg.text)
  {
    PlainField(Flatten(l), f);
  }

  /** A listing that shows all its optional fields. */
  function FullListing(roomId: Id, room: string, extra: Options): RoomListing {
    RoomListing(roomId, room, "", 0, Some(0), false, false, Some(Null), 0, extra)
  }

  /** Options that show what is wrong with a declaration: none if that will do, or nulls in all fields. */
  function Telling(h: Handler): Options { if HidesNothing(h) then map[] else Nulls(h) }

  function MadeListing(h: Handler, reg: Registry, room: string, roomId: Id, options: Options): RoomListing {
    FullListing(roomId, room, FilterExtra(reg, room, h.defaults + options))
  }

  /** Every declared field is null, in the options and in the listing. */
  ghost predicate AllNull(h: Handler, options: Options, l: RoomListing) {
    && l.metadata == Some(Null) && (forall f :: f in l.extra ==> l.extra[f] == Null)
    && (forall f :: f in l.extra <==> f in h.filterBy || f in h.uniqueBy) && options == Nulls(h)
  }

  lemma NullsHide(reg: Registry, room: string, options: Options, l: RoomListing)
    requires room in reg.handlers && !HidesNothing(reg.handlers[room]) && AllNull(reg.handlers[room], options, l)
    requires l.name == room && IsOpen(l)
    ensures !Takes(reg, room, options, l)
  {
    var h := reg.handlers[room];
    if f :| f in h.filterBy && '.' in f {
      NullPathHides(reg, room, options, l, f);
    } else {
      var f :| f in {"name", "locked", "private"} && f in l.extra && l.extra[f] == Null;
      NullShadows(reg, room, options, l, f);
    }
  }

  lemma NullShadows(reg: Registry, room: string, options: Options, l: RoomListing, f: string)
    requires room in reg.handlers && l.name == room && IsOpen(l)
    requires f in {"name", "locked", "private"} && f in l.extra && l.extra[f] == Null
    ensures !Takes(reg, room, options, l)
  {
    TakesIff(reg, room, options, l);
  }

  lemma NullPathHides(reg: Registry, room: string, options: Options, l: RoomListing, f: string)
    requires room in reg.handlers && l.name == room && IsOpen(l)
    requires f in reg.handlers[room].filterBy && f in options && '.' in f
    requires l.metadata == Some(Null) && forall x :: x in l.extra ==> l.extra[x] == Null
    ensures !Takes(reg, room, options, l)
  {
    TakesIff(reg, room, options, l);
    NoPathIntoNulls(l, f);
    assert !FieldFits(l, f, options, reg.handlers[room].strict, reg.text);
  }

  lemma NoPathIntoNulls(l: RoomListing, f: string)
    requires '.' in f && l.metadata == Some(Null) && forall x :: x in l.extra ==> l.extra[x] == Null
    ensures ResolvePath(Flatten(l), f).None?
  {
    if ResolvePath(Flatten(l), f).Some? {
      DottedField(Flatten(l), f);
      FlattenShows(l, Parts(f)[0]);
    }
  }

  lemma NothingHides(reg: Registry, room: string, roomId: Id, l: RoomListing, f: string)
    requires room in reg.handlers && reg.handlers[room].strict && f in reg.handlers[room].filterBy && '.' !in f
    requires l.name == room && IsOpen(l) && (f in l.extra || (f in CORE && l == FullListing(roomId, room, l.extra)))
    ensures !Takes(reg, room, map[], l)
  {
    TakesIff(reg, room, map[], l);
    PlainField(Flatten(l), f);
    FlattenShows(l, f);
    assert !FieldFits(l, f, map[], true, reg.text);
  }

  lemma TellingOverlooks(reg: Registry, room: string, roomId: Id)
    requires room in reg.handlers && !SeeksWhatItMakes(reg.handlers[room])
    ensures var h := reg.handlers[room]; Overlooks(reg, room, Telling(h), MadeListing(h, reg, room, roomId, Telling(h)))
  {
    var h, options := reg.handlers[room], Telling(reg.handlers[room]);
    var l := MadeListing(h, reg, room, roomId, options);
    if HidesNothing(h) {
      var f :| f in h.filterBy && (f in h.defaults || f in CORE);
      NothingHides(reg, room, roomId, l, f);
    } else {
      NullsHide(reg, room, options, l);
    }
  }

  /** Requests always take what they make, as long as it is open, exactly under such declarations. */
  lemma AlwaysTakesIff(reg: Registry, room: string)
    requires room in reg.handlers
    ensures AlwaysTakes(reg, room) <==> SeeksWhatItMakes(reg.handlers[room])
  {
    if SeeksWhatItMakes(reg.handlers[room]) {
      forall options, l | Overlooks(reg, room, options, l) ensures false {
        forall f | f in reg.handlers[room].filterBy ensures FieldFits(l, f, options, reg.handlers[room].strict, reg.text) {
          MadeFits(reg, room, options, l, f);
        }
        TakesIff(reg, room, options, l);
      }
    } else {
      TellingOverlooks(reg, room, "");
    }
  }
}
