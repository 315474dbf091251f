/**
 * Concurrent `join_or_create` / `create` / `create_room` requests.
 *
 * Any number of tasks interleave; each step is one atomic operation on the lock table, the room
 * map or the driver. What matching predicates, room hooks, the seat reply and other processes
 * decide is a free choice of the step. Rooms may be disposed, and listings dropped or changed, at
 * any time. The query for a unique key is the driver's, on the listings as they are.
 */
module Matchmaker {
  import opened Json
  import opened LockKeys
  import opened LockTable
  import opened Query
  import opened Handlers

  type RoomId = string

  /** Attempts of `join_or_create_inner`. */
  const JOIN_OR_CREATE_RETRIES: nat := 3

  datatype Outcome = Reused(room: RoomId) | Created(room: RoomId) | Failed

  datatype Pc =
    | FindMatch                          // before any lock
    | CritCreate | CritWait              // create_lock / lock().await on the criteria
    | Recheck                            // find_match again, under the criteria lock
    | UniqCreate | UniqWait              // create_lock / lock().await on the unique key
    | Query                              // find_live asks the driver
    | Check(found: seq<RoomId>)          // is the first listing's room in the room map?
    | Prune(found: seq<RoomId>)          // it was not: remove its listing
    | Spawn                              // spawn_room with a new id
    | PutRoom(room: RoomId)              // rooms.insert
    | PutListing(room: RoomId)           // driver.insert
    | UniqUnlock(outcome: Outcome) | UniqCheck(outcome: Outcome)
    | UniqRemove(outcome: Outcome) | UniqDrop(outcome: Outcome)
    | Return(outcome: Outcome)           // create_room_inner returns
    | Confirm(room: RoomId)              // a reused room must still match the criteria
    | CritUnlock(seat: Option<RoomId>) | CritCheck(seat: Option<RoomId>)
    | CritRemove(seat: Option<RoomId>) | CritDrop(seat: Option<RoomId>)
    | Reserve(room: RoomId)              // reserve_seat in this room
    | Done(result: Result)

  /** What a request ends with: a seat, a room without one, or an error; or it was dropped. */
  datatype Result = Seated(room: RoomId) | Given(outcome: Outcome) | NoSeat | Cancelled

  /**
   * A request for a room of type `room`. It is matched by `options` and the operator filter `filter`,
   * and creates with the options `made`. `criteria` is what the lock of `join_or_create` is for, and
   * absent for `create`; `unique` is what the lock of the unique key is for, and present when the room
   * type declares `unique_by` and `made` carries every field; `reserves` is false for `create_room`.
   */
  datatype Task = Task(
    room: string, options: Options, made: Options, filter: seq<Condition>, criteria: Option<Subject>, unique: Option<Subject>,
    reserves: bool, attempts: nat, pc: Pc)

  /** `everListed` and `usedIds` are history: ids once listed, and ids once generated. */
  datatype World = World(
    registry: Registry, tasks: map<nat, Task>, table: Table, rooms: set<RoomId>, listings: map<RoomId, RoomListing>,
    everListed: set<RoomId>, usedIds: set<RoomId>)

  datatype Choice =
    | Proceed
    | Lookup(found: Option<RoomId>)
    | Candidates(ids: seq<RoomId>)
    | NewRoom(room: RoomId)
    | Listed(listing: RoomListing)
    | SpawnError
    | SeatReply(reply: Reply)

  datatype Reply = Granted | Refused | Broken

  datatype Event =
    | Go(task: nat, choice: Choice)
    | Cancel(victim: nat)
    | Unlist(room: RoomId)
    | Relist(listing: RoomListing)    // `sync_listing`
    | Dispose(room: RoomId)

  function Crit(t: nat): SessionId { SessionId(t, false) }
  function Uniq(t: nat): SessionId { SessionId(t, true) }

  // ------------------------------------------------------------------
  // What a request asks for
  // ------------------------------------------------------------------

  /** The unique key of a request. */
  function TaskKey(reg: Registry, task: Task): Option<Key> { KeyOf(reg, task.room, task.made) }

  /** The unique key that a listing carries. */
  function ListingKey(reg: Registry, l: RoomListing): Option<Key> { KeyOf(reg, l.name, l.extra) }

  /** Defaults count for creation only, and both locks are for what the handler makes of the options. */
  ghost predicate Asks(reg: Registry, task: Task) {
    && task.room in reg.handlers
    && var h := reg.handlers[task.room];
       && task.made == (if task.reserves then h.defaults + task.options else task.options)
       && task.unique == (if TaskKey(reg, task).None? then None
                          else Some(Subject(task.room, Print(UniqueConditions(h, task.room, task.made), reg.show))))
       && (task.criteria.Some? ==> task.criteria.value == Subject(task.room, Print(MatchConditions(h, task.room, task.options), reg.show)))
  }

  /** Does the query of `find_live` find this listing? */
  predicate Finds(reg: Registry, task: Task, l: RoomListing) {
    task.room in reg.handlers && Accepts(Flatten(l), UniqueConditions(reg.handlers[task.room], task.room, task.made), reg.text)
  }

  /** Does `find_match` take this listing for a candidate? */
  predicate Matches(reg: Registry, task: Task, l: RoomListing) {
    && task.room in reg.handlers && reg.handlers[task.room].suits(l, task.options)
    && Accepts(Flatten(l), MatchConditions(reg.handlers[task.room], task.room, task.options) + task.filter, reg.text)
  }

  /** Requests for one key ask for one lock. */
  lemma SameKeySameLock(reg: Registry, a: Task, b: Task)
    requires Asks(reg, a) && Asks(reg, b) && TaskKey(reg, a).Some? && TaskKey(reg, a) == TaskKey(reg, b)
    ensures a.unique.Some? && a.unique == b.unique
  {
    SameKeySameConditions(reg, a.room, a.made, b.room, b.made);
  }

  // ------------------------------------------------------------------
  // One step of one task
  // ------------------------------------------------------------------

  /** The operation on the lock table that the program counter stands before. */
  function LockStep(task: Task, t: nat): Option<(SessionId, Step)> {
    match task.pc
    case CritCreate => if task.criteria.Some? then Some((Crit(t), Create(CriteriaLock(task.criteria.value)))) else None
    case CritWait => Some((Crit(t), Acquire))
    case UniqCreate => if task.unique.Some? then Some((Uniq(t), Create(UniqueLock(task.unique.value)))) else None
    case UniqWait => Some((Uniq(t), Acquire))
    case UniqUnlock(_) => Some((Uniq(t), DropGuard))
    case UniqCheck(_) => Some((Uniq(t), CheckCount))
    case UniqRemove(_) => Some((Uniq(t), RemoveIf))
    case UniqDrop(_) => Some((Uniq(t), DropArc))
    case CritUnlock(_) => Some((Crit(t), DropGuard))
    case CritCheck(_) => Some((Crit(t), CheckCount))
    case CritRemove(_) => Some((Crit(t), RemoveIf))
    case CritDrop(_) => Some((Crit(t), DropArc))
    case Return(o) => if o.Failed? && task.criteria.Some? then Some((Crit(t), Abandon)) else None
    case _ => None
  }

  /** What kind of choice each program counter stands before. */
  predicate HasShape(pc: Pc, choice: Choice) {
    match pc
    case FindMatch => choice.Lookup?
    case Recheck => choice.Lookup?
    case Confirm(_) => choice.Lookup?
    case Query => choice.Candidates?
    case Spawn => choice.SpawnError? || choice.NewRoom?
    case PutListing(_) => choice.Listed?
    case Reserve(_) => choice.SeatReply?
    case Done(_) => false
    case _ => choice.Proceed?
  }

  /** What the environment may choose at each program counter. */
  predicate Fits(w: World, task: Task, choice: Choice) {
    match choice
    case Lookup(found) => IsLookup(w, task, found)
    case Candidates(ids) => IsQueryResult(w, task, ids)
    case NewRoom(room) => room !in w.usedIds
    case Listed(l) => task.pc.PutListing? ==> l.roomId == task.pc.room && IsListingOf(w.registry, task.room, task.made, l)
    case SeatReply(reply) => task.pc.Reserve? && task.pc.room !in w.rooms ==> reply.Refused?
    case _ => true
  }

  /** The driver's answer to the query for a unique key, in the order of its map. */
  predicate IsQueryResult(w: World, task: Task, ids: seq<RoomId>) {
    && Distinct(ids) && (forall r :: r in ids ==> r in w.listings)
    && (forall r :: r in w.listings ==> (r in ids <==> Finds(w.registry, task, w.listings[r])))
  }

  /** The answer of `find_match`: one of the candidates, whichever is sorted first, or none when there is none. */
  predicate IsLookup(w: World, task: Task, found: Option<RoomId>) {
    match found
    case None => forall r :: r in w.listings ==> !Matches(w.registry, task, w.listings[r])
    case Some(r) => r in w.listings && Matches(w.registry, task, w.listings[r])
  }

  predicate CanGo(w: World, t: nat, choice: Choice) {
    && t in w.tasks && HasShape(w.tasks[t].pc, choice) && Fits(w, w.tasks[t], choice)
    && (LockStep(w.tasks[t], t).Some? ==>
        Enabled(w.table, LockStep(w.tasks[t], t).value.0, LockStep(w.tasks[t], t).value.1))
  }

  function EnterCreate(task: Task): Pc { if task.unique.Some? then UniqCreate else Spawn }

  function AfterCreate(task: Task, o: Outcome): Pc { if task.unique.Some? then UniqUnlock(o) else Return(o) }

  function AfterReturn(task: Task, o: Outcome): Pc {
    if o.Failed? then Done(NoSeat)
    else if task.criteria.Some? then (if o.Reused? then Confirm(o.room) else CritUnlock(Some(o.room)))
    else if task.reserves then Reserve(o.room)
    else Done(Given(o))
  }

  /** The program counter after the step; `table` is the lock table after it. */
  function NextPc(w: World, t: nat, table: Table, choice: Choice): Pc
    requires t in w.tasks && HasShape(w.tasks[t].pc, choice)
  {
    var task := w.tasks[t];
    match task.pc
    case FindMatch => if choice.found.Some? then Reserve(choice.found.value) else CritCreate
    case CritCreate => CritWait
    case CritWait => Recheck
    case Recheck => if choice.found.Some? then CritUnlock(choice.found) else EnterCreate(task)
    case UniqCreate => UniqWait
    case UniqWait => Query
    case Query => Check(choice.ids)
    case Check(found) =>
      if found == [] then Spawn
      else if found[0] in w.rooms then AfterCreate(task, Reused(found[0]))
      else Prune(found)
    case Prune(found) => Check(if found == [] then [] else found[1..])
    case Spawn => if choice.NewRoom? then PutRoom(choice.room) else AfterCreate(task, Failed)
    case PutRoom(r) => PutListing(r)
    case PutListing(r) => AfterCreate(task, Created(r))
    case UniqUnlock(o) => UniqCheck(o)
    case UniqCheck(o) => if Deciding(table, Uniq(t)) then UniqRemove(o) else UniqDrop(o)
    case UniqRemove(o) => UniqDrop(o)
    case UniqDrop(o) => Return(o)
    case Return(o) => AfterReturn(task, o)
    case Confirm(r) => CritUnlock(if choice.found == Some(r) then choice.found else None)
    case CritUnlock(seat) => CritCheck(seat)
    case CritCheck(seat) => if Deciding(table, Crit(t)) then CritRemove(seat) else CritDrop(seat)
    case CritRemove(seat) => CritDrop(seat)
    case CritDrop(seat) => if seat.Some? then Reserve(seat.value) else Done(NoSeat)
    case Reserve(r) =>
      (match choice.reply
       case Granted => Done(Seated(r))
       case Refused => if task.criteria.Some? && task.attempts > 1 then FindMatch else Done(NoSeat)
       case Broken => Done(NoSeat))
  }

  predicate Deciding(table: Table, id: SessionId) {
    SessionOf(table, id).Active? && SessionOf(table, id).phase.Deciding?
  }

  function AttemptsAfter(task: Task, pc: Pc): nat {
    if task.pc.Reserve? && pc.FindMatch? && task.attempts > 0 then task.attempts - 1 else task.attempts
  }

  function GoStep(w: World, t: nat, choice: Choice): World
    requires CanGo(w, t, choice)
  {
    var task := w.tasks[t];
    var table := if LockStep(task, t).Some?
                 then Next(w.table, LockStep(task, t).value.0, LockStep(task, t).value.1) else w.table;
    var pc := NextPc(w, t, table, choice);
    var w' := w.(tasks := w.tasks[t := task.(pc := pc, attempts := AttemptsAfter(task, pc))], table := table);
    match task.pc
    case Prune(found) => if found == [] then w' else w'.(listings := w.listings - {found[0]})
    case Spawn => if choice.NewRoom? then w'.(usedIds := w.usedIds + {choice.room}) else w'
    case PutRoom(r) => w'.(rooms := w.rooms + {r})
    case PutListing(r) => w'.(listings := w.listings[r := choice.listing], everListed := w.everListed + {r})
    case Reserve(r) => if r in w.rooms then w' else w'.(listings := w.listings - {r})
    case _ => w'
  }

  function Abandoned(table: Table, id: SessionId): Table {
    if Enabled(table, id, Abandon) then Next(table, id, Abandon) else table
  }

  /** A dropped request future releases its guards and its `Arc`s, and does nothing more. */
  function CancelStep(w: World, t: nat): World
    requires t in w.tasks
  {
    w.(tasks := w.tasks[t := w.tasks[t].(pc := Done(Cancelled))], table := Abandoned(Abandoned(w.table, Uniq(t)), Crit(t)))
  }

  /** What `sync_listing` leaves as it was. */
  predicate SameIdentity(a: RoomListing, b: RoomListing) {
    b.roomId == a.roomId && b.name == a.name && b.processId == a.processId && b.createdAt == a.createdAt && b.extra == a.extra
  }

  predicate Possible(w: World, e: Event) {
    match e
    case Go(t, choice) => CanGo(w, t, choice)
    case Cancel(t) => t in w.tasks
    case Unlist(_) => true
    case Relist(l) => l.roomId in w.listings && SameIdentity(w.listings[l.roomId], l)
    case Dispose(_) => true
  }

  function Happen(w: World, e: Event): World
    requires Possible(w, e)
  {
    match e
    case Go(t, choice) => GoStep(w, t, choice)
    case Cancel(t) => CancelStep(w, t)
    case Unlist(r) => w.(listings := w.listings - {r})
    case Relist(l) => w.(listings := w.listings[l.roomId := l])
    case Dispose(r) => w.(rooms := w.rooms - {r})
  }

  /** Requests that have not begun, an empty lock table, no rooms. */
  ghost predicate Initial(w: World) {
    && w.table == LockTable.Empty && w.rooms == {} && w.listings == map[] && w.everListed == {} && w.usedIds == {}
    && forall t :: t in w.tasks ==>
        && Asks(w.registry, w.tasks[t]) && w.tasks[t].attempts == JOIN_OR_CREATE_RETRIES
        && w.tasks[t].pc == (if w.tasks[t].criteria.Some? then FindMatch else EnterCreate(w.tasks[t]))
  }

  function Run(w: World, events: seq<Event>): Option<World>
    decreases |events|
  {
    if events == [] then Some(w)
    else if !Possible(w, events[0]) then None
    else Run(Happen(w, events[0]), events[1..])
  }

  ghost predicate Reachable(w: World) {
    exists start, events :: Initial(start) && Run(start, events) == Some(w)
  }

  // ------------------------------------------------------------------
  // Runs that lead from one world to another
  // ------------------------------------------------------------------

  ghost predicate Leads(w: World, w': World) {
    exists events :: Run(w, events) == Some(w')
  }

  lemma {:induction false} RunAppend(w: World, a: seq<Event>, b: seq<Event>)
    requires Run(w, a).Some?
    ensures Run(w, a + b) == Run(Run(w, a).value, b)
    decreases |a|
  {
    if a == [] {
      assert a + b == b;
    } else {
      assert (a + b)[1..] == a[1..] + b;
      RunAppend(Happen(w, a[0]), a[1..], b);
    }
  }

  lemma LeadsOn(w: World, mid: World, w': World)
    requires Leads(w, mid) && Leads(mid, w')
    ensures Leads(w, w')
  {
    var a :| Run(w, a) == Some(mid);
    var b :| Run(mid, b) == Some(w');
    RunAppend(w, a, b);
  }

  lemma LeadsStep(w: World, t: nat, choice: Choice)
    requires CanGo(w, t, choice)
    ensures Leads(w, GoStep(w, t, choice))
  {
    var e := Go(t, choice);
    assert [e][1..] == [];
    assert Run(w, [e]) == Run(Happen(w, e), [e][1..]);
  }

  // ------------------------------------------------------------------
  // Program counters and lock sessions agree
  // ------------------------------------------------------------------

  /** The phase of the unique-key session at each program counter. */
  function UniqPhase(pc: Pc): Option<Phase> {
    match pc
    case UniqWait => Some(Waiting)
    case Query => Some(Guarded)
    case Check(_) => Some(Guarded)
    case Prune(_) => Some(Guarded)
    case Spawn => Some(Guarded)
    case PutRoom(_) => Some(Guarded)
    case PutListing(_) => Some(Guarded)
    case UniqUnlock(_) => Some(Guarded)
    case UniqCheck(_) => Some(Released)
    case UniqRemove(_) => Some(LockTable.Deciding)
    case UniqDrop(_) => Some(Decided)
    case _ => None
  }

  /** The phase of the criteria session: it is taken first and released last. */
  function CritPhase(pc: Pc): Option<Phase> {
    match pc
    case FindMatch => None
    case CritCreate => None
    case CritWait => Some(Waiting)
    case CritCheck(_) => Some(Released)
    case CritRemove(_) => Some(LockTable.Deciding)
    case CritDrop(_) => Some(Decided)
    case Reserve(_) => None
    case Done(_) => None
    case _ => Some(Guarded)
  }

  predicate IsSession(s: Session, key: Option<LockKey>, phase: Option<Phase>) {
    if key.Some? && phase.Some? then s.Active? && s.key == key.value && s.phase == phase.value else s.Idle?
  }

  function UniqKey(task: Task): Option<LockKey> {
    if task.unique.Some? then Some(UniqueLock(task.unique.value)) else None
  }

  function CritKey(task: Task): Option<LockKey> {
    if task.criteria.Some? then Some(CriteriaLock(task.criteria.value)) else None
  }

  /** Program counters a request only reaches with a unique key, or only with criteria. */
  predicate NeedsUnique(pc: Pc) {
    pc.UniqCreate? || pc.UniqWait? || pc.Query? || pc.Check? || pc.Prune?
    || pc.UniqUnlock? || pc.UniqCheck? || pc.UniqRemove? || pc.UniqDrop?
  }

  predicate NeedsCriteria(pc: Pc) {
    pc.FindMatch? || pc.CritCreate? || pc.CritWait? || pc.Recheck? || pc.Confirm?
    || pc.CritUnlock? || pc.CritCheck? || pc.CritRemove? || pc.CritDrop?
  }

  predicate WellFormed(task: Task) {
    && (NeedsUnique(task.pc) ==> task.unique.Some?)
    && (NeedsCriteria(task.pc) ==> task.criteria.Some?)
    && (task.pc.Prune? ==> task.pc.found != [])
    && 1 <= task.attempts <= JOIN_OR_CREATE_RETRIES
  }

  predicate TaskAgrees(table: Table, t: nat, task: Task) {
    && IsSession(SessionOf(table, Uniq(t)), UniqKey(task), UniqPhase(task.pc))
    && IsSession(SessionOf(table, Crit(t)), CritKey(task), CritPhase(task.pc))
    && WellFormed(task)
  }

  ghost predicate TasksAgree(w: World) {
    && (forall t :: t in w.tasks ==> TaskAgrees(w.table, t, w.tasks[t]))
    && (forall id: SessionId :: id.task !in w.tasks ==> SessionOf(w.table, id).Idle?)
  }

  ghost predicate SessionsAgree(w: World) {
    LockTable.Inv(w.table) && TasksAgree(w)
  }

  /** What a lock step does to the sessions: its own moves on, every other one stays. */
  ghost predicate Moved(before: Table, after: Table, id: SessionId, step: Step) {
    && (forall other :: other != id ==> SessionOf(after, other) == SessionOf(before, other))
    && var s, s' := SessionOf(before, id), SessionOf(after, id);
       match step
       case Create(key) => s.Idle? && s'.Active? && s'.key == key && s'.phase.Waiting?
       case Acquire => s.Active? && s'.Active? && s'.key == s.key && s'.phase.Guarded?
       case DropGuard => s.Active? && s'.Active? && s'.key == s.key && s'.phase.Released?
       case CheckCount => s.Active? && s'.Active? && s'.key == s.key && (s'.phase.Deciding? || s'.phase.Decided?)
       case RemoveIf => s.Active? && s'.Active? && s'.key == s.key && s'.phase.Decided?
       case DropArc => s'.Idle?
       case Abandon => s'.Idle?
  }

  lemma NextMoves(table: Table, id: SessionId, step: Step)
    requires Enabled(table, id, step)
    ensures Moved(table, Next(table, id, step), id, step)
  {
  }

  /** The table part of a task's step. */
  ghost predicate TableMoved(task: Task, t: nat, before: Table, after: Table) {
    var ls := LockStep(task, t);
    if ls.Some? then Moved(before, after, ls.value.0, ls.value.1) else after == before
  }

  lemma OwnSessionsAgree(w: World, t: nat, after: Table, choice: Choice, attempts: nat)
    requires CanGo(w, t, choice) && TaskAgrees(w.table, t, w.tasks[t])
    requires TableMoved(w.tasks[t], t, w.table, after)
    requires 1 <= attempts <= JOIN_OR_CREATE_RETRIES
    ensures TaskAgrees(after, t, w.tasks[t].(pc := NextPc(w, t, after, choice), attempts := attempts))
  {
    UniqSessionAgrees(w, t, after, choice);
    CritSessionAgrees(w, t, after, choice);
    NextWellFormed(w, t, after, choice, attempts);
  }

  lemma NextWellFormed(w: World, t: nat, after: Table, choice: Choice, attempts: nat)
    requires t in w.tasks && HasShape(w.tasks[t].pc, choice) && WellFormed(w.tasks[t]) && 1 <= attempts <= JOIN_OR_CREATE_RETRIES
    ensures WellFormed(w.tasks[t].(pc := NextPc(w, t, after, choice), attempts := attempts))
  {
  }

  /** A step that leaves the unique session alone stays in its phase. */
  lemma UniqPhaseStays(w: World, t: nat, after: Table, choice: Choice)
    requires t in w.tasks && HasShape(w.tasks[t].pc, choice) && WellFormed(w.tasks[t])
    requires LockStep(w.tasks[t], t).None? || LockStep(w.tasks[t], t).value.0 == Crit(t)
    ensures UniqKey(w.tasks[t]).None? || UniqPhase(NextPc(w, t, after, choice)) == UniqPhase(w.tasks[t].pc)
  {
  }

  lemma UniqPhaseMoves(w: World, t: nat, after: Table, choice: Choice)
    requires t in w.tasks && HasShape(w.tasks[t].pc, choice) && LockStep(w.tasks[t], t).Some? && LockStep(w.tasks[t], t).value.0 == Uniq(t)
    requires IsSession(SessionOf(w.table, Uniq(t)), UniqKey(w.tasks[t]), UniqPhase(w.tasks[t].pc)) && WellFormed(w.tasks[t])
    requires Moved(w.table, after, Uniq(t), LockStep(w.tasks[t], t).value.1)
    ensures IsSession(SessionOf(after, Uniq(t)), UniqKey(w.tasks[t]), UniqPhase(NextPc(w, t, after, choice)))
  {
  }

  lemma UniqSessionAgrees(w: World, t: nat, after: Table, choice: Choice)
    requires t in w.tasks && HasShape(w.tasks[t].pc, choice) && TaskAgrees(w.table, t, w.tasks[t])
    requires TableMoved(w.tasks[t], t, w.table, after)
    ensures IsSession(SessionOf(after, Uniq(t)), UniqKey(w.tasks[t]), UniqPhase(NextPc(w, t, after, choice)))
  {
    if LockStep(w.tasks[t], t).Some? && LockStep(w.tasks[t], t).value.0 == Uniq(t) {
      UniqPhaseMoves(w, t, after, choice);
    } else {
      OneOfTwo(w.tasks[t], t);
      UniqPhaseStays(w, t, after, choice);
      assert SessionOf(after, Uniq(t)) == SessionOf(w.table, Uniq(t));
    }
  }

  lemma OneOfTwo(task: Task, t: nat)
    ensures LockStep(task, t).None? || LockStep(task, t).value.0 in {Uniq(t), Crit(t)}
  {
  }

  /** A step that leaves the criteria session alone stays in its phase. */
  lemma CritPhaseStays(w: World, t: nat, after: Table, choice: Choice)
    requires t in w.tasks && HasShape(w.tasks[t].pc, choice) && WellFormed(w.tasks[t])
    requires LockStep(w.tasks[t], t).None? || LockStep(w.tasks[t], t).value.0 == Uniq(t)
    ensures CritKey(w.tasks[t]).None? || CritPhase(NextPc(w, t, after, choice)) == CritPhase(w.tasks[t].pc)
  {
  }

  lemma CritPhaseMoves(w: World, t: nat, after: Table, choice: Choice)
    requires t in w.tasks && HasShape(w.tasks[t].pc, choice) && LockStep(w.tasks[t], t).Some? && LockStep(w.tasks[t], t).value.0 == Crit(t)
    requires IsSession(SessionOf(w.table, Crit(t)), CritKey(w.tasks[t]), CritPhase(w.tasks[t].pc)) && WellFormed(w.tasks[t])
    requires Moved(w.table, after, Crit(t), LockStep(w.tasks[t], t).value.1)
    ensures IsSession(SessionOf(after, Crit(t)), CritKey(w.tasks[t]), CritPhase(NextPc(w, t, after, choice)))
  {
  }

  lemma CritSessionAgrees(w: World, t: nat, after: Table, choice: Choice)
    requires t in w.tasks && HasShape(w.tasks[t].pc, choice) && TaskAgrees(w.table, t, w.tasks[t])
    requires TableMoved(w.tasks[t], t, w.table, after)
    ensures IsSession(SessionOf(after, Crit(t)), CritKey(w.tasks[t]), CritPhase(NextPc(w, t, after, choice)))
  {
    if LockStep(w.tasks[t], t).Some? && LockStep(w.tasks[t], t).value.0 == Crit(t) {
      CritPhaseMoves(w, t, after, choice);
    } else {
      OneOfTwo(w.tasks[t], t);
      CritPhaseStays(w, t, after, choice);
      assert SessionOf(after, Crit(t)) == SessionOf(w.table, Crit(t));
    }
  }

  /** A step of task `t` does not touch the sessions of other tasks. */
  lemma OtherSessionsAgree(w: World, t: nat, after: Table, u: nat)
    requires t in w.tasks && u in w.tasks && u != t
    requires TaskAgrees(w.table, u, w.tasks[u])
    requires TableMoved(w.tasks[t], t, w.table, after)
    ensures TaskAgrees(after, u, w.tasks[u])
  {
    assert SessionOf(after, Uniq(u)) == SessionOf(w.table, Uniq(u));
    assert SessionOf(after, Crit(u)) == SessionOf(w.table, Crit(u));
  }

  /** The step of task `t` as a relation, without the counting that happens inside the lock table. */
  ghost predicate Stepped(w: World, w': World, t: nat, choice: Choice) {
    && CanGo(w, t, choice)
    && var task := w.tasks[t];
       var pc := NextPc(w, t, w'.table, choice);
       && TableMoved(task, t, w.table, w'.table)
       && w'.tasks == w.tasks[t := task.(pc := pc, attempts := AttemptsAfter(task, pc))]
       && w'.rooms == (if task.pc.PutRoom? then w.rooms + {task.pc.room} else w.rooms)
       && w'.registry == w.registry
       && w'.listings ==
            (if task.pc.PutListing? && choice.Listed? then w.listings[task.pc.room := choice.listing]
             else if task.pc.Prune? && task.pc.found != [] then w.listings - {task.pc.found[0]}
             else if task.pc.Reserve? && task.pc.room !in w.rooms then w.listings - {task.pc.room}
             else w.listings)
       && w'.everListed == (if task.pc.PutListing? then w.everListed + {task.pc.room} else w.everListed)
       && w'.usedIds == (if task.pc.Spawn? && choice.NewRoom? then w.usedIds + {choice.room} else w.usedIds)
  }

  lemma GoSteps(w: World, t: nat, choice: Choice)
    requires CanGo(w, t, choice)
    ensures Stepped(w, GoStep(w, t, choice), t, choice)
  {
    var ls := LockStep(w.tasks[t], t);
    if ls.Some? { NextMoves(w.table, ls.value.0, ls.value.1); }
  }

  lemma GoKeepsLockInv(w: World, t: nat, choice: Choice)
    requires LockTable.Inv(w.table) && CanGo(w, t, choice)
    ensures LockTable.Inv(GoStep(w, t, choice).table)
  {
    var ls := LockStep(w.tasks[t], t);
    if ls.Some? { NextKeepsInv(w.table, ls.value.0, ls.value.1); }
  }

  lemma StepKeepsTasks(w: World, w': World, t: nat, choice: Choice)
    requires TasksAgree(w) && Stepped(w, w', t, choice)
    ensures TasksAgree(w')
  {
    assert TaskAgrees(w.table, t, w.tasks[t]);
    OwnSessionsAgree(w, t, w'.table, choice, w'.tasks[t].attempts);
    forall u | u in w'.tasks ensures TaskAgrees(w'.table, u, w'.tasks[u]) {
      if u != t {
        assert TaskAgrees(w.table, u, w.tasks[u]);
        OtherSessionsAgree(w, t, w'.table, u);
      }
    }
    forall id: SessionId | id.task !in w'.tasks ensures SessionOf(w'.table, id).Idle? {
      assert SessionOf(w'.table, id) == SessionOf(w.table, id);
    }
  }

  lemma GoKeepsSessions(w: World, t: nat, choice: Choice)
    requires SessionsAgree(w) && CanGo(w, t, choice)
    ensures SessionsAgree(GoStep(w, t, choice))
  {
    GoSteps(w, t, choice);
    GoKeepsLockInv(w, t, choice);
    StepKeepsTasks(w, GoStep(w, t, choice), t, choice);
  }

  lemma AbandonMoves(table: Table, id: SessionId)
    requires LockTable.Inv(table)
    ensures LockTable.Inv(Abandoned(table, id))
    ensures SessionOf(Abandoned(table, id), id).Idle?
    ensures forall other :: other != id ==> SessionOf(Abandoned(table, id), other) == SessionOf(table, other)
  {
    if Enabled(table, id, Abandon) {
      NextMoves(table, id, Abandon);
      NextKeepsInv(table, id, Abandon);
    }
  }

  lemma CancelMoves(w: World, t: nat)
    requires LockTable.Inv(w.table) && t in w.tasks
    ensures LockTable.Inv(CancelStep(w, t).table)
    ensures SessionOf(CancelStep(w, t).table, Uniq(t)).Idle? && SessionOf(CancelStep(w, t).table, Crit(t)).Idle?
    ensures forall id: SessionId :: id.task != t ==> SessionOf(CancelStep(w, t).table, id) == SessionOf(w.table, id)
  {
    AbandonMoves(w.table, Uniq(t));
    AbandonMoves(Abandoned(w.table, Uniq(t)), Crit(t));
  }

  lemma CancelKeepsSessions(w: World, t: nat)
    requires SessionsAgree(w) && t in w.tasks
    ensures SessionsAgree(CancelStep(w, t))
  {
    var w' := CancelStep(w, t);
    CancelMoves(w, t);
    forall u | u in w'.tasks ensures TaskAgrees(w'.table, u, w'.tasks[u]) {
      CancelKeepsTask(w, t, u);
    }
  }

  lemma SameSessionsAgree(table: Table, table': Table, u: nat, task: Task)
    requires TaskAgrees(table, u, task)
    requires SessionOf(table', Uniq(u)) == SessionOf(table, Uniq(u)) && SessionOf(table', Crit(u)) == SessionOf(table, Crit(u))
    ensures TaskAgrees(table', u, task)
  {
  }

  lemma EndedTaskAgrees(table: Table, t: nat, task: Task)
    requires WellFormed(task) && SessionOf(table, Uniq(t)).Idle? && SessionOf(table, Crit(t)).Idle?
    ensures TaskAgrees(table, t, task.(pc := Done(Cancelled)))
  {
  }

  lemma CancelKeepsTask(w: World, t: nat, u: nat)
    requires SessionsAgree(w) && t in w.tasks && u in w.tasks
    ensures TaskAgrees(CancelStep(w, t).table, u, CancelStep(w, t).tasks[u])
  {
    CancelMoves(w, t);
    assert TaskAgrees(w.table, u, w.tasks[u]);
    if u != t {
      assert Uniq(u).task == u && Crit(u).task == u;
      SameSessionsAgree(w.table, CancelStep(w, t).table, u, w.tasks[u]);
    } else {
      EndedTaskAgrees(CancelStep(w, t).table, t, w.tasks[t]);
    }
  }

  lemma HappenKeepsSessions(w: World, e: Event)
    requires SessionsAgree(w) && Possible(w, e)
    ensures SessionsAgree(Happen(w, e))
  {
    match e
    case Go(t, choice) => GoKeepsSessions(w, t, choice);
    case Cancel(t) => CancelKeepsSessions(w, t);
    case _ =>
  }

  // ------------------------------------------------------------------
  // Rooms and listings
  // ------------------------------------------------------------------

  /** A room that is in the room map and listed with the values of `key`. */
  predicate Live(w: World, key: Key, r: RoomId) {
    r in w.listings && ListingKey(w.registry, w.listings[r]) == Some(key) && r in w.rooms
  }

  /** Rooms of this type are found by their keys: no unique field is a path, and no request hides the name. */
  ghost predicate IsSearchable(w: World, room: string) {
    && room in w.registry.handlers && (forall f :: f in w.registry.handlers[room].uniqueBy ==> '.' !in f)
    && forall t :: t in w.tasks && w.tasks[t].room == room ==> ShowsName(w.registry, w.tasks[t])
  }

  ghost predicate ShowsName(reg: Registry, task: Task) { NameShown(FilterExtra(reg, task.room, task.made), task.room, reg.text) }

  ghost predicate NoneLive(w: World, key: Key) {
    forall r :: !Live(w, key, r)
  }

  /** At most one room that is both listed and in the room map carries a given unique key. */
  ghost predicate OneLivePerKey(w: World) {
    forall key: Key, r, q :: IsSearchable(w, key.room) && Live(w, key, r) && Live(w, key, q) ==> r == q
  }

  /** Requests are as their handlers make them, and listings show the name where requests do. */
  ghost predicate NamesAgree(w: World) {
    && (forall t :: t in w.tasks ==> Asks(w.registry, w.tasks[t]))
    && (forall r :: r in w.listings && IsSearchable(w, w.listings[r].name) ==> ListingShowsName(w.registry, w.listings[r]))
  }

  ghost predicate ListingShowsName(reg: Registry, l: RoomListing) { NameShown(l.extra, l.name, reg.text) }

  /** A new id on its way into the room map and the driver. */
  predicate Pending(pc: Pc, r: RoomId) { pc == PutRoom(r) || pc == PutListing(r) }

  function Found(pc: Pc): seq<RoomId> {
    if pc.Check? || pc.Prune? then pc.found else []
  }

  ghost predicate IdsAgree(w: World) {
    && w.listings.Keys <= w.everListed <= w.usedIds && w.rooms <= w.usedIds
    && (forall t, r :: t in w.tasks && Pending(w.tasks[t].pc, r) ==> r in w.usedIds && r !in w.everListed)
    && (forall t, u, r :: t in w.tasks && u in w.tasks && Pending(w.tasks[t].pc, r) && Pending(w.tasks[u].pc, r) ==> t == u)
    && (forall t, r :: t in w.tasks && r in Found(w.tasks[t].pc) ==> r in w.everListed)
  }

  /** What a creator knows about its key while it holds the key's lock. */
  ghost predicate Knows(w: World, task: Task) {
    && (task.pc.Prune? && task.pc.found != [] ==> task.pc.found[0] !in w.rooms)
    && (TaskKey(w.registry, task).Some? && IsSearchable(w, task.room) ==> KnowsLive(w, TaskKey(w.registry, task).value, task.pc))
  }

  ghost predicate KnowsLive(w: World, key: Key, pc: Pc) {
    match pc
    case Check(found) => LiveWithin(w, key, found)
    case Prune(found) => found != [] ==> LiveWithin(w, key, found)
    case Spawn => NoneLive(w, key)
    case PutRoom(_) => NoneLive(w, key)
    case PutListing(_) => NoneLive(w, key)
    case _ => true
  }

  ghost predicate LiveWithin(w: World, key: Key, found: seq<RoomId>) { forall r :: Live(w, key, r) ==> r in found }

  ghost predicate KnowledgeHolds(w: World) {
    forall t :: t in w.tasks ==> Knows(w, w.tasks[t])
  }

  ghost predicate Inv(w: World) {
    SessionsAgree(w) && IdsAgree(w) && NamesAgree(w) && KnowledgeHolds(w) && OneLivePerKey(w)
  }

  // ------------------------------------------------------------------
  // Requests stay what they are
  // ------------------------------------------------------------------

  ghost predicate SameRequest(a: Task, b: Task) {
    && b.room == a.room && b.options == a.options && b.made == a.made && b.filter == a.filter && b.reserves == a.reserves
    && b.criteria == a.criteria && b.unique == a.unique
  }

  ghost predicate SameRequests(tasks: map<nat, Task>, tasks': map<nat, Task>) {
    tasks.Keys == tasks'.Keys && forall t :: t in tasks ==> SameRequest(tasks[t], tasks'[t])
  }

  lemma SameSearchable(w: World, w': World, room: string)
    requires w'.registry == w.registry && SameRequests(w.tasks, w'.tasks)
    ensures IsSearchable(w', room) <==> IsSearchable(w, room)
  {
    if IsSearchable(w', room) {
      forall t | t in w.tasks && w.tasks[t].room == room ensures ShowsName(w.registry, w.tasks[t]) {
        assert SameRequest(w.tasks[t], w'.tasks[t]) && ShowsName(w.registry, w'.tasks[t]);
      }
    } else if IsSearchable(w, room) {
      forall t | t in w'.tasks && w'.tasks[t].room == room ensures ShowsName(w.registry, w'.tasks[t]) {
        assert SameRequest(w.tasks[t], w'.tasks[t]) && ShowsName(w.registry, w.tasks[t]);
      }
    }
  }

  lemma StepKeepsRequests(w: World, w': World, t: nat, choice: Choice)
    requires Stepped(w, w', t, choice)
    ensures w'.registry == w.registry && SameRequests(w.tasks, w'.tasks)
  {
  }

  lemma SameAsks(reg: Registry, a: Task, b: Task)
    requires Asks(reg, a) && SameRequest(a, b)
    ensures Asks(reg, b)
  {
  }

  lemma NamesCarry(w: World, w': World)
    requires NamesAgree(w) && w'.registry == w.registry && SameRequests(w.tasks, w'.tasks)
    requires forall r :: r in w'.listings ==> ShowsLikeBefore(w, w'.listings[r])
    ensures NamesAgree(w')
  {
    forall t | t in w'.tasks ensures Asks(w'.registry, w'.tasks[t]) { SameAsks(w.registry, w.tasks[t], w'.tasks[t]); }
    forall r | r in w'.listings && IsSearchable(w', w'.listings[r].name) ensures ListingShowsName(w'.registry, w'.listings[r]) {
      SameSearchable(w, w', w'.listings[r].name);
      assert ShowsLikeBefore(w, w'.listings[r]);
    }
  }

  ghost predicate ShowsLikeBefore(w: World, l: RoomListing) { IsSearchable(w, l.name) ==> ListingShowsName(w.registry, l) }

  lemma StepKeepsNames(w: World, w': World, t: nat, choice: Choice)
    requires NamesAgree(w) && Stepped(w, w', t, choice)
    ensures NamesAgree(w')
  {
    StepKeepsRequests(w, w', t, choice);
    forall r | r in w'.listings ensures ShowsLikeBefore(w, w'.listings[r]) {
      if r in w.listings && w'.listings[r] == w.listings[r] {
        assert IsSearchable(w, w.listings[r].name) ==> ListingShowsName(w.registry, w.listings[r]);
      } else if IsSearchable(w, w'.listings[r].name) {
        assert ShowsName(w.registry, w.tasks[t]);
      }
    }
    NamesCarry(w, w');
  }

  // ------------------------------------------------------------------
  // Live rooms
  // ------------------------------------------------------------------

  /** The query for its key finds every live room of it. */
  lemma QueryFindsLive(w: World, task: Task, r: RoomId)
    requires NamesAgree(w) && IsSearchable(w, task.room) && TaskKey(w.registry, task).Some?
    requires Live(w, TaskKey(w.registry, task).value, r)
    ensures Finds(w.registry, task, w.listings[r])
  {
    assert ListingShowsName(w.registry, w.listings[r]);
    FoundIff(w.registry, w.listings[r], task.made);
  }

  /** Live rooms only appear when a creator lists its own new room. */
  lemma LiveOnlyByListing(w: World, w': World, t: nat, choice: Choice, key: Key, r: RoomId)
    requires IdsAgree(w) && Stepped(w, w', t, choice) && Live(w', key, r)
    ensures Live(w, key, r) || (w.tasks[t].pc == PutListing(r) && TaskKey(w.registry, w.tasks[t]) == Some(key))
  {
    var task := w.tasks[t];
    if task.pc.PutRoom? { assert Pending(task.pc, task.pc.room); }
    if task.pc.PutListing? { ExtraKeepsKey(w.registry, task.room, task.made); }
  }

  /** A new room id comes from the spawn, and a found one from the query. */
  lemma OwnIds(w: World, w': World, t: nat, choice: Choice, r: RoomId)
    requires Stepped(w, w', t, choice)
    ensures Pending(w'.tasks[t].pc, r) ==>
            (w.tasks[t].pc == PutRoom(r)) || (w.tasks[t].pc.Spawn? && choice == NewRoom(r))
    ensures r in Found(w'.tasks[t].pc) ==> r in Found(w.tasks[t].pc) || r in w.listings
  {
  }

  /** An id on its way was on its way before, or is the new one of the acting task. */
  lemma PendingBefore(w: World, w': World, t: nat, choice: Choice, u: nat, r: RoomId)
    requires Stepped(w, w', t, choice) && u in w'.tasks && Pending(w'.tasks[u].pc, r)
    ensures u in w.tasks && (Pending(w.tasks[u].pc, r) || (u == t && w.tasks[t].pc.Spawn? && choice == NewRoom(r)))
    ensures u == t ==> !w.tasks[t].pc.PutListing?
  {
    if u == t { OwnIds(w, w', t, choice, r); }
  }

  lemma StepKeepsSets(w: World, w': World, t: nat, choice: Choice)
    requires IdsAgree(w) && Stepped(w, w', t, choice)
    ensures w'.listings.Keys <= w'.everListed <= w'.usedIds && w'.rooms <= w'.usedIds
  {
    var pc := w.tasks[t].pc;
    assert pc.PutRoom? || pc.PutListing? ==> Pending(pc, pc.room);
  }

  lemma PendingIsUsed(w: World, w': World, t: nat, choice: Choice, u: nat, r: RoomId)
    requires IdsAgree(w) && Stepped(w, w', t, choice) && u in w'.tasks && Pending(w'.tasks[u].pc, r)
    ensures r in w'.usedIds && r !in w'.everListed
  {
    PendingBefore(w, w', t, choice, u, r);
    var pc := w.tasks[t].pc;
    assert pc.PutListing? ==> Pending(pc, pc.room);
  }

  lemma StepKeepsIds(w: World, w': World, t: nat, choice: Choice)
    requires IdsAgree(w) && Stepped(w, w', t, choice)
    ensures IdsAgree(w')
  {
    StepKeepsSets(w, w', t, choice);
    forall u, r | u in w'.tasks && Pending(w'.tasks[u].pc, r) ensures r in w'.usedIds && r !in w'.everListed {
      PendingIsUsed(w, w', t, choice, u, r);
    }
    forall u, v, r | u in w'.tasks && v in w'.tasks && Pending(w'.tasks[u].pc, r) && Pending(w'.tasks[v].pc, r) ensures u == v {
      PendingBefore(w, w', t, choice, u, r);
      PendingBefore(w, w', t, choice, v, r);
    }
    forall u, r | u in w'.tasks && r in Found(w'.tasks[u].pc) ensures r in w'.everListed {
      if u == t { OwnIds(w, w', t, choice, r); } else { assert r in Found(w.tasks[u].pc); }
    }
  }

  /** Two creators of one key are never both past the query. */
  lemma SoleCreator(w: World, t: nat, u: nat)
    requires SessionsAgree(w) && t in w.tasks && u in w.tasks
    requires w.tasks[t].unique.Some? && w.tasks[t].unique == w.tasks[u].unique
    requires UniqPhase(w.tasks[t].pc) == Some(Guarded) && UniqPhase(w.tasks[u].pc) == Some(Guarded)
    ensures t == u
  {
    assert TaskAgrees(w.table, t, w.tasks[t]) && TaskAgrees(w.table, u, w.tasks[u]);
    MutualExclusion(w.table, Uniq(t), Uniq(u));
  }

  /** What was live for the acting task's key before still is all that is live, while it searches and creates. */
  lemma OwnLive(w: World, w': World, t: nat, choice: Choice, key: Key)
    requires IdsAgree(w) && Stepped(w, w', t, choice) && !w.tasks[t].pc.PutListing?
    ensures forall r :: Live(w', key, r) ==> Live(w, key, r)
  {
    forall r | Live(w', key, r) ensures Live(w, key, r) { LiveOnlyByListing(w, w', t, choice, key, r); }
  }

  /** A listing is pruned only after its room was looked up in vain. */
  lemma OwnPrune(w: World, w': World, t: nat, choice: Choice)
    requires Stepped(w, w', t, choice) && w'.tasks[t].pc.Prune? && w'.tasks[t].pc.found != []
    ensures w'.tasks[t].pc.found[0] !in w'.rooms
  {
  }

  /** The acting task learns what its next program counter relies on. */
  lemma OwnKnowledge(w: World, w': World, t: nat, choice: Choice)
    requires Stepped(w, w', t, choice)
    requires IdsAgree(w) && NamesAgree(w) && WellFormed(w.tasks[t]) && Knows(w, w.tasks[t])
    ensures Knows(w', w'.tasks[t])
  {
    var task, task' := w.tasks[t], w'.tasks[t];
    if task'.pc.Prune? && task'.pc.found != [] { OwnPrune(w, w', t, choice); }
    StepKeepsRequests(w, w', t, choice);
    assert SameRequest(task, task');
    SameSearchable(w, w', task.room);
    if TaskKey(w.registry, task).Some? && IsSearchable(w, task.room) {
      OwnKnowsLive(w, w', t, choice, TaskKey(w.registry, task).value);
    }
  }

  lemma OwnKnowsLive(w: World, w': World, t: nat, choice: Choice, key: Key)
    requires Stepped(w, w', t, choice) && IdsAgree(w) && NamesAgree(w) && WellFormed(w.tasks[t])
    requires IsSearchable(w, w.tasks[t].room) && TaskKey(w.registry, w.tasks[t]) == Some(key)
    requires KnowsLive(w, key, w.tasks[t].pc)
    ensures KnowsLive(w', key, w'.tasks[t].pc)
  {
    var task := w.tasks[t];
    assert Asks(w.registry, task);
    if !task.pc.PutListing? { OwnLive(w, w', t, choice, key); }
    if task.pc.Query? { QueryWithin(w, task, key, choice.ids); }
    NextKnowsLive(w, w', task, key, NextPc(w, t, w'.table, choice), choice, t);
  }

  lemma QueryWithin(w: World, task: Task, key: Key, ids: seq<RoomId>)
    requires NamesAgree(w) && IsSearchable(w, task.room) && TaskKey(w.registry, task) == Some(key) && IsQueryResult(w, task, ids)
    ensures LiveWithin(w, key, ids)
  {
    forall r | Live(w, key, r) ensures r in ids { QueryFindsLive(w, task, r); }
  }

  /** Along the program counters of a request: live rooms only go until it lists its own. */
  lemma NextKnowsLive(w: World, w': World, task: Task, key: Key, pc: Pc, choice: Choice, t: nat)
    requires CanGo(w, t, choice) && task == w.tasks[t] && WellFormed(task) && task.unique.Some? && pc == NextPc(w, t, w'.table, choice)
    requires KnowsLive(w, key, task.pc) && (task.pc.Query? ==> LiveWithin(w, key, choice.ids))
    requires task.pc.PutListing? || forall r :: Live(w', key, r) ==> Live(w, key, r)
    requires task.pc.Prune? && task.pc.found != [] ==> task.pc.found[0] !in w'.listings
    ensures KnowsLive(w', key, pc)
  {
  }

  /** A listed room is not one that is just being put into the room map. */
  lemma ListedIsNotPending(w: World, t: nat, u: nat, r: RoomId)
    requires IdsAgree(w) && t in w.tasks && u in w.tasks && r in Found(w.tasks[u].pc)
    ensures w.tasks[t].pc != PutRoom(r)
  {
    assert r in w.everListed;
    assert !Pending(w.tasks[t].pc, r);
  }

  lemma StaleStaysOut(w: World, w': World, t: nat, choice: Choice, u: nat)
    requires IdsAgree(w) && Stepped(w, w', t, choice) && u in w.tasks
    requires w.tasks[u].pc.Prune? && w.tasks[u].pc.found != [] && w.tasks[u].pc.found[0] !in w.rooms
    ensures w.tasks[u].pc.found[0] !in w'.rooms
  {
    var r := w.tasks[u].pc.found[0];
    assert r in Found(w.tasks[u].pc);
    ListedIsNotPending(w, t, u, r);
    assert w'.rooms == if w.tasks[t].pc.PutRoom? then w.rooms + {w.tasks[t].pc.room} else w.rooms;
  }

  /** The others' knowledge survives a step of `t`. */
  lemma OthersKnowledge(w: World, w': World, t: nat, choice: Choice, u: nat)
    requires IdsAgree(w) && SessionsAgree(w) && NamesAgree(w) && Stepped(w, w', t, choice) && u in w.tasks && u != t
    requires t in w.tasks && Knows(w, w.tasks[u])
    ensures Knows(w', w.tasks[u])
  {
    var other := w.tasks[u];
    StepKeepsRequests(w, w', t, choice);
    SameSearchable(w, w', other.room);
    if other.pc.Prune? && other.pc.found != [] { StaleStaysOut(w, w', t, choice, u); }
    if TaskKey(w.registry, other).Some? && IsSearchable(w, other.room) && UniqPhase(other.pc) == Some(Guarded) {
      OthersLive(w, w', t, choice, u, TaskKey(w.registry, other).value);
    }
  }

  /** While `u` holds the lock of its key, nobody else lists a room under it. */
  lemma OthersLive(w: World, w': World, t: nat, choice: Choice, u: nat, key: Key)
    requires IdsAgree(w) && SessionsAgree(w) && NamesAgree(w) && Stepped(w, w', t, choice) && u in w.tasks && u != t
    requires TaskKey(w.registry, w.tasks[u]) == Some(key) && UniqPhase(w.tasks[u].pc) == Some(Guarded)
    ensures forall r :: Live(w', key, r) ==> Live(w, key, r)
  {
    forall r | Live(w', key, r) ensures Live(w, key, r) {
      LiveOnlyByListing(w, w', t, choice, key, r);
      if w.tasks[t].pc.PutListing? && TaskKey(w.registry, w.tasks[t]) == Some(key) {
        SameKeySameLock(w.registry, w.tasks[t], w.tasks[u]);
        SoleCreator(w, t, u);
      }
    }
  }

  lemma StepKeepsOneLive(w: World, w': World, t: nat, choice: Choice)
    requires IdsAgree(w) && OneLivePerKey(w) && Stepped(w, w', t, choice) && Knows(w, w.tasks[t])
    ensures OneLivePerKey(w')
  {
    StepKeepsRequests(w, w', t, choice);
    forall key: Key, r, q | IsSearchable(w', key.room) && Live(w', key, r) && Live(w', key, q) ensures r == q {
      SameSearchable(w, w', key.room);
      LiveOnlyByListing(w, w', t, choice, key, r);
      LiveOnlyByListing(w, w', t, choice, key, q);
    }
  }

  lemma StepKeepsKnowledge(w: World, w': World, t: nat, choice: Choice)
    requires Inv(w) && Stepped(w, w', t, choice)
    ensures KnowledgeHolds(w')
  {
    assert TaskAgrees(w.table, t, w.tasks[t]);
    forall u | u in w'.tasks ensures Knows(w', w'.tasks[u]) {
      assert Knows(w, w.tasks[u]);
      if u == t { OwnKnowledge(w, w', t, choice); } else { OthersKnowledge(w, w', t, choice, u); }
    }
  }

  lemma GoKeepsInv(w: World, t: nat, choice: Choice)
    requires Inv(w) && CanGo(w, t, choice)
    ensures Inv(GoStep(w, t, choice))
  {
    var w' := GoStep(w, t, choice);
    GoKeepsSessions(w, t, choice);
    GoSteps(w, t, choice);
    StepKeepsIds(w, w', t, choice);
    StepKeepsNames(w, w', t, choice);
    StepKeepsKnowledge(w, w', t, choice);
    assert Knows(w, w.tasks[t]);
    StepKeepsOneLive(w, w', t, choice);
  }

  /** Rooms and listings that vanish or change what they show, and requests that are dropped, only take away. */
  ghost predicate Shrunk(w: World, w': World) {
    && w'.registry == w.registry && w'.tasks.Keys == w.tasks.Keys && w'.everListed == w.everListed && w'.usedIds == w.usedIds
    && (forall t :: t in w.tasks ==> w'.tasks[t] == w.tasks[t] || w'.tasks[t] == w.tasks[t].(pc := Done(Cancelled)))
    && w'.rooms <= w.rooms && w'.listings.Keys <= w.listings.Keys
    && forall r :: r in w'.listings ==> SameIdentity(w.listings[r], w'.listings[r])
  }

  lemma ShrinkKeepsLive(w: World, w': World)
    requires Shrunk(w, w')
    ensures forall key, r :: Live(w', key, r) ==> Live(w, key, r)
  {
  }

  lemma ShrinkKeepsIds(w: World, w': World)
    requires Shrunk(w, w') && IdsAgree(w)
    ensures IdsAgree(w')
  {
    assert forall t, r :: t in w'.tasks && Pending(w'.tasks[t].pc, r) ==> Pending(w.tasks[t].pc, r);
    assert forall t, r :: t in w'.tasks && r in Found(w'.tasks[t].pc) ==> r in Found(w.tasks[t].pc);
  }

  lemma ShrinkKeepsRooms(w: World, w': World)
    requires Shrunk(w, w') && IdsAgree(w) && NamesAgree(w) && KnowledgeHolds(w) && OneLivePerKey(w)
    ensures IdsAgree(w') && NamesAgree(w') && KnowledgeHolds(w') && OneLivePerKey(w')
  {
    ShrinkKeepsIds(w, w');
    ShrinkKeepsLive(w, w');
    forall r | r in w'.listings ensures ShowsLikeBefore(w, w'.listings[r]) { assert SameIdentity(w.listings[r], w'.listings[r]); }
    NamesCarry(w, w');
    forall t | t in w'.tasks ensures Knows(w', w'.tasks[t]) {
      assert Knows(w, w.tasks[t]);
      SameSearchable(w, w', w.tasks[t].room);
    }
    forall key: Key, r, q | IsSearchable(w', key.room) && Live(w', key, r) && Live(w', key, q) ensures r == q {
      SameSearchable(w, w', key.room);
    }
  }

  lemma HappenShrinks(w: World, e: Event)
    requires Possible(w, e) && !e.Go? && IdsAgree(w)
    ensures Shrunk(w, Happen(w, e))
  {
  }

  lemma HappenKeepsInv(w: World, e: Event)
    requires Inv(w) && Possible(w, e)
    ensures Inv(Happen(w, e))
  {
    if e.Go? {
      GoKeepsInv(w, e.task, e.choice);
    } else {
      HappenKeepsSessions(w, e);
      HappenShrinks(w, e);
      ShrinkKeepsRooms(w, Happen(w, e));
    }
  }

  lemma InitialInv(w: World)
    requires Initial(w)
    ensures Inv(w)
  {
    LockTable.InitialInv();
    InitialTasks(w);
    forall t | t in w.tasks
      ensures Knows(w, w.tasks[t]) && Found(w.tasks[t].pc) == [] && forall r :: !Pending(w.tasks[t].pc, r)
    {
      InitialKnows(w, w.tasks[t]);
    }
  }

  lemma InitialKnows(w: World, task: Task)
    requires w.listings == map[] && task.pc == (if task.criteria.Some? then FindMatch else EnterCreate(task))
    ensures Knows(w, task) && Found(task.pc) == [] && forall r :: !Pending(task.pc, r)
  {
  }

  lemma InitialTasks(w: World)
    requires Initial(w)
    ensures TasksAgree(w)
  {
    forall t | t in w.tasks ensures TaskAgrees(w.table, t, w.tasks[t]) {
      InitialTask(w, t, w.tasks[t]);
    }
  }

  lemma InitialTask(w: World, t: nat, task: Task)
    requires Initial(w) && t in w.tasks && task == w.tasks[t]
    ensures TaskAgrees(w.table, t, task)
  {
    assert SessionOf(w.table, Uniq(t)).Idle? && SessionOf(w.table, Crit(t)).Idle?;
  }

  lemma {:induction false} RunKeepsInv(w: World, events: seq<Event>)
    requires Inv(w) && Run(w, events).Some?
    ensures Inv(Run(w, events).value)
    decreases |events|
  {
    if events != [] {
      HappenKeepsInv(w, events[0]);
      RunKeepsInv(Happen(w, events[0]), events[1..]);
    }
  }

  lemma ReachableInv(w: World)
    requires Reachable(w)
    ensures Inv(w)
  {
    var start, events :| Initial(start) && Run(start, events) == Some(w);
    InitialInv(start);
    RunKeepsInv(start, events);
  }

  // ------------------------------------------------------------------
  // Main results
  // ------------------------------------------------------------------

  /** In every interleaving, one live room per unique key, for every room type that is searched by plain fields. */
  lemma UniqueRoomPerKey(w: World, key: Key, r: RoomId, q: RoomId)
    requires Reachable(w) && IsSearchable(w, key.room) && Live(w, key, r) && Live(w, key, q)
    ensures r == q
  {
    ReachableInv(w);
  }

  /** `find_live` never deletes the listing of a room that is still in the room map. */
  lemma PrunesOnlyStaleListings(w: World, t: nat)
    requires Reachable(w) && t in w.tasks && w.tasks[t].pc.Prune?
    ensures w.tasks[t].pc.found != [] && w.tasks[t].pc.found[0] !in w.rooms
  {
    ReachableInv(w);
    assert TaskAgrees(w.table, t, w.tasks[t]) && Knows(w, w.tasks[t]);
  }

  /** Whoever holds a unique lock waits for nothing, and whoever waits for a criteria lock holds nothing. */
  lemma LockOrder(w: World, t: nat)
    requires Reachable(w) && t in w.tasks
    ensures InSection(w.table, Uniq(t)) ==> !w.tasks[t].pc.CritWait? && !w.tasks[t].pc.UniqWait?
    ensures w.tasks[t].pc.CritWait? ==> !InSection(w.table, Crit(t)) && !InSection(w.table, Uniq(t))
    ensures w.tasks[t].pc.UniqWait? && w.tasks[t].criteria.Some? ==> InSection(w.table, Crit(t))
  {
    ReachableInv(w);
    assert TaskAgrees(w.table, t, w.tasks[t]);
  }

  lemma ReleaseStepEnabled(table: Table, t: nat, task: Task)
    requires TaskAgrees(table, t, task) && LockStep(task, t).Some? && !LockStep(task, t).value.1.Acquire?
    ensures Enabled(table, LockStep(task, t).value.0, LockStep(task, t).value.1)
  {
  }

  /** Some answer of `find_match`. */
  ghost function AnyMatch(w: World, task: Task): (found: Option<RoomId>)
    ensures IsLookup(w, task, found)
  {
    if r :| r in w.listings && Matches(w.registry, task, w.listings[r]) then Some(r) else None
  }

  /** A task that waits for no lock can always take its next step. */
  lemma RunnableTask(w: World, t: nat) returns (choice: Choice)
    requires SessionsAgree(w) && t in w.tasks
    requires !w.tasks[t].pc.Done? && !w.tasks[t].pc.CritWait? && !w.tasks[t].pc.UniqWait?
    ensures CanGo(w, t, choice)
  {
    assert TaskAgrees(w.table, t, w.tasks[t]);
    var task := w.tasks[t];
    if LockStep(task, t).Some? { ReleaseStepEnabled(w.table, t, task); }
    var found := set r | r in w.listings && Finds(w.registry, task, w.listings[r]);
    choice :=
      if task.pc.FindMatch? || task.pc.Recheck? || task.pc.Confirm? then Lookup(AnyMatch(w, task))
      else if task.pc.Query? then Candidates(SortedKeys(found))
      else if task.pc.Spawn? then SpawnError
      else if task.pc.PutListing? then
        Listed(BareListing(task.pc.room, task.room, FilterExtra(w.registry, task.room, task.made)))
      else if task.pc.Reserve? then SeatReply(Refused)
      else Proceed;
  }

  /** Whoever holds the mutex that another one waits for. */
  lemma Holder(w: World, id: SessionId) returns (owner: SessionId)
    requires SessionsAgree(w) && SessionOf(w.table, id).Active?
    requires !MutexFree(w.table, SessionOf(w.table, id).lock)
    ensures owner.task in w.tasks && InSection(w.table, owner)
    ensures SessionOf(w.table, owner).key == SessionOf(w.table, id).key
  {
    owner :| owner in w.table.sessions && Refers(w.table, owner, SessionOf(w.table, id).lock)
             && w.table.sessions[owner].phase.Guarded?;
    assert Share(w.table, owner, id);
  }

  /** How many steps of the current attempt may still come, without the listings still to check. */
  function StepsLeft(pc: Pc): nat {
    match pc
    case FindMatch => 22 case CritCreate => 21 case CritWait => 20 case Recheck => 19
    case UniqCreate => 18 case UniqWait => 17 case Query => 16 case Check(_) => 15 case Prune(_) => 15
    case Spawn => 14 case PutRoom(_) => 13 case PutListing(_) => 12
    case UniqUnlock(_) => 11 case UniqCheck(_) => 10 case UniqRemove(_) => 9 case UniqDrop(_) => 8
    case Return(_) => 7 case Confirm(_) => 6
    case CritUnlock(_) => 5 case CritCheck(_) => 4 case CritRemove(_) => 3 case CritDrop(_) => 2
    case Reserve(_) => 1 case Done(_) => 0
  }

  function ListingsLeft(pc: Pc): nat {
    match pc
    case Check(found) => 2 * |found|
    case Prune(found) => if found == [] then 0 else 2 * |found| - 1
    case _ => 0
  }

  /** The lexicographic measure of a request: attempts, then steps, then listings. */
  predicate Closer(a: Task, b: Task) {
    || a.attempts < b.attempts
    || (a.attempts == b.attempts && StepsLeft(a.pc) < StepsLeft(b.pc))
    || (a.attempts == b.attempts && StepsLeft(a.pc) == StepsLeft(b.pc) && ListingsLeft(a.pc) < ListingsLeft(b.pc))
  }

  lemma NextCloser(w: World, t: nat, table: Table, choice: Choice)
    requires t in w.tasks && HasShape(w.tasks[t].pc, choice) && WellFormed(w.tasks[t])
    ensures var task := w.tasks[t];
            var pc := NextPc(w, t, table, choice);
            Closer(task.(pc := pc, attempts := AttemptsAfter(task, pc)), task)
  {
  }

  lemma StepCloser(w: World, w': World, t: nat, choice: Choice)
    requires Stepped(w, w', t, choice) && WellFormed(w.tasks[t])
    ensures Closer(w'.tasks[t], w.tasks[t])
  {
    NextCloser(w, t, w'.table, choice);
  }

  /**
   * Every step brings the acting request closer to its end, within three attempts, and leaves the
   * others where they are.
   */
  lemma StepsEnd(w: World, t: nat, choice: Choice)
    requires Reachable(w) && CanGo(w, t, choice)
    ensures Closer(GoStep(w, t, choice).tasks[t], w.tasks[t])
    ensures forall u :: u in w.tasks && u != t ==> GoStep(w, t, choice).tasks[u] == w.tasks[u]
    ensures 1 <= w.tasks[t].attempts <= JOIN_OR_CREATE_RETRIES
  {
    ReachableInv(w);
    assert TaskAgrees(w.table, t, w.tasks[t]);
    GoSteps(w, t, choice);
    StepCloser(w, GoStep(w, t, choice), t, choice);
  }
}
