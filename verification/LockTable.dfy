/**
 * The matchmaker's table of per-key mutexes: created on demand, counted by `Arc`, and dropped
 * by the last user. Table-entry operations are atomic (the map shard is locked meanwhile), and
 * any number of sessions interleave. A session is one task's use of one lock, from
 * `create_lock` to the end of `release_create_lock`.
 */
module LockTable {
  import opened Json
  import opened LockKeys

  datatype SessionId = SessionId(task: nat, unique: bool)

  /** How far a session has come. */
  datatype Phase =
    | Waiting    // holds an `Arc`, awaits the guard
    | Guarded    // holds the guard: the critical section
    | Released   // guard dropped, `release_create_lock` not yet begun
    | Deciding   // saw a strong count of at most 2, `remove_if` still to come
    | Decided    // past the decision, the local `Arc` still alive

  datatype Session = Idle | Active(key: LockKey, lock: nat, phase: Phase)

  /** `nextLock` numbers the mutexes, so that each is told from every other one ever made. */
  datatype Table = Table(locks: map<LockKey, nat>, sessions: map<SessionId, Session>, nextLock: nat)

  function SessionOf(t: Table, id: SessionId): Session {
    if id in t.sessions then t.sessions[id] else Idle
  }

  predicate Refers(t: Table, id: SessionId, lock: nat) {
    SessionOf(t, id).Active? && SessionOf(t, id).lock == lock
  }

  /** `Arc::strong_count`: one per table entry and one per session. */
  function StrongCount(t: Table, lock: nat): nat {
    |set k | k in t.locks && t.locks[k] == lock| + |set id | id in t.sessions && Refers(t, id, lock)|
  }

  function WithSession(t: Table, id: SessionId, s: Session): Table {
    t.(sessions := t.sessions[id := s])
  }

  // ------------------------------------------------------------------
  // Steps
  // ------------------------------------------------------------------

  datatype Step =
    | Create(key: LockKey)
    | Acquire
    | DropGuard
    | CheckCount
    | RemoveIf
    | DropArc
    | Abandon    // an early return or a cancelled request drops guard and `Arc` without a release

  predicate Enabled(t: Table, id: SessionId, step: Step) {
    var s := SessionOf(t, id);
    match step
    case Create(_) => s.Idle?
    case Acquire => s.Active? && s.phase.Waiting? && MutexFree(t, s.lock)
    case DropGuard => s.Active? && s.phase.Guarded?
    case CheckCount => s.Active? && s.phase.Released?
    case RemoveIf => s.Active? && s.phase.Deciding?
    case DropArc => s.Active? && s.phase.Decided?
    case Abandon => s.Active?
  }

  predicate MutexFree(t: Table, lock: nat) {
    forall id :: id in t.sessions ==> !(Refers(t, id, lock) && t.sessions[id].phase.Guarded?)
  }

  function Next(t: Table, id: SessionId, step: Step): Table
    requires Enabled(t, id, step)
  {
    var s := SessionOf(t, id);
    match step
    case Create(key) =>
      if key in t.locks then WithSession(t, id, Active(key, t.locks[key], Waiting))
      else Table(t.locks[key := t.nextLock], t.sessions[id := Active(key, t.nextLock, Waiting)], t.nextLock + 1)
    case Acquire => WithSession(t, id, s.(phase := Guarded))
    case DropGuard => WithSession(t, id, s.(phase := Released))
    case CheckCount =>
      WithSession(t, id, s.(phase := if StrongCount(t, s.lock) <= 2 then Deciding else Decided))
    case RemoveIf =>
      var locks :=
        if s.key in t.locks && StrongCount(t, t.locks[s.key]) <= 2 then t.locks - {s.key} else t.locks;
      Table(locks, t.sessions[id := s.(phase := Decided)], t.nextLock)
    case DropArc => WithSession(t, id, Idle)
    case Abandon => WithSession(t, id, Idle)
  }

  // ------------------------------------------------------------------
  // The invariant
  // ------------------------------------------------------------------

  /** From `create_lock` up to its own decision a session holds the very mutex in the table. */
  ghost predicate HoldsTableLock(t: Table, id: SessionId) {
    var s := SessionOf(t, id);
    s.Active? && !s.phase.Decided? ==> s.key in t.locks && t.locks[s.key] == s.lock
  }

  ghost predicate Numbered(t: Table) {
    && (forall k :: k in t.locks ==> t.locks[k] < t.nextLock)
    && (forall k, l :: k in t.locks && l in t.locks && t.locks[k] == t.locks[l] ==> k == l)
    && (forall id :: id in t.sessions && t.sessions[id].Active? ==> t.sessions[id].lock < t.nextLock)
  }

  /** Two sessions that use one mutex. */
  ghost predicate Share(t: Table, i: SessionId, j: SessionId) {
    && i in t.sessions && j in t.sessions && t.sessions[i].Active? && t.sessions[j].Active?
    && t.sessions[i].lock == t.sessions[j].lock
  }

  ghost predicate InSection(t: Table, id: SessionId) {
    SessionOf(t, id).Active? && SessionOf(t, id).phase.Guarded?
  }

  /** A mutex never serves two keys. */
  ghost predicate OneKeyPerLock(t: Table) {
    && (forall id, k :: k in t.locks && Refers(t, id, t.locks[k]) ==> k == SessionOf(t, id).key)
    && (forall i, j :: Share(t, i, j) ==> t.sessions[i].key == t.sessions[j].key)
  }

  /** The mutex itself excludes: at most one guard per lock. */
  ghost predicate OneGuardPerLock(t: Table) {
    forall i, j :: Share(t, i, j) && InSection(t, i) && InSection(t, j) ==> i == j
  }

  ghost predicate EveryoneHoldsTableLock(t: Table) {
    forall id :: id in t.sessions ==> HoldsTableLock(t, id)
  }

  ghost predicate Inv(t: Table) {
    Numbered(t) && OneKeyPerLock(t) && OneGuardPerLock(t) && EveryoneHoldsTableLock(t)
  }

  /** The entry and two sessions make three. */
  lemma TwoUsersCount(t: Table, key: LockKey, i: SessionId, j: SessionId)
    requires i != j && Share(t, i, j)
    requires key in t.locks && t.locks[key] == t.sessions[i].lock
    ensures StrongCount(t, t.locks[key]) >= 3
  {
    var lock := t.locks[key];
    var entries := set k | k in t.locks && t.locks[k] == lock;
    var users := set u | u in t.sessions && Refers(t, u, lock);
    assert key in entries && {i, j} <= users;
    SubsetSize({key}, entries);
    SubsetSize({i, j}, users);
    assert |{i, j}| == 2;
  }

  lemma InitialInv()
    ensures Inv(Table(map[], map[], 0))
  {
  }

  lemma NextKeepsNumbering(t: Table, id: SessionId, step: Step)
    requires Inv(t) && Enabled(t, id, step)
    ensures Numbered(Next(t, id, step))
  {
    if step.RemoveIf? {
      assert forall k :: k in Next(t, id, step).locks ==> k in t.locks && Next(t, id, step).locks[k] == t.locks[k];
    }
  }

  lemma NextKeepsKeys(t: Table, id: SessionId, step: Step)
    requires Inv(t) && Enabled(t, id, step)
    ensures OneKeyPerLock(Next(t, id, step))
  {
    var t' := Next(t, id, step);
    forall u, k | k in t'.locks && Refers(t', u, t'.locks[k]) ensures k == SessionOf(t', u).key {
      if u != id && k in t.locks && t.locks[k] == t'.locks[k] {
        assert Refers(t, u, t.locks[k]);
      } else if u == id && !step.Create? {
        assert Refers(t, u, t.locks[k]);
      }
    }
    forall i, j | Share(t', i, j) ensures t'.sessions[i].key == t'.sessions[j].key {
      if step.Create? && i != j && (i == id || j == id) {
        var other := if i == id then j else i;
        assert t'.sessions[id].key in t'.locks;
        if step.key in t.locks { assert Refers(t, other, t.locks[step.key]); }
      } else if i != j {
        assert Share(t, i, j);
      }
    }
  }

  lemma NextKeepsGuards(t: Table, id: SessionId, step: Step)
    requires Inv(t) && Enabled(t, id, step)
    ensures OneGuardPerLock(Next(t, id, step))
  {
    var t' := Next(t, id, step);
    assert step.Acquire? ==> forall u :: Refers(t, u, t.sessions[id].lock) ==> !InSection(t, u);
    forall i, j | Share(t', i, j) && InSection(t', i) && InSection(t', j) ensures i == j {
      if i != id && j != id {
        assert Share(t, i, j) && InSection(t, i) && InSection(t, j);
      }
    }
  }

  lemma NextKeepsTableLocks(t: Table, id: SessionId, step: Step)
    requires Inv(t) && Enabled(t, id, step)
    ensures EveryoneHoldsTableLock(Next(t, id, step))
  {
    var t' := Next(t, id, step);
    forall u | u in t'.sessions ensures HoldsTableLock(t', u) {
      if u in t.sessions { assert HoldsTableLock(t, u); }
      if step.RemoveIf? && u != id {
        var s := SessionOf(t, id);
        assert HoldsTableLock(t, id);
        if t.sessions[u].Active? && !t.sessions[u].phase.Decided? && t.sessions[u].key == s.key {
          TwoUsersCount(t, s.key, id, u);
        }
      }
    }
  }

  lemma NextKeepsInv(t: Table, id: SessionId, step: Step)
    requires Inv(t) && Enabled(t, id, step)
    ensures Inv(Next(t, id, step))
  {
    NextKeepsNumbering(t, id, step);
    NextKeepsKeys(t, id, step);
    NextKeepsGuards(t, id, step);
    NextKeepsTableLocks(t, id, step);
  }

  /** Two sessions are never inside the critical section of the same key. */
  lemma MutualExclusion(t: Table, i: SessionId, j: SessionId)
    requires Inv(t)
    requires InSection(t, i) && InSection(t, j) && SessionOf(t, i).key == SessionOf(t, j).key
    ensures i == j
  {
    assert HoldsTableLock(t, i) && HoldsTableLock(t, j);
    assert Share(t, i, j);
  }

  // ------------------------------------------------------------------
  // Every run
  // ------------------------------------------------------------------

  datatype Event = Event(id: SessionId, step: Step)

  /** The table after a run, or `None` when some event of it was not possible. */
  function Run(t: Table, events: seq<Event>): Option<Table>
    decreases |events|
  {
    if events == [] then Some(t)
    else if !Enabled(t, events[0].id, events[0].step) then None
    else Run(Next(t, events[0].id, events[0].step), events[1..])
  }

  lemma {:induction false} RunKeepsInv(t: Table, events: seq<Event>)
    requires Inv(t) && Run(t, events).Some?
    ensures Inv(Run(t, events).value)
    decreases |events|
  {
    if events != [] {
      NextKeepsInv(t, events[0].id, events[0].step);
      RunKeepsInv(Next(t, events[0].id, events[0].step), events[1..]);
    }
  }

  const Empty: Table := Table(map[], map[], 0)

  /** Main result, over every interleaving of any number of sessions. */
  lemma RunsExclude(events: seq<Event>, i: SessionId, j: SessionId)
    requires Run(Empty, events).Some?
    requires InSection(Run(Empty, events).value, i) && InSection(Run(Empty, events).value, j)
    requires SessionOf(Run(Empty, events).value, i).key == SessionOf(Run(Empty, events).value, j).key
    ensures i == j
  {
    RunKeepsInv(Empty, events);
    MutualExclusion(Run(Empty, events).value, i, j);
  }

  // ------------------------------------------------------------------
  // When the entry is dropped
  // ------------------------------------------------------------------

  /** Nobody but session `id` refers to this mutex. */
  ghost predicate IsSoleUser(t: Table, id: SessionId, lock: nat) {
    forall other :: other in t.sessions && Refers(t, other, lock) ==> other == id
  }

  ghost predicate HasEntry(t: Table, key: LockKey, lock: nat) { key in t.locks && t.locks[key] == lock }

  lemma CountIsLowIff(t: Table, id: SessionId)
    requires Inv(t) && SessionOf(t, id).Active? && !SessionOf(t, id).phase.Decided?
    ensures StrongCount(t, SessionOf(t, id).lock) <= 2 <==> IsSoleUser(t, id, SessionOf(t, id).lock)
  {
    var s := SessionOf(t, id);
    assert HoldsTableLock(t, id);
    assert (set k | k in t.locks && t.locks[k] == s.lock) == {s.key};
    if IsSoleUser(t, id, s.lock) {
      assert (set u | u in t.sessions && Refers(t, u, s.lock)) == {id};
    } else {
      var other :| other in t.sessions && Refers(t, other, s.lock) && other != id;
      TwoUsersCount(t, s.key, id, other);
    }
  }

  /** The look at the count leads to the removal exactly when no other session refers to the mutex. */
  lemma ChecksIffSoleUser(t: Table, id: SessionId)
    requires Inv(t) && Enabled(t, id, CheckCount)
    ensures SessionOf(Next(t, id, CheckCount), id).phase == (if IsSoleUser(t, id, SessionOf(t, id).lock) then Deciding else Decided)
    ensures Next(t, id, CheckCount).locks == t.locks
  {
    CountIsLowIff(t, id);
  }

  /** The removal drops the entry exactly when no other session refers to the mutex. */
  lemma RemovesIffSoleUser(t: Table, id: SessionId)
    requires Inv(t) && Enabled(t, id, RemoveIf)
    ensures SessionOf(t, id).key !in Next(t, id, RemoveIf).locks <==> IsSoleUser(t, id, SessionOf(t, id).lock)
  {
    assert HoldsTableLock(t, id);
    CountIsLowIff(t, id);
  }

  /** An entry goes in a step exactly when the step is a removal by the sole user of its mutex. */
  lemma EntryGoesIff(t: Table, id: SessionId, step: Step, key: LockKey, lock: nat)
    requires Inv(t) && Enabled(t, id, step) && HasEntry(t, key, lock)
    ensures !HasEntry(Next(t, id, step), key, lock) <==> step.RemoveIf? && Refers(t, id, lock) && IsSoleUser(t, id, lock)
  {
    if step.RemoveIf? {
      RemovesIffSoleUser(t, id);
      assert HoldsTableLock(t, id);
    }
  }

  // ------------------------------------------------------------------
  // A whole release
  // ------------------------------------------------------------------

  /** Others only. */
  predicate Without(events: seq<Event>, id: SessionId) { forall e :: e in events ==> e.id != id }

  lemma {:induction false} RunJoin(t: Table, a: seq<Event>, b: seq<Event>)
    ensures Run(t, a + b) == if Run(t, a).None? then None else Run(Run(t, a).value, b)
    decreases |a|
  {
    if a == [] {
      assert a + b == b;
    } else if Enabled(t, a[0].id, a[0].step) {
      assert (a + b)[1..] == a[1..] + b;
      RunJoin(Next(t, a[0].id, a[0].step), a[1..], b);
    }
  }

  lemma {:induction false} OthersLeaveSession(t: Table, events: seq<Event>, id: SessionId)
    requires Without(events, id) && Run(t, events).Some?
    ensures SessionOf(Run(t, events).value, id) == SessionOf(t, id)
    decreases |events|
  {
    if events != [] {
      assert events[0] in events;
      OthersLeaveSession(Next(t, events[0].id, events[0].step), events[1..], id);
    }
  }

  /** The table when the released session looks at the count, and when it takes its last step. */
  ghost predicate Releases(t: Table, id: SessionId, before: seq<Event>, t1: Table, between: seq<Event>, t2: Table) {
    && SessionOf(t, id).Active? && SessionOf(t, id).phase.Released?
    && Without(before, id) && Run(t, before) == Some(t1)
    && Enabled(t1, id, CheckCount) && Without(between, id) && Run(Next(t1, id, CheckCount), between) == Some(t2)
  }

  /**
   * A whole release, with the steps of other sessions in between: its last step drops the entry
   * exactly when nobody else referred to the mutex at either look, and it is not abandoned.
   */
  lemma ReleaseDropsIff(t: Table, id: SessionId, before: seq<Event>, t1: Table, between: seq<Event>, t2: Table, last: Step)
    requires Inv(t) && Releases(t, id, before, t1, between, t2) && Enabled(t2, id, last)
    ensures var lock := SessionOf(t, id).lock;
            var key := SessionOf(t, id).key;
            HasEntry(t2, key, lock) && !HasEntry(Next(t2, id, last), key, lock) <==>
              IsSoleUser(t1, id, lock) && IsSoleUser(t2, id, lock) && !last.Abandon?
  {
    RunKeepsInv(t, before);
    OthersLeaveSession(t, before, id);
    ChecksIffSoleUser(t1, id);
    NextKeepsInv(t1, id, CheckCount);
    RunKeepsInv(Next(t1, id, CheckCount), between);
    OthersLeaveSession(Next(t1, id, CheckCount), between, id);
    assert SessionOf(t1, id) == SessionOf(t, id);
    assert HoldsTableLock(t2, id);
    if HasEntry(t2, SessionOf(t, id).key, SessionOf(t, id).lock) {
      EntryGoesIff(t2, id, last, SessionOf(t, id).key, SessionOf(t, id).lock);
    }
  }

  // ------------------------------------------------------------------
  // Entries over whole runs
  // ------------------------------------------------------------------

  /** At event `k` of the run, the sole user of the mutex removes its entry. */
  ghost predicate RemovedAt(t: Table, events: seq<Event>, k: nat, lock: nat) {
    && k < |events| && events[k].step.RemoveIf? && Run(t, events[..k]).Some?
    && Refers(Run(t, events[..k]).value, events[k].id, lock) && IsSoleUser(Run(t, events[..k]).value, events[k].id, lock)
  }

  ghost predicate Removed(t: Table, events: seq<Event>, lock: nat) { exists k: nat :: RemovedAt(t, events, k, lock) }

  lemma RunPrefix(t: Table, events: seq<Event>, k: nat)
    requires 0 < k <= |events| && Enabled(t, events[0].id, events[0].step)
    ensures Run(t, events[..k]) == Run(Next(t, events[0].id, events[0].step), events[1..][..k - 1])
  {
    assert events[..k][1..] == events[1..][..k - 1];
  }

  /** A removal in a run is its first event or one of the rest. */
  lemma RemovedCons(t: Table, events: seq<Event>, lock: nat)
    requires events != [] && Enabled(t, events[0].id, events[0].step)
    ensures Removed(t, events, lock) <==>
              RemovedAt(t, events, 0, lock) || Removed(Next(t, events[0].id, events[0].step), events[1..], lock)
  {
    var next := Next(t, events[0].id, events[0].step);
    if Removed(t, events, lock) {
      var k: nat :| RemovedAt(t, events, k, lock);
      if k > 0 {
        RunPrefix(t, events, k);
        assert RemovedAt(next, events[1..], k - 1, lock);
      }
    }
    if Removed(next, events[1..], lock) {
      var k: nat :| RemovedAt(next, events[1..], k, lock);
      RunPrefix(t, events, k + 1);
      assert RemovedAt(t, events, k + 1, lock);
    }
  }

  /** A mutex that has left the table never comes back. */
  lemma {:induction false} GoneStaysGone(t: Table, events: seq<Event>, key: LockKey, lock: nat)
    requires Inv(t) && Run(t, events).Some? && !HasEntry(t, key, lock) && lock < t.nextLock
    ensures !HasEntry(Run(t, events).value, key, lock)
    decreases |events|
  {
    if events != [] {
      NextKeepsInv(t, events[0].id, events[0].step);
      GoneStaysGone(Next(t, events[0].id, events[0].step), events[1..], key, lock);
    }
  }

  /** Over any run, an entry is gone exactly when at some point the sole user of its mutex removed it. */
  lemma {:induction false} EntryGoneIff(t: Table, events: seq<Event>, key: LockKey, lock: nat)
    requires Inv(t) && Run(t, events).Some? && HasEntry(t, key, lock)
    ensures !HasEntry(Run(t, events).value, key, lock) <==> Removed(t, events, lock)
    decreases |events|
  {
    if events != [] {
      var next := Next(t, events[0].id, events[0].step);
      NextKeepsInv(t, events[0].id, events[0].step);
      EntryGoesIff(t, events[0].id, events[0].step, key, lock);
      RemovedCons(t, events, lock);
      assert events[..0] == [] && Run(t, events[..0]) == Some(t);
      if HasEntry(next, key, lock) {
        EntryGoneIff(next, events[1..], key, lock);
      } else {
        GoneStaysGone(next, events[1..], key, lock);
      }
    }
  }

  /** An entry is left behind: nobody refers to its mutex. */
  ghost predicate IsLeftover(t: Table, key: LockKey, lock: nat) { HasEntry(t, key, lock) && forall id :: !Refers(t, id, lock) }

  /** The last user of a mutex leaves its entry behind exactly when it abandons its session, or saw others at the count. */
  lemma LeavesBehindIff(t: Table, id: SessionId, step: Step, key: LockKey, lock: nat)
    requires Inv(t) && Enabled(t, id, step) && HasEntry(t, key, lock) && Refers(t, id, lock)
    ensures IsLeftover(Next(t, id, step), key, lock) <==> IsSoleUser(t, id, lock) && (step.Abandon? || step.DropArc?)
  {
    var t' := Next(t, id, step);
    EntryGoesIff(t, id, step, key, lock);
    if IsSoleUser(t, id, lock) && (step.Abandon? || step.DropArc?) {
      forall u ensures !Refers(t', u, lock) { assert u != id ==> !Refers(t, u, lock); }
    } else if !IsSoleUser(t, id, lock) {
      var other :| other in t.sessions && Refers(t, other, lock) && other != id;
      assert Refers(t', other, lock);
    } else {
      assert Refers(t', id, lock) || step.RemoveIf?;
    }
  }

  lemma RunExtends(t: Table, events: seq<Event>, id: SessionId, step: Step)
    requires Run(t, events).Some? && Enabled(Run(t, events).value, id, step)
    ensures Run(t, events + [Event(id, step)]) == Some(Next(Run(t, events).value, id, step))
  {
    RunJoin(t, events, [Event(id, step)]);
    assert [Event(id, step)][1..] == [];
  }

  /** A run in which session `id` has gone through to the point where it dropped its guard. */
  lemma PassSection(events: seq<Event>, id: SessionId) returns (more: seq<Event>)
    requires Run(Empty, events).Some?
    requires var t := Run(Empty, events).value;
             SessionOf(t, id).Active? && SessionOf(t, id).phase.Waiting? && MutexFree(t, SessionOf(t, id).lock)
    ensures Run(Empty, more).Some?
    ensures var t := Run(Empty, events).value;
            Run(Empty, more).value == WithSession(t, id, SessionOf(t, id).(phase := Released))
  {
    RunExtends(Empty, events, id, Acquire);
    more := events + [Event(id, Acquire)];
    RunExtends(Empty, more, id, DropGuard);
    more := more + [Event(id, DropGuard)];
    var t := Run(Empty, events).value;
    assert t.sessions[id := SessionOf(t, id).(phase := Guarded)][id := SessionOf(t, id).(phase := Released)]
        == t.sessions[id := SessionOf(t, id).(phase := Released)];
  }

  /**
   * Two sessions that are both past their critical section when they look at the count see each
   * other: neither removes the entry, and it stays behind when both have gone. So the table is
   * not always empty once nobody uses it.
   */
  lemma LeftoverEntry() returns (events: seq<Event>)
    ensures Run(Empty, events).Some?
    ensures var t := Run(Empty, events).value;
            t.locks != map[] && forall id :: SessionOf(t, id).Idle?
  {
    var a, b, k := SessionId(0, false), SessionId(1, false), "k";
    var lock := map[k := 0];
    RunExtends(Empty, [], a, Create(k));
    RunExtends(Empty, [] + [Event(a, Create(k))], b, Create(k));
    events := [] + [Event(a, Create(k))] + [Event(b, Create(k))];
    var t := Run(Empty, events).value;
    assert t == Table(lock, map[a := Active(k, 0, Waiting), b := Active(k, 0, Waiting)], 1);
    events := PassSection(events, a);
    events := PassSection(events, b);
    t := Run(Empty, events).value;
    assert t == Table(lock, map[a := Active(k, 0, Released), b := Active(k, 0, Released)], 1);
    events := LeaveTogether(events, a, b, k);
  }

  lemma LeaveTogether(events: seq<Event>, a: SessionId, b: SessionId, k: LockKey) returns (more: seq<Event>)
    requires a != b && Run(Empty, events) ==
      Some(Table(map[k := 0], map[a := Active(k, 0, Released), b := Active(k, 0, Released)], 1))
    ensures Run(Empty, more) == Some(Table(map[k := 0], map[a := Idle, b := Idle], 1))
  {
    var t := Run(Empty, events).value;
    TwoUsersCount(t, k, a, b);
    RunExtends(Empty, events, a, CheckCount);
    more := events + [Event(a, CheckCount)];
    t := Run(Empty, more).value;
    assert t.sessions == map[a := Active(k, 0, Decided), b := Active(k, 0, Released)];
    TwoUsersCount(t, k, a, b);
    RunExtends(Empty, more, b, CheckCount);
    more := more + [Event(b, CheckCount)];
    RunExtends(Empty, more, a, DropArc);
    more := more + [Event(a, DropArc)];
    RunExtends(Empty, more, b, DropArc);
    more := more + [Event(b, DropArc)];
    assert Run(Empty, more).value.sessions == map[a := Idle, b := Idle];
  }
}
