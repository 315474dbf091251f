/**
 * When requests wait for one another for ever: exactly when the printed locks of some of them form
 * a ring, each holding as its criteria lock what the one before it wants as its unique lock.
 */
module Deadlock {
  import opened Json
  import opened LockKeys
  import opened LockTable
  import opened Matchmaker
  import opened Query
  import opened Handlers

  /** Each request of `ts` has as its unique lock the criteria lock of the next one, around the ring. */
  ghost predicate IsRing(tasks: map<nat, Task>, ts: seq<nat>) {
    && ts != [] && (forall i, j :: 0 <= i < j < |ts| ==> ts[i] != ts[j])
    && (forall i :: 0 <= i < |ts| ==> ts[i] in tasks && tasks[ts[i]].criteria.Some? && tasks[ts[i]].unique.Some?)
    && (forall i, j :: 0 <= i < j < |ts| ==> CritLock(tasks[ts[i]]) != CritLock(tasks[ts[j]]))
    && (forall i :: 0 <= i < |ts| ==> UniqLock(tasks[ts[i]]) == CritLock(tasks[ts[Next(i, |ts|)]]))
  }

  function CritLock(task: Task): LockKey { if task.criteria.Some? then CriteriaLock(task.criteria.value) else "" }

  function UniqLock(task: Task): LockKey { if task.unique.Some? then UniqueLock(task.unique.value) else "" }

  function Next(i: nat, n: nat): (j: nat)
    requires i < n
    ensures j < n
  {
    if i + 1 < n then i + 1 else 0
  }

  // ------------------------------------------------------------------
  // Who waits for whom
  // ------------------------------------------------------------------

  /** The lock that `t` waits for. */
  function Wanted(w: World, t: nat): LockKey
    requires t in w.tasks
  {
    KeyOf(w.table, if w.tasks[t].pc.CritWait? then Crit(t) else Uniq(t))
  }

  function KeyOf(table: Table, id: SessionId): LockKey {
    if SessionOf(table, id).Active? then SessionOf(table, id).key else ""
  }

  ghost predicate HoldsIn(w: World, id: SessionId, key: LockKey) { InSection(w.table, id) && KeyOf(w.table, id) == key }

  ghost predicate Holds(w: World, u: nat, key: LockKey) { HoldsIn(w, Crit(u), key) || HoldsIn(w, Uniq(u), key) }

  predicate IsWaiting(task: Task) { task.pc.CritWait? || task.pc.UniqWait? }

  /** `t` waits for a lock that `u` holds. */
  ghost predicate WaitsFor(w: World, t: nat, u: nat) {
    t in w.tasks && u in w.tasks && IsWaiting(w.tasks[t]) && Holds(w, u, Wanted(w, t))
  }

  ghost predicate WaitsWithin(w: World, t: nat, ring: set<nat>) { exists u :: u in ring && WaitsFor(w, t, u) }

  /** Requests that all wait for one another: none of them goes on before another one does. */
  ghost predicate HeldUp(w: World, ring: set<nat>) {
    ring != {} && forall t {:trigger WaitsWithin(w, t, ring)} :: t in ring ==> WaitsWithin(w, t, ring)
  }

  ghost predicate IsStill(w: World, t: nat) { forall choice :: !CanGo(w, t, choice) }

  /** What a request waits in is a waiting session, and its next step takes the guard. */
  lemma WaiterSession(table: Table, t: nat, task: Task, id: SessionId)
    requires TaskAgrees(table, t, task) && IsWaiting(task) && id == if task.pc.CritWait? then Crit(t) else Uniq(t)
    ensures LockStep(task, t) == Some((id, Acquire)) && SessionOf(table, id).Active? && SessionOf(table, id).phase.Waiting?
  {
  }

  lemma StillWaits(w: World, t: nat)
    requires SessionsAgree(w) && t in w.tasks && !w.tasks[t].pc.Done? && IsStill(w, t)
    ensures IsWaiting(w.tasks[t])
  {
    if !IsWaiting(w.tasks[t]) { var choice := RunnableTask(w, t); }
  }

  /** A request that cannot step waits for another one, which is unfinished too. */
  lemma StillWaitsFor(w: World, t: nat) returns (u: nat)
    requires SessionsAgree(w) && t in w.tasks && !w.tasks[t].pc.Done? && IsStill(w, t)
    ensures u in w.tasks && !w.tasks[u].pc.Done? && WaitsFor(w, t, u)
  {
    StillWaits(w, t);
    var id := if w.tasks[t].pc.CritWait? then Crit(t) else Uniq(t);
    assert TaskAgrees(w.table, t, w.tasks[t]);
    WaiterSession(w.table, t, w.tasks[t], id);
    assert !CanGo(w, t, Proceed);
    var owner := Holder(w, id);
    u := owner.task;
    assert owner == if owner.unique then Uniq(u) else Crit(u);
    assert TaskAgrees(w.table, u, w.tasks[u]);
    HolderUnfinished(w.table, u, w.tasks[u], owner);
  }

  lemma HolderUnfinished(table: Table, u: nat, task: Task, id: SessionId)
    requires TaskAgrees(table, u, task) && InSection(table, id) && (id == Uniq(u) || id == Crit(u))
    ensures !task.pc.Done?
  {
  }

  // ------------------------------------------------------------------
  // Requests that wait for one another have a ring of locks
  // ------------------------------------------------------------------

  /** Has got its criteria lock and waits for its unique one. */
  ghost predicate InTheMiddle(table: Table, t: nat, task: Task) {
    && task.pc.UniqWait? && task.criteria.Some? && task.unique.Some? && KeyOf(table, Uniq(t)) == UniqLock(task)
    && InSection(table, Crit(t)) && KeyOf(table, Crit(t)) == CritLock(task)
  }

  /** Whoever waits and holds a lock waits for its unique lock and holds its criteria lock. */
  lemma WaitingHolder(table: Table, u: nat, task: Task, id: SessionId)
    requires TaskAgrees(table, u, task) && IsWaiting(task) && InSection(table, id) && (id == Uniq(u) || id == Crit(u))
    ensures InTheMiddle(table, u, task) && id == Crit(u)
  {
  }

  /** Two requests do not hold the same criteria lock. */
  lemma CriteriaApart(table: Table, t: nat, task: Task, u: nat, other: Task)
    requires LockTable.Inv(table) && InTheMiddle(table, t, task) && InTheMiddle(table, u, other) && t != u
    ensures CritLock(task) != CritLock(other)
  {
    if CritLock(task) == CritLock(other) { MutualExclusion(table, Crit(t), Crit(u)); }
  }

  lemma HeldByMiddle(w: World, ring: set<nat>, t: nat) returns (u: nat)
    requires SessionsAgree(w) && HeldUp(w, ring) && t in ring
    ensures t in w.tasks && u in ring && IsMiddle(w, u)
    ensures Wanted(w, t) == CritLock(w.tasks[u])
    ensures IsMiddle(w, t) ==> UniqLock(w.tasks[t]) == CritLock(w.tasks[u])
  {
    assert WaitsWithin(w, t, ring);
    u :| u in ring && WaitsFor(w, t, u);
    assert WaitsWithin(w, u, ring);
    assert TaskAgrees(w.table, u, w.tasks[u]);
    WaitingHolder(w.table, u, w.tasks[u], if HoldsIn(w, Crit(u), Wanted(w, t)) then Crit(u) else Uniq(u));
  }

  /** Criteria and unique locks of some requests: the former all different, and each of the latter among them. */
  ghost predicate Closed(crit: map<nat, LockKey>, uniq: map<nat, LockKey>) {
    && uniq.Keys == crit.Keys
    && (forall t, u :: t in crit && u in crit && t != u ==> crit[t] != crit[u])
    && (forall t {:trigger FollowedIn(crit, uniq[t])} :: t in uniq ==> FollowedIn(crit, uniq[t]))
  }

  ghost predicate FollowedIn(crit: map<nat, LockKey>, key: LockKey) { exists u :: u in crit && crit[u] == key }

  /** Each one's unique lock is the next one's criteria lock. */
  ghost predicate IsChain(crit: map<nat, LockKey>, uniq: map<nat, LockKey>, path: seq<nat>) {
    && path != [] && (forall i :: 0 <= i < |path| ==> path[i] in crit && path[i] in uniq)
    && (forall i, j :: 0 <= i < j < |path| ==> path[i] != path[j])
    && (forall i, j :: 0 <= i && j == i + 1 && j < |path| ==> uniq[path[i]] == crit[path[j]])
  }

  ghost function Unvisited(all: set<nat>, path: seq<nat>): set<nat> { set t | t in all && t !in path }

  lemma VisitingShrinks(all: set<nat>, path: seq<nat>, u: nat)
    requires u in all && u !in path
    ensures Unvisited(all, path + [u]) < Unvisited(all, path)
  {
    assert u in Unvisited(all, path) && u !in Unvisited(all, path + [u]);
    assert forall t :: t in Unvisited(all, path + [u]) ==> t in Unvisited(all, path);
  }

  lemma ChainSuffix(crit: map<nat, LockKey>, uniq: map<nat, LockKey>, path: seq<nat>, k: nat)
    requires IsChain(crit, uniq, path) && k < |path|
    ensures IsChain(crit, uniq, path[k..])
  {
  }

  lemma ChainGrows(crit: map<nat, LockKey>, uniq: map<nat, LockKey>, path: seq<nat>, u: nat)
    requires IsChain(crit, uniq, path) && u in crit && u in uniq && u !in path && uniq[path[|path| - 1]] == crit[u]
    ensures IsChain(crit, uniq, path + [u])
  {
  }

  /** The requests of a chain are different, so that it comes back to one of them. */
  lemma {:induction false} ChainComesBack(crit: map<nat, LockKey>, uniq: map<nat, LockKey>, path: seq<nat>) returns (ts: seq<nat>)
    requires Closed(crit, uniq) && IsChain(crit, uniq, path)
    ensures IsChain(crit, uniq, ts) && uniq[ts[|ts| - 1]] == crit[ts[0]]
    decreases Unvisited(crit.Keys, path)
  {
    var last := uniq[path[|path| - 1]];
    assert FollowedIn(crit, uniq[path[|path| - 1]]);
    var u :| u in crit && crit[u] == last;
    if u in path {
      var k :| 0 <= k < |path| && path[k] == u;
      ts := path[k..];
      ChainSuffix(crit, uniq, path, k);
    } else {
      ChainGrows(crit, uniq, path, u);
      VisitingShrinks(crit.Keys, path, u);
      ts := ChainComesBack(crit, uniq, path + [u]);
    }
  }

  lemma NextOfChain(crit: map<nat, LockKey>, uniq: map<nat, LockKey>, ts: seq<nat>, i: nat)
    requires IsChain(crit, uniq, ts) && uniq[ts[|ts| - 1]] == crit[ts[0]] && i < |ts|
    ensures uniq[ts[i]] == crit[ts[Next(i, |ts|)]]
  {
  }

  /** Locks of `ts` are as in the maps, in which they go round. */
  lemma ChainIsRing(tasks: map<nat, Task>, crit: map<nat, LockKey>, uniq: map<nat, LockKey>, ts: seq<nat>)
    requires Closed(crit, uniq) && IsChain(crit, uniq, ts) && uniq[ts[|ts| - 1]] == crit[ts[0]]
    requires forall t :: t in crit ==> HasLocks(tasks, t, crit[t], uniq[t])
    ensures IsRing(tasks, ts)
  {
    forall i, j | 0 <= i < j < |ts| ensures crit[ts[i]] != crit[ts[j]] {}
    forall i | 0 <= i < |ts| ensures uniq[ts[i]] == crit[ts[Next(i, |ts|)]] { NextOfChain(crit, uniq, ts, i); }
    RoundIsRing(tasks, crit, uniq, ts);
  }

  lemma RoundIsRing(tasks: map<nat, Task>, crit: map<nat, LockKey>, uniq: map<nat, LockKey>, ts: seq<nat>)
    requires ts != [] && forall i, j :: 0 <= i < j < |ts| ==> ts[i] != ts[j]
    requires forall i :: 0 <= i < |ts| ==> ts[i] in crit && ts[i] in uniq && HasLocks(tasks, ts[i], crit[ts[i]], uniq[ts[i]])
    requires forall i, j :: 0 <= i < j < |ts| ==> crit[ts[i]] != crit[ts[j]]
    requires forall i :: 0 <= i < |ts| ==> uniq[ts[i]] == crit[ts[Next(i, |ts|)]]
    ensures IsRing(tasks, ts)
  {
  }

  ghost predicate HasLocks(tasks: map<nat, Task>, t: nat, key: LockKey, second: LockKey) {
    && t in tasks && tasks[t].criteria.Some? && tasks[t].unique.Some?
    && CritLock(tasks[t]) == key && UniqLock(tasks[t]) == second
  }

  ghost function Middle(w: World, ring: set<nat>): set<nat> {
    set t | t in ring && IsMiddle(w, t)
  }

  ghost predicate IsMiddle(w: World, t: nat) { t in w.tasks && InTheMiddle(w.table, t, w.tasks[t]) }

  ghost function CritLocks(tasks: map<nat, Task>, ts: set<nat>): map<nat, LockKey> {
    map t | t in ts && t in tasks :: CritLock(tasks[t])
  }

  ghost function UniqLocks(tasks: map<nat, Task>, ts: set<nat>): map<nat, LockKey> {
    map t | t in ts && t in tasks :: UniqLock(tasks[t])
  }

  lemma MiddleApart(w: World, t: nat, u: nat)
    requires LockTable.Inv(w.table) && IsMiddle(w, t) && IsMiddle(w, u) && t != u
    ensures CritLock(w.tasks[t]) != CritLock(w.tasks[u])
  {
    CriteriaApart(w.table, t, w.tasks[t], u, w.tasks[u]);
  }

  lemma MiddleFollowed(w: World, ring: set<nat>, t: nat)
    requires SessionsAgree(w) && HeldUp(w, ring) && t in ring && IsMiddle(w, t)
    ensures FollowedIn(CritLocks(w.tasks, Middle(w, ring)), UniqLock(w.tasks[t]))
  {
    var u := HeldByMiddle(w, ring, t);
    assert u in CritLocks(w.tasks, Middle(w, ring));
  }

  lemma MiddleIsClosed(w: World, ring: set<nat>)
    requires SessionsAgree(w) && HeldUp(w, ring)
    ensures Closed(CritLocks(w.tasks, Middle(w, ring)), UniqLocks(w.tasks, Middle(w, ring)))
  {
    var crit := CritLocks(w.tasks, Middle(w, ring));
    forall t, u | t in crit && u in crit && t != u ensures crit[t] != crit[u] { MiddleApart(w, t, u); }
    forall t | t in crit ensures FollowedIn(crit, UniqLock(w.tasks[t])) { MiddleFollowed(w, ring, t); }
  }

  lemma MiddleHasLocks(w: World, ring: set<nat>)
    ensures var crit, uniq := CritLocks(w.tasks, Middle(w, ring)), UniqLocks(w.tasks, Middle(w, ring));
            forall t :: t in crit ==> t in uniq && HasLocks(w.tasks, t, crit[t], uniq[t])
  {
    forall t | t in CritLocks(w.tasks, Middle(w, ring))
      ensures HasLocks(w.tasks, t, CritLock(w.tasks[t]), UniqLock(w.tasks[t]))
    {
      assert IsMiddle(w, t);
    }
  }

  lemma HeldUpHasRing(w: World, ring: set<nat>) returns (ts: seq<nat>)
    requires SessionsAgree(w) && HeldUp(w, ring)
    ensures IsRing(w.tasks, ts)
  {
    var crit, uniq := CritLocks(w.tasks, Middle(w, ring)), UniqLocks(w.tasks, Middle(w, ring));
    MiddleIsClosed(w, ring);
    var t :| t in ring;
    var u := HeldByMiddle(w, ring, t);
    assert IsChain(crit, uniq, [u]);
    ts := ChainComesBack(crit, uniq, [u]);
    MiddleHasLocks(w, ring);
    ChainIsRing(w.tasks, crit, uniq, ts);
  }

  /** While a request is unfinished and no locks form a ring, some request can step. */
  lemma NoDeadlock(w: World, t: nat) returns (u: nat, choice: Choice)
    requires Reachable(w) && t in w.tasks && !w.tasks[t].pc.Done?
    requires forall ts :: !IsRing(w.tasks, ts)
    ensures CanGo(w, u, choice)
  {
    ReachableInv(w);
    if exists v, c :: CanGo(w, v, c) {
      u, choice :| CanGo(w, u, choice);
    } else {
      var ring := set v | v in w.tasks && !w.tasks[v].pc.Done?;
      forall v | v in ring ensures WaitsWithin(w, v, ring) {
        var holder := StillWaitsFor(w, v);
        assert holder in ring;
      }
      assert t in ring;
      var ts := HeldUpHasRing(w, ring);
      assert false;
    }
  }

  // ------------------------------------------------------------------
  // Requests whose locks form a ring
  // ------------------------------------------------------------------

  /** The first `m` requests hold their criteria locks, numbered in order; `p` of them wait for their unique ones. */
  ghost predicate Entered(tasks: map<nat, Task>, ts: seq<nat>, w: World, m: nat, p: nat)
    requires IsRing(tasks, ts)
  {
    && p <= m <= |ts| && Numbered(w.table, m) && w.listings == map[]
    && (forall i :: 0 <= i < |ts| ==> PcAt(tasks, ts, w, i, m, p))
    && (forall i :: 0 <= i < |ts| ==> CritAt(tasks, ts, w.table, i, m))
    && (forall i :: 0 <= i < |ts| ==> UniqAt(tasks, ts, w.table, i, p))
  }

  ghost predicate Numbered(table: Table, m: nat) {
    && table.nextLock == m
    && forall id :: id in table.sessions && table.sessions[id].Active? ==> table.sessions[id].lock < m
  }

  ghost predicate PcAt(tasks: map<nat, Task>, ts: seq<nat>, w: World, i: nat, m: nat, p: nat)
    requires i < |ts| && ts[i] in tasks
  {
    && ts[i] in w.tasks
    && w.tasks[ts[i]] == tasks[ts[i]].(pc := if i < p then UniqWait else if i < m then UniqCreate else FindMatch)
  }

  ghost predicate CritAt(tasks: map<nat, Task>, ts: seq<nat>, table: Table, i: nat, m: nat)
    requires i < |ts| && ts[i] in tasks
  {
    var key := CritLock(tasks[ts[i]]);
    if i < m then key in table.locks && table.locks[key] == i && SessionOf(table, Crit(ts[i])) == Active(key, i, Guarded)
    else key !in table.locks && SessionOf(table, Crit(ts[i])).Idle?
  }

  ghost predicate UniqAt(tasks: map<nat, Task>, ts: seq<nat>, table: Table, i: nat, p: nat)
    requires i < |ts| && ts[i] in tasks
  {
    SessionOf(table, Uniq(ts[i])) == if i < p then Active(UniqLock(tasks[ts[i]]), Next(i, |ts|), Waiting) else Idle
  }

  // ------------------------------------------------------------------
  // One request takes its criteria lock
  // ------------------------------------------------------------------

  /** A query that finds nothing. */
  lemma FindsNothing(w: World, t: nat) returns (w': World)
    requires t in w.tasks && (w.tasks[t].pc.FindMatch? || w.tasks[t].pc.Recheck?) && w.listings == map[]
    ensures Leads(w, w') && w'.table == w.table && w'.listings == map[]
    ensures w'.tasks == w.tasks[t := w.tasks[t].(pc := if w.tasks[t].pc.FindMatch? then CritCreate else EnterCreate(w.tasks[t]))]
  {
    w' := GoStep(w, t, Lookup(None));
    LeadsStep(w, t, Lookup(None));
  }

  /** `create_lock` and `lock().await` of the criteria. */
  lemma TakesLock(w: World, t: nat, m: nat) returns (w': World)
    requires t in w.tasks && w.tasks[t].pc.CritCreate? && w.tasks[t].criteria.Some?
    requires CritLock(w.tasks[t]) !in w.table.locks && SessionOf(w.table, Crit(t)).Idle? && w.table.nextLock == m
    requires forall id :: id in w.table.sessions && w.table.sessions[id].Active? ==> w.table.sessions[id].lock < m
    ensures Leads(w, w') && w'.listings == w.listings && w'.tasks == w.tasks[t := w.tasks[t].(pc := Recheck)]
    ensures var key := CritLock(w.tasks[t]);
            w'.table == Table(w.table.locks[key := m], w.table.sessions[Crit(t) := Active(key, m, Guarded)], m + 1)
  {
    var key := CritLock(w.tasks[t]);
    var w1 := TakesCreate(w, t, m);
    w' := TakesGuard(w1, t, m);
    LeadsOn(w, w1, w');
    assert w'.table.sessions == w.table.sessions[Crit(t) := Active(key, m, Guarded)];
  }

  /** From the first query, which finds nothing, to the point before `create_lock` on the unique key. */
  lemma TakesCriteriaLock(w: World, t: nat, m: nat) returns (w': World)
    requires t in w.tasks && w.tasks[t].pc.FindMatch? && w.tasks[t].criteria.Some? && w.tasks[t].unique.Some? && w.listings == map[]
    requires CritLock(w.tasks[t]) !in w.table.locks && SessionOf(w.table, Crit(t)).Idle? && w.table.nextLock == m
    requires forall id :: id in w.table.sessions && w.table.sessions[id].Active? ==> w.table.sessions[id].lock < m
    ensures Leads(w, w') && w'.listings == w.listings && w'.tasks == w.tasks[t := w.tasks[t].(pc := UniqCreate)]
    ensures var key := CritLock(w.tasks[t]);
            w'.table == Table(w.table.locks[key := m], w.table.sessions[Crit(t) := Active(key, m, Guarded)], m + 1)
  {
    var w1 := FindsNothing(w, t);
    var w2 := TakesLock(w1, t, m);
    LeadsOn(w, w1, w2);
    w' := FindsNothing(w2, t);
    LeadsOn(w, w2, w');
  }

  lemma TakesCreate(w: World, t: nat, m: nat) returns (w': World)
    requires t in w.tasks && w.tasks[t].pc.CritCreate? && w.tasks[t].criteria.Some?
    requires CritLock(w.tasks[t]) !in w.table.locks && SessionOf(w.table, Crit(t)).Idle? && w.table.nextLock == m
    ensures Leads(w, w') && w'.listings == w.listings && w'.tasks == w.tasks[t := w.tasks[t].(pc := CritWait)]
    ensures var key := CritLock(w.tasks[t]);
            w'.table == Table(w.table.locks[key := m], w.table.sessions[Crit(t) := Active(key, m, Waiting)], m + 1)
  {
    w' := GoStep(w, t, Proceed);
    LeadsStep(w, t, Proceed);
  }

  lemma TakesGuard(w: World, t: nat, m: nat) returns (w': World)
    requires t in w.tasks && w.tasks[t].pc.CritWait? && Crit(t) in w.table.sessions
    requires w.table.sessions[Crit(t)].Active? && w.table.sessions[Crit(t)].lock == m && w.table.sessions[Crit(t)].phase.Waiting?
    requires forall id :: id in w.table.sessions && w.table.sessions[id].Active? && id != Crit(t) ==> w.table.sessions[id].lock < m
    ensures Leads(w, w') && w'.listings == w.listings && w'.tasks == w.tasks[t := w.tasks[t].(pc := Recheck)]
    ensures w'.table == w.table.(sessions := w.table.sessions[Crit(t) := w.table.sessions[Crit(t)].(phase := Guarded)])
  {
    assert MutexFree(w.table, m);
    w' := GoStep(w, t, Proceed);
    LeadsStep(w, t, Proceed);
  }

  lemma OneMoreEntered(tasks: map<nat, Task>, ts: seq<nat>, w: World, w': World, m: nat)
    requires IsRing(tasks, ts) && Entered(tasks, ts, w, m, 0) && m < |ts| && w'.listings == w.listings
    requires w'.tasks == w.tasks[ts[m] := tasks[ts[m]].(pc := UniqCreate)]
    requires var key := CritLock(tasks[ts[m]]);
             w'.table == Table(w.table.locks[key := m], w.table.sessions[Crit(ts[m]) := Active(key, m, Guarded)], m + 1)
    ensures Entered(tasks, ts, w', m + 1, 0)
  {
    var after := m + 1;
    assert Numbered(w'.table, after);
    forall i | 0 <= i < |ts| ensures PcAt(tasks, ts, w', i, after, 0) {
      assert PcAt(tasks, ts, w, i, m, 0);
    }
    forall i | 0 <= i < |ts| ensures CritAt(tasks, ts, w'.table, i, after) {
      assert CritAt(tasks, ts, w.table, i, m);
    }
    forall i | 0 <= i < |ts| ensures UniqAt(tasks, ts, w'.table, i, 0) {
      assert UniqAt(tasks, ts, w.table, i, 0);
    }
  }

  lemma {:induction false} AllEnter(tasks: map<nat, Task>, ts: seq<nat>, w: World, m: nat) returns (w': World)
    requires IsRing(tasks, ts) && Entered(tasks, ts, w, m, 0)
    ensures Leads(w, w') && Entered(tasks, ts, w', |ts|, 0)
    decreases |ts| - m
  {
    if m == |ts| {
      w' := w;
      assert Matchmaker.Run(w, []) == Some(w);
    } else {
      assert PcAt(tasks, ts, w, m, m, 0) && CritAt(tasks, ts, w.table, m, m);
      var mid := TakesCriteriaLock(w, ts[m], m);
      OneMoreEntered(tasks, ts, w, mid, m);
      w' := AllEnter(tasks, ts, mid, m + 1);
      LeadsOn(w, mid, w');
    }
  }

  // ------------------------------------------------------------------
  // One request asks for its unique lock
  // ------------------------------------------------------------------

  lemma AsksUniqueLock(w: World, t: nat, lock: nat) returns (w': World)
    requires t in w.tasks && w.tasks[t].pc.UniqCreate? && w.tasks[t].unique.Some? && SessionOf(w.table, Uniq(t)).Idle?
    requires UniqLock(w.tasks[t]) in w.table.locks && w.table.locks[UniqLock(w.tasks[t])] == lock
    ensures Leads(w, w') && w'.listings == w.listings && w'.tasks == w.tasks[t := w.tasks[t].(pc := UniqWait)]
    ensures w'.table == w.table.(sessions := w.table.sessions[Uniq(t) := Active(UniqLock(w.tasks[t]), lock, Waiting)])
  {
    w' := GoStep(w, t, Proceed);
    LeadsStep(w, t, Proceed);
  }

  lemma AskedSessions(table: Table, table': Table, u: nat, s: Session, t: nat)
    requires table' == table.(sessions := table.sessions[Uniq(u) := s])
    ensures SessionOf(table', Crit(t)) == SessionOf(table, Crit(t))
    ensures SessionOf(table', Uniq(t)) == if t == u then s else SessionOf(table, Uniq(t))
  {
  }

  lemma OneMoreAsked(tasks: map<nat, Task>, ts: seq<nat>, w: World, w': World, p: nat)
    requires IsRing(tasks, ts) && Entered(tasks, ts, w, |ts|, p) && p < |ts| && w'.listings == w.listings
    requires w'.tasks == w.tasks[ts[p] := tasks[ts[p]].(pc := UniqWait)]
    requires w'.table == w.table.(sessions := w.table.sessions[Uniq(ts[p]) := Active(UniqLock(tasks[ts[p]]), Next(p, |ts|), Waiting)])
    ensures Entered(tasks, ts, w', |ts|, p + 1)
  {
    var after, s := p + 1, Active(UniqLock(tasks[ts[p]]), Next(p, |ts|), Waiting);
    assert Numbered(w'.table, |ts|);
    forall i | 0 <= i < |ts| ensures PcAt(tasks, ts, w', i, |ts|, after) {
      assert PcAt(tasks, ts, w, i, |ts|, p);
    }
    forall i | 0 <= i < |ts| ensures CritAt(tasks, ts, w'.table, i, |ts|) {
      assert CritAt(tasks, ts, w.table, i, |ts|);
      AskedSessions(w.table, w'.table, ts[p], s, ts[i]);
    }
    forall i | 0 <= i < |ts| ensures UniqAt(tasks, ts, w'.table, i, after) {
      assert UniqAt(tasks, ts, w.table, i, p);
      AskedSessions(w.table, w'.table, ts[p], s, ts[i]);
    }
  }

  lemma {:induction false} AllAsk(tasks: map<nat, Task>, ts: seq<nat>, w: World, p: nat) returns (w': World)
    requires IsRing(tasks, ts) && Entered(tasks, ts, w, |ts|, p)
    ensures Leads(w, w') && Entered(tasks, ts, w', |ts|, |ts|)
    decreases |ts| - p
  {
    if p == |ts| {
      w' := w;
      assert Matchmaker.Run(w, []) == Some(w);
    } else {
      assert PcAt(tasks, ts, w, p, |ts|, p) && UniqAt(tasks, ts, w.table, p, p);
      assert CritAt(tasks, ts, w.table, Next(p, |ts|), |ts|);
      var mid := AsksUniqueLock(w, ts[p], Next(p, |ts|));
      OneMoreAsked(tasks, ts, w, mid, p);
      w' := AllAsk(tasks, ts, mid, p + 1);
      LeadsOn(w, mid, w');
    }
  }

  // ------------------------------------------------------------------
  // The deadlock
  // ------------------------------------------------------------------

  lemma AskerWaits(tasks: map<nat, Task>, ts: seq<nat>, w: World, i: nat)
    requires IsRing(tasks, ts) && Entered(tasks, ts, w, |ts|, |ts|) && i < |ts|
    ensures WaitsFor(w, ts[i], ts[Next(i, |ts|)]) && !CanGo(w, ts[i], Proceed)
  {
    var j := Next(i, |ts|);
    assert PcAt(tasks, ts, w, i, |ts|, |ts|) && UniqAt(tasks, ts, w.table, i, |ts|);
    assert PcAt(tasks, ts, w, j, |ts|, |ts|) && CritAt(tasks, ts, w.table, j, |ts|);
    assert HoldsIn(w, Crit(ts[j]), UniqLock(tasks[ts[i]]));
    assert Refers(w.table, Crit(ts[j]), j);
    assert !Enabled(w.table, Uniq(ts[i]), Acquire);
  }

  /** Before the first step. */
  lemma StartEntered(start: World, ts: seq<nat>)
    requires Initial(start) && IsRing(start.tasks, ts)
    ensures Entered(start.tasks, ts, start, 0, 0)
  {
    forall i | 0 <= i < |ts| ensures PcAt(start.tasks, ts, start, i, 0, 0) {}
    forall i | 0 <= i < |ts| ensures CritAt(start.tasks, ts, start.table, i, 0) {}
    forall i | 0 <= i < |ts| ensures UniqAt(start.tasks, ts, start.table, i, 0) {}
  }

  /** When all have asked. */
  lemma AskersHeldUp(tasks: map<nat, Task>, ts: seq<nat>, w: World)
    requires IsRing(tasks, ts) && Entered(tasks, ts, w, |ts|, |ts|)
    ensures HeldUp(w, set t | t in ts)
  {
    var ring := set t | t in ts;
    assert ts[0] in ring;
    forall t | t in ring ensures WaitsWithin(w, t, ring) {
      var i :| 0 <= i < |ts| && ts[i] == t;
      AskerWaits(tasks, ts, w, i);
      assert ts[Next(i, |ts|)] in ring;
    }
  }

  /** From any start with requests whose locks form a ring, a run leads to all of them waiting for one another. */
  lemma RingDeadlocks(start: World, ts: seq<nat>) returns (w: World)
    requires Initial(start) && IsRing(start.tasks, ts)
    ensures Leads(start, w) && HeldUp(w, set t | t in ts)
  {
    StartEntered(start, ts);
    var mid := AllEnter(start.tasks, ts, start, 0);
    w := AllAsk(start.tasks, ts, mid, 0);
    LeadsOn(start, mid, w);
    AskersHeldUp(start.tasks, ts, w);
  }

  // ------------------------------------------------------------------
  // Exactly the rings
  // ------------------------------------------------------------------

  lemma HappenKeepsRequests(w: World, e: Matchmaker.Event)
    requires Possible(w, e)
    ensures SameRequests(w.tasks, Happen(w, e).tasks)
  {
    if e.Go? { GoSteps(w, e.task, e.choice); }
  }

  lemma SameRequestsOn(a: map<nat, Task>, b: map<nat, Task>, c: map<nat, Task>)
    requires SameRequests(a, b) && SameRequests(b, c)
    ensures SameRequests(a, c)
  {
    forall t | t in a ensures SameRequest(a[t], c[t]) { assert SameRequest(a[t], b[t]) && SameRequest(b[t], c[t]); }
  }

  lemma {:induction false} RunKeepsRequests(w: World, events: seq<Matchmaker.Event>)
    requires Matchmaker.Run(w, events).Some?
    ensures SameRequests(w.tasks, Matchmaker.Run(w, events).value.tasks)
    decreases |events|
  {
    if events != [] {
      var next := Happen(w, events[0]);
      HappenKeepsRequests(w, events[0]);
      RunKeepsRequests(next, events[1..]);
      SameRequestsOn(w.tasks, next.tasks, Matchmaker.Run(w, events).value.tasks);
    }
  }

  lemma SameRings(tasks: map<nat, Task>, tasks': map<nat, Task>, ts: seq<nat>)
    requires SameRequests(tasks, tasks') && IsRing(tasks', ts)
    ensures IsRing(tasks, ts)
  {
  }

  ghost predicate MayDeadlock(start: World) { exists w, ring :: Leads(start, w) && HeldUp(w, ring) }

  ghost predicate HasRing(tasks: map<nat, Task>) { exists ts :: IsRing(tasks, ts) }

  /** Some of the requests can come to wait for one another exactly when the locks of some form a ring. */
  lemma DeadlockIff(start: World)
    requires Initial(start)
    ensures MayDeadlock(start) <==> HasRing(start.tasks)
  {
    if MayDeadlock(start) {
      var w, ring :| Leads(start, w) && HeldUp(w, ring);
      var events :| Matchmaker.Run(start, events) == Some(w);
      assert Reachable(w);
      ReachableInv(w);
      var ts := HeldUpHasRing(w, ring);
      RunKeepsRequests(start, events);
      SameRings(start.tasks, w.tasks, ts);
    } else if HasRing(start.tasks) {
      var ts :| IsRing(start.tasks, ts);
      var w := RingDeadlocks(start, ts);
      assert false;
    }
  }

  /** There is no ring unless the criteria lock of some request is the unique lock of some request. */
  lemma RingsNeedSharedLock(tasks: map<nat, Task>) returns (t: nat, u: nat)
    requires HasRing(tasks)
    ensures t in tasks && u in tasks && tasks[t].criteria.Some? && tasks[u].unique.Some?
    ensures CritLock(tasks[t]) == UniqLock(tasks[u])
  {
    var ts :| IsRing(tasks, ts);
    t, u := ts[Next(0, |ts|)], ts[0];
  }

  /** What both conditions print, without the fields that all requests of a kind share. */
  lemma OnePrinted(shared: seq<Condition>, field: string, options: Options, strict: bool, show: Json -> string)
    requires forall c :: c in shared ==> c.field in {"name", "locked", "private"}
    requires field in options && field !in {"name", "locked", "private"}
    ensures LockKeys.Entries(Print(shared + FieldConditions([field], options, strict), show)) == [field + "=" + show(options[field])]
    decreases |shared|
  {
    var one := FieldConditions([field], options, strict);
    assert [field][1..] == [] && FieldConditions([], options, strict) == [];
    assert one == [EqualTo(field, options[field])] + FieldConditions([field][1..], options, strict);
    if shared == [] {
      assert shared + one == one && one[1..] == [];
      assert Print(one, show) == [Printed(field, show(options[field]))] + [];
      assert Print(one, show)[1..] == [];
      assert LockKeys.Entries(Print(one, show)) == [field + "=" + show(options[field])] + LockKeys.Entries([]);
    } else {
      assert (shared + one)[1..] == shared[1..] + one;
      OnePrinted(shared[1..], field, options, strict, show);
      var printed := Print(shared + one, show);
      assert printed[0].field == shared[0].field && printed[1..] == Print(shared[1..] + one, show);
      assert LockKeys.Entries(printed) == [] + LockKeys.Entries(printed[1..]);
    }
  }

  /** Filters by a field `unique:…`, is unique by that field, and holds the same value for both. */
  ghost predicate MeetsItself(reg: Registry, task: Task, field: string) {
    && Asks(reg, task) && task.criteria.Some? && field !in {"name", "locked", "private"}
    && reg.handlers[task.room].uniqueBy == [field] && reg.handlers[task.room].filterBy == ["unique:" + field]
    && field in task.made && "unique:" + field in task.options && task.options["unique:" + field] == task.made[field]
  }

  lemma MeetsItselfLocks(reg: Registry, task: Task, field: string)
    requires MeetsItself(reg, task, field)
    ensures task.unique.Some? && CritLock(task) == UniqLock(task)
  {
    var h, show := reg.handlers[task.room], reg.show;
    assert ("unique:" + field)[0] == 'u' && "name"[0] == 'n' && "locked"[0] == 'l' && "private"[0] == 'p';
    OnePrinted([EqualTo("name", Str(task.room))], field, task.made, false, show);
    OnePrinted([EqualTo("name", Str(task.room)), EqualTo("locked", Bool(false)), EqualTo("private", Bool(false))],
               "unique:" + field, task.options, h.strict, show);
    LocksCollide(task.room, field, show(task.made[field]), task.criteria.value.conditions, task.unique.value.conditions);
  }

  /** A single request can wait for itself. */
  lemma SelfDeadlock(start: World, t: nat, field: string)
    requires Initial(start) && t in start.tasks && MeetsItself(start.registry, start.tasks[t], field)
    ensures MayDeadlock(start)
  {
    MeetsItselfLocks(start.registry, start.tasks[t], field);
    assert IsRing(start.tasks, [t]);
    DeadlockIff(start);
  }
}
