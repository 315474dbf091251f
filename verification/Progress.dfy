/** Requests end: no run of their steps is endless, and where none can step, all are done. */
module Progress {
  import opened Json
  import opened Matchmaker
  import opened Deadlock

  // ------------------------------------------------------------------
  // Where no request can step
  // ------------------------------------------------------------------

  /** Without a ring of locks, a world in which nobody can step has only requests that are done. */
  lemma StandstillIsDone(w: World, t: nat)
    requires Reachable(w) && t in w.tasks && !HasRing(w.tasks) && forall u, choice :: !CanGo(w, u, choice)
    ensures w.tasks[t].pc.Done?
  {
    if !w.tasks[t].pc.Done? { var u, choice := NoDeadlock(w, t); }
  }

  // ------------------------------------------------------------------
  // Sums over all requests
  // ------------------------------------------------------------------

  function Sum(f: nat -> nat, ts: seq<nat>): nat { if ts == [] then 0 else f(ts[0]) + Sum(f, ts[1..]) }

  lemma {:induction false} SumSame(f: nat -> nat, g: nat -> nat, ts: seq<nat>)
    requires forall t :: t in ts ==> g(t) == f(t)
    ensures Sum(g, ts) == Sum(f, ts)
  {
    if ts != [] { SumSame(f, g, ts[1..]); }
  }

  lemma {:induction false} SumMoves(f: nat -> nat, g: nat -> nat, ts: seq<nat>, t: nat)
    requires Distinct(ts) && t in ts && forall u :: u in ts && u != t ==> g(u) == f(u)
    ensures Sum(g, ts) - Sum(f, ts) == g(t) - f(t)
  {
    if ts[0] == t { SumSame(f, g, ts[1..]); } else { SumMoves(f, g, ts[1..], t); }
  }

  // ------------------------------------------------------------------
  // The measure
  // ------------------------------------------------------------------

  function AttemptsOf(w: World): nat -> nat { t => if t in w.tasks then w.tasks[t].attempts else 0 }

  function StepsOf(w: World): nat -> nat { t => if t in w.tasks then StepsLeft(w.tasks[t].pc) else 0 }

  function ListingsOf(w: World): nat -> nat { t => if t in w.tasks then ListingsLeft(w.tasks[t].pc) else 0 }

  ghost predicate Lists(ts: seq<nat>, w: World) { Distinct(ts) && forall t :: t in ts <==> t in w.tasks }

  /** A step brings all requests together closer to their end. */
  lemma StepLowers(w: World, t: nat, choice: Choice, ts: seq<nat>)
    requires Reachable(w) && CanGo(w, t, choice) && Lists(ts, w)
    ensures var w' := GoStep(w, t, choice);
            && Lists(ts, w')
            && (|| Sum(AttemptsOf(w'), ts) < Sum(AttemptsOf(w), ts)
                || (Sum(AttemptsOf(w'), ts) == Sum(AttemptsOf(w), ts) && Sum(StepsOf(w'), ts) < Sum(StepsOf(w), ts))
                || (Sum(AttemptsOf(w'), ts) == Sum(AttemptsOf(w), ts) && Sum(StepsOf(w'), ts) == Sum(StepsOf(w), ts)
                    && Sum(ListingsOf(w'), ts) < Sum(ListingsOf(w), ts)))
  {
    var w' := GoStep(w, t, choice);
    StepsEnd(w, t, choice);
    GoSteps(w, t, choice);
    SumMoves(AttemptsOf(w), AttemptsOf(w'), ts, t);
    SumMoves(StepsOf(w), StepsOf(w'), ts, t);
    SumMoves(ListingsOf(w), ListingsOf(w'), ts, t);
  }

  // ------------------------------------------------------------------
  // Endless runs
  // ------------------------------------------------------------------

  ghost predicate StepsAt(ws: nat -> World, who: nat -> nat, choices: nat -> Choice, k: nat) {
    CanGo(ws(k), who(k), choices(k)) && ws(k + 1) == GoStep(ws(k), who(k), choices(k))
  }

  /** Infinitely many steps of requests, one after the other. */
  ghost predicate IsEndless(ws: nat -> World, who: nat -> nat, choices: nat -> Choice) {
    Reachable(ws(0)) && forall k: nat :: StepsAt(ws, who, choices, k)
  }

  lemma StepReaches(w: World, t: nat, choice: Choice)
    requires Reachable(w) && CanGo(w, t, choice)
    ensures Reachable(GoStep(w, t, choice))
  {
    var start, events :| Initial(start) && Matchmaker.Run(start, events) == Some(w);
    assert Leads(start, w);
    LeadsStep(w, t, choice);
    LeadsOn(start, w, GoStep(w, t, choice));
    var more :| Matchmaker.Run(start, more) == Some(GoStep(w, t, choice));
  }

  lemma {:induction false} EndlessIsAbsurd(ws: nat -> World, who: nat -> nat, choices: nat -> Choice, ts: seq<nat>, k: nat)
    requires IsEndless(ws, who, choices) && Reachable(ws(k)) && Lists(ts, ws(k))
    ensures false
    decreases Sum(AttemptsOf(ws(k)), ts), Sum(StepsOf(ws(k)), ts), Sum(ListingsOf(ws(k)), ts)
  {
    assert StepsAt(ws, who, choices, k);
    StepLowers(ws(k), who(k), choices(k), ts);
    StepReaches(ws(k), who(k), choices(k));
    EndlessIsAbsurd(ws, who, choices, ts, k + 1);
  }

  lemma {:induction false} ListOf(keys: set<nat>) returns (ts: seq<nat>)
    ensures Distinct(ts) && forall t :: t in ts <==> t in keys
  {
    ts := [];
    if keys != {} {
      var t :| t in keys;
      var rest := ListOf(keys - {t});
      ts := [t] + rest;
    }
  }

  /** Main result: every run of requests' steps ends, whatever is chosen and whoever steps. */
  lemma RunsEnd(ws: nat -> World, who: nat -> nat, choices: nat -> Choice)
    ensures !IsEndless(ws, who, choices)
  {
    if IsEndless(ws, who, choices) {
      var ts := ListOf(ws(0).tasks.Keys);
      EndlessIsAbsurd(ws, who, choices, ts, 0);
    }
  }
}
