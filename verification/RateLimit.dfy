/** The message rate check of `client.rs`: fixed windows that start at a message, one second apart or more. */
module RateLimit {
  import opened Json

  const U32: nat := 0x1_0000_0000
  const SECOND: int := 1_000_000_000

  datatype Rate = Rate(start: int, count: nat)

  /** The window a call at `now` falls into. */
  function Rolled(r: Rate, now: int): Rate { if now - r.start >= SECOND then Rate(now, 0) else r }

  /** The window after the call; its counter is a 32-bit number. */
  function Counted(r: Rate, now: int): Rate {
    Rolled(r, now).(count := (Rolled(r, now).count + 1) % U32)
  }

  predicate Accepts(r: Rate, now: int, max: nat) { Counted(r, now).count <= max }

  class Window {
    var rate: Rate

    constructor (now: int)
      ensures rate == Rate(now, 0)
    {
      rate := Rate(now, 0);
    }

    method CheckRate(maxPerSecond: Option<nat>, now: int) returns (ok: bool)
      modifies this
      ensures maxPerSecond.None? ==> ok && rate == old(rate)
      ensures maxPerSecond.Some? ==> rate == Counted(old(rate), now) && (ok <==> Accepts(old(rate), now, maxPerSecond.value))
    {
      if maxPerSecond.None? {
        return true;
      }
      if now - rate.start >= SECOND {
        rate := Rate(now, 0);
      }
      rate := rate.(count := (rate.count + 1) % U32);
      ok := rate.count <= maxPerSecond.value;
    }
  }

  // ------------------------------------------------------------------
  // Whole sequences of calls
  // ------------------------------------------------------------------

  predicate InOrder(start: int, times: seq<int>) {
    && (forall i :: 0 <= i < |times| ==> start <= times[i])
    && (forall i, j :: 0 <= i < j < |times| ==> times[i] <= times[j])
  }

  /** How many calls are accepted in the half-open second from `t` on. */
  function AcceptedIn(r: Rate, times: seq<int>, max: nat, t: int): nat
    decreases |times|
  {
    if times == [] then 0
    else
      (if Accepts(r, times[0], max) && t <= times[0] < t + SECOND then 1 else 0) +
      AcceptedIn(Counted(r, times[0]), times[1..], max, t)
  }

  predicate Wraps(r: Rate, now: int) { Rolled(r, now).count + 1 >= U32 }

  /** The counter never wraps: no window sees 2^32 calls. */
  predicate NeverWraps(r: Rate, times: seq<int>)
    decreases |times|
  {
    times == [] || (!Wraps(r, times[0]) && NeverWraps(Counted(r, times[0]), times[1..]))
  }

  /** Each time the counter wraps, the call itself and a whole limit more may pass. */
  function Allowance(r: Rate, times: seq<int>, max: nat): nat
    decreases |times|
  {
    if times == [] then 0
    else (if Wraps(r, times[0]) then max + 1 else 0) + Allowance(Counted(r, times[0]), times[1..], max)
  }

  /** What the current window can still accept. */
  function Remaining(r: Rate, max: nat): nat { if r.count >= max then 0 else max - r.count }

  /** Before the second starts, two whole windows are to come; after, what is left of this one and maybe the next. */
  function Bound(r: Rate, times: seq<int>, max: nat, t: int): nat {
    if r.start >= t then Remaining(r, max)
    else if times != [] && times[0] < t then 2 * max
    else Remaining(r, max) + max
  }

  /** The second touches the current window and at most one more, because windows start a second apart. */
  lemma {:induction false} SecondSpansTwoWindows(r: Rate, times: seq<int>, max: nat, t: int)
    requires InOrder(r.start, times) && r.count < U32
    ensures AcceptedIn(r, times, max, t) <= Bound(r, times, max, t) + Allowance(r, times, max)
    decreases |times|
  {
    if times != [] {
      var next := Counted(r, times[0]);
      assert InOrder(next.start, times[1..]);
      SecondSpansTwoWindows(next, times[1..], max, t);
      if times[0] >= t + SECOND {
        NothingLater(next, times[1..], max, t);
      }
    }
  }

  lemma {:induction false} NothingLater(r: Rate, times: seq<int>, max: nat, t: int)
    requires forall i :: 0 <= i < |times| ==> t + SECOND <= times[i]
    ensures AcceptedIn(r, times, max, t) == 0
    decreases |times|
  {
    if times != [] { NothingLater(Counted(r, times[0]), times[1..], max, t); }
  }

  lemma {:induction false} NoAllowance(r: Rate, times: seq<int>, max: nat)
    requires NeverWraps(r, times)
    ensures Allowance(r, times, max) == 0
    decreases |times|
  {
    if times != [] { NoAllowance(Counted(r, times[0]), times[1..], max); }
  }

  /**
   * On one connection at most twice the limit is accepted in any half-open second, and what wraps of
   * the counter let pass besides: nothing unless some window sees 2^32 calls.
   */
  lemma AtMostTwiceTheLimit(created: int, times: seq<int>, max: nat, t: int)
    requires InOrder(created, times)
    ensures AcceptedIn(Rate(created, 0), times, max, t) <= 2 * max + Allowance(Rate(created, 0), times, max)
    ensures NeverWraps(Rate(created, 0), times) ==> AcceptedIn(Rate(created, 0), times, max, t) <= 2 * max
  {
    SecondSpansTwoWindows(Rate(created, 0), times, max, t);
    if NeverWraps(Rate(created, 0), times) { NoAllowance(Rate(created, 0), times, max); }
  }

  function Burst(n: nat, at: int): seq<int> { seq(n, _ => at) }

  lemma OneMore(r: Rate, at: int)
    requires at - r.start < SECOND && r.count + 1 < U32
    ensures Counted(r, at) == Rate(r.start, r.count + 1)
  {
  }

  lemma {:induction false} BurstAccepted(r: Rate, n: nat, at: int, rest: seq<int>, max: nat, t: int)
    requires at - r.start < SECOND && r.count + n <= max < U32 && t <= at < t + SECOND
    ensures AcceptedIn(r, Burst(n, at) + rest, max, t) == n + AcceptedIn(r.(count := r.count + n), rest, max, t)
    decreases n
  {
    var times := Burst(n, at) + rest;
    if n == 0 {
      assert times == rest;
    } else {
      assert times[0] == at && times[1..] == Burst(n - 1, at) + rest;
      OneMore(r, at);
      BurstAccepted(Rate(r.start, r.count + 1), n - 1, at, rest, max, t);
    }
  }

  /** The bound is tight: a burst at the end of one window and one at the start of the next are both accepted in full. */
  lemma TwiceTheLimitIsReached(max: nat)
    requires 0 < max < U32
    ensures var times := Burst(max, SECOND - 1) + Burst(max, SECOND);
            AcceptedIn(Rate(0, 0), times, max, SECOND - 1) == 2 * max
  {
    var first := Rate(0, max);
    BurstAccepted(Rate(0, 0), max, SECOND - 1, Burst(max, SECOND), max, SECOND - 1);
    var times := Burst(max, SECOND);
    assert times[1..] == Burst(max - 1, SECOND);
    assert Counted(first, SECOND) == Rate(SECOND, 1);
    BurstAccepted(Rate(SECOND, 1), max - 1, SECOND, [], max, SECOND - 1);
    assert Burst(max - 1, SECOND) + [] == Burst(max - 1, SECOND);
  }

  lemma {:induction false} BurstRefused(r: Rate, n: nat, at: int, rest: seq<int>, max: nat, t: int)
    requires at - r.start < SECOND && max <= r.count && r.count + n < U32
    ensures AcceptedIn(r, Burst(n, at) + rest, max, t) == AcceptedIn(r.(count := r.count + n), rest, max, t)
    decreases n
  {
    var times := Burst(n, at) + rest;
    if n == 0 {
      assert times == rest;
    } else {
      assert times[0] == at && times[1..] == Burst(n - 1, at) + rest;
      OneMore(r, at);
      BurstRefused(Rate(r.start, r.count + 1), n - 1, at, rest, max, t);
    }
  }

  lemma WrapAccepts(max: nat)
    requires max < U32 - 1
    ensures AcceptedIn(Rate(0, U32 - 1), [0], max, 0) == 1
  {
    assert Counted(Rate(0, U32 - 1), 0) == Rate(0, 0);
    assert [0][1..] == [];
  }

  /** The call that wraps the counter is accepted although the window is exhausted. */
  lemma WrapLetsOnePass(max: nat)
    requires max < U32 - 1
    ensures AcceptedIn(Rate(0, 0), Burst(max, 0) + (Burst(U32 - 1 - max, 0) + [0]), max, 0) == max + 1
  {
    BurstAccepted(Rate(0, 0), max, 0, Burst(U32 - 1 - max, 0) + [0], max, 0);
    BurstRefused(Rate(0, max), U32 - 1 - max, 0, [0], max, 0);
    WrapAccepts(max);
  }

  /** The second touches a window whose counter wraps in it: one limit before, and one limit and the wrapping call after. */
  lemma WrapExceedsTheBound(max: nat)
    requires max < U32 - 1
    ensures AcceptedIn(Rate(0, 0), Burst(max, 0) + (Burst(U32 - 1 - max, 0) + ([0] + (Burst(max, 0) + []))), max, 0) == 2 * max + 1
  {
    var after := [0] + (Burst(max, 0) + []);
    BurstAccepted(Rate(0, 0), max, 0, Burst(U32 - 1 - max, 0) + after, max, 0);
    BurstRefused(Rate(0, max), U32 - 1 - max, 0, after, max, 0);
    assert Counted(Rate(0, U32 - 1), 0) == Rate(0, 0);
    assert after[1..] == Burst(max, 0) + [];
    BurstAccepted(Rate(0, 0), max, 0, [], max, 0);
  }
}
