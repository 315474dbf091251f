/** The two clock conversions of `utils.rs`, and what they do to a deadline across a restart. */
module Deadlines {

  const MS: int := 1_000_000

  /** Nanoseconds past the last whole millisecond. */
  function Fraction(t: int): int { t % MS }

  /** `instant_to_wallclock_ms`, at time `now`: all times in nanoseconds since the epoch. */
  function ToWallclock(deadline: int, now: int): int {
    if deadline <= now then now / MS else now / MS + (deadline - now) / MS
  }

  /** `wallclock_ms_to_instant`, at time `now`, with its saturating subtraction. */
  function FromWallclock(ms: int, now: int): int {
    now + (if ms > now / MS then ms - now / MS else 0) * MS
  }

  /** A deadline saved at `saved` and restored at `restored`. */
  function Carried(deadline: int, saved: int, restored: int): int {
    FromWallclock(ToWallclock(deadline, saved), restored)
  }

  lemma Split(t: int)
    ensures t == (t / MS) * MS + Fraction(t) && 0 <= Fraction(t) < MS
  {
  }

  /** The carried deadline, as whole milliseconds of the saved one plus the fraction of the restoring moment. */
  lemma CarriedIs(deadline: int, saved: int, restored: int)
    requires 0 <= saved <= restored && saved < deadline
    ensures var ms := saved / MS + (deadline - saved) / MS;
            && deadline == ms * MS + Fraction(saved) + Fraction(deadline - saved)
            && Carried(deadline, saved, restored) == if ms > restored / MS then ms * MS + Fraction(restored) else restored
  {
    Split(saved);
    Split(deadline - saved);
    Split(restored);
  }

  /** A deadline that has passed is due at once; any other moves by less than two milliseconds. */
  lemma CarriedBounds(deadline: int, saved: int, restored: int)
    requires 0 <= saved <= restored
    ensures deadline <= restored ==> restored <= Carried(deadline, saved, restored) < restored + MS
    ensures deadline > restored ==> deadline - 2 * MS < Carried(deadline, saved, restored) < deadline + MS
  {
    Split(saved);
    Split(restored);
    if saved < deadline {
      Split(deadline - saved);
      CarriedIs(deadline, saved, restored);
    }
  }

  /** A deadline comes back no earlier exactly when it has passed, or its fraction does not shrink. */
  lemma NotEarlierIff(deadline: int, saved: int, restored: int)
    requires 0 <= saved <= restored
    ensures Carried(deadline, saved, restored) >= deadline <==>
              deadline <= restored || Fraction(restored) >= Fraction(saved) + Fraction(deadline - saved)
  {
    Split(saved);
    Split(restored);
    if saved < deadline {
      Split(deadline - saved);
      CarriedIs(deadline, saved, restored);
    }
  }

  /** A deadline that comes back early. */
  lemma EarlyDeadline()
    ensures Carried(5_000_000, 1_600_000, 2_000_000) == 4_000_000
  {
  }

  /** On a clock of whole milliseconds a deadline comes back exactly, or as due now. */
  lemma WholeMillisecondsAreExact(deadline: int, saved: int, restored: int)
    requires 0 <= saved <= restored
    requires Fraction(deadline) == 0 && Fraction(saved) == 0 && Fraction(restored) == 0
    ensures Carried(deadline, saved, restored) == if deadline > restored then deadline else restored
  {
    Split(saved);
    Split(restored);
    Split(deadline);
    if saved < deadline {
      Split(deadline - saved);
      CarriedIs(deadline, saved, restored);
    }
  }

  /** Saved again right after the restart, a deadline reads as it did before, or as due now. */
  lemma SavedAgain(deadline: int, saved: int, restored: int)
    requires 0 <= saved <= restored
    ensures var ms := ToWallclock(deadline, saved);
            ToWallclock(Carried(deadline, saved, restored), restored) == if ms > restored / MS then ms else restored / MS
  {
    Split(saved);
    Split(restored);
  }
}
