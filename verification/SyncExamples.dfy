/** Concrete runs, each from a new room without a view filter, after which a patched client does not hold the state. */
module SyncExamples {
  import opened Json
  import opened JsonPatch
  import opened Pointer
  import opened Diff
  import opened Room
  import opened Actor
  import opened ActorRuns
  import opened ActorExamples
  import opened Sync
  import opened SyncRuns

  /** A new room that shares the list `[x]` and takes reservations. */
  predicate SharesList(c: RoomContext, x: Json) {
    IsOpen(c) && c.filter.None? && c.slot == Some(StateSlot(Arr([x]), Arr([x])))
  }

  /** The patch that appends an element appends it again to a list that has it. */
  lemma AppendedTwice(x: Json, y: Json)
    ensures ApplyPatch(Arr([x, y]), DiffPatch(Arr([x]), Arr([x, y]))) == Some(Arr([x, y, y]))
  {
    var a, b := [x], [x, y];
    DiffOfArrays(a, b);
    assert a[1..] == [] && b[1..] == [y] && [y][1..] == [];
    assert Walk(a, b, 0) == Walk([], [y], 1) == [TokenOp([Decimal(1)], Add(y))] + Append([], 2);
    var ops := [TokenOp([Decimal(1)], Add(y))];
    assert DiffOps(Arr(a), Arr(b)) == ops;
    ApplyRendered(Arr(b), ops);
    DecimalIsIndex(1);
    DecimalIsNotDash(1);
    assert ops[1..] == [];
    assert InsertAt(b, 1, y) == [x, y, y];
  }

  // ------------------------------------------------------------------
  // A join while a change is waiting
  // ------------------------------------------------------------------

  lemma EntersThenPatched(c: RoomContext, d1: RoomContext, d2: RoomContext, x: Json, y: Json)
    requires d1 == Handle(c, Enters("a", "s", "t")) && d2 == Handle(d1, EvPatch)
    requires c.slot == Some(StateSlot(Arr([x, y]), Arr([x]))) && c.filter.None? && c.clients == []
    requires "a" !in c.conns && "s" in c.seats && !c.seats["s"].consumed
    ensures JoinedHere(d2, "a") && FullStateFor(d2, d2.conns["a"]) == Some(Arr([x, y]))
    ensures Held(d2.conns["a"].outbox) == Some(Arr([x, y, y]))
  {
    EntersIsWelcome(c, "a", "s", "t");
    EnteringAlone(c, Entering(c, "a", "s"));
    WelcomedThenPatched(Entering(c, "a", "s"), d1, d2, x, y);
  }

  lemma EnteringAlone(c: RoomContext, d: RoomContext)
    requires "s" in c.seats && d == Entering(c, "a", "s") && c.clients == []
    ensures d.slot == c.slot && d.filter == c.filter && d.clients == ["a"] && "a" in d.conns && d.conns["a"].pending == []
  {
  }

  lemma WelcomedThenPatched(c: RoomContext, d1: RoomContext, d2: RoomContext, x: Json, y: Json)
    requires "a" in c.conns && c.conns["a"].pending == [] && d1 == Welcome(c, "a", Joined, "t") && d2 == BroadcastPatch(d1)
    requires c.slot == Some(StateSlot(Arr([x, y]), Arr([x]))) && c.filter.None? && c.clients == ["a"]
    ensures JoinedHere(d2, "a") && FullStateFor(d2, d2.conns["a"]) == Some(Arr([x, y]))
    ensures Held(d2.conns["a"].outbox) == Some(Arr([x, y, y]))
  {
    LateJoinerIff(c, "a", Joined, "t");
    AppendedTwice(x, y);
  }

  /** Somebody joins after the list has grown and before the growth is patched. */
  function JoinBeforePatch(x: Json, y: Json): seq<Event> {
    [Reserves("s")] + ([EvEditState(Arr([x, y]))] + ([Enters("a", "s", "t")] + ([EvPatch] + [])))
  }

  /** It then holds `[x, y, y]` while the state is `[x, y]`. */
  lemma LateJoinerDiverges(c: RoomContext, x: Json, y: Json)
    requires SharesList(c, x)
    ensures var d := Run(c, JoinBeforePatch(x, y));
            && JoinedHere(d, "a") && FullStateFor(d, d.conns["a"]) == Some(Arr([x, y]))
            && Held(d.conns["a"].outbox) == Some(Arr([x, y, y]))
  {
    var d1 := RunCons(c, Reserves("s"), [EvEditState(Arr([x, y]))] + ([Enters("a", "s", "t")] + ([EvPatch] + [])));
    ReserveStep(c, d1, "s");
    var d2 := RunCons(d1, EvEditState(Arr([x, y])), [Enters("a", "s", "t")] + ([EvPatch] + []));
    var d3 := RunCons(d2, Enters("a", "s", "t"), [EvPatch] + []);
    var d4 := RunCons(d3, EvPatch, []);
    EntersThenPatched(d2, d3, d4, x, y);
  }

  // ------------------------------------------------------------------
  // A new state under a joined client
  // ------------------------------------------------------------------

  lemma EntersInSync(c: RoomContext, d: RoomContext)
    requires d == Handle(c, Enters("a", "s", "t")) && SyncOk(c) && Settled(c) && c.clients == []
    requires "a" !in c.conns && "s" in c.seats && !c.seats["s"].consumed
    ensures SyncOk(d) && d.clients == ["a"] && JoinedHere(d, "a") && d.slot == c.slot && d.filter == c.filter
  {
    EntersIsWelcome(c, "a", "s", "t");
    EnteringInSync(c, Entering(c, "a", "s"));
    WelcomeKeepsSync(Entering(c, "a", "s"), "a", Joined, "t");
    EnterStep(c, d, "a", "s", "t");
  }

  lemma EnteringInSync(c: RoomContext, d: RoomContext)
    requires "s" in c.seats && d == Entering(c, "a", "s") && "a" !in c.conns && SyncOk(c) && Settled(c)
    ensures SyncOk(d) && Settled(d)
  {
    forall i | JoinedHere(d, i) ensures InSync(d, i) { assert JoinedHere(c, i) && InSync(c, i); }
  }

  lemma ResetThenPatched(c: RoomContext, d1: RoomContext, d2: RoomContext, x: Json, state: Json)
    requires d1 == Handle(c, EvCommand([SetState(state)])) && d2 == Handle(d1, EvPatch)
    requires SyncOk(c) && c.filter.None? && c.clients == ["a"] && JoinedHere(c, "a") && c.slot.value.snapshot == Arr([x])
    ensures JoinedHere(d2, "a") && FullStateFor(d2, d2.conns["a"]) == Some(state) && Held(d2.conns["a"].outbox) == Some(Arr([x]))
  {
    OneCall(c, SetState(state));
    ResetIsMissedIff(c, state, "a");
  }

  /** The whole state is replaced under a joined client. */
  function ResetBeforePatch(x: Json, y: Json): seq<Event> {
    [Reserves("s")] + ([Enters("a", "s", "t")] + ([EvCommand([SetState(Arr([x, y]))])] + ([EvPatch] + [])))
  }

  /** It keeps `[x]` while the state is `[x, y]`. */
  lemma ResetDiverges(c: RoomContext, x: Json, y: Json)
    requires SharesList(c, x)
    ensures var d := Run(c, ResetBeforePatch(x, y));
            && JoinedHere(d, "a") && FullStateFor(d, d.conns["a"]) == Some(Arr([x, y]))
            && Held(d.conns["a"].outbox) == Some(Arr([x]))
  {
    var reset := EvCommand([SetState(Arr([x, y]))]);
    var d1 := RunCons(c, Reserves("s"), [Enters("a", "s", "t")] + ([reset] + ([EvPatch] + [])));
    ReserveStep(c, d1, "s");
    var d2 := RunCons(d1, Enters("a", "s", "t"), [reset] + ([EvPatch] + []));
    EntersInSync(d1, d2);
    var d3 := RunCons(d2, reset, [EvPatch] + []);
    var d4 := RunCons(d3, EvPatch, []);
    ResetThenPatched(d2, d3, d4, x, Arr([x, y]));
  }
}
