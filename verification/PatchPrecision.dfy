/** Where the operations of a patch lie: within what has changed; and which arrays get a shortest one. */
module PatchPrecision {
  import opened Json
  import opened Pointer
  import opened JsonPatch
  import opened Diff

  /** The positions at which two arrays hold equal values. */
  ghost function EqualPositions(a: seq<Json>, b: seq<Json>): set<nat> { set i: nat | i < |a| && i < |b| && a[i] == b[i] }

  ghost function Shifted(s: set<nat>): set<nat> { set i | i in s :: i + 1 }

  lemma {:induction false} ShiftedSize(s: set<nat>)
    ensures |Shifted(s)| == |s|
    decreases |s|
  {
    if s != {} {
      var i :| i in s;
      ShiftedSize(s - {i});
      forall j | j in Shifted(s) ensures j in Shifted(s - {i}) + {i + 1} { assert j == i + 1 || j - 1 in s - {i}; }
      assert Shifted(s) == Shifted(s - {i}) + {i + 1};
    }
  }

  lemma {:induction false} AlignedCounts(a: seq<Json>, b: seq<Json>)
    ensures Aligned(a, b) == |EqualPositions(a, b)|
    decreases |a|
  {
    if a != [] && b != [] {
      var later := Shifted(EqualPositions(a[1..], b[1..]));
      AlignedCounts(a[1..], b[1..]);
      ShiftedSize(EqualPositions(a[1..], b[1..]));
      EqualPositionsCons(a, b);
      if a[0] == b[0] { assert EqualPositions(a, b) == {0} + later && 0 !in later; }
    } else {
      assert EqualPositions(a, b) == {};
    }
  }

  lemma EqualPositionsCons(a: seq<Json>, b: seq<Json>)
    requires a != [] && b != []
    ensures EqualPositions(a, b) == (if a[0] == b[0] then {0} else {}) + Shifted(EqualPositions(a[1..], b[1..]))
  {
    forall i: nat | i in EqualPositions(a, b) && i > 0 ensures i in Shifted(EqualPositions(a[1..], b[1..])) {
      assert i - 1 in EqualPositions(a[1..], b[1..]);
    }
  }

  /** Updated in place: of the same length, and short or at least half as it was. */
  ghost predicate IsUpdate(a: seq<Json>, b: seq<Json>) { |a| == |b| && (2 * |EqualPositions(a, b)| >= |a| || |a| <= 8) }

  lemma {:induction false} UpdatesCompared(a: seq<Json>, b: seq<Json>)
    ensures IsUpdate(a, b) <==> ComparePositions(a, b)
  {
    AlignedCounts(a, b);
  }

  // ------------------------------------------------------------------
  // Updates are precise
  // ------------------------------------------------------------------

  /** One of the operations that turn `a[i]` into `b[i]`, at its place in the array. */
  ghost predicate IsWithin(op: TokenOp, a: seq<Json>, b: seq<Json>, i: nat) {
    i < |a| && i < |b| && op.at != [] && op.at[0] == Decimal(i) && TokenOp(op.at[1..], op.action) in DiffOps(a[i], b[i])
  }

  lemma {:induction false} PrefixHas(token: string, ops: seq<TokenOp>, op: TokenOp)
    requires op in Prefix(token, ops)
    ensures op.at != [] && op.at[0] == token && TokenOp(op.at[1..], op.action) in ops
    decreases |ops|
  {
    if op in Prefix(token, ops[1..]) {
      PrefixHas(token, ops[1..], op);
    } else {
      assert op.at == [token] + ops[0].at && op.at[1..] == ops[0].at;
      assert ops[0] in ops;
    }
  }

  lemma {:induction false} PairwiseHas(children: seq<seq<TokenOp>>, i: nat, op: TokenOp) returns (j: nat)
    requires i <= |children| && op in Pairwise(children, i)
    ensures j < |children| && op in Prefix(Decimal(j), children[j])
    decreases |children| - i
  {
    if i < |children| && op in Prefix(Decimal(i), children[i]) {
      j := i;
    } else {
      j := PairwiseHas(children, i + 1, op);
    }
  }

  /** An update is patched item by item: every operation lies within an item that has changed. */
  lemma {:induction false} UpdatesArePrecise(a: seq<Json>, b: seq<Json>, op: TokenOp) returns (i: nat)
    requires IsUpdate(a, b) && op in DiffOps(Arr(a), Arr(b))
    ensures IsWithin(op, a, b, i) && a[i] != b[i]
  {
    UpdatesCompared(a, b);
    DiffOfArrays(a, b);
    i := PairwiseHas(ItemDiffs(a, b), 0, op);
    PrefixHas(Decimal(i), DiffOps(a[i], b[i]), op);
  }

  // ------------------------------------------------------------------
  // Shifts are shortest
  // ------------------------------------------------------------------

  /** Everything else up to 8192 pairs of items gets a shortest patch of whole items. */
  lemma {:induction false} ShiftsAreShortest(a: seq<Json>, b: seq<Json>, ops: seq<TokenOp>)
    requires a != b && !IsUpdate(a, b) && |a| * |b| <= 8192
    requires ElementScript(ops) && ApplyTokens(Arr(a), ops) == Some(Arr(b))
    ensures ElementScript(DiffOps(Arr(a), Arr(b))) && |DiffOps(Arr(a), Arr(b))| <= |ops|
  {
    UpdatesCompared(a, b);
    DiffOfArrays(a, b);
    WalkIsShortest(a, b, ops);
  }

  // ------------------------------------------------------------------
  // Huge arrays
  // ------------------------------------------------------------------

  lemma {:induction false} TruncateHas(at: nat, count: nat, op: TokenOp)
    requires op in Truncate(at, count)
    ensures op == TokenOp([Decimal(at)], Remove)
    decreases count
  {
    if op != Truncate(at, count)[0] { TruncateHas(at, count - 1, op); }
  }

  lemma {:induction false} AppendHas(items: seq<Json>, at: nat, op: TokenOp) returns (j: nat)
    requires op in Append(items, at)
    ensures j < |items| && op == TokenOp([Decimal(at + j)], Add(items[j]))
    decreases |items|
  {
    j := 0;
    if op != Append(items, at)[0] {
      j := AppendHas(items[1..], at + 1, op);
      j := j + 1;
    }
  }

  /** Beyond that, items are compared by position: nothing is put in front of, or taken from among, the common positions. */
  lemma {:induction false} HugeArraysByPosition(a: seq<Json>, b: seq<Json>, op: TokenOp) returns (i: nat)
    requires !IsUpdate(a, b) && |a| * |b| > 8192 && op in DiffOps(Arr(a), Arr(b))
    ensures || (IsWithin(op, a, b, i) && a[i] != b[i])
            || (|b| < |a| && op == TokenOp([Decimal(|b|)], Remove))
            || (|a| <= i < |b| && op == TokenOp([Decimal(i)], Add(b[i])))
  {
    UpdatesCompared(a, b);
    DiffOfArrays(a, b);
    var overlap := Overlap(a, b);
    i := 0;
    if op in Pairwise(ItemDiffs(a, b), 0) {
      i := PairwiseHas(ItemDiffs(a, b), 0, op);
      PrefixHas(Decimal(i), DiffOps(a[i], b[i]), op);
    } else if op in Truncate(overlap, |a| - overlap) {
      TruncateHas(overlap, |a| - overlap, op);
    } else {
      i := AppendHas(b[overlap..], overlap, op);
      i := overlap + i;
    }
  }

  // ------------------------------------------------------------------
  // Objects
  // ------------------------------------------------------------------

  lemma {:induction false} RemovalsHave(keys: seq<string>, n: map<string, Json>, op: TokenOp) returns (key: string)
    requires op in Removals(keys, n)
    ensures key in keys && key !in n && op == TokenOp([key], Remove)
    decreases |keys|
  {
    if op in Removals(keys[1..], n) { key := RemovalsHave(keys[1..], n, op); } else { key := keys[0]; }
  }

  lemma {:induction false} UpsertsHave(children: map<string, seq<TokenOp>>, n: map<string, Json>, keys: seq<string>, op: TokenOp) returns (key: string)
    requires (forall k :: k in keys ==> k in n) && op in Upserts(children, n, keys)
    ensures key in keys && op in Upsert(children, n, key)
    decreases |keys|
  {
    if op in Upsert(children, n, keys[0]) { key := keys[0]; } else { key := UpsertsHave(children, n, keys[1..], op); }
  }

  /** Every operation on an object is about one member: it removes it, adds it, or lies within one that has changed. */
  lemma {:induction false} MembersArePrecise(o: map<string, Json>, n: map<string, Json>, op: TokenOp) returns (key: string)
    requires op in DiffOps(Obj(o), Obj(n))
    ensures || (key in o && key !in n && op == TokenOp([key], Remove))
            || (key !in o && key in n && op == TokenOp([key], Add(n[key])))
            || (key in o && key in n && o[key] != n[key] && op.at != [] && op.at[0] == key
                && TokenOp(op.at[1..], op.action) in DiffOps(o[key], n[key]))
  {
    DiffOfObjects(o, n);
    if op in Removals(SortedKeys(o.Keys), n) {
      key := RemovalsHave(SortedKeys(o.Keys), n, op);
    } else {
      key := UpsertsHave(FieldDiffs(o, n), n, SortedKeys(n.Keys), op);
      if key in o { PrefixHas(key, DiffOps(o[key], n[key]), op); }
    }
  }
}
