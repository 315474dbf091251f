/**
 * The patch generator of `diff.rs`.
 *
 * `DiffOps` gives the operations relative to the value being compared; the module `PatchBuilder` is
 * the code itself, which pushes rendered operations into one shared list.
 */
module Diff {
  import opened Json
  import opened Pointer
  import opened JsonPatch
  import Lcs

  /** Two arrays whose table would have more cells are compared by position. */
  const LCS_MAX_CELLS: nat := 8192

  // ------------------------------------------------------------------
  // The operations, relative to the compared values
  // ------------------------------------------------------------------

  /** Positions at which two arrays hold equal values. */
  function Aligned(a: seq<Json>, b: seq<Json>): (r: nat)
    ensures r <= |a|
  {
    if a == [] || b == [] then 0
    else (if a[0] == b[0] then 1 else 0) + Aligned(a[1..], b[1..])
  }

  predicate ComparePositions(a: seq<Json>, b: seq<Json>) {
    |a| == |b| && (Aligned(a, b) * 2 >= |a| || |a| <= 8)
  }

  function DiffOps(a: Json, b: Json): seq<TokenOp>
    decreases a
  {
    if a == b then []
    else
      match (a, b)
      case (Obj(o), Obj(n)) =>
        var children := map k | k in o && k in n :: DiffOps(o[k], n[k]);
        ObjectOps(children, o, n)
      case (Arr(o), Arr(n)) =>
        var children := seq(Overlap(o, n), i requires 0 <= i < Overlap(o, n) => DiffOps(o[i], n[i]));
        ArrayOps(children, o, n)
      case _ => [TokenOp([], Replace(b))]
  }

  /** `children` holds the operations of the members both objects have. */
  function ObjectOps(children: map<string, seq<TokenOp>>, o: map<string, Json>, n: map<string, Json>): seq<TokenOp> {
    Removals(SortedKeys(o.Keys), n) + Upserts(children, n, SortedKeys(n.Keys))
  }

  /** `children` holds the operations of the positions both arrays have. */
  function ArrayOps(children: seq<seq<TokenOp>>, o: seq<Json>, n: seq<Json>): seq<TokenOp> {
    if ComparePositions(o, n) then Pairwise(children, 0)
    else if |o| * |n| > LCS_MAX_CELLS then Positional(children, o, n)
    else Walk(o, n, 0)
  }

  /** `remove` for every key of the old object that the new one lacks. */
  function Removals(keys: seq<string>, n: map<string, Json>): seq<TokenOp> {
    if keys == [] then []
    else (if keys[0] in n then [] else [TokenOp([keys[0]], Remove)]) + Removals(keys[1..], n)
  }

  /** The operations for one key of the new object; `children` covers the keys both objects have. */
  function Upsert(children: map<string, seq<TokenOp>>, n: map<string, Json>, key: string): seq<TokenOp>
    requires key in n
  {
    if key in children then Prefix(key, children[key]) else [TokenOp([key], Add(n[key]))]
  }

  function Upserts(children: map<string, seq<TokenOp>>, n: map<string, Json>, keys: seq<string>): seq<TokenOp>
    requires forall k :: k in keys ==> k in n
  {
    if keys == [] then [] else Upsert(children, n, keys[0]) + Upserts(children, n, keys[1..])
  }

  function Overlap(a: seq<Json>, b: seq<Json>): (r: nat)
    ensures r <= |a| && r <= |b|
  {
    if |a| <= |b| then |a| else |b|
  }

  /** The operations of the overlapping positions, from `i` on. */
  function Pairwise(children: seq<seq<TokenOp>>, i: nat): seq<TokenOp>
    requires i <= |children|
    decreases |children| - i
  {
    if i == |children| then [] else Prefix(Decimal(i), children[i]) + Pairwise(children, i + 1)
  }

  function Truncate(at: nat, count: nat): seq<TokenOp> {
    if count == 0 then [] else [TokenOp([Decimal(at)], Remove)] + Truncate(at, count - 1)
  }

  function Append(items: seq<Json>, at: nat): seq<TokenOp> {
    if items == [] then []
    else [TokenOp([Decimal(at)], Add(items[0]))] + Append(items[1..], at + 1)
  }

  /** The operations of the common positions, then the removals or additions that make up the length. */
  function Positional(children: seq<seq<TokenOp>>, a: seq<Json>, b: seq<Json>): seq<TokenOp> {
    var overlap := Overlap(a, b);
    Pairwise(children, 0) + Truncate(overlap, |a| - overlap) + Append(b[overlap..], overlap)
  }

  /** The walk over the LCS table; `cur` is the index of `a[0]` in the evolving array. */
  function Walk(a: seq<Json>, b: seq<Json>, cur: nat): seq<TokenOp>
    decreases |a| + |b|
  {
    if b == [] then Truncate(cur, |a|)
    else if a == [] then Append(b, cur)
    else if a[0] == b[0] then Walk(a[1..], b[1..], cur + 1)
    else if Lcs.Length(a[1..], b) >= Lcs.Length(a, b[1..]) then
      [TokenOp([Decimal(cur)], Remove)] + Walk(a[1..], b, cur)
    else
      [TokenOp([Decimal(cur)], Add(b[0]))] + Walk(a, b[1..], cur + 1)
  }

  // ------------------------------------------------------------------
  // Applying the difference yields the new value
  // ------------------------------------------------------------------

  /** `m` without the members named by `keys` that `n` lacks. */
  ghost function Kept(m: map<string, Json>, keys: seq<string>, n: map<string, Json>): map<string, Json> {
    map k | k in m && (k in n || k !in keys) :: m[k]
  }

  lemma KeptStep(m: map<string, Json>, keys: seq<string>, n: map<string, Json>)
    requires keys != [] && keys[0] !in keys[1..]
    ensures Kept(if keys[0] in n then m else m - {keys[0]}, keys[1..], n) == Kept(m, keys, n)
    ensures Kept(m, [], n) == m
  {
    assert forall k :: k in keys <==> k == keys[0] || k in keys[1..];
  }

  lemma {:induction false} RemovalsApply(m: map<string, Json>, keys: seq<string>, n: map<string, Json>)
    requires Distinct(keys) && forall k :: k in keys ==> k in m
    ensures ApplyTokens(Obj(m), Removals(keys, n)) == Some(Obj(Kept(m, keys, n)))
    decreases |keys|
  {
    if keys == [] {
      assert Kept(m, keys, n) == m;
    } else {
      var key := keys[0];
      KeptStep(m, keys, n);
      RemovalsApply(if key in n then m else m - {key}, keys[1..], n);
      var ops, rest := Removals(keys, n), Removals(keys[1..], n);
      assert key in n ==> ops == rest;
      assert key !in n ==> ops[1..] == rest;
    }
  }

  /** `ops` is a patch from `x` to `y` that may be moved below a parent. */
  ghost predicate Turns(ops: seq<TokenOp>, x: Json, y: Json) {
    ApplyTokens(x, ops) == Some(y) && RootOnlyReplaced(ops)
  }

  lemma UpsertApplies(children: map<string, seq<TokenOp>>, n: map<string, Json>, cur: map<string, Json>, key: string)
    requires key in n
    requires key in children ==> key in cur && Turns(children[key], cur[key], n[key])
    ensures ApplyTokens(Obj(cur), Upsert(children, n, key)) == Some(Obj(cur[key := n[key]]))
  {
    if key in children {
      ApplyPrefix(Obj(cur), key, children[key]);
    } else {
      assert Upsert(children, n, key)[1..] == [];
    }
  }

  /** `cur` with the members named by `keys` taken from `n`. */
  ghost function Taken(cur: map<string, Json>, n: map<string, Json>, keys: seq<string>): map<string, Json>
    requires forall k :: k in keys ==> k in n
  {
    cur + (map k | k in keys :: n[k])
  }

  lemma TakenStep(cur: map<string, Json>, n: map<string, Json>, keys: seq<string>)
    requires keys != [] && forall k :: k in keys ==> k in n
    ensures Taken(cur[keys[0] := n[keys[0]]], n, keys[1..]) == Taken(cur, n, keys)
    ensures Taken(cur, n, []) == cur
  {
    assert forall k :: k in keys <==> k == keys[0] || k in keys[1..];
  }

  lemma {:induction false} UpsertsApply(
      children: map<string, seq<TokenOp>>, n: map<string, Json>, cur: map<string, Json>, keys: seq<string>)
    requires Distinct(keys) && forall k :: k in keys ==> k in n
    requires forall k {:trigger children[k]} :: k in keys && k in children ==> k in cur && Turns(children[k], cur[k], n[k])
    ensures ApplyTokens(Obj(cur), Upserts(children, n, keys)) == Some(Obj(Taken(cur, n, keys)))
    decreases |keys|
  {
    if keys == [] {
      assert Taken(cur, n, keys) == cur;
    } else {
      var key, cur' := keys[0], cur[keys[0] := n[keys[0]]];
      UpsertApplies(children, n, cur, key);
      TakenStep(cur, n, keys);
      UpsertsApply(children, n, cur', keys[1..]);
      var end := Obj(Taken(cur, n, keys));
      ApplyTokensThen(Obj(cur), Upsert(children, n, key), Obj(cur'), Upserts(children, n, keys[1..]), end);
    }
  }

  /** `cur` with the positions from `i` to the end of the overlap taken from `items`. */
  ghost function Overwritten(cur: seq<Json>, items: seq<Json>, i: nat, o: nat): seq<Json>
    requires i <= o <= |cur| && o <= |items|
  {
    cur[..i] + items[i..o] + cur[o..]
  }

  lemma OverwrittenStep(cur: seq<Json>, items: seq<Json>, i: nat, o: nat)
    requires i < o <= |cur| && o <= |items|
    ensures Overwritten(cur[i := items[i]], items, i + 1, o) == Overwritten(cur, items, i, o)
  {
  }

  lemma ElementApplies(ops: seq<TokenOp>, cur: seq<Json>, i: nat, x: Json)
    requires i < |cur| && Turns(ops, cur[i], x)
    ensures ApplyTokens(Arr(cur), Prefix(Decimal(i), ops)) == Some(Arr(cur[i := x]))
  {
    DecimalIsIndex(i);
    ApplyPrefix(Arr(cur), Decimal(i), ops);
  }

  lemma {:induction false} PairwiseApplies(children: seq<seq<TokenOp>>, cur: seq<Json>, items: seq<Json>, i: nat)
    requires i <= |children| <= |cur| && |children| <= |items|
    requires forall k {:trigger children[k]} :: i <= k < |children| ==> Turns(children[k], cur[k], items[k])
    ensures ApplyTokens(Arr(cur), Pairwise(children, i)) == Some(Arr(Overwritten(cur, items, i, |children|)))
    decreases |children| - i
  {
    var o := |children|;
    if i == o {
      assert Overwritten(cur, items, i, o) == cur;
    } else {
      var cur' := cur[i := items[i]];
      ElementApplies(children[i], cur, i, items[i]);
      PairwiseApplies(children, cur', items, i + 1);
      var end := Overwritten(cur, items, i, o);
      OverwrittenStep(cur, items, i, o);
      ApplyTokensThen(Arr(cur), Prefix(Decimal(i), children[i]), Arr(cur'), Pairwise(children, i + 1), Arr(end));
    }
  }

  lemma DecimalIsNotDash(i: nat)
    ensures Decimal(i) != "-"
  {
    DecimalIsIndex(i);
    assert IsDigit(Decimal(i)[0]);
  }

  /** Removing or inserting right behind a known prefix. */
  lemma RemoveBehind(pre: seq<Json>, tail: seq<Json>)
    requires tail != []
    ensures ApplyAt(Arr(pre + tail), [Decimal(|pre|)], Remove) == Some(Arr(pre + tail[1..]))
  {
    DecimalIsIndex(|pre|);
    assert RemoveAt(pre + tail, |pre|) == pre + tail[1..];
  }

  lemma InsertBehind(pre: seq<Json>, x: Json, tail: seq<Json>)
    ensures ApplyAt(Arr(pre + tail), [Decimal(|pre|)], Add(x)) == Some(Arr(pre + [x] + tail))
  {
    DecimalIsIndex(|pre|);
    DecimalIsNotDash(|pre|);
    assert InsertAt(pre + tail, |pre|, x) == pre + [x] + tail;
  }

  lemma {:induction false} TruncateApplies(pre: seq<Json>, tail: seq<Json>)
    ensures ApplyTokens(Arr(pre + tail), Truncate(|pre|, |tail|)) == Some(Arr(pre))
    decreases |tail|
  {
    if tail == [] {
      assert pre + tail == pre;
    } else {
      RemoveBehind(pre, tail);
      TruncateApplies(pre, tail[1..]);
    }
  }

  lemma {:induction false} AppendApplies(pre: seq<Json>, items: seq<Json>)
    ensures ApplyTokens(Arr(pre), Append(items, |pre|)) == Some(Arr(pre + items))
    decreases |items|
  {
    if items == [] {
      assert pre + items == pre;
    } else {
      InsertBehind(pre, items[0], []);
      assert pre + [] == pre && pre + [items[0]] + [] == pre + [items[0]];
      AppendApplies(pre + [items[0]], items[1..]);
      assert pre + [items[0]] + items[1..] == pre + items;
    }
  }

  lemma {:induction false} WalkApplies(pre: seq<Json>, a: seq<Json>, b: seq<Json>)
    ensures ApplyTokens(Arr(pre + a), Walk(a, b, |pre|)) == Some(Arr(pre + b))
    decreases |a| + |b|
  {
    if b == [] {
      TruncateApplies(pre, a);
      assert pre + b == pre;
    } else if a == [] {
      AppendApplies(pre, b);
      assert pre + a == pre;
    } else if a[0] == b[0] {
      WalkApplies(pre + [a[0]], a[1..], b[1..]);
      HeadMoves(pre, a);
      HeadMoves(pre, b);
    } else if Lcs.Length(a[1..], b) >= Lcs.Length(a, b[1..]) {
      RemoveBehind(pre, a);
      WalkApplies(pre, a[1..], b);
    } else {
      InsertBehind(pre, b[0], a);
      WalkApplies(pre + [b[0]], a, b[1..]);
      HeadMoves(pre, b);
    }
  }

  lemma HeadMoves(pre: seq<Json>, s: seq<Json>)
    requires s != []
    ensures pre + [s[0]] + s[1..] == pre + s
  {
  }

  lemma OverlapOverwritten(a: seq<Json>, b: seq<Json>)
    ensures Overwritten(a, b, 0, Overlap(a, b)) == b[..Overlap(a, b)] + a[Overlap(a, b)..]
    ensures b[..Overlap(a, b)] + b[Overlap(a, b)..] == b
    ensures |a| == |b| ==> b[..Overlap(a, b)] + a[Overlap(a, b)..] == b
  {
  }

  lemma PositionalApplies(children: seq<seq<TokenOp>>, a: seq<Json>, b: seq<Json>)
    requires |children| == Overlap(a, b)
    requires forall k {:trigger children[k]} :: 0 <= k < |children| ==> Turns(children[k], a[k], b[k])
    ensures ApplyTokens(Arr(a), Positional(children, a, b)) == Some(Arr(b))
  {
    OverlapOverwritten(a, b);
    PairwiseApplies(children, a, b, 0);
    TruncatedThenGrown(a, b, b[..Overlap(a, b)], a[Overlap(a, b)..], b[Overlap(a, b)..], Pairwise(children, 0));
  }

  /** `pairs` leaves the new overlap `pre` and the old rest `extra`; the rest goes, and `gained` comes. */
  lemma TruncatedThenGrown(a: seq<Json>, b: seq<Json>, pre: seq<Json>, extra: seq<Json>, gained: seq<Json>, pairs: seq<TokenOp>)
    requires ApplyTokens(Arr(a), pairs) == Some(Arr(pre + extra)) && pre + gained == b
    ensures ApplyTokens(Arr(a), pairs + Truncate(|pre|, |extra|) + Append(gained, |pre|)) == Some(Arr(b))
  {
    TruncateApplies(pre, extra);
    AppendApplies(pre, gained);
    ApplyTokensThen(Arr(a), pairs, Arr(pre + extra), Truncate(|pre|, |extra|), Arr(pre));
    ApplyTokensThen(Arr(a), pairs + Truncate(|pre|, |extra|), Arr(pre), Append(gained, |pre|), Arr(b));
  }

  lemma KeptThenTaken(o: map<string, Json>, n: map<string, Json>, before: seq<string>, after: seq<string>)
    requires forall k :: k in before <==> k in o
    requires forall k :: k in after <==> k in n
    ensures Taken(Kept(o, before, n), n, after) == n
  {
  }

  lemma ObjectApplies(children: map<string, seq<TokenOp>>, o: map<string, Json>, n: map<string, Json>,
      before: seq<string>, after: seq<string>)
    requires children.Keys == o.Keys * n.Keys
    requires forall k {:trigger children[k]} :: k in children ==> Turns(children[k], o[k], n[k])
    requires Distinct(before) && forall k :: k in before <==> k in o
    requires Distinct(after) && forall k :: k in after <==> k in n
    ensures ApplyTokens(Obj(o), Removals(before, n) + Upserts(children, n, after)) == Some(Obj(n))
  {
    var kept := Kept(o, before, n);
    KeptThenTaken(o, n, before, after);
    RemovalsApply(o, before, n);
    UpsertsApply(children, n, kept, after);
    ApplyTokensThen(Obj(o), Removals(before, n), Obj(kept), Upserts(children, n, after), Obj(n));
  }

  lemma WholeWalkApplies(o: seq<Json>, n: seq<Json>)
    ensures ApplyTokens(Arr(o), Walk(o, n, 0)) == Some(Arr(n))
  {
    WalkApplies([], o, n);
    assert [] + o == o && [] + n == n;
  }

  lemma ObjectOpsApply(children: map<string, seq<TokenOp>>, o: map<string, Json>, n: map<string, Json>)
    requires children.Keys == o.Keys * n.Keys
    requires forall k {:trigger children[k]} :: k in children ==> Turns(children[k], o[k], n[k])
    ensures Turns(ObjectOps(children, o, n), Obj(o), Obj(n))
  {
    ObjectApplies(children, o, n, SortedKeys(o.Keys), SortedKeys(n.Keys));
    ObjectOpsBelowRoot(children, o, n);
  }

  lemma ArrayOpsApply(children: seq<seq<TokenOp>>, o: seq<Json>, n: seq<Json>)
    requires |children| == Overlap(o, n)
    requires forall k {:trigger children[k]} :: 0 <= k < |children| ==> Turns(children[k], o[k], n[k])
    ensures Turns(ArrayOps(children, o, n), Arr(o), Arr(n))
  {
    ArrayOpsBelowRoot(children, o, n);
    if ComparePositions(o, n) {
      OverlapOverwritten(o, n);
      PairwiseApplies(children, o, n, 0);
    } else if |o| * |n| > LCS_MAX_CELLS {
      PositionalApplies(children, o, n);
    } else {
      WholeWalkApplies(o, n);
    }
  }

  ghost function FieldDiffs(o: map<string, Json>, n: map<string, Json>): map<string, seq<TokenOp>> {
    map k | k in o && k in n :: DiffOps(o[k], n[k])
  }

  ghost function ItemDiffs(o: seq<Json>, n: seq<Json>): seq<seq<TokenOp>> {
    seq(Overlap(o, n), i requires 0 <= i < Overlap(o, n) => DiffOps(o[i], n[i]))
  }

  lemma DiffOfObjects(o: map<string, Json>, n: map<string, Json>)
    requires o != n
    ensures DiffOps(Obj(o), Obj(n)) == ObjectOps(FieldDiffs(o, n), o, n)
  {
  }

  lemma DiffOfArrays(o: seq<Json>, n: seq<Json>)
    requires o != n
    ensures DiffOps(Arr(o), Arr(n)) == ArrayOps(ItemDiffs(o, n), o, n)
  {
    assert ItemDiffs(o, n) == seq(Overlap(o, n), i requires 0 <= i < Overlap(o, n) => DiffOps(o[i], n[i]));
  }

  lemma {:induction false} FieldsTurn(a: Json, b: Json)
    requires a.Obj? && b.Obj? && a != b
    ensures Turns(DiffOps(a, b), a, b)
    decreases a, 0
  {
    var o, n := a.fields, b.fields;
    forall k | k in o && k in n ensures Turns(FieldDiffs(o, n)[k], o[k], n[k]) {
      DiffApplies(o[k], n[k]);
    }
    DiffOfObjects(o, n);
    ObjectOpsApply(FieldDiffs(o, n), o, n);
  }

  lemma {:induction false} ItemsTurn(a: Json, b: Json)
    requires a.Arr? && b.Arr? && a != b
    ensures Turns(DiffOps(a, b), a, b)
    decreases a, 0
  {
    var o, n := a.items, b.items;
    forall i | 0 <= i < Overlap(o, n) ensures Turns(ItemDiffs(o, n)[i], o[i], n[i]) {
      DiffApplies(o[i], n[i]);
    }
    DiffOfArrays(o, n);
    ArrayOpsApply(ItemDiffs(o, n), o, n);
  }

  /** Relative operations never fail, and their result is exactly the new value. */
  lemma {:induction false} DiffApplies(a: Json, b: Json)
    ensures Turns(DiffOps(a, b), a, b)
    decreases a, 1
  {
    if a == b {
    } else if a.Obj? && b.Obj? {
      FieldsTurn(a, b);
    } else if a.Arr? && b.Arr? {
      ItemsTurn(a, b);
    } else {
      assert DiffOps(a, b) == [TokenOp([], Replace(b))];
      assert DiffOps(a, b)[1..] == [];
    }
  }

  // ------------------------------------------------------------------
  // Only a whole document is ever replaced at its root
  // ------------------------------------------------------------------

  lemma {:induction false} RemovalsBelowRoot(keys: seq<string>, n: map<string, Json>)
    ensures BelowRoot(Removals(keys, n))
  {
    if keys != [] { RemovalsBelowRoot(keys[1..], n); }
  }

  lemma {:induction false} UpsertsBelowRoot(children: map<string, seq<TokenOp>>, n: map<string, Json>, keys: seq<string>)
    requires forall k :: k in keys ==> k in n
    ensures BelowRoot(Upserts(children, n, keys))
  {
    if keys != [] {
      if keys[0] in children { PrefixBelowRoot(keys[0], children[keys[0]]); }
      UpsertsBelowRoot(children, n, keys[1..]);
    }
  }

  lemma {:induction false} PairwiseBelowRoot(children: seq<seq<TokenOp>>, i: nat)
    requires i <= |children|
    ensures BelowRoot(Pairwise(children, i))
    decreases |children| - i
  {
    if i < |children| {
      PrefixBelowRoot(Decimal(i), children[i]);
      PairwiseBelowRoot(children, i + 1);
    }
  }

  lemma PositionalBelowRoot(children: seq<seq<TokenOp>>, a: seq<Json>, b: seq<Json>)
    ensures BelowRoot(Positional(children, a, b))
  {
    var overlap := Overlap(a, b);
    PairwiseBelowRoot(children, 0);
    TruncateIsElementScript(overlap, |a| - overlap);
    AppendIsElementScript(b[overlap..], overlap);
  }

  lemma ObjectOpsBelowRoot(children: map<string, seq<TokenOp>>, o: map<string, Json>, n: map<string, Json>)
    ensures BelowRoot(ObjectOps(children, o, n))
  {
    RemovalsBelowRoot(SortedKeys(o.Keys), n);
    UpsertsBelowRoot(children, n, SortedKeys(n.Keys));
  }

  lemma ArrayOpsBelowRoot(children: seq<seq<TokenOp>>, o: seq<Json>, n: seq<Json>)
    ensures BelowRoot(ArrayOps(children, o, n))
  {
    if ComparePositions(o, n) {
      PairwiseBelowRoot(children, 0);
    } else if |o| * |n| > LCS_MAX_CELLS {
      PositionalBelowRoot(children, o, n);
    } else {
      WalkIsElementScript(o, n, 0);
    }
  }

  /** Two containers of the same kind are never replaced as a whole. */
  lemma DiffBelowRoot(a: Json, b: Json)
    requires (a.Obj? && b.Obj?) || (a.Arr? && b.Arr?)
    ensures BelowRoot(DiffOps(a, b))
  {
    if a == b {
    } else if a.Obj? {
      DiffOfObjects(a.fields, b.fields);
      ObjectOpsBelowRoot(FieldDiffs(a.fields, b.fields), a.fields, b.fields);
    } else {
      DiffOfArrays(a.items, b.items);
      ArrayOpsBelowRoot(ItemDiffs(a.items, b.items), a.items, b.items);
    }
  }

  /** The operations as the room broadcasts them: `diff(old, new)`. */
  function DiffPatch(a: Json, b: Json): seq<PatchOp> {
    Render("", DiffOps(a, b))
  }

  /** Main result: for all values, the broadcast patch turns the old value into the new one. */
  lemma DiffPatchApplies(a: Json, b: Json)
    ensures ApplyPatch(a, DiffPatch(a, b)) == Some(b)
  {
    DiffApplies(a, b);
    ApplyRendered(a, DiffOps(a, b));
  }

  /** A patch is empty exactly when nothing changed. */
  lemma DiffPatchEmptyIffEqual(a: Json, b: Json)
    ensures DiffPatch(a, b) == [] <==> a == b
  {
    DiffPatchApplies(a, b);
  }

  // ------------------------------------------------------------------
  // Optimality of the LCS path
  // ------------------------------------------------------------------

  lemma {:induction false} WalkSize(a: seq<Json>, b: seq<Json>, cur: nat)
    ensures |Walk(a, b, cur)| == |a| + |b| - 2 * Lcs.Length(a, b)
    decreases |a| + |b|
  {
    if b == [] {
      TruncateSize(cur, |a|);
    } else if a == [] {
      AppendSize(b, cur);
    } else if a[0] == b[0] {
      WalkSize(a[1..], b[1..], cur + 1);
    } else if Lcs.Length(a[1..], b) >= Lcs.Length(a, b[1..]) {
      WalkSize(a[1..], b, cur);
    } else {
      WalkSize(a, b[1..], cur + 1);
    }
  }

  lemma {:induction false} TruncateSize(at: nat, count: nat)
    ensures |Truncate(at, count)| == count
  {
    if count > 0 { TruncateSize(at, count - 1); }
  }

  lemma {:induction false} AppendSize(items: seq<Json>, at: nat)
    ensures |Append(items, at)| == |items|
  {
    if items != [] { AppendSize(items[1..], at + 1); }
  }

  /** A patch that adds and removes whole elements of one array. */
  ghost predicate ElementScript(ops: seq<TokenOp>) {
    forall k :: 0 <= k < |ops| ==> |ops[k].at| == 1 && !ops[k].action.Replace?
  }

  /** Any such patch from `a` to `b` needs at least this many operations. */
  lemma {:induction false} ScriptLowerBound(a: seq<Json>, b: seq<Json>, ops: seq<TokenOp>)
    requires ElementScript(ops) && ApplyTokens(Arr(a), ops) == Some(Arr(b))
    ensures |ops| >= |a| + |b| - 2 * Lcs.Length(a, b)
    decreases |ops|
  {
    if ops == [] {
      Lcs.LengthOfSelf(a);
    } else {
      var next := ApplyAt(Arr(a), ops[0].at, ops[0].action).value.items;
      ScriptLowerBound(next, b, ops[1..]);
      if ops[0].action.Remove? {
        var i := ElementIndex(|a|, ops[0].at[0]).value;
        Lcs.RemovalChangesLengthByOne(a, b, i);
      } else {
        var i := InsertIndex(|a|, ops[0].at[0]).value;
        assert next[..i] + next[i + 1..] == a;
        Lcs.RemovalChangesLengthByOne(next, b, i);
      }
    }
  }

  lemma {:induction false} WalkIsElementScript(a: seq<Json>, b: seq<Json>, cur: nat)
    ensures ElementScript(Walk(a, b, cur))
    decreases |a| + |b|
  {
    if b == [] {
      TruncateIsElementScript(cur, |a|);
    } else if a == [] {
      AppendIsElementScript(b, cur);
    } else if a[0] == b[0] {
      WalkIsElementScript(a[1..], b[1..], cur + 1);
    } else if Lcs.Length(a[1..], b) >= Lcs.Length(a, b[1..]) {
      WalkIsElementScript(a[1..], b, cur);
    } else {
      WalkIsElementScript(a, b[1..], cur + 1);
    }
  }

  lemma {:induction false} TruncateIsElementScript(at: nat, count: nat)
    ensures ElementScript(Truncate(at, count))
  {
    if count > 0 { TruncateIsElementScript(at, count - 1); }
  }

  lemma {:induction false} AppendIsElementScript(items: seq<Json>, at: nat)
    ensures ElementScript(Append(items, at))
  {
    if items != [] { AppendIsElementScript(items[1..], at + 1); }
  }

  /** Among the scripts of whole-element adds and removes, the walk's is a shortest one. */
  lemma {:induction false} WalkIsShortest(a: seq<Json>, b: seq<Json>, ops: seq<TokenOp>)
    requires ElementScript(ops) && ApplyTokens(Arr(a), ops) == Some(Arr(b))
    ensures ElementScript(Walk(a, b, 0)) && ApplyTokens(Arr(a), Walk(a, b, 0)) == Some(Arr(b))
    ensures |Walk(a, b, 0)| <= |ops|
  {
    WalkIsElementScript(a, b, 0);
    WholeWalkApplies(a, b);
    WalkSize(a, b, 0);
    ScriptLowerBound(a, b, ops);
  }

  lemma {:induction false} NothingAligned(a: seq<Json>, b: seq<Json>)
    requires forall i :: 0 <= i < |a| && i < |b| ==> a[i] != b[i]
    ensures Aligned(a, b) == 0
  {
    if a != [] && b != [] {
      assert forall i :: 0 <= i < |a[1..]| && i < |b[1..]| ==> a[1..][i] == a[i + 1] && b[1..][i] == b[i + 1];
      NothingAligned(a[1..], b[1..]);
    }
  }

  /**
   * A capped queue of distinct items that drops `k` items in front and gains `k` behind costs at
   * most `2 * k` operations, from the shortest length that leaves the positional branch to the
   * longest whose table fits.
   */
  lemma SlidingWindowCost(dropped: seq<Json>, kept: seq<Json>, gained: seq<Json>)
    requires |dropped| == |gained| > 0 && 9 <= |dropped + kept| <= 90
    requires Distinct(dropped + kept + gained)
    ensures |DiffPatch(Arr(dropped + kept), Arr(kept + gained))| <= 2 * |dropped|
  {
    var a, b, all, k := dropped + kept, kept + gained, dropped + kept + gained, |dropped|;
    forall i | 0 <= i < |a| ensures a[i] != b[i] {
      assert a[i] == all[i] && b[i] == all[i + k];
    }
    MovedListsAreWalked(a, b);
    WindowsShare(dropped, kept, gained);
    WalkSize(a, b, 0);
  }

  lemma MovedListsAreWalked(a: seq<Json>, b: seq<Json>)
    requires |a| == |b| && 9 <= |a| <= 90 && forall i :: 0 <= i < |a| ==> a[i] != b[i]
    ensures |DiffPatch(Arr(a), Arr(b))| == |Walk(a, b, 0)|
  {
    NothingAligned(a, b);
    assert |a| * |b| <= 90 * 90 by { ProductBound(|a|); }
    assert a[0] != b[0];
    DiffOfArrays(a, b);
    assert !ComparePositions(a, b);
  }

  /** What was kept is a common subsequence. */
  lemma WindowsShare(dropped: seq<Json>, kept: seq<Json>, gained: seq<Json>)
    ensures Lcs.Length(dropped + kept, kept + gained) >= |kept|
  {
    assert dropped + kept + [] == dropped + kept && [] + kept + gained == kept + gained;
    Lcs.SubsequenceOfConcat(dropped, kept, []);
    Lcs.SubsequenceOfConcat([], kept, gained);
    Lcs.LengthIsUpperBound(kept, dropped + kept, kept + gained);
  }

  lemma ProductBound(n: nat)
    requires n <= 90
    ensures n * n <= 8100
  {
    assert n * n <= n * 90;
  }
}
