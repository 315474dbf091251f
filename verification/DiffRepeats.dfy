/** When a patch may be applied a second time: exactly which changes the new value does not notice again. */
module DiffRepeats {
  import opened Json
  import opened Pointer
  import opened JsonPatch
  import opened Diff
  import Lcs

  /** Applying these operations to a value changes nothing and fails nowhere. */
  ghost predicate Repeats(ops: seq<TokenOp>, x: Json) { ApplyTokens(x, ops) == Some(x) }

  /**
   * The change from `a` to `b` is one of values in place: objects lose no member, arrays keep their
   * length, and so on below. Only an array that is patched by its walk is left to that walk.
   */
  ghost predicate IsInPlace(a: Json, b: Json)
    decreases a
  {
    a == b ||
    match (a, b)
    case (Obj(o), Obj(n)) => forall k :: k in o ==> k in n && IsInPlace(o[k], n[k])
    case (Arr(o), Arr(n)) =>
      if IsWalked(o, n) then Repeats(Walk(o, n, 0), Arr(n))
      else |o| == |n| && forall i :: 0 <= i < |o| ==> IsInPlace(o[i], n[i])
    case _ => true
  }

  /** Arrays that are neither compared by position nor too large for the table. */
  predicate IsWalked(o: seq<Json>, n: seq<Json>) { !ComparePositions(o, n) && |o| * |n| <= LCS_MAX_CELLS }

  // ------------------------------------------------------------------
  // Objects
  // ------------------------------------------------------------------

  /** One turn on a member that is there. */
  lemma UpsertGives(children: map<string, seq<TokenOp>>, n: map<string, Json>, cur: map<string, Json>, key: string)
    requires key in n && (key in children ==> key in cur && RootOnlyReplaced(children[key]))
    ensures ApplyTokens(Obj(cur), Upsert(children, n, key)) ==
            if key !in children then Some(Obj(cur[key := n[key]]))
            else match ApplyTokens(cur[key], children[key]) case None => None case Some(c) => Some(Obj(cur[key := c]))
  {
    if key in children {
      ApplyPrefix(Obj(cur), key, children[key]);
    } else {
      assert Upsert(children, n, key)[1..] == [];
    }
  }

  /** The children of the keys to come, which may be moved below the members that are there. */
  ghost predicate Movable(children: map<string, seq<TokenOp>>, cur: map<string, Json>, keys: seq<string>) {
    forall k :: k in keys && k in children ==> k in cur && RootOnlyReplaced(children[k])
  }

  /** Later turns leave a member alone. */
  lemma {:induction false} UpsertsLeave(children: map<string, seq<TokenOp>>, n: map<string, Json>, cur: map<string, Json>, keys: seq<string>, key: string)
    requires (forall k :: k in keys ==> k in n) && Movable(children, cur, keys) && key in cur && key !in keys
    requires ApplyTokens(Obj(cur), Upserts(children, n, keys)).Some?
    ensures var j := ApplyTokens(Obj(cur), Upserts(children, n, keys)).value; j.Obj? && key in j.fields && j.fields[key] == cur[key]
    decreases |keys|
  {
    if keys != [] {
      UpsertGives(children, n, cur, keys[0]);
      ApplyTokensAppend(Obj(cur), Upsert(children, n, keys[0]), Upserts(children, n, keys[1..]));
      var next := ApplyTokens(Obj(cur), Upsert(children, n, keys[0])).value.fields;
      UpsertsLeave(children, n, next, keys[1..], key);
    }
  }

  /** On an object that has the new members already, the turns change nothing exactly when none of the children does. */
  lemma {:induction false} UpsertsRepeatIff(children: map<string, seq<TokenOp>>, n: map<string, Json>, keys: seq<string>)
    requires Distinct(keys) && (forall k :: k in keys ==> k in n) && Movable(children, n, keys)
    ensures Repeats(Upserts(children, n, keys), Obj(n)) <==> forall k :: k in keys && k in children ==> Repeats(children[k], n[k])
    decreases |keys|
  {
    if keys != [] {
      var key := keys[0];
      UpsertGives(children, n, n, key);
      ApplyTokensAppend(Obj(n), Upsert(children, n, key), Upserts(children, n, keys[1..]));
      assert key !in keys[1..] && forall k :: k in keys <==> k == key || k in keys[1..];
      if key !in children || Repeats(children[key], n[key]) {
        assert n[key := n[key]] == n;
        UpsertsRepeatIff(children, n, keys[1..]);
      } else if ApplyTokens(n[key], children[key]).Some? {
        var next := n[key := ApplyTokens(n[key], children[key]).value];
        if ApplyTokens(Obj(next), Upserts(children, n, keys[1..])).Some? { UpsertsLeave(children, n, next, keys[1..], key); }
      }
    }
  }

  /** Removing a member that is gone already fails. */
  lemma {:induction false} RemovalsRepeatIff(keys: seq<string>, n: map<string, Json>)
    ensures ApplyTokens(Obj(n), Removals(keys, n)) == if forall k :: k in keys ==> k in n then Some(Obj(n)) else None
    decreases |keys|
  {
    if keys != [] {
      assert forall k :: k in keys <==> k == keys[0] || k in keys[1..];
      RemovalsRepeatIff(keys[1..], n);
      if keys[0] in n { assert Removals(keys, n) == Removals(keys[1..], n); }
    }
  }

  lemma ObjectRepeatsIff(children: map<string, seq<TokenOp>>, o: map<string, Json>, n: map<string, Json>)
    requires children.Keys == o.Keys * n.Keys && forall k :: k in children ==> RootOnlyReplaced(children[k])
    ensures Repeats(ObjectOps(children, o, n), Obj(n)) <==> o.Keys <= n.Keys && forall k :: k in children ==> Repeats(children[k], n[k])
  {
    var before, after := SortedKeys(o.Keys), SortedKeys(n.Keys);
    RemovalsRepeatIff(before, n);
    UpsertsRepeatIff(children, n, after);
    ApplyTokensAppend(Obj(n), Removals(before, n), Upserts(children, n, after));
    assert (forall k :: k in before ==> k in n) <==> o.Keys <= n.Keys;
    assert forall k :: k in after && k in children <==> k in children;
  }

  // ------------------------------------------------------------------
  // Arrays
  // ------------------------------------------------------------------

  lemma ElementGives(ops: seq<TokenOp>, cur: seq<Json>, i: nat)
    requires i < |cur| && RootOnlyReplaced(ops)
    ensures ApplyTokens(Arr(cur), Prefix(Decimal(i), ops)) ==
            match ApplyTokens(cur[i], ops) case None => None case Some(c) => Some(Arr(cur[i := c]))
  {
    DecimalIsIndex(i);
    ApplyPrefix(Arr(cur), Decimal(i), ops);
  }

  /** Positions before `i` are left alone, and the length stays. */
  lemma {:induction false} PairwiseLeaves(children: seq<seq<TokenOp>>, cur: seq<Json>, i: nat)
    requires i <= |children| <= |cur| && forall k :: i <= k < |children| ==> RootOnlyReplaced(children[k])
    requires ApplyTokens(Arr(cur), Pairwise(children, i)).Some?
    ensures var j := ApplyTokens(Arr(cur), Pairwise(children, i)).value; j.Arr? && |j.items| == |cur| && j.items[..i] == cur[..i]
    decreases |children| - i
  {
    if i < |children| {
      ElementGives(children[i], cur, i);
      ApplyTokensAppend(Arr(cur), Prefix(Decimal(i), children[i]), Pairwise(children, i + 1));
      var next := ApplyTokens(Arr(cur), Prefix(Decimal(i), children[i])).value.items;
      PairwiseLeaves(children, next, i + 1);
      var j := ApplyTokens(Arr(cur), Pairwise(children, i)).value;
      assert j.items[..i] == j.items[..i + 1][..i] == next[..i + 1][..i] == cur[..i];
    }
  }

  lemma {:induction false} PairwiseRepeatsIff(children: seq<seq<TokenOp>>, cur: seq<Json>, i: nat)
    requires i <= |children| <= |cur| && forall k :: i <= k < |children| ==> RootOnlyReplaced(children[k])
    ensures Repeats(Pairwise(children, i), Arr(cur)) <==> forall k :: i <= k < |children| ==> Repeats(children[k], cur[k])
    decreases |children| - i
  {
    if i < |children| {
      ElementGives(children[i], cur, i);
      ApplyTokensAppend(Arr(cur), Prefix(Decimal(i), children[i]), Pairwise(children, i + 1));
      if Repeats(children[i], cur[i]) {
        assert cur[i := cur[i]] == cur;
        PairwiseRepeatsIff(children, cur, i + 1);
      } else if ApplyTokens(cur[i], children[i]).Some? {
        var c := ApplyTokens(cur[i], children[i]).value;
        var next := cur[i := c];
        if ApplyTokens(Arr(next), Pairwise(children, i + 1)).Some? {
          PairwiseLeaves(children, next, i + 1);
          assert ApplyTokens(Arr(next), Pairwise(children, i + 1)).value.items[..i + 1][i] == c;
        }
      }
    }
  }

  /** Behind the end there is nothing to remove. */
  lemma TruncateFails(cur: seq<Json>, count: nat)
    requires count > 0
    ensures ApplyTokens(Arr(cur), Truncate(|cur|, count)).None?
  {
    DecimalIsIndex(|cur|);
  }

  /** Additions make an array longer. */
  lemma {:induction false} AppendLengthens(cur: seq<Json>, items: seq<Json>, at: nat)
    requires ApplyTokens(Arr(cur), Append(items, at)).Some?
    ensures var j := ApplyTokens(Arr(cur), Append(items, at)).value; j.Arr? && |j.items| == |cur| + |items|
    decreases |items|
  {
    if items != [] {
      AppendLengthens(ApplyAt(Arr(cur), [Decimal(at)], Add(items[0])).value.items, items[1..], at + 1);
    }
  }

  /** With the same length nothing is cut or added. */
  lemma PositionalSameLength(children: seq<seq<TokenOp>>, a: seq<Json>, b: seq<Json>)
    requires |children| == |a| == |b|
    ensures Positional(children, a, b) == Pairwise(children, 0)
  {
    var overlap := Overlap(a, b);
    assert Truncate(overlap, |a| - overlap) == [] && b[overlap..] == [] && Append(b[overlap..], overlap) == [];
    assert Pairwise(children, 0) + [] + [] == Pairwise(children, 0);
  }

  /** With another length, what follows the common positions fails, or makes the array too long. */
  lemma PositionalOtherLength(children: seq<seq<TokenOp>>, a: seq<Json>, b: seq<Json>)
    requires |children| == Overlap(a, b) && |a| != |b| && forall k :: 0 <= k < |children| ==> RootOnlyReplaced(children[k])
    ensures !Repeats(Positional(children, a, b), Arr(b))
  {
    var overlap := Overlap(a, b);
    var pairs, cut, more := Pairwise(children, 0), Truncate(overlap, |a| - overlap), Append(b[overlap..], overlap);
    ApplyTokensAppend(Arr(b), pairs + cut, more);
    ApplyTokensAppend(Arr(b), pairs, cut);
    if ApplyTokens(Arr(b), pairs).Some? {
      PairwiseLeaves(children, b, 0);
      var mid := ApplyTokens(Arr(b), pairs).value.items;
      if |a| > |b| { CutFails(mid, a, b); } else { GrowthDiffers(mid, a, b); }
    }
  }

  lemma CutFails(mid: seq<Json>, a: seq<Json>, b: seq<Json>)
    requires |a| > |b| && |mid| == |b|
    ensures ApplyTokens(Arr(mid), Truncate(Overlap(a, b), |a| - Overlap(a, b))).None?
  {
    TruncateFails(mid, |a| - |b|);
  }

  lemma GrowthDiffers(mid: seq<Json>, a: seq<Json>, b: seq<Json>)
    requires |a| < |b| && |mid| == |b|
    ensures Truncate(Overlap(a, b), |a| - Overlap(a, b)) == []
    ensures ApplyTokens(Arr(mid), Append(b[Overlap(a, b)..], Overlap(a, b))) != Some(Arr(b))
  {
    if ApplyTokens(Arr(mid), Append(b[|a|..], |a|)).Some? { AppendLengthens(mid, b[|a|..], |a|); }
  }

  lemma PositionalRepeatsIff(children: seq<seq<TokenOp>>, a: seq<Json>, b: seq<Json>)
    requires |children| == Overlap(a, b) && forall k :: 0 <= k < |children| ==> RootOnlyReplaced(children[k])
    ensures Repeats(Positional(children, a, b), Arr(b)) <==> |a| == |b| && forall k :: 0 <= k < |children| ==> Repeats(children[k], b[k])
  {
    if |a| == |b| {
      PositionalSameLength(children, a, b);
      PairwiseRepeatsIff(children, b, 0);
    } else {
      PositionalOtherLength(children, a, b);
    }
  }

  /** A walk changes the length by the difference of both lengths, whatever it is applied to. */
  lemma {:induction false} WalkLengthens(cur: seq<Json>, a: seq<Json>, b: seq<Json>, at: nat)
    requires ApplyTokens(Arr(cur), Walk(a, b, at)).Some?
    ensures var j := ApplyTokens(Arr(cur), Walk(a, b, at)).value; j.Arr? && |j.items| == |cur| + |b| - |a|
    decreases |a| + |b|
  {
    if b == [] {
      TruncateShortens(cur, at, |a|);
    } else if a == [] {
      AppendLengthens(cur, b, at);
    } else if a[0] == b[0] {
      WalkLengthens(cur, a[1..], b[1..], at + 1);
    } else if Lcs.Length(a[1..], b) >= Lcs.Length(a, b[1..]) {
      WalkLengthens(ApplyAt(Arr(cur), [Decimal(at)], Remove).value.items, a[1..], b, at);
    } else {
      WalkLengthens(ApplyAt(Arr(cur), [Decimal(at)], Add(b[0])).value.items, a, b[1..], at + 1);
    }
  }

  lemma {:induction false} TruncateShortens(cur: seq<Json>, at: nat, count: nat)
    requires ApplyTokens(Arr(cur), Truncate(at, count)).Some?
    ensures var j := ApplyTokens(Arr(cur), Truncate(at, count)).value; j.Arr? && |j.items| == |cur| - count
    decreases count
  {
    if count > 0 { TruncateShortens(ApplyAt(Arr(cur), [Decimal(at)], Remove).value.items, at, count - 1); }
  }

  /** Whatever the branch, an array that grew or shrank does not repeat. */
  lemma InPlaceKeepsLength(o: seq<Json>, n: seq<Json>)
    requires IsInPlace(Arr(o), Arr(n))
    ensures |o| == |n|
  {
    if Arr(o) != Arr(n) && IsWalked(o, n) { WalkLengthens(n, o, n, 0); }
  }

  // ------------------------------------------------------------------
  // All values
  // ------------------------------------------------------------------

  lemma {:induction false} FieldsRepeatIff(a: Json, b: Json)
    requires a.Obj? && b.Obj? && a != b
    ensures Repeats(DiffOps(a, b), b) <==> IsInPlace(a, b)
    decreases a, 0
  {
    var o, n := a.fields, b.fields;
    DiffOfObjects(o, n);
    forall k | k in o && k in n
      ensures RootOnlyReplaced(FieldDiffs(o, n)[k]) && (Repeats(FieldDiffs(o, n)[k], n[k]) <==> IsInPlace(o[k], n[k]))
    {
      DiffApplies(o[k], n[k]);
      RepeatsIff(o[k], n[k]);
    }
    ObjectRepeatsIff(FieldDiffs(o, n), o, n);
  }

  lemma {:induction false} ItemsRepeatIff(a: Json, b: Json)
    requires a.Arr? && b.Arr? && a != b
    ensures Repeats(DiffOps(a, b), b) <==> IsInPlace(a, b)
    decreases a, 0
  {
    var o, n := a.items, b.items;
    DiffOfArrays(o, n);
    forall i | 0 <= i < Overlap(o, n)
      ensures RootOnlyReplaced(ItemDiffs(o, n)[i]) && (Repeats(ItemDiffs(o, n)[i], n[i]) <==> IsInPlace(o[i], n[i]))
    {
      DiffApplies(o[i], n[i]);
      RepeatsIff(o[i], n[i]);
    }
    if ComparePositions(o, n) {
      PairwiseRepeatsIff(ItemDiffs(o, n), n, 0);
    } else if |o| * |n| > LCS_MAX_CELLS {
      PositionalRepeatsIff(ItemDiffs(o, n), o, n);
    }
  }

  /** A difference can be applied once more, without effect, exactly when the change was in place. */
  lemma {:induction false} RepeatsIff(a: Json, b: Json)
    ensures Repeats(DiffOps(a, b), b) <==> IsInPlace(a, b)
    decreases a, 1
  {
    if a == b {
    } else if a.Obj? && b.Obj? {
      FieldsRepeatIff(a, b);
    } else if a.Arr? && b.Arr? {
      ItemsRepeatIff(a, b);
    } else {
      var ops := DiffOps(a, b);
      assert ops == [TokenOp([], Replace(b))] && ops[1..] == [];
      assert ApplyTokens(b, ops) == ApplyTokens(b, ops[1..]);
    }
  }

  /** The same of the patch as it is broadcast. */
  lemma PatchRepeatsIff(a: Json, b: Json)
    ensures ApplyPatch(b, DiffPatch(a, b)) == Some(b) <==> IsInPlace(a, b)
  {
    RepeatsIff(a, b);
    ApplyRendered(b, DiffOps(a, b));
  }
}
