/** The code of `diff.rs`: every function pushes its operations into one shared list. */
module PatchBuilder {
  import opened Json
  import opened Pointer
  import opened JsonPatch
  import opened Diff
  import Lcs

  class Builder {
    var ops: seq<PatchOp>

    constructor ()
      ensures ops == []
    {
      ops := [];
    }

    method Push(path: string, action: Action)
      modifies this
      ensures ops == old(ops) + [PatchOp(path, action)]
    {
      ops := ops + [PatchOp(path, action)];
    }

    method DiffValue(a: Json, b: Json, path: string)
      modifies this
      ensures ops == old(ops) + Render(path, DiffOps(a, b))
      decreases a, 3
    {
      if a == b {
        return;
      }
      match (a, b)
      case (Obj(_), Obj(_)) => DiffObject(a, b, path);
      case (Arr(_), Arr(_)) => DiffArray(a, b, path);
      case _ =>
        Push(path, Replace(b));
        assert DiffOps(a, b) == [TokenOp([], Replace(b))] && DiffOps(a, b)[1..] == [];
        assert path + "" == path;
    }

    method DiffObject(a: Json, b: Json, path: string)
      requires a.Obj? && b.Obj? && a != b
      modifies this
      ensures ops == old(ops) + Render(path, DiffOps(a, b))
      decreases a, 2
    {
      var o, n := a.fields, b.fields;
      RenderObject(path, o, n);
      ghost var before := ops;
      RemoveStaleKeys(SortedKeys(o.Keys), n, path);
      ghost var middle := ops;
      DiffKeys(a, b, SortedKeys(n.Keys), path);
      Regroup(before, middle[|before|..], ops[|middle|..]);
    }

    method RemoveStaleKeys(keys: seq<string>, n: map<string, Json>, path: string)
      modifies this
      ensures ops == old(ops) + Render(path, Removals(keys, n))
    {
      ghost var rest := Render(path, Removals(keys, n));
      var i := 0;
      while i < |keys|
        invariant 0 <= i <= |keys|
        invariant rest == Render(path, Removals(keys[i..], n))
        invariant ops + rest == old(ops) + Render(path, Removals(keys, n))
      {
        RemovalStep(path, keys[i..], n);
        ghost var before := ops;
        if keys[i] !in n {
          Push(path + "/" + Escape(keys[i]), Remove);
        }
        rest := Render(path, Removals(keys[i + 1..], n));
        Regroup(before, ops[|before|..], rest);
        i := i + 1;
      }
    }

    method DiffKeys(a: Json, b: Json, keys: seq<string>, path: string)
      requires a.Obj? && b.Obj? && forall k :: k in keys ==> k in b.fields
      modifies this
      ensures ops == old(ops) + Render(path, Upserts(FieldDiffs(a.fields, b.fields), b.fields, keys))
      decreases a, 1
    {
      var o, n := a.fields, b.fields;
      ghost var children := FieldDiffs(o, n);
      ghost var rest := Render(path, Upserts(children, n, keys));
      var i := 0;
      while i < |keys|
        invariant 0 <= i <= |keys|
        invariant rest == Render(path, Upserts(children, n, keys[i..]))
        invariant ops + rest == old(ops) + Render(path, Upserts(children, n, keys))
      {
        var key := keys[i];
        var child := path + "/" + Escape(key);
        UpsertStep(path, children, n, keys[i..]);
        ghost var before := ops;
        if key !in o {
          Push(child, Add(n[key]));
        } else {
          DiffValue(o[key], n[key], child);
        }
        rest := Render(path, Upserts(children, n, keys[i + 1..]));
        Regroup(before, ops[|before|..], rest);
        i := i + 1;
      }
    }

    method DiffArray(a: Json, b: Json, path: string)
      requires a.Arr? && b.Arr? && a != b
      modifies this
      ensures ops == old(ops) + Render(path, DiffOps(a, b))
      decreases a, 2
    {
      var o, n := a.items, b.items;
      DiffOfArrays(o, n);
      if |o| == |n| {
        var aligned := CountAligned(o, n);
        if aligned * 2 >= |o| || |o| <= 8 {
          DiffPositions(a, b, path);
          return;
        }
      }
      if |o| * |n| > LCS_MAX_CELLS {
        DiffArrayPositional(a, b, path);
        return;
      }
      DiffArrayLcs(o, n, path);
    }

    /** Deep comparison of the overlapping positions. */
    method DiffPositions(a: Json, b: Json, path: string)
      requires a.Arr? && b.Arr?
      modifies this
      ensures ops == old(ops) + Render(path, Pairwise(ItemDiffs(a.items, b.items), 0))
      decreases a, 0
    {
      var overlap := Overlap(a.items, b.items);
      ghost var children := ItemDiffs(a.items, b.items);
      ghost var rest := Render(path, Pairwise(children, 0));
      var i := 0;
      while i < overlap
        invariant 0 <= i <= overlap
        invariant rest == Render(path, Pairwise(children, i))
        invariant ops + rest == old(ops) + Render(path, Pairwise(children, 0))
      {
        PairStep(path, children, i);
        ghost var before := ops;
        DiffValue(a.items[i], b.items[i], path + "/" + Decimal(i));
        rest := Render(path, Pairwise(children, i + 1));
        Regroup(before, ops[|before|..], rest);
        i := i + 1;
      }
    }

    method DiffArrayPositional(a: Json, b: Json, path: string)
      requires a.Arr? && b.Arr?
      modifies this
      ensures ops == old(ops) + Render(path, Positional(ItemDiffs(a.items, b.items), a.items, b.items))
      decreases a, 1
    {
      var o, n, overlap := a.items, b.items, Overlap(a.items, b.items);
      ghost var pairs, cut, more :=
        Pairwise(ItemDiffs(o, n), 0), Truncate(overlap, |o| - overlap), Append(n[overlap..], overlap);
      RenderAppend(path, pairs, cut);
      RenderAppend(path, pairs + cut, more);
      Regroup(ops, Render(path, pairs), Render(path, cut));
      Regroup(ops, Render(path, pairs + cut), Render(path, more));
      DiffPositions(a, b, path);
      RemoveMany(overlap, |o| - overlap, path);
      AddMany(n[overlap..], overlap, path);
    }

    /** `count` removals at the same index, which shift the rest into place. */
    method RemoveMany(at: nat, count: nat, path: string)
      modifies this
      ensures ops == old(ops) + Render(path, Truncate(at, count))
    {
      ghost var rest := Render(path, Truncate(at, count));
      var left := count;
      while left > 0
        invariant 0 <= left <= count
        invariant rest == Render(path, Truncate(at, left))
        invariant ops + rest == old(ops) + Render(path, Truncate(at, count))
      {
        IndexStep(path, at, Remove, Truncate(at, left - 1));
        ghost var before := ops;
        Push(path + "/" + Decimal(at), Remove);
        rest := Render(path, Truncate(at, left - 1));
        Regroup(before, ops[|before|..], rest);
        left := left - 1;
      }
    }

    /** Additions at consecutive indices. */
    method AddMany(items: seq<Json>, at: nat, path: string)
      modifies this
      ensures ops == old(ops) + Render(path, Append(items, at))
    {
      ghost var rest := Render(path, Append(items, at));
      var j := 0;
      while j < |items|
        invariant 0 <= j <= |items|
        invariant rest == Render(path, Append(items[j..], at + j))
        invariant ops + rest == old(ops) + Render(path, Append(items, at))
      {
        assert items[j..][1..] == items[j + 1..];
        IndexStep(path, at + j, Add(items[j]), Append(items[j + 1..], at + j + 1));
        ghost var before := ops;
        Push(path + "/" + Decimal(at + j), Add(items[j]));
        rest := Render(path, Append(items[j + 1..], at + j + 1));
        Regroup(before, ops[|before|..], rest);
        j := j + 1;
      }
    }

    /** Fill the table, then walk it; `cur` is the index of `o[i]` in the evolving array. */
    method DiffArrayLcs(o: seq<Json>, n: seq<Json>, path: string)
      modifies this
      ensures ops == old(ops) + Render(path, Walk(o, n, 0))
    {
      var dp := Lcs.FillTable(o, n);
      var i, j, cur := 0, 0, 0;
      ghost var rest := Remaining(path, o, n, 0, 0, 0);
      while i < |o| && j < |n|
        invariant 0 <= i <= |o| && 0 <= j <= |n| && 0 <= cur
        invariant rest == Remaining(path, o, n, i, j, cur)
        invariant ops + rest == old(ops) + Render(path, Walk(o, n, 0))
        modifies this
        decreases |o| - i + |n| - j
      {
        RemainingStep(path, o, n, i, j, cur);
        ghost var before := ops;
        if o[i] == n[j] {
          i, j, cur := i + 1, j + 1, cur + 1;
        } else if dp[i + 1, j] >= dp[i, j + 1] {
          Push(path + "/" + Decimal(cur), Remove);
          i := i + 1;
        } else {
          Push(path + "/" + Decimal(cur), Add(n[j]));
          j, cur := j + 1, cur + 1;
        }
        ghost var next := Remaining(path, o, n, i, j, cur);
        Regroup(before, ops[|before|..], next);
        rest := next;
      }
      if i < |o| {
        RemoveMany(cur, |o| - i, path);
      } else {
        AddMany(n[j..], cur, path);
      }
    }
  }

  lemma Regroup<T>(a: seq<T>, b: seq<T>, c: seq<T>)
    ensures (a + b) + c == a + (b + c)
  {
  }

  /** What the walk still has to push when it stands at `(i, j)`. */
  ghost function Remaining(path: string, o: seq<Json>, n: seq<Json>, i: nat, j: nat, cur: nat): seq<PatchOp>
    requires i <= |o| && j <= |n|
  {
    Render(path, Walk(o[i..], n[j..], cur))
  }

  /** One turn of the walk: the operation it pushes and the walk that remains. */
  lemma RemainingStep(path: string, o: seq<Json>, n: seq<Json>, i: nat, j: nat, cur: nat)
    requires i < |o| && j < |n|
    ensures Remaining(path, o, n, i, j, cur) ==
            if o[i] == n[j] then Remaining(path, o, n, i + 1, j + 1, cur + 1)
            else if Lcs.Length(o[i + 1..], n[j..]) >= Lcs.Length(o[i..], n[j + 1..]) then
              [PatchOp(path + "/" + Decimal(cur), Remove)] + Remaining(path, o, n, i + 1, j, cur)
            else
              [PatchOp(path + "/" + Decimal(cur), Add(n[j]))] + Remaining(path, o, n, i, j + 1, cur + 1)
  {
    var a, b := o[i..], n[j..];
    assert a[1..] == o[i + 1..] && b[1..] == n[j + 1..];
    if a[0] != b[0] {
      if Lcs.Length(a[1..], b) >= Lcs.Length(a, b[1..]) {
        IndexStep(path, cur, Remove, Walk(a[1..], b, cur));
      } else {
        IndexStep(path, cur, Add(b[0]), Walk(a, b[1..], cur + 1));
      }
    }
  }

  method CountAligned(a: seq<Json>, b: seq<Json>) returns (aligned: nat)
    requires |a| == |b|
    ensures aligned == Aligned(a, b)
  {
    aligned := 0;
    for i := 0 to |a|
      invariant aligned + Aligned(a[i..], b[i..]) == Aligned(a, b)
    {
      assert a[i..][1..] == a[i + 1..] && b[i..][1..] == b[i + 1..];
      if a[i] == b[i] { aligned := aligned + 1; }
    }
  }

  lemma RemovalStep(path: string, keys: seq<string>, n: map<string, Json>)
    requires keys != []
    ensures Render(path, Removals(keys, n)) ==
            (if keys[0] in n then [] else [PatchOp(path + "/" + Escape(keys[0]), Remove)])
            + Render(path, Removals(keys[1..], n))
  {
    var head := if keys[0] in n then [] else [TokenOp([keys[0]], Remove)];
    RenderAppend(path, head, Removals(keys[1..], n));
    SingleStep(path, keys[0], Remove);
  }

  lemma SingleStep(path: string, token: string, action: Action)
    ensures Render(path, [TokenOp([token], action)]) == [PatchOp(path + "/" + Escape(token), action)]
  {
    assert [token][1..] == [] && PrintPointer([]) == "";
    assert path + ("/" + Escape(token) + "") == path + "/" + Escape(token);
    assert [TokenOp([token], action)][1..] == [];
  }

  lemma IndexStep(path: string, i: nat, action: Action, rest: seq<TokenOp>)
    ensures Render(path, [TokenOp([Decimal(i)], action)] + rest) ==
            [PatchOp(path + "/" + Decimal(i), action)] + Render(path, rest)
  {
    RenderAppend(path, [TokenOp([Decimal(i)], action)], rest);
    SingleStep(path, Decimal(i), action);
    DecimalIsIndex(i);
    EscapeDigits(Decimal(i));
  }

  lemma RenderObject(path: string, o: map<string, Json>, n: map<string, Json>)
    requires o != n
    ensures Render(path, DiffOps(Obj(o), Obj(n))) ==
            Render(path, Removals(SortedKeys(o.Keys), n))
            + Render(path, Upserts(FieldDiffs(o, n), n, SortedKeys(n.Keys)))
  {
    DiffOfObjects(o, n);
    RenderAppend(path, Removals(SortedKeys(o.Keys), n), Upserts(FieldDiffs(o, n), n, SortedKeys(n.Keys)));
  }

  lemma UpsertStep(path: string, children: map<string, seq<TokenOp>>, n: map<string, Json>, keys: seq<string>)
    requires keys != [] && forall k :: k in keys ==> k in n
    ensures Render(path, Upserts(children, n, keys)) ==
            (if keys[0] in children then Render(path + "/" + Escape(keys[0]), children[keys[0]])
             else [PatchOp(path + "/" + Escape(keys[0]), Add(n[keys[0]]))])
            + Render(path, Upserts(children, n, keys[1..]))
  {
    RenderAppend(path, Upsert(children, n, keys[0]), Upserts(children, n, keys[1..]));
    if keys[0] in children {
      RenderPrefix(path, keys[0], children[keys[0]]);
    } else {
      SingleStep(path, keys[0], Add(n[keys[0]]));
    }
  }

  lemma PairStep(path: string, children: seq<seq<TokenOp>>, i: nat)
    requires i < |children|
    ensures Render(path, Pairwise(children, i)) ==
            Render(path + "/" + Decimal(i), children[i]) + Render(path, Pairwise(children, i + 1))
  {
    RenderAppend(path, Prefix(Decimal(i), children[i]), Pairwise(children, i + 1));
    RenderPrefix(path, Decimal(i), children[i]);
    DecimalIsIndex(i);
    EscapeDigits(Decimal(i));
  }

  /** `diff(old, new)`: a patch that always applies and yields exactly the new value. */
  method ComputeDiff(a: Json, b: Json) returns (patch: seq<PatchOp>)
    ensures patch == DiffPatch(a, b)
    ensures ApplyPatch(a, patch) == Some(b)
    ensures patch == [] <==> a == b
  {
    var builder := new Builder();
    builder.DiffValue(a, b, "");
    patch := builder.ops;
    DiffPatchApplies(a, b);
    DiffPatchEmptyIffEqual(a, b);
  }
}
