/** The client's replica under the server's patches: when applying `diff(old, new)` in place gives `new`. */
module ClientSync {
  import opened Json
  import opened Pointer
  import opened JsonPatch
  import opened Diff
  import opened ClientPatch
  import Lcs

  // ------------------------------------------------------------------
  // A whole patch
  // ------------------------------------------------------------------

  /** The decoded frame: one operation per patch member, each value a tree of its own. */
  ghost predicate Delivered(h: Heap, t: Tree, patch: seq<PatchOp>, ops: seq<JsOp>, vals: seq<Tree>) {
    && |ops| == |patch| && |vals| == |patch|
    && (forall k :: 0 <= k < |patch| ==> ops[k].path == patch[k].path && Decodes(patch[k].action, ops[k].kind, ops[k].value, vals[k]))
    && (forall k :: 0 <= k < |patch| ==> Insertable(h, vals[k], Locs(t)))
    && (forall j, k :: 0 <= j < k < |patch| ==> Locs(vals[j]) !! Locs(vals[k]))
  }

  /** Every pointer goes below the root and past no prototype. */
  ghost predicate Usable(patch: seq<PatchOp>) {
    forall k :: 0 <= k < |patch| ==> ParsePath(patch[k].path) != [] && PROTO !in ParsePath(patch[k].path)
  }

  lemma DeliveredRest(h: Heap, h': Heap, t: Tree, t': Tree, patch: seq<PatchOp>, ops: seq<JsOp>, vals: seq<Tree>, where: Loc)
    requires patch != [] && Delivered(h, t, patch, ops, vals) && where in Locs(t)
    requires where in h' && h' == h[where := h'[where]] && Locs(t') <= Locs(t) + Locs(vals[0])
    ensures Delivered(h', t', patch[1..], ops[1..], vals[1..])
  {
    forall k | 1 <= k < |patch| ensures Insertable(h', vals[k], Locs(t')) {
      assert Insertable(h, vals[k], Locs(t)) && Locs(vals[0]) !! Locs(vals[k]);
      Frame(h, vals[k], where, h'[where]);
    }
  }

  /**
   * Main result: on any patch that RFC 6902 accepts and whose pointers are usable, the client throws
   * nowhere and its document, changed in place under the same root, is the RFC's result.
   */
  lemma {:induction false} PatchRefines(h: Heap, t: Tree, patch: seq<PatchOp>, ops: seq<JsOp>, vals: seq<Tree>) returns (t': Tree)
    requires Holds(h, t) && Sep(t) && Delivered(h, t, patch, ops, vals) && Usable(patch)
    requires ApplyPatch(Doc(t), patch).Some?
    ensures var done := JsApply(h, ValOf(t), ops);
            && done.Some? && Holds(done.value, t') && Sep(t') && ValOf(t') == ValOf(t)
            && Doc(t') == ApplyPatch(Doc(t), patch).value
    decreases |patch|
  {
    if patch == [] {
      t' := t;
    } else {
      var at := ParsePath(patch[0].path);
      var mid, where := OpRefines(h, t, at, patch[0].action, ops[0], vals[0]);
      var h' := JsApplyAt(h, ValOf(t), at, ops[0]).value;
      assert JsApplyOp(h, ValOf(t), ops[0]) == Some(h');
      DeliveredRest(h, h', t, mid, patch, ops, vals, where);
      t' := PatchRefines(h', mid, patch[1..], ops[1..], vals[1..]);
    }
  }

  // ------------------------------------------------------------------
  // Patches of diff
  // ------------------------------------------------------------------

  /** Is `x` a key of an object anywhere in the value? */
  ghost predicate HasKey(j: Json, x: string) {
    match j
    case Arr(items) => exists i :: 0 <= i < |items| && HasKey(items[i], x)
    case Obj(fields) => x in fields || exists k :: k in fields && HasKey(fields[k], x)
    case _ => false
  }

  /** No object anywhere in the value has the key that JavaScript treats as an accessor. */
  ghost predicate Plain(j: Json) { !HasKey(j, PROTO) }

  /** All reference tokens come from the set. */
  ghost predicate Within(ops: seq<TokenOp>, names: iset<string>) {
    forall k :: 0 <= k < |ops| ==> forall x :: x in ops[k].at ==> x in names
  }

  ghost predicate HasIndices(names: iset<string>) {
    forall i: nat :: Decimal(i) in names
  }

  lemma {:induction false} PrefixWithin(token: string, ops: seq<TokenOp>, names: iset<string>)
    requires token in names && Within(ops, names)
    ensures Within(Prefix(token, ops), names)
  {
    if ops != [] { PrefixWithin(token, ops[1..], names); }
  }

  lemma {:induction false} RemovalsWithin(keys: seq<string>, n: map<string, Json>, names: iset<string>)
    requires forall k :: k in keys ==> k in names
    ensures Within(Removals(keys, n), names)
  {
    if keys != [] {
      assert keys[0] in keys;
      RemovalsWithin(keys[1..], n, names);
    }
  }

  lemma {:induction false} UpsertsWithin(children: map<string, seq<TokenOp>>, n: map<string, Json>, keys: seq<string>, names: iset<string>)
    requires forall k :: k in keys ==> k in n && k in names
    requires forall k :: k in children ==> Within(children[k], names)
    ensures Within(Upserts(children, n, keys), names)
  {
    if keys != [] {
      assert keys[0] in keys;
      if keys[0] in children { PrefixWithin(keys[0], children[keys[0]], names); }
      UpsertsWithin(children, n, keys[1..], names);
    }
  }

  lemma {:induction false} PairwiseWithin(children: seq<seq<TokenOp>>, i: nat, names: iset<string>)
    requires i <= |children| && HasIndices(names) && forall k :: 0 <= k < |children| ==> Within(children[k], names)
    ensures Within(Pairwise(children, i), names)
    decreases |children| - i
  {
    if i < |children| {
      PrefixWithin(Decimal(i), children[i], names);
      PairwiseWithin(children, i + 1, names);
    }
  }

  lemma {:induction false} TruncateWithin(at: nat, count: nat, names: iset<string>)
    requires HasIndices(names)
    ensures Within(Truncate(at, count), names)
  {
    if count > 0 { TruncateWithin(at, count - 1, names); }
  }

  lemma {:induction false} AppendWithin(items: seq<Json>, at: nat, names: iset<string>)
    requires HasIndices(names)
    ensures Within(Append(items, at), names)
  {
    if items != [] { AppendWithin(items[1..], at + 1, names); }
  }

  lemma {:induction false} WalkWithin(a: seq<Json>, b: seq<Json>, cur: nat, names: iset<string>)
    requires HasIndices(names)
    ensures Within(Walk(a, b, cur), names)
    decreases |a| + |b|
  {
    if b == [] {
      TruncateWithin(cur, |a|, names);
    } else if a == [] {
      AppendWithin(b, cur, names);
    } else if a[0] == b[0] {
      WalkWithin(a[1..], b[1..], cur + 1, names);
    } else if Lcs.Length(a[1..], b) >= Lcs.Length(a, b[1..]) {
      WalkWithin(a[1..], b, cur, names);
    } else {
      WalkWithin(a, b[1..], cur + 1, names);
    }
  }

  lemma ArrayOpsWithin(children: seq<seq<TokenOp>>, a: seq<Json>, b: seq<Json>, names: iset<string>)
    requires HasIndices(names) && forall k :: 0 <= k < |children| ==> Within(children[k], names)
    ensures Within(ArrayOps(children, a, b), names)
  {
    var overlap := Overlap(a, b);
    PairwiseWithin(children, 0, names);
    TruncateWithin(overlap, |a| - overlap, names);
    AppendWithin(b[overlap..], overlap, names);
    WalkWithin(a, b, 0, names);
  }

  lemma {:induction false} DiffWithin(a: Json, b: Json, names: iset<string>)
    requires HasIndices(names) && forall x :: HasKey(a, x) || HasKey(b, x) ==> x in names
    ensures Within(DiffOps(a, b), names)
    decreases a
  {
    if a == b {
    } else if a.Obj? && b.Obj? {
      var o, n := a.fields, b.fields;
      forall k | k in o && k in n ensures Within(FieldDiffs(o, n)[k], names) {
        assert forall x :: HasKey(o[k], x) ==> HasKey(a, x);
        assert forall x :: HasKey(n[k], x) ==> HasKey(b, x);
        DiffWithin(o[k], n[k], names);
      }
      DiffOfObjects(o, n);
      assert forall k :: k in o ==> HasKey(a, k);
      assert forall k :: k in n ==> HasKey(b, k);
      RemovalsWithin(SortedKeys(o.Keys), n, names);
      UpsertsWithin(FieldDiffs(o, n), n, SortedKeys(n.Keys), names);
    } else if a.Arr? && b.Arr? {
      var o, n := a.items, b.items;
      forall i | 0 <= i < Overlap(o, n) ensures Within(ItemDiffs(o, n)[i], names) {
        assert forall x :: HasKey(o[i], x) ==> HasKey(a, x);
        assert forall x :: HasKey(n[i], x) ==> HasKey(b, x);
        DiffWithin(o[i], n[i], names);
      }
      DiffOfArrays(o, n);
      ArrayOpsWithin(ItemDiffs(o, n), o, n, names);
    }
  }

  ghost predicate IsName(a: Json, b: Json, x: string) { IsIndex(x) || HasKey(a, x) || HasKey(b, x) }

  lemma IndicesAreNames(a: Json, b: Json)
    ensures HasIndices(iset x | IsName(a, b, x))
  {
    forall i: nat ensures IsName(a, b, Decimal(i)) { DecimalIsIndex(i); }
  }

  /** The pointers of a diff are made of array indices and keys of the two values. */
  lemma DiffTokens(a: Json, b: Json, k: nat, x: string)
    requires k < |DiffOps(a, b)| && x in DiffOps(a, b)[k].at
    ensures IsIndex(x) || HasKey(a, x) || HasKey(b, x)
  {
    IndicesAreNames(a, b);
    DiffWithin(a, b, iset y | IsName(a, b, y));
  }

  lemma ProtoIsNoIndex()
    ensures !IsIndex(PROTO)
  {
    assert !IsDigit(PROTO[0]);
  }

  lemma {:induction false} RenderedPaths(ops: seq<TokenOp>, k: nat)
    requires k < |ops|
    ensures ParsePath(Render("", ops)[k].path) == ops[k].at
  {
    if k == 0 {
      assert "" + PrintPointer(ops[0].at) == PrintPointer(ops[0].at);
      ParsePointerRoundTrip(ops[0].at);
    } else {
      RenderedPaths(ops[1..], k - 1);
    }
  }

  predicate SameKind(a: Json, b: Json) { (a.Obj? && b.Obj?) || (a.Arr? && b.Arr?) }

  lemma DiffUsable(a: Json, b: Json)
    requires Plain(a) && Plain(b) && (a == b || SameKind(a, b))
    ensures Usable(DiffPatch(a, b))
  {
    var ops := DiffOps(a, b);
    if a != b { DiffBelowRoot(a, b); }
    forall k | 0 <= k < |ops| ensures ParsePath(DiffPatch(a, b)[k].path) == ops[k].at && PROTO !in ops[k].at {
      RenderedPaths(ops, k);
      ProtoIsNoIndex();
      if PROTO in ops[k].at { DiffTokens(a, b, k, PROTO); }
    }
  }

  /** No object in the heap has the accessor as a property of its own. */
  ghost predicate NoProto(h: Heap) {
    forall l :: l in h && h[l].JsObject? ==> PROTO !in h[l].own
  }

  /** The applier never creates one: assigning that key changes the prototype instead. */
  lemma {:induction false} ApplyKeepsNoProto(h: Heap, doc: JsValue, ops: seq<JsOp>)
    requires NoProto(h) && JsApply(h, doc, ops).Some?
    ensures NoProto(JsApply(h, doc, ops).value)
    decreases |ops|
  {
    if ops != [] { ApplyKeepsNoProto(JsApplyOp(h, doc, ops[0]).value, doc, ops[1..]); }
  }

  lemma {:induction false} HeldIsPlain(h: Heap, t: Tree)
    requires Holds(h, t) && NoProto(h)
    ensures Plain(Doc(t))
    decreases t
  {
    match t
    case Leaf(_) =>
    case ArrNode(_, kids) =>
      forall i | 0 <= i < |kids| ensures Plain(Doc(kids[i])) { HeldIsPlain(h, kids[i]); }
    case ObjNode(loc, fields) =>
      assert PROTO !in Own(fields);
      forall k | k in fields ensures Plain(Doc(fields[k])) { HeldIsPlain(h, fields[k]); }
  }

  /** The client ends up with `b` at the root it started from, and does not throw. */
  ghost predicate Reaches(h: Heap, t: Tree, ops: seq<JsOp>, b: Json) {
    var done := JsApply(h, ValOf(t), ops);
    done.Some? && exists t' :: Holds(done.value, t') && ValOf(t') == ValOf(t) && Doc(t') == b
  }

  /** A container stays an object, or an array, whatever is applied to it. */
  lemma {:induction false} RootKindStays(h: Heap, root: JsValue, ops: seq<JsOp>)
    requires root.Ref? && root.loc in h && JsApply(h, root, ops).Some?
    ensures var done := JsApply(h, root, ops).value;
            root.loc in done && (done[root.loc].JsArray? <==> h[root.loc].JsArray?)
    decreases |ops|
  {
    if ops != [] {
      RootKindStays(JsApplyOp(h, root, ops[0]).value, root, ops[1..]);
    }
  }

  lemma ReplacedRootMissed(h: Heap, t: Tree, b: Json, ops: seq<JsOp>, vals: seq<Tree>)
    requires Holds(h, t) && Doc(t) != b && !SameKind(Doc(t), b) && Delivered(h, t, DiffPatch(Doc(t), b), ops, vals)
    ensures !Reaches(h, t, ops, b)
  {
    var a := Doc(t);
    assert DiffOps(a, b) == [TokenOp([], Replace(b))];
    assert Render("", DiffOps(a, b)[1..]) == [];
    RenderedPaths(DiffOps(a, b), 0);
    if t.Leaf? {
      assert JsApplyOp(h, ValOf(t), ops[0]).None?;
    } else if JsApply(h, ValOf(t), ops).Some? {
      RootKindStays(h, ValOf(t), ops);
    }
  }

  /**
   * The client follows a patch of the server exactly when nothing changed or the two states are both
   * objects or both arrays, and the new state has no `__proto__` key: a root replacement and an
   * assignment to that key are the two patches it cannot apply.
   */
  lemma ClientFollowsIff(h: Heap, t: Tree, b: Json, ops: seq<JsOp>, vals: seq<Tree>)
    requires Holds(h, t) && Sep(t) && NoProto(h) && Delivered(h, t, DiffPatch(Doc(t), b), ops, vals)
    ensures Reaches(h, t, ops, b) <==> (Doc(t) == b || SameKind(Doc(t), b)) && Plain(b)
  {
    var a := Doc(t);
    HeldIsPlain(h, t);
    if !(a == b || SameKind(a, b)) {
      ReplacedRootMissed(h, t, b, ops, vals);
    } else if Plain(b) {
      DiffUsable(a, b);
      DiffPatchApplies(a, b);
      var t' := PatchRefines(h, t, DiffPatch(a, b), ops, vals);
    } else if Reaches(h, t, ops, b) {
      var done := JsApply(h, ValOf(t), ops).value;
      var t' :| Holds(done, t') && ValOf(t') == ValOf(t) && Doc(t') == b;
      ApplyKeepsNoProto(h, ValOf(t), ops);
      HeldIsPlain(done, t');
    }
  }
}
