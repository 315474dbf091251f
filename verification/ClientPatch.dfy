/**
 * The in-place patch applier of the TypeScript client, over an explicit heap of arrays and objects,
 * and its refinement of RFC 6902.
 */
module ClientPatch {
  import opened Json
  import opened Pointer
  import opened JsonPatch

  // ------------------------------------------------------------------
  // The heap
  // ------------------------------------------------------------------

  type Loc = nat

  datatype JsValue = Undefined | Prim(j: Json) | Ref(loc: Loc)

  datatype Shape = JsArray(elems: seq<JsValue>) | JsObject(own: map<string, JsValue>)

  type Heap = map<Loc, Shape>

  /** Assigning this key sets the prototype and creates no property. */
  const PROTO: string := "__proto__"

  /** `Number(seg)`, for digits; anything else is taken as NaN. */
  function JsNumber(seg: string): Option<nat> {
    if AllDigits(seg) then Some(DigitsValue(seg)) else None
  }

  /** `parent[key]`. */
  function Member(h: Heap, v: JsValue, seg: string): JsValue {
    if !v.Ref? || v.loc !in h then Undefined
    else
      match h[v.loc]
      case JsArray(es) =>
        var n := JsNumber(seg);
        if n.Some? && n.value < |es| then es[n.value] else Undefined
      case JsObject(own) => if seg in own then own[seg] else Undefined
  }

  /** `splice(start, count, ...items)`: NaN counts as 0, and both ends are clamped. */
  function Splice(es: seq<JsValue>, start: Option<nat>, count: nat, items: seq<JsValue>): seq<JsValue> {
    var from := if start.None? then 0 else if start.value < |es| then start.value else |es|;
    var upto := if from + count < |es| then from + count else |es|;
    es[..from] + items + es[upto..]
  }

  datatype OpKind = AddOp | ReplaceOp | RemoveOp

  /** A decoded patch member; the value of a `remove` is undefined. */
  datatype JsOp = JsOp(path: string, kind: OpKind, value: JsValue)

  /** Walk to the parent; `None` is the thrown error. */
  function JsWalk(h: Heap, v: JsValue, segs: seq<string>): Option<JsValue>
    decreases |segs|
  {
    if segs == [] then Some(v)
    else
      var next := Member(h, v, segs[0]);
      if next.Undefined? || next == Prim(Null) then None else JsWalk(h, next, segs[1..])
  }

  /** The key of an array operation. */
  function ArrayKey(es: seq<JsValue>, last: Option<string>): Option<nat> {
    if last.None? then None
    else if last.value == "-" then Some(|es|)
    else JsNumber(last.value)
  }

  /** The `switch` of the loop body; `last` is missing for the empty pointer. */
  function Mutated(h: Heap, parent: JsValue, last: Option<string>, op: JsOp): Option<Heap> {
    if parent.Ref? && parent.loc in h then
      (match h[parent.loc]
       case JsArray(es) =>
         var key := ArrayKey(es, last);
         Some(h[parent.loc := JsArray(
                  match op.kind
                  case AddOp => Splice(es, key, 0, [op.value])
                  case ReplaceOp => Splice(es, key, 1, [op.value])
                  case RemoveOp => Splice(es, key, 1, []))])
       case JsObject(own) =>
         var key := if last.Some? then last.value else "undefined";
         if op.kind.RemoveOp? then Some(h[parent.loc := JsObject(own - {key})])
         else if key == PROTO then Some(h)
         else Some(h[parent.loc := JsObject(own[key := op.value])]))
    else if op.kind.RemoveOp? && parent.Prim? && parent.j != Null then Some(h)
    else None
  }

  function JsApplyOp(h: Heap, doc: JsValue, op: JsOp): Option<Heap> {
    var segs := ParsePath(op.path);
    var n := |segs|;
    var parent := JsWalk(h, doc, if n == 0 then [] else segs[..n - 1]);
    if parent.None? then None
    else Mutated(h, parent.value, if n == 0 then None else Some(segs[n - 1]), op)
  }

  function JsApply(h: Heap, doc: JsValue, ops: seq<JsOp>): Option<Heap>
    decreases |ops|
  {
    if ops == [] then Some(h)
    else
      var next := JsApplyOp(h, doc, ops[0]);
      if next.None? then None else JsApply(next.value, doc, ops[1..])
  }

  /** The applier itself: it walks a `parent` variable and changes the heap. */
  class Applier {
    var heap: Heap

    constructor (h: Heap)
      ensures heap == h
    {
      heap := h;
    }

    method ApplyOp(doc: JsValue, op: JsOp) returns (ok: bool)
      modifies this
      ensures ok <==> JsApplyOp(old(heap), doc, op).Some?
      ensures heap == if ok then JsApplyOp(old(heap), doc, op).value else old(heap)
    {
      var segments := ParsePath(op.path);
      var parent := doc;
      ghost var way := if |segments| == 0 then [] else segments[..|segments| - 1];
      var i := 0;
      while i < |segments| - 1
        invariant 0 <= i <= |way| && heap == old(heap)
        invariant JsWalk(heap, parent, way[i..]) == JsWalk(heap, doc, way)
      {
        assert way[i..][0] == segments[i] && way[i..][1..] == way[i + 1..];
        parent := Member(heap, parent, segments[i]);
        if parent.Undefined? || parent == Prim(Null) {
          return false;
        }
        i := i + 1;
      }
      var last := if |segments| == 0 then None else Some(segments[|segments| - 1]);
      ok := Mutate(parent, last, op);
    }

    /** The `switch` over the operation. */
    method Mutate(parent: JsValue, last: Option<string>, op: JsOp) returns (ok: bool)
      modifies this
      ensures ok <==> Mutated(old(heap), parent, last, op).Some?
      ensures heap == if ok then Mutated(old(heap), parent, last, op).value else old(heap)
    {
      if !parent.Ref? || parent.loc !in heap {
        return op.kind.RemoveOp? && parent.Prim? && parent.j != Null;
      }
      match heap[parent.loc]
      case JsArray(es) =>
        var key := ArrayKey(es, last);
        match op.kind {
          case AddOp => heap := heap[parent.loc := JsArray(Splice(es, key, 0, [op.value]))];
          case ReplaceOp => heap := heap[parent.loc := JsArray(Splice(es, key, 1, [op.value]))];
          case RemoveOp => heap := heap[parent.loc := JsArray(Splice(es, key, 1, []))];
        }
        return true;
      case JsObject(own) =>
        var key := if last.Some? then last.value else "undefined";
        if op.kind.RemoveOp? {
          heap := heap[parent.loc := JsObject(own - {key})];
        } else if key != PROTO {
          heap := heap[parent.loc := JsObject(own[key := op.value])];
        }
        return true;
    }

    /** `applyPatch`: on an error the operations before it stay applied; `applied` counts them. */
    method ApplyPatch(doc: JsValue, ops: seq<JsOp>) returns (ok: bool, applied: nat)
      modifies this
      ensures ok <==> JsApply(old(heap), doc, ops).Some?
      ensures ok ==> heap == JsApply(old(heap), doc, ops).value
      ensures applied <= |ops| && JsApply(old(heap), doc, ops[..applied]) == Some(heap)
      ensures if ok then applied == |ops| else applied < |ops| && JsApplyOp(heap, doc, ops[applied]).None?
    {
      applied := 0;
      while applied < |ops|
        invariant applied <= |ops|
        invariant JsApply(old(heap), doc, ops[..applied]) == Some(heap)
        invariant JsApply(heap, doc, ops[applied..]) == JsApply(old(heap), doc, ops)
      {
        assert ops[applied..][0] == ops[applied] && ops[applied..][1..] == ops[applied + 1..];
        JsApplyOneMore(old(heap), doc, ops, applied);
        ok := ApplyOp(doc, ops[applied]);
        if !ok {
          return;
        }
        applied := applied + 1;
      }
      assert ops[..applied] == ops;
      return true, applied;
    }
  }

  lemma {:induction false} JsApplyOneMore(h: Heap, doc: JsValue, ops: seq<JsOp>, n: nat)
    requires n < |ops| && JsApply(h, doc, ops[..n]).Some?
    ensures JsApply(h, doc, ops[..n + 1]) == JsApplyOp(JsApply(h, doc, ops[..n]).value, doc, ops[n])
    decreases n
  {
    if n > 0 {
      assert ops[..n][1..] == ops[1..][..n - 1] && ops[..n + 1][1..] == ops[1..][..n];
      JsApplyOneMore(JsApplyOp(h, doc, ops[0]).value, doc, ops[1..], n - 1);
    } else {
      assert ops[..1][1..] == [];
    }
  }

  // ------------------------------------------------------------------
  // What the heap represents
  // ------------------------------------------------------------------

  /** A JSON value laid out in the heap, every container at its own location. */
  datatype Tree = Leaf(j: Json) | ArrNode(loc: Loc, kids: seq<Tree>) | ObjNode(loc: Loc, fields: map<string, Tree>)

  function Doc(t: Tree): Json {
    match t
    case Leaf(j) => j
    case ArrNode(_, kids) => Arr(seq(|kids|, i requires 0 <= i < |kids| => Doc(kids[i])))
    case ObjNode(_, fields) => Obj(map k | k in fields :: Doc(fields[k]))
  }

  function ValOf(t: Tree): JsValue { if t.Leaf? then Prim(t.j) else Ref(t.loc) }

  function Elems(kids: seq<Tree>): (es: seq<JsValue>)
    ensures |es| == |kids| && forall i :: 0 <= i < |es| ==> es[i] == ValOf(kids[i])
  {
    seq(|kids|, i requires 0 <= i < |kids| => ValOf(kids[i]))
  }

  function Own(fields: map<string, Tree>): map<string, JsValue> { map k | k in fields :: ValOf(fields[k]) }

  ghost function Locs(t: Tree): set<Loc> {
    match t
    case Leaf(_) => {}
    case ArrNode(loc, kids) => {loc} + KidLocs(kids)
    case ObjNode(loc, fields) => {loc} + (set k, l | k in fields && l in Locs(fields[k]) :: l)
  }

  ghost function KidLocs(kids: seq<Tree>): set<Loc> {
    set i, l | 0 <= i < |kids| && l in Locs(kids[i]) :: l
  }

  /** No container is shared: the document is a tree. */
  ghost predicate Sep(t: Tree) {
    match t
    case Leaf(_) => true
    case ArrNode(loc, kids) =>
      && (forall i :: 0 <= i < |kids| ==> Sep(kids[i]) && loc !in Locs(kids[i]))
      && (forall i, j :: 0 <= i < j < |kids| ==> Locs(kids[i]) !! Locs(kids[j]))
    case ObjNode(loc, fields) =>
      && (forall k :: k in fields ==> Sep(fields[k]) && loc !in Locs(fields[k]))
      && (forall k, l :: k in fields && l in fields && k != l ==> Locs(fields[k]) !! Locs(fields[l]))
  }

  /** The heap holds exactly this tree at its locations. */
  ghost predicate Holds(h: Heap, t: Tree) {
    match t
    case Leaf(j) => !j.Arr? && !j.Obj?
    case ArrNode(loc, kids) =>
      && loc in h && h[loc] == JsArray(Elems(kids))
      && (forall i :: 0 <= i < |kids| ==> Holds(h, kids[i]))
    case ObjNode(loc, fields) =>
      && loc in h && h[loc] == JsObject(Own(fields))
      && (forall k :: k in fields ==> Holds(h, fields[k]))
  }

  /** Writing elsewhere does not change what a tree represents. */
  lemma {:induction false} Frame(h: Heap, t: Tree, at: Loc, shape: Shape)
    requires Holds(h, t) && at !in Locs(t)
    ensures Holds(h[at := shape], t)
    decreases t
  {
    match t
    case Leaf(_) =>
    case ArrNode(loc, kids) =>
      forall i | 0 <= i < |kids| ensures Holds(h[at := shape], kids[i]) { Frame(h, kids[i], at, shape); }
    case ObjNode(loc, fields) =>
      forall k | k in fields ensures Holds(h[at := shape], fields[k]) { Frame(h, fields[k], at, shape); }
  }

  // ------------------------------------------------------------------
  // One step down
  // ------------------------------------------------------------------

  function KidAt(t: Tree, token: string): Option<Tree> {
    match t
    case Leaf(_) => None
    case ArrNode(_, kids) =>
      var i := ElementIndex(|kids|, token);
      if i.Some? then Some(kids[i.value]) else None
    case ObjNode(_, fields) => if token in fields then Some(fields[token]) else None
  }

  function Plug(t: Tree, token: string, kid: Tree): Tree
    requires KidAt(t, token).Some?
  {
    match t
    case ArrNode(loc, kids) => ArrNode(loc, kids[ElementIndex(|kids|, token).value := kid])
    case ObjNode(loc, fields) => ObjNode(loc, fields[token := kid])
  }

  lemma KidDoc(t: Tree, token: string)
    requires !t.Leaf?
    ensures Child(Doc(t), token).Some? <==> KidAt(t, token).Some?
    ensures KidAt(t, token).Some? ==> Child(Doc(t), token) == Some(Doc(KidAt(t, token).value))
  {
  }

  lemma PlugDoc(t: Tree, token: string, kid: Tree)
    requires KidAt(t, token).Some?
    ensures Child(Doc(t), token).Some? && Doc(Plug(t, token, kid)) == WithChild(Doc(t), token, Doc(kid))
  {
    KidDoc(t, token);
    if t.ArrNode? {
      assert Doc(Plug(t, token, kid)).items == WithChild(Doc(t), token, Doc(kid)).items;
    } else {
      assert Doc(Plug(t, token, kid)).fields == WithChild(Doc(t), token, Doc(kid)).fields;
    }
  }

  /** The client's property access follows the RFC's evaluation. */
  lemma KidMember(h: Heap, t: Tree, token: string)
    requires Holds(h, t) && KidAt(t, token).Some?
    ensures Member(h, ValOf(t), token) == ValOf(KidAt(t, token).value)
  {
  }

  lemma PlugHoldsArray(h: Heap, t: Tree, i: nat, kid: Tree, at: Loc, shape: Shape)
    requires t.ArrNode? && Holds(h, t) && Sep(t) && i < |t.kids| && at in Locs(t.kids[i])
    requires Holds(h[at := shape], kid) && ValOf(kid) == ValOf(t.kids[i])
    ensures Holds(h[at := shape], ArrNode(t.loc, t.kids[i := kid]))
  {
    var kids := t.kids[i := kid];
    assert Elems(kids) == Elems(t.kids);
    forall j | 0 <= j < |kids| ensures Holds(h[at := shape], kids[j]) {
      if j != i { Frame(h, t.kids[j], at, shape); }
    }
  }

  lemma PlugHoldsObject(h: Heap, t: Tree, token: string, kid: Tree, at: Loc, shape: Shape)
    requires t.ObjNode? && Holds(h, t) && Sep(t) && token in t.fields && at in Locs(t.fields[token])
    requires Holds(h[at := shape], kid) && ValOf(kid) == ValOf(t.fields[token])
    ensures Holds(h[at := shape], ObjNode(t.loc, t.fields[token := kid]))
  {
    var fields := t.fields[token := kid];
    assert Own(fields) == Own(t.fields);
    forall k | k in fields ensures Holds(h[at := shape], fields[k]) {
      if k != token { Frame(h, t.fields[k], at, shape); }
    }
  }

  /** A container written inside a kid leaves the rest of the tree as it was. */
  lemma PlugHolds(h: Heap, t: Tree, token: string, kid: Tree, at: Loc, shape: Shape)
    requires Holds(h, t) && Sep(t) && KidAt(t, token).Some? && at in Locs(KidAt(t, token).value)
    requires Holds(h[at := shape], kid) && ValOf(kid) == ValOf(KidAt(t, token).value)
    ensures Holds(h[at := shape], Plug(t, token, kid)) && at in Locs(t)
  {
    if t.ArrNode? {
      PlugHoldsArray(h, t, ElementIndex(|t.kids|, token).value, kid, at, shape);
    } else {
      PlugHoldsObject(h, t, token, kid, at, shape);
    }
  }

  lemma PlugSep(t: Tree, token: string, kid: Tree, extra: set<Loc>)
    requires Sep(t) && KidAt(t, token).Some? && Sep(kid)
    requires Locs(kid) <= Locs(KidAt(t, token).value) + extra && extra !! Locs(t)
    ensures Sep(Plug(t, token, kid)) && Locs(Plug(t, token, kid)) <= Locs(t) + extra
  {
  }

  // ------------------------------------------------------------------
  // One member changed
  // ------------------------------------------------------------------

  function KindOf(action: Action): OpKind {
    match action
    case Add(_) => AddOp
    case Replace(_) => ReplaceOp
    case Remove => RemoveOp
  }

  /** The decoded operation of an action: its value, if any, is the tree `v` in the heap. */
  ghost predicate Decodes(action: Action, kind: OpKind, value: JsValue, v: Tree) {
    kind == KindOf(action) && (action.Remove? || (value == ValOf(v) && action.value == Doc(v)))
  }

  /** A value that may be put into a tree: its own containers, held by the heap. */
  ghost predicate Insertable(h: Heap, v: Tree, locs: set<Loc>) { Holds(h, v) && Sep(v) && Locs(v) !! locs }

  /** Every kid is an old one, still apart from the others, or the new one. */
  lemma RebuiltArray(h: Heap, loc: Loc, kids: seq<Tree>, next: seq<Tree>, v: Tree, from: seq<int>)
    requires Holds(h, ArrNode(loc, kids)) && Sep(ArrNode(loc, kids))
    requires |from| == |next| && Distinct(from)
    requires forall j :: 0 <= j < |next| ==> -1 <= from[j] < |kids| && next[j] == if from[j] == -1 then v else kids[from[j]]
    requires (exists j :: 0 <= j < |from| && from[j] == -1) ==> Insertable(h, v, Locs(ArrNode(loc, kids)))
    ensures var h' := h[loc := JsArray(Elems(next))];
            && Holds(h', ArrNode(loc, next)) && Sep(ArrNode(loc, next))
            && Locs(ArrNode(loc, next)) <= Locs(ArrNode(loc, kids)) + Locs(v)
  {
    var h' := h[loc := JsArray(Elems(next))];
    forall j | 0 <= j < |next| ensures Holds(h', next[j]) && Sep(next[j]) && loc !in Locs(next[j]) {
      if from[j] == -1 {
        Frame(h, v, loc, JsArray(Elems(next)));
      } else {
        Frame(h, kids[from[j]], loc, JsArray(Elems(next)));
      }
    }
    forall i, j | 0 <= i < j < |next| ensures Locs(next[i]) !! Locs(next[j]) {
      assert from[i] != from[j];
      KidsApart(loc, kids, from[i], from[j]);
    }
  }

  lemma KidsApart(loc: Loc, kids: seq<Tree>, i: int, j: int)
    requires Sep(ArrNode(loc, kids)) && i != j
    ensures 0 <= i < |kids| && 0 <= j < |kids| ==> Locs(kids[i]) !! Locs(kids[j])
    ensures 0 <= i < |kids| ==> Locs(kids[i]) <= Locs(ArrNode(loc, kids))
    ensures 0 <= j < |kids| ==> Locs(kids[j]) <= Locs(ArrNode(loc, kids))
  {
  }

  lemma InsertReads(kids: seq<Tree>, i: nat, v: Tree, loc: Loc)
    requires i <= |kids|
    ensures Elems(InsertAt(kids, i, v)) == Splice(Elems(kids), Some(i), 0, [ValOf(v)])
    ensures Doc(ArrNode(loc, InsertAt(kids, i, v))).items == InsertAt(Doc(ArrNode(loc, kids)).items, i, Doc(v))
  {
  }

  lemma InsertKid(h: Heap, loc: Loc, kids: seq<Tree>, i: nat, v: Tree)
    requires Holds(h, ArrNode(loc, kids)) && Sep(ArrNode(loc, kids)) && i <= |kids|
    requires Insertable(h, v, Locs(ArrNode(loc, kids)))
    ensures var next := InsertAt(kids, i, v);
            && Holds(h[loc := JsArray(Elems(next))], ArrNode(loc, next)) && Sep(ArrNode(loc, next))
            && Locs(ArrNode(loc, next)) <= Locs(ArrNode(loc, kids)) + Locs(v)
  {
    var next := InsertAt(kids, i, v);
    var from := seq(|next|, j => if j < i then j else if j == i then -1 else j - 1);
    RebuiltArray(h, loc, kids, next, v, from);
  }

  lemma ReplaceKid(h: Heap, loc: Loc, kids: seq<Tree>, i: nat, v: Tree)
    requires Holds(h, ArrNode(loc, kids)) && Sep(ArrNode(loc, kids)) && i < |kids|
    requires Insertable(h, v, Locs(ArrNode(loc, kids)))
    ensures var next := kids[i := v];
            && Elems(next) == Splice(Elems(kids), Some(i), 1, [ValOf(v)])
            && Doc(ArrNode(loc, next)) == Arr(Doc(ArrNode(loc, kids)).items[i := Doc(v)])
            && Holds(h[loc := JsArray(Elems(next))], ArrNode(loc, next)) && Sep(ArrNode(loc, next))
            && Locs(ArrNode(loc, next)) <= Locs(ArrNode(loc, kids)) + Locs(v)
  {
    var next := kids[i := v];
    var from := seq(|next|, j => if j == i then -1 else j);
    RebuiltArray(h, loc, kids, next, v, from);
  }

  lemma RemoveReads(kids: seq<Tree>, i: nat, loc: Loc)
    requires i < |kids|
    ensures Elems(RemoveAt(kids, i)) == Splice(Elems(kids), Some(i), 1, [])
    ensures Doc(ArrNode(loc, RemoveAt(kids, i))).items == RemoveAt(Doc(ArrNode(loc, kids)).items, i)
  {
  }

  lemma RemoveKid(h: Heap, loc: Loc, kids: seq<Tree>, i: nat)
    requires Holds(h, ArrNode(loc, kids)) && Sep(ArrNode(loc, kids)) && i < |kids|
    ensures var next := RemoveAt(kids, i);
            && Holds(h[loc := JsArray(Elems(next))], ArrNode(loc, next)) && Sep(ArrNode(loc, next))
            && Locs(ArrNode(loc, next)) <= Locs(ArrNode(loc, kids))
  {
    var next := RemoveAt(kids, i);
    var from := seq(|next|, j => if j < i then j else j + 1);
    RebuiltArray(h, loc, kids, next, Leaf(Null), from);
  }

  lemma SetField(h: Heap, loc: Loc, fields: map<string, Tree>, key: string, v: Tree)
    requires Holds(h, ObjNode(loc, fields)) && Sep(ObjNode(loc, fields)) && key != PROTO
    requires Insertable(h, v, Locs(ObjNode(loc, fields)))
    ensures var next := fields[key := v];
            && Own(next) == Own(fields)[key := ValOf(v)]
            && Doc(ObjNode(loc, next)) == Obj(Doc(ObjNode(loc, fields)).fields[key := Doc(v)])
            && Holds(h[loc := JsObject(Own(next))], ObjNode(loc, next)) && Sep(ObjNode(loc, next))
            && Locs(ObjNode(loc, next)) <= Locs(ObjNode(loc, fields)) + Locs(v)
  {
    var next := fields[key := v];
    forall k | k in next ensures Holds(h[loc := JsObject(Own(next))], next[k]) {
      Frame(h, next[k], loc, JsObject(Own(next)));
    }
    FieldsWithin(loc, fields);
  }

  lemma FieldsWithin(loc: Loc, fields: map<string, Tree>)
    ensures forall k :: k in fields ==> Locs(fields[k]) <= Locs(ObjNode(loc, fields))
  {
  }

  lemma DropField(h: Heap, loc: Loc, fields: map<string, Tree>, key: string)
    requires Holds(h, ObjNode(loc, fields)) && Sep(ObjNode(loc, fields))
    ensures var next := fields - {key};
            && Own(next) == Own(fields) - {key}
            && Doc(ObjNode(loc, next)) == Obj(Doc(ObjNode(loc, fields)).fields - {key})
            && Holds(h[loc := JsObject(Own(next))], ObjNode(loc, next)) && Sep(ObjNode(loc, next))
            && Locs(ObjNode(loc, next)) <= Locs(ObjNode(loc, fields))
  {
    var next := fields - {key};
    forall k | k in next ensures Holds(h[loc := JsObject(Own(next))], next[k]) {
      Frame(h, next[k], loc, JsObject(Own(next)));
    }
  }

  /** The heap and the tree after one operation: only the parent's location was written. */
  ghost predicate Refined(h: Heap, h': Heap, t: Tree, t': Tree, result: Json, extra: set<Loc>) {
    && Holds(h', t') && Sep(t') && ValOf(t') == ValOf(t) && Doc(t') == result
    && Locs(t') <= Locs(t) + extra && h.Keys <= h'.Keys
    && (forall l :: l in h && l !in Locs(t) ==> h'[l] == h[l])
  }

  /** The step at the parent: `splice`, assignment and `delete` do what sections 4.1 to 4.3 of RFC 6902 say. */
  lemma MemberRefines(h: Heap, t: Tree, token: string, action: Action, op: JsOp, v: Tree) returns (t': Tree)
    requires Holds(h, t) && Sep(t) && !t.Leaf? && token != PROTO
    requires Decodes(action, op.kind, op.value, v) && (!action.Remove? ==> Insertable(h, v, Locs(t)))
    requires ApplyMember(Doc(t), token, action).Some?
    ensures var m := Mutated(h, ValOf(t), Some(token), op);
            && m.Some? && m.value == h[t.loc := m.value[t.loc]]
            && Refined(h, m.value, t, t', ApplyMember(Doc(t), token, action).value, if action.Remove? then {} else Locs(v))
  {
    if t.ArrNode? {
      match action
      case Add(_) =>
        var i := InsertIndex(|t.kids|, token).value;
        InsertReads(t.kids, i, v, t.loc);
        InsertKid(h, t.loc, t.kids, i, v);
        t' := ArrNode(t.loc, InsertAt(t.kids, i, v));
      case Replace(_) =>
        var i := ElementIndex(|t.kids|, token).value;
        ReplaceKid(h, t.loc, t.kids, i, v);
        t' := ArrNode(t.loc, t.kids[i := v]);
      case Remove =>
        var i := ElementIndex(|t.kids|, token).value;
        RemoveReads(t.kids, i, t.loc);
        RemoveKid(h, t.loc, t.kids, i);
        t' := ArrNode(t.loc, RemoveAt(t.kids, i));
    } else if action.Remove? {
      DropField(h, t.loc, t.fields, token);
      t' := ObjNode(t.loc, t.fields - {token});
    } else {
      SetField(h, t.loc, t.fields, token, v);
      t' := ObjNode(t.loc, t.fields[token := v]);
    }
  }

  // ------------------------------------------------------------------
  // One operation, then a whole patch
  // ------------------------------------------------------------------

  /** The walk and the step together, on split pointers. */
  function JsApplyAt(h: Heap, v: JsValue, at: seq<string>, op: JsOp): Option<Heap>
    requires at != []
  {
    var parent := JsWalk(h, v, at[..|at| - 1]);
    if parent.None? then None else Mutated(h, parent.value, Some(at[|at| - 1]), op)
  }

  lemma WalkDown(h: Heap, v: JsValue, at: seq<string>, op: JsOp, next: JsValue)
    requires |at| > 1 && Member(h, v, at[0]) == next && !next.Undefined? && next != Prim(Null)
    ensures JsApplyAt(h, v, at, op) == JsApplyAt(h, next, at[1..], op)
  {
    assert at[..|at| - 1][1..] == at[1..][..|at| - 2];
  }

  /**
   * One operation below the root: if RFC 6902 accepts it, the client does not throw, writes one
   * container of the document, and ends up with the RFC's result at the same root.
   */
  lemma {:induction false} OpRefines(h: Heap, t: Tree, at: seq<string>, action: Action, op: JsOp, v: Tree) returns (t': Tree, where: Loc)
    requires Holds(h, t) && Sep(t) && at != [] && PROTO !in at
    requires Decodes(action, op.kind, op.value, v) && (!action.Remove? ==> Insertable(h, v, Locs(t)))
    requires ApplyAt(Doc(t), at, action).Some?
    ensures var m := JsApplyAt(h, ValOf(t), at, op);
            && m.Some? && where in Locs(t) && where in m.value && m.value == h[where := m.value[where]]
            && Refined(h, m.value, t, t', ApplyAt(Doc(t), at, action).value, if action.Remove? then {} else Locs(v))
    decreases |at|
  {
    if |at| == 1 {
      t' := MemberRefines(h, t, at[0], action, op, v);
      where := t.loc;
    } else {
      KidDoc(t, at[0]);
      var kid := KidAt(t, at[0]).value;
      KidMember(h, t, at[0]);
      KidWithin(t, at[0]);
      KidIsContainer(kid, at[1..], action);
      var kid';
      kid', where := OpRefines(h, kid, at[1..], action, op, v);
      WalkDown(h, ValOf(t), at, op, ValOf(kid));
      var m := JsApplyAt(h, ValOf(t), at, op).value;
      PlugHolds(h, t, at[0], kid', where, m[where]);
      PlugSep(t, at[0], kid', if action.Remove? then {} else Locs(v));
      PlugDoc(t, at[0], kid');
      t' := Plug(t, at[0], kid');
    }
  }

  lemma KidWithin(t: Tree, token: string)
    requires KidAt(t, token).Some?
    ensures Locs(KidAt(t, token).value) <= Locs(t)
    ensures forall h :: Holds(h, t) ==> Holds(h, KidAt(t, token).value)
    ensures Sep(t) ==> Sep(KidAt(t, token).value)
  {
  }

  /** An operation inside a value is only accepted when the value is a container. */
  lemma KidIsContainer(kid: Tree, at: seq<string>, action: Action)
    requires at != [] && ApplyAt(Doc(kid), at, action).Some?
    ensures kid.Leaf? ==> kid.j.Arr? || kid.j.Obj?
  {
  }
}
