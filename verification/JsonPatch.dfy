/** RFC 6902 patch application, restricted to the three operations the library emits. */
module JsonPatch {
  import opened Json
  import opened Pointer

  datatype Action = Add(value: Json) | Remove | Replace(value: Json)

  /** One member of a patch document. */
  datatype PatchOp = PatchOp(path: string, action: Action)

  /** An operation whose pointer has been split into reference tokens. */
  datatype TokenOp = TokenOp(at: seq<string>, action: Action)

  // ------------------------------------------------------------------
  // Sections 4.1, 4.2 and 4.3 of RFC 6902
  // ------------------------------------------------------------------

  function InsertAt<T>(s: seq<T>, i: nat, x: T): seq<T>
    requires i <= |s|
  {
    s[..i] + [x] + s[i..]
  }

  function RemoveAt<T>(s: seq<T>, i: nat): seq<T>
    requires i < |s|
  {
    s[..i] + s[i + 1..]
  }

  /** The array element a token refers to, if any. */
  function ElementIndex(length: nat, token: string): (i: Option<nat>)
    ensures i.Some? ==> i.value < length
  {
    if IsIndex(token) && DigitsValue(token) < length then Some(DigitsValue(token)) else None
  }

  /** Where `add` inserts: an index up to the length, or "-" for the end. */
  function InsertIndex(length: nat, token: string): (i: Option<nat>)
    ensures i.Some? ==> i.value <= length
  {
    if token == "-" then Some(length)
    else if IsIndex(token) && DigitsValue(token) <= length then Some(DigitsValue(token))
    else None
  }

  /** Apply an action to the member `token` of a container. `None` is the RFC's error. */
  function ApplyMember(doc: Json, token: string, action: Action): Option<Json> {
    match doc
    case Obj(m) =>
      (match action
       case Add(v) => Some(Obj(m[token := v]))
       case Replace(v) => if token in m then Some(Obj(m[token := v])) else None
       case Remove => if token in m then Some(Obj(m - {token})) else None)
    case Arr(xs) =>
      (match action
       case Add(v) =>
         var i := InsertIndex(|xs|, token);
         if i.Some? then Some(Arr(InsertAt(xs, i.value, v))) else None
       case Replace(v) =>
         var i := ElementIndex(|xs|, token);
         if i.Some? then Some(Arr(xs[i.value := v])) else None
       case Remove =>
         var i := ElementIndex(|xs|, token);
         if i.Some? then Some(Arr(RemoveAt(xs, i.value))) else None)
    case _ => None
  }

  function Child(doc: Json, token: string): Option<Json> {
    match doc
    case Obj(m) => if token in m then Some(m[token]) else None
    case Arr(xs) =>
      var i := ElementIndex(|xs|, token);
      if i.Some? then Some(xs[i.value]) else None
    case _ => None
  }

  function WithChild(doc: Json, token: string, child: Json): Json
    requires Child(doc, token).Some?
  {
    match doc
    case Obj(m) => Obj(m[token := child])
    case Arr(xs) => Arr(xs[ElementIndex(|xs|, token).value := child])
  }

  /** Removing the whole document is given no meaning; the library never asks for it. */
  function ApplyRoot(action: Action): Option<Json> {
    match action
    case Add(v) => Some(v)
    case Replace(v) => Some(v)
    case Remove => None
  }

  function ApplyAt(doc: Json, at: seq<string>, action: Action): Option<Json> {
    if at == [] then ApplyRoot(action)
    else if |at| == 1 then ApplyMember(doc, at[0], action)
    else
      var child := Child(doc, at[0]);
      if child.None? then None
      else
        var changed := ApplyAt(child.value, at[1..], action);
        if changed.None? then None else Some(WithChild(doc, at[0], changed.value))
  }

  function ApplyTokens(doc: Json, ops: seq<TokenOp>): Option<Json>
    decreases |ops|
  {
    if ops == [] then Some(doc)
    else
      var next := ApplyAt(doc, ops[0].at, ops[0].action);
      if next.None? then None else ApplyTokens(next.value, ops[1..])
  }

  /** RFC 6901 section 3: a pointer is empty or starts with a slash. */
  predicate IsPointer(path: string) { path == "" || path[0] == '/' }

  /** The whole patch, evaluated in order on string pointers. */
  function ApplyPatch(doc: Json, patch: seq<PatchOp>): Option<Json>
    decreases |patch|
  {
    if patch == [] then Some(doc)
    else if !IsPointer(patch[0].path) then None
    else
      var next := ApplyAt(doc, ParsePath(patch[0].path), patch[0].action);
      if next.None? then None else ApplyPatch(next.value, patch[1..])
  }

  // ------------------------------------------------------------------
  // Relative operations
  // ------------------------------------------------------------------

  /** The operations on a child, seen from its parent. */
  function Prefix(token: string, ops: seq<TokenOp>): (r: seq<TokenOp>)
    ensures |r| == |ops|
  {
    if ops == [] then []
    else [TokenOp([token] + ops[0].at, ops[0].action)] + Prefix(token, ops[1..])
  }

  /** The operations as `diff.rs` pushes them while it stands at `path`. */
  function Render(path: string, ops: seq<TokenOp>): (r: seq<PatchOp>)
    ensures |r| == |ops|
  {
    if ops == [] then []
    else [PatchOp(path + PrintPointer(ops[0].at), ops[0].action)] + Render(path, ops[1..])
  }

  /** The document itself is only ever replaced, never added or removed. */
  ghost predicate RootOnlyReplaced(ops: seq<TokenOp>) {
    forall k :: 0 <= k < |ops| && ops[k].at == [] ==> ops[k].action.Replace?
  }

  ghost predicate BelowRoot(ops: seq<TokenOp>) {
    forall k :: 0 <= k < |ops| ==> ops[k].at != []
  }

  lemma {:induction false} PrefixBelowRoot(token: string, ops: seq<TokenOp>)
    ensures BelowRoot(Prefix(token, ops))
  {
    if ops != [] { PrefixBelowRoot(token, ops[1..]); }
  }

  lemma {:induction false} ApplyTokensAppend(doc: Json, a: seq<TokenOp>, b: seq<TokenOp>)
    ensures ApplyTokens(doc, a + b) ==
            (match ApplyTokens(doc, a) case None => None case Some(mid) => ApplyTokens(mid, b))
    decreases |a|
  {
    if a == [] {
      assert a + b == b;
    } else {
      assert (a + b)[1..] == a[1..] + b;
      var next := ApplyAt(doc, a[0].at, a[0].action);
      if next.Some? { ApplyTokensAppend(next.value, a[1..], b); }
    }
  }

  lemma ApplyTokensThen(doc: Json, a: seq<TokenOp>, mid: Json, b: seq<TokenOp>, end: Json)
    requires ApplyTokens(doc, a) == Some(mid) && ApplyTokens(mid, b) == Some(end)
    ensures ApplyTokens(doc, a + b) == Some(end)
  {
    ApplyTokensAppend(doc, a, b);
  }

  lemma {:induction false} RenderAppend(path: string, a: seq<TokenOp>, b: seq<TokenOp>)
    ensures Render(path, a + b) == Render(path, a) + Render(path, b)
  {
    if a == [] {
      assert a + b == b;
    } else {
      assert (a + b)[1..] == a[1..] + b;
      RenderAppend(path, a[1..], b);
    }
  }

  lemma {:induction false} RenderPrefix(path: string, token: string, ops: seq<TokenOp>)
    ensures Render(path, Prefix(token, ops)) == Render(path + "/" + Escape(token), ops)
  {
    if ops != [] {
      RenderPrefix(path, token, ops[1..]);
      var at := [token] + ops[0].at;
      assert at[1..] == ops[0].at;
      var p := PrintPointer(ops[0].at);
      assert path + ("/" + Escape(token) + p) == (path + "/" + Escape(token)) + p;
      assert Prefix(token, ops)[1..] == Prefix(token, ops[1..]);
    }
  }

  /** Printing the pointers and parsing them back changes nothing. */
  lemma {:induction false} ApplyRendered(doc: Json, ops: seq<TokenOp>)
    ensures ApplyPatch(doc, Render("", ops)) == ApplyTokens(doc, ops)
    decreases |ops|
  {
    if ops != [] {
      var path := PrintPointer(ops[0].at);
      assert "" + path == path;
      ParsePointerRoundTrip(ops[0].at);
      assert IsPointer(path);
      var next := ApplyAt(doc, ops[0].at, ops[0].action);
      if next.Some? { ApplyRendered(next.value, ops[1..]); }
    }
  }

  /** One operation on a child, seen from its parent. */
  lemma ApplyUnder(doc: Json, token: string, op: TokenOp)
    requires Child(doc, token).Some?
    requires op.at == [] ==> op.action.Replace?
    ensures ApplyAt(doc, [token] + op.at, op.action) ==
            (match ApplyAt(Child(doc, token).value, op.at, op.action)
             case None => None
             case Some(child) => Some(WithChild(doc, token, child)))
  {
    assert ([token] + op.at)[1..] == op.at;
  }

  lemma WithChildTwice(doc: Json, token: string, first: Json, second: Json)
    requires Child(doc, token).Some?
    ensures Child(WithChild(doc, token, first), token) == Some(first)
    ensures WithChild(WithChild(doc, token, first), token, second) == WithChild(doc, token, second)
    ensures WithChild(doc, token, Child(doc, token).value) == doc
  {
  }

  /** Operations on a child act inside the parent, and leave its other members alone. */
  lemma {:induction false} ApplyPrefix(doc: Json, token: string, ops: seq<TokenOp>)
    requires Child(doc, token).Some?
    requires RootOnlyReplaced(ops)
    ensures ApplyTokens(doc, Prefix(token, ops)) ==
            (match ApplyTokens(Child(doc, token).value, ops)
             case None => None
             case Some(child) => Some(WithChild(doc, token, child)))
    decreases |ops|
  {
    var child := Child(doc, token).value;
    WithChildTwice(doc, token, child, child);
    if ops != [] {
      ApplyUnder(doc, token, ops[0]);
      assert Prefix(token, ops)[1..] == Prefix(token, ops[1..]);
      var changed := ApplyAt(child, ops[0].at, ops[0].action);
      if changed.Some? {
        var next := WithChild(doc, token, changed.value);
        WithChildTwice(doc, token, changed.value, changed.value);
        ApplyPrefix(next, token, ops[1..]);
        var last := ApplyTokens(changed.value, ops[1..]);
        if last.Some? { WithChildTwice(doc, token, changed.value, last.value); }
      }
    }
  }
}
