/** The replica of the TypeScript client over a whole connection: the heap it ends with, frame after frame. */
module ClientRuns {
  import opened Json
  import opened JsonPatch
  import opened Diff
  import opened Room
  import opened Actor
  import opened ActorRuns
  import opened Sync
  import opened SyncRuns
  import opened ClientPatch
  import opened ClientSync

  /** The client's heap and `this.state`, which is undefined until the first full state. */
  datatype Replica = Replica(heap: Heap, state: Option<JsValue>)

  /** Decoding a frame adds new arrays and objects and changes none. */
  ghost predicate Extends(h: Heap, h': Heap) { forall l :: l in h ==> l in h' && h'[l] == h[l] }

  /** A decoded value: a tree of its own, at new locations. */
  ghost predicate IsNewTree(h: Heap, h': Heap, t: Tree) { Holds(h', t) && Sep(t) && Locs(t) !! h.Keys }

  /** The frame holds the whole state. */
  ghost predicate TakesState(r: Replica, r': Replica, t: Tree, s: Json) {
    Extends(r.heap, r'.heap) && IsNewTree(r.heap, r'.heap, t) && Doc(t) == s && r'.state == Some(ValOf(t))
  }

  /** The values of a decoded patch, each a tree of its own. */
  ghost predicate DecodesPatch(h: Heap, h': Heap, patch: seq<PatchOp>, ops: seq<JsOp>, vals: seq<Tree>) {
    && Extends(h, h') && |ops| == |patch| && |vals| == |patch|
    && (forall k :: 0 <= k < |patch| ==> ops[k].path == patch[k].path && Decodes(patch[k].action, ops[k].kind, ops[k].value, vals[k]))
    && (forall k :: 0 <= k < |patch| ==> IsNewTree(h, h', vals[k]))
    && (forall j, k :: 0 <= j < k < |patch| ==> Locs(vals[j]) !! Locs(vals[k]))
  }

  /** The frame holds a patch; where the applier throws, the heap is left somehow and `this.state` stays. */
  ghost predicate TakesPatch(r: Replica, r': Replica, h: Heap, patch: seq<PatchOp>, ops: seq<JsOp>, vals: seq<Tree>) {
    && DecodesPatch(r.heap, h, patch, ops, vals) && (r.state.Some? ==> r'.state == r.state)
    && (r.state.Some? && JsApply(h, r.state.value, ops).Some? ==> r'.heap == JsApply(h, r.state.value, ops).value)
  }

  /** One frame arrives. */
  ghost predicate Receives(r: Replica, o: Outbound, r': Replica) {
    match o
    case Bytes(StateFrame(s)) => exists t :: TakesState(r, r', t, s)
    case Bytes(PatchFrame(p)) => exists h, ops, vals :: TakesPatch(r, r', h, p, ops, vals)
    case _ => r' == r
  }

  /** The client holds exactly this value, as a tree in its heap. */
  ghost predicate Represents(r: Replica, j: Json) { r.state.Some? && exists t :: IsTreeOf(r, t, j) }

  ghost predicate IsTreeOf(r: Replica, t: Tree, j: Json) {
    Holds(r.heap, t) && Sep(t) && Doc(t) == j && r.state == Some(ValOf(t))
  }

  // ------------------------------------------------------------------
  // Old trees in a larger heap
  // ------------------------------------------------------------------

  lemma {:induction false} HoldsExtends(h: Heap, h': Heap, t: Tree)
    requires Holds(h, t) && Extends(h, h')
    ensures Holds(h', t) && Locs(t) <= h.Keys
    decreases t
  {
    match t
    case Leaf(_) =>
    case ArrNode(_, kids) =>
      forall i | 0 <= i < |kids| ensures Holds(h', kids[i]) && Locs(kids[i]) <= h.Keys { HoldsExtends(h, h', kids[i]); }
    case ObjNode(_, fields) =>
      forall k | k in fields ensures Holds(h', fields[k]) && Locs(fields[k]) <= h.Keys { HoldsExtends(h, h', fields[k]); }
  }

  lemma DecodedIsDelivered(h: Heap, h': Heap, t: Tree, patch: seq<PatchOp>, ops: seq<JsOp>, vals: seq<Tree>)
    requires Holds(h, t) && DecodesPatch(h, h', patch, ops, vals)
    ensures Holds(h', t) && Delivered(h', t, patch, ops, vals)
  {
    HoldsExtends(h, h', t);
    forall k | 0 <= k < |patch| ensures Insertable(h', vals[k], Locs(t)) { assert IsNewTree(h, h', vals[k]); }
  }

  // ------------------------------------------------------------------
  // One frame
  // ------------------------------------------------------------------

  /** Values that one replica can follow: all objects, or all arrays, without a `__proto__` key. */
  ghost predicate Fits(j: Json, objects: bool) { Plain(j) && (if objects then j.Obj? else j.Arr?) }

  /** A patch computed from what the client holds brings its heap to the new value, and nothing is thrown. */
  lemma PatchFollowed(r: Replica, r': Replica, x: Json, y: Json, objects: bool)
    requires Represents(r, x) && Receives(r, Bytes(PatchFrame(DiffPatch(x, y))), r') && Fits(x, objects) && Fits(y, objects)
    ensures Represents(r', y)
  {
    var t :| IsTreeOf(r, t, x);
    var h, ops, vals :| TakesPatch(r, r', h, DiffPatch(x, y), ops, vals);
    DecodedIsDelivered(r.heap, h, t, DiffPatch(x, y), ops, vals);
    DiffUsable(x, y);
    DiffPatchApplies(x, y);
    var t' := PatchRefines(h, t, DiffPatch(x, y), ops, vals);
    assert IsTreeOf(r', t', y);
  }

  lemma StateTaken(r: Replica, r': Replica, s: Json)
    requires Receives(r, Bytes(StateFrame(s)), r')
    ensures Represents(r', s)
  {
    var t :| TakesState(r, r', t, s);
    assert IsTreeOf(r', t, s);
  }

  // ------------------------------------------------------------------
  // Whole connections
  // ------------------------------------------------------------------

  /** Whatever the client holds on the way fits. */
  ghost predicate AlwaysFits(out: seq<Outbound>, objects: bool) {
    forall k :: 0 <= k <= |out| && Held(out[..k]).Some? ==> Fits(Held(out[..k]).value, objects)
  }

  /** The client takes the frames of its connection in order. */
  ghost predicate ReceivesAll(rs: seq<Replica>, out: seq<Outbound>) {
    |rs| == |out| + 1 && forall k :: 0 <= k < |out| ==> Receives(rs[k], out[k], rs[k + 1])
  }

  lemma AlwaysFitsPrefix(out: seq<Outbound>, objects: bool)
    requires AlwaysFits(out, objects) && out != []
    ensures AlwaysFits(out[..|out| - 1], objects)
  {
    var init := out[..|out| - 1];
    forall k | 0 <= k <= |init| && Held(init[..k]).Some? ensures Fits(Held(init[..k]).value, objects) { assert init[..k] == out[..k]; }
  }

  /** Where the frames fold to a value, by patches that were computed from it, the heap holds that value. */
  lemma {:induction false} HeapFollows(rs: seq<Replica>, out: seq<Outbound>, objects: bool)
    requires ReceivesAll(rs, out) && Diffed(out) && AlwaysFits(out, objects) && Held(out).Some?
    ensures Represents(rs[|out|], Held(out).value)
    decreases |out|
  {
    var n := |out| - 1;
    var init, last := out[..n], out[n];
    assert out == init + [last] && out[..|out|] == out;
    assert Receives(rs[n], last, rs[n + 1]);
    AlwaysFitsPrefix(out, objects);
    assert ReceivesAll(rs[..n + 1], init);
    if last.Bytes? && last.frame.StateFrame? {
      StateTaken(rs[n], rs[n + 1], last.frame.state);
    } else {
      HeapFollows(rs[..n + 1], init, objects);
      if last.Bytes? && last.frame.PatchFrame? { LastPatchFollowed(rs[n], rs[n + 1], init, out, last.frame.patch, objects); }
    }
  }

  lemma LastPatchFollowed(r: Replica, r': Replica, init: seq<Outbound>, out: seq<Outbound>, patch: seq<PatchOp>, objects: bool)
    requires out == init + [Bytes(PatchFrame(patch))] && Diffed(out) && AlwaysFits(out, objects) && Held(out).Some? && Held(init).Some?
    requires Represents(r, Held(init).value) && Receives(r, Bytes(PatchFrame(patch)), r')
    ensures Represents(r', Held(out).value)
  {
    HeldAppend(init, Bytes(PatchFrame(patch)));
    var x := Held(init).value;
    var y :| patch == DiffPatch(x, y);
    DiffPatchApplies(x, y);
    assert out[..|init|] == init && out[..|out|] == out;
    PatchFollowed(r, r', x, y, objects);
  }

  /**
   * In every guarded run: once a patch is broadcast, a joined client that has taken all its frames holds
   * the current state, or its view of it, in its heap, if what it held on the way fits one root.
   */
  lemma HeapsAreCurrent(c: RoomContext, events: seq<Event>, conn: Id, rs: seq<Replica>, objects: bool)
    requires StartsSynced(c) && PermittedRun(c, events) && SyncedRun(c, events)
    requires JoinedHere(BroadcastPatch(Run(c, events)), conn)
    requires var out := BroadcastPatch(Run(c, events)).conns[conn].outbox; ReceivesAll(rs, out) && AlwaysFits(out, objects)
    ensures var d := BroadcastPatch(Run(c, events));
            && FullStateFor(d, d.conns[conn]).Some?
            && Represents(rs[|d.conns[conn].outbox|], FullStateFor(d, d.conns[conn]).value)
  {
    PatchedReplicasAreCurrent(c, events, conn);
    PatchedAreDiffed(c, events, conn);
    HeapFollows(rs, BroadcastPatch(Run(c, events)).conns[conn].outbox, objects);
  }

  lemma PatchedAreDiffed(c: RoomContext, events: seq<Event>, conn: Id)
    requires StartsSynced(c) && PermittedRun(c, events) && SyncedRun(c, events)
    requires JoinedHere(BroadcastPatch(Run(c, events)), conn)
    ensures Diffed(BroadcastPatch(Run(c, events)).conns[conn].outbox)
  {
    StartInv(c);
    RunKeepsInv(c, events);
    RunKeepsSync(c, events);
    BroadcastBringsUpToDate(Run(c, events));
    assert InSync(BroadcastPatch(Run(c, events)), conn);
  }
}
