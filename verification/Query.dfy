/** Room listings in their flat form, and the conditions that queries put on it (`driver.rs`). */
module Query {
  import opened Json

  type Id = string

  datatype RoomListing = RoomListing(
    roomId: Id, name: string, processId: string, clients: nat, maxClients: Option<nat>, locked: bool, isPrivate: bool,
    metadata: Option<Json>, createdAt: nat, extra: map<string, Json>)

  function Count(n: nat): Json { Num(PosInt(n)) }

  function CoreFields(l: RoomListing): map<string, Json> {
    var core := map["roomId" := Str(l.roomId), "name" := Str(l.name), "processId" := Str(l.processId), "clients" := Count(l.clients),
                    "locked" := Bool(l.locked), "private" := Bool(l.isPrivate), "createdAt" := Count(l.createdAt)];
    var limited := if l.maxClients.Some? then core["maxClients" := Count(l.maxClients.value)] else core;
    if l.metadata.Some? then limited["metadata" := l.metadata.value] else limited
  }

  /** `to_flat_value`: absent options are left out, extra fields are merged in and win. */
  function Flatten(l: RoomListing): Json { Obj(CoreFields(l) + l.extra) }

  // ------------------------------------------------------------------
  // Paths
  // ------------------------------------------------------------------

  /** `split('.')`: never empty; one more part than there are dots. */
  function Parts(path: string): (parts: seq<string>)
    ensures parts != []
  {
    if path == [] then [""]
    else
      var rest := Parts(path[1..]);
      if path[0] == '.' then [""] + rest else [[path[0]] + rest[0]] + rest[1..]
  }

  /** `Value::get` with a key: only objects have members. */
  function Member(v: Json, key: string): Option<Json> {
    if v.Obj? && key in v.fields then Some(v.fields[key]) else None
  }

  function Walk(v: Json, parts: seq<string>): Option<Json> {
    if parts == [] then Some(v)
    else
      var next := Member(v, parts[0]);
      if next.None? then None else Walk(next.value, parts[1..])
  }

  /** `resolve_path`. */
  function ResolvePath(root: Json, path: string): Option<Json> { Walk(root, Parts(path)) }

  /** A path without a dot is one part. */
  lemma {:induction false} OnePart(path: string)
    ensures '.' !in path <==> Parts(path) == [path]
    ensures '.' in path ==> |Parts(path)| >= 2
  {
    if path != [] {
      OnePart(path[1..]);
      assert path == [path[0]] + path[1..];
    }
  }

  lemma PlainField(root: Json, field: string)
    requires '.' !in field
    ensures ResolvePath(root, field) == Member(root, field)
  {
    OnePart(field);
    assert [field][1..] == [];
    var next := Member(root, field);
    assert next.Some? ==> Walk(next.value, []) == next;
  }

  /** A path with a dot needs an object at its first part. */
  lemma DottedField(root: Json, field: string)
    requires '.' in field && ResolvePath(root, field).Some?
    ensures Member(root, Parts(field)[0]).Some? && Member(root, Parts(field)[0]).value.Obj?
  {
    OnePart(field);
    var parts := Parts(field);
    assert parts[1..] != [];
    assert Walk(Member(root, parts[0]).value, parts[1..]).Some?;
  }

  // ------------------------------------------------------------------
  // Conditions
  // ------------------------------------------------------------------

  function AsReal(n: Number): real {
    match n
    case PosInt(k) => k as real
    case NegInt(k) => k as real
    case Float(r) => r
  }

  datatype Order = Less | Equal | Greater

  /** `value_cmp`; `None` when incomparable. */
  function ValueCmp(a: Json, b: Json): Option<Order> {
    match (a, b)
    case (Num(x), Num(y)) => Some(if AsReal(x) < AsReal(y) then Less else if AsReal(x) == AsReal(y) then Equal else Greater)
    case (Str(x), Str(y)) => Some(if KeyLess(x, y) then Less else if x == y then Equal else Greater)
    case (Bool(x), Bool(y)) => Some(if x == y then Equal else if y then Less else Greater)
    case _ => None
  }

  /** How numbers print. */
  type NumberText = Number -> string

  /** `value_eq`: numeric-aware, with coercion between strings and numbers. */
  predicate ValueEq(a: Json, b: Json, text: NumberText) {
    a == b ||
    match (a, b)
    case (Num(x), Num(y)) => AsReal(x) == AsReal(y)
    case (Str(x), Num(y)) => x == text(y)
    case (Num(x), Str(y)) => text(x) == y
    case _ => false
  }

  datatype Op = Eq | Ne | Gt | Gte | Lt | Lte | In(values: seq<Json>) | Exists | NotExists

  /** What is asked of one field. */
  datatype Condition = Condition(field: string, op: Op, value: Option<Json>)

  function Expected(c: Condition): Json { if c.value.Some? then c.value.value else Null }

  predicate Ordered(actual: Option<Json>, c: Condition, wanted: set<Order>) {
    actual.Some? && c.value.Some? && ValueCmp(actual.value, c.value.value).Some? && ValueCmp(actual.value, c.value.value).value in wanted
  }

  /** `matches_condition`. */
  predicate MatchesCondition(actual: Option<Json>, c: Condition, text: NumberText) {
    match c.op
    case Eq => actual.Some? && ValueEq(actual.value, Expected(c), text)
    case Ne => !(actual.Some? && ValueEq(actual.value, Expected(c), text))
    case Gt => Ordered(actual, c, {Greater})
    case Gte => Ordered(actual, c, {Greater, Equal})
    case Lt => Ordered(actual, c, {Less})
    case Lte => Ordered(actual, c, {Less, Equal})
    case In(values) => actual.Some? && exists v :: v in values && ValueEq(actual.value, v, text)
    case Exists => actual.Some?
    case NotExists => actual.None?
  }

  /** All conditions of a query, on one flat listing. */
  predicate Accepts(flat: Json, conditions: seq<Condition>, text: NumberText) {
    forall c :: c in conditions ==> MatchesCondition(ResolvePath(flat, c.field), c, text)
  }

  // ------------------------------------------------------------------
  // What the operators mean
  // ------------------------------------------------------------------

  /** `a` comes before `b`: numbers by value, strings by code points, false before true. */
  predicate ComesBefore(a: Json, b: Json) {
    || (a.Num? && b.Num? && AsReal(a.num) < AsReal(b.num))
    || (a.Str? && b.Str? && KeyLess(a.s, b.s))
    || (a.Bool? && b.Bool? && !a.b && b.b)
  }

  /** Neither comes before the other, and they can be compared. */
  predicate IsLevel(a: Json, b: Json) {
    || (a.Num? && b.Num? && AsReal(a.num) == AsReal(b.num))
    || (a.Str? && b.Str? && a.s == b.s)
    || (a.Bool? && b.Bool? && a.b == b.b)
  }

  lemma ValueCmpMeans(a: Json, b: Json)
    ensures ValueCmp(a, b) == Some(Less) <==> ComesBefore(a, b)
    ensures ValueCmp(a, b) == Some(Greater) <==> ComesBefore(b, a)
    ensures ValueCmp(a, b) == Some(Equal) <==> IsLevel(a, b)
  {
    if a.Str? && b.Str? { KeyLessTotal(a.s, b.s); }
  }

  /** Values are equal as values, as numbers, or as a number and its text. */
  lemma ValueEqMeans(a: Json, b: Json, text: NumberText)
    ensures ValueEq(a, b, text) <==>
              || a == b || (a.Num? && b.Num? && AsReal(a.num) == AsReal(b.num))
              || (a.Num? && b.Str? && text(a.num) == b.s) || (a.Str? && b.Num? && a.s == text(b.num))
  {
  }

  /** Every operator, on a field that is there or not. */
  lemma OperatorsMean(actual: Option<Json>, field: string, v: Json, values: seq<Json>, text: NumberText)
    ensures MatchesCondition(actual, Condition(field, Eq, Some(v)), text) <==> actual.Some? && ValueEq(actual.value, v, text)
    ensures MatchesCondition(actual, Condition(field, Ne, Some(v)), text) <==> actual.None? || !ValueEq(actual.value, v, text)
    ensures MatchesCondition(actual, Condition(field, Gt, Some(v)), text) <==> actual.Some? && ComesBefore(v, actual.value)
    ensures MatchesCondition(actual, Condition(field, Gte, Some(v)), text) <==> actual.Some? && (ComesBefore(v, actual.value) || IsLevel(actual.value, v))
    ensures MatchesCondition(actual, Condition(field, Lt, Some(v)), text) <==> actual.Some? && ComesBefore(actual.value, v)
    ensures MatchesCondition(actual, Condition(field, Lte, Some(v)), text) <==> actual.Some? && (ComesBefore(actual.value, v) || IsLevel(actual.value, v))
    ensures MatchesCondition(actual, Condition(field, In(values), None), text) <==>
              actual.Some? && exists x :: x in values && ValueEq(actual.value, x, text)
    ensures MatchesCondition(actual, Condition(field, Exists, None), text) <==> actual.Some?
    ensures MatchesCondition(actual, Condition(field, NotExists, None), text) <==> actual.None?
  {
    if actual.Some? { ValueCmpMeans(actual.value, v); }
  }

  /** A comparison without a value holds of nothing. */
  lemma NoValueToCompare(actual: Option<Json>, field: string, text: NumberText)
    ensures forall op :: op in {Gt, Gte, Lt, Lte} ==> !MatchesCondition(actual, Condition(field, op, None), text)
  {
  }

  /** A flat listing shows each field under its name, unless an extra field of that name hides it. */
  lemma FlattenShows(l: RoomListing, key: string)
    ensures Member(Flatten(l), key) ==
            if key in l.extra then Some(l.extra[key])
            else if key == "roomId" then Some(Str(l.roomId))
            else if key == "name" then Some(Str(l.name))
            else if key == "processId" then Some(Str(l.processId))
            else if key == "clients" then Some(Num(PosInt(l.clients)))
            else if key == "locked" then Some(Bool(l.locked))
            else if key == "private" then Some(Bool(l.isPrivate))
            else if key == "createdAt" then Some(Num(PosInt(l.createdAt)))
            else if key == "maxClients" && l.maxClients.Some? then Some(Num(PosInt(l.maxClients.value)))
            else if key == "metadata" then l.metadata
            else None
  {
  }

  /** A dotted path is a walk from object to object. */
  lemma PathWalks(root: Json, first: string, rest: string)
    requires '.' !in first
    ensures ResolvePath(root, first + "." + rest) ==
            match Member(root, first) case None => None case Some(v) => ResolvePath(v, rest)
  {
    PartsOfPath(first, rest);
    assert ([first] + Parts(rest))[1..] == Parts(rest);
  }

  lemma {:induction false} PartsOfPath(first: string, rest: string)
    requires '.' !in first
    ensures Parts(first + "." + rest) == [first] + Parts(rest)
  {
    var path := first + "." + rest;
    if first == "" {
      assert path[0] == '.' && path[1..] == rest;
    } else {
      assert path[1..] == first[1..] + "." + rest;
      PartsOfPath(first[1..], rest);
      assert path[0] == first[0] && [first[0]] + first[1..] == first;
      assert Parts(path) == [[path[0]] + Parts(path[1..])[0]] + Parts(path[1..])[1..];
      assert ([first[1..]] + Parts(rest))[1..] == Parts(rest);
    }
  }
}
