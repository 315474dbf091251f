/**
 * What a room type declares (`unique_by`, `filter_by`), what a request asks for and shows of its
 * options, and when the query for a unique key finds the listing of a room that was created under it.
 */
module Handlers {
  import opened Json
  import opened Query
  import opened LockKeys

  type Options = map<string, Json>

  /** `suits` is the custom predicate on a listing and the options of the request; without one, it is always true. */
  datatype Handler = Handler(
    uniqueBy: seq<string>, filterBy: seq<string>, strict: bool, defaults: Options, suits: (RoomListing, Options) -> bool)

  /** The registered room types; how a condition's value prints, and how a number does. */
  datatype Registry = Registry(handlers: map<string, Handler>, show: Json -> string, text: NumberText)

  // ------------------------------------------------------------------
  // Conditions
  // ------------------------------------------------------------------

  function EqualTo(field: string, v: Json): Condition { Condition(field, Eq, Some(v)) }

  /** One condition per field that the options carry; `absent` is what a missing field asks for. */
  function FieldConditions(fields: seq<string>, options: Options, strict: bool): seq<Condition> {
    if fields == [] then []
    else
      (if fields[0] in options then [EqualTo(fields[0], options[fields[0]])]
       else if strict then [Condition(fields[0], NotExists, None)]
       else []) + FieldConditions(fields[1..], options, strict)
  }

  /** `unique_conditions`. */
  function UniqueConditions(h: Handler, room: string, options: Options): seq<Condition> {
    [EqualTo("name", Str(room))] + FieldConditions(h.uniqueBy, options, false)
  }

  /** `match_conditions`. */
  function MatchConditions(h: Handler, room: string, options: Options): seq<Condition> {
    [EqualTo("name", Str(room)), EqualTo("locked", Bool(false)), EqualTo("private", Bool(false))]
    + FieldConditions(h.filterBy, options, h.strict)
  }

  /** `condition_key`. */
  function ConditionText(c: Condition, show: Json -> string): string {
    match c.op
    case NotExists => "<absent>"
    case Exists => "<present>"
    case _ => if c.value.Some? then show(c.value.value) else "null"
  }

  function Print(conditions: seq<Condition>, show: Json -> string): seq<Printed> {
    if conditions == [] then []
    else [Printed(conditions[0].field, ConditionText(conditions[0], show))] + Print(conditions[1..], show)
  }

  // ------------------------------------------------------------------
  // Keys
  // ------------------------------------------------------------------

  /** A unique key: the room type and the value of every `unique_by` field. */
  datatype Key = Key(room: string, values: map<string, Json>)

  /** The key that options ask for, or that the extra fields of a listing carry; none if a field is missing. */
  function KeyOf(reg: Registry, room: string, values: Options): Option<Key> {
    if room in reg.handlers && reg.handlers[room].uniqueBy != [] && forall f :: f in reg.handlers[room].uniqueBy ==> f in values then
      Some(Key(room, map f | f in values && f in reg.handlers[room].uniqueBy :: values[f]))
    else None
  }

  /** `filter_extra`. */
  function FilterExtra(reg: Registry, room: string, options: Options): Options {
    if room in reg.handlers then
      map f | f in options && (f in reg.handlers[room].filterBy || f in reg.handlers[room].uniqueBy) :: options[f]
    else map[]
  }

  /** A listing carries the key that its room was created under. */
  lemma ExtraKeepsKey(reg: Registry, room: string, options: Options)
    ensures KeyOf(reg, room, FilterExtra(reg, room, options)) == KeyOf(reg, room, options)
  {
    if KeyOf(reg, room, options).Some? {
      assert KeyOf(reg, room, FilterExtra(reg, room, options)).value.values == KeyOf(reg, room, options).value.values;
    }
  }

  lemma {:induction false} SameFieldConditions(fields: seq<string>, a: Options, b: Options, strict: bool)
    requires forall f :: f in fields ==> f in a && f in b && a[f] == b[f]
    ensures FieldConditions(fields, a, strict) == FieldConditions(fields, b, strict)
  {
    if fields != [] { SameFieldConditions(fields[1..], a, b, strict); }
  }

  /** Equal keys are looked up, and locked, in the same way. */
  lemma SameKeySameConditions(reg: Registry, room: string, a: Options, other: string, b: Options)
    requires KeyOf(reg, room, a).Some? && KeyOf(reg, room, a) == KeyOf(reg, other, b)
    ensures room == other && UniqueConditions(reg.handlers[room], room, a) == UniqueConditions(reg.handlers[room], room, b)
  {
    var h, values := reg.handlers[room], KeyOf(reg, room, a).value.values;
    forall f | f in h.uniqueBy ensures a[f] == b[f] { assert values[f] == a[f] && values[f] == b[f]; }
    SameFieldConditions(h.uniqueBy, a, b, false);
  }

  // ------------------------------------------------------------------
  // When the query for a key finds a listing that carries it
  // ------------------------------------------------------------------

  /** The name that a flat listing shows is that of its room type. */
  predicate NameShown(extra: Options, room: string, text: NumberText) {
    "name" in extra ==> ValueEq(extra["name"], Str(room), text)
  }

  /** A field with a dot is found only if its path leads to the value in what the flat listing happens to hold. */
  predicate FieldShown(l: RoomListing, f: string, v: Json, text: NumberText) {
    '.' in f ==> ResolvePath(Flatten(l), f).Some? && ValueEq(ResolvePath(Flatten(l), f).value, v, text)
  }

  lemma {:induction false} FieldConditionsHold(flat: Json, fields: seq<string>, options: Options, text: NumberText)
    requires forall f :: f in fields ==> f in options
    ensures Accepts(flat, FieldConditions(fields, options, false), text) <==>
            forall f :: f in fields ==> MatchesCondition(ResolvePath(flat, f), EqualTo(f, options[f]), text)
  {
    if fields != [] {
      FieldConditionsHold(flat, fields[1..], options, text);
      AcceptsBoth(flat, [EqualTo(fields[0], options[fields[0]])], FieldConditions(fields[1..], options, false), text);
    }
  }

  lemma AcceptsBoth(flat: Json, a: seq<Condition>, b: seq<Condition>, text: NumberText)
    ensures Accepts(flat, a + b, text) <==> Accepts(flat, a, text) && Accepts(flat, b, text)
  {
    assert forall c :: c in a + b <==> c in a || c in b;
  }

  lemma NameMatchesIff(l: RoomListing, text: NumberText)
    ensures Accepts(Flatten(l), [EqualTo("name", Str(l.name))], text) <==> NameShown(l.extra, l.name, text)
  {
    assert "name"[0] == 'n' && '.' !in "name";
    PlainField(Flatten(l), "name");
    assert EqualTo("name", Str(l.name)) in [EqualTo("name", Str(l.name))];
  }

  lemma FieldMatchesIff(l: RoomListing, f: string, v: Json, text: NumberText)
    requires f in l.extra && l.extra[f] == v
    ensures MatchesCondition(ResolvePath(Flatten(l), f), EqualTo(f, v), text) <==> FieldShown(l, f, v, text)
  {
    if '.' !in f { PlainField(Flatten(l), f); }
  }

  /** The query for a key finds a listing that carries it exactly when name and dotted fields show. */
  lemma FoundIff(reg: Registry, l: RoomListing, options: Options)
    requires KeyOf(reg, l.name, options).Some? && KeyOf(reg, l.name, l.extra) == KeyOf(reg, l.name, options)
    ensures Accepts(Flatten(l), UniqueConditions(reg.handlers[l.name], l.name, options), reg.text) <==>
            && NameShown(l.extra, l.name, reg.text)
            && forall f :: f in reg.handlers[l.name].uniqueBy ==> FieldShown(l, f, options[f], reg.text)
  {
    var h, values := reg.handlers[l.name], KeyOf(reg, l.name, options).value.values;
    NameMatchesIff(l, reg.text);
    AcceptsBoth(Flatten(l), [EqualTo("name", Str(l.name))], FieldConditions(h.uniqueBy, options, false), reg.text);
    FieldConditionsHold(Flatten(l), h.uniqueBy, options, reg.text);
    forall f | f in h.uniqueBy
      ensures MatchesCondition(ResolvePath(Flatten(l), f), EqualTo(f, options[f]), reg.text) <==> FieldShown(l, f, options[f], reg.text)
    {
      assert values[f] == options[f] && values[f] == l.extra[f];
      FieldMatchesIff(l, f, options[f], reg.text);
    }
  }

  // ------------------------------------------------------------------
  // Which declarations are always found
  // ------------------------------------------------------------------

  /** No unique field is a path, and no field that listings show is called `name`. */
  predicate IsPlain(h: Handler) {
    (forall f :: f in h.uniqueBy ==> '.' !in f) && "name" !in h.uniqueBy && "name" !in h.filterBy
  }

  /** A listing of a room of this type, created with these options. */
  predicate IsListingOf(reg: Registry, room: string, options: Options, l: RoomListing) {
    l.name == room && l.extra == FilterExtra(reg, room, options)
  }

  /** Whatever the options of the room were, whatever its listing shows now, a request for its key finds it. */
  ghost predicate AlwaysFound(reg: Registry, room: string)
    requires room in reg.handlers
  {
    forall options, created, l :: !FindsNot(reg, room, options, created, l)
  }

  /** Options that ask for the key of a listing that their query does not find. */
  ghost predicate FindsNot(reg: Registry, room: string, options: Options, created: Options, l: RoomListing)
    requires room in reg.handlers
  {
    && IsListingOf(reg, room, created, l)
    && KeyOf(reg, room, options).Some? && KeyOf(reg, room, created) == KeyOf(reg, room, options)
    && !Accepts(Flatten(l), UniqueConditions(reg.handlers[room], room, options), reg.text)
  }

  /** Options in which every declared field is null. */
  function Nulls(h: Handler): Options { map f | f in h.uniqueBy + h.filterBy :: Null }

  function BareListing(roomId: Id, room: string, extra: Options): RoomListing {
    RoomListing(roomId, room, "", 0, None, false, false, None, 0, extra)
  }

  /** A declaration that is not plain hides a room that was created with nulls. */
  lemma NullsAreHidden(reg: Registry, room: string, roomId: Id)
    requires room in reg.handlers && reg.handlers[room].uniqueBy != [] && !IsPlain(reg.handlers[room])
    ensures var options := Nulls(reg.handlers[room]);
            FindsNot(reg, room, options, options, BareListing(roomId, room, FilterExtra(reg, room, options)))
  {
    var h, options := reg.handlers[room], Nulls(reg.handlers[room]);
    var l := BareListing(roomId, room, FilterExtra(reg, room, options));
    ExtraKeepsKey(reg, room, options);
    FoundIff(reg, l, options);
    if "name" !in h.uniqueBy && "name" !in h.filterBy {
      var f :| f in h.uniqueBy && '.' in f;
      DottedNullHidden(l, f, reg.text);
    }
  }

  /** Extra fields are null here, and no field of a bare listing is an object. */
  lemma DottedNullHidden(l: RoomListing, f: string, text: NumberText)
    requires l.metadata.None? && '.' in f && forall x :: x in l.extra ==> l.extra[x] == Null
    ensures !FieldShown(l, f, Null, text)
  {
    if ResolvePath(Flatten(l), f).Some? {
      DottedField(Flatten(l), f);
    }
  }

  /** Rooms are always found by their keys exactly under plain declarations. */
  lemma AlwaysFoundIff(reg: Registry, room: string)
    requires room in reg.handlers && reg.handlers[room].uniqueBy != []
    ensures AlwaysFound(reg, room) <==> IsPlain(reg.handlers[room])
  {
    if IsPlain(reg.handlers[room]) {
      forall options, created, l | FindsNot(reg, room, options, created, l) ensures false {
        ExtraKeepsKey(reg, room, created);
        FoundIff(reg, l, options);
      }
    } else {
      NullsAreHidden(reg, room, "");
    }
  }
}
