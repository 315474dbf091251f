/** The strings under which the matchmaker keeps its locks. */
module LockKeys {
  import opened Json

  type LockKey = string

  /** One matching condition: the field, and its operator and value as `condition_key` prints them. */
  datatype Printed = Printed(field: string, text: string)

  /** What a lock is for: a room type and conditions on its listings. */
  datatype Subject = Subject(room: string, conditions: seq<Printed>)

  /** `name`, `locked` and `private` are the same for all requests of a kind, and not printed. */
  predicate IsKept(c: Printed) { c.field != "name" && c.field != "locked" && c.field != "private" }

  function Entries(conditions: seq<Printed>): seq<string> {
    if conditions == [] then []
    else (if IsKept(conditions[0]) then [conditions[0].field + "=" + conditions[0].text] else []) + Entries(conditions[1..])
  }

  function InsertEntry(e: string, sorted: seq<string>): seq<string> {
    if sorted == [] then [e]
    else if KeyLess(sorted[0], e) then [sorted[0]] + InsertEntry(e, sorted[1..])
    else [e] + sorted
  }

  function SortEntries(entries: seq<string>): seq<string> {
    if entries == [] then [] else InsertEntry(entries[0], SortEntries(entries[1..]))
  }

  function Join(entries: seq<string>): string {
    if entries == [] then ""
    else if |entries| == 1 then entries[0]
    else entries[0] + "&" + Join(entries[1..])
  }

  function ConditionsKey(conditions: seq<Printed>): string { Join(SortEntries(Entries(conditions))) }

  /** The lock of `join_or_create_inner`. */
  function CriteriaLock(s: Subject): LockKey { s.room + ":" + ConditionsKey(s.conditions) }

  /** The lock of `create_room_inner`. */
  function UniqueLock(s: Subject): LockKey { s.room + ":unique:" + ConditionsKey(s.conditions) }

  lemma OneEntry(conditions: seq<Printed>, e: string)
    requires Entries(conditions) == [e]
    ensures ConditionsKey(conditions) == e
  {
    assert [e][1..] == [];
    assert SortEntries([e]) == [e];
  }

  /** A field whose name begins with `unique:` makes a criteria lock that is also a unique lock. */
  lemma LocksCollide(room: string, field: string, text: string, criteria: seq<Printed>, unique: seq<Printed>)
    requires Entries(criteria) == ["unique:" + field + "=" + text] && Entries(unique) == [field + "=" + text]
    ensures CriteriaLock(Subject(room, criteria)) == UniqueLock(Subject(room, unique))
  {
    OneEntry(criteria, "unique:" + field + "=" + text);
    OneEntry(unique, field + "=" + text);
    assert room + ":" + ("unique:" + field + "=" + text) == room + ":unique:" + (field + "=" + text);
  }
}
