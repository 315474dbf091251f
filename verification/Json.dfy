/** JSON values as `serde_json::Value` holds them, and the key order of its maps. */
module Json {

  datatype Option<+T> = None | Some(value: T)

  /** The three number representations of serde_json. A float is taken as the real number it denotes. */
  datatype Number = PosInt(n: nat) | NegInt(i: int) | Float(r: real)

  datatype Json =
    | Null
    | Bool(b: bool)
    | Num(num: Number)
    | Str(s: string)
    | Arr(items: seq<Json>)
    | Obj(fields: map<string, Json>)

  /** Lexicographic order of keys, the order in which a serde_json map is iterated. */
  predicate KeyLess(a: string, b: string) {
    b != [] && (a == [] || a[0] < b[0] || (a[0] == b[0] && KeyLess(a[1..], b[1..])))
  }

  lemma {:induction false} KeyLessTotal(a: string, b: string)
    ensures KeyLess(a, b) || KeyLess(b, a) || a == b
    ensures !(KeyLess(a, b) && KeyLess(b, a)) && !KeyLess(a, a)
  {
    if a != [] && b != [] {
      KeyLessTotal(a[1..], b[1..]);
      assert a == [a[0]] + a[1..] && b == [b[0]] + b[1..];
    }
    if a != [] {
      KeyLessTotal(a[1..], a[1..]);
    }
  }

  lemma {:induction false} KeyLessTransitive(a: string, b: string, c: string)
    requires KeyLess(a, b) && KeyLess(b, c)
    ensures KeyLess(a, c)
  {
    if a != [] && a[0] == b[0] && b[0] == c[0] {
      KeyLessTransitive(a[1..], b[1..], c[1..]);
    }
  }

  predicate IsLeastKey(k: string, keys: set<string>) {
    k in keys && forall other :: other in keys && other != k ==> KeyLess(k, other)
  }

  lemma {:induction false} LeastKeyExists(keys: set<string>)
    requires keys != {}
    ensures exists k :: IsLeastKey(k, keys)
  {
    var k :| k in keys;
    var rest := keys - {k};
    if rest == {} {
      assert forall other :: other in keys && other != k ==> other in rest;
      assert IsLeastKey(k, keys);
    } else {
      LeastKeyExists(rest);
      var l :| IsLeastKey(l, rest);
      KeyLessTotal(k, l);
      if KeyLess(k, l) {
        forall other | other in keys && other != k ensures KeyLess(k, other) {
          if other != l { KeyLessTransitive(k, l, other); }
        }
        assert IsLeastKey(k, keys);
      } else {
        assert IsLeastKey(l, keys);
      }
    }
  }

  function LeastKey(keys: set<string>): (k: string)
    requires keys != {}
    ensures IsLeastKey(k, keys)
  {
    LeastKeyExists(keys);
    assert forall k, l :: IsLeastKey(k, keys) && IsLeastKey(l, keys) ==> k == l by {
      forall k, l | IsLeastKey(k, keys) && IsLeastKey(l, keys) ensures k == l {
        KeyLessTotal(k, l);
      }
    }
    var k :| k in keys && IsLeastKey(k, keys);
    k
  }

  predicate Distinct<T(==)>(s: seq<T>) {
    forall i, j :: 0 <= i < j < |s| ==> s[i] != s[j]
  }

  /** An iteration order of a map or set: each key once. */
  ghost predicate Enumerates(order: seq<string>, keys: set<string>) {
    Distinct(order) && forall k :: k in order <==> k in keys
  }

  /** The keys of a map in iteration order. */
  function SortedKeys(keys: set<string>): (ks: seq<string>)
    ensures Distinct(ks)
    ensures forall k :: k in ks <==> k in keys
  {
    if keys == {} then [] else
      var k := LeastKey(keys);
      [k] + SortedKeys(keys - {k})
  }

  lemma {:induction false} SortedKeysAscend(keys: set<string>)
    ensures forall i, j :: 0 <= i < j < |SortedKeys(keys)| ==> KeyLess(SortedKeys(keys)[i], SortedKeys(keys)[j])
  {
    if keys != {} {
      var k := LeastKey(keys);
      SortedKeysAscend(keys - {k});
      assert forall l :: l in SortedKeys(keys - {k}) ==> KeyLess(k, l);
    }
  }

  lemma {:induction false} SubsetSize<T>(a: set<T>, b: set<T>)
    requires a <= b
    ensures |a| <= |b|
  {
    if a != {} {
      var x :| x in a;
      SubsetSize(a - {x}, b - {x});
    }
  }
}
