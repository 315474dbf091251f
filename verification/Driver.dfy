/** The in-memory listing store of `driver.rs`: cached flat forms, sorted queries, and pages. */
module Driver {
  import opened Json
  import opened Query

  datatype Entry = Entry(listing: RoomListing, flat: Json)

  // ------------------------------------------------------------------
  // Comparing
  // ------------------------------------------------------------------

  function Flip(o: Order): Order { if o.Less? then Greater else if o.Greater? then Less else Equal }

  /** One sort column, by a dotted path; a missing field counts as null. */
  datatype Column = Column(field: string, descending: bool)
  {
    function value(flat: Json): Json {
      var v := ResolvePath(flat, field);
      if v.Some? then v.value else Null
    }
  }

  function ColumnCmp(a: Json, b: Json, col: Column): Order {
    var o := ValueCmp(col.value(a), col.value(b));
    var order := if o.Some? then o.value else Equal;
    if col.descending then Flip(order) else order
  }

  /** The comparator of `sort_listings`: the first column that tells two listings apart decides. */
  function Compare(a: Json, b: Json, sort: seq<Column>): Order
    decreases |sort|
  {
    if sort == [] then Equal
    else
      var o := ColumnCmp(a, b, sort[0]);
      if o != Equal then o else Compare(a, b, sort[1..])
  }

  predicate AtMost(a: Json, b: Json, sort: seq<Column>) { Compare(a, b, sort) != Greater }

  datatype Kind = Number | Text | Truth | Other

  function KindOf(j: Json): Kind {
    match j
    case Num(_) => Kind.Number
    case Str(_) => Text
    case Bool(_) => Truth
    case _ => Other
  }

  /** Each column holds values of one kind, in the rows given. */
  ghost predicate OneKind(rows: set<Json>, sort: seq<Column>) {
    forall c, a, b :: 0 <= c < |sort| && a in rows && b in rows ==> KindOf(sort[c].value(a)) == KindOf(sort[c].value(b))
  }

  ghost predicate IsPreorder(rows: set<Json>, sort: seq<Column>) {
    && (forall a, b :: a in rows && b in rows ==> Compare(a, b, sort) == Flip(Compare(b, a, sort)))
    && (forall a, b, c :: a in rows && b in rows && c in rows && AtMost(a, b, sort) && AtMost(b, c, sort) ==> AtMost(a, c, sort))
  }

  lemma ValueCmpFlips(a: Json, b: Json)
    ensures ValueCmp(a, b).Some? == ValueCmp(b, a).Some?
    ensures ValueCmp(a, b).Some? ==> ValueCmp(a, b).value == Flip(ValueCmp(b, a).value)
    ensures ValueCmp(a, b).Some? <==> KindOf(a) == KindOf(b) && KindOf(a) != Other
  {
    if a.Str? && b.Str? { KeyLessTotal(a.s, b.s); }
  }

  function OrderOf(a: Json, b: Json): Order { if ValueCmp(a, b).Some? then ValueCmp(a, b).value else Equal }

  /** Within one kind, a comparison carries over to anything equal or further along. */
  lemma ValueCmpTransitive(a: Json, b: Json, c: Json)
    requires KindOf(a) == KindOf(b) == KindOf(c)
    ensures OrderOf(a, b) != Greater && OrderOf(b, c) != Greater ==>
              OrderOf(a, c) == (if OrderOf(a, b) == Less || OrderOf(b, c) == Less then Less else Equal)
  {
    if a.Str? && b.Str? && c.Str? {
      KeyLessTotal(a.s, b.s);
      KeyLessTotal(b.s, c.s);
      KeyLessTotal(a.s, c.s);
      if KeyLess(a.s, b.s) && KeyLess(b.s, c.s) { KeyLessTransitive(a.s, b.s, c.s); }
    }
  }

  lemma ColumnTransitive(a: Json, b: Json, c: Json, col: Column)
    requires KindOf(col.value(a)) == KindOf(col.value(b)) == KindOf(col.value(c))
    ensures ColumnCmp(a, b, col) != Greater && ColumnCmp(b, c, col) != Greater ==>
              ColumnCmp(a, c, col) == (if ColumnCmp(a, b, col) == Less || ColumnCmp(b, c, col) == Less then Less else Equal)
  {
    var x, y, z := col.value(a), col.value(b), col.value(c);
    ValueCmpFlips(x, y);
    ValueCmpFlips(y, z);
    ValueCmpFlips(x, z);
    ValueCmpTransitive(x, y, z);
    ValueCmpTransitive(z, y, x);
  }

  lemma {:induction false} CompareFlips(a: Json, b: Json, sort: seq<Column>)
    ensures Compare(a, b, sort) == Flip(Compare(b, a, sort))
    decreases |sort|
  {
    if sort != [] {
      ValueCmpFlips(sort[0].value(a), sort[0].value(b));
      CompareFlips(a, b, sort[1..]);
    }
  }

  lemma {:induction false} CompareTransitive(a: Json, b: Json, c: Json, sort: seq<Column>)
    requires forall k :: 0 <= k < |sort| ==> KindOf(sort[k].value(a)) == KindOf(sort[k].value(b)) == KindOf(sort[k].value(c))
    ensures AtMost(a, b, sort) && AtMost(b, c, sort) ==> AtMost(a, c, sort)
    decreases |sort|
  {
    if sort != [] {
      ColumnTransitive(a, b, c, sort[0]);
      CompareTransitive(a, b, c, sort[1..]);
    }
  }

  /** With columns of one kind each, the multi-key comparator is a total preorder. */
  lemma OneKindIsPreorder(rows: set<Json>, sort: seq<Column>)
    requires OneKind(rows, sort)
    ensures IsPreorder(rows, sort)
  {
    forall a, b | a in rows && b in rows ensures Compare(a, b, sort) == Flip(Compare(b, a, sort)) { CompareFlips(a, b, sort); }
    forall a, b, c | a in rows && b in rows && c in rows && AtMost(a, b, sort) && AtMost(b, c, sort) ensures AtMost(a, c, sort) {
      CompareTransitive(a, b, c, sort);
    }
  }

  lemma OneColumn(a: Json, b: Json, col: Column)
    ensures Compare(a, b, [col]) == ColumnCmp(a, b, col)
  {
    assert [col][1..] == [];
  }

  /** A value of another kind is level with both of two different values, which cannot be. */
  lemma MixedIsNoPreorder(rows: set<Json>, col: Column, p: Json, q: Json, z: Json)
    requires p in rows && q in rows && z in rows && Compare(p, q, [col]) == Less
    requires KindOf(col.value(z)) != KindOf(col.value(p))
    ensures !IsPreorder(rows, [col])
  {
    OneColumn(p, q, col);
    OneColumn(q, z, col);
    OneColumn(z, p, col);
    ValueCmpFlips(col.value(p), col.value(q));
    ValueCmpFlips(col.value(q), col.value(z));
    ValueCmpFlips(col.value(z), col.value(p));
    CompareFlips(p, q, [col]);
    assert AtMost(q, z, [col]) && AtMost(z, p, [col]) && Compare(q, p, [col]) == Greater;
  }

  /** For one column, exactly when its values are of one kind or none of them can be told apart. */
  lemma PreorderIff(rows: set<Json>, col: Column)
    ensures IsPreorder(rows, [col]) <==>
              OneKind(rows, [col]) || (forall a, b :: a in rows && b in rows ==> Compare(a, b, [col]) == Equal)
  {
    if OneKind(rows, [col]) {
      OneKindIsPreorder(rows, [col]);
    } else if a, b :| a in rows && b in rows && Compare(a, b, [col]) != Equal {
      CompareFlips(a, b, [col]);
      var x, y :| x in rows && y in rows && KindOf(col.value(x)) != KindOf(col.value(y));
      var less := Compare(a, b, [col]) == Less;
      var p, q := if less then a else b, if less then b else a;
      MixedIsNoPreorder(rows, col, p, q, if KindOf(col.value(x)) == KindOf(col.value(p)) then y else x);
    }
  }

  lemma {:induction false} CompareAppend(a: Json, b: Json, sort: seq<Column>, col: Column)
    ensures Compare(a, b, sort + [col]) == if Compare(a, b, sort) != Equal then Compare(a, b, sort) else ColumnCmp(a, b, col)
    decreases |sort|
  {
    if sort == [] {
      assert sort + [col] == [col];
      OneColumn(a, b, col);
    } else {
      assert (sort + [col])[1..] == sort[1..] + [col];
      CompareAppend(a, b, sort[1..], col);
    }
  }

  /** The rows that the columns so far leave level with `a`. */
  ghost function Level(rows: set<Json>, a: Json, sort: seq<Column>): set<Json> { set b | b in rows && Compare(a, b, sort) == Equal }

  /** A column sorts these rows: they are of one kind in it, or it tells none of them apart. */
  ghost predicate Sorts(rows: set<Json>, col: Column) {
    OneKind(rows, [col]) || forall a, b :: a in rows && b in rows ==> Compare(a, b, [col]) == Equal
  }

  lemma Transitive(rows: set<Json>, sort: seq<Column>, a: Json, b: Json, c: Json)
    requires IsPreorder(rows, sort) && a in rows && b in rows && c in rows && AtMost(a, b, sort) && AtMost(b, c, sort)
    ensures AtMost(a, c, sort)
  {
  }

  /** Within a group that is level so far, the next column decides. */
  lemma LevelCompare(rows: set<Json>, sort: seq<Column>, col: Column, a: Json, x: Json, y: Json)
    requires IsPreorder(rows, sort) && a in rows && x in Level(rows, a, sort) && y in Level(rows, a, sort)
    ensures Compare(x, y, sort + [col]) == Compare(x, y, [col])
  {
    LevelTogether(rows, sort, a, x, y);
    CompareAppend(x, y, sort, col);
    OneColumn(x, y, col);
  }

  lemma LevelIsPreorder(rows: set<Json>, sort: seq<Column>, col: Column, a: Json)
    requires IsPreorder(rows, sort) && a in rows && IsPreorder(rows, sort + [col])
    ensures IsPreorder(Level(rows, a, sort), [col])
  {
    var group := Level(rows, a, sort);
    forall x, y | x in group && y in group ensures Compare(x, y, [col]) == Flip(Compare(y, x, [col])) { CompareFlips(x, y, [col]); }
    forall x, y, z | x in group && y in group && z in group && AtMost(x, y, [col]) && AtMost(y, z, [col]) ensures AtMost(x, z, [col]) {
      LevelCompare(rows, sort, col, a, x, y);
      LevelCompare(rows, sort, col, a, y, z);
      LevelCompare(rows, sort, col, a, x, z);
      Transitive(rows, sort + [col], x, y, z);
    }
  }

  /** Two rows level with a third are level. */
  lemma LevelTogether(rows: set<Json>, sort: seq<Column>, a: Json, x: Json, y: Json)
    requires IsPreorder(rows, sort) && a in rows && x in rows && y in rows
    requires Compare(a, x, sort) == Equal && Compare(a, y, sort) == Equal
    ensures Compare(x, y, sort) == Equal
  {
    CompareFlips(a, x, sort);
    CompareFlips(a, y, sort);
    CompareFlips(x, y, sort);
    assert AtMost(x, a, sort) && AtMost(a, y, sort) && AtMost(y, a, sort) && AtMost(a, x, sort);
    assert AtMost(x, y, sort) && AtMost(y, x, sort);
  }

  /** What is below by the columns so far stays below with one more. */
  lemma BelowStays(rows: set<Json>, sort: seq<Column>, a: Json, b: Json, c: Json)
    requires IsPreorder(rows, sort) && a in rows && b in rows && c in rows && AtMost(a, b, sort) && AtMost(b, c, sort)
    ensures Compare(a, c, sort) == if Compare(a, b, sort) == Equal && Compare(b, c, sort) == Equal then Equal else Less
  {
    CompareFlips(a, b, sort);
    CompareFlips(b, c, sort);
    CompareFlips(a, c, sort);
    assert AtMost(a, c, sort);
    if AtMost(c, a, sort) {
      assert AtMost(c, b, sort) && AtMost(b, a, sort);
    }
    if AtMost(c, b, sort) && AtMost(b, a, sort) {
      assert AtMost(c, a, sort);
    }
  }

  /** Several columns, of which only the last may hold several kinds: exactly when it sorts each group the others leave level. */
  lemma LastColumnIff(rows: set<Json>, sort: seq<Column>, col: Column)
    requires OneKind(rows, sort)
    ensures IsPreorder(rows, sort + [col]) <==> forall a :: a in rows ==> Sorts(Level(rows, a, sort), col)
  {
    OneKindIsPreorder(rows, sort);
    if IsPreorder(rows, sort + [col]) {
      forall a | a in rows ensures Sorts(Level(rows, a, sort), col) {
        LevelIsPreorder(rows, sort, col, a);
        PreorderIff(Level(rows, a, sort), col);
      }
    } else if forall a :: a in rows ==> Sorts(Level(rows, a, sort), col) {
      forall a, b | a in rows && b in rows ensures Compare(a, b, sort + [col]) == Flip(Compare(b, a, sort + [col])) {
        CompareFlips(a, b, sort + [col]);
      }
      forall a, b, c | a in rows && b in rows && c in rows && AtMost(a, b, sort + [col]) && AtMost(b, c, sort + [col])
        ensures AtMost(a, c, sort + [col])
      {
        LastColumnTransitive(rows, sort, col, a, b, c);
      }
    }
  }

  lemma LastColumnTransitive(rows: set<Json>, sort: seq<Column>, col: Column, a: Json, b: Json, c: Json)
    requires IsPreorder(rows, sort) && a in rows && b in rows && c in rows && Sorts(Level(rows, a, sort), col)
    requires AtMost(a, b, sort + [col]) && AtMost(b, c, sort + [col])
    ensures AtMost(a, c, sort + [col])
  {
    CompareAppend(a, b, sort, col);
    CompareAppend(b, c, sort, col);
    CompareAppend(a, c, sort, col);
    BelowStays(rows, sort, a, b, c);
    if Compare(a, b, sort) == Equal && Compare(b, c, sort) == Equal {
      var group := Level(rows, a, sort);
      CompareFlips(a, a, sort);
      PreorderIff(group, col);
      OneColumn(a, b, col);
      OneColumn(b, c, col);
      OneColumn(a, c, col);
      Transitive(group, [col], a, b, c);
    }
  }

  // ------------------------------------------------------------------
  // What the order means
  // ------------------------------------------------------------------

  /** `a` goes before `b` by this column, in its own direction. */
  predicate Ahead(a: Json, b: Json, col: Column) {
    if col.descending then ComesBefore(col.value(b), col.value(a)) else ComesBefore(col.value(a), col.value(b))
  }

  /** The column tells the two rows apart. */
  predicate Tells(a: Json, b: Json, col: Column) { Ahead(a, b, col) || Ahead(b, a, col) }

  /** The first column that tells two rows apart puts `a` first. */
  ghost predicate AheadBy(a: Json, b: Json, sort: seq<Column>) {
    exists k :: AheadAt(a, b, sort, k)
  }

  ghost predicate TiedBy(a: Json, b: Json, sort: seq<Column>) { forall k :: 0 <= k < |sort| ==> !Tells(a, b, sort[k]) }

  lemma ColumnCmpMeans(a: Json, b: Json, col: Column)
    ensures ColumnCmp(a, b, col) == (if Ahead(a, b, col) then Less else if Ahead(b, a, col) then Greater else Equal)
    ensures !(Ahead(a, b, col) && Ahead(b, a, col))
  {
    ValueCmpMeans(col.value(a), col.value(b));
  }

  /** The column `k` is the first to tell the rows apart, and puts `a` first. */
  ghost predicate AheadAt(a: Json, b: Json, sort: seq<Column>, k: int) {
    0 <= k < |sort| && Ahead(a, b, sort[k]) && TiedBy(a, b, sort[..k])
  }

  lemma TiedByCons(a: Json, b: Json, sort: seq<Column>)
    requires sort != []
    ensures TiedBy(a, b, sort) <==> !Tells(a, b, sort[0]) && TiedBy(a, b, sort[1..])
  {
    assert forall k :: 0 <= k < |sort[1..]| ==> sort[1..][k] == sort[k + 1];
    assert forall k :: 0 < k < |sort| ==> sort[k] == sort[1..][k - 1];
  }

  lemma AheadAtCons(a: Json, b: Json, sort: seq<Column>, k: int)
    requires sort != [] && k > 0
    ensures AheadAt(a, b, sort, k) <==> !Tells(a, b, sort[0]) && AheadAt(a, b, sort[1..], k - 1)
  {
    if k < |sort| {
      TiedByCons(a, b, sort[..k]);
      assert sort[..k][1..] == sort[1..][..k - 1] && sort[1..][k - 1] == sort[k];
    }
  }

  lemma AheadByCons(a: Json, b: Json, sort: seq<Column>)
    requires sort != []
    ensures AheadBy(a, b, sort) <==> Ahead(a, b, sort[0]) || (!Tells(a, b, sort[0]) && AheadBy(a, b, sort[1..]))
  {
    if AheadBy(a, b, sort) {
      var k :| AheadAt(a, b, sort, k);
      if k > 0 { AheadAtCons(a, b, sort, k); }
    }
    if Ahead(a, b, sort[0]) { assert AheadAt(a, b, sort, 0); }
    if !Tells(a, b, sort[0]) && AheadBy(a, b, sort[1..]) {
      var k :| AheadAt(a, b, sort[1..], k);
      AheadAtCons(a, b, sort, k + 1);
      assert AheadAt(a, b, sort, k + 1);
    }
  }

  /** The comparator answers by the first column that tells the rows apart. */
  lemma {:induction false} CompareMeans(a: Json, b: Json, sort: seq<Column>)
    ensures Compare(a, b, sort) == Less <==> AheadBy(a, b, sort)
    ensures Compare(a, b, sort) == Equal <==> TiedBy(a, b, sort)
    decreases |sort|
  {
    if sort != [] {
      ColumnCmpMeans(a, b, sort[0]);
      AheadByCons(a, b, sort);
      TiedByCons(a, b, sort);
      CompareMeans(a, b, sort[1..]);
    }
  }

  // ------------------------------------------------------------------
  // Sorting
  // ------------------------------------------------------------------

  /** Into a sorted list, after everything that is not greater: equal listings keep their order. */
  function InsertRow(e: Entry, sorted: seq<Entry>, sort: seq<Column>): (r: seq<Entry>)
    ensures multiset(r) == multiset(sorted) + multiset{e}
  {
    if sorted == [] then [e]
    else if Compare(e.flat, sorted[0].flat, sort) != Greater then
      assert [e] + sorted == [e] + sorted[..];
      [e] + sorted
    else
      assert sorted == [sorted[0]] + sorted[1..];
      [sorted[0]] + InsertRow(e, sorted[1..], sort)
  }

  /** The result of the stable library sort. */
  function SortRows(rows: seq<Entry>, sort: seq<Column>): (r: seq<Entry>)
    ensures multiset(r) == multiset(rows)
  {
    if rows == [] then []
    else
      assert rows == [rows[0]] + rows[1..];
      InsertRow(rows[0], SortRows(rows[1..], sort), sort)
  }

  ghost predicate Sorted(rows: seq<Entry>, sort: seq<Column>) {
    forall i, j :: 0 <= i < j < |rows| ==> AtMost(rows[i].flat, rows[j].flat, sort)
  }

  ghost function Flats(rows: seq<Entry>): set<Json> { set e | e in rows :: e.flat }

  lemma {:induction false} InsertedRows(e: Entry, sorted: seq<Entry>, sort: seq<Column>)
    ensures forall x :: x in InsertRow(e, sorted, sort) <==> x == e || x in sorted
    decreases |sorted|
  {
    if sorted != [] { InsertedRows(e, sorted[1..], sort); }
  }

  lemma {:induction false} SortedHasRows(rows: seq<Entry>, sort: seq<Column>)
    ensures forall x :: x in SortRows(rows, sort) <==> x in rows
    decreases |rows|
  {
    if rows != [] {
      SortedHasRows(rows[1..], sort);
      InsertedRows(rows[0], SortRows(rows[1..], sort), sort);
    }
  }

  ghost predicate Before(e: Entry, rows: seq<Entry>, sort: seq<Column>) {
    forall x :: x in rows ==> AtMost(e.flat, x.flat, sort)
  }

  lemma SortedCons(e: Entry, rows: seq<Entry>, sort: seq<Column>)
    requires Sorted(rows, sort) && Before(e, rows, sort)
    ensures Sorted([e] + rows, sort)
  {
  }

  lemma SortedParts(rows: seq<Entry>, sort: seq<Column>)
    requires Sorted(rows, sort) && rows != []
    ensures Sorted(rows[1..], sort) && Before(rows[0], rows[1..], sort)
  {
  }

  /** What is not after the first of a sorted list is not after any of it. */
  lemma BeforeAll(e: Entry, rows: seq<Entry>, sort: seq<Column>, all: set<Json>)
    requires rows != [] && Before(rows[0], rows[1..], sort) && AtMost(e.flat, rows[0].flat, sort)
    requires IsPreorder(all, sort) && e.flat in all && forall x :: x in rows ==> x.flat in all
    ensures Before(e, rows, sort)
  {
    forall x | x in rows ensures AtMost(e.flat, x.flat, sort) {
      if x != rows[0] { assert AtMost(rows[0].flat, x.flat, sort) && rows[0] in rows; }
    }
  }

  lemma {:induction false} InsertRowSorted(e: Entry, sorted: seq<Entry>, sort: seq<Column>, all: set<Json>)
    requires Sorted(sorted, sort) && IsPreorder(all, sort) && e.flat in all && forall x :: x in sorted ==> x.flat in all
    ensures Sorted(InsertRow(e, sorted, sort), sort)
    decreases |sorted|
  {
    if sorted != [] {
      SortedParts(sorted, sort);
      if Compare(e.flat, sorted[0].flat, sort) == Greater {
        InsertRowSorted(e, sorted[1..], sort, all);
        InsertedRows(e, sorted[1..], sort);
        CompareFlips(e.flat, sorted[0].flat, sort);
        SortedCons(sorted[0], InsertRow(e, sorted[1..], sort), sort);
      } else {
        BeforeAll(e, sorted, sort, all);
        SortedCons(e, sorted, sort);
      }
    }
  }

  lemma {:induction false} SortRowsSorted(rows: seq<Entry>, sort: seq<Column>, all: set<Json>)
    requires IsPreorder(all, sort) && forall x :: x in rows ==> x.flat in all
    ensures Sorted(SortRows(rows, sort), sort)
    decreases |rows|
  {
    if rows != [] {
      SortRowsSorted(rows[1..], sort, all);
      SortedHasRows(rows[1..], sort);
      InsertRowSorted(rows[0], SortRows(rows[1..], sort), sort, all);
    }
  }

  /** Rows in the order of the columns. */
  ghost predicate IsOrdered(rows: seq<Entry>, sort: seq<Column>) {
    forall i, j :: 0 <= i < j < |rows| ==> AheadBy(rows[i].flat, rows[j].flat, sort) || TiedBy(rows[i].flat, rows[j].flat, sort)
  }

  lemma SortedIsOrdered(rows: seq<Entry>, sort: seq<Column>)
    requires Sorted(rows, sort)
    ensures IsOrdered(rows, sort)
  {
    forall i, j | 0 <= i < j < |rows| ensures AheadBy(rows[i].flat, rows[j].flat, sort) || TiedBy(rows[i].flat, rows[j].flat, sort) {
      CompareMeans(rows[i].flat, rows[j].flat, sort);
    }
  }

  /** `x` stands somewhere before `y`. */
  ghost predicate Precedes(rows: seq<Entry>, x: Entry, y: Entry) { exists i, j :: 0 <= i < j < |rows| && rows[i] == x && rows[j] == y }

  lemma PrecedesCons(e: Entry, rows: seq<Entry>, x: Entry, y: Entry)
    ensures Precedes([e] + rows, x, y) <==> (x == e && y in rows) || Precedes(rows, x, y)
  {
    var all := [e] + rows;
    if Precedes(all, x, y) {
      var i, j :| 0 <= i < j < |all| && all[i] == x && all[j] == y;
      assert rows[j - 1] == y;
      if i > 0 { assert rows[i - 1] == x; }
    }
    if x == e && y in rows {
      var j :| 0 <= j < |rows| && rows[j] == y;
      assert all[0] == x && all[j + 1] == y;
    }
    if Precedes(rows, x, y) {
      var i, j :| 0 <= i < j < |rows| && rows[i] == x && rows[j] == y;
      assert all[i + 1] == x && all[j + 1] == y;
    }
  }

  /** Inserting keeps the others in order, and puts the new row before those it ties with. */
  lemma {:induction false} InsertRowStable(e: Entry, sorted: seq<Entry>, sort: seq<Column>, x: Entry, y: Entry)
    ensures Precedes(sorted, x, y) ==> Precedes(InsertRow(e, sorted, sort), x, y)
    ensures y in sorted && Compare(e.flat, y.flat, sort) == Equal ==> Precedes(InsertRow(e, sorted, sort), e, y)
    decreases |sorted|
  {
    if sorted != [] {
      assert sorted == [sorted[0]] + sorted[1..];
      if Compare(e.flat, sorted[0].flat, sort) != Greater {
        PrecedesCons(e, sorted, x, y);
        PrecedesCons(e, sorted, e, y);
      } else {
        InsertRowStable(e, sorted[1..], sort, x, y);
        InsertedRows(e, sorted[1..], sort);
        PrecedesCons(sorted[0], sorted[1..], x, y);
        PrecedesCons(sorted[0], InsertRow(e, sorted[1..], sort), x, y);
        PrecedesCons(sorted[0], InsertRow(e, sorted[1..], sort), e, y);
      }
    }
  }

  /** The sort is stable. */
  lemma {:induction false} SortRowsStable(rows: seq<Entry>, sort: seq<Column>, x: Entry, y: Entry)
    requires Precedes(rows, x, y) && Compare(x.flat, y.flat, sort) == Equal
    ensures Precedes(SortRows(rows, sort), x, y)
    decreases |rows|
  {
    var e, rest := rows[0], rows[1..];
    assert rows == [e] + rest;
    PrecedesCons(e, rest, x, y);
    SortedHasRows(rest, sort);
    InsertRowStable(e, SortRows(rest, sort), sort, x, y);
    if Precedes(rest, x, y) { SortRowsStable(rest, sort, x, y); }
  }

  // ------------------------------------------------------------------
  // Queries
  // ------------------------------------------------------------------

  /** `accepts` is the conjunction of the query's name and conditions, on the flat form. */
  datatype RoomQuery = RoomQuery(accepts: Json -> bool, sort: seq<Column>, limit: Option<nat>, offset: nat, count: bool)

  datatype Page = Page(items: seq<Entry>, total: nat, offset: nat, nextOffset: Option<nat>)

  function Matching(rows: seq<Entry>, accepts: Json -> bool): (r: seq<Entry>)
    ensures forall e :: e in r <==> e in rows && accepts(e.flat)
  {
    if rows == [] then []
    else (if accepts(rows[0].flat) then [rows[0]] else []) + Matching(rows[1..], accepts)
  }

  /** All matches, in order; `rows` is the store in its iteration order. */
  function Answer(rows: seq<Entry>, accepts: Json -> bool, sort: seq<Column>): seq<Entry> {
    if sort == [] then Matching(rows, accepts) else SortRows(Matching(rows, accepts), sort)
  }

  function Least(a: nat, b: nat): nat { if a < b then a else b }

  function PageOf(all: seq<Entry>, limit: Option<nat>, offset: nat, count: bool): Page {
    if count then Page([], |all|, offset, None)
    else
      var from := Least(offset, |all|);
      var upto := if limit.Some? then Least(from + limit.value, |all|) else |all|;
      Page(all[from..upto], |all|, from, if upto < |all| then Some(upto) else None)
  }

  class LocalDriver {
    var listings: map<Id, Entry>

    /** Every cached flat form is the flattening of its listing. */
    ghost predicate Valid() reads this {
      forall id :: id in listings ==> listings[id].flat == Flatten(listings[id].listing)
    }

    /** Listings are stored under their own room ids. */
    ghost predicate Keyed() reads this { IsKeyed(listings) }

    constructor ()
      ensures Valid() && Keyed() && listings == map[]
    {
      listings := map[];
    }

    method Insert(listing: RoomListing)
      requires Valid()
      modifies this
      ensures Valid() && listings == old(listings)[listing.roomId := Entry(listing, Flatten(listing))]
      ensures old(Keyed()) ==> Keyed()
    {
      listings := listings[listing.roomId := Entry(listing, Flatten(listing))];
    }

    method UpdateById(id: Id, f: RoomListing -> RoomListing) returns (found: bool)
      requires Valid()
      modifies this
      ensures Valid() && (found <==> id in old(listings)) && listings.Keys == old(listings).Keys
      ensures found ==> listings[id].listing == f(old(listings)[id].listing)
      ensures old(Keyed()) && (found ==> listings[id].listing.roomId == id) ==> Keyed()
      ensures forall other :: other in listings && other != id ==> listings[other] == old(listings)[other]
    {
      if id !in listings {
        return false;
      }
      var e := listings[id];
      e := e.(listing := f(e.listing));
      e := e.(flat := Flatten(e.listing));
      listings := listings[id := e];
      return true;
    }

    method Remove(id: Id) returns (found: bool)
      requires Valid()
      modifies this
      ensures Valid() && (found <==> id in old(listings)) && listings == old(listings) - {id}
      ensures old(Keyed()) ==> Keyed()
    {
      found := id in listings;
      listings := listings - {id};
    }

    /** `query_rooms`; `order` is the map's iteration order. */
    method QueryRooms(q: RoomQuery, order: seq<Id>) returns (page: Page)
      requires Enumerates(order, listings.Keys)
      ensures page == PageOf(Answer(Entries(listings, order), q.accepts, q.sort), q.limit, q.offset, q.count)
    {
      var matched := Filter(Entries(listings, order), q.accepts);
      if q.sort != [] {
        matched := SortRows(matched, q.sort);
      }
      page := Cut(matched, q.limit, q.offset, q.count);
    }
  }

  /** `skip`, `take` and the next offset. */
  method Cut(matched: seq<Entry>, limit: Option<nat>, offset: nat, count: bool) returns (page: Page)
    ensures page == PageOf(matched, limit, offset, count)
  {
    if count {
      return Page([], |matched|, offset, None);
    }
    var from := Least(offset, |matched|);
    var rest := matched[from..];
    var items := if limit.Some? then rest[..Least(limit.value, |rest|)] else rest;
    var nextOffset := if from + |items| < |matched| then Some(from + |items|) else None;
    page := Page(items, |matched|, from, nextOffset);
  }

  ghost predicate IsKeyed(listings: map<Id, Entry>) {
    forall id :: id in listings ==> listings[id].listing.roomId == id
  }

  function Entries(listings: map<Id, Entry>, order: seq<Id>): (r: seq<Entry>)
    requires forall id :: id in order ==> id in listings
    ensures |r| == |order| && forall i :: 0 <= i < |r| ==> r[i] == listings[order[i]]
  {
    seq(|order|, i requires 0 <= i < |order| => listings[order[i]])
  }

  lemma {:induction false} MatchingAppend(x: seq<Entry>, y: seq<Entry>, accepts: Json -> bool)
    ensures Matching(x + y, accepts) == Matching(x, accepts) + Matching(y, accepts)
    decreases |x|
  {
    if x == [] {
      assert x + y == y;
    } else {
      assert (x + y)[1..] == x[1..] + y;
      MatchingAppend(x[1..], y, accepts);
    }
  }

  lemma MatchingOneMore(rows: seq<Entry>, i: nat, accepts: Json -> bool)
    requires i < |rows|
    ensures Matching(rows[..i + 1], accepts) == Matching(rows[..i], accepts) + (if accepts(rows[i].flat) then [rows[i]] else [])
  {
    assert rows[..i + 1] == rows[..i] + [rows[i]] && [rows[i]][1..] == [];
    MatchingAppend(rows[..i], [rows[i]], accepts);
  }

  method Filter(rows: seq<Entry>, accepts: Json -> bool) returns (matched: seq<Entry>)
    ensures matched == Matching(rows, accepts)
  {
    matched := [];
    var i := 0;
    while i < |rows|
      invariant i <= |rows| && matched == Matching(rows[..i], accepts)
    {
      MatchingOneMore(rows, i, accepts);
      if accepts(rows[i].flat) {
        matched := matched + [rows[i]];
      }
      i := i + 1;
    }
    assert rows[..i] == rows;
  }

  // ------------------------------------------------------------------
  // Following the pages
  // ------------------------------------------------------------------

  /** Every matching listing of the store exactly once, and nothing else. */
  ghost predicate ListsEachOnce(listings: map<Id, Entry>, accepts: Json -> bool, out: seq<Entry>) {
    && (forall id :: id in listings ==> multiset(out)[listings[id]] == if accepts(listings[id].flat) then 1 else 0)
    && (forall e :: e in out ==> e.listing.roomId in listings && listings[e.listing.roomId] == e)
  }

  /** What a page shows: the rows from the offset on, as many as the limit allows, and where the next page begins. */
  lemma PageShows(all: seq<Entry>, limit: Option<nat>, offset: nat)
    ensures var page := PageOf(all, limit, offset, false);
            && page.total == |all| && page.offset == (if offset <= |all| then offset else |all|)
            && |page.items| == (if limit.Some? && page.offset + limit.value <= |all| then limit.value else |all| - page.offset)
            && (forall i :: 0 <= i < |page.items| ==> page.items[i] == all[page.offset + i])
            && page.nextOffset == if page.offset + |page.items| < |all| then Some(page.offset + |page.items|) else None
    ensures PageOf(all, limit, offset, true) == Page([], |all|, offset, None)
  {
  }

  lemma PageExtends(all: seq<Entry>, limit: nat, offset: nat)
    requires offset <= |all| && limit >= 1
    ensures var page := PageOf(all, Some(limit), offset, false);
            && all[..offset] + page.items == all[..offset + |page.items|]
            && (page.nextOffset.None? ==> all[..offset] + page.items == all)
            && (page.nextOffset.Some? ==> offset < page.nextOffset.value == offset + |page.items| <= |all|)
  {
  }

  /**
   * `listRoomsAll`: query page after page until there is no next one. Over an unchanged store this
   * ends, and returns every matching listing exactly once, nothing else, and in sorted order when
   * each sort column holds values of one kind.
   */
  method ListRoomsAll(driver: LocalDriver, order: seq<Id>, accepts: Json -> bool, sort: seq<Column>, limit: nat) returns (out: seq<Entry>)
    requires Enumerates(order, driver.listings.Keys) && driver.Keyed() && limit >= 1
    ensures ListsEachOnce(driver.listings, accepts, out)
    ensures OneKind(Flats(out), sort) ==> IsOrdered(out, sort)
  {
    ghost var all := Answer(Entries(driver.listings, order), accepts, sort);
    out := [];
    var offset := 0;
    while true
      invariant offset <= |all| && out == all[..offset]
      decreases |all| - offset
    {
      var page := driver.QueryRooms(RoomQuery(accepts, sort, Some(limit), offset, false), order);
      PageExtends(all, limit, offset);
      out := out + page.items;
      if page.nextOffset.None? {
        AnswerOnce(driver.listings, order, accepts, sort);
        AnswerOrdered(Entries(driver.listings, order), accepts, sort);
        return;
      }
      offset := page.nextOffset.value;
    }
  }

  /** A page moves on exactly when its limit is not zero; with a zero limit the loop would ask for the same page again. */
  lemma PagesAdvanceIff(all: seq<Entry>, limit: nat, offset: nat)
    requires offset < |all|
    ensures PageOf(all, Some(limit), offset, false).nextOffset != Some(offset) <==> limit >= 1
  {
  }

  /** How often a row occurs among the matches. */
  lemma {:induction false} MatchingCounts(rows: seq<Entry>, accepts: Json -> bool, e: Entry)
    ensures multiset(Matching(rows, accepts))[e] == if accepts(e.flat) then multiset(rows)[e] else 0
    decreases |rows|
  {
    if rows != [] {
      assert rows == [rows[0]] + rows[1..];
      MatchingCounts(rows[1..], accepts, e);
    }
  }

  lemma {:induction false} DistinctCounts(rows: seq<Entry>, e: Entry)
    requires Distinct(rows)
    ensures multiset(rows)[e] == if e in rows then 1 else 0
    decreases |rows|
  {
    if rows != [] {
      assert rows == [rows[0]] + rows[1..];
      DistinctCounts(rows[1..], e);
    }
  }

  lemma EntriesDistinct(listings: map<Id, Entry>, order: seq<Id>)
    requires Enumerates(order, listings.Keys) && IsKeyed(listings)
    ensures Distinct(Entries(listings, order))
    ensures forall id :: id in listings ==> listings[id] in Entries(listings, order)
    ensures forall e :: e in Entries(listings, order) ==> e.listing.roomId in listings && listings[e.listing.roomId] == e
  {
    var rows := Entries(listings, order);
    forall id | id in listings ensures listings[id] in rows {
      assert id in order;
      var i :| 0 <= i < |order| && order[i] == id;
      assert rows[i] == listings[id];
    }
    forall i | 0 <= i < |rows| ensures rows[i].listing.roomId == order[i] { assert order[i] in order; }
  }

  /** The answer to a query holds every matching listing of the store exactly once, and nothing else. */
  lemma AnswerOnce(listings: map<Id, Entry>, order: seq<Id>, accepts: Json -> bool, sort: seq<Column>)
    requires Enumerates(order, listings.Keys) && IsKeyed(listings)
    ensures ListsEachOnce(listings, accepts, Answer(Entries(listings, order), accepts, sort))
  {
    var rows := Entries(listings, order);
    EntriesDistinct(listings, order);
    forall id | id in listings
      ensures multiset(Answer(rows, accepts, sort))[listings[id]] == if accepts(listings[id].flat) then 1 else 0
    {
      MatchingCounts(rows, accepts, listings[id]);
      DistinctCounts(rows, listings[id]);
    }
    SortedHasRows(Matching(rows, accepts), sort);
  }

  /**
   * What the order of an answer means: the first column that tells two rows apart decides, upwards or
   * downwards as it says, for columns of one kind each.
   */
  lemma AnswerOrdered(rows: seq<Entry>, accepts: Json -> bool, sort: seq<Column>)
    ensures OneKind(Flats(Answer(rows, accepts, sort)), sort) ==> IsOrdered(Answer(rows, accepts, sort), sort)
  {
    AnswerSorted(rows, accepts, sort);
    if OneKind(Flats(Answer(rows, accepts, sort)), sort) { SortedIsOrdered(Answer(rows, accepts, sort), sort); }
  }

  lemma {:induction false} MatchingPrecedes(rows: seq<Entry>, accepts: Json -> bool, x: Entry, y: Entry)
    requires Precedes(rows, x, y) && accepts(x.flat) && accepts(y.flat)
    ensures Precedes(Matching(rows, accepts), x, y)
    decreases |rows|
  {
    var e, rest := rows[0], rows[1..];
    assert rows == [e] + rest;
    PrecedesCons(e, rest, x, y);
    if Precedes(rest, x, y) { MatchingPrecedes(rest, accepts, x, y); }
    PrecedesCons(e, Matching(rest, accepts), x, y);
    assert Matching(rows, accepts) == if accepts(e.flat) then [e] + Matching(rest, accepts) else Matching(rest, accepts);
  }

  /** Matches that no column tells apart keep the store's order. */
  lemma AnswerStable(rows: seq<Entry>, accepts: Json -> bool, sort: seq<Column>, x: Entry, y: Entry)
    requires Precedes(rows, x, y) && accepts(x.flat) && accepts(y.flat) && TiedBy(x.flat, y.flat, sort)
    ensures Precedes(Answer(rows, accepts, sort), x, y)
  {
    MatchingPrecedes(rows, accepts, x, y);
    CompareMeans(x.flat, y.flat, sort);
    if sort != [] { SortRowsStable(Matching(rows, accepts), sort, x, y); }
  }

  /** For one: sorted upwards by a number, no row has a greater number than a later one; downwards, no smaller one. */
  lemma NumbersInOrder(rows: seq<Entry>, accepts: Json -> bool, field: string, descending: bool, i: nat, j: nat)
    requires var col := Column(field, descending); forall e :: e in Answer(rows, accepts, [col]) ==> col.value(e.flat).Num?
    requires i < j < |Answer(rows, accepts, [Column(field, descending)])|
    ensures var col, out := Column(field, descending), Answer(rows, accepts, [Column(field, descending)]);
            var x, y := AsReal(col.value(out[i].flat).num), AsReal(col.value(out[j].flat).num);
            if descending then x >= y else x <= y
  {
    var col := Column(field, descending);
    var out := Answer(rows, accepts, [col]);
    assert out[i] in out && out[j] in out;
    AnswerOrdered(rows, accepts, [col]);
    assert [col][0] == col;
    assert OneKind(Flats(out), [col]);
    assert AheadBy(out[i].flat, out[j].flat, [col]) || TiedBy(out[i].flat, out[j].flat, [col]);
  }

  /** And it is sorted, for columns of one kind each. */
  lemma AnswerSorted(rows: seq<Entry>, accepts: Json -> bool, sort: seq<Column>)
    ensures OneKind(Flats(Answer(rows, accepts, sort)), sort) ==> Sorted(Answer(rows, accepts, sort), sort)
  {
    var matched := Matching(rows, accepts);
    if sort != [] && OneKind(Flats(Answer(rows, accepts, sort)), sort) {
      SortedHasRows(matched, sort);
      assert Flats(SortRows(matched, sort)) == Flats(matched);
      OneKindIsPreorder(Flats(matched), sort);
      SortRowsSorted(matched, sort, Flats(matched));
    }
  }
}
