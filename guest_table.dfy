/**
 * The guest table's filter and sort rules (src/components/RSVPTable.tsx): the
 * option list of a column's filter drop-down, its ordering with matches first,
 * the checkbox toggle, the two row filters and the assembly of the table's
 * columns from their descriptions. Date parsing is an input (`dayOf`).
 */
module GuestTable {
  import opened Wrappers
  import opened JsText
  import opened Types

  /** `String(value)`. */
  function CellText(c: Cell): string {
    match c
    case Str(s) => s
    case Num(n) => DecimalString(n)
  }

  /** `Boolean(value)`: the empty string and zero are falsy. */
  predicate Truthy(c: Cell) {
    match c
    case Str(s) => s != ""
    case Num(n) => n != 0
  }

  predicate NoDup<T(==)>(xs: seq<T>) {
    forall i, j :: 0 <= i < j < |xs| ==> xs[i] != xs[j]
  }

  /** `Array.from(new Set(xs))`: every value once, at its first position. */
  function Dedup<T(==,!new)>(xs: seq<T>): (r: seq<T>)
    ensures forall x :: x in r <==> x in xs
    ensures NoDup(r)
    decreases |xs|
  {
    if xs == [] then []
    else
      var init := xs[..|xs| - 1];
      assert xs == init + [xs[|xs| - 1]];
      var rest := Dedup(init);
      if xs[|xs| - 1] in rest then rest else rest + [xs[|xs| - 1]]
  }

  /** `.filter(Boolean)` on cells. */
  function KeepTruthy(xs: seq<Cell>): (r: seq<Cell>)
    ensures forall x :: x in r <==> x in xs && Truthy(x)
    ensures NoDup(xs) ==> NoDup(r)
  {
    if xs == [] then []
    else if Truthy(xs[0]) then
      var rest := KeepTruthy(xs[1..]);
      assert NoDup(xs) ==> xs[0] !in xs[1..];
      [xs[0]] + rest
    else KeepTruthy(xs[1..])
  }

  /** The column's values, in row order (`dataset.map(item => item[dataIndex])`). */
  function ColumnValues(rows: seq<Row>, f: Field): (r: seq<Cell>)
    ensures |r| == |rows| && forall i :: 0 <= i < |rows| ==> r[i] == CellOf(rows[i], f)
  {
    seq(|rows|, i requires 0 <= i < |rows| => CellOf(rows[i], f))
  }

  /** The drop-down's options: the column's distinct truthy values (src/components/RSVPTable.tsx:19-21). */
  function UniqueValues(rows: seq<Row>, f: Field): (r: seq<Cell>)
    ensures NoDup(r)
    ensures forall c :: c in r <==> Truthy(c) && exists i :: 0 <= i < |rows| && CellOf(rows[i], f) == c
  {
    var vs := ColumnValues(rows, f);
    var r := KeepTruthy(Dedup(vs));
    assert forall c :: c in vs <==> exists i :: 0 <= i < |rows| && CellOf(rows[i], f) == c by {
      forall c | c in vs ensures exists i :: 0 <= i < |rows| && CellOf(rows[i], f) == c {
        var i :| 0 <= i < |vs| && vs[i] == c;
        assert CellOf(rows[i], f) == c;
      }
    }
    r
  }

  /** The option's text contains the search text, both lowercased. */
  predicate Matches(c: Cell, search: string) {
    Contains(Lower(CellText(c)), Lower(search))
  }

  /** The drop-down's comparator as an order: a match before a non-match, otherwise by text. */
  predicate OptionLe(a: Cell, b: Cell, search: string) {
    (Matches(a, search) && !Matches(b, search))
    || (Matches(a, search) == Matches(b, search) && LessEq(CellText(a), CellText(b)))
  }

  lemma OptionLeTotal(a: Cell, b: Cell, search: string)
    ensures OptionLe(a, b, search) || OptionLe(b, a, search)
  {
    LessEqTotal(CellText(a), CellText(b));
  }

  lemma OptionLeTransitive(a: Cell, b: Cell, c: Cell, search: string)
    requires OptionLe(a, b, search) && OptionLe(b, c, search)
    ensures OptionLe(a, c, search)
  {
    if Matches(a, search) == Matches(b, search) == Matches(c, search) {
      LessEqTransitive(CellText(a), CellText(b), CellText(c));
    }
  }

  predicate SortedBy(s: seq<Cell>, search: string) {
    forall i, j :: 0 <= i < j < |s| ==> OptionLe(s[i], s[j], search)
  }

  /** Puts `x` after every option that sorts no later than it. */
  function Insert(x: Cell, s: seq<Cell>, search: string): (r: seq<Cell>)
    requires SortedBy(s, search)
    ensures multiset(r) == multiset(s) + multiset{x}
    ensures SortedBy(r, search)
  {
    if s == [] then [x]
    else if OptionLe(s[0], x, search) then
      SortedTail(s, search);
      var rest := Insert(x, s[1..], search);
      HeadBelowRest(s, x, rest, search);
      SortedCons(s[0], rest, search);
      assert s == [s[0]] + s[1..];
      [s[0]] + rest
    else
      OptionLeTotal(s[0], x, search);
      forall k | 0 <= k < |s| ensures OptionLe(x, s[k], search) {
        if k > 0 {
          OptionLeTransitive(x, s[0], s[k], search);
        }
      }
      SortedCons(x, s, search);
      [x] + s
  }

  lemma SortedTail(s: seq<Cell>, search: string)
    requires SortedBy(s, search) && s != []
    ensures SortedBy(s[1..], search)
  {
    forall i, j | 0 <= i < j < |s| - 1 ensures OptionLe(s[1..][i], s[1..][j], search) {
      assert s[1..][i] == s[i + 1] && s[1..][j] == s[j + 1];
    }
  }

  /** A sorted list stays sorted under a head that sorts no later than any element. */
  lemma SortedCons(a: Cell, t: seq<Cell>, search: string)
    requires SortedBy(t, search)
    requires forall k :: 0 <= k < |t| ==> OptionLe(a, t[k], search)
    ensures SortedBy([a] + t, search)
  {
    var r := [a] + t;
    forall i, j | 0 <= i < j < |r| ensures OptionLe(r[i], r[j], search) {
      assert r[j] == t[j - 1];
      if i > 0 {
        assert r[i] == t[i - 1];
      }
    }
  }

  /** The head of a sorted list sorts no later than anything in its tail with `x` added, when it sorts no later than `x`. */
  lemma HeadBelowRest(s: seq<Cell>, x: Cell, rest: seq<Cell>, search: string)
    requires SortedBy(s, search) && s != [] && OptionLe(s[0], x, search)
    requires multiset(rest) == multiset(s[1..]) + multiset{x}
    ensures forall k :: 0 <= k < |rest| ==> OptionLe(s[0], rest[k], search)
  {
    forall k | 0 <= k < |rest| ensures OptionLe(s[0], rest[k], search) {
      assert rest[k] in multiset(rest);
      if rest[k] != x {
        assert rest[k] in multiset(s[1..]);
        var j :| 0 <= j < |s[1..]| && s[1..][j] == rest[k];
        assert s[j + 1] == rest[k];
      }
    }
  }

  /** `[...values].sort(comparator)`: a sorted permutation of the options. */
  function SortOptions(xs: seq<Cell>, search: string): (r: seq<Cell>)
    ensures multiset(r) == multiset(xs)
    ensures SortedBy(r, search)
  {
    if xs == [] then []
    else
      assert xs == [xs[0]] + xs[1..];
      Insert(xs[0], SortOptions(xs[1..], search), search)
  }

  /** The options the drop-down lists, in order (src/components/RSVPTable.tsx:19-30). */
  function FilteredOptions(rows: seq<Row>, f: Field, search: string): (r: seq<Cell>)
    ensures multiset(r) == multiset(UniqueValues(rows, f))
    ensures SortedBy(r, search)
  {
    SortOptions(UniqueValues(rows, f), search)
  }

  /** Every option that matches the search comes before every option that does not. */
  lemma MatchesFirst(rows: seq<Row>, f: Field, search: string, i: nat, j: nat)
    requires i < |FilteredOptions(rows, f, search)| && j < |FilteredOptions(rows, f, search)|
    requires Matches(FilteredOptions(rows, f, search)[i], search)
    requires !Matches(FilteredOptions(rows, f, search)[j], search)
    ensures i < j
  {
  }

  /** The ordered options are still the column's distinct truthy values, each once. */
  lemma FilteredOptionsDistinct(rows: seq<Row>, f: Field, search: string)
    ensures var r := FilteredOptions(rows, f, search);
            NoDup(r) && forall c :: c in r <==> c in UniqueValues(rows, f)
  {
    var r := FilteredOptions(rows, f, search);
    var u := UniqueValues(rows, f);
    forall c ensures c in r <==> c in u {
      assert c in r <==> c in multiset(r);
    }
    forall i, j | 0 <= i < j < |r| ensures r[i] != r[j] {
      if r[i] == r[j] {
        MultisetCountTwo(r, i, j);
        assert multiset(u)[r[i]] >= 2;
        NoDupCountOne(u, r[i]);
      }
    }
  }

  lemma MultisetCountTwo<T>(s: seq<T>, i: nat, j: nat)
    requires i < j < |s| && s[i] == s[j]
    ensures multiset(s)[s[i]] >= 2
  {
    assert s == s[..j] + [s[j]] + s[j + 1..];
    assert s[i] in s[..j];
    assert multiset(s) == multiset(s[..j]) + multiset{s[j]} + multiset(s[j + 1..]);
  }

  lemma {:induction false} NoDupCountOne<T>(s: seq<T>, x: T)
    requires NoDup(s)
    ensures multiset(s)[x] <= 1
  {
    if s != [] {
      assert s == [s[0]] + s[1..];
      NoDupCountOne(s[1..], x);
      if x == s[0] {
        assert x !in s[1..];
      }
    }
  }

  /** A click on an option: a checked one leaves the selection, an unchecked one joins it at the end (src/components/RSVPTable.tsx:55-59). */
  function Toggle<T(==,!new)>(selected: seq<T>, val: T): (r: seq<T>)
    ensures val in r <==> val !in selected
    ensures forall k :: k != val ==> (k in r <==> k in selected)
    ensures val !in selected ==> r == selected + [val]
    ensures val in selected ==> |r| < |selected|
  {
    if val in selected then Without(selected, val) else selected + [val]
  }

  /** `selected.filter(k => k !== val)`. */
  function Without<T(==,!new)>(xs: seq<T>, val: T): (r: seq<T>)
    ensures forall k :: k in r <==> k in xs && k != val
    ensures |r| <= |xs| && (val in xs ==> |r| < |xs|)
  {
    if xs == [] then []
    else if xs[0] == val then Without(xs[1..], val)
    else [xs[0]] + Without(xs[1..], val)
  }

  /** The filter keeps the remaining keys in their order: it distributes over concatenation. */
  lemma {:induction false} WithoutAppend<T(!new)>(a: seq<T>, b: seq<T>, val: T)
    ensures Without(a + b, val) == Without(a, val) + Without(b, val)
    decreases |a|
  {
    if a == [] {
      assert a + b == b;
    } else {
      assert (a + b)[0] == a[0] && (a + b)[1..] == a[1..] + b;
      WithoutAppend(a[1..], b, val);
    }
  }

  /** Two clicks on the same option restore which options are selected. */
  lemma ToggleTwice<T(!new)>(selected: seq<T>, val: T)
    ensures forall k :: k in Toggle(Toggle(selected, val), val) <==> k in selected
  {
  }

  /** The default filter: the field's text equals the chosen value's, ignoring case (src/components/RSVPTable.tsx:155-156). */
  predicate ValueFilter(value: Cell, record: Row, f: Field) {
    Lower(CellText(CellOf(record, f))) == Lower(CellText(value))
  }

  /** Every option the drop-down offers keeps at least one row. */
  lemma OptionKeepsSomeRow(rows: seq<Row>, f: Field, search: string, c: Cell)
    requires c in FilteredOptions(rows, f, search)
    ensures exists i :: 0 <= i < |rows| && ValueFilter(c, rows[i], f)
  {
    FilteredOptionsDistinct(rows, f, search);
    var i :| 0 <= i < |rows| && CellOf(rows[i], f) == c;
    assert ValueFilter(c, rows[i], f);
  }

  /** The case of the chosen value does not matter. */
  lemma ValueFilterIgnoresCase(s: string, record: Row, f: Field)
    ensures ValueFilter(Str(Lower(s)), record, f) == ValueFilter(Str(s), record, f)
  {
    LowerIdempotent(s);
  }

  /** A click on a day selects that day alone (src/components/RSVPTable.tsx:121-123). */
  function PickDay(day: string): seq<string> {
    [day]
  }

  /** Typing in the day box: the text, or nothing when it is empty (src/components/RSVPTable.tsx:107). */
  function TypeDay(text: string): (keys: seq<string>)
    ensures text == "" <==> keys == []
    ensures text != "" ==> keys == [text]
  {
    if text != "" then [text] else []
  }

  /** The day box shows `selectedKeys[0] || ''`. */
  function ShownDay(keys: seq<string>): string {
    if keys == [] then "" else keys[0]
  }

  /** What is typed is what the box shows back, and a clicked day is the box's whole selection. */
  lemma TypeDayShown(text: string, day: string)
    ensures ShownDay(TypeDay(text)) == text
    ensures ShownDay(PickDay(day)) == day && |PickDay(day)| == 1
  {
  }

  /**
   * The days offered for the timestamp column: each parseable timestamp's day,
   * once, in row order (src/components/RSVPTable.tsx:93-101). `dayOf` is
   * `new Date(ts).toISOString().slice(0, 10)`, `None` for an invalid date.
   */
  function UniqueDays(rows: seq<Row>, dayOf: string -> Option<string>): (r: seq<string>)
    ensures NoDup(r)
    ensures forall d :: d in r <==> exists i :: 0 <= i < |rows| && dayOf(rows[i].timestamp) == Some(d)
  {
    var days := seq(|rows|, i requires 0 <= i < |rows| => dayOf(rows[i].timestamp));
    var u := Dedup(days);
    var r := SomeValues(u);
    forall d ensures d in r <==> exists i :: 0 <= i < |rows| && dayOf(rows[i].timestamp) == Some(d) {
      if d in r {
        var i :| 0 <= i < |days| && days[i] == Some(d);
      }
      if exists i :: 0 <= i < |rows| && dayOf(rows[i].timestamp) == Some(d) {
        var i :| 0 <= i < |rows| && dayOf(rows[i].timestamp) == Some(d);
        assert days[i] == Some(d);
      }
    }
    r
  }

  /** `.filter(day => day !== null)`, unwrapped. */
  function SomeValues(xs: seq<Option<string>>): (r: seq<string>)
    ensures forall d :: d in r <==> Some(d) in xs
    ensures NoDup(xs) ==> NoDup(r)
  {
    if xs == [] then []
    else
      var rest := SomeValues(xs[1..]);
      match xs[0]
      case None => rest
      case Some(d) =>
        assert NoDup(xs) ==> xs[0] !in xs[1..];
        [d] + rest
  }

  /**
   * The timestamp filter as written (src/components/RSVPTable.tsx:139-143): the
   * record's date is turned into a day without the validity test the drop-down
   * makes, so an unparseable timestamp throws instead of answering.
   */
  function DayFilterAsWritten(value: string, record: Row, dayOf: string -> Option<string>): (r: Option<bool>)
    ensures r.None? <==> dayOf(record.timestamp).None?
  {
    match dayOf(record.timestamp)
    case None => None
    case Some(d) => Some(d == value)
  }

  /** A row built without an attempt carries the timestamp "N/A", which is no date: filtering such a table by day throws. */
  lemma DayFilterThrowsOnMissingTimestamp(value: string, record: Row, dayOf: string -> Option<string>)
    requires record.timestamp == "N/A" && dayOf("N/A").None?
    ensures DayFilterAsWritten(value, record, dayOf).None?
  {
  }

  /** The timestamp filter with the drop-down's validity test: an unparseable timestamp never matches. */
  predicate DayFilter(value: string, record: Row, dayOf: string -> Option<string>) {
    dayOf(record.timestamp) == Some(value)
  }

  /** The corrected filter answers where the written one does, and keeps a row for every day offered. */
  lemma DayFilterAgrees(value: string, rows: seq<Row>, dayOf: string -> Option<string>)
    ensures forall i :: 0 <= i < |rows| && DayFilterAsWritten(value, rows[i], dayOf).Some? ==>
              DayFilterAsWritten(value, rows[i], dayOf) == Some(DayFilter(value, rows[i], dayOf))
    ensures value in UniqueDays(rows, dayOf) <==> exists i :: 0 <= i < |rows| && DayFilter(value, rows[i], dayOf)
  {
  }

  /** Which filter a column gets. */
  datatype SearchProps = DaySearch | ValueSearch(field: Field)

  /** The table's column as handed to the table widget. */
  datatype TableColumn = TableColumn(
    title: string,
    dataIndex: Field,
    key: string,
    render: Option<Render>,
    width: Option<int>,
    search: Option<SearchProps>,
    sorter: Option<Sorter>)

  /** `getColumnSearchProps`: the day filter for the timestamp column, the value filter otherwise. */
  function SearchPropsFor(f: Field): (p: SearchProps)
    ensures p.DaySearch? <==> f == Timestamp
    ensures p.ValueSearch? ==> p.field == f
  {
    if f == Timestamp then DaySearch else ValueSearch(f)
  }

  function AssembleColumn(col: CustomColumn): (c: TableColumn)
    ensures c.search.Some? <==> col.enableSearch
    ensures c.search.Some? ==> c.search.value == SearchPropsFor(col.dataIndex)
    ensures c.sorter.Some? <==> col.enableSort && col.sorter.Some?
    ensures c.sorter.Some? ==> c.sorter == col.sorter
  {
    TableColumn(
      col.title, col.dataIndex, col.key, col.render, col.width,
      if col.enableSearch then Some(SearchPropsFor(col.dataIndex)) else None,
      if col.enableSort && col.sorter.Some? then col.sorter else None)
  }

  /** The table's columns, one per description, in order; no descriptions means none (src/components/RSVPTable.tsx:162-186). */
  function AssembleColumns(cols: Option<seq<CustomColumn>>): (r: seq<TableColumn>)
    ensures cols.None? ==> r == []
    ensures cols.Some? ==> |r| == |cols.value|
    ensures cols.Some? ==> forall i :: 0 <= i < |r| ==>
              r[i] == AssembleColumn(cols.value[i])
              && r[i].title == cols.value[i].title && r[i].key == cols.value[i].key
              && r[i].dataIndex == cols.value[i].dataIndex
  {
    match cols
    case None => []
    case Some(cs) => seq(|cs|, i requires 0 <= i < |cs| => AssembleColumn(cs[i]))
  }

  /** `propData || []`. */
  function TableData(data: Option<seq<Row>>): seq<Row> {
    data.GetOr([])
  }
}
