/** ORDER BY: the order a caller asks for, and the arrangements of rows a database may answer with. */
module Ordering {
  import opened Wrappers
  import opened FilterCompiler

  // ---------- The order asked for ----------

  datatype Order = Order(column: string, descending: bool)

  /** "column" or "column.direction"; every direction but "desc" is ascending, and no text no order. */
  function OrderOf(order: Option<string>): Option<Order> {
    if order.None? || order.value == "" then None
    else
      var split := SplitAtDot(order.value);
      if split.None? then Some(Order(order.value, false))
      else Some(Order(split.value.0, split.value.1 == "desc"))
  }

  predicate GoodOrder(order: Option<Order>) {
    order.Some? ==> IsIdentifier(order.value.column)
  }

  // ---------- Sorted rows ----------

  ghost predicate Total(atMost: (SqlValue, SqlValue) -> bool) {
    forall a, b :: atMost(a, b) || atMost(b, a)
  }

  ghost predicate Transitive(atMost: (SqlValue, SqlValue) -> bool) {
    forall a, b, c :: atMost(a, b) && atMost(b, c) ==> atMost(a, c)
  }

  /** How the database orders values that are not null. */
  type Collation = atMost: (SqlValue, SqlValue) -> bool | Total(atMost) && Transitive(atMost)
    witness (a: SqlValue, b: SqlValue) => true

  /** Ascending puts nulls last, descending first. */
  predicate ValueAtMost(collation: Collation, descending: bool, a: SqlValue, b: SqlValue) {
    if descending then a.SqlNull? || (!b.SqlNull? && collation(b, a))
    else b.SqlNull? || (!a.SqlNull? && collation(a, b))
  }

  predicate AtMost(collation: Collation, o: Order, a: Row, b: Row) {
    ValueAtMost(collation, o.descending, Cell(a, o.column), Cell(b, o.column))
  }

  predicate Sorted(collation: Collation, o: Order, rows: seq<Row>) {
    forall i, j :: 0 <= i < j < |rows| ==> AtMost(collation, o, rows[i], rows[j])
  }

  /** What a SELECT may answer with: the rows in some sequence, sorted when an order is asked for. Which one,
      among rows that compare equal, is for the database to choose. */
  predicate Arrangement(collation: Collation, order: Option<Order>, rows: seq<Row>, arranged: seq<Row>) {
    && multiset(arranged) == multiset(rows)
    && (order.Some? ==> Sorted(collation, order.value, arranged))
  }

  lemma SameRows(rows: seq<Row>, arranged: seq<Row>)
    requires multiset(arranged) == multiset(rows)
    ensures |arranged| == |rows|
    ensures forall row :: row in arranged <==> row in rows
  {
    assert |multiset(arranged)| == |multiset(rows)|;
    assert forall row :: row in arranged <==> row in multiset(arranged);
  }

  // ---------- What an order text promises ----------

  /** Nulls last, then never before. */
  ghost predicate Ascending(collation: Collation, column: string, rows: seq<Row>) {
    forall i, j :: 0 <= i < j < |rows| ==>
      var a, b := Cell(rows[i], column), Cell(rows[j], column);
      b == SqlNull || (a != SqlNull && collation(a, b))
  }

  /** Nulls first. */
  ghost predicate Descending(collation: Collation, column: string, rows: seq<Row>) {
    forall i, j :: 0 <= i < j < |rows| ==>
      var a, b := Cell(rows[i], column), Cell(rows[j], column);
      a == SqlNull || (b != SqlNull && collation(b, a))
  }

  /** "column.desc" asks for descending rows; "column" alone, and "column" with any other direction, for
      ascending ones; no text and the empty one for no order. */
  ghost predicate InOrder(collation: Collation, order: Option<string>, rows: seq<Row>) {
    order.Some? && order.value != "" ==>
      forall column: string {:trigger Ascending(collation, column, rows)} {:trigger Descending(collation, column, rows)} ::
        '.' !in column ==>
          && (order.value == column ==> Ascending(collation, column, rows))
          && (order.value == column + ".desc" ==> Descending(collation, column, rows))
          && (forall d: string :: order.value == column + ("." + d) && d != "desc" ==> Ascending(collation, column, rows))
  }

  lemma ColumnSplit(text: string, column: string, d: string)
    requires '.' !in column && text == column + ("." + d)
    ensures SplitAtDot(text) == Some((column, d))
  {
    assert text[|column|] == '.';
    FirstDot(SplitAtDot(text).value.0, SplitAtDot(text).value.1, column, d);
  }

  /** What a text is read as: the part before the first dot, and whether the rest is "desc". */
  lemma OrderOfIs(column: string, d: string)
    requires '.' !in column
    ensures OrderOf(None).None? && OrderOf(Some("")).None?
    ensures column != "" ==> OrderOf(Some(column)) == Some(Order(column, false))
    ensures OrderOf(Some(column + ("." + d))) == Some(Order(column, d == "desc"))
  {
    ColumnSplit(column + ("." + d), column, d);
  }

  lemma SortedIs(collation: Collation, o: Order, rows: seq<Row>)
    requires Sorted(collation, o, rows)
    ensures if o.descending then Descending(collation, o.column, rows) else Ascending(collation, o.column, rows)
  {
    forall i, j | 0 <= i < j < |rows|
      ensures var a, b := Cell(rows[i], o.column), Cell(rows[j], o.column);
              if o.descending then a == SqlNull || (b != SqlNull && collation(b, a))
              else b == SqlNull || (a != SqlNull && collation(a, b))
    {
      assert AtMost(collation, o, rows[i], rows[j]);
    }
  }

  /** An arrangement for the order read from a text is in the order the text asks for. */
  lemma ArrangementIsInOrder(collation: Collation, order: Option<string>, rows: seq<Row>, arranged: seq<Row>)
    requires Arrangement(collation, OrderOf(order), rows, arranged)
    ensures InOrder(collation, order, arranged)
  {
    if order.Some? && order.value != "" {
      SortedIs(collation, OrderOf(order).value, arranged);
      forall column: string | '.' !in column
        ensures order.value == column ==> Ascending(collation, column, arranged)
        ensures order.value == column + ".desc" ==> Descending(collation, column, arranged)
        ensures forall d: string :: order.value == column + ("." + d) && d != "desc" ==>
                                      Ascending(collation, column, arranged)
      {
        if order.value == column {
          OrderOfIs(column, "");
        }
        if order.value == column + ".desc" {
          assert column + ".desc" == column + ("." + "desc");
          OrderOfIs(column, "desc");
        }
        forall d: string | order.value == column + ("." + d) && d != "desc"
          ensures Ascending(collation, column, arranged)
        {
          OrderOfIs(column, d);
        }
      }
    }
  }

  // ---------- One such arrangement ----------

  function Placed(collation: Collation, o: Order, row: Row, rows: seq<Row>): seq<Row> {
    if rows == [] || AtMost(collation, o, row, rows[0]) then [row] + rows
    else [rows[0]] + Placed(collation, o, row, rows[1..])
  }

  function SortedRows(collation: Collation, o: Order, rows: seq<Row>): seq<Row> {
    if rows == [] then [] else Placed(collation, o, rows[0], SortedRows(collation, o, rows[1..]))
  }

  function Arranged(collation: Collation, order: Option<Order>, rows: seq<Row>): seq<Row> {
    if order.Some? then SortedRows(collation, order.value, rows) else rows
  }

  lemma RowsTotal(collation: Collation, o: Order, a: Row, b: Row)
    ensures AtMost(collation, o, a, b) || AtMost(collation, o, b, a)
  {
  }

  lemma RowsTransitive(collation: Collation, o: Order, a: Row, b: Row, c: Row)
    requires AtMost(collation, o, a, b) && AtMost(collation, o, b, c)
    ensures AtMost(collation, o, a, c)
  {
  }

  lemma {:induction false} PlacedIs(collation: Collation, o: Order, row: Row, rows: seq<Row>)
    requires Sorted(collation, o, rows)
    ensures multiset(Placed(collation, o, row, rows)) == multiset(rows) + multiset{row}
    ensures Sorted(collation, o, Placed(collation, o, row, rows))
  {
    if rows != [] {
      assert rows == [rows[0]] + rows[1..];
      if AtMost(collation, o, row, rows[0]) {
        forall j | 0 < j < |rows| ensures AtMost(collation, o, row, rows[j]) {
          RowsTransitive(collation, o, row, rows[0], rows[j]);
        }
      } else {
        PlacedIs(collation, o, row, rows[1..]);
        RowsTotal(collation, o, row, rows[0]);
        var rest := Placed(collation, o, row, rows[1..]);
        forall i | 0 <= i < |rest| ensures AtMost(collation, o, rows[0], rest[i]) {
          assert rest[i] in multiset(rest);
        }
      }
    }
  }

  /** Sorting gives one of the arrangements. */
  lemma {:induction false} ArrangedIs(collation: Collation, order: Option<Order>, rows: seq<Row>)
    ensures Arrangement(collation, order, rows, Arranged(collation, order, rows))
  {
    if order.Some? && rows != [] {
      ArrangedIs(collation, order, rows[1..]);
      PlacedIs(collation, order.value, rows[0], SortedRows(collation, order.value, rows[1..]));
      assert rows == [rows[0]] + rows[1..];
    }
  }
}
