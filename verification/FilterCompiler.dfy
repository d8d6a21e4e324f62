/** The compiler from filter maps to WHERE clauses with bound parameters, and its meaning. */
module FilterCompiler {
  import opened Wrappers
  import opened ParameterNames

  // ---------- Filters ----------

  /** A value bound to a statement or stored in a row; `Stamp` is a parsed date and time. */
  datatype SqlValue = SqlNull | SqlText(text: string) | SqlStamp(stamp: string) | SqlBool(b: bool) | SqlNumber(n: real)

  datatype FilterValue = Absent | Many(items: seq<SqlValue>) | One(value: SqlValue)

  datatype Filter = Filter(field: string, value: FilterValue)

  /** A filter map in insertion order. */
  predicate DistinctFields(filters: seq<Filter>) {
    forall i, j :: 0 <= i < j < |filters| ==> filters[i].field != filters[j].field
  }

  datatype Operator = Eq | Neq | Gte | Lte | Gt | Lt | ILike

  function OperatorName(op: Operator): string {
    match op
    case Eq => "eq"
    case Neq => "neq"
    case Gte => "gte"
    case Lte => "lte"
    case Gt => "gt"
    case Lt => "lt"
    case ILike => "ilike"
  }

  // ---------- ISO timestamps ----------

  predicate DigitsAt(s: string, i: nat, n: nat) {
    i + n <= |s| && forall k :: i <= k < i + n ==> IsDigit(s[k])
  }

  predicate OffsetAt(s: string, i: nat) {
    || (i + 1 == |s| && s[i] == 'Z')
    || (i + 6 == |s| && (s[i] == '+' || s[i] == '-') && DigitsAt(s, i + 1, 2) && s[i + 3] == ':' && DigitsAt(s, i + 4, 2))
  }

  /** YYYY-MM-DDTHH:MM:SS, an optional fraction, and Z or an offset. */
  predicate IsIsoDateTime(s: string) {
    && |s| >= 20
    && DigitsAt(s, 0, 4) && s[4] == '-' && DigitsAt(s, 5, 2) && s[7] == '-' && DigitsAt(s, 8, 2) && s[10] == 'T'
    && DigitsAt(s, 11, 2) && s[13] == ':' && DigitsAt(s, 14, 2) && s[16] == ':' && DigitsAt(s, 17, 2)
    && (OffsetAt(s, 19) || (s[19] == '.' && exists n: nat :: 1 <= n <= |s| && DigitsAt(s, 20, n) && OffsetAt(s, 20 + n)))
  }

  /** coerce_filter_value */
  function Coerced(v: SqlValue): SqlValue {
    if v.SqlText? && IsIsoDateTime(v.text) then SqlStamp(v.text) else v
  }

  /** The text has the pattern's shape: a digit for each 0, and otherwise the same characters. */
  predicate Fits(s: string, pattern: string) {
    |s| == |pattern| && forall i :: 0 <= i < |s| ==> if pattern[i] == '0' then IsDigit(s[i]) else s[i] == pattern[i]
  }

  predicate IsFraction(s: string) {
    s == "" || (|s| > 1 && s[0] == '.' && forall i :: 0 < i < |s| ==> IsDigit(s[i]))
  }

  /** The text is a date and time, a fraction of a second or none, and Z or an offset. */
  predicate InParts(s: string, moment: string, fraction: string, zone: string) {
    && s == moment + fraction + zone && Fits(moment, "0000-00-00T00:00:00") && IsFraction(fraction)
    && (zone == "Z" || Fits(zone, "+00:00") || Fits(zone, "-00:00"))
  }

  lemma PartsAreIso(s: string, moment: string, fraction: string, zone: string)
    requires InParts(s, moment, fraction, zone)
    ensures IsIsoDateTime(s)
  {
    assert forall i :: 0 <= i < 19 ==> s[i] == moment[i];
    assert forall i :: 0 <= i < |fraction| ==> s[19 + i] == fraction[i];
    var n := |fraction|;
    assert forall i :: 0 <= i < |zone| ==> s[19 + n + i] == zone[i];
    assert OffsetAt(s, 19 + n);
    if n > 0 {
      assert DigitsAt(s, 20, n - 1) && OffsetAt(s, 20 + (n - 1));
    }
  }

  lemma OffsetIsZone(s: string, i: nat)
    requires i <= |s| && OffsetAt(s, i)
    ensures s[i..] == "Z" || Fits(s[i..], "+00:00") || Fits(s[i..], "-00:00")
  {
  }

  lemma IsoInParts(s: string) returns (moment: string, fraction: string, zone: string)
    requires IsIsoDateTime(s)
    ensures InParts(s, moment, fraction, zone)
  {
    moment := s[..19];
    var n: nat := 0;
    if !OffsetAt(s, 19) {
      var digits: nat :| 1 <= digits <= |s| && DigitsAt(s, 20, digits) && OffsetAt(s, 20 + digits);
      n := digits + 1;
    }
    fraction, zone := s[19..19 + n], s[19 + n..];
    OffsetIsZone(s, 19 + n);
    assert s == moment + fraction + zone;
    assert forall i :: 0 < i < n ==> fraction[i] == s[19 + i];
  }

  /** A text becomes a timestamp exactly when it is one in full; every other value stays as it is. */
  lemma CoercedIs(v: SqlValue)
    ensures v.SqlText? && (exists moment, fraction, zone :: InParts(v.text, moment, fraction, zone)) ==>
              Coerced(v) == SqlStamp(v.text)
    ensures !(v.SqlText? && exists moment, fraction, zone :: InParts(v.text, moment, fraction, zone)) ==> Coerced(v) == v
  {
    if v.SqlText? {
      forall moment, fraction, zone | InParts(v.text, moment, fraction, zone) ensures IsIsoDateTime(v.text) {
        PartsAreIso(v.text, moment, fraction, zone);
      }
      if IsIsoDateTime(v.text) {
        var moment, fraction, zone := IsoInParts(v.text);
      }
    }
  }

  // ---------- SQL ----------

  predicate IsIdentifier(s: string) {
    && s != [] && (('a' <= s[0] <= 'z') || s[0] == '_')
    && forall c :: c in s ==> ('a' <= c <= 'z') || c == '_' || IsDigit(c)
  }

  /** One conjunct of a WHERE clause; `name` stands for the placeholder `:name`. */
  datatype Clause =
    | IsNull(field: string)
    | In(field: string, names: seq<string>)
    | Never
    | Compare(field: string, op: Operator, name: string)

  type Parameters = map<string, SqlValue>

  datatype Where = Where(clauses: seq<Clause>, parameters: Parameters)

  type Row = map<string, SqlValue>

  /** How the database orders and matches values; only equality with a text is fixed here. */
  type Comparison = (Operator, SqlValue, SqlValue) -> bool

  function Cell(row: Row, field: string): SqlValue {
    if field in row then row[field] else SqlNull
  }

  /** A comparison is true only between values that are not null. */
  predicate Holds(cmp: Comparison, op: Operator, a: SqlValue, b: SqlValue) {
    && !a.SqlNull? && !b.SqlNull?
    && if op == Eq && (a.SqlText? || b.SqlText?) then a == b else cmp(op, a, b)
  }

  function Bound(parameters: Parameters, name: string): SqlValue {
    if name in parameters then parameters[name] else SqlNull
  }

  predicate ClauseTrue(cmp: Comparison, c: Clause, parameters: Parameters, row: Row) {
    match c
    case IsNull(field) => Cell(row, field) == SqlNull
    case In(field, names) => exists n :: n in names && Holds(cmp, Eq, Cell(row, field), Bound(parameters, n))
    case Never => false
    case Compare(field, op, name) => Holds(cmp, op, Cell(row, field), Bound(parameters, name))
  }

  /** A row is selected when every conjunct is true; no WHERE selects every row. */
  predicate Selects(cmp: Comparison, w: Where, row: Row) {
    forall c :: c in w.clauses ==> ClauseTrue(cmp, c, w.parameters, row)
  }

  // ---------- The intended meaning of a filter ----------

  predicate IsOperation(s: string, op: Operator, rest: string) {
    s == OperatorName(op) + "." + rest
  }

  ghost predicate Operation(s: string) {
    exists op, rest :: IsOperation(s, op, rest)
  }

  /** Null asks for null; a list for any of its items; "op.value" for the comparison; "is.null" for
      null; anything else, dots included, for equality. */
  ghost predicate Intended(cmp: Comparison, f: Filter, row: Row) {
    match f.value
    case Absent => Cell(row, f.field) == SqlNull
    case Many(items) => exists i :: i in items && Holds(cmp, Eq, Cell(row, f.field), Coerced(i))
    case One(v) =>
      if v.SqlText? && Operation(v.text) then
        exists op, rest :: IsOperation(v.text, op, rest) && Holds(cmp, op, Cell(row, f.field), Coerced(SqlText(rest)))
      else if v == SqlText("is.null") then Cell(row, f.field) == SqlNull
      else Holds(cmp, Eq, Cell(row, f.field), Coerced(v))
  }

  // ---------- The compiler ----------

  /** str.split(".", 1) */
  function SplitAtDot(s: string): (r: Option<(string, string)>)
    ensures r.Some? ==> s == r.value.0 + "." + r.value.1 && '.' !in r.value.0
    ensures r.None? ==> '.' !in s
  {
    if s == "" then None
    else if s[0] == '.' then Some(("", s[1..]))
    else
      var rest := SplitAtDot(s[1..]);
      if rest.Some? then Some(([s[0]] + rest.value.0, rest.value.1)) else None
  }

  function OperatorNamed(s: string): Option<Operator> {
    if s == "eq" then Some(Eq) else if s == "neq" then Some(Neq) else if s == "gte" then Some(Gte)
    else if s == "lte" then Some(Lte) else if s == "gt" then Some(Gt) else if s == "lt" then Some(Lt)
    else if s == "ilike" then Some(ILike) else None
  }

  /** One filter's conjunct and parameters, as the `index`-th of its map. */
  datatype Compiled = Compiled(clause: Clause, parameters: Parameters)

  function ItemNames(index: nat, n: nat): seq<string> {
    seq(n, j requires 0 <= j < n => ItemName(index, j))
  }

  function ItemParameters(index: nat, items: seq<SqlValue>): Parameters {
    if items == [] then map[]
    else
      var n := |items| - 1;
      ItemParameters(index, items[..n])[ItemName(index, n) := Coerced(items[n])]
  }

  function CompileOne(index: nat, field: string, v: SqlValue): Compiled {
    var name := FilterName(index);
    var plain := Compiled(Compare(field, Eq, name), map[name := Coerced(v)]);
    if !v.SqlText? then plain
    else
      var split := SplitAtDot(v.text);
      if split.None? then plain
      else
        var op := OperatorNamed(split.value.0);
        if op.Some? then Compiled(Compare(field, op.value, name), map[name := Coerced(SqlText(split.value.1))])
        else if split.value.0 == "is" && split.value.1 == "null" then Compiled(IsNull(field), map[])
        else plain
  }

  function Compile(index: nat, f: Filter): Compiled {
    match f.value
    case Absent => Compiled(IsNull(f.field), map[])
    case Many(items) =>
      Compiled(if items == [] then Never else In(f.field, ItemNames(index, |items|)), ItemParameters(index, items))
    case One(v) => CompileOne(index, f.field, v)
  }

  function Clauses(filters: seq<Filter>): seq<Clause> {
    seq(|filters|, i requires 0 <= i < |filters| => Compile(i, filters[i]).clause)
  }

  function AllParameters(filters: seq<Filter>): Parameters {
    if filters == [] then map[]
    else
      var n := |filters| - 1;
      AllParameters(filters[..n]) + Compile(n, filters[n]).parameters
  }

  function Compilation(filters: seq<Filter>): Where {
    Where(Clauses(filters), AllParameters(filters))
  }

  predicate GoodFields(filters: seq<Filter>) {
    forall f :: f in filters ==> IsIdentifier(f.field)
  }

  // ---------- build_filters ----------

  datatype FilterError = InvalidIdentifier(field: string)

  /** A list's placeholders and parameters are collected item by item. */
  method CompileItems(index: nat, items: seq<SqlValue>, parameters: Parameters)
    returns (names: seq<string>, more: Parameters)
    ensures names == ItemNames(index, |items|)
    ensures more == parameters + ItemParameters(index, items)
  {
    names, more := [], parameters;
    for j := 0 to |items|
      invariant names == ItemNames(index, j)
      invariant more == parameters + ItemParameters(index, items[..j])
    {
      assert items[..j + 1][..j] == items[..j];
      more := more[ItemName(index, j) := Coerced(items[j])];
      names := names + [ItemName(index, j)];
    }
    assert items[..|items|] == items;
  }

  lemma CompileNext(filters: seq<Filter>, n: nat)
    requires n < |filters|
    ensures Clauses(filters[..n + 1]) == Clauses(filters[..n]) + [Compile(n, filters[n]).clause]
    ensures AllParameters(filters[..n + 1]) == AllParameters(filters[..n]) + Compile(n, filters[n]).parameters
  {
    assert filters[..n + 1][..n] == filters[..n];
  }

  /** One filter's conjunct and its parameters, added to those before. */
  method CompileFilter(index: nat, f: Filter, parameters: Parameters) returns (clause: Clause, more: Parameters)
    ensures clause == Compile(index, f).clause
    ensures more == parameters + Compile(index, f).parameters
  {
    match f.value {
      case Absent =>
        return IsNull(f.field), parameters;
      case Many(items) =>
        var names;
        names, more := CompileItems(index, items, parameters);
        clause := if items != [] then In(f.field, names) else Never;
      case One(v) =>
        var compiled := CompileOne(index, f.field, v);
        return compiled.clause, parameters + compiled.parameters;
    }
  }

  method BuildFilters(filters: seq<Filter>) returns (r: Result<Where, FilterError>)
    ensures r.Success? <==> GoodFields(filters)
    ensures r.Success? ==> r.value == Compilation(filters)
    ensures r.Failure? ==> exists f :: f in filters && f.field == r.error.field && !IsIdentifier(f.field)
  {
    var clauses: seq<Clause>, parameters: Parameters := [], map[];
    for index := 0 to |filters|
      invariant forall i :: 0 <= i < index ==> IsIdentifier(filters[i].field)
      invariant clauses == Clauses(filters[..index])
      invariant parameters == AllParameters(filters[..index])
    {
      if !IsIdentifier(filters[index].field) {
        return Failure(InvalidIdentifier(filters[index].field));
      }
      CompileNext(filters, index);
      var clause;
      clause, parameters := CompileFilter(index, filters[index], parameters);
      clauses := clauses + [clause];
    }
    assert filters[..|filters|] == filters;
    return Success(Where(clauses, parameters));
  }

  // ---------- Parameters: all bound, all used, none shared ----------

  function NamesOf(c: Clause): set<string> {
    match c
    case In(_, names) => set n | n in names
    case Compare(_, _, name) => {name}
    case _ => {}
  }

  lemma {:induction false} ItemsBound(index: nat, items: seq<SqlValue>)
    ensures forall j :: 0 <= j < |items| ==>
              ItemName(index, j) in ItemParameters(index, items)
              && ItemParameters(index, items)[ItemName(index, j)] == Coerced(items[j])
  {
    if items != [] {
      var n := |items| - 1;
      ItemsBound(index, items[..n]);
      forall j | 0 <= j < n ensures ItemName(index, j) != ItemName(index, n) {
        if ItemName(index, j) == ItemName(index, n) {
          ItemNamesDistinct(index, j, index, n);
        }
      }
    }
  }

  lemma {:induction false} ItemsNamed(index: nat, items: seq<SqlValue>, name: string)
    ensures name in ItemParameters(index, items) <==> name in ItemNames(index, |items|)
  {
    if items != [] {
      var n := |items| - 1;
      ItemsNamed(index, items[..n], name);
      assert ItemNames(index, |items|) == ItemNames(index, n) + [ItemName(index, n)];
    }
  }

  /** A filter's conjunct uses exactly the parameters compiled for it. */
  lemma OwnNames(index: nat, f: Filter)
    ensures forall name :: name in NamesOf(Compile(index, f).clause) <==> name in Compile(index, f).parameters
  {
    if f.value.Many? {
      forall name ensures name in ItemParameters(index, f.value.items) <==> name in ItemNames(index, |f.value.items|) {
        ItemsNamed(index, f.value.items, name);
      }
    }
  }

  lemma NamesAreIndexed(index: nat, f: Filter, name: string)
    requires name in Compile(index, f).parameters
    ensures name == FilterName(index) || exists j: nat :: name == ItemName(index, j)
  {
    if f.value.Many? {
      ItemsNamed(index, f.value.items, name);
    }
  }

  lemma NamesUnshared(i: nat, f: Filter, k: nat, g: Filter, name: string)
    requires name in Compile(i, f).parameters && name in Compile(k, g).parameters
    ensures i == k
  {
    NamesAreIndexed(i, f, name);
    NamesAreIndexed(k, g, name);
    if name == FilterName(i) {
      if name == FilterName(k) {
        FilterNamesDistinct(i, k);
      } else {
        var j: nat :| name == ItemName(k, j);
        FilterIsNotItem(i, k, j);
      }
    } else {
      var j: nat :| name == ItemName(i, j);
      if name == FilterName(k) {
        FilterIsNotItem(k, i, j);
      } else {
        var l: nat :| name == ItemName(k, l);
        ItemNamesDistinct(i, j, k, l);
      }
    }
  }

  /** Merging the parameters of all filters loses and changes none. */
  lemma {:induction false} ParametersKept(filters: seq<Filter>, k: nat, name: string)
    requires k < |filters| && name in Compile(k, filters[k]).parameters
    ensures name in AllParameters(filters)
    ensures AllParameters(filters)[name] == Compile(k, filters[k]).parameters[name]
  {
    var n := |filters| - 1;
    if k < n {
      ParametersKept(filters[..n], k, name);
      if name in Compile(n, filters[n]).parameters {
        NamesUnshared(k, filters[k], n, filters[n], name);
      }
    }
  }

  lemma {:induction false} ParametersFrom(filters: seq<Filter>, name: string)
    requires name in AllParameters(filters)
    ensures exists k :: 0 <= k < |filters| && name in Compile(k, filters[k]).parameters
  {
    var n := |filters| - 1;
    if name !in Compile(n, filters[n]).parameters {
      ParametersFrom(filters[..n], name);
      var k :| 0 <= k < n && name in Compile(k, filters[..n][k]).parameters;
      assert name in Compile(k, filters[k]).parameters;
    }
  }

  /** Every placeholder is bound and every parameter is used. */
  lemma PlaceholdersMatchParameters(filters: seq<Filter>)
    ensures var w := Compilation(filters);
            && (forall c, name :: c in w.clauses && name in NamesOf(c) ==> name in w.parameters)
            && (forall name :: name in w.parameters ==> exists c :: c in w.clauses && name in NamesOf(c))
  {
    var w := Compilation(filters);
    forall c, name | c in w.clauses && name in NamesOf(c) ensures name in w.parameters {
      var k :| 0 <= k < |filters| && c == Compile(k, filters[k]).clause;
      OwnNames(k, filters[k]);
      ParametersKept(filters, k, name);
    }
    forall name | name in w.parameters ensures exists c :: c in w.clauses && name in NamesOf(c) {
      ParametersFrom(filters, name);
      var k :| 0 <= k < |filters| && name in Compile(k, filters[k]).parameters;
      OwnNames(k, filters[k]);
      assert w.clauses[k] in w.clauses;
    }
  }

  // ---------- Meaning ----------

  lemma FirstDot(a: string, x: string, b: string, y: string)
    requires a + "." + x == b + "." + y && '.' !in a && '.' !in b
    ensures a == b && x == y
  {
    var s := a + "." + x;
    assert s[|a|] == '.' && s[|b|] == '.';
    assert forall n :: 0 <= n < |a| ==> s[n] == a[n] && a[n] in a;
    assert forall n :: 0 <= n < |b| ==> s[n] == b[n] && b[n] in b;
    assert a == s[..|a|] && b == s[..|b|];
    assert x == s[|a| + 1..] && y == s[|b| + 1..];
  }

  lemma NamedOperator(s: string, op: Operator)
    ensures OperatorNamed(s) == Some(op) <==> s == OperatorName(op)
    ensures '.' !in OperatorName(op)
  {
  }

  /** Splitting at the first dot finds the one operation a text can denote. */
  lemma SplitFindsOperation(s: string, op: Operator, rest: string)
    ensures IsOperation(s, op, rest)
            <==> SplitAtDot(s).Some? && OperatorNamed(SplitAtDot(s).value.0) == Some(op) && SplitAtDot(s).value.1 == rest
  {
    NamedOperator(OperatorName(op), op);
    if IsOperation(s, op, rest) {
      assert s[|OperatorName(op)|] == '.';
      var split := SplitAtDot(s).value;
      FirstDot(split.0, split.1, OperatorName(op), rest);
    } else if SplitAtDot(s).Some? {
      NamedOperator(SplitAtDot(s).value.0, op);
    }
  }

  /** Filtering a field by the text asks for the comparison of its value with the rest. */
  ghost predicate Asks(cmp: Comparison, field: string, text: string, op: Operator, rest: string, row: Row) {
    Intended(cmp, Filter(field, One(SqlText(text))), row) <==> Holds(cmp, op, Cell(row, field), Coerced(SqlText(rest)))
  }

  lemma OperationMeans(cmp: Comparison, field: string, prefix: string, op: Operator, rest: string, row: Row)
    requires prefix == OperatorName(op) + "."
    ensures Asks(cmp, field, prefix + rest, op, rest, row)
  {
    var s := prefix + rest;
    assert IsOperation(s, op, rest);
    SplitFindsOperation(s, op, rest);
    forall other, r | IsOperation(s, other, r) ensures other == op && r == rest {
      SplitFindsOperation(s, other, r);
    }
  }

  /** How a request writes an operator. */
  predicate Written(op: Operator, prefix: string) {
    match op
    case Eq => prefix == "eq."
    case Neq => prefix == "neq."
    case Gte => prefix == "gte."
    case Lte => prefix == "lte."
    case Gt => prefix == "gt."
    case Lt => prefix == "lt."
    case ILike => prefix == "ilike."
  }

  /** What each operator's text asks of a row's value. */
  lemma OperatorsMean(cmp: Comparison, field: string, prefix: string, op: Operator, rest: string, row: Row)
    requires Written(op, prefix)
    ensures Asks(cmp, field, prefix + rest, op, rest, row)
  {
    assert prefix == OperatorName(op) + ".";
    OperationMeans(cmp, field, prefix, op, rest, row);
  }

  lemma SplitIsNull(s: string)
    ensures s == "is.null" <==> SplitAtDot(s).Some? && SplitAtDot(s).value == ("is", "null")
  {
    if s == "is.null" {
      assert s[2] == '.';
      FirstDot(SplitAtDot(s).value.0, SplitAtDot(s).value.1, "is", "null");
    }
  }

  lemma TextMeaning(cmp: Comparison, index: nat, field: string, s: string, row: Row)
    ensures var c := CompileOne(index, field, SqlText(s));
            ClauseTrue(cmp, c.clause, c.parameters, row) <==> Intended(cmp, Filter(field, One(SqlText(s))), row)
  {
    SplitIsNull(s);
    var split := SplitAtDot(s);
    if split.Some? && OperatorNamed(split.value.0).Some? {
      SplitFindsOperation(s, OperatorNamed(split.value.0).value, split.value.1);
    }
    forall op, rest | IsOperation(s, op, rest)
      ensures split.Some? && OperatorNamed(split.value.0) == Some(op) && split.value.1 == rest
    {
      SplitFindsOperation(s, op, rest);
    }
  }

  lemma ListMeaning(cmp: Comparison, index: nat, f: Filter, row: Row)
    requires f.value.Many?
    ensures ClauseTrue(cmp, Compile(index, f).clause, Compile(index, f).parameters, row) <==> Intended(cmp, f, row)
  {
    var items, cell := f.value.items, Cell(row, f.field);
    var names, parameters := ItemNames(index, |items|), ItemParameters(index, items);
    ItemsBound(index, items);
    if Intended(cmp, f, row) {
      var i :| i in items && Holds(cmp, Eq, cell, Coerced(i));
      var j :| 0 <= j < |items| && items[j] == i;
      assert names[j] in names && Bound(parameters, names[j]) == Coerced(i);
    }
    if items != [] && ClauseTrue(cmp, In(f.field, names), parameters, row) {
      var n :| n in names && Holds(cmp, Eq, cell, Bound(parameters, n));
      var j :| 0 <= j < |items| && names[j] == n;
      assert items[j] in items;
    }
  }

  lemma OneMeaning(cmp: Comparison, index: nat, f: Filter, row: Row)
    ensures ClauseTrue(cmp, Compile(index, f).clause, Compile(index, f).parameters, row) <==> Intended(cmp, f, row)
  {
    match f.value {
      case Absent =>
      case Many(items) => ListMeaning(cmp, index, f, row);
      case One(v) =>
        if v.SqlText? {
          TextMeaning(cmp, index, f.field, v.text, row);
        }
    }
  }

  /** A conjunct means the same under the parameters of the whole statement. */
  lemma OwnParameters(cmp: Comparison, filters: seq<Filter>, k: nat, row: Row)
    requires k < |filters|
    ensures var c := Compile(k, filters[k]);
            ClauseTrue(cmp, c.clause, AllParameters(filters), row) <==> ClauseTrue(cmp, c.clause, c.parameters, row)
  {
    var c := Compile(k, filters[k]);
    OwnNames(k, filters[k]);
    forall name | name in NamesOf(c.clause) ensures Bound(AllParameters(filters), name) == Bound(c.parameters, name) {
      ParametersKept(filters, k, name);
    }
    if c.clause.In? {
      forall n ensures n in c.clause.names <==> n in NamesOf(c.clause) {
      }
    } else if c.clause.Compare? {
      assert c.clause.name in NamesOf(c.clause);
    }
  }

  lemma ClauseMeaning(cmp: Comparison, filters: seq<Filter>, k: nat, row: Row)
    requires k < |filters|
    ensures ClauseTrue(cmp, Clauses(filters)[k], AllParameters(filters), row) <==> Intended(cmp, filters[k], row)
  {
    OwnParameters(cmp, filters, k, row);
    OneMeaning(cmp, k, filters[k], row);
  }

  /** For every filter map and every row, the generated WHERE under the generated parameters selects the
      row exactly when each filter's intended meaning holds of it. */
  lemma CompilerPreservesMeaning(cmp: Comparison, filters: seq<Filter>, row: Row)
    ensures Selects(cmp, Compilation(filters), row) <==> forall f :: f in filters ==> Intended(cmp, f, row)
  {
    var w := Compilation(filters);
    if Selects(cmp, w, row) {
      forall f | f in filters ensures Intended(cmp, f, row) {
        var k :| 0 <= k < |filters| && filters[k] == f;
        assert w.clauses[k] in w.clauses;
        ClauseMeaning(cmp, filters, k, row);
      }
    }
    if forall f :: f in filters ==> Intended(cmp, f, row) {
      forall c | c in w.clauses ensures ClauseTrue(cmp, c, w.parameters, row) {
        var k :| 0 <= k < |filters| && w.clauses[k] == c;
        assert filters[k] in filters;
        ClauseMeaning(cmp, filters, k, row);
      }
    }
  }

  // ---------- The parameters of whole statements ----------

  function ValueParameters(values: seq<SqlValue>): Parameters {
    if values == [] then map[]
    else
      var n := |values| - 1;
      ValueParameters(values[..n])[ValueName(n) := values[n]]
  }

  lemma {:induction false} ValuesBound(values: seq<SqlValue>, name: string)
    ensures forall i :: 0 <= i < |values| ==>
              ValueName(i) in ValueParameters(values) && ValueParameters(values)[ValueName(i)] == values[i]
    ensures name in ValueParameters(values) ==> exists i: nat :: name == ValueName(i)
  {
    if values != [] {
      var n := |values| - 1;
      ValuesBound(values[..n], name);
      forall i | 0 <= i < n ensures ValueName(i) != ValueName(n) {
        if ValueName(i) == ValueName(n) {
          ValueNamesDistinct(i, n);
        }
      }
    }
  }

  /** The names of filter parameters, and of nothing else in a statement, begin with an f. */
  lemma FilterParameterNames(filters: seq<Filter>, name: string)
    requires name in AllParameters(filters)
    ensures name != "" && name[0] == 'f'
  {
    ParametersFrom(filters, name);
    var k :| 0 <= k < |filters| && name in Compile(k, filters[k]).parameters;
    NamesAreIndexed(k, filters[k], name);
    if name != FilterName(k) {
      var j: nat :| name == ItemName(k, j);
      assert ItemName(k, j)[0] == 'f';
    }
  }

  /** UPDATE: the values set and the filters keep their parameters when both maps are merged. */
  lemma UpdateParameters(values: seq<SqlValue>, filters: seq<Filter>)
    ensures var p := ValueParameters(values) + AllParameters(filters);
            && (forall i :: 0 <= i < |values| ==> ValueName(i) in p && p[ValueName(i)] == values[i])
            && (forall name :: name in AllParameters(filters) ==> p[name] == AllParameters(filters)[name])
  {
    forall i | 0 <= i < |values|
      ensures ValueName(i) in ValueParameters(values) && ValueParameters(values)[ValueName(i)] == values[i]
      ensures ValueName(i) !in AllParameters(filters)
    {
      ValuesBound(values, ValueName(i));
      if ValueName(i) in AllParameters(filters) {
        FilterParameterNames(filters, ValueName(i));
      }
    }
  }

  /** SELECT: the row limit overwrites no filter's parameter. */
  lemma SelectParameters(filters: seq<Filter>, limit: SqlValue)
    ensures forall name :: name in AllParameters(filters) ==>
              AllParameters(filters)[ROW_LIMIT := limit][name] == AllParameters(filters)[name]
  {
    if ROW_LIMIT in AllParameters(filters) {
      FilterParameterNames(filters, ROW_LIMIT);
    }
  }
}
