/** The generic data endpoints: which rows a caller without an admin role can see and change. */
module DataApi {
  import opened Wrappers
  import opened ParameterNames
  import opened FilterCompiler
  import opened Ordering

  // ---------- Tables and callers ----------

  type Tables = map<string, seq<Row>>

  datatype User = User(id: string, roles: set<string>)

  predicate IsAdmin(u: User) {
    "admin" in u.roles || "operator" in u.roles
  }

  predicate IsHex(c: char) {
    IsDigit(c) || 'a' <= c <= 'f'
  }

  /** str(UUID): 36 lower-case hexadecimal digits and dashes. */
  predicate IsUuid(s: string) {
    |s| == 36 && forall i :: 0 <= i < 36 ==> if i in {8, 13, 18, 23} then s[i] == '-' else IsHex(s[i])
  }

  const OWNER_COLUMNS: map<string, string> := map[
    "buyer_profiles" := "user_id",
    "calculator_plans" := "user_id",
    "collections" := "owner_id",
    "contact_messages" := "user_id",
    "crop_batches" := "owner_id",
    "garden_activity_logs" := "owner_id",
    "garden_requests" := "owner_id",
    "garden_tasks" := "owner_id",
    "green_point_transactions" := "owner_id",
    "grower_event_registrations" := "user_id",
    "grower_stats" := "user_id",
    "harvests" := "owner_id",
    "installations" := "owner_id",
    "orders" := "buyer_id",
    "profiles" := "id",
    "properties" := "owner_id",
    "user_roles" := "user_id",
    "user_settings" := "user_id"]

  const ADMIN_READ_TABLES: set<string> := {
    "inspection_assignments", "inspection_checklist_items", "inspection_photos", "inspection_reports", "inspectors",
    "operational_workflows", "order_items", "workflow_stages", "workflow_stage_events"}

  const ADMIN_MUTATION_TABLES: set<string> := {"garden_requests", "inspection_assignments", "installations", "properties"}

  const USER_MUTATION_TABLES: set<string> := {
    "buyer_profiles", "calculator_plans", "garden_activity_logs", "garden_requests", "garden_tasks",
    "grower_event_registrations", "installations", "profiles", "properties", "user_settings"}

  const PUBLIC_TABLES: set<string> := {
    "crops", "inventory_aggregate", "grower_events", "grower_dashboard_tips", "community_spotlights",
    "grower_impact_factors", "green_point_rules"}

  const ALLOWED_TABLES: set<string> := PUBLIC_TABLES + OWNER_COLUMNS.Keys + ADMIN_READ_TABLES + {
    "assessment_leads", "inspector_applications", "inspector_application_options", "newsletter_subscriptions",
    "mobile_push_tokens"}

  /** Whatever a user may change at all is owned by a column the endpoint knows. */
  lemma UserTablesAreOwned(table: string)
    requires table in USER_MUTATION_TABLES
    ensures table in OWNER_COLUMNS && IsIdentifier(OWNER_COLUMNS[table])
  {
  }

  /** No table for admins is owned or public. */
  lemma AdminTablesApart(table: string)
    requires table in ADMIN_READ_TABLES
    ensures table !in OWNER_COLUMNS && table !in PUBLIC_TABLES && table != "buyer_profiles"
  {
  }

  // ---------- Scoping ----------

  datatype DataError =
    | BuyerProfileForbidden | TableForbidden | PayloadRequired | InvalidPayload | WorkflowTransitionRequired
    | InstallationCompletionRequired | PropertyHasInspectionHistory
    | UnsupportedTable | InvalidColumn | RowsDiffer | UnfilteredDelete

  /** {**filters, key: value} */
  function Overridden(filters: seq<Filter>, key: string, value: FilterValue): seq<Filter> {
    if exists i :: 0 <= i < |filters| && filters[i].field == key then
      seq(|filters|, i requires 0 <= i < |filters| =>
        if filters[i].field == key then Filter(key, value) else filters[i])
    else filters + [Filter(key, value)]
  }

  function ScopedFilters(table: string, filters: seq<Filter>, u: User): Result<seq<Filter>, DataError> {
    if IsAdmin(u) then Success(filters)
    else if table in OWNER_COLUMNS then Success(Overridden(filters, OWNER_COLUMNS[table], One(SqlText(u.id))))
    else if table in PUBLIC_TABLES then Success(filters)
    else Failure(TableForbidden)
  }

  /** Of an owned table a caller without an admin role gets the caller's rows that the other filters want;
      other tables are for admins or public, and filtered as asked. */
  lemma ScopedMeaning(cmp: Comparison, table: string, filters: seq<Filter>, u: User, row: Row)
    requires IsUuid(u.id) && DistinctFields(filters)
    ensures var r, admin := ScopedFilters(table, filters, u), "admin" in u.roles || "operator" in u.roles;
            && (r.Failure? <==> !admin && table !in OWNER_COLUMNS && table !in PUBLIC_TABLES)
            && (r.Failure? ==> r.error == TableForbidden)
            && (r.Success? && (admin || table !in OWNER_COLUMNS) ==>
                  (Wanted(cmp, r.value, row) <==> Wanted(cmp, filters, row)))
            && (r.Success? && !admin && table in OWNER_COLUMNS ==>
                  (Wanted(cmp, r.value, row)
                   <==> OwnedBy(row, OWNER_COLUMNS[table], u.id)
                        && forall f :: f in filters && f.field != OWNER_COLUMNS[table] ==> Intended(cmp, f, row)))
  {
    if !IsAdmin(u) && table in OWNER_COLUMNS {
      ScopingMeaning(cmp, filters, OWNER_COLUMNS[table], u.id, row);
    }
  }

  function AccessError(table: string, u: User): Option<DataError> {
    if table == "buyer_profiles" && !IsAdmin(u) && "buyer" !in u.roles then Some(BuyerProfileForbidden) else None
  }

  /** Buyer profiles are for buyers, and tables neither owned nor public for admins. */
  predicate Readable(u: User, table: string) {
    IsAdmin(u) || (table in OWNER_COLUMNS.Keys + PUBLIC_TABLES && (table == "buyer_profiles" ==> "buyer" in u.roles))
  }

  ghost predicate Wanted(cmp: Comparison, filters: seq<Filter>, row: Row) {
    forall f :: f in filters ==> Intended(cmp, f, row)
  }

  predicate OwnedBy(row: Row, column: string, id: string) {
    Cell(row, column) == SqlText(id)
  }

  /** A UUID is never read as an operator, as "is.null" or as a timestamp. */
  lemma UuidIsPlain(id: string)
    requires IsUuid(id)
    ensures !Operation(id) && id != "is.null" && Coerced(SqlText(id)) == SqlText(id)
  {
    forall op, rest ensures !IsOperation(id, op, rest) {
      assert (OperatorName(op) + "." + rest)[|OperatorName(op)|] == '.';
    }
    assert IsHex(id[4]);
  }

  lemma OwnerFilterMeaning(cmp: Comparison, column: string, id: string, row: Row)
    requires IsUuid(id)
    ensures Intended(cmp, Filter(column, One(SqlText(id))), row) <==> OwnedBy(row, column, id)
  {
    UuidIsPlain(id);
  }

  /** Scoping keeps the caller's other filters and adds the owner's: whatever the caller asked of the
      owner column is overridden. */
  lemma ScopingMeaning(cmp: Comparison, filters: seq<Filter>, column: string, id: string, row: Row)
    requires IsUuid(id) && DistinctFields(filters)
    ensures var scoped := Overridden(filters, column, One(SqlText(id)));
            && DistinctFields(scoped)
            && (Wanted(cmp, scoped, row)
                <==> OwnedBy(row, column, id)
                     && forall f :: f in filters && f.field != column ==> Intended(cmp, f, row))
  {
    var own := Filter(column, One(SqlText(id)));
    var scoped := Overridden(filters, column, One(SqlText(id)));
    OwnerFilterMeaning(cmp, column, id, row);
    assert own in scoped by {
      if exists i :: 0 <= i < |filters| && filters[i].field == column {
        var i :| 0 <= i < |filters| && filters[i].field == column;
        assert scoped[i] == own;
      } else {
        assert scoped[|filters|] == own;
      }
    }
    forall f | f in filters && f.field != column ensures f in scoped {
      var i :| 0 <= i < |filters| && filters[i] == f;
      assert scoped[i] == f;
    }
    forall f | f in scoped ensures f == own || (f in filters && f.field != column) {
      var i :| 0 <= i < |scoped| && scoped[i] == f;
      if i < |filters| {
        assert f == own || f == filters[i];
      }
    }
  }

  // ---------- Statements ----------

  function TableRows(tables: Tables, table: string): seq<Row> {
    if table in tables then tables[table] else []
  }

  function MatchingRows(cmp: Comparison, w: Where, rows: seq<Row>): seq<Row> {
    if rows == [] then []
    else
      var n := |rows| - 1;
      MatchingRows(cmp, w, rows[..n]) + (if Selects(cmp, w, rows[n]) then [rows[n]] else [])
  }

  function UpdatedRows(cmp: Comparison, w: Where, rows: seq<Row>, values: Row): seq<Row> {
    seq(|rows|, i requires 0 <= i < |rows| => if Selects(cmp, w, rows[i]) then rows[i] + values else rows[i])
  }

  function RemainingRows(cmp: Comparison, w: Where, rows: seq<Row>): seq<Row> {
    if rows == [] then []
    else
      var n := |rows| - 1;
      RemainingRows(cmp, w, rows[..n]) + (if Selects(cmp, w, rows[n]) then [] else [rows[n]])
  }

  /** The columns asked for; none stands for all. */
  function Projected(row: Row, columns: Option<seq<string>>): Row {
    if columns.None? then row else map c | c in columns.value && c in row :: row[c]
  }

  function ProjectedRows(rows: seq<Row>, columns: Option<seq<string>>): seq<Row> {
    seq(|rows|, i requires 0 <= i < |rows| => Projected(rows[i], columns))
  }

  function Limited(rows: seq<Row>, limit: Option<nat>): seq<Row> {
    if limit.Some? && limit.value < |rows| then rows[..limit.value] else rows
  }

  /** The columns asked for that the row has, with the row's values; all of them when none are named. */
  ghost predicate Shows(row: Row, columns: Option<seq<string>>, shown: Row) {
    && (forall c: string :: c in shown <==> c in row && (columns.Some? ==> c in columns.value))
    && (forall c: string :: c in shown ==> shown[c] == row[c])
  }

  /** Each row shown in turn: as many as the limit allows, or all of them if fewer. */
  ghost predicate FirstShown(arranged: seq<Row>, columns: Option<seq<string>>, limit: Option<nat>, rows: seq<Row>) {
    && |rows| == (if limit.Some? && limit.value < |arranged| then limit.value else |arranged|)
    && forall i :: 0 <= i < |rows| ==> Shows(arranged[i], columns, rows[i])
  }

  lemma LimitedShows(arranged: seq<Row>, columns: Option<seq<string>>, limit: Option<nat>)
    ensures FirstShown(arranged, columns, limit, Limited(ProjectedRows(arranged, columns), limit))
  {
  }

  /** What POST /data/query answers: rows, the first row if any, or how many there are. */
  datatype Answer = Listed(rows: seq<Row>) | First(row: Option<Row>) | Counted(count: nat)

  /** A count is given instead of rows; a single row is the first, if there is one. */
  predicate AnswersWith(rows: seq<Row>, single: bool, count: bool, a: Answer) {
    if count then a == Counted(if single && |rows| > 1 then 1 else |rows|)
    else if single then a.First? && (rows == [] <==> a.row.None?) && (rows != [] ==> a.row == Some(rows[0]))
    else a == Listed(rows)
  }

  function ShownRows(a: Answer): seq<Row> {
    match a
    case Listed(rows) => rows
    case First(row) => if row.Some? then [row.value] else []
    case Counted(_) => []
  }

  lemma AnswersComeFromRows(rows: seq<Row>, single: bool, count: bool, a: Answer)
    requires AnswersWith(rows, single, count, a)
    ensures (forall shown :: shown in ShownRows(a) ==> shown in rows) && (a.Counted? ==> a.count <= |rows|)
  {
  }

  // ---------- Statements mean what their filters intend ----------

  ghost function WantedRows(cmp: Comparison, filters: seq<Filter>, rows: seq<Row>): seq<Row> {
    if rows == [] then []
    else
      var n := |rows| - 1;
      WantedRows(cmp, filters, rows[..n]) + (if Wanted(cmp, filters, rows[n]) then [rows[n]] else [])
  }

  ghost function UnwantedRows(cmp: Comparison, filters: seq<Filter>, rows: seq<Row>): seq<Row> {
    if rows == [] then []
    else
      var n := |rows| - 1;
      UnwantedRows(cmp, filters, rows[..n]) + (if Wanted(cmp, filters, rows[n]) then [] else [rows[n]])
  }

  lemma {:induction false} StatementsMean(cmp: Comparison, filters: seq<Filter>, rows: seq<Row>)
    ensures MatchingRows(cmp, Compilation(filters), rows) == WantedRows(cmp, filters, rows)
    ensures RemainingRows(cmp, Compilation(filters), rows) == UnwantedRows(cmp, filters, rows)
  {
    if rows != [] {
      StatementsMean(cmp, filters, rows[..|rows| - 1]);
      CompilerPreservesMeaning(cmp, filters, rows[|rows| - 1]);
    }
  }

  lemma UpdateMeans(cmp: Comparison, filters: seq<Filter>, rows: seq<Row>, values: Row)
    ensures forall i :: 0 <= i < |rows| ==>
              UpdatedRows(cmp, Compilation(filters), rows, values)[i]
              == if Wanted(cmp, filters, rows[i]) then rows[i] + values else rows[i]
  {
    forall i | 0 <= i < |rows|
      ensures Selects(cmp, Compilation(filters), rows[i]) <==> Wanted(cmp, filters, rows[i])
    {
      CompilerPreservesMeaning(cmp, filters, rows[i]);
    }
  }

  // ---------- Other owners' rows ----------

  function OthersRows(rows: seq<Row>, column: string, id: string): seq<Row> {
    if rows == [] then []
    else
      var n := |rows| - 1;
      OthersRows(rows[..n], column, id) + (if OwnedBy(rows[n], column, id) then [] else [rows[n]])
  }

  ghost predicate OwnOnly(cmp: Comparison, filters: seq<Filter>, column: string, id: string) {
    forall row :: Wanted(cmp, filters, row) ==> OwnedBy(row, column, id)
  }

  lemma ScopedIsOwnOnly(cmp: Comparison, filters: seq<Filter>, column: string, id: string)
    requires IsUuid(id) && DistinctFields(filters)
    ensures OwnOnly(cmp, Overridden(filters, column, One(SqlText(id))), column, id)
    ensures DistinctFields(Overridden(filters, column, One(SqlText(id))))
  {
    ScopingMeaning(cmp, filters, column, id, map[]);
    forall row | Wanted(cmp, Overridden(filters, column, One(SqlText(id))), row) ensures OwnedBy(row, column, id) {
      ScopingMeaning(cmp, filters, column, id, row);
    }
  }

  lemma {:induction false} WantedAreOwn(cmp: Comparison, filters: seq<Filter>, rows: seq<Row>, column: string, id: string)
    requires OwnOnly(cmp, filters, column, id)
    ensures forall row :: row in WantedRows(cmp, filters, rows) ==> row in rows && OwnedBy(row, column, id)
  {
    if rows != [] {
      WantedAreOwn(cmp, filters, rows[..|rows| - 1], column, id);
    }
  }

  /** How many rows are wanted says nothing of other owners' rows. */
  lemma {:induction false} WantedAreAmongOwn(cmp: Comparison, filters: seq<Filter>, rows: seq<Row>, column: string,
                                             id: string)
    requires OwnOnly(cmp, filters, column, id)
    ensures |WantedRows(cmp, filters, rows)| + |OthersRows(rows, column, id)| <= |rows|
  {
    if rows != [] {
      WantedAreAmongOwn(cmp, filters, rows[..|rows| - 1], column, id);
    }
  }

  lemma {:induction false} UnwantedKeepOthers(cmp: Comparison, filters: seq<Filter>, rows: seq<Row>, column: string,
                                              id: string)
    requires OwnOnly(cmp, filters, column, id)
    ensures OthersRows(UnwantedRows(cmp, filters, rows), column, id) == OthersRows(rows, column, id)
  {
    if rows != [] {
      var n := |rows| - 1;
      UnwantedKeepOthers(cmp, filters, rows[..n], column, id);
      var before := UnwantedRows(cmp, filters, rows[..n]);
      if Wanted(cmp, filters, rows[n]) {
        assert OwnedBy(rows[n], column, id) && before + [] == before;
      } else {
        OthersAppended(before, rows[n], column, id);
      }
    }
  }

  lemma OthersAppended(rows: seq<Row>, row: Row, column: string, id: string)
    ensures OthersRows(rows + [row], column, id)
            == OthersRows(rows, column, id) + (if OwnedBy(row, column, id) then [] else [row])
  {
    assert (rows + [row])[..|rows|] == rows;
  }

  /** Rows replaced one by one, each either kept or the caller's before and after. */
  lemma {:induction false} ReplacedKeepOthers(rows: seq<Row>, after: seq<Row>, column: string, id: string)
    requires |after| == |rows|
    requires forall i :: 0 <= i < |rows| ==>
               after[i] == rows[i] || (OwnedBy(rows[i], column, id) && OwnedBy(after[i], column, id))
    ensures OthersRows(after, column, id) == OthersRows(rows, column, id)
  {
    if rows != [] {
      ReplacedKeepOthers(rows[..|rows| - 1], after[..|rows| - 1], column, id);
    }
  }

  lemma {:induction false} InsertedKeepOthers(rows: seq<Row>, more: seq<Row>, column: string, id: string)
    requires forall row :: row in more ==> OwnedBy(row, column, id)
    ensures OthersRows(rows + more, column, id) == OthersRows(rows, column, id)
  {
    if more == [] {
      assert rows + more == rows;
    } else {
      var n := |more| - 1;
      assert rows + more == (rows + more[..n]) + [more[n]] && more[n] in more;
      InsertedKeepOthers(rows, more[..n], column, id);
      OthersAppended(rows + more[..n], more[n], column, id);
    }
  }

  // ---------- Payloads ----------

  datatype Payload = NoPayload | Object(row: Row) | Objects(rows: seq<Row>)

  predicate TruthyValue(v: SqlValue) {
    match v
    case SqlNull => false
    case SqlText(s) => s != ""
    case SqlStamp(_) => true
    case SqlBool(b) => b
    case SqlNumber(n) => n != 0.0
  }

  function PayloadRows(p: Payload): seq<Row> {
    match p
    case NoPayload => []
    case Object(row) => [row]
    case Objects(rows) => rows
  }

  predicate CompletesInstallation(row: Row) {
    Cell(row, "status") == SqlText("active") || TruthyValue(Cell(row, "installed_at"))
  }

  /** The row is not active and names no time of installation that counts as one. */
  predicate NotInstalled(row: Row) {
    && ("status" in row ==> row["status"] != SqlText("active"))
    && ("installed_at" in row ==> row["installed_at"] in {SqlNull, SqlText(""), SqlBool(false), SqlNumber(0.0)})
  }

  lemma InstalledIs(row: Row)
    ensures CompletesInstallation(row) <==> !NotInstalled(row)
  {
  }

  function OwnedRow(row: Row, table: string, u: User): Row {
    if !IsAdmin(u) && table in OWNER_COLUMNS then row[OWNER_COLUMNS[table] := SqlText(u.id)] else row
  }

  function OwnedRows(rows: seq<Row>, table: string, u: User): seq<Row> {
    seq(|rows|, i requires 0 <= i < |rows| => OwnedRow(rows[i], table, u))
  }

  /** What a caller's row is stored as: an admin's as given, and another caller's with the caller as its owner,
      whatever it says of that column. */
  lemma OwnedRowsAre(rows: seq<Row>, table: string, u: User, i: nat, c: string)
    requires i < |rows|
    ensures |OwnedRows(rows, table, u)| == |rows|
    ensures var owned := !("admin" in u.roles || "operator" in u.roles) && table in OWNER_COLUMNS && c == OWNER_COLUMNS[table];
            && OwnedRows(rows, table, u)[i] == OwnedRow(rows[i], table, u)
            && Cell(OwnedRow(rows[i], table, u), c) == (if owned then SqlText(u.id) else Cell(rows[i], c))
            && (c in OwnedRow(rows[i], table, u) <==> owned || c in rows[i])
  {
  }

  /** Nothing but the table changes, and in it no row of another owner. */
  ghost predicate OwnerFrame(before: Tables, after: Tables, table: string, column: string, id: string) {
    && (forall t :: t != table ==> TableRows(after, t) == TableRows(before, t))
    && OthersRows(TableRows(after, table), column, id) == OthersRows(TableRows(before, table), column, id)
  }

  /** No assignment and no report is of the gardens a filter on the id of a property asks for. */
  ghost predicate WithoutHistory(cmp: Comparison, tables: Tables, f: Filter) {
    && WantedRows(cmp, [Filter("garden_id", f.value)], TableRows(tables, "inspection_assignments")) == []
    && WantedRows(cmp, [Filter("garden_id", f.value)], TableRows(tables, "inspection_reports")) == []
  }

  // ---------- The endpoints ----------

  datatype Verb = InsertRows | UpdateRows | DeleteRows

  class DataStore {
    const cmp: Comparison
    const collation: Collation
    var tables: Tables

    constructor (cmp: Comparison, collation: Collation, tables: Tables)
      ensures this.cmp == cmp && this.collation == collation && this.tables == tables
    {
      this.cmp, this.collation, this.tables := cmp, collation, tables;
    }

    /** A gateway call begins by checking the table and compiling the filters. */
    method Prepare(table: string, filters: seq<Filter>) returns (r: Result<Where, DataError>)
      ensures r.Success? ==> r.value == Compilation(filters)
      ensures r.Success? <==> table in ALLOWED_TABLES && GoodFields(filters)
    {
      if table !in ALLOWED_TABLES {
        return Failure(UnsupportedTable);
      }
      var where := BuildFilters(filters);
      if where.Failure? {
        return Failure(InvalidColumn);
      }
      return Success(where.value);
    }

    /** The rows the filters intend, in some sequence the order allows, cut off at the limit. */
    ghost predicate Returns(table: string, columns: Option<seq<string>>, filters: seq<Filter>, order: Option<string>,
                            limit: Option<nat>, rows: seq<Row>)
      reads this
    {
      exists arranged: seq<Row> ::
        && multiset(arranged) == multiset(WantedRows(cmp, filters, TableRows(tables, table)))
        && InOrder(collation, order, arranged)
        && FirstShown(arranged, columns, limit, rows)
    }

    method Select(table: string, columns: Option<seq<string>>, filters: seq<Filter>, order: Option<string>,
                  limit: Option<nat>)
      returns (r: Result<seq<Row>, DataError>)
      ensures r.Success? <==>
                && table in ALLOWED_TABLES && GoodFields(filters) && GoodOrder(OrderOf(order))
                && (columns.Some? ==> forall c :: c in columns.value ==> IsIdentifier(c))
      ensures r.Success? ==> Returns(table, columns, filters, order, limit, r.value)
    {
      if columns.Some? && exists c :: c in columns.value && !IsIdentifier(c) {
        return Failure(InvalidColumn);
      }
      var where := Prepare(table, filters);
      if where.Failure? {
        return Failure(where.error);
      }
      if !GoodOrder(OrderOf(order)) {
        return Failure(InvalidColumn);
      }
      StatementsMean(cmp, filters, TableRows(tables, table));
      var matching := MatchingRows(cmp, where.value, TableRows(tables, table));
      var arranged := Arranged(collation, OrderOf(order), matching);
      ArrangedIs(collation, OrderOf(order), matching);
      ArrangementIsInOrder(collation, order, matching, arranged);
      LimitedShows(arranged, columns, limit);
      return Success(Limited(ProjectedRows(arranged, columns), limit));
    }

    method Update(table: string, values: Row, filters: seq<Filter>) returns (r: Result<seq<Row>, DataError>)
      modifies `tables
      ensures r.Success? <==> table in ALLOWED_TABLES && GoodFields(filters) && forall c :: c in values ==> IsIdentifier(c)
      ensures r.Failure? ==> tables == old(tables)
      ensures r.Success? ==>
                var wanted := WantedRows(cmp, filters, TableRows(old(tables), table));
                |r.value| == |wanted| && forall i :: 0 <= i < |wanted| ==> r.value[i] == wanted[i] + values
      ensures r.Success? ==>
                && tables.Keys == old(tables).Keys
                && (forall t :: t != table ==> TableRows(tables, t) == TableRows(old(tables), t))
                && |TableRows(tables, table)| == |TableRows(old(tables), table)|
                && forall i :: 0 <= i < |TableRows(tables, table)| ==>
                     var row := TableRows(old(tables), table)[i];
                     TableRows(tables, table)[i] == if Wanted(cmp, filters, row) then row + values else row
    {
      if exists c :: c in values && !IsIdentifier(c) {
        return Failure(InvalidColumn);
      }
      var where := Prepare(table, filters);
      if where.Failure? {
        return Failure(where.error);
      }
      UpdateMeans(cmp, filters, TableRows(tables, table), values);
      StatementsMean(cmp, filters, TableRows(tables, table));
      var returned := MatchingRows(cmp, where.value, TableRows(tables, table));
      if table in tables {
        tables := tables[table := UpdatedRows(cmp, where.value, tables[table], values)];
      }
      return Success(seq(|returned|, i requires 0 <= i < |returned| => returned[i] + values));
    }

    method Delete(table: string, filters: seq<Filter>) returns (r: Result<seq<Row>, DataError>)
      modifies `tables
      ensures r.Success? <==> table in ALLOWED_TABLES && GoodFields(filters) && filters != []
      ensures r.Failure? ==> tables == old(tables)
      ensures r.Success? ==>
                && r.value == []
                && (forall t :: t != table ==> TableRows(tables, t) == TableRows(old(tables), t))
                && TableRows(tables, table) == UnwantedRows(cmp, filters, TableRows(old(tables), table))
    {
      var where := Prepare(table, filters);
      if where.Failure? {
        return Failure(where.error);
      }
      if where.value.clauses == [] {
        return Failure(UnfilteredDelete);
      }
      StatementsMean(cmp, filters, TableRows(tables, table));
      if table in tables {
        tables := tables[table := RemainingRows(cmp, where.value, tables[table])];
      }
      return Success([]);
    }

    method Insert(table: string, rows: seq<Row>) returns (r: Result<seq<Row>, DataError>)
      modifies `tables
      ensures r.Success? <==>
                && table in ALLOWED_TABLES
                && (rows != [] ==> (forall row :: row in rows ==> row.Keys == rows[0].Keys)
                                   && forall c :: c in rows[0] ==> IsIdentifier(c))
      ensures r.Failure? ==> tables == old(tables)
      ensures r.Success? ==>
                && r.value == rows
                && (forall t :: t != table ==> TableRows(tables, t) == TableRows(old(tables), t))
                && TableRows(tables, table) == TableRows(old(tables), table) + rows
    {
      if table !in ALLOWED_TABLES {
        return Failure(UnsupportedTable);
      }
      if rows == [] {
        return Success([]);
      }
      if exists row :: row in rows && row.Keys != rows[0].Keys {
        return Failure(RowsDiffer);
      }
      if exists c :: c in rows[0] && !IsIdentifier(c) {
        return Failure(InvalidColumn);
      }
      tables := tables[table := TableRows(tables, table) + rows];
      return Success(rows);
    }

    lemma ReturnedAreOwn(table: string, columns: Option<seq<string>>, filters: seq<Filter>, order: Option<string>,
                         limit: Option<nat>, rows: seq<Row>, column: string, id: string)
      requires Returns(table, columns, filters, order, limit, rows) && OwnOnly(cmp, filters, column, id)
      ensures forall shown :: shown in rows ==>
                exists row :: row in TableRows(tables, table) && OwnedBy(row, column, id) && Shows(row, columns, shown)
      ensures |rows| + |OthersRows(TableRows(tables, table), column, id)| <= |TableRows(tables, table)|
    {
      var wanted := WantedRows(cmp, filters, TableRows(tables, table));
      var arranged: seq<Row> :| && multiset(arranged) == multiset(wanted) && InOrder(collation, order, arranged)
                                && FirstShown(arranged, columns, limit, rows);
      SameRows(wanted, arranged);
      WantedAreOwn(cmp, filters, TableRows(tables, table), column, id);
      WantedAreAmongOwn(cmp, filters, TableRows(tables, table), column, id);
      forall shown | shown in rows
        ensures exists row :: row in TableRows(tables, table) && OwnedBy(row, column, id) && Shows(row, columns, shown)
      {
        var i :| 0 <= i < |rows| && rows[i] == shown;
        assert arranged[i] in arranged;
      }
    }

    lemma ScopedAnswer(u: User, table: string, columns: Option<seq<string>>, filters: seq<Filter>, order: Option<string>,
                       limit: Option<nat>, rows: seq<Row>, column: string)
      requires IsUuid(u.id) && DistinctFields(filters)
      requires Returns(table, columns, Overridden(filters, column, One(SqlText(u.id))), order, limit, rows)
      ensures forall shown :: shown in rows ==>
                exists row :: row in TableRows(tables, table) && OwnedBy(row, column, u.id) && Shows(row, columns, shown)
      ensures |rows| + |OthersRows(TableRows(tables, table), column, u.id)| <= |TableRows(tables, table)|
    {
      ScopedIsOwnOnly(cmp, filters, column, u.id);
      ReturnedAreOwn(table, columns, Overridden(filters, column, One(SqlText(u.id))), order, limit, rows, column, u.id);
    }

    /** What a caller may read of a table, before anything is read. */
    method ReadableFilters(u: User, table: string, filters: seq<Filter>) returns (r: Result<seq<Filter>, DataError>)
      ensures r.Success? ==> ScopedFilters(table, filters, u) == Success(r.value)
      ensures r.Success? <==> Readable(u, table)
    {
      var forbidden := AccessError(table, u);
      if forbidden.Some? {
        return Failure(forbidden.value);
      }
      if table in ADMIN_READ_TABLES && !IsAdmin(u) {
        AdminTablesApart(table);
        return Failure(TableForbidden);
      }
      return ScopedFilters(table, filters, u);
    }

    /** POST /data/query: of an owned table a caller without an admin role sees, and counts, own rows only. */
    method Query(u: User, table: string, columns: Option<seq<string>>, filters: seq<Filter>, order: Option<string>,
                 limit: Option<nat>, single: bool, count: bool)
      returns (r: Result<Answer, DataError>)
      requires IsUuid(u.id) && DistinctFields(filters)
      ensures r.Success? <==>
                && Readable(u, table) && table in ALLOWED_TABLES && GoodFields(ScopedFilters(table, filters, u).value)
                && GoodOrder(OrderOf(order)) && (columns.Some? ==> forall c :: c in columns.value ==> IsIdentifier(c))
      ensures r.Success? ==>
                && exists rows :: Returns(table, columns, ScopedFilters(table, filters, u).value, order, limit, rows)
                                  && AnswersWith(rows, single, count, r.value)
      ensures r.Success? && !IsAdmin(u) && table in OWNER_COLUMNS ==>
                var all, column := TableRows(tables, table), OWNER_COLUMNS[table];
                && (forall shown :: shown in ShownRows(r.value) ==>
                      exists row :: row in all && OwnedBy(row, column, u.id) && Shows(row, columns, shown))
                && (r.value.Counted? ==> r.value.count + |OthersRows(all, column, u.id)| <= |all|)
    {
      var scoped := ReadableFilters(u, table, filters);
      if scoped.Failure? {
        return Failure(scoped.error);
      }
      var rows := Select(table, columns, scoped.value, order, limit);
      if rows.Failure? {
        return Failure(rows.error);
      }
      if !IsAdmin(u) && table in OWNER_COLUMNS {
        ScopedAnswer(u, table, columns, filters, order, limit, rows.value, OWNER_COLUMNS[table]);
      }
      var answer;
      if count {
        answer := Counted(if !single then |rows.value| else if rows.value == [] then 0 else 1);
      } else if single {
        answer := First(if rows.value == [] then None else Some(rows.value[0]));
      } else {
        answer := Listed(rows.value);
      }
      AnswersComeFromRows(rows.value, single, count, answer);
      assert Returns(table, columns, ScopedFilters(table, filters, u).value, order, limit, rows.value);
      return Success(answer);
    }

    lemma NoneReturned(table: string, columns: Option<seq<string>>, filters: seq<Filter>, order: Option<string>,
                       rows: seq<Row>)
      requires Returns(table, columns, filters, order, Some(1), rows)
      ensures rows == [] <==> WantedRows(cmp, filters, TableRows(tables, table)) == []
    {
      var wanted := WantedRows(cmp, filters, TableRows(tables, table));
      var arranged: seq<Row> :| && multiset(arranged) == multiset(wanted) && InOrder(collation, order, arranged)
                                && FirstShown(arranged, columns, Some(1), rows);
      SameRows(wanted, arranged);
    }

    /** SELECT id ... LIMIT 1 */
    method Finds(table: string, filters: seq<Filter>) returns (found: Result<bool, DataError>)
      ensures found.Success? <==> table in ALLOWED_TABLES && GoodFields(filters)
      ensures found.Success? ==> (found.value <==> WantedRows(cmp, filters, TableRows(tables, table)) != [])
    {
      var rows := Select(table, Some(["id"]), filters, None, Some(1));
      if rows.Failure? {
        return Failure(rows.error);
      }
      NoneReturned(table, Some(["id"]), filters, None, rows.value);
      return Success(rows.value != []);
    }

    /** The two queries for the gardens of one filter. */
    method Visited(f: Filter) returns (visited: bool)
      ensures visited <==> !WithoutHistory(cmp, tables, f)
    {
      var history := [Filter("garden_id", f.value)];
      var visits := Finds("inspection_assignments", history);
      var reports := Finds("inspection_reports", history);
      if visits.Failure? || reports.Failure? {
        // Both tables and the column are known, so neither query can fail.
        assert false;
      }
      return visits.value || reports.value;
    }

    /** A property with an assignment or a report is not deleted. */
    method HasInspectionHistory(filters: seq<Filter>) returns (found: Option<DataError>)
      ensures found.None? <==> forall f :: f in filters && f.field == "id" ==> WithoutHistory(cmp, tables, f)
      ensures found.Some? ==> found.value == PropertyHasInspectionHistory
    {
      for i := 0 to |filters|
        invariant forall k :: 0 <= k < i && filters[k].field == "id" ==> WithoutHistory(cmp, tables, filters[k])
      {
        if filters[i].field == "id" {
          var visited := Visited(filters[i]);
          if visited {
            return Some(PropertyHasInspectionHistory);
          }
        }
      }
      return None;
    }

    /** The update branch of POST /data/mutate. */
    method MutateUpdate(u: User, table: string, payload: Payload, filters: seq<Filter>)
      returns (r: Result<seq<Row>, DataError>)
      modifies `tables
      ensures r.Failure? ==> tables == old(tables)
      ensures r.Success? ==>
                && payload.Object?
                && (table == "garden_requests" ==> "status" !in payload.row)
                && (table == "installations" ==> {"status", "installed_at", "photos"} * payload.row.Keys == {})
                && (forall t :: t != table ==> TableRows(tables, t) == TableRows(old(tables), t))
                && |TableRows(tables, table)| == |TableRows(old(tables), table)|
                && forall i :: 0 <= i < |TableRows(tables, table)| ==>
                     var row := TableRows(old(tables), table)[i];
                     TableRows(tables, table)[i]
                     == if Wanted(cmp, filters, row) then row + OwnedRow(payload.row, table, u) else row
    {
      if !payload.Object? {
        return Failure(InvalidPayload);
      }
      if table == "garden_requests" && "status" in payload.row {
        return Failure(WorkflowTransitionRequired);
      }
      if table == "installations" && {"status", "installed_at", "photos"} * payload.row.Keys != {} {
        return Failure(InstallationCompletionRequired);
      }
      r := Update(table, OwnedRow(payload.row, table, u), filters);
    }

    /** The insert branch. */
    method MutateInsert(u: User, table: string, payload: Payload) returns (r: Result<seq<Row>, DataError>)
      requires !payload.NoPayload?
      modifies `tables
      ensures r.Failure? ==> tables == old(tables)
      ensures r.Success? ==>
                && (table == "installations" ==> forall row :: row in PayloadRows(payload) ==> NotInstalled(row))
                && (forall t :: t != table ==> TableRows(tables, t) == TableRows(old(tables), t))
                && TableRows(tables, table) == TableRows(old(tables), table) + OwnedRows(PayloadRows(payload), table, u)
    {
      if table == "installations" && exists row :: row in PayloadRows(payload) && CompletesInstallation(row) {
        return Failure(InstallationCompletionRequired);
      }
      forall row | row in PayloadRows(payload) ensures CompletesInstallation(row) <==> !NotInstalled(row) {
        InstalledIs(row);
      }
      r := Insert(table, OwnedRows(PayloadRows(payload), table, u));
    }

    /** POST /data/mutate, without upsert: a caller without an admin role changes no other owner's row,
        and leaves none of the caller's rows to somebody else. */
    method Mutate(u: User, verb: Verb, table: string, payload: Payload, filters: seq<Filter>)
      returns (r: Result<seq<Row>, DataError>)
      requires IsUuid(u.id) && DistinctFields(filters)
      modifies `tables
      ensures r.Failure? ==> tables == old(tables)
      ensures r.Success? && !IsAdmin(u) ==>
                table in OWNER_COLUMNS && OwnerFrame(old(tables), tables, table, OWNER_COLUMNS[table], u.id)
      ensures r.Success? ==>
                && ScopedFilters(table, filters, u).Success?
                && (table in USER_MUTATION_TABLES || (IsAdmin(u) && table in ADMIN_MUTATION_TABLES))
                && (table == "buyer_profiles" && !IsAdmin(u) ==> "buyer" in u.roles)
                && var scoped, was, now := ScopedFilters(table, filters, u).value,
                                           TableRows(old(tables), table), TableRows(tables, table);
                   match verb
                   case DeleteRows =>
                     && now == UnwantedRows(cmp, scoped, was) && scoped != []
                     && (table == "properties" ==> forall f :: f in scoped && f.field == "id" ==>
                           WithoutHistory(cmp, old(tables), f))
                   case InsertRows =>
                     && now == was + OwnedRows(PayloadRows(payload), table, u)
                     && (table == "installations" ==> forall row :: row in PayloadRows(payload) ==> NotInstalled(row))
                   case UpdateRows =>
                     && payload.Object? && |now| == |was|
                     && (table == "garden_requests" ==> "status" !in payload.row)
                     && (table == "installations" ==> {"status", "installed_at", "photos"} * payload.row.Keys == {})
                     && forall i :: 0 <= i < |was| ==>
                       now[i] == if Wanted(cmp, scoped, was[i]) then was[i] + OwnedRow(payload.row, table, u) else was[i]
    {
      var forbidden := AccessError(table, u);
      if forbidden.Some? {
        return Failure(forbidden.value);
      }
      if table !in USER_MUTATION_TABLES && !(IsAdmin(u) && table in ADMIN_MUTATION_TABLES) {
        return Failure(TableForbidden);
      }
      var scoped := ScopedFilters(table, filters, u);
      if !IsAdmin(u) {
        UserTablesAreOwned(table);
      }
      if scoped.Failure? {
        // Whatever a user may change is owned, so scoping it cannot fail.
        assert false;
      }
      if verb == DeleteRows {
        if table == "properties" {
          var history := HasInspectionHistory(scoped.value);
          if history.Some? {
            return Failure(history.value);
          }
        }
        r := Delete(table, scoped.value);
      } else if payload.NoPayload? {
        return Failure(PayloadRequired);
      } else if verb == UpdateRows {
        r := MutateUpdate(u, table, payload, scoped.value);
      } else {
        r := MutateInsert(u, table, payload);
      }
      if r.Success? && !IsAdmin(u) {
        var column := OWNER_COLUMNS[table];
        ScopedIsOwnOnly(cmp, filters, column, u.id);
        if verb == DeleteRows {
          UnwantedKeepOthers(cmp, scoped.value, TableRows(old(tables), table), column, u.id);
        } else if verb == UpdateRows {
          ReplacedKeepOthers(TableRows(old(tables), table), TableRows(tables, table), column, u.id);
        } else {
          InsertedKeepOthers(TableRows(old(tables), table), OwnedRows(PayloadRows(payload), table, u), column, u.id);
        }
      }
    }
  }
}
