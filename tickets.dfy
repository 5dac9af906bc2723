/** The ticket endpoints `GET /api/tickets` (filtered listing) and `POST /api/tickets` (creation). */
module TicketsRoute {
  import opened Wrappers
  import opened Env
  import opened Db
  import opened Text

  /** The listing statement's head. The text is written in pieces only to keep the placeholder proof small. */
  const SelectTickets := "SELECT id, business_id, " + "department_id, subject, " + "status, created_at " + "FROM tickets WHERE 1=1"
  const NewestFirst := " ORDER BY created_at DESC"
  const InsertTicket := "INSERT INTO tickets (business_id, department_id, subject, conversation_id, status) VALUES (?, ?, ?, ?, ?)"
  const LatestTicket := "SELECT id, business_id, department_id, subject, status, created_at FROM tickets ORDER BY created_at DESC LIMIT 1"
  const MissingFieldsMessage := "Missing required fields"
  const OpenStatus := "open"

  const BusinessColumn := "business_id"
  const DepartmentColumn := "department_id"
  const StatusColumn := "status"
  /** The order in which filters are appended. */
  const FilterColumns := [BusinessColumn, DepartmentColumn, StatusColumn]

  /** The `businessId`, `departmentId` and `status` search parameters (`null` when absent). */
  datatype SearchParams = SearchParams(businessId: Option<string>, departmentId: Option<string>, status: Option<string>)

  /** A stored ticket row, as the database returns it. */
  datatype TicketRecord = TicketRecord(id: string, businessId: string, departmentId: string, subject: string, status: string, createdAt: string)

  datatype TicketsResponse =
    | Unauthorized
    | MissingFields
    | TicketList(tickets: seq<TicketRecord>)
    | Created(ticket: TicketRecord)
    | ServerError(message: string)
  {
    function Status(): nat {
      match this
      case Unauthorized => 401
      case MissingFields => 400
      case TicketList(_) => 200
      case Created(_) => 201
      case ServerError(_) => 500
    }
  }

  /**
   * The error `NextResponse.json` throws for an `undefined` body. An empty newest-ticket read makes
   * `tickets[0]` undefined, and the handler's `catch` turns the throw into a 500 answer.
   */
  const NotSerializableMessage := "Value is not JSON serializable"

  /** A response and the statements sent to the database, in order. */
  datatype TicketsExchange = TicketsExchange(response: TicketsResponse, issued: seq<Statement>)

  /** One `column = ?` condition together with the value bound to its placeholder. */
  datatype Filter = Filter(column: string, value: string)

  function ParamFor(q: SearchParams, column: string): Option<string> {
    if column == BusinessColumn then q.businessId
    else if column == DepartmentColumn then q.departmentId
    else if column == StatusColumn then q.status
    else None
  }

  /** The filters for `columns`, in that order, keeping only truthy (present, non-empty) parameters. */
  function FiltersOver(columns: seq<string>, q: SearchParams): seq<Filter> {
    if columns == [] then []
    else
      var v := ParamFor(q, columns[0]);
      (if Truthy(v) then [Filter(columns[0], v.value)] else []) + FiltersOver(columns[1..], q)
  }

  function Filters(q: SearchParams): seq<Filter> {
    FiltersOver(FilterColumns, q)
  }

  /** Every filter binds the non-empty parameter of its own column. */
  lemma {:induction false} FiltersOverSound(columns: seq<string>, q: SearchParams)
    ensures forall i :: 0 <= i < |FiltersOver(columns, q)| ==>
      var f := FiltersOver(columns, q)[i];
      f.column in columns && f.value != "" && ParamFor(q, f.column) == Some(f.value)
    ensures |FiltersOver(columns, q)| <= |columns|
  {
    if columns != [] {
      FiltersOverSound(columns[1..], q);
    }
  }

  /** A column is filtered exactly when its parameter is truthy. */
  lemma {:induction false} FiltersOverComplete(columns: seq<string>, q: SearchParams, c: string)
    requires c in columns
    ensures Truthy(ParamFor(q, c)) <==> exists i :: 0 <= i < |FiltersOver(columns, q)| && FiltersOver(columns, q)[i].column == c
  {
    FiltersOverSound(columns, q);
    if columns[0] != c {
      FiltersOverComplete(columns[1..], q, c);
      var rest := FiltersOver(columns[1..], q);
      var head := FiltersOver(columns, q)[..|FiltersOver(columns, q)| - |rest|];
      assert FiltersOver(columns, q) == head + rest;
      assert forall i :: 0 <= i < |head| ==> head[i].column == columns[0];
    } else {
      if Truthy(ParamFor(q, c)) {
        assert FiltersOver(columns, q)[0].column == c;
      }
    }
  }

  function FilterIf(column: string, v: Option<string>): seq<Filter> {
    if Truthy(v) then [Filter(column, v.value)] else []
  }

  /** The three fixed columns written out: business, then department, then status. */
  lemma FiltersInOrder(q: SearchParams)
    ensures Filters(q) == FilterIf(BusinessColumn, q.businessId) + FilterIf(DepartmentColumn, q.departmentId)
                          + FilterIf(StatusColumn, q.status)
  {
    var cs := FilterColumns;
    assert cs[1..] == [DepartmentColumn, StatusColumn];
    assert cs[1..][1..] == [StatusColumn];
    assert cs[1..][1..][1..] == [];
    assert FiltersOver(cs[1..][1..], q) == FilterIf(StatusColumn, q.status);
    assert FiltersOver(cs[1..], q) == FilterIf(DepartmentColumn, q.departmentId) + FilterIf(StatusColumn, q.status);
  }

  /** The text appended for one filter. */
  function Clause(column: string): string {
    " AND " + column + " = ?"
  }

  function Clauses(fs: seq<Filter>): string {
    if fs == [] then "" else Clauses(fs[..|fs| - 1]) + Clause(fs[|fs| - 1].column)
  }

  /** The values bound to the placeholders, in order. */
  function Params(fs: seq<Filter>): (p: seq<SqlValue>)
    ensures |p| == |fs|
    ensures forall i :: 0 <= i < |fs| ==> p[i] == SqlText(fs[i].value)
  {
    seq(|fs|, i requires 0 <= i < |fs| => SqlText(fs[i].value))
  }

  /** The number of `?` placeholders in a statement. */
  function Placeholders(sql: string): nat {
    Occurrences(sql, '?')
  }

  /** The fixed text around the clauses carries no placeholder. */
  lemma FixedTextHasNoPlaceholders()
    ensures Placeholders(SelectTickets) == 0 && Placeholders(NewestFirst) == 0
  {
    OccurrencesNone(SelectTickets, '?');
    OccurrencesNone(NewestFirst, '?');
  }

  /** A clause on a column whose name has no `?` carries exactly one placeholder. */
  lemma ClausePlaceholder(column: string)
    requires '?' !in column
    ensures Placeholders(Clause(column)) == 1
  {
    OccurrencesConcat(" AND " + column, " = ?", '?');
    OccurrencesConcat(" AND ", column, '?');
    OccurrencesNone(" AND ", '?');
    OccurrencesNone(column, '?');
    assert " = ?"[..3] == " = ";
    OccurrencesNone(" = ", '?');
  }

  /** Each clause contributes exactly one placeholder when its column name has none. */
  lemma {:induction false} ClausesPlaceholders(fs: seq<Filter>)
    requires forall i :: 0 <= i < |fs| ==> '?' !in fs[i].column
    ensures Placeholders(Clauses(fs)) == |fs|
  {
    if fs != [] {
      ClausesPlaceholders(fs[..|fs| - 1]);
      OccurrencesConcat(Clauses(fs[..|fs| - 1]), Clause(fs[|fs| - 1].column), '?');
      ClausePlaceholder(fs[|fs| - 1].column);
    }
  }

  /** Appending one more clause and parameter extends the specification by that filter. */
  lemma AppendFilter(prefix: string, fs: seq<Filter>, f: Filter)
    ensures prefix + Clauses(fs) + Clause(f.column) == prefix + Clauses(fs + [f])
    ensures Params(fs) + [SqlText(f.value)] == Params(fs + [f])
  {
    assert (fs + [f])[..|fs|] == fs;
  }

  /** The listing query has one placeholder per filter. */
  lemma QueryPlaceholders(q: SearchParams)
    ensures Placeholders(SelectTickets + Clauses(Filters(q)) + NewestFirst) == |Filters(q)|
  {
    var fs := Filters(q);
    FiltersOverSound(FilterColumns, q);
    assert '?' !in BusinessColumn && '?' !in DepartmentColumn && '?' !in StatusColumn;
    ClausesPlaceholders(fs);
    FixedTextHasNoPlaceholders();
    OccurrencesConcat(SelectTickets + Clauses(fs), NewestFirst, '?');
    OccurrencesConcat(SelectTickets, Clauses(fs), '?');
  }

  /**
   * The SQL and parameters of the listing query: the fixed prefix, one clause per filter in order,
   * the fixed ordering suffix, and one parameter per placeholder.
   */
  method BuildQuery(q: SearchParams) returns (sql: string, params: seq<SqlValue>)
    ensures sql == SelectTickets + Clauses(Filters(q)) + NewestFirst
    ensures params == Params(Filters(q))
    ensures Placeholders(sql) == |params|
  {
    ghost var fs: seq<Filter> := [];
    sql := SelectTickets;
    params := [];
    assert sql == SelectTickets + Clauses(fs);
    FiltersInOrder(q);
    if Truthy(q.businessId) {
      AppendFilter(SelectTickets, fs, Filter(BusinessColumn, q.businessId.value));
      sql := sql + Clause(BusinessColumn);
      params := params + [SqlText(q.businessId.value)];
      fs := fs + [Filter(BusinessColumn, q.businessId.value)];
    }
    assert fs == FilterIf(BusinessColumn, q.businessId);
    assert sql == SelectTickets + Clauses(fs) && params == Params(fs);
    if Truthy(q.departmentId) {
      AppendFilter(SelectTickets, fs, Filter(DepartmentColumn, q.departmentId.value));
      sql := sql + Clause(DepartmentColumn);
      params := params + [SqlText(q.departmentId.value)];
      fs := fs + [Filter(DepartmentColumn, q.departmentId.value)];
    }
    assert fs == FilterIf(BusinessColumn, q.businessId) + FilterIf(DepartmentColumn, q.departmentId);
    assert sql == SelectTickets + Clauses(fs) && params == Params(fs);
    if Truthy(q.status) {
      AppendFilter(SelectTickets, fs, Filter(StatusColumn, q.status.value));
      sql := sql + Clause(StatusColumn);
      params := params + [SqlText(q.status.value)];
      fs := fs + [Filter(StatusColumn, q.status.value)];
    }
    assert fs == Filters(q);
    assert sql == SelectTickets + Clauses(fs) && params == Params(fs);
    sql := sql + NewestFirst;
    QueryPlaceholders(q);
  }

  /** `GET /api/tickets`: the database's answer to the listing query is `db`. */
  method Get(hasSession: bool, q: SearchParams, db: Result<seq<TicketRecord>>) returns (x: TicketsExchange)
    ensures !hasSession ==> x == TicketsExchange(Unauthorized, [])
    ensures hasSession ==> (|x.issued| == 1 && x.issued[0].kind == QueryKind &&
      x.issued[0].sql == SelectTickets + Clauses(Filters(q)) + NewestFirst &&
      x.issued[0].params == Params(Filters(q)) &&
      Placeholders(x.issued[0].sql) == |x.issued[0].params|)
    ensures hasSession && db.Ok? ==> x.response == TicketList(db.value)
    ensures hasSession && db.Err? ==> x.response == ServerError(db.message)
  {
    if !hasSession {
      return TicketsExchange(Unauthorized, []);
    }
    var sql, params := BuildQuery(q);
    var issued := [Statement(QueryKind, sql, params)];
    match db
    case Ok(rows) => x := TicketsExchange(TicketList(rows), issued);
    case Err(m) => x := TicketsExchange(ServerError(m), issued);
  }

  /** The parsed creation body; each field may be missing. */
  datatype TicketBody = TicketBody(businessId: Option<string>, departmentId: Option<string>, subject: Option<string>, conversationId: Option<string>)

  /** `businessId && departmentId && subject`: each is present and not the empty string. */
  predicate HasRequiredFields(b: TicketBody): (r: bool)
    ensures r <==> (b.businessId.Some? && b.departmentId.Some? && b.subject.Some? &&
      b.businessId.value != "" && b.departmentId.value != "" && b.subject.value != "")
  {
    Truthy(b.businessId) && Truthy(b.departmentId) && Truthy(b.subject)
  }

  /** `[businessId, departmentId, subject, conversationId || null, "open"]`. */
  function InsertParams(b: TicketBody): (p: seq<SqlValue>)
    requires HasRequiredFields(b)
    ensures |p| == 5 && p[4] == SqlText(OpenStatus)
    ensures p[..3] == [SqlText(b.businessId.value), SqlText(b.departmentId.value), SqlText(b.subject.value)]
    ensures p[3] == if Truthy(b.conversationId) then SqlText(b.conversationId.value) else SqlNull
  {
    var conversation := if Truthy(b.conversationId) then SqlText(b.conversationId.value) else SqlNull;
    [SqlText(b.businessId.value), SqlText(b.departmentId.value), SqlText(b.subject.value), conversation, SqlText(OpenStatus)]
  }

  /**
   * `POST /api/tickets`: `body` is the parsed request body (or the parse error), `insert` the error
   * the insert throws (if any) and `latest` the answer to the newest-ticket query.
   */
  function Post(hasSession: bool, body: Result<TicketBody>, insert: Option<string>, latest: Result<seq<TicketRecord>>): (x: TicketsExchange)
    ensures !hasSession ==> x == TicketsExchange(Unauthorized, [])
    ensures hasSession && body.Err? ==> x == TicketsExchange(ServerError(body.message), [])
    ensures hasSession && body.Ok? && !HasRequiredFields(body.value) ==> x == TicketsExchange(MissingFields, [])
    ensures x.issued != [] ==> (hasSession && body.Ok? && HasRequiredFields(body.value) &&
      x.issued[0] == Statement(ExecuteKind, InsertTicket, InsertParams(body.value)))
    ensures x.response.Created? ==> (|x.issued| == 2 && insert.None? && latest.Ok? && latest.value != [] &&
      x.response.ticket == latest.value[0])
    ensures x.response.ServerError? && x.issued != [] ==>
      (insert.Some? && x.response.message == insert.value) ||
      (insert.None? && latest.Err? && x.response.message == latest.message) ||
      (insert.None? && latest == Ok([]) && x.response.message == NotSerializableMessage)
    // A complete request from a signed-in user always inserts, then reads the newest ticket back.
    ensures hasSession && body.Ok? && HasRequiredFields(body.value) && insert.Some? ==>
      x == TicketsExchange(ServerError(insert.value), [Statement(ExecuteKind, InsertTicket, InsertParams(body.value))])
    ensures hasSession && body.Ok? && HasRequiredFields(body.value) && insert.None? ==> (
      && x.issued == [Statement(ExecuteKind, InsertTicket, InsertParams(body.value)), Statement(QueryKind, LatestTicket, [])]
      && x.response == if latest.Err? then ServerError(latest.message)
         else if latest.value == [] then ServerError(NotSerializableMessage)
         else Created(latest.value[0]))
  {
    if !hasSession then TicketsExchange(Unauthorized, [])
    else match body
      case Err(m) => TicketsExchange(ServerError(m), [])
      case Ok(b) =>
        if !HasRequiredFields(b) then TicketsExchange(MissingFields, [])
        else
          var insertStatement := Statement(ExecuteKind, InsertTicket, InsertParams(b));
          if insert.Some? then TicketsExchange(ServerError(insert.value), [insertStatement])
          else
            var issued := [insertStatement, Statement(QueryKind, LatestTicket, [])];
            match latest
            case Err(m) => TicketsExchange(ServerError(m), issued)
            case Ok(rows) =>
              if rows == [] then TicketsExchange(ServerError(NotSerializableMessage), issued)
              else TicketsExchange(Created(rows[0]), issued)
  }

  /** Every ticket the endpoint creates is stored with status "open". */
  lemma CreatedTicketsAreOpen(hasSession: bool, body: Result<TicketBody>, insert: Option<string>, latest: Result<seq<TicketRecord>>)
    ensures var x := Post(hasSession, body, insert, latest);
      x.issued != [] ==> x.issued[0].params[4] == SqlText(OpenStatus)
  {
  }
}
