/** The query bridge (blink/query_plugin.go): it exposes the tables of a
    steampipe plugin as blink actions.  It describes each table as an action,
    turns an action request's "query.ctx" parameter into steampipe qualifiers,
    runs the steampipe engine with a row sink that renders every column as a
    string, and decides how an engine error reaches the caller.

    The library code the file calls but that is not modelled here (the `%f`
    and timestamp renderings, JSON decoding of the query context, the JSON
    plus MD5 digest of the connections) is passed in as a `Library`; the
    steampipe engine (`Execute0`) is a function field of `SteamPipePlugin`. */
module Blink {
  import opened Wrappers
  import opened Text
  import Connection

  // ================================================================ errors

  /** A Go `error`, known by its text. */
  datatype Error = Error(message: string)

  const QueryContextKey := "query.ctx"
  const MissingQueryContext := Error("sdk query context not found in parameters with key query.ctx")
  const NoTestCredentials := Error("no TestCredentials function found")
  const RowLimitPhrase := "limit of rows reached"

  function TableNotFound(tableName: string): Error {
    Error("table not found: " + tableName)
  }

  // ================================================================ column types

  /** steampipe's `proto.ColumnType`; `OtherType` is any enum value the
      switch in `convertFieldType` does not list. */
  datatype ColumnType =
    | StringType | BoolType | IntType | DoubleType | JsonType
    | DatetimeType | IpAddrType | CidrType | TimestampType
    | OtherType(code: int)

  const FieldTypeNames: set<string> :=
    {"string", "bool", "int", "double", "json", "datetime", "ipaddress", "cidr", "timestamp", "unknown"}

  /** `convertFieldType`: the blink type name of a column type.  Total: every
      listed kind has a name of its own and everything else is "unknown". */
  function ConvertFieldType(t: ColumnType): (name: string)
    ensures name in FieldTypeNames
    ensures name == "unknown" <==> t.OtherType?
  {
    match t
    case StringType => "string"
    case BoolType => "bool"
    case IntType => "int"
    case DoubleType => "double"
    case JsonType => "json"
    case DatetimeType => "datetime"
    case IpAddrType => "ipaddress"
    case CidrType => "cidr"
    case TimestampType => "timestamp"
    case OtherType(_) => "unknown"
  }

  /** Reads a blink type name back to the column type it names. */
  function ParseFieldType(name: string): Option<ColumnType> {
    match name
    case "string" => Some(StringType)
    case "bool" => Some(BoolType)
    case "int" => Some(IntType)
    case "double" => Some(DoubleType)
    case "json" => Some(JsonType)
    case "datetime" => Some(DatetimeType)
    case "ipaddress" => Some(IpAddrType)
    case "cidr" => Some(CidrType)
    case "timestamp" => Some(TimestampType)
    case _ => None
  }

  /** The name of a listed kind reads back to that kind; "unknown" reads
      back to nothing. */
  lemma ParseConvertFieldType(t: ColumnType)
    ensures ParseFieldType(ConvertFieldType(t)) == if t.OtherType? then None else Some(t)
  {
  }

  /** Distinct listed kinds get distinct names. */
  lemma ConvertFieldTypeInjective(a: ColumnType, b: ColumnType)
    requires !a.OtherType? && !b.OtherType?
    requires ConvertFieldType(a) == ConvertFieldType(b)
    ensures a == b
  {
    ParseConvertFieldType(a);
    ParseConvertFieldType(b);
  }

  // ================================================================ operators

  /** `sdk_query.Op`, the operator codes of a parsed constraint; `OtherOp`
      is any code the switch in `convertOperator` does not list. */
  datatype Op =
    | OpEQ | OpGT | OpLE | OpLT | OpGE
    | OpMATCH | OpLIKE | OpGLOB | OpREGEXP
    | OpScanUnique
    | OtherOp(code: int)

  predicate IsTextMatch(op: Op) {
    op.OpMATCH? || op.OpLIKE? || op.OpGLOB? || op.OpREGEXP?
  }

  predicate IsComparison(op: Op) {
    op.OpEQ? || op.OpGT? || op.OpLE? || op.OpLT? || op.OpGE?
  }

  /** `convertOperator`: the steampipe operator token of a code.  The four
      text-matching codes collapse into "like", the unique scan is "unique",
      unlisted codes become "unsupported" rather than an error. */
  function ConvertOperator(op: Op): (token: string)
    ensures token == "like" <==> IsTextMatch(op)
    ensures token == "unique" <==> op.OpScanUnique?
    ensures token == "unsupported" <==> op.OtherOp?
  {
    match op
    case OpEQ => "="
    case OpGT => ">"
    case OpLE => "<="
    case OpLT => "<"
    case OpGE => ">="
    case OpLIKE => "like"
    case OpMATCH => "like"
    case OpGLOB => "like"
    case OpREGEXP => "like"
    case OpScanUnique => "unique"
    case OtherOp(_) => "unsupported"
  }

  /** Reads a comparison token back to its code. */
  function ParseComparison(token: string): Option<Op> {
    match token
    case "=" => Some(OpEQ)
    case ">" => Some(OpGT)
    case "<=" => Some(OpLE)
    case "<" => Some(OpLT)
    case ">=" => Some(OpGE)
    case _ => None
  }

  /** Comparisons survive the translation exactly; every other code maps to
      a token that is not a comparison. */
  lemma ParseConvertOperator(op: Op)
    ensures ParseComparison(ConvertOperator(op)) == if IsComparison(op) then Some(op) else None
  {
  }

  // ================================================================ column values

  /** An IEEE-754 double, by its bits. */
  datatype Double = Double(bits: bv64)

  /** A protobuf timestamp. */
  datatype Timestamp = Timestamp(seconds: int, nanos: int)

  type Int64 = i: int | -0x8000_0000_0000_0000 <= i < 0x8000_0000_0000_0000

  /** The value of a `proto.Column`.  `UnlistedVal` is a nil value or a
      variant the switch in `stringValue` does not list. */
  datatype ColumnValue =
    | NullVal
    | StringVal(s: string)
    | DoubleVal(d: Double)
    | IntVal(i: Int64)
    | BoolVal(b: bool)
    | JsonVal(json: string)
    | TimestampVal(ts: Timestamp)
    | IpAddrVal(ip: string)
    | CidrRangeVal(cidr: string)
    | UnlistedVal

  /** A host connection, opaque to the bridge. */
  datatype ConnectionInstance = ConnectionInstance(attributes: map<string, string>)

  /** The parsed "query.ctx" payload (`sdk_query.QueryContext`). */
  datatype Constraint = Constraint(operator: Op, expression: string)
  datatype ConstraintList = ConstraintList(affinity: string, constraints: seq<Constraint>)
  datatype SdkQueryContext = SdkQueryContext(constraints: map<string, ConstraintList>, maxRows: int)

  /** Library functions the file calls and this model takes as given. */
  datatype Library = Library(
    formatDouble: Double -> string,                                      // fmt.Sprintf("%f", d)
    formatTimestamp: Timestamp -> string,                                // Timestamp.String()
    unmarshalQueryContext: string -> Result<SdkQueryContext, Error>,     // json.Unmarshal
    connectionsDigest: map<string, ConnectionInstance> -> Option<string> // %x of md5.Sum(json.Marshal(..)); None if Marshal fails
  )

  /** `stringValue`: the text of a column value.  It never fails: integers
      read back exactly, booleans are "true"/"false", text-valued variants
      are passed through, null and unlisted variants are empty, and doubles
      and timestamps take the library's rendering. */
  function StringValue(lib: Library, v: ColumnValue): (text: string)
    ensures v.IntVal? ==> IsIntText(text) && ParseInt(text) == v.i
    ensures v.BoolVal? ==> text in {"true", "false"} && (text == "true" <==> v.b)
    ensures v.StringVal? ==> text == v.s
    ensures v.JsonVal? ==> text == v.json
    ensures v.IpAddrVal? ==> text == v.ip
    ensures v.CidrRangeVal? ==> text == v.cidr
    ensures v.DoubleVal? ==> text == lib.formatDouble(v.d)
    ensures v.TimestampVal? ==> text == lib.formatTimestamp(v.ts)
    ensures v.NullVal? || v.UnlistedVal? ==> text == ""
  {
    match v
    case StringVal(s) => s
    case NullVal => ""
    case DoubleVal(d) => lib.formatDouble(d)
    case IntVal(i) => ParseIntToDecimal(i); IntToDecimal(i)
    case BoolVal(b) => if b then "true" else "false"
    case JsonVal(json) => json
    case TimestampVal(ts) => lib.formatTimestamp(ts)
    case IpAddrVal(ip) => ip
    case CidrRangeVal(cidr) => cidr
    case UnlistedVal => ""
  }

  // ================================================================ result sink

  /** A row as the action returns it: column name to text. */
  type Row = map<string, string>

  /** `proto.ExecuteResponse`; a nil Row has no columns. */
  datatype ExecuteResponse = ExecuteResponse(row: Option<map<string, ColumnValue>>)

  function GetColumns(response: ExecuteResponse): map<string, ColumnValue> {
    if response.row.Some? then response.row.value else map[]
  }

  /** The normalised form of an engine row: the same columns, each as text. */
  function NormalizedRow(lib: Library, response: ExecuteResponse): Row {
    var columns := GetColumns(response);
    map name | name in columns :: StringValue(lib, columns[name])
  }

  /** The rows a sink holds after receiving `responses` in order. */
  function NormalizedRows(lib: Library, responses: seq<ExecuteResponse>): seq<Row> {
    seq(|responses|, i requires 0 <= i < |responses| => NormalizedRow(lib, responses[i]))
  }

  /** A sink fed these responses holds one row per response, in the order
      received, and each row has exactly the response's columns, none for a
      nil or empty row. */
  lemma NormalizedRowsInOrder(lib: Library, responses: seq<ExecuteResponse>)
    ensures |NormalizedRows(lib, responses)| == |responses|
    ensures forall i :: 0 <= i < |responses| ==>
      NormalizedRows(lib, responses)[i].Keys == GetColumns(responses[i]).Keys
  {
  }

  /** Each column of each kept row is rendered by StringValue. */
  lemma NormalizedRowsValue(lib: Library, responses: seq<ExecuteResponse>, i: int, name: string)
    requires 0 <= i < |responses| && name in GetColumns(responses[i])
    ensures NormalizedRows(lib, responses)[i][name] == StringValue(lib, GetColumns(responses[i])[name])
  {
  }

  /** The loop of `Send` that renders one engine row. */
  method BuildRow(lib: Library, response: ExecuteResponse) returns (row: Row)
    ensures row.Keys == GetColumns(response).Keys
    ensures forall name :: name in row ==> row[name] == StringValue(lib, GetColumns(response)[name])
    ensures row == NormalizedRow(lib, response)
  {
    var columns := GetColumns(response);
    row := map[];
    var todo := columns.Keys;
    while todo != {}
      invariant todo <= columns.Keys
      invariant row.Keys == columns.Keys - todo
      invariant forall name :: name in row ==> row[name] == StringValue(lib, columns[name])
      decreases todo
    {
      var name :| name in todo;
      row := row[name := StringValue(lib, columns[name])];
      todo := todo - {name};
    }
  }

  /** `ResultStream`: the sink the engine streams rows into. */
  class ResultStream {
    var rows: seq<Row>
    var maxRows: int

    constructor (maxRows: int)
      ensures rows == [] && this.maxRows == maxRows
    {
      rows := [];
      this.maxRows := maxRows;
    }

    /** `Send`: appends one normalised row; nothing else changes and no
        error is ever returned. */
    method Send(lib: Library, response: ExecuteResponse) returns (err: Option<Error>)
      modifies this
      ensures rows == old(rows) + [NormalizedRow(lib, response)]
      ensures maxRows == old(maxRows)
      ensures err == None
    {
      var row := BuildRow(lib, response);
      rows := rows + [row];
      err := None;
    }
  }

  // ================================================================ qualifiers

  /** `proto.Qual` as this bridge builds it: both operator and value are the
      string variants of their oneofs. */
  datatype Qual = Qual(fieldName: string, operator: string, value: string)

  /** `proto.QueryContext`: the projection and the qualifiers per column. */
  class ProtoQueryContext {
    var columns: seq<string>
    var quals: map<string, seq<Qual>>

    constructor ()
      ensures columns == [] && quals == map[]
    {
      columns := [];
      quals := map[];
    }
  }

  function QualOf(column: string, c: Constraint): Qual {
    Qual(column, ConvertOperator(c.operator), c.expression)
  }

  /** One qualifier per constraint of a column, in order. */
  function ColumnQuals(column: string, constraints: seq<Constraint>): seq<Qual> {
    seq(|constraints|, i requires 0 <= i < |constraints| => QualOf(column, constraints[i]))
  }

  /** The qualifiers of a whole parsed query context. */
  function QualsOf(constraints: map<string, ConstraintList>): map<string, seq<Qual>> {
    map column | column in constraints :: ColumnQuals(column, constraints[column].constraints)
  }

  /** The parsed query context of a request, or why there is none. */
  function DecodeQueryContext(lib: Library, parameters: map<string, string>): Result<SdkQueryContext, Error> {
    if QueryContextKey !in parameters then Failure(MissingQueryContext)
    else lib.unmarshalQueryContext(parameters[QueryContextKey])
  }

  /** Every column of the parsed context gets a qualifier list, columns with
      an empty constraint list included, and each list has one qualifier per
      constraint. */
  lemma QualsOfShape(constraints: map<string, ConstraintList>)
    ensures QualsOf(constraints).Keys == constraints.Keys
    ensures forall column :: column in constraints ==>
      |QualsOf(constraints)[column]| == |constraints[column].constraints|
  {
  }

  /** The i-th qualifier of a column translates the i-th constraint: same
      column, translated operator, the expression as the value. */
  lemma QualsOfElement(constraints: map<string, ConstraintList>, column: string, i: int)
    requires column in constraints && 0 <= i < |constraints[column].constraints|
    ensures var c := constraints[column].constraints[i];
            QualsOf(constraints)[column][i] == Qual(column, ConvertOperator(c.operator), c.expression)
  {
  }

  /** A column whose constraint list is empty still gets an (empty) entry. */
  lemma EmptyConstraintListKept()
    ensures QualsOf(map["age" := ConstraintList("", [])]) == map["age" := []]
  {
    var m := QualsOf(map["age" := ConstraintList("", [])]);
    assert m.Keys == {"age"};
  }

  /** One equality constraint on "age" gives exactly one qualifier. */
  lemma AgeEqualsThirty()
    ensures QualsOf(map["age" := ConstraintList("", [Constraint(OpEQ, "30")])])
         == map["age" := [Qual("age", "=", "30")]]
  {
    var m := QualsOf(map["age" := ConstraintList("", [Constraint(OpEQ, "30")])]);
    assert m.Keys == {"age"};
    assert m["age"] == [Qual("age", "=", "30")];
  }

  /** `convertQueryContext`: fails when "query.ctx" is missing or does not
      decode; otherwise a fresh query context with no columns yet and the
      qualifiers of every constrained column, next to the parsed context. */
  method ConvertQueryContext(lib: Library, parameters: map<string, string>)
    returns (r: Result<(ProtoQueryContext, SdkQueryContext), Error>)
    ensures QueryContextKey !in parameters ==> r == Failure(MissingQueryContext)
    ensures DecodeQueryContext(lib, parameters).Failure? ==> r == Failure(DecodeQueryContext(lib, parameters).error)
    ensures DecodeQueryContext(lib, parameters).Success? ==>
      && r.Success?
      && r.value.1 == DecodeQueryContext(lib, parameters).value
      && fresh(r.value.0)
      && r.value.0.columns == []
      && r.value.0.quals == QualsOf(r.value.1.constraints)
  {
    var pqc := new ProtoQueryContext();
    if QueryContextKey !in parameters {
      return Failure(MissingQueryContext);
    }
    var decoded := lib.unmarshalQueryContext(parameters[QueryContextKey]);
    if decoded.Failure? {
      return Failure(decoded.error);
    }
    var qc := decoded.value;
    var todo := qc.constraints.Keys;
    while todo != {}
      invariant todo <= qc.constraints.Keys
      invariant pqc.columns == []
      invariant pqc.quals.Keys == qc.constraints.Keys - todo
      invariant forall column :: column in pqc.quals ==>
        pqc.quals[column] == ColumnQuals(column, qc.constraints[column].constraints)
      decreases todo
    {
      var column :| column in todo;
      var constraints := qc.constraints[column].constraints;
      var quals: seq<Qual> := [];
      var i := 0;
      while i < |constraints|
        invariant 0 <= i <= |constraints|
        invariant |quals| == i
        invariant forall k :: 0 <= k < i ==> quals[k] == QualOf(column, constraints[k])
      {
        quals := quals + [QualOf(column, constraints[i])];
        i := i + 1;
      }
      pqc.quals := pqc.quals[column := quals];
      todo := todo - {column};
    }
    return Success((pqc, qc));
  }

  // ================================================================ tables and actions

  datatype ColumnDefinition = ColumnDefinition(name: string, columnType: ColumnType)
  datatype Table = Table(description: string, columns: seq<ColumnDefinition>)

  function ColumnNames(columns: seq<ColumnDefinition>): seq<string> {
    seq(|columns|, i requires 0 <= i < |columns| => columns[i].name)
  }

  /** blink's `Field`, `Output` and `Action` descriptors. */
  datatype Field = Field(name: string, fieldType: string)
  datatype Output = Output(name: string, fields: seq<Field>)
  datatype Action = Action(name: string, description: string, enabled: bool, output: Output)

  function FieldOf(column: ColumnDefinition): Field {
    Field(column.name, ConvertFieldType(column.columnType))
  }

  /** The descriptor of one table: enabled, output named after the table,
      one field per column in column order. */
  function ActionOf(name: string, table: Table): Action {
    Action(name, table.description, true,
      Output(name, seq(|table.columns|, i requires 0 <= i < |table.columns| => FieldOf(table.columns[i]))))
  }

  /** The request the engine receives and the context it runs in. */
  datatype ExecuteRequest = ExecuteRequest(table: string, columns: seq<string>, quals: map<string, seq<Qual>>)
  datatype ActionContext = ActionContext(connections: map<string, ConnectionInstance>)
  datatype ExecContext = ExecContext(actionContext: ActionContext, timeout: Connection.Duration, cache: Connection.Context)

  /** What one engine run does to the sink: the rows it sends, in order, and
      the error it ends with, if any. */
  datatype EngineRun = EngineRun(sends: seq<ExecuteResponse>, err: Option<Error>)

  /** The steampipe plugin the bridge wraps: its tables and `Execute0`. */
  datatype SteamPipePlugin = SteamPipePlugin(
    tableMap: map<string, Table>,
    execute0: (ExecContext, ExecuteRequest, SdkQueryContext) -> EngineRun)

  datatype CredentialsValidationResponse = CredentialsValidationResponse(report: string)

  /** `QueryPlugin`. */
  datatype QueryPlugin = QueryPlugin(
    description: string,
    steamPipe: SteamPipePlugin,
    testCredentialsFunc: Option<ActionContext -> Result<CredentialsValidationResponse, Error>>)

  /** The inner loop of `GetActions`: the output schema of one table. */
  method BuildOutput(name: string, table: Table) returns (output: Output)
    ensures output.name == name
    ensures |output.fields| == |table.columns|
    ensures forall m :: 0 <= m < |table.columns| ==>
      output.fields[m] == Field(table.columns[m].name, ConvertFieldType(table.columns[m].columnType))
    ensures output == ActionOf(name, table).output
  {
    var fields: seq<Field> := [];
    var k := 0;
    while k < |table.columns|
      invariant 0 <= k <= |table.columns|
      invariant |fields| == k
      invariant forall m :: 0 <= m < k ==> fields[m] == FieldOf(table.columns[m])
    {
      fields := fields + [Field(table.columns[k].name, ConvertFieldType(table.columns[k].columnType))];
      k := k + 1;
    }
    output := Output(name, fields);
  }

  /** `actions` describes exactly the tables named in `done`, once each. */
  predicate DescribesTables(actions: seq<Action>, tableMap: map<string, Table>, done: set<string>) {
    && (forall i :: 0 <= i < |actions| ==>
          actions[i].name in done && actions[i].name in tableMap &&
          actions[i] == ActionOf(actions[i].name, tableMap[actions[i].name]))
    && (forall i, j :: 0 <= i < j < |actions| ==> actions[i].name != actions[j].name)
    && (forall name :: name in done ==> exists i :: 0 <= i < |actions| && actions[i].name == name)
  }

  /** Describing one more table keeps the description exact. */
  lemma DescribeOneMore(actions: seq<Action>, tableMap: map<string, Table>, done: set<string>, name: string)
    requires DescribesTables(actions, tableMap, done)
    requires name in tableMap && name !in done
    ensures DescribesTables(actions + [ActionOf(name, tableMap[name])], tableMap, done + {name})
  {
    var after := actions + [ActionOf(name, tableMap[name])];
    forall n | n in done + {name}
      ensures exists i :: 0 <= i < |after| && after[i].name == n
    {
      if n == name {
        assert after[|after| - 1].name == n;
      } else {
        var i :| 0 <= i < |actions| && actions[i].name == n;
        assert after[i].name == n;
      }
    }
  }

  /** `GetActions`: one enabled action per table, in no particular order. */
  method GetActions(plugin: QueryPlugin) returns (actions: seq<Action>)
    ensures |actions| == |plugin.steamPipe.tableMap.Keys|
    ensures forall i :: 0 <= i < |actions| ==>
      actions[i].name in plugin.steamPipe.tableMap &&
      actions[i] == ActionOf(actions[i].name, plugin.steamPipe.tableMap[actions[i].name])
    ensures forall i, j :: 0 <= i < j < |actions| ==> actions[i].name != actions[j].name
    ensures forall name :: name in plugin.steamPipe.tableMap ==>
      exists i :: 0 <= i < |actions| && actions[i].name == name
  {
    var tableMap := plugin.steamPipe.tableMap;
    actions := [];
    var todo := tableMap.Keys;
    ghost var done: set<string> := {};
    while todo != {}
      invariant todo <= tableMap.Keys && done == tableMap.Keys - todo
      invariant |actions| + |todo| == |tableMap.Keys|
      invariant DescribesTables(actions, tableMap, done)
      decreases todo
    {
      var name :| name in todo;
      var table := tableMap[name];
      var output := BuildOutput(name, table);
      var action := Action(name, table.description, true, output);
      DescribeOneMore(actions, tableMap, done, name);
      actions := actions + [action];
      todo := todo - {name};
      done := done + {name};
    }
    assert done == tableMap.Keys;
  }

  /** `addColumnNames`: appends the table's column names, in declared order,
      to the projection; an unknown table is an error and changes nothing. */
  method AddColumnNames(plugin: QueryPlugin, queryContext: ProtoQueryContext, tableName: string)
    returns (err: Option<Error>)
    modifies queryContext
    ensures queryContext.quals == old(queryContext.quals)
    ensures tableName !in plugin.steamPipe.tableMap ==>
      err == Some(TableNotFound(tableName)) && queryContext.columns == old(queryContext.columns)
    ensures tableName in plugin.steamPipe.tableMap ==>
      err == None &&
      queryContext.columns == old(queryContext.columns) + ColumnNames(plugin.steamPipe.tableMap[tableName].columns)
  {
    if tableName !in plugin.steamPipe.tableMap {
      return Some(TableNotFound(tableName));
    }
    var table := plugin.steamPipe.tableMap[tableName];
    var k := 0;
    while k < |table.columns|
      invariant 0 <= k <= |table.columns|
      invariant queryContext.quals == old(queryContext.quals)
      invariant queryContext.columns == old(queryContext.columns) + ColumnNames(table.columns[..k])
    {
      assert ColumnNames(table.columns[..k + 1]) == ColumnNames(table.columns[..k]) + [table.columns[k].name];
      queryContext.columns := queryContext.columns + [table.columns[k].name];
      k := k + 1;
    }
    assert table.columns[..k] == table.columns;
    err := None;
  }

  // ================================================================ execution

  /** The host's action request and response. */
  datatype ExecuteActionRequest = ExecuteActionRequest(name: string, parameters: map<string, string>, timeout: int)
  datatype ExecuteActionResponse = ExecuteActionResponse(errorMessage: string, rows: seq<Row>)

  const Second: Connection.Duration := 1_000_000_000

  /** `addConnectionsToContext`: scopes the cache by the digest of the
      connections, or leaves it unscoped when they cannot be serialised. */
  function AddConnectionsToContext(lib: Library, connections: map<string, ConnectionInstance>): (ctx: Connection.Context)
    ensures lib.connectionsDigest(connections).None? ==> ctx.connectionKey.None?
    ensures lib.connectionsDigest(connections).Some? ==>
      ctx.connectionKey == Some(lib.connectionsDigest(connections).value)
  {
    Connection.Context(lib.connectionsDigest(connections))
  }

  /** The one engine error that is not fatal. */
  predicate LimitReached(err: Option<Error>) {
    err.Some? && Contains(err.value.message, RowLimitPhrase)
  }

  /** The engine run an execution leads to, once the request has decoded and
      its table exists: the full projection of the table, the qualifiers of
      the parsed context, and the caller's connections as cache scope. */
  function RunFor(plugin: QueryPlugin, lib: Library, actionContext: ActionContext,
                  request: ExecuteActionRequest, qc: SdkQueryContext, table: Table): EngineRun
  {
    plugin.steamPipe.execute0(
      ExecContext(actionContext, request.timeout * Second, AddConnectionsToContext(lib, actionContext.connections)),
      ExecuteRequest(request.name, ColumnNames(table.columns), QualsOf(qc.constraints)),
      qc)
  }

  /** `ExecuteAction`.  Request errors come back with no response.  Once the
      engine has run, the response carries every row it sent, in order; an
      error mentioning the row limit becomes the response's message and the
      call succeeds, and any other error is returned beside the rows. */
  method ExecuteAction(plugin: QueryPlugin, lib: Library, actionContext: ActionContext, request: ExecuteActionRequest)
    returns (response: Option<ExecuteActionResponse>, err: Option<Error>)
    ensures QueryContextKey !in request.parameters ==> response == None && err == Some(MissingQueryContext)
    ensures DecodeQueryContext(lib, request.parameters).Failure? ==>
      response == None && err == Some(DecodeQueryContext(lib, request.parameters).error)
    ensures DecodeQueryContext(lib, request.parameters).Success? && request.name !in plugin.steamPipe.tableMap ==>
      response == None && err == Some(TableNotFound(request.name))
    ensures DecodeQueryContext(lib, request.parameters).Success? && request.name in plugin.steamPipe.tableMap ==>
      var run := RunFor(plugin, lib, actionContext, request,
                        DecodeQueryContext(lib, request.parameters).value, plugin.steamPipe.tableMap[request.name]);
      && response.Some?
      && response.value.rows == NormalizedRows(lib, run.sends)
      && (LimitReached(run.err) ==> err == None && response.value.errorMessage == run.err.value.message)
      && (!LimitReached(run.err) ==> err == run.err && response.value.errorMessage == "")
  {
    var converted := ConvertQueryContext(lib, request.parameters);
    if converted.Failure? {
      return None, Some(converted.error);
    }
    var protoQueryContext, sdkQueryContext := converted.value.0, converted.value.1;

    var tableName := request.name;
    var columnsErr := AddColumnNames(plugin, protoQueryContext, tableName);
    if columnsErr.Some? {
      return None, columnsErr;
    }

    ghost var table := plugin.steamPipe.tableMap[tableName];
    assert protoQueryContext.columns == ColumnNames(table.columns);
    var stream := new ResultStream(sdkQueryContext.maxRows);
    var executeRequest := ExecuteRequest(tableName, protoQueryContext.columns, protoQueryContext.quals);
    var ctx := ExecContext(actionContext, request.timeout * Second,
                           AddConnectionsToContext(lib, actionContext.connections));

    // The engine streams its rows into the sink, then reports how it ended.
    var run := plugin.steamPipe.execute0(ctx, executeRequest, sdkQueryContext);
    assert run == RunFor(plugin, lib, actionContext, request, sdkQueryContext, table);
    var i := 0;
    while i < |run.sends|
      invariant 0 <= i <= |run.sends|
      invariant stream.rows == NormalizedRows(lib, run.sends[..i])
    {
      var _ := stream.Send(lib, run.sends[i]);
      i := i + 1;
    }
    assert run.sends[..i] == run.sends;

    response := Some(ExecuteActionResponse("", stream.rows));
    if run.err.Some? && Contains(run.err.value.message, RowLimitPhrase) {
      response := Some(ExecuteActionResponse(run.err.value.message, stream.rows));
      return response, None;
    }
    return response, run.err;
  }

  /** A row-limit error turns into a partial success whatever else its text
      says: the engine's phrase need only appear somewhere in it. */
  lemma RowLimitAnywhereInMessage(before: string, after: string)
    ensures LimitReached(Some(Error(before + RowLimitPhrase + after)))
  {
    ContainsInfix(before, RowLimitPhrase, after);
  }

  /** `TestCredentials`: an error when no validator is configured, otherwise
      the validator's answer for the given connections. */
  function TestCredentials(plugin: QueryPlugin, connections: map<string, ConnectionInstance>)
    : (r: Result<CredentialsValidationResponse, Error>)
    ensures plugin.testCredentialsFunc.None? ==> r == Failure(NoTestCredentials)
    ensures plugin.testCredentialsFunc.Some? ==> r == plugin.testCredentialsFunc.value(ActionContext(connections))
  {
    match plugin.testCredentialsFunc
    case None => Failure(NoTestCredentials)
    case Some(validate) => validate(ActionContext(connections))
  }
}
