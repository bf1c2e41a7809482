# Blink query bridge, key-column sets and connection cache — a Dafny model

This project models the core of `blink-steampipe-plugin-sdk`. It has three parts:

* **The query bridge** (`blink/query_plugin.go`, module `Blink`). It exposes each table of a
  steampipe plugin as a blink action. It covers:
  - the type and operator translation tables (`convertFieldType`, `convertOperator`);
  - the column-value renderer (`stringValue`);
  - the row sink (`ResultStream.Send`);
  - the translation of the `"query.ctx"` parameter into steampipe qualifiers (`convertQueryContext`);
  - the full-projection append (`addColumnNames`);
  - the action descriptors (`GetActions`);
  - the orchestrator `ExecuteAction`, which turns a "limit of rows reached" engine error into a
    partial success;
  - `TestCredentials`.
* **The connection cache** (`connection/cache.go`, module `Connection`). Cache keys are scoped by
  the connection digest carried in the execution context. The ristretto store is modelled as a map
  field of class `Cache`, and whether the store admits a write is passed in as an `Admission`.
* **Key-column sets** (`plugin/key_column_set.go`, module `Plugin`). A key-column set is rendered
  as one column, all of a list of columns, or any one of a list. Go's nil slice is `None` and a
  non-nil empty slice is `Some([])`.

Helper modules: `Wrappers` (`Option`, `Result`) and `Text`. `Text` holds Go's `strings.Join`,
`strings.Split`, `strings.Contains` and the `%d` rendering, each proved against a partner
definition.

Library code the core calls is not defined here and is passed in as fields of `Blink.Library`:
the `%f` rendering of doubles, `Timestamp.String()`, `json.Unmarshal` of the query context, and
the MD5 hex digest of the JSON-encoded connections (`None` when encoding fails). The steampipe
engine `Execute0` is a function field of `Blink.SteamPipePlugin`. It maps the execution context,
the request (table, projection, qualifiers) and the parsed query context to the rows it streams
into the sink and the error it ends with. `ExecuteAction` feeds those rows to `ResultStream.Send`
in order.

The model follows the code on three points where one might expect otherwise:
* A missing `"query.ctx"` parameter is an error, not an empty query.
* The parameter is decoded before the table is looked up, so a request that fails both checks
  reports the parameter error.
* `Delete` is not scoped by the connection key, although `Set` and `Get` are.

## Model

| member | source | states |
|---|---|---|
| `Blink.ConvertFieldType` | blink/query_plugin.go:54-78 | total; the result is one of the ten names, and it is "unknown" exactly for the kinds the switch does not list |
| `Blink.ParseConvertFieldType` | blink/query_plugin.go:54-78 | reading the name back gives each of the nine listed kinds; "unknown" reads back to nothing |
| `Blink.ConvertFieldTypeInjective` | blink/query_plugin.go:54-78 | each listed kind has its own name |
| `Blink.ConvertOperator` | blink/query_plugin.go:228-252 | the token is "like" iff the code is MATCH, LIKE, GLOB or REGEXP; "unique" iff ScanUnique; "unsupported" iff the code is unlisted |
| `Blink.ParseConvertOperator` | blink/query_plugin.go:228-239 | EQ, GT, LE, LT and GE map to "=", ">", "<=", "<" and ">=" and read back to themselves; no other code yields a comparison token |
| `Blink.StringValue` | blink/query_plugin.go:94-116 | never fails; an integer renders as decimal text that parses back to it; a bool renders as "true"/"false" according to its value; string, JSON, IP and CIDR text is unchanged; null and unlisted variants give ""; doubles and timestamps use the library renderings |
| `Text.ParseIntToDecimal` | blink/query_plugin.go:102-103 | the `%d` text of an integer parses back to that integer |
| `Blink.BuildRow` | blink/query_plugin.go:86-89 | the row has exactly the response's column names as keys, each mapped to `StringValue` of its column; a nil row gives an empty row |
| `Blink.ResultStream.constructor` | blink/query_plugin.go:165 | a new sink holds no rows and the requested maximum |
| `Blink.ResultStream.Send` | blink/query_plugin.go:85-92 | appends exactly one normalised row after the earlier rows; `maxRows` is unchanged; no error is returned |
| `Blink.NormalizedRowsInOrder` | blink/query_plugin.go:85-92 | N sends give N rows in receive order, zero sends included, and each row has exactly the sent columns as keys, none for a nil or empty row |
| `Blink.NormalizedRowsValue` | blink/query_plugin.go:86-89 | each column of each kept row is the `StringValue` of the sent column |
| `Blink.ProtoQueryContext.constructor` | blink/query_plugin.go:197 | the outgoing query context starts with no columns and no qualifiers |
| `Blink.ConvertQueryContext` | blink/query_plugin.go:196-226 | a missing "query.ctx" gives the not-found error and a decode failure gives its own error; otherwise the result is a fresh context with no columns whose qualifiers come from `QualsOf` of the parsed constraints, returned with the parsed context |
| `Blink.QualsOfShape` | blink/query_plugin.go:211-225 | for every constraint map, empty ones included, the qualifier map has the same keys, columns with empty constraint lists included, and each column has one qualifier per constraint |
| `Blink.QualsOfElement` | blink/query_plugin.go:213-221 | the i-th qualifier of a column has that column, the translated operator of the i-th constraint and its expression as a string value |
| `Blink.EmptyConstraintListKept` | blink/query_plugin.go:211-224 | a column with an empty constraint list gets an empty qualifier list, not a missing entry |
| `Blink.AgeEqualsThirty` | blink/query_plugin.go:211-225 | the constraint `age = "30"` yields exactly the qualifier `{age, "=", "30"}` |
| `Blink.BuildOutput` | blink/query_plugin.go:35-42 | the output is named after the table and has one field per column, in column order, with the type from `ConvertFieldType` |
| `Blink.DescribeOneMore` | blink/query_plugin.go:34-50 | adding the descriptor of a table not yet described keeps the list exact: every listed action describes its table, each name appears once, and every table seen so far is covered |
| `Blink.GetActions` | blink/query_plugin.go:32-52 | one action per table: as many actions as tables, names distinct, every table covered, each action enabled and built by `ActionOf`; no order is promised |
| `Blink.AddColumnNames` | blink/query_plugin.go:262-270 | an unknown table gives "table not found: " + name and leaves the columns unchanged; otherwise the table's column names are appended in declared order after the existing columns; qualifiers are untouched |
| `Blink.ExecuteAction` | blink/query_plugin.go:142-185 | request errors (missing parameter, bad payload, unknown table) return no response. Otherwise the engine runs on the table's full projection and the translated qualifiers, with the connection digest as cache scope. The response always carries every row it sent, in order. An error containing "limit of rows reached" becomes the response's message and the call returns no error; any other error is returned as is |
| `Blink.AddConnectionsToContext` | blink/query_plugin.go:187-194 | when the digest cannot be computed the context stays unscoped; otherwise the cache scope is exactly the digest |
| `Blink.RowLimitAnywhereInMessage` | blink/query_plugin.go:179-182 | the row-limit phrase counts wherever it appears in the engine's error text |
| `Text.ContainsIffOccurs` | blink/query_plugin.go:179 | the left-to-right scan of `strings.Contains` succeeds exactly when the phrase occurs at some position |
| `Blink.TestCredentials` | blink/query_plugin.go:254-260 | with no validator configured, the result is the "no TestCredentials function found" error; otherwise it is the validator's answer for the given connections |
| `Connection.AddConnectionKey` | connection/cache.go:50-56 | without a connection key the key is returned unchanged; with one, the result is the key, then "-", then exactly the connection key |
| `Connection.ScopesSeparateKey` | connection/cache.go:50-56 | for one logical key, contexts with different connection keys (or only one with a key) give different effective keys |
| `Connection.ScopedKeyDeterminesBoth` | connection/cache.go:50-56 | with connection keys of one length (MD5 hex digests), a scoped key determines both the logical key and the connection key |
| `Connection.UnscopedKeyCanNameScopedEntry` | connection/cache.go:50-56 | the limit of scoping: an unscoped key `k-c` is the same effective key as `k` under connection key `c` |
| `Connection.WriteInvisibleToOtherScope` | connection/cache.go:33-48 | a `Set` under one scope does not change what `Get` of the same logical key sees under a different scope |
| `Connection.WriteVisibleToSameScope` | connection/cache.go:33-48 | a kept `Set` is what `Get` under the same scope returns |
| `Connection.RejectedWriteStoresNothing` | connection/cache.go:38-43 | a write the store refuses leaves it unchanged |
| `Connection.DeleteMissesScopedEntry` | connection/cache.go:58-59 | under a connection key, `Delete(k)` leaves the entry that `Set(ctx, k, v)` made |
| `Connection.Cache.constructor` | connection/cache.go:18-31 | a new cache is empty |
| `Connection.Cache.SetWithTTL` | connection/cache.go:38-43 | returns whether the store took the write; the store gains the entry (with its TTL) only if the write is kept |
| `Connection.Cache.Set` | connection/cache.go:33-36 | writes under the scoped key with a TTL of one hour (3,600,000,000,000 ns) and returns the store's admission |
| `Connection.Cache.Get` | connection/cache.go:45-48 | looks up only the scoped key; `found` iff it is present, and the value is the one stored there |
| `Connection.Cache.Delete` | connection/cache.go:58-59 | removes exactly the raw key; nothing else changes |
| `Plugin.ToString` | plugin/key_column_set.go:19-30 | precedence Single > All > Any, each marked by its own prefix. The "column: " prefix appears iff Single is non-empty. "all columns: " appears iff Single is empty and All is non-nil. "one of columns: " appears iff Single is empty, All is nil and Any is non-nil. The result is "" iff nothing is set |
| `Plugin.SingleWins` | plugin/key_column_set.go:20-22 | a non-empty Single renders as "column: " + Single, whatever All and Any hold |
| `Plugin.AllBeforeAny` | plugin/key_column_set.go:23-25 | with Single empty and All non-nil, the result is "all columns: " + the comma-joined list, whatever Any holds; a non-nil empty All gives "all columns: " |
| `Plugin.AnyLast` | plugin/key_column_set.go:26-28 | with Single empty and All nil, a non-nil Any renders as "one of columns: " + the comma-joined list |
| `Plugin.SingleColumn` | plugin/key_column_set.go:32-34 | only Single is set; renders as "column: " + c, or "" when c is empty |
| `Plugin.AllColumns` | plugin/key_column_set.go:36-38 | only All is set; renders with the "all columns: " prefix for a non-nil list and as "" for nil |
| `Plugin.AnyColumn` | plugin/key_column_set.go:40-42 | only Any is set; renders with the "one of columns: " prefix for a non-nil list and as "" for nil |
| `Plugin.Canonical` | plugin/key_column_set.go:19-30 | the winning field alone renders exactly as the whole set |
| `Plugin.ParseToString` | plugin/key_column_set.go:19-30 | when no listed name is empty or contains a comma, reading the rendering back gives the winning field, including nil versus empty |
| `Plugin.ToStringDeterminesWinner` | plugin/key_column_set.go:19-30 | two such sets render alike only if their winning fields are equal |
| `Text.SplitJoin` | plugin/key_column_set.go:24 | splitting a `strings.Join` at the separator gives back the parts when no part contains the separator |

## Left out

- JSON decoding of the query context, the `%f` rendering of doubles, `Timestamp.String()`, and the JSON encoding plus MD5 digest of the connections: library code. These are parameters (`Blink.Library`), so the model says nothing about their output.
- `Execute0`, the steampipe engine: foreign code. It is a function of its inputs that yields the rows it sends and its final error, so the model does not capture an engine that interleaves other effects with its sends.
- `ExecuteAction`'s `recover` of panics: a runtime fault, not a data behaviour. A nil column pointer, a nil table pointer or a nil constraint list would panic in Go; the model's values are never nil there.
- `ResultStream.SetHeader`, `SendHeader`, `SetTrailer`, `Context`, `SendMsg` and `RecvMsg` only panic. No caller in the core reaches them.
- The `context.WithValue` plumbing and the logger calls. The timeout is computed as `timeout * 1,000,000,000` ns, without Go's int64 wrap-around for very large values.
- Go's map iteration order in `GetActions` and `convertQueryContext`: the model iterates keys in an arbitrary order and promises no order of actions.
- ristretto internals: cost-based admission, the cost argument of 1, TTL expiry, capacity, `NewCache`'s configuration defaults and its panic, and the 10 ms settling `time.Sleep`. Admission is an argument.
- Connection.Cache.Get: does not model an entry that has expired but not yet been evicted, which ristretto would hide.
- `Describe`, which returns the plugin's description field unchanged.
- The numeric values of the column-type and operator codes. These come from the protobuf and `sdk_query` definitions, which are not part of this model; the codes are datatype constructors, with one constructor for every unlisted code.
