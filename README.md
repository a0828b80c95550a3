# OpenID token table

A model of the OpenID token table of Dendrite's account store
(`account_openid`, PostgreSQL backend). The table holds short-lived bearer tokens.
A homeserver hands such a token to a client so that the client can prove control
of a local Matrix account to a third party. The table offers two statements:

- `insertToken` issues a token. It stores one row keyed by the token. An empty
  relying party is stored as NULL.
- `selectToken` looks a token up by exact match. It is meant to build the user
  identifier `@localpart:server` from the stored localpart and the server name
  that `prepare` recorded. As written it cannot. First, `prepare` never
  succeeds (lines 25-26), so neither statement is prepared. Once `prepare`
  succeeds (schema of lines 25-26 corrected), `selectToken` still passes
  `localpart` to `Scan` by value (line 84), so every hit fails before the
  identifier is built. With line 84 corrected (`&localpart`) as well, it builds
  the identifier as described.

The model has four modules:

- `Wrappers` (`wrappers.dfy`): `Option` and `Result`.
- `UserId` (`user_id.dfy`): `MakeUserID`, the Matrix `@localpart:server` form, and a
  proof that it is injective on localparts without ':'.
- `RowScan` (`row_scan.dfy`): an abstract `Row.Scan` from `database/sql`. Each
  stored cell is converted into the destination passed for its column. The scan
  stops at the first column that fails and reports that column.
- `OpenIdTable` (`openid_table.dfy`): the schema's column list, the row
  encoding, and pure functions `Insert` and `Lookup` over a `map<string, Row>`.
  It also holds the class `TokenStatements`, whose fields are the table, two
  flags for the prepared statements, and the server name. Its methods are
  `Prepare`, `ExecInsert` (the prepared INSERT itself), `InsertToken`,
  `SelectToken` and `SelectTokenAsWritten`. Three client walk-throughs,
  `PrepareExample`, `IssueAndLookupExample` and `ReissueExample`, drive the class
  through prepare, issue, lookup, reissue and the as-written lookup. They have no
  contract of their own; their assertions check the class contracts on concrete
  values.

The database is replaced by the map. The outcome of each database round trip
(reachable or not, statement prepared or not) is a boolean parameter.

Facts about the code that shape the model:

- `insertToken` checks neither `token` nor `localpart` for emptiness, so the
  model has no such precondition.
- A lookup miss is reported as `sql.ErrNoRows` (`NoRows`).
- The token is a TEXT parameter of both statements. A token holding U+0000 is
  rejected by the server (`InvalidText`) before any row is looked for, and no
  stored row ever holds one (`Stored`, the class invariant).
- A row that cannot be decoded is reported as the error from `Scan`
  (`ScanFailed`, with the failing column).
- If preparing the insert statement succeeds and preparing the select statement
  fails, `prepare` leaves the insert statement set. `Prepare` models these
  partial states as they are.
- `prepare` always executes the schema constant `openIDTokenSchema`, whose
  column list is `AsWrittenColumnList`. `Prepare` takes the column list as an
  argument so that the corrected list can be run too.

## Model

| member | source | states |
|---|---|---|
| `UserId.MakeUserID` | userapi/storage/accounts/postgres/openid_table.go:93 | the identifier is `@`, the localpart, `:`, the server name, each at its position |
| `UserId.SplitMakeUserID` | userapi/storage/accounts/postgres/openid_table.go:93 | splitting at the first ':' after the sigil recovers the localpart and server of a valid localpart |
| `UserId.MakeUserIDInjective` | userapi/storage/accounts/postgres/openid_table.go:93 | two valid localparts get the same user identifier only if they and their servers are equal |
| `RowScan.ScanColumn` | userapi/storage/accounts/postgres/openid_table.go:82-88 | the conversion of one column: a non-pointer destination always fails with `NotAPointer`; NULL into a plain string fails with `NullToString`; a string or int64 destination holds exactly the stored text or integer; a nullable string takes text or NULL (as an absent value) and nothing else |
| `RowScan.ScanFrom` | userapi/storage/accounts/postgres/openid_table.go:82-88 | a scan succeeds iff every column converts, with values in column order; otherwise the error names the first failing column and its cause |
| `OpenIdTable.AsWrittenSchemaRejected` | userapi/storage/accounts/postgres/openid_table.go:13-29 | the schema as written, with the comma after `token_rp TEXT`, fails to execute every time (a syntax error whenever the database is reachable) |
| `OpenIdTable.ExecSchema` | userapi/storage/accounts/postgres/openid_table.go:44-47 | executing the schema succeeds iff the database is reachable and the column list parses; otherwise the error is `StorageUnavailable` or `SchemaSyntax` |
| `OpenIdTable.CorrectedSchemaAccepted` | userapi/storage/accounts/postgres/openid_table.go:15-26 | the same five columns without the trailing comma execute iff the database is reachable |
| `OpenIdTable.EncodeRelyingParty` | userapi/storage/accounts/postgres/openid_table.go:67-71 | an empty relying party is stored as NULL; any other is stored exactly, so a stored relying party is never "" |
| `OpenIdTable.RowCells` | userapi/storage/accounts/postgres/openid_table.go:15-26 | a stored row has five cells in schema order: token and localpart as TEXT, both timestamps as BIGINT, and the relying party as TEXT or as NULL exactly when it is absent |
| `OpenIdTable.ScanToken` | userapi/storage/accounts/postgres/openid_table.go:82-91 | a failed scan is returned as `ScanFailed` with the failing column and cause; a successful one returns the stored token, localpart and timestamps, with the user identifier not yet set |
| `OpenIdTable.IntendedScanDecodes` | userapi/storage/accounts/postgres/openid_table.go:82-88 | with `&localpart` and a nullable relying party, the scan returns every stored column of the row unchanged |
| `OpenIdTable.AsWrittenScanFails` | userapi/storage/accounts/postgres/openid_table.go:82-84 | with `localpart` passed by value, the scan of any row fails at column 1 because the destination is not a pointer |
| `OpenIdTable.NullRelyingPartyUnreadable` | userapi/storage/accounts/postgres/openid_table.go:87 | with line 84 corrected (`&localpart`), scanning the relying party into a plain string fails at column 4 on a NULL relying party, and returns the same result as the nullable scan on a stored one |
| `OpenIdTable.Insert` | userapi/storage/accounts/postgres/openid_table.go:17-32 | an insert succeeds iff the database is reachable, every text argument is storable (no U+0000) and the token is absent; unstorable text gives `InvalidText`, a duplicate gives `DuplicateToken`; on success exactly one key is added, holding the five given columns, and every other row is unchanged; keying by token and the storability of every row (`Stored`) are preserved |
| `OpenIdTable.QueryRow` | userapi/storage/accounts/postgres/openid_table.go:34-35 | the select returns the row stored under the token iff the database is reachable, the token is storable text and present; otherwise `StorageUnavailable`, `InvalidText` or `NoRows`, in that order |
| `OpenIdTable.QueryRowMatchesExactToken` | userapi/storage/accounts/postgres/openid_table.go:34-35 | over a stored table, the select finds a row iff some row carries exactly that token, and that row is the one returned, so at most one row matches |
| `OpenIdTable.Lookup` | userapi/storage/accounts/postgres/openid_table.go:75-95 | a lookup returns the query's error, else the scan's error, else a result whose user identifier is `MakeUserID` of the scanned localpart and the server name; it has a result iff both the query and the scan succeed |
| `OpenIdTable.LookupContract` | userapi/storage/accounts/postgres/openid_table.go:75-95 | the intended lookup (with `&localpart`, relying party read as nullable) succeeds iff the database is reachable and the token is storable and present; a token holding U+0000 is `InvalidText`; a miss is `NoRows` with no result; a hit returns token, timestamps and relying party as stored, with `userId = MakeUserID(localpart, serverName)` |
| `OpenIdTable.AsWrittenLookupFails` | userapi/storage/accounts/postgres/openid_table.go:82-91 | once `prepare` succeeds (schema of lines 25-26 corrected), the select code as written returns the column-1 scan error and no result for a lookup that finds its row |
| `OpenIdTable.LookupIgnoresExpiry` | userapi/storage/accounts/postgres/openid_table.go:34-35 | with the intended lookup (with `&localpart`, relying party read as nullable), changing a row's expiry (to a time in the past, say) changes only the expiry reported; the lookup still succeeds |
| `OpenIdTable.InsertThenLookup` | userapi/storage/accounts/postgres/openid_table.go:58-95 | for a fresh token, an insert succeeds iff its text is storable, and then the intended lookup (with `&localpart`, relying party read as nullable) returns the inserted values, the encoded relying party and the derived user identifier |
| `OpenIdTable.UnscopedInsertUnreadableAsString` | userapi/storage/accounts/postgres/openid_table.go:67-88 | an insert with relying party "" succeeds iff its text is storable; after it, a lookup with line 84 corrected (`&localpart`) that reads the relying party into a plain string fails at column 4 |
| `OpenIdTable.DuplicateInsertKeepsRow` | userapi/storage/accounts/postgres/openid_table.go:17 | inserting a present token fails, with `DuplicateToken` when its text is storable, and the existing row is still returned by the intended lookup (with `&localpart`, relying party read as nullable) |
| `OpenIdTable.InsertKeepsOtherLookups` | userapi/storage/accounts/postgres/openid_table.go:31-32 | after a successful insert, the intended lookup of any other token returns the same result as before |
| `OpenIdTable.TokenStatements.constructor` | userapi/storage/accounts/postgres/openid_table.go:37-41 | a zero statement set: no statement prepared, empty server name, over the given stored table |
| `OpenIdTable.TokenStatements.Prepare` | userapi/storage/accounts/postgres/openid_table.go:43-56 | runs schema, insert-prepare and select-prepare in order and stops at the first failure; each statement flag is set by its own step only; the server name is recorded only when all three succeed; the table is unchanged. The column list is an argument; the source always runs `AsWrittenColumnList` |
| `OpenIdTable.TokenStatements.ExecInsert` | userapi/storage/accounts/postgres/openid_table.go:65-71 | the prepared insert adds the row under its token iff the database is reachable, the row's text is storable and the token is absent; otherwise the table is unchanged and the error is `StorageUnavailable`, `InvalidText` or `DuplicateToken` |
| `OpenIdTable.TokenStatements.InsertToken` | userapi/storage/accounts/postgres/openid_table.go:58-73 | branches on an empty relying party (NULL) or not, and leaves the table and error exactly as `Insert` says |
| `OpenIdTable.TokenStatements.SelectToken` | userapi/storage/accounts/postgres/openid_table.go:75-95 | the intended lookup: a result iff the token is present and the database reachable; `InvalidText` for a token holding U+0000; `NoRows` on a miss; on a hit the stored row's view with the derived user identifier |
| `OpenIdTable.TokenStatements.SelectTokenAsWritten` | userapi/storage/accounts/postgres/openid_table.go:75-95 | once `prepare` succeeds (schema of lines 25-26 corrected), the select code as written never returns a result: `InvalidText` for a token holding U+0000, `NoRows` on a miss, the column-1 scan error on a hit |

## Left out

- The configuration file internal/config/config_roomserver.go. It only assigns
  default strings and checks that they are non-empty, through helpers that are
  not part of this model.
- The transaction handle `txn` and `sqlutil.TxStmt`. The statement runs against
  the same logical table with or without a transaction. Commit and rollback are
  not modelled.
- `context.Context` cancellation, concurrent callers and racing inserts. The
  database engine handles these; the model is sequential.
- SQL text, parsing and prepared-statement handles. A prepared statement is a
  boolean flag. The only part of the SQL grammar modelled is the rule that every
  comma-separated entry of a column list is a definition.
- OpenIdTable.ExecSchema: it accepts any non-empty column list with no empty entry. It does
  not check the column definitions themselves.
- The commented-out sequence at openid_table.go:28.
- Calling `insertToken` or `selectToken` before its statement is prepared
  dereferences a nil statement. The model makes this a precondition
  (`insertPrepared`, `selectPrepared`) and does not model the panic.
- RowScan.ScanColumn: conversions between kinds that this schema never produces
  (for example a BIGINT into a string) are an abstract `Unsupported` error.
  `database/sql` would convert some of them.
- Scanning into a by-value `localpart` is modelled as the "destination not a
  pointer" error that `database/sql` returns. The alternative reading, where
  `localpart` stays "" and the user identifier becomes `@:server`, is not modelled.
- The types of the fields of `api.OpenIDToken` are not part of this model. The
  as-written scan takes `RelyingParty` to be a plain `string`, and the intended
  scan takes it to be a nullable string. Both take `CreatedTS` and `ExpiresTS`
  to be `int64`; another integer kind would be converted, or fail, differently.
- OpenIdTable.Insert: the only unstorable text modelled is U+0000. A Go string
  that is not valid UTF-8, which the server also rejects, cannot be written as
  a Dafny string and is not modelled.
- Localparts are not validated by this code. The injectivity of `MakeUserID` is
  proved only for localparts without ':'.

## Findings

| source | as written | input that shows it | evidently intended | confidence | as-written member | corrected member |
|---|---|---|---|---|---|---|
| userapi/storage/accounts/postgres/openid_table.go:84 | `localpart` is passed to `Scan` by value | once `prepare` succeeds (schema of lines 25-26 corrected), any token present in the table: the lookup returns the column-1 error "destination not a pointer" | `&localpart`, so the stored localpart is read and used for the user identifier | high; not executed | `OpenIdTable.AsWrittenLookupFails` | `OpenIdTable.InsertThenLookup` |
| userapi/storage/accounts/postgres/openid_table.go:87 | `token_rp` is scanned into `RelyingParty`, while line 68 stores NULL for an unscoped token | once `prepare` succeeds (schema of lines 25-26 corrected), `insertToken(t, "alice", 1000, 601000, "")` then `selectToken(t)` with line 84 corrected (`&localpart`): if `RelyingParty` is a plain string, converting NULL fails at column 4. As written, the schema error of lines 25-26 prevents both statements, and after that the column-1 error of line 84 comes first and hides it | read `token_rp` into a nullable string and report an absent relying party | medium (depends on the field's type); not executed | `OpenIdTable.UnscopedInsertUnreadableAsString` | `OpenIdTable.IntendedScanDecodes` |
| userapi/storage/accounts/postgres/openid_table.go:25-26 | the column list ends `token_rp TEXT,` before `)` | any call of `prepare`: PostgreSQL rejects the `CREATE TABLE`, so neither statement is prepared and no server name is recorded | no separator after the last column definition | high; not executed | `OpenIdTable.AsWrittenSchemaRejected` | `OpenIdTable.CorrectedSchemaAccepted` |
