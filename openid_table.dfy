/**
 * The OpenID token table of the account store (`account_openid`): short-lived
 * bearer tokens that prove control of a local Matrix account. The SQL engine
 * is replaced by a map from token to stored row; the outcome of each round
 * trip to the database (reachable or not, statement prepared or not) is a
 * parameter.
 */
module OpenIdTable {
  import opened Wrappers
  import opened RowScan
  import opened UserId

  // ---------------------------------------------------------------------
  // Schema
  // ---------------------------------------------------------------------

  /**
   * The column list of `CREATE TABLE IF NOT EXISTS account_openid (...)` as
   * written, split at each ',' with comments and blanks dropped. The ',' after
   * the last column leaves an empty entry before the closing parenthesis.
   */
  const AsWrittenColumnList: seq<string> := [
    "token TEXT NOT NULL PRIMARY KEY",
    "localpart TEXT NOT NULL",
    "token_created_ts BIGINT NOT NULL",
    "token_expires_ts BIGINT NOT NULL",
    "token_rp TEXT",
    ""
  ]

  /** The same five column definitions without the trailing separator. */
  const CorrectedColumnList: seq<string> := [
    "token TEXT NOT NULL PRIMARY KEY",
    "localpart TEXT NOT NULL",
    "token_created_ts BIGINT NOT NULL",
    "token_expires_ts BIGINT NOT NULL",
    "token_rp TEXT"
  ]

  /** PostgreSQL accepts a column list only if every comma-separated entry is a definition. */
  predicate ColumnListParses(columns: seq<string>) {
    |columns| > 0 && forall i | 0 <= i < |columns| :: columns[i] != ""
  }

  /** The error conditions the table reports to its callers. */
  datatype Error =
    | SchemaSyntax                               // CREATE TABLE rejected by the parser
    | PrepareFailed                              // db.Prepare of a statement failed
    | DuplicateToken                             // PRIMARY KEY violation on insert
    | NoRows                                     // sql.ErrNoRows: no row for the token
    | StorageUnavailable                         // the database could not be reached
    | InvalidText                                // a text parameter the server's encoding rejects
    | ScanFailed(column: nat, cause: Conversion) // a stored column could not be decoded

  /** `db.Exec(openIDTokenSchema)`: fails when the database is unreachable or the text does not parse. */
  function ExecSchema(columns: seq<string>, reachable: bool): (err: Option<Error>)
    ensures err.None? <==> reachable && ColumnListParses(columns)
    ensures !reachable ==> err == Some(StorageUnavailable)
    ensures reachable && !ColumnListParses(columns) ==> err == Some(SchemaSyntax)
  {
    if !reachable then Some(StorageUnavailable)
    else if !ColumnListParses(columns) then Some(SchemaSyntax)
    else None
  }

  /** The schema as written is rejected on every attempt, so `prepare` never gets past its first step. */
  lemma AsWrittenSchemaRejected(reachable: bool)
    ensures ExecSchema(AsWrittenColumnList, reachable).Some?
    ensures reachable ==> ExecSchema(AsWrittenColumnList, reachable) == Some(SchemaSyntax)
  {
    assert AsWrittenColumnList[5] == "";
  }

  /** Without the trailing separator the schema is accepted whenever the database is reachable. */
  lemma CorrectedSchemaAccepted(reachable: bool)
    ensures ExecSchema(CorrectedColumnList, reachable).None? <==> reachable
    ensures CorrectedColumnList == AsWrittenColumnList[..5]
  {
  }

  // ---------------------------------------------------------------------
  // Rows and their encoding
  // ---------------------------------------------------------------------

  /** One stored row of `account_openid`; `rp` is `None` for a NULL `token_rp`. */
  datatype Row = Row(
    token: string,
    localpart: string,
    createdTs: int64,
    expiresTs: int64,
    rp: Option<string>)

  /** The result of a lookup: the stored fields plus the derived user identifier. */
  datatype OpenIDToken = OpenIDToken(
    token: string,
    userId: string,
    createdTs: int64,
    expiresTs: int64,
    relyingParty: Option<string>)

  /** The table's contents, keyed by the PRIMARY KEY column `token`. */
  type Table = map<string, Row>

  /** Every row is stored under its own token, so a token identifies at most one row. */
  predicate Keyed(t: Table) {
    forall k | k in t :: t[k].token == k
  }

  /** A PostgreSQL `TEXT` value holds any character except U+0000, which the server rejects. */
  predicate StorableText(s: string) {
    forall i | 0 <= i < |s| :: s[i] != '\0'
  }

  /** Every text column of the row can be sent to the server. */
  predicate StorableRow(row: Row) {
    StorableText(row.token) && StorableText(row.localpart) && (row.rp.Some? ==> StorableText(row.rp.value))
  }

  /** The state of a real table: keyed by token, and holding only text the server accepted. */
  predicate Stored(t: Table) {
    Keyed(t) && forall k | k in t :: StorableRow(t[k])
  }

  /**
   * The relying party as it is passed to the INSERT: the empty string becomes
   * NULL, anything else is stored verbatim, so a stored text is never empty.
   */
  function EncodeRelyingParty(tokenRP: string): (c: Option<string>)
    ensures c.None? <==> tokenRP == ""
    ensures c.Some? ==> c.value == tokenRP && c.value != ""
  {
    if tokenRP == "" then None else Some(tokenRP)
  }

  /** The cells of `SELECT token, localpart, token_created_ts, token_expires_ts, token_rp` for one row. */
  function RowCells(row: Row): (cells: seq<Cell>)
    ensures |cells| == 5
    ensures cells[0] == TextCell(row.token) && cells[1] == TextCell(row.localpart)
    ensures cells[2] == IntCell(row.createdTs) && cells[3] == IntCell(row.expiresTs)
    ensures cells[4] == NullCell <==> row.rp.None?
    ensures row.rp.Some? ==> cells[4] == TextCell(row.rp.value)
  {
    [ TextCell(row.token),
      TextCell(row.localpart),
      IntCell(row.createdTs),
      IntCell(row.expiresTs),
      match row.rp
      case None => NullCell
      case Some(s) => TextCell(s) ]
  }

  /**
   * The destinations of `Scan` as written: `localpart` is passed by value, and
   * `RelyingParty` is taken to be a plain `string` field.
   */
  const AsWrittenDests: seq<Dest> := [StringDest, NonPointerDest, Int64Dest, Int64Dest, StringDest]

  /** The destinations with `&localpart`, but `RelyingParty` still a plain `string`. */
  const PointerFixedDests: seq<Dest> := [StringDest, StringDest, Int64Dest, Int64Dest, StringDest]

  /** The intended destinations: `&localpart`, and a nullable relying party. */
  const IntendedDests: seq<Dest> := [StringDest, StringDest, Int64Dest, Int64Dest, NullableStringDest]

  /** The relying party a scanned value leaves in the result struct. */
  function RelyingPartyOf(v: Value): Option<string> {
    match v
    case OptVal(o) => o
    case StrVal(s) => Some(s)
    case IntVal(_) => None  // no destination list of this module scans column 4 into an integer
  }

  /**
   * Fills the result struct and the local `localpart` from one row, in the
   * order of the SELECT; `userId` is not yet set.
   */
  function ScanToken(row: Row, dests: seq<Dest>): (r: Result<(OpenIDToken, string), Error>)
    requires |dests| == 5
    ensures Scan(RowCells(row), dests).Err? ==>
      r == Err(ScanFailed(Scan(RowCells(row), dests).error.column, Scan(RowCells(row), dests).error.cause))
    ensures r.Ok? ==> Scan(RowCells(row), dests).Ok? && r.value.0.userId == ""
    ensures r.Ok? ==> r.value.0.token == row.token && r.value.1 == row.localpart
    ensures r.Ok? ==> r.value.0.createdTs == row.createdTs && r.value.0.expiresTs == row.expiresTs
  {
    match Scan(RowCells(row), dests)
    case Err(f) => Err(ScanFailed(f.column, f.cause))
    case Ok(vals) =>
      if vals[0].StrVal? && vals[1].StrVal? && vals[2].IntVal? && vals[3].IntVal? then
        Ok((OpenIDToken(vals[0].s, "", vals[2].n, vals[3].n, RelyingPartyOf(vals[4])), vals[1].s))
      else
        // Destination kinds that do not match the struct's fields; unreachable
        // for AsWrittenDests, PointerFixedDests and IntendedDests.
        Err(ScanFailed(0, Unsupported))
  }

  /** With the intended destinations every column of every row reads back unchanged. */
  lemma IntendedScanDecodes(row: Row)
    ensures ScanToken(row, IntendedDests)
         == Ok((OpenIDToken(row.token, "", row.createdTs, row.expiresTs, row.rp), row.localpart))
  {
    var cells := RowCells(row);
    var vals := [StrVal(row.token), StrVal(row.localpart), IntVal(row.createdTs), IntVal(row.expiresTs), OptVal(row.rp)];
    assert forall j | 0 <= j < 5 :: ScanColumn(cells[j], IntendedDests[j]) == Ok(vals[j]);
    var r := Scan(cells, IntendedDests);
    assert r.Ok?;
    assert forall j | 0 <= j < 5 :: r.value[j] == vals[j];
  }

  /** As written, every row fails to scan at column 1, the non-pointer `localpart`. */
  lemma AsWrittenScanFails(row: Row)
    ensures ScanToken(row, AsWrittenDests) == Err(ScanFailed(1, NotAPointer))
  {
    var cells := RowCells(row);
    assert ScanColumn(cells[0], AsWrittenDests[0]).Ok?;
    assert ScanColumn(cells[1], AsWrittenDests[1]).Err?;
  }

  /**
   * Even with `&localpart`, a row whose relying party is NULL cannot be read
   * into a plain string (column 4), while a row with a stored relying party can.
   */
  lemma NullRelyingPartyUnreadable(row: Row)
    ensures row.rp.None? ==> ScanToken(row, PointerFixedDests) == Err(ScanFailed(4, NullToString))
    ensures row.rp.Some? ==> ScanToken(row, PointerFixedDests) == ScanToken(row, IntendedDests)
  {
    var cells := RowCells(row);
    var r := Scan(cells, PointerFixedDests);
    assert forall j | 0 <= j < 4 :: ScanColumn(cells[j], PointerFixedDests[j]).Ok?;
    match row.rp
    case None =>
      assert ScanColumn(cells[4], PointerFixedDests[4]) == Err(NullToString);
      assert r.Err?;
    case Some(s) =>
      var vals := [StrVal(row.token), StrVal(row.localpart), IntVal(row.createdTs), IntVal(row.expiresTs), StrVal(s)];
      assert forall j | 0 <= j < 5 :: ScanColumn(cells[j], PointerFixedDests[j]) == Ok(vals[j]);
      assert r.Ok?;
      assert forall j | 0 <= j < 5 :: r.value[j] == vals[j];
      IntendedScanDecodes(row);
  }

  // ---------------------------------------------------------------------
  // The two statements, as functions of the table
  // ---------------------------------------------------------------------

  /**
   * `INSERT INTO account_openid(...) VALUES ($1, ..., $5)`: adds one row, or
   * fails without changing anything. The server rejects a text parameter it
   * cannot store before it checks the PRIMARY KEY.
   */
  function Insert(t: Table, token: string, localpart: string, createdTs: int64, expiresTs: int64,
                  tokenRP: string, reachable: bool): (r: Result<Table, Error>)
    ensures r.Ok? <==> reachable && StorableText(token) && StorableText(localpart) && StorableText(tokenRP)
                       && token !in t
    ensures !reachable ==> r == Err(StorageUnavailable)
    ensures reachable && !(StorableText(token) && StorableText(localpart) && StorableText(tokenRP)) ==>
      r == Err(InvalidText)
    ensures (reachable && StorableText(token) && StorableText(localpart) && StorableText(tokenRP)
             && token in t) ==> r == Err(DuplicateToken)
    ensures r.Ok? ==> r.value.Keys == t.Keys + {token}
    ensures r.Ok? ==> r.value[token] == Row(token, localpart, createdTs, expiresTs, EncodeRelyingParty(tokenRP))
    ensures r.Ok? ==> forall k | k in t :: r.value[k] == t[k]
    ensures r.Ok? && Keyed(t) ==> Keyed(r.value)
    ensures r.Ok? && Stored(t) ==> Stored(r.value)
  {
    var row := Row(token, localpart, createdTs, expiresTs, EncodeRelyingParty(tokenRP));
    if !reachable then Err(StorageUnavailable)
    else if !StorableRow(row) then Err(InvalidText)
    else if token in t then Err(DuplicateToken)
    else Ok(t[token := row])
  }

  /**
   * `SELECT ... FROM account_openid WHERE token = $1` followed by `QueryRow`:
   * the one row, or an error. The token is a TEXT parameter, so the server
   * rejects one it cannot store before it looks for a row.
   */
  function QueryRow(t: Table, token: string, reachable: bool): (r: Result<Row, Error>)
    ensures r.Ok? <==> reachable && StorableText(token) && token in t
    ensures r.Ok? ==> r.value == t[token]
    ensures !reachable ==> r == Err(StorageUnavailable)
    ensures reachable && !StorableText(token) ==> r == Err(InvalidText)
    ensures reachable && StorableText(token) && token !in t ==> r == Err(NoRows)
  {
    if !reachable then Err(StorageUnavailable)
    else if !StorableText(token) then Err(InvalidText)
    else if token !in t then Err(NoRows)
    else Ok(t[token])
  }

  /**
   * The lookup: the row is scanned into the given destinations and the user
   * identifier is derived. A failed query or scan gives its error and no result.
   */
  function Lookup(t: Table, serverName: string, token: string, reachable: bool, dests: seq<Dest>)
    : (r: Result<OpenIDToken, Error>)
    requires |dests| == 5
    ensures QueryRow(t, token, reachable).Err? ==> r == Err(QueryRow(t, token, reachable).error)
    ensures QueryRow(t, token, reachable).Ok? && ScanToken(t[token], dests).Err? ==>
      r == Err(ScanToken(t[token], dests).error)
    ensures r.Ok? <==> QueryRow(t, token, reachable).Ok? && ScanToken(t[token], dests).Ok?
    ensures r.Ok? ==> r.value.userId == MakeUserID(ScanToken(t[token], dests).value.1, serverName)
  {
    match QueryRow(t, token, reachable)
    case Err(e) => Err(e)
    case Ok(row) =>
      match ScanToken(row, dests)
      case Err(e) => Err(e)
      case Ok(scanned) => Ok(scanned.0.(userId := MakeUserID(scanned.1, serverName)))
  }

  /** The view of a stored row that a successful lookup is meant to return. */
  function View(row: Row, serverName: string): OpenIDToken {
    OpenIDToken(row.token, MakeUserID(row.localpart, serverName), row.createdTs, row.expiresTs, row.rp)
  }

  /**
   * The query matches on exact token equality only: it succeeds exactly when
   * some row carries that token, and then returns that row, which is unique.
   * A stored table holds only storable tokens, so the text check on the
   * parameter never hides a stored row.
   */
  lemma QueryRowMatchesExactToken(t: Table, token: string)
    requires Stored(t)
    ensures QueryRow(t, token, true).Ok? <==> exists k | k in t :: t[k].token == token
    ensures forall k | k in t && t[k].token == token :: QueryRow(t, token, true) == Ok(t[k])
  {
    if k :| k in t && t[k].token == token {
      assert StorableRow(t[k]);
    }
  }

  /**
   * The intended lookup: a miss is `NoRows` (never a partial result), an
   * unreachable database is `StorageUnavailable`, and a hit returns every
   * stored field unchanged with `userId` derived from the localpart.
   */
  lemma LookupContract(t: Table, serverName: string, token: string, reachable: bool)
    requires Keyed(t)
    ensures Lookup(t, serverName, token, reachable, IntendedDests).Ok?
        <==> reachable && StorableText(token) && token in t
    ensures !reachable ==> Lookup(t, serverName, token, reachable, IntendedDests) == Err(StorageUnavailable)
    ensures reachable && !StorableText(token) ==>
      Lookup(t, serverName, token, reachable, IntendedDests) == Err(InvalidText)
    ensures reachable && StorableText(token) && token !in t ==>
      Lookup(t, serverName, token, reachable, IntendedDests) == Err(NoRows)
    ensures reachable && StorableText(token) && token in t ==>
      Lookup(t, serverName, token, reachable, IntendedDests) == Ok(View(t[token], serverName))
    ensures token in t ==> View(t[token], serverName).token == token
  {
    if reachable && StorableText(token) && token in t {
      IntendedScanDecodes(t[token]);
    }
  }

  /**
   * With the select code as written, a lookup that finds its row still fails,
   * on column 1. A row can only be found once `prepare` succeeds, that is with
   * the corrected schema.
   */
  lemma AsWrittenLookupFails(t: Table, serverName: string, token: string)
    requires StorableText(token) && token in t
    ensures Lookup(t, serverName, token, true, AsWrittenDests) == Err(ScanFailed(1, NotAPointer))
  {
    AsWrittenScanFails(t[token]);
  }

  /**
   * Expiry is never consulted: changing a row's expiry changes only the
   * expiry the lookup reports, even when it lies in the past.
   */
  lemma LookupIgnoresExpiry(t: Table, serverName: string, token: string, expiresTs: int64)
    requires Stored(t) && token in t
    ensures Lookup(t[token := t[token].(expiresTs := expiresTs)], serverName, token, true, IntendedDests)
         == Ok(View(t[token], serverName).(expiresTs := expiresTs))
  {
    var t2 := t[token := t[token].(expiresTs := expiresTs)];
    LookupContract(t2, serverName, token, true);
  }

  /** Insert then lookup of a fresh token yields the inserted values and the derived user identifier. */
  lemma InsertThenLookup(t: Table, serverName: string, token: string, localpart: string,
                         createdTs: int64, expiresTs: int64, tokenRP: string)
    requires Keyed(t) && token !in t
    ensures Insert(t, token, localpart, createdTs, expiresTs, tokenRP, true).Ok?
        <==> StorableText(token) && StorableText(localpart) && StorableText(tokenRP)
    ensures Insert(t, token, localpart, createdTs, expiresTs, tokenRP, true).Ok? ==>
      Lookup(Insert(t, token, localpart, createdTs, expiresTs, tokenRP, true).value,
             serverName, token, true, IntendedDests)
      == Ok(OpenIDToken(token, MakeUserID(localpart, serverName), createdTs, expiresTs,
                        EncodeRelyingParty(tokenRP)))
  {
    var r := Insert(t, token, localpart, createdTs, expiresTs, tokenRP, true);
    if r.Ok? {
      LookupContract(r.value, serverName, token, true);
    }
  }

  /**
   * An unscoped token (relying party "") is stored as NULL, and a lookup that
   * scans the relying party into a plain string then fails on column 4.
   */
  lemma UnscopedInsertUnreadableAsString(t: Table, serverName: string, token: string, localpart: string,
                                         createdTs: int64, expiresTs: int64)
    requires token !in t
    ensures Insert(t, token, localpart, createdTs, expiresTs, "", true).Ok?
        <==> StorableText(token) && StorableText(localpart)
    ensures Insert(t, token, localpart, createdTs, expiresTs, "", true).Ok? ==>
      Lookup(Insert(t, token, localpart, createdTs, expiresTs, "", true).value,
             serverName, token, true, PointerFixedDests)
      == Err(ScanFailed(4, NullToString))
  {
    var r := Insert(t, token, localpart, createdTs, expiresTs, "", true);
    if r.Ok? {
      NullRelyingPartyUnreadable(r.value[token]);
    }
  }

  /**
   * Inserting a token that is already present fails, with `DuplicateToken`
   * when its text can be sent; the existing row is still there and still
   * retrievable.
   */
  lemma DuplicateInsertKeepsRow(t: Table, serverName: string, token: string, localpart: string,
                                createdTs: int64, expiresTs: int64, tokenRP: string)
    requires Stored(t) && token in t
    ensures Insert(t, token, localpart, createdTs, expiresTs, tokenRP, true).Err?
    ensures StorableText(token) && StorableText(localpart) && StorableText(tokenRP) ==>
      Insert(t, token, localpart, createdTs, expiresTs, tokenRP, true) == Err(DuplicateToken)
    ensures Lookup(t, serverName, token, true, IntendedDests) == Ok(View(t[token], serverName))
  {
    LookupContract(t, serverName, token, true);
  }

  /** An insert changes no lookup of any other token. */
  lemma InsertKeepsOtherLookups(t: Table, serverName: string, token: string, localpart: string,
                                createdTs: int64, expiresTs: int64, tokenRP: string,
                                other: string, reachable: bool)
    requires other != token
    ensures Insert(t, token, localpart, createdTs, expiresTs, tokenRP, true).Ok? ==>
      Lookup(Insert(t, token, localpart, createdTs, expiresTs, tokenRP, true).value,
             serverName, other, reachable, IntendedDests)
      == Lookup(t, serverName, other, reachable, IntendedDests)
  {
  }

  // ---------------------------------------------------------------------
  // The statement set, with its state
  // ---------------------------------------------------------------------

  /**
   * `tokenStatements`: the prepared insert and select statements (modelled by
   * whether they were prepared), the server name used to build user
   * identifiers, and the database table the statements run against.
   */
  class TokenStatements {
    var table: Table
    var insertPrepared: bool
    var selectPrepared: bool
    var serverName: string

    ghost predicate Valid()
      reads this
    {
      Stored(table)
    }

    /** Both statements are prepared: the store may be used. */
    predicate Ready()
      reads this
    {
      insertPrepared && selectPrepared
    }

    /** A zero statement set over a database whose table holds `existing`. */
    constructor (existing: Table)
      requires Stored(existing)
      ensures Valid() && table == existing
      ensures !insertPrepared && !selectPrepared && serverName == ""
    {
      table := existing;
      insertPrepared, selectPrepared := false, false;
      serverName := "";
    }

    /**
     * `prepare`: creates the table if absent, prepares the insert, then the
     * select, stopping at the first step that fails; the server name is
     * recorded only when all three succeed.
     */
    method Prepare(server: string, schema: seq<string>, schemaReachable: bool, insertOk: bool, selectOk: bool)
      returns (err: Option<Error>)
      requires Valid()
      modifies this
      ensures Valid() && table == old(table)
      ensures err.None? <==> ExecSchema(schema, schemaReachable).None? && insertOk && selectOk
      ensures ExecSchema(schema, schemaReachable).Some? ==>
        err == ExecSchema(schema, schemaReachable)
        && insertPrepared == old(insertPrepared) && selectPrepared == old(selectPrepared)
      ensures ExecSchema(schema, schemaReachable).None? ==> insertPrepared == insertOk
      ensures ExecSchema(schema, schemaReachable).None? && !insertOk ==>
        err == Some(PrepareFailed) && selectPrepared == old(selectPrepared)
      ensures ExecSchema(schema, schemaReachable).None? && insertOk ==>
        selectPrepared == selectOk && (selectOk || err == Some(PrepareFailed))
      ensures serverName == if err.None? then server else old(serverName)
      ensures err.None? ==> Ready()
    {
      err := ExecSchema(schema, schemaReachable);
      if err.Some? {
        return;
      }
      insertPrepared := insertOk;
      if !insertOk {
        err := Some(PrepareFailed);
        return;
      }
      selectPrepared := selectOk;
      if !selectOk {
        err := Some(PrepareFailed);
        return;
      }
      serverName := server;
    }

    /**
     * Runs the prepared INSERT with one row's values; the server rejects text
     * it cannot store, then the PRIMARY KEY rejects a duplicate.
     */
    method ExecInsert(row: Row, reachable: bool) returns (err: Option<Error>)
      requires Valid() && insertPrepared
      modifies this`table
      ensures Valid()
      ensures err.None? <==> reachable && StorableRow(row) && row.token !in old(table)
      ensures err.None? ==> table == old(table)[row.token := row]
      ensures err.Some? ==> table == old(table)
      ensures !reachable ==> err == Some(StorageUnavailable)
      ensures reachable && !StorableRow(row) ==> err == Some(InvalidText)
      ensures reachable && StorableRow(row) && row.token in old(table) ==> err == Some(DuplicateToken)
    {
      if !reachable {
        err := Some(StorageUnavailable);
      } else if !StorableRow(row) {
        err := Some(InvalidText);
      } else if row.token in table {
        err := Some(DuplicateToken);
      } else {
        table := table[row.token := row];
        err := None;
      }
    }

    /** `insertToken`: an empty relying party is passed as NULL, any other verbatim. */
    method InsertToken(token: string, localpart: string, createdTimeMS: int64, expiresTimeMS: int64,
                       tokenRP: string, reachable: bool)
      returns (err: Option<Error>)
      requires Valid() && insertPrepared
      modifies this`table
      ensures Valid()
      ensures var r := Insert(old(table), token, localpart, createdTimeMS, expiresTimeMS, tokenRP, reachable);
        match r
        case Ok(t) => err.None? && table == t
        case Err(e) => err == Some(e) && table == old(table)
    {
      if tokenRP == "" {
        err := ExecInsert(Row(token, localpart, createdTimeMS, expiresTimeMS, None), reachable);
      } else {
        err := ExecInsert(Row(token, localpart, createdTimeMS, expiresTimeMS, Some(tokenRP)), reachable);
      }
    }

    /**
     * `selectToken` as intended: the row is scanned with `&localpart` and a
     * nullable relying party, then `userId` is derived. A miss is `NoRows` and
     * no result is returned.
     */
    method SelectToken(token: string, reachable: bool) returns (r: Result<OpenIDToken, Error>)
      requires Valid() && selectPrepared
      ensures r == Lookup(table, serverName, token, reachable, IntendedDests)
      ensures r.Ok? <==> reachable && token in table
      ensures reachable && !StorableText(token) ==> r == Err(InvalidText)
      ensures reachable && StorableText(token) && token !in table ==> r == Err(NoRows)
      ensures r.Ok? ==> r.value == View(table[token], serverName) && r.value.token == token
    {
      LookupContract(table, serverName, token, reachable);
      var q := QueryRow(table, token, reachable);
      if q.Err? {
        return Err(q.error);
      }
      match ScanToken(q.value, IntendedDests)
      case Err(e) =>
        return Err(e);
      case Ok((openIDToken, localpart)) =>
        openIDToken := openIDToken.(userId := MakeUserID(localpart, serverName));
        return Ok(openIDToken);
    }

    /**
     * `selectToken` as written: `localpart` is passed to `Scan` by value, so
     * every lookup that finds its row fails at column 1. Its precondition
     * `Ready()` holds only after `Prepare` with the corrected schema.
     */
    method SelectTokenAsWritten(token: string, reachable: bool) returns (r: Result<OpenIDToken, Error>)
      requires Valid() && selectPrepared
      ensures r == Lookup(table, serverName, token, reachable, AsWrittenDests)
      ensures r.Err?
      ensures reachable && token in table ==> r == Err(ScanFailed(1, NotAPointer))
      ensures reachable && !StorableText(token) ==> r == Err(InvalidText)
      ensures reachable && StorableText(token) && token !in table ==> r == Err(NoRows)
    {
      if reachable && token in table {
        AsWrittenLookupFails(table, serverName, token);
      }
      var q := QueryRow(table, token, reachable);
      if q.Err? {
        return Err(q.error);
      }
      match ScanToken(q.value, AsWrittenDests)
      case Err(e) =>
        return Err(e);
      case Ok((openIDToken, localpart)) =>
        openIDToken := openIDToken.(userId := MakeUserID(localpart, serverName));
        return Ok(openIDToken);
    }
  }

  /**
   * A client of the statement set: with the schema as written the store never
   * becomes ready; with the corrected schema it does, over an empty table.
   */
  method PrepareExample(domain: string)
  {
    var store := new TokenStatements(map[]);
    var err := store.Prepare(domain, AsWrittenColumnList, true, true, true);
    AsWrittenSchemaRejected(true);
    assert err == Some(SchemaSyntax) && !store.Ready();

    err := store.Prepare(domain, CorrectedColumnList, true, true, true);
    assert err.None? && store.Ready() && store.serverName == domain;
    assert StorableText("tok-abc");
    var missing := store.SelectToken("tok-abc", true);
    assert missing == Err(NoRows);
  }

  /**
   * A client of a ready statement set: issue an unscoped token for "alice"
   * and look it up.
   */
  method IssueAndLookupExample(domain: string)
  {
    var store := new TokenStatements(map[]);
    var err := store.Prepare(domain, CorrectedColumnList, true, true, true);
    assert err.None? && store.Ready();

    assert StorableText("tok-abc") && StorableText("alice") && StorableText("");
    err := store.InsertToken("tok-abc", "alice", 1000, 601000, "", true);
    assert err.None?;
    assert store.table == map["tok-abc" := Row("tok-abc", "alice", 1000, 601000, None)];
    var found := store.SelectToken("tok-abc", true);
    assert MakeUserID("alice", domain) == "@alice:" + domain;
    assert found == Ok(OpenIDToken("tok-abc", "@alice:" + domain, 1000, 601000, None));

  }

  /**
   * A client of a ready statement set that already holds alice's token: a
   * reissue to "bob" fails and leaves her row, and the lookup as written fails.
   */
  method ReissueExample(domain: string)
  {
    var alice := Row("tok-abc", "alice", 1000, 601000, None);
    assert StorableRow(alice);
    var store := new TokenStatements(map["tok-abc" := alice]);
    var err := store.Prepare(domain, CorrectedColumnList, true, true, true);
    assert err.None? && store.Ready();

    assert StorableText("bob") && StorableText("https://rp.example");
    err := store.InsertToken("tok-abc", "bob", 2000, 602000, "https://rp.example", true);
    assert err == Some(DuplicateToken);
    var found := store.SelectToken("tok-abc", true);
    assert MakeUserID("alice", domain) == "@alice:" + domain;
    assert found == Ok(OpenIDToken("tok-abc", "@alice:" + domain, 1000, 601000, None));

    var asWritten := store.SelectTokenAsWritten("tok-abc", true);
    assert asWritten == Err(ScanFailed(1, NotAPointer));
  }
}
