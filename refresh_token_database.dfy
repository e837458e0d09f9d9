/**
  src/data/RefreshTokenDatabase: refresh tokens per user and device. Unlike
  the other gateways it has no try/catch, so a driver failure reaches the
  caller as it is, without a status code.
 */
module RefreshTokenDatabase {
  import opened Errors
  import opened Records
  import opened Database
  import opened Tables

  /**
    The TypeError raised by reading `isActive` of `result[0]` when no row
    matches, in the wording of Node 14 and earlier; later runtimes word it
    "Cannot read properties of undefined (reading 'isActive')".
   */
  const UNDEFINED_ROW := "Cannot read property 'isActive' of undefined"

  /** A stored row as the model record (`is_active ? true : false`). */
  function TokenOf(row: RefreshTokenRow): RefreshToken {
    RefreshToken(row.token, row.device, FlagToBool(Some(row.isActive)), row.userId)
  }

  /** The row `createRefreshToken` writes (`isActive ? 1 : 0`). */
  function RowOf(token: RefreshToken): RefreshTokenRow {
    RefreshTokenRow(token.token, token.device, BoolToFlag(token.isActive), token.userId)
  }

  /** Writing a token and reading it back gives the same token, isActive included. */
  lemma RowRoundTrip(token: RefreshToken)
    ensures TokenOf(RowOf(token)) == token
  {
    FlagRoundTrip(token.isActive);
  }

  /** `createRefreshToken`: one insert. */
  method CreateRefreshToken(db: Store, input: RefreshToken, driver: Option<string>) returns (r: Outcome)
    modifies db`refreshTokens
    ensures driver.Some? ==> r == Fail(Untyped(driver.value)) && db.refreshTokens == old(db.refreshTokens)
    ensures driver.None? ==> r == Pass && db.refreshTokens == old(db.refreshTokens) + [RowOf(input)]
  {
    if driver.Some? {
      return Fail(Untyped(driver.value));
    }
    db.refreshTokens := db.refreshTokens + [RowOf(input)];
    r := Pass;
  }

  /** `getRefreshTokenByToken`: assumes the token is stored; an absent one makes the field read throw. */
  function GetRefreshTokenByToken(rows: seq<RefreshTokenRow>, token: string): (r: Result<RefreshToken>)
    ensures r.Err? <==> forall i :: 0 <= i < |rows| ==> rows[i].token != token
    ensures r.Err? ==> r.error == Untyped(UNDEFINED_ROW)
    ensures r.Ok? ==> exists i :: 0 <= i < |rows| && rows[i].token == token && r.value == TokenOf(rows[i])
  {
    match FirstIndex(rows, (row: RefreshTokenRow) => row.token == token)
    case None => Err(Untyped(UNDEFINED_ROW))
    case Some(i) => Ok(TokenOf(rows[i]))
  }

  predicate ForUserAndDevice(row: RefreshTokenRow, userId: string, device: string) {
    row.userId == userId && row.device == device
  }

  /** `getRefreshTokenByIdAndDevice`: the first token of that user on that device, or undefined. */
  function GetRefreshTokenByIdAndDevice(rows: seq<RefreshTokenRow>, userId: string, device: string): (r: Option<RefreshToken>)
    ensures r.None? <==> forall i :: 0 <= i < |rows| ==> !ForUserAndDevice(rows[i], userId, device)
    ensures r.Some? ==> exists i :: 0 <= i < |rows| && ForUserAndDevice(rows[i], userId, device) && r.value == TokenOf(rows[i])
    ensures r.Some? ==> r.value.userId == userId && r.value.device == device
  {
    match FirstIndex(rows, (row: RefreshTokenRow) => ForUserAndDevice(row, userId, device))
    case None => None
    case Some(i) => Some(TokenOf(rows[i]))
  }

  /** A token just created for a (user, device) pair that had none is the one read back for that pair. */
  lemma {:induction false} CreateThenGet(rows: seq<RefreshTokenRow>, token: RefreshToken)
    requires forall i :: 0 <= i < |rows| ==> !ForUserAndDevice(rows[i], token.userId, token.device)
    ensures GetRefreshTokenByIdAndDevice(rows + [RowOf(token)], token.userId, token.device) == Some(token)
  {
    var extended := rows + [RowOf(token)];
    var r := GetRefreshTokenByIdAndDevice(extended, token.userId, token.device);
    assert ForUserAndDevice(extended[|rows|], token.userId, token.device);
    var i :| 0 <= i < |extended| && ForUserAndDevice(extended[i], token.userId, token.device) && r.value == TokenOf(extended[i]);
    assert i == |rows|;
    RowRoundTrip(token);
  }

  /** The table after `delete().where({ refresh_token })`. */
  function DeleteRows(rows: seq<RefreshTokenRow>, token: string): (r: seq<RefreshTokenRow>)
    ensures forall i :: 0 <= i < |r| ==> r[i].token != token
    ensures forall x :: x in r <==> x in rows && x.token != token
    ensures forall x: RefreshTokenRow :: x.token != token ==> multiset(r)[x] == multiset(rows)[x]
  {
    var rest := Filter(rows, (row: RefreshTokenRow) => row.token != token);
    forall x: RefreshTokenRow | x.token != token
      ensures multiset(rest)[x] == multiset(rows)[x]
    {
      FilterMultiset(rows, (row: RefreshTokenRow) => row.token != token, x);
    }
    rest
  }

  /** `deleteRefreshTokenByToken`: removes every row with that token and keeps the others. */
  method DeleteRefreshTokenByToken(db: Store, token: string, driver: Option<string>) returns (r: Outcome)
    modifies db`refreshTokens
    ensures driver.Some? ==> r == Fail(Untyped(driver.value)) && db.refreshTokens == old(db.refreshTokens)
    ensures driver.None? ==> r == Pass && db.refreshTokens == DeleteRows(old(db.refreshTokens), token)
  {
    if driver.Some? {
      return Fail(Untyped(driver.value));
    }
    db.refreshTokens := DeleteRows(db.refreshTokens, token);
    r := Pass;
  }

  /** After a delete, looking the token up fails. */
  lemma DeleteThenGet(rows: seq<RefreshTokenRow>, token: string)
    ensures GetRefreshTokenByToken(DeleteRows(rows, token), token) == Err(Untyped(UNDEFINED_ROW))
  {
  }
}
