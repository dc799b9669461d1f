/** The refresh-token ledger (internal/adapters/refresh_pgsql_repository.go): the
    refresh_tokens table as a set of rows. Each method takes `ioErr`, the error the database
    call returns (None when it succeeds); a failing call changes nothing. */
module RefreshAdapter {
  import opened Wrappers
  import opened Uuids
  import opened AppErrors
  import opened Jwt

  /** A row: token id, owning user, raw signed token string. */
  datatype RefreshRow = RefreshRow(uuid: Uuid, userUuid: Uuid, token: string)

  /** The rows owned by one user. */
  function RowsOf(rows: set<RefreshRow>, userUuid: Uuid): set<RefreshRow>
  {
    set r | r in rows && r.userUuid == userUuid
  }

  /** The number of sessions a user has. */
  function Count(rows: set<RefreshRow>, userUuid: Uuid): nat
  {
    |RowsOf(rows, userUuid)|
  }

  /** The row a created refresh token is stored as. */
  function RowOf(refresh: RefreshJWT): RefreshRow
  {
    RefreshRow(refresh.claims.uuid, refresh.claims.userId, refresh.token)
  }

  /** Adding a row the table does not hold raises its owner's count by one and leaves every
      other user's count alone. */
  lemma CountAfterInsert(rows: set<RefreshRow>, row: RefreshRow, userUuid: Uuid)
    requires row !in rows
    ensures Count(rows + {row}, userUuid) == Count(rows, userUuid) + (if row.userUuid == userUuid then 1 else 0)
  {
    if row.userUuid == userUuid {
      assert RowsOf(rows + {row}, userUuid) == RowsOf(rows, userUuid) + {row};
    } else {
      assert RowsOf(rows + {row}, userUuid) == RowsOf(rows, userUuid);
    }
  }

  /** Removing a user's rows leaves that user with none and other users unaffected. */
  lemma CountAfterWipe(rows: set<RefreshRow>, wiped: Uuid, userUuid: Uuid)
    ensures var rest := set r | r in rows && r.userUuid != wiped;
      RowsOf(rest, userUuid) == (if userUuid == wiped then {} else RowsOf(rows, userUuid))
  {
  }

  class RefreshPgsqlRepository {
    var rows: set<RefreshRow>

    constructor ()
      ensures rows == {}
    {
      rows := {};
    }

    /** Inserts the row (Claims.UUID, Claims.UserId, Token). */
    method Add(refresh: RefreshJWT, ioErr: Option<Error>) returns (err: Option<Error>)
      modifies this
      ensures err == ioErr
      ensures rows == if ioErr.None? then old(rows) + {RowOf(refresh)} else old(rows)
    {
      if ioErr.Some? {
        return ioErr;
      }
      rows := rows + {RowOf(refresh)};
      return None;
    }

    /** Whether a row matches all three columns. No matching row is `(false, nil)`, not an
        error. */
    method Exists(uuid: Uuid, userUuid: Uuid, token: string, ioErr: Option<Error>) returns (r: Outcome<bool>)
      ensures r.err == ioErr
      ensures r.value <==> ioErr.None? && RefreshRow(uuid, userUuid, token) in rows
    {
      if ioErr.Some? {
        return Outcome(false, ioErr);
      }
      r := Outcome(RefreshRow(uuid, userUuid, token) in rows, None);
    }

    /** Removes the rows with this token id and no other row. */
    method Delete(uuid: Uuid, ioErr: Option<Error>) returns (err: Option<Error>)
      modifies this
      ensures err == ioErr
      ensures rows == if ioErr.None? then set r | r in old(rows) && r.uuid != uuid else old(rows)
    {
      if ioErr.Some? {
        return ioErr;
      }
      rows := set r | r in rows && r.uuid != uuid;
      return None;
    }

    /** Removes every row of this user and no row of any other user. */
    method DeleteForUserUUID(userUuid: Uuid, ioErr: Option<Error>) returns (err: Option<Error>)
      modifies this
      ensures err == ioErr
      ensures rows == if ioErr.None? then set r | r in old(rows) && r.userUuid != userUuid else old(rows)
    {
      if ioErr.Some? {
        return ioErr;
      }
      rows := set r | r in rows && r.userUuid != userUuid;
      return None;
    }

    /** The number of rows owned by the user; 0 with the error when the query fails. */
    method CountForUser(userUuid: Uuid, ioErr: Option<Error>) returns (r: Outcome<nat>)
      ensures r.err == ioErr
      ensures r.value == if ioErr.None? then Count(rows, userUuid) else 0
    {
      if ioErr.Some? {
        return Outcome(0, ioErr);
      }
      r := Outcome(|set row | row in rows && row.userUuid == userUuid|, None);
    }
  }
}
