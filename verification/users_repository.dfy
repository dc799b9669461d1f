/** The user store (internal/adapters/users_pgsql_repository.go): the users table as a map
    from UUID to stored row, the settings column as a string map, the translation of missing
    rows into NotFound, and the transaction scope. Each database call takes `ioErr`, the
    error it returns (None when it succeeds). */
module UsersAdapter {
  import opened Wrappers
  import opened Uuids
  import opened AppErrors
  import opened Currencies
  import opened Days
  import opened Users

  /** A stored row; `settings` is the JSON column as a string map. */
  datatype UserModel = UserModel(uuid: Uuid, email: string, name: string, hash: string,
                                 settings: map<string, string>, createdAt: int, updatedAt: int)

  type Table = map<Uuid, UserModel>

  /** The zero User the source returns beside an error. (Its settings hold empty strings in
      the source; here they are UNKNOWN. No caller reads them.) */
  const ZeroUser: User := User(NilUuid, "", "", "", UserSettings(Currencies.UNKNOWN, "", Days.UNKNOWN), 0, 0)

  /** The settings column: exactly three keys holding the String() values. */
  function UserSettingsToMap(s: UserSettings): (m: map<string, string>)
    ensures m.Keys == {"currency", "first_day_of_week", "profile_picture_url"}
    ensures m["currency"] == s.currency.String()
    ensures m["first_day_of_week"] == s.firstDayOfWeek.String()
    ensures m["profile_picture_url"] == s.profilePictureUrl
  {
    map["currency" := s.currency.String(),
        "first_day_of_week" := s.firstDayOfWeek.String(),
        "profile_picture_url" := s.profilePictureUrl]
  }

  /** Go's map index: a missing key reads as "". */
  function Field(m: map<string, string>, key: string): string
  {
    if key in m then m[key] else ""
  }

  /** Builds the domain user from a row. The stored currency is parsed strictly (an unknown
      one is an error); an unknown stored day silently becomes MON. */
  function ServiceUserFromModel(model: UserModel): (r: Outcome<User>)
    ensures r.Ok() <==> Field(model.settings, "currency") in Currencies.Codes
    ensures !r.Ok() ==> r == Outcome(ZeroUser, Some(Other("Invalid currency value")))
    ensures r.Ok() ==> && r.value.uuid == model.uuid && r.value.email == model.email
                       && r.value.name == model.name && r.value.hash == model.hash
                       && r.value.createdAt == model.createdAt && r.value.updatedAt == model.updatedAt
                       && r.value.settings.currency.String() == Field(model.settings, "currency")
                       && r.value.settings.profilePictureUrl == Field(model.settings, "profile_picture_url")
    ensures r.Ok() ==> r.value.settings.firstDayOfWeek ==
                       (if Field(model.settings, "first_day_of_week") in Days.Codes
                        then Days.FromString(Field(model.settings, "first_day_of_week")).value else MON)
  {
    var cur := Currencies.FromString(Field(model.settings, "currency"));
    if !cur.Ok() then Outcome(ZeroUser, cur.err)
    else
      var parsedDay := Days.FromString(Field(model.settings, "first_day_of_week"));
      var firstDayOfWeek := if !parsedDay.Ok() then MON else parsedDay.value;
      Outcome(NewUser(model.uuid, model.email, model.name, model.hash,
                      NewUserSettings(cur.value, firstDayOfWeek, Field(model.settings, "profile_picture_url")),
                      model.createdAt, model.updatedAt), None)
  }

  /** The row Add writes for a user. */
  function ModelOf(u: User): UserModel
  {
    UserModel(u.uuid, u.email, u.name, u.hash, UserSettingsToMap(u.settings), u.createdAt, u.updatedAt)
  }

  /** Round trip: a settings map written by UserSettingsToMap reads back as the same
      settings, provided the currency and the day are real ones. */
  lemma SettingsRoundTrip(model: UserModel, s: UserSettings)
    requires model.settings == UserSettingsToMap(s)
    requires s.currency != Currencies.UNKNOWN && s.firstDayOfWeek != Days.UNKNOWN
    ensures ServiceUserFromModel(model).Ok()
    ensures ServiceUserFromModel(model).value.settings == s
  {
  }

  /** Round trip of a whole user through its row. */
  lemma UserRoundTrip(u: User)
    requires u.settings.currency != Currencies.UNKNOWN && u.settings.firstDayOfWeek != Days.UNKNOWN
    ensures ServiceUserFromModel(ModelOf(u)) == Outcome(u, None)
  {
    SettingsRoundTrip(ModelOf(u), u.settings);
  }

  /** The read-side leniency: an unrecognised stored day reads as MON, while an
      unrecognised stored currency is an error. */
  lemma LenientDayStrictCurrency(model: UserModel)
    requires Field(model.settings, "first_day_of_week") !in Days.Codes
    ensures ServiceUserFromModel(model).Ok() ==> ServiceUserFromModel(model).value.settings.firstDayOfWeek == MON
    ensures Field(model.settings, "currency") !in Currencies.Codes ==> !ServiceUserFromModel(model).Ok()
  {
  }

  /** What a single-row query returned. */
  datatype QueryResult = Row(model: UserModel) | NoRows | Failed(e: Error)

  const NotFoundError: Error := App(NewNotFoundError("Not found", "not-found"))

  /** The `get` helper: no rows becomes a NotFound error with slug "not-found"; any other
      failure passes through unchanged. */
  function Get(q: QueryResult): (err: Option<Error>)
    ensures err.None? <==> q.Row?
    ensures q.NoRows? ==> err == Some(NotFoundError) && IsNotFound(err.value) && err.value.app.Slug() == "not-found"
    ensures q.Failed? ==> err == Some(q.e)
  {
    match q
    case Row(_) => None
    case NoRows => Some(App(NewNotFoundError("Not found", "not-found")))
    case Failed(e) => Some(e)
  }

  /** The re-mapping FindById and FindByEmail apply to an error from `get`: it compares the
      error's MESSAGE with "not-found". */
  function RemapMissing(err: Error): Error
  {
    if err.Message() == "not-found" then App(NewNotFoundError("User not found", "user-not-found")) else err
  }

  /** The "user-not-found" re-mapping never fires for a missing row: `get`'s message is
      "Not found", so callers see slug "not-found", still a NotFound error. It fires only for
      a database error whose message happens to be "not-found". */
  lemma UserNotFoundBranchIsDead(q: QueryResult)
    requires !q.Row?
    ensures RemapMissing(Get(q).value) != Get(q).value <==> q.Failed? && q.e.Message() == "not-found" && q.e != App(NewNotFoundError("User not found", "user-not-found"))
    ensures q.NoRows? ==> RemapMissing(Get(q).value) == NotFoundError
  {
  }

  /** The query `select ... where uuid = $1`. */
  function SelectById(table: Table, uuid: Uuid, ioErr: Option<Error>): QueryResult
  {
    if ioErr.Some? then Failed(ioErr.value) else if uuid in table then Row(table[uuid]) else NoRows
  }

  /** What FindById answers: the database error (re-mapped), the NotFound error of `get` for
      an unknown UUID, or the stored row read back as a user. */
  function ById(t: Table, uuid: Uuid, ioErr: Option<Error>): (r: Outcome<User>)
    ensures r.Ok() ==> ioErr.None? && uuid in t && r == ServiceUserFromModel(t[uuid])
    ensures ioErr.None? && uuid !in t ==> IsNotFound(r.err.value)
  {
    if ioErr.Some? then Outcome(ZeroUser, Some(RemapMissing(ioErr.value)))
    else if uuid in t then ServiceUserFromModel(t[uuid])
    else Outcome(ZeroUser, Some(NotFoundError))
  }

  /** Keys are the rows' UUIDs, and no two rows share an email (the unique constraint). */
  ghost predicate TableValid(t: Table)
  {
    && (forall id :: id in t ==> t[id].uuid == id)
    && (forall a, b :: a in t && b in t && t[a].email == t[b].email ==> a == b)
  }

  predicate EmailTaken(t: Table, email: string)
  {
    exists id :: id in t && t[id].email == email
  }

  const UniqueViolation: Error := Other("duplicate key value violates unique constraint")

  /** The error an insert of `u` returns: the database error, a key or unique-email
      violation, or none. */
  function InsertError(t: Table, u: User, ioErr: Option<Error>): Option<Error>
  {
    if ioErr.Some? then ioErr
    else if u.uuid in t || EmailTaken(t, u.email) then Some(UniqueViolation)
    else None
  }

  /** What FindByEmail answers: the database error (re-mapped), the one user holding that
      email (emails are unique), or the NotFound error of `get`. */
  ghost function LookupByEmail(t: Table, email: string, ioErr: Option<Error>): (r: Outcome<User>)
    requires TableValid(t)
    ensures ioErr.Some? ==> r == Outcome(ZeroUser, Some(RemapMissing(ioErr.value)))
    ensures ioErr.None? && !EmailTaken(t, email) ==> r == Outcome(ZeroUser, Some(NotFoundError))
    ensures r.Ok() ==> && ioErr.None? && r.value.uuid in t && t[r.value.uuid].email == email
                       && r.value.email == email && ServiceUserFromModel(t[r.value.uuid]) == r
    ensures ioErr.None? && EmailTaken(t, email) ==>
      forall id :: id in t && t[id].email == email ==> r == ServiceUserFromModel(t[id])
  {
    if ioErr.Some? then Outcome(ZeroUser, Some(RemapMissing(ioErr.value)))
    else if EmailTaken(t, email) then
      var id :| id in t && t[id].email == email;
      ServiceUserFromModel(t[id])
    else Outcome(ZeroUser, Some(NotFoundError))
  }

  /** The `cb` passed to Transactional. The only one the service passes inserts a user. */
  datatype TxCallback = AddUser(user: User, addErr: Option<Error>)

  class UserPgsqlRepository {
    var table: Table
    /** The open transaction, as the table it would roll back to; None is `tx == nil`. */
    var tx: Option<Table>

    ghost predicate Valid()
      reads this
    {
      TableValid(table) && (tx.Some? ==> TableValid(tx.value))
    }

    constructor ()
      ensures Valid() && table == map[] && tx.None?
    {
      table := map[];
      tx := None;
    }

    method FindById(uuid: Uuid, ioErr: Option<Error>) returns (r: Outcome<User>)
      ensures ioErr.Some? ==> r == Outcome(ZeroUser, Some(RemapMissing(ioErr.value)))
      ensures ioErr.None? && uuid !in table ==> r == Outcome(ZeroUser, Some(NotFoundError))
      ensures ioErr.None? && uuid in table ==> r == ServiceUserFromModel(table[uuid])
      ensures r == ById(table, uuid, ioErr)
    {
      var q := SelectById(table, uuid, ioErr);
      var err := Get(q);
      if err.Some? {
        if err.value.Message() == "not-found" {
          return Outcome(ZeroUser, Some(App(NewNotFoundError("User not found", "user-not-found"))));
        }
        return Outcome(ZeroUser, err);
      }
      r := ServiceUserFromModel(q.model);
    }

    method FindByEmail(email: string, ioErr: Option<Error>) returns (r: Outcome<User>)
      requires Valid()
      ensures r == LookupByEmail(table, email, ioErr)
    {
      var q: QueryResult;
      if ioErr.Some? {
        q := Failed(ioErr.value);
      } else if EmailTaken(table, email) {
        var id :| id in table && table[id].email == email;
        q := Row(table[id]);
      } else {
        q := NoRows;
      }
      var err := Get(q);
      if err.Some? {
        if err.value.Message() == "not-found" {
          return Outcome(ZeroUser, Some(App(NewNotFoundError("User not found", "user-not-found"))));
        }
        return Outcome(ZeroUser, err);
      }
      r := ServiceUserFromModel(q.model);
    }

    method Add(u: User, ioErr: Option<Error>) returns (err: Option<Error>)
      requires Valid()
      modifies this
      ensures Valid() && tx == old(tx)
      ensures err == InsertError(old(table), u, ioErr)
      ensures table == if err.None? then old(table)[u.uuid := ModelOf(u)] else old(table)
    {
      err := InsertError(table, u, ioErr);
      if err.None? {
        table := table[u.uuid := ModelOf(u)];
      }
    }

    /** Rewrites the settings column of that user only (an unknown UUID updates no row), then
        re-reads the user with `readErr` as the outcome of that query. */
    method UpdateSettings(userUuid: Uuid, settings: UserSettings, execErr: Option<Error>, readErr: Option<Error>)
      returns (r: Outcome<User>)
      requires Valid()
      modifies this
      ensures Valid() && tx == old(tx)
      ensures table == if execErr.None? && userUuid in old(table)
                       then old(table)[userUuid := old(table)[userUuid].(settings := UserSettingsToMap(settings))]
                       else old(table)
      ensures execErr.Some? ==> r == Outcome(ZeroUser, execErr)
      ensures execErr.None? ==>
        r == if readErr.Some? then Outcome(ZeroUser, Some(RemapMissing(readErr.value)))
             else if userUuid in table then ServiceUserFromModel(table[userUuid])
             else Outcome(ZeroUser, Some(NotFoundError))
      ensures execErr.None? && readErr.None? && userUuid in old(table)
              && settings.currency != Currencies.UNKNOWN && settings.firstDayOfWeek != Days.UNKNOWN
              ==> r.Ok() && r.value.uuid == userUuid && r.value.settings == settings
    {
      if execErr.Some? {
        return Outcome(ZeroUser, execErr);
      }
      if userUuid in table {
        table := table[userUuid := table[userUuid].(settings := UserSettingsToMap(settings))];
      }
      r := FindById(userUuid, readErr);
      if readErr.None? && userUuid in old(table) && settings.currency != Currencies.UNKNOWN && settings.firstDayOfWeek != Days.UNKNOWN {
        SettingsRoundTrip(table[userUuid], settings);
      }
    }

    /** Runs `cb` inside a transaction: begins one unless `tx` is already set (then reuses it),
        rolls back and returns the callback's error if it fails, otherwise commits. `tx` is
        nil again on every return. A failed begin returns its error without running `cb`; a
        failed commit leaves nothing applied. */
    method Transactional(cb: TxCallback, beginErr: Option<Error>, commitErr: Option<Error>) returns (err: Option<Error>)
      requires Valid()
      modifies this
      ensures Valid() && tx.None?
      ensures old(tx).None? && beginErr.Some? ==> err == beginErr && table == old(table)
      ensures old(tx).Some? || beginErr.None? ==>
        var snapshot := if old(tx).Some? then old(tx).value else old(table);
        var cbErr := InsertError(old(table), cb.user, cb.addErr);
        if cbErr.Some? then err == cbErr && table == snapshot
        else if commitErr.Some? then err == commitErr && table == snapshot
        else err == None && table == old(table)[cb.user.uuid := ModelOf(cb.user)]
    {
      if tx.None? {
        if beginErr.Some? {
          return beginErr;
        }
        tx := Some(table);
      }
      var cbErr := Add(cb.user, cb.addErr);
      if cbErr.Some? {
        table := tx.value;  // rollback
        tx := None;
        return cbErr;
      }
      if commitErr.Some? {
        table := tx.value;  // the failed commit applies nothing
        tx := None;
        return commitErr;
      }
      tx := None;
      return None;
    }
  }
}
