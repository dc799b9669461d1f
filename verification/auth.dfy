/** The auth orchestrator (internal/app/user/auth.go): sign-in, sign-up, token issuance under
    the per-user session cap, single-use refresh rotation, settings replacement and Google
    find-or-create, over the user store and the refresh ledger.

    Everything a request draws from the outside comes in as parameters: `Entropy` (the clock,
    the UUIDs uuid.New() returns, the bcrypt salt, the random draws of the password
    generator), `Faults` (the error each kind of database call returns; None when it
    succeeds) and, for Google, the verifier's verdict. */
module Auth {
  import opened Wrappers
  import opened Uuids
  import opened AppErrors
  import opened Currencies
  import opened Days
  import opened Users
  import opened Jwt
  import opened RefreshAdapter
  import opened UsersAdapter

  datatype Token = Token(value: string, userId: Uuid)
  datatype LoginResponse = LoginResponse(access: Token, refresh: Token)

  const ZeroToken := Token("", NilUuid)
  const ZeroResponse := LoginResponse(ZeroToken, ZeroToken)

  datatype SignInRequest = SignInRequest(email: string, password: string)
  datatype SignUpRequest = SignUpRequest(email: string, password: string, name: string)
  datatype UpdateSettingsRequest = UpdateSettingsRequest(userUuid: Uuid, currency: string, firstDayOfWeek: string,
                                                         profilePictureUrl: string)

  /** What one request draws from the clock and the random sources. */
  datatype Entropy = Entropy(now: int, refreshId: Uuid, userId: Uuid, salt: nat, draws: seq<nat>)

  /** The error each kind of database call of one request returns. `findUser` is the first
      read of a user, `reread` the read that follows a settings update. */
  datatype Faults = Faults(findUser: Option<Error>, addUser: Option<Error>, updateUser: Option<Error>,
                           begin: Option<Error>, commit: Option<Error>,
                           count: Option<Error>, deleteAll: Option<Error>, addRow: Option<Error>,
                           existsRow: Option<Error>, deleteRow: Option<Error>, reread: Option<Error>)

  /** The outcome of idtoken.Validate: the verified claims, or its error. */
  datatype GoogleVerification = Verified(claims: map<string, string>) | Rejected(e: Error)

  /** `fmt.Sprintf("%s", claims[key])`: a missing claim prints as "%!s(<nil>)". */
  function ClaimString(claims: map<string, string>, key: string): string
  {
    if key in claims then claims[key] else "%!s(<nil>)"
  }

  const InvalidCredentials := App(NewIncorrectInputError("User not found", "invalid-credentials"))
  const EmailInUse := App(NewIncorrectInputError("Email already in use", "field-email-invalid"))
  const CurrencyInvalid := App(NewIncorrectInputError("Invalid currency", "field-currency-invalid"))
  const DayInvalid := App(NewIncorrectInputError("Invalid first day of week", "field-first-day-of-week-invalid"))
  const RefreshNotFound := App(NewAuthorizationError("Refresh not found", "invalid-token"))

  /** An Authorization error carrying `slug`. */
  predicate IsAuthorization(err: Option<Error>, slug: string)
  {
    err.Some? && err.value.App? && err.value.app.errorType == Authorization && err.value.app.slug == slug
  }

  /** Rows not owned by `userUuid`. */
  function WithoutUser(rows: set<RefreshRow>, userUuid: Uuid): set<RefreshRow>
  {
    set r | r in rows && r.userUuid != userUuid
  }

  /** Rows whose token id is not `uuid`. */
  function WithoutId(rows: set<RefreshRow>, uuid: Uuid): set<RefreshRow>
  {
    set r | r in rows && r.uuid != uuid
  }

  /** The ledger after issuance for `userUuid` with count `count`: the wipe when the count is
      strictly above the cap, then the new row. */
  function AfterIssue(rows: set<RefreshRow>, userUuid: Uuid, count: nat, cap: int, row: RefreshRow): set<RefreshRow>
  {
    (if count > cap then WithoutUser(rows, userUuid) else rows) + {row}
  }

  /** Whether issuance for `userUuid` on ledger `rows` gets through: the count, the wipe (when
      the count is above the cap) and the insert all succeed. */
  predicate IssueSucceeds(rows: set<RefreshRow>, userUuid: Uuid, cap: int, faults: Faults)
  {
    faults.count.None? && (Count(rows, userUuid) > cap ==> faults.deleteAll.None?) && faults.addRow.None?
  }

  /** The ledger issuance leaves on every path: as it was after a failed count or a failed
      wipe, wiped after a failed insert that followed a wipe, and AfterIssue on success. */
  function LedgerAfterTokens(rows: set<RefreshRow>, userUuid: Uuid, cap: int, faults: Faults, row: RefreshRow)
    : (r: set<RefreshRow>)
    ensures IssueSucceeds(rows, userUuid, cap, faults) ==> r == AfterIssue(rows, userUuid, Count(rows, userUuid), cap, row)
    ensures !IssueSucceeds(rows, userUuid, cap, faults) ==> r <= rows && row !in r - rows
  {
    var wipe := Count(rows, userUuid) > cap;
    if faults.count.Some? || (wipe && faults.deleteAll.Some?) then rows
    else if faults.addRow.Some? then (if wipe then WithoutUser(rows, userUuid) else rows)
    else AfterIssue(rows, userUuid, Count(rows, userUuid), cap, row)
  }

  /** The token pair issued for `user` at `now`: an access token carrying the user's id, email
      and name, and a refresh token with id `refreshId`, both for the user's UUID. */
  function Issued(jwt: JWTService, user: User, now: int, refreshId: Uuid): LoginResponse
  {
    LoginResponse(Token(CreateAccess(jwt, NewAccessClaims(user.uuid, user.email, user.name), now).token, user.uuid),
                  Token(CreateRefresh(jwt, NewRefreshClaims(user.uuid), now, refreshId).token, user.uuid))
  }

  /** The ledger row recording the refresh token of Issued. */
  function IssuedRow(jwt: JWTService, user: User, now: int, refreshId: Uuid): RefreshRow
  {
    RefreshRow(refreshId, user.uuid, Issued(jwt, user, now, refreshId).refresh.value)
  }

  /** The settings column a settings update writes. */
  function SettingsMap(req: UpdateSettingsRequest): map<string, string>
  {
    map["currency" := req.currency, "first_day_of_week" := req.firstDayOfWeek, "profile_picture_url" := req.profilePictureUrl]
  }

  /** Whether a settings update reaches the UPDATE and the UPDATE goes through: both codes
      are known, the stored user reads back, and the statement succeeds. */
  predicate SettingsWritten(t: Table, req: UpdateSettingsRequest, faults: Faults)
  {
    && req.currency in Currencies.Codes && req.firstDayOfWeek in Days.Codes
    && ById(t, req.userUuid, faults.findUser).Ok() && faults.updateUser.None?
  }

  /** The user table after a settings update: the new settings column once the UPDATE goes
      through, the table as it was otherwise. */
  function TableAfterSettings(t: Table, req: UpdateSettingsRequest, faults: Faults): (r: Table)
    ensures r.Keys == t.Keys
  {
    if SettingsWritten(t, req, faults) then t[req.userUuid := t[req.userUuid].(settings := SettingsMap(req))] else t
  }

  /** The answer of a settings update: the currency error, the day error, the failed read of
      the user, the failed UPDATE, or the re-read of the user from the new table. */
  function SettingsAnswer(t: Table, req: UpdateSettingsRequest, faults: Faults): (r: Outcome<User>)
    ensures r.Ok() ==> SettingsWritten(t, req, faults) && faults.reread.None?
  {
    if req.currency !in Currencies.Codes then Outcome(ZeroUser, Some(CurrencyInvalid))
    else if req.firstDayOfWeek !in Days.Codes then Outcome(ZeroUser, Some(DayInvalid))
    else if !ById(t, req.userUuid, faults.findUser).Ok() then Outcome(ZeroUser, ById(t, req.userUuid, faults.findUser).err)
    else if faults.updateUser.Some? then Outcome(ZeroUser, faults.updateUser)
    else ById(TableAfterSettings(t, req, faults), req.userUuid, faults.reread)
  }

  /** The session count after issuance: 1 after a wipe, one more otherwise; every other
      user's rows are as before. */
  lemma IssueCount(rows: set<RefreshRow>, userUuid: Uuid, cap: int, row: RefreshRow)
    requires row.userUuid == userUuid
    requires forall r :: r in rows ==> r.uuid != row.uuid
    ensures var after := AfterIssue(rows, userUuid, Count(rows, userUuid), cap, row);
      Count(after, userUuid) == if Count(rows, userUuid) > cap then 1 else Count(rows, userUuid) + 1
    ensures var after := AfterIssue(rows, userUuid, Count(rows, userUuid), cap, row);
      forall u :: u != userUuid ==> RowsOf(after, u) == RowsOf(rows, u)
  {
    var kept := if Count(rows, userUuid) > cap then WithoutUser(rows, userUuid) else rows;
    assert row !in kept;
    CountAfterInsert(kept, row, userUuid);
    if Count(rows, userUuid) > cap {
      CountAfterWipe(rows, userUuid, userUuid);
    }
    forall u | u != userUuid
      ensures RowsOf(kept + {row}, u) == RowsOf(rows, u)
    {
      CountAfterWipe(rows, userUuid, u);
      assert RowsOf(kept + {row}, u) == RowsOf(kept, u);
    }
  }

  class AuthService {
    const userRepository: UserPgsqlRepository
    const jwtService: JWTService
    const refreshRepository: RefreshPgsqlRepository
    const maxUserSessions: int
    const googleKey: string
    const hasher: PasswordHasher

    /** The user table keeps its keys and unique emails, and no ledger row carries the nil
        token id (every row comes from CreateRefresh with a fresh uuid.New()). */
    ghost predicate Valid()
      reads this, userRepository, refreshRepository
    {
      userRepository.Valid() && forall r :: r in refreshRepository.rows ==> r.uuid != NilUuid
    }

    /** A token id uuid.New() may return: never nil, and (with overwhelming probability)
        unused. */
    ghost predicate FreshId(id: Uuid)
      reads this, refreshRepository
    {
      id != NilUuid && forall r :: r in refreshRepository.rows ==> r.uuid != id
    }

    constructor (ur: UserPgsqlRepository, jwt: JWTService, rfr: RefreshPgsqlRepository, mus: int,
                 googleKey: string, hasher: PasswordHasher)
      requires ur.Valid() && forall r :: r in rfr.rows ==> r.uuid != NilUuid
      ensures Valid()
      ensures userRepository == ur && jwtService == jwt && refreshRepository == rfr
      ensures maxUserSessions == mus && this.googleKey == googleKey && this.hasher == hasher
    {
      userRepository := ur;
      jwtService := jwt;
      refreshRepository := rfr;
      maxUserSessions := mus;
      this.googleKey := googleKey;
      this.hasher := hasher;
    }

    /** The access token's value and user id when it validates at `now`. */
    function ValidateToken(token: string, now: int): (r: Outcome<Token>)
      ensures r.Ok() <==> Accepted(jwtService, token, now)
      ensures r.Ok() ==> r.value == Token(token, AccessClaimsOf(jwtService.codec.decode(token).value.claims).userId)
      ensures !r.Ok() ==> r.value == ZeroToken
    {
      var access := ValidateAccess(jwtService, token, now);
      if !access.Ok() then Outcome(ZeroToken, access.err)
      else Outcome(Token(access.value.token, access.value.claims.userId), None)
    }

    /** An issued access token validates, until its expiry, to the very token and UUID it was
        issued for; from its expiry on it is rejected as expired. */
    lemma IssuedAccessValidates(user: User, now: int, refreshId: Uuid, at: int)
      requires Lawful(jwtService.codec)
      ensures var t := Issued(jwtService, user, now, refreshId).access;
        ValidateToken(t.value, at) == if at < now + jwtService.accessTTL then Outcome(t, None)
                                      else Outcome(ZeroToken, Some(Other("token is expired")))
    {
      AccessRoundTrip(jwtService, NewAccessClaims(user.uuid, user.email, user.name), now, at);
    }

    /** Until its expiry, an issued refresh token names exactly the ledger row issuance
        stored for it, which is the row Refresh looks up. */
    lemma IssuedRefreshNamesItsRow(user: User, now: int, refreshId: Uuid, at: int)
      requires Lawful(jwtService.codec) && at < now + jwtService.refreshTTL
      ensures var s := Issued(jwtService, user, now, refreshId).refresh.value;
              var c := ValidateRefresh(jwtService, s, at).value.claims;
        RefreshRow(c.uuid, c.userId, s) == IssuedRow(jwtService, user, now, refreshId)
    {
      RefreshRoundTrip(jwtService, NewRefreshClaims(user.uuid), now, refreshId, at);
    }

    /** Issues an access and a refresh token for `user`. Counts the user's sessions; when the
        count is strictly above maxUserSessions, deletes all of them first; then stores the
        new refresh row. Any ledger failure is Authorization "could-not-authorize-user".
        The two token creations run one after the other (signing cannot fail). */
    method CreateTokens(user: User, now: int, refreshId: Uuid, faults: Faults) returns (r: Outcome<LoginResponse>)
      requires Valid() && FreshId(refreshId)
      modifies refreshRepository
      ensures Valid()
      ensures var oldCount := Count(old(refreshRepository.rows), user.uuid);
        r.Ok() <==> faults.count.None? && (oldCount > maxUserSessions ==> faults.deleteAll.None?) && faults.addRow.None?
      ensures !r.Ok() ==> r.value == ZeroResponse && IsAuthorization(r.err, "could-not-authorize-user")
      ensures var oldCount := Count(old(refreshRepository.rows), user.uuid);
              var access := CreateAccess(jwtService, NewAccessClaims(user.uuid, user.email, user.name), now);
              var refresh := CreateRefresh(jwtService, NewRefreshClaims(user.uuid), now, refreshId);
        && (faults.count.Some? ==> refreshRepository.rows == old(refreshRepository.rows))
        && (faults.count.None? && oldCount > maxUserSessions && faults.deleteAll.Some? ==>
              refreshRepository.rows == old(refreshRepository.rows))
        && (faults.count.None? && oldCount > maxUserSessions && faults.deleteAll.None? && faults.addRow.Some? ==>
              refreshRepository.rows == WithoutUser(old(refreshRepository.rows), user.uuid))
        && (faults.count.None? && oldCount <= maxUserSessions && faults.addRow.Some? ==>
              refreshRepository.rows == old(refreshRepository.rows))
        && (r.Ok() ==>
              && refreshRepository.rows == AfterIssue(old(refreshRepository.rows), user.uuid, oldCount, maxUserSessions, RowOf(refresh))
              && r.value == LoginResponse(Token(access.token, user.uuid), Token(refresh.token, user.uuid)))
      ensures r.Ok() ==> (Count(refreshRepository.rows, user.uuid) ==
        if Count(old(refreshRepository.rows), user.uuid) > maxUserSessions then 1
        else Count(old(refreshRepository.rows), user.uuid) + 1)
      ensures r.Ok() ==> RefreshRow(refreshId, user.uuid, r.value.refresh.value) in refreshRepository.rows
      ensures forall u :: u != user.uuid ==> RowsOf(refreshRepository.rows, u) == RowsOf(old(refreshRepository.rows), u)
      ensures forall row :: row in refreshRepository.rows ==> row in old(refreshRepository.rows) || row.uuid == refreshId
      ensures refreshRepository.rows == LedgerAfterTokens(old(refreshRepository.rows), user.uuid, maxUserSessions, faults,
                                                          IssuedRow(jwtService, user, now, refreshId))
      ensures r == if IssueSucceeds(old(refreshRepository.rows), user.uuid, maxUserSessions, faults)
                   then Outcome(Issued(jwtService, user, now, refreshId), None) else Outcome(ZeroResponse, r.err)
    {
      var accessClaims := NewAccessClaims(user.uuid, user.email, user.name);
      var refreshClaims := NewRefreshClaims(user.uuid);
      var access := CreateAccess(jwtService, accessClaims, now);
      var refresh := CreateRefresh(jwtService, refreshClaims, now, refreshId);
      ghost var rows0 := refreshRepository.rows;
      IssueCount(rows0, user.uuid, maxUserSessions, RowOf(refresh));

      var refreshCount := refreshRepository.CountForUser(refreshClaims.userId, faults.count);
      if refreshCount.err.Some? {
        return Outcome(ZeroResponse, Some(App(NewAuthorizationError(refreshCount.err.value.Message(), "could-not-authorize-user"))));
      }
      if refreshCount.value > maxUserSessions {
        var err := refreshRepository.DeleteForUserUUID(refreshClaims.userId, faults.deleteAll);
        if err.Some? {
          return Outcome(ZeroResponse, Some(App(NewAuthorizationError(err.value.Message(), "could-not-authorize-user"))));
        }
      }
      assert forall u :: u != user.uuid ==> RowsOf(refreshRepository.rows, u) == RowsOf(rows0, u) by {
        forall u | u != user.uuid {
          CountAfterWipe(rows0, user.uuid, u);
        }
      }
      var err := refreshRepository.Add(refresh, faults.addRow);
      if err.Some? {
        return Outcome(ZeroResponse, Some(App(NewAuthorizationError(err.value.Message(), "could-not-authorize-user"))));
      }
      return Outcome(LoginResponse(Token(access.token, access.claims.userId), Token(refresh.token, refresh.claims.userId)), None);
    }

    /** Sign-in by email and password. A failed lookup (any error) and a wrong password give
        the same IncorrectInput "invalid-credentials" error and leave both tables alone. */
    method SignIn(req: SignInRequest, env: Entropy, faults: Faults) returns (r: Outcome<LoginResponse>)
      requires Valid() && FreshId(env.refreshId)
      modifies refreshRepository
      ensures Valid()
      ensures var found := LookupByEmail(userRepository.table, req.email, faults.findUser);
        !found.Ok() || !hasher.check(req.password, found.value.hash) ==>
          r == Outcome(ZeroResponse, Some(InvalidCredentials)) && refreshRepository.rows == old(refreshRepository.rows)
      ensures var found := LookupByEmail(userRepository.table, req.email, faults.findUser);
        found.Ok() && hasher.check(req.password, found.value.hash) ==>
          (r.Ok() ==> r.value.access.userId == found.value.uuid && r.value.refresh.userId == found.value.uuid
                      && RefreshRow(env.refreshId, found.value.uuid, r.value.refresh.value) in refreshRepository.rows)
          && (!r.Ok() ==> IsAuthorization(r.err, "could-not-authorize-user"))
      ensures var found := LookupByEmail(userRepository.table, req.email, faults.findUser);
        found.Ok() && hasher.check(req.password, found.value.hash) ==>
          && (r.Ok() <==> IssueSucceeds(old(refreshRepository.rows), found.value.uuid, maxUserSessions, faults))
          && (r.Ok() ==> r.value == Issued(jwtService, found.value, env.now, env.refreshId))
          && refreshRepository.rows == LedgerAfterTokens(old(refreshRepository.rows), found.value.uuid, maxUserSessions, faults,
                                                         IssuedRow(jwtService, found.value, env.now, env.refreshId))
      ensures r.Ok() ==> exists id :: (id in userRepository.table && userRepository.table[id].email == req.email
        && hasher.check(req.password, userRepository.table[id].hash) && r.value.access.userId == id)
      ensures r.Ok() ==>
        var uid := r.value.refresh.userId;
        refreshRepository.rows == AfterIssue(old(refreshRepository.rows), uid, Count(old(refreshRepository.rows), uid), maxUserSessions,
                                             RefreshRow(env.refreshId, uid, r.value.refresh.value))
    {
      var userFound := userRepository.FindByEmail(req.email, faults.findUser);
      if userFound.err.Some? {
        return Outcome(ZeroResponse, Some(App(NewIncorrectInputError("User not found", "invalid-credentials"))));
      }
      if !hasher.check(req.password, userFound.value.hash) {
        return Outcome(ZeroResponse, Some(App(NewIncorrectInputError("User not found", "invalid-credentials"))));
      }
      r := CreateTokens(userFound.value, env.now, env.refreshId, faults);
    }

    /** Sign-up: an email already present is IncorrectInput "field-email-invalid"; a lookup
        error other than NotFound is returned as it is; otherwise the user is stored (with
        default settings) inside a transaction and tokens are issued. */
    method SignUp(req: SignUpRequest, env: Entropy, faults: Faults) returns (r: Outcome<LoginResponse>)
      requires Valid() && FreshId(env.refreshId) && userRepository.tx.None?
      modifies userRepository, refreshRepository
      ensures Valid() && userRepository.tx.None?
      ensures var probe := LookupByEmail(old(userRepository.table), req.email, faults.findUser);
        probe.Ok() ==> (r == Outcome(ZeroResponse, Some(EmailInUse))
                        && userRepository.table == old(userRepository.table)
                        && refreshRepository.rows == old(refreshRepository.rows))
      ensures var probe := LookupByEmail(old(userRepository.table), req.email, faults.findUser);
        !probe.Ok() && !IsNotFound(probe.err.value) ==> (r == Outcome(ZeroResponse, probe.err)
          && userRepository.table == old(userRepository.table)
          && refreshRepository.rows == old(refreshRepository.rows))
      ensures r.Ok() ==>
        var hash := hasher.hash(req.password, env.salt);
        var user := NewUser(env.userId, req.email, req.name, hash.value, DefaultUserSettings(), env.now, env.now);
        && hash.Ok()
        && userRepository.table == old(userRepository.table)[env.userId := ModelOf(user)]
        && r.value.access.userId == env.userId && r.value.refresh.userId == env.userId
        && RefreshRow(env.refreshId, env.userId, r.value.refresh.value) in refreshRepository.rows
      ensures var probe := LookupByEmail(old(userRepository.table), req.email, faults.findUser);
              var hash := hasher.hash(req.password, env.salt);
        !probe.Ok() && IsNotFound(probe.err.value) && !hash.Ok() ==>
          && r == Outcome(ZeroResponse, Some(App(NewAppError(hash.err.value.Message(), "create-user-error"))))
          && userRepository.table == old(userRepository.table) && refreshRepository.rows == old(refreshRepository.rows)
      ensures var probe := LookupByEmail(old(userRepository.table), req.email, faults.findUser);
              var hash := hasher.hash(req.password, env.salt);
        !probe.Ok() && IsNotFound(probe.err.value) && hash.Ok() ==>
          var user := NewUser(env.userId, req.email, req.name, hash.value, DefaultUserSettings(), env.now, env.now);
          var insertErr := InsertError(old(userRepository.table), user, faults.addUser);
          var saveErr := if faults.begin.Some? then faults.begin else if insertErr.Some? then insertErr else faults.commit;
          && (saveErr.Some? ==>
                && r == Outcome(ZeroResponse, Some(App(NewAppError(saveErr.value.Message(), "user-saving-error"))))
                && userRepository.table == old(userRepository.table) && refreshRepository.rows == old(refreshRepository.rows))
          && (saveErr.None? ==>
                && userRepository.table == old(userRepository.table)[env.userId := ModelOf(user)]
                && (r.Ok() <==> IssueSucceeds(old(refreshRepository.rows), env.userId, maxUserSessions, faults))
                && (r.Ok() ==> r.value == Issued(jwtService, user, env.now, env.refreshId))
                && refreshRepository.rows == LedgerAfterTokens(old(refreshRepository.rows), env.userId, maxUserSessions, faults,
                                                               IssuedRow(jwtService, user, env.now, env.refreshId)))
      ensures !r.Ok() ==> r.value == ZeroResponse
      ensures forall row :: row in refreshRepository.rows ==> row in old(refreshRepository.rows) || row.uuid == env.refreshId
      ensures r.Ok() ==>
        var uid := r.value.refresh.userId;
        refreshRepository.rows == AfterIssue(old(refreshRepository.rows), uid, Count(old(refreshRepository.rows), uid), maxUserSessions,
                                             RefreshRow(env.refreshId, uid, r.value.refresh.value))
    {
      var existing := userRepository.FindByEmail(req.email, faults.findUser);
      if existing.err.Some? {
        if !IsNotFound(existing.err.value) {
          return Outcome(ZeroResponse, existing.err);
        }
      } else {
        return Outcome(ZeroResponse, Some(App(NewIncorrectInputError("Email already in use", "field-email-invalid"))));
      }

      var hash := hasher.hash(req.password, env.salt);
      if hash.err.Some? {
        return Outcome(ZeroResponse, Some(App(NewAppError(hash.err.value.Message(), "create-user-error"))));
      }

      var user := NewUser(env.userId, req.email, req.name, hash.value, DefaultUserSettings(), env.now, env.now);
      var err := userRepository.Transactional(AddUser(user, faults.addUser), faults.begin, faults.commit);
      if err.Some? {
        return Outcome(ZeroResponse, Some(App(NewAppError(err.value.Message(), "user-saving-error"))));
      }
      r := CreateTokens(user, env.now, env.refreshId, faults);
    }

    /** Sign-up then sign-in: with a sound hasher, a user who has just signed up is never
        told "invalid-credentials" when signing in with the same email and password, and the
        tokens they get are for the UUID sign-up created. */
    method SignUpThenSignIn(up: SignUpRequest, env1: Entropy, env2: Entropy, faults1: Faults, faults2: Faults)
      returns (r1: Outcome<LoginResponse>, r2: Outcome<LoginResponse>)
      requires Valid() && userRepository.tx.None? && hasher.Sound()
      requires FreshId(env1.refreshId) && FreshId(env2.refreshId) && env1.refreshId != env2.refreshId
      modifies userRepository, refreshRepository
      ensures Valid()
      ensures r1.Ok() && faults2.findUser.None? ==>
        r2.err != Some(InvalidCredentials) && (r2.Ok() ==> r2.value.access.userId == env1.userId)
    {
      r1 := SignUp(up, env1, faults1);
      ghost var t := userRepository.table;
      if r1.Ok() && faults2.findUser.None? {
        var hash := hasher.hash(up.password, env1.salt);
        var user := NewUser(env1.userId, up.email, up.name, hash.value, DefaultUserSettings(), env1.now, env1.now);
        UserRoundTrip(user);
        assert t[env1.userId] == ModelOf(user);
        assert LookupByEmail(t, up.email, None) == Outcome(user, None);
      }
      r2 := SignIn(SignInRequest(up.email, up.password), env2, faults2);
    }

    /** The stored user with that UUID, as the store reports it. */
    method GetUser(userUuid: Uuid, faults: Faults) returns (r: Outcome<User>)
      ensures faults.findUser.Some? ==> r == Outcome(ZeroUser, Some(RemapMissing(faults.findUser.value)))
      ensures faults.findUser.None? && userUuid !in userRepository.table ==> r == Outcome(ZeroUser, Some(NotFoundError))
      ensures faults.findUser.None? && userUuid in userRepository.table ==> r == ServiceUserFromModel(userRepository.table[userUuid])
      ensures r == ById(userRepository.table, userUuid, faults.findUser)
    {
      r := userRepository.FindById(userUuid, faults.findUser);
    }

    /** Rotation of a refresh token. Without a ledger row matching its (token id, user id,
        raw string) it is Authorization "invalid-token" and nothing changes. With one, that
        row is deleted BEFORE the user is looked up and new tokens are issued, so it stays
        deleted whatever happens next. */
    method Refresh(tokenString: string, env: Entropy, faults: Faults) returns (r: Outcome<LoginResponse>)
      requires Valid() && FreshId(env.refreshId)
      modifies refreshRepository
      ensures Valid()
      ensures !r.Ok() ==> r.value == ZeroResponse
      ensures !r.Ok() ==> IsAuthorization(r.err, "invalid-token") || IsAuthorization(r.err, "could-not-authorize-user")
      ensures var c := ValidateRefresh(jwtService, tokenString, env.now).value.claims;
        faults.existsRow.Some? || RefreshRow(c.uuid, c.userId, tokenString) !in old(refreshRepository.rows) ==>
          IsAuthorization(r.err, "invalid-token") && refreshRepository.rows == old(refreshRepository.rows)
      ensures !Accepted(jwtService, tokenString, env.now) ==>
          IsAuthorization(r.err, "invalid-token") && refreshRepository.rows == old(refreshRepository.rows)
      ensures var c := ValidateRefresh(jwtService, tokenString, env.now).value.claims;
        (faults.existsRow.None? && RefreshRow(c.uuid, c.userId, tokenString) in old(refreshRepository.rows)
         && faults.deleteRow.None?) ==> forall row :: row in refreshRepository.rows ==> row.uuid != c.uuid
      ensures var c := ValidateRefresh(jwtService, tokenString, env.now).value.claims;
        r.Ok() ==> && Accepted(jwtService, tokenString, env.now)
                   && RefreshRow(c.uuid, c.userId, tokenString) in old(refreshRepository.rows)
                   && RefreshRow(c.uuid, c.userId, tokenString) !in refreshRepository.rows
                   && r.value.access.userId == c.userId && r.value.refresh.userId == c.userId
                   && RefreshRow(env.refreshId, c.userId, r.value.refresh.value) in refreshRepository.rows
      ensures forall row :: row in refreshRepository.rows ==> row in old(refreshRepository.rows) || row.uuid == env.refreshId
      ensures r.Ok() ==>
        var c := ValidateRefresh(jwtService, tokenString, env.now).value.claims;
        var uid := r.value.refresh.userId;
        var kept := WithoutId(old(refreshRepository.rows), c.uuid);
        refreshRepository.rows == AfterIssue(kept, uid, Count(kept, uid), maxUserSessions,
                                             RefreshRow(env.refreshId, uid, r.value.refresh.value))
      ensures var c := ValidateRefresh(jwtService, tokenString, env.now).value.claims;
        faults.existsRow.None? && RefreshRow(c.uuid, c.userId, tokenString) in old(refreshRepository.rows)
        && faults.deleteRow.Some? ==>
          && r == Outcome(ZeroResponse, Some(App(NewAuthorizationError(faults.deleteRow.value.Message(), "invalid-token"))))
          && refreshRepository.rows == old(refreshRepository.rows)
      ensures var c := ValidateRefresh(jwtService, tokenString, env.now).value.claims;
              var kept := WithoutId(old(refreshRepository.rows), c.uuid);
              var found := ById(userRepository.table, c.userId, faults.findUser);
        faults.existsRow.None? && RefreshRow(c.uuid, c.userId, tokenString) in old(refreshRepository.rows)
        && faults.deleteRow.None? ==>
          && (!found.Ok() ==>
                && r == Outcome(ZeroResponse, Some(App(NewAuthorizationError(found.err.value.Message(), "invalid-token"))))
                && refreshRepository.rows == kept)
          && (found.Ok() ==>
                && (r.Ok() <==> IssueSucceeds(kept, found.value.uuid, maxUserSessions, faults))
                && (r.Ok() ==> r.value == Issued(jwtService, found.value, env.now, env.refreshId))
                && refreshRepository.rows == LedgerAfterTokens(kept, found.value.uuid, maxUserSessions, faults,
                                                               IssuedRow(jwtService, found.value, env.now, env.refreshId)))
    {
      var refresh := ValidateRefresh(jwtService, tokenString, env.now);
      if refresh.err.Some? {
        // ValidateRefresh never reports an error (Jwt.ValidateRefresh).
        assert false;
      }

      var c := refresh.value.claims;
      var present := refreshRepository.Exists(c.uuid, c.userId, tokenString, faults.existsRow);
      if present.err.Some? {
        return Outcome(ZeroResponse, Some(App(NewAuthorizationError(present.err.value.Message(), "invalid-token"))));
      }
      if !present.value {
        return Outcome(ZeroResponse, Some(App(NewAuthorizationError("Refresh not found", "invalid-token"))));
      }

      var err := refreshRepository.Delete(c.uuid, faults.deleteRow);
      if err.Some? {
        return Outcome(ZeroResponse, Some(App(NewAuthorizationError(err.value.Message(), "invalid-token"))));
      }

      var user := userRepository.FindById(c.userId, faults.findUser);
      if user.err.Some? {
        return Outcome(ZeroResponse, Some(App(NewAuthorizationError(user.err.value.Message(), "invalid-token"))));
      }
      r := CreateTokens(user.value, env.now, env.refreshId, faults);
    }

    /** A refresh string is single-use: once a rotation with it has succeeded, a second
        rotation with the same string fails with "invalid-token", whatever the clock and the
        store do the second time. */
    method RefreshTwice(tokenString: string, env1: Entropy, env2: Entropy, faults1: Faults, faults2: Faults)
      returns (first: Outcome<LoginResponse>, second: Outcome<LoginResponse>)
      requires Valid() && FreshId(env1.refreshId) && FreshId(env2.refreshId) && env1.refreshId != env2.refreshId
      modifies refreshRepository
      ensures Valid()
      ensures first.Ok() ==> !second.Ok() && IsAuthorization(second.err, "invalid-token")
    {
      first := Refresh(tokenString, env1, faults1);
      second := Refresh(tokenString, env2, faults2);
    }

    /** Settings replacement. The currency is checked first, then the day, then that the
        user exists; every failure up to and including the UPDATE leaves the store as it was.
        The UPDATE is autocommitted, so when the re-read after it fails the new settings are
        stored although an error is returned. */
    method UpdateSettings(req: UpdateSettingsRequest, faults: Faults) returns (r: Outcome<User>)
      requires Valid()
      modifies userRepository
      ensures Valid() && userRepository.tx == old(userRepository.tx)
      ensures req.currency !in Currencies.Codes ==>
        r == Outcome(ZeroUser, Some(CurrencyInvalid)) && userRepository.table == old(userRepository.table)
      ensures req.currency in Currencies.Codes && req.firstDayOfWeek !in Days.Codes ==>
        r == Outcome(ZeroUser, Some(DayInvalid)) && userRepository.table == old(userRepository.table)
      ensures req.currency in Currencies.Codes && req.firstDayOfWeek in Days.Codes && faults.findUser.Some? ==>
        r == Outcome(ZeroUser, Some(RemapMissing(faults.findUser.value))) && userRepository.table == old(userRepository.table)
      ensures req.currency in Currencies.Codes && req.firstDayOfWeek in Days.Codes
              && faults.findUser.None? && req.userUuid !in old(userRepository.table) ==>
        r == Outcome(ZeroUser, Some(NotFoundError)) && userRepository.table == old(userRepository.table)
      ensures !r.Ok() && faults.reread.None? ==> userRepository.table == old(userRepository.table)
      ensures req.currency in Currencies.Codes && req.firstDayOfWeek in Days.Codes && faults.findUser.None?
              && req.userUuid in old(userRepository.table) && !ServiceUserFromModel(old(userRepository.table)[req.userUuid]).Ok() ==>
        && r == Outcome(ZeroUser, ServiceUserFromModel(old(userRepository.table)[req.userUuid]).err)
        && userRepository.table == old(userRepository.table)
      ensures r.Ok() <==>
        && req.currency in Currencies.Codes && req.firstDayOfWeek in Days.Codes && faults.findUser.None?
        && req.userUuid in old(userRepository.table) && ServiceUserFromModel(old(userRepository.table)[req.userUuid]).Ok()
        && faults.updateUser.None? && faults.reread.None?
      ensures r == SettingsAnswer(old(userRepository.table), req, faults)
      ensures userRepository.table == TableAfterSettings(old(userRepository.table), req, faults)
      ensures req.currency in Currencies.Codes && req.firstDayOfWeek in Days.Codes && faults.findUser.None?
              && req.userUuid in old(userRepository.table) && ServiceUserFromModel(old(userRepository.table)[req.userUuid]).Ok() ==>
        && (faults.updateUser.Some? ==>
              r == Outcome(ZeroUser, faults.updateUser) && userRepository.table == old(userRepository.table))
        && (faults.updateUser.None? ==>
              userRepository.table == old(userRepository.table)[req.userUuid :=
                old(userRepository.table)[req.userUuid].(settings := map["currency" := req.currency,
                                                                         "first_day_of_week" := req.firstDayOfWeek,
                                                                         "profile_picture_url" := req.profilePictureUrl])])
        && (faults.updateUser.None? && faults.reread.Some? ==>
              r == Outcome(ZeroUser, Some(RemapMissing(faults.reread.value))))
      ensures r.Ok() ==>
        && req.userUuid in old(userRepository.table) && req.userUuid in userRepository.table
        && r == ServiceUserFromModel(userRepository.table[req.userUuid])
        && r.value.uuid == req.userUuid
        && r.value.email == old(userRepository.table)[req.userUuid].email
        && r.value.name == old(userRepository.table)[req.userUuid].name
        && r.value.settings.currency.String() == req.currency
        && r.value.settings.firstDayOfWeek.String() == req.firstDayOfWeek
        && r.value.settings.profilePictureUrl == req.profilePictureUrl
        && userRepository.table == old(userRepository.table)[req.userUuid :=
             old(userRepository.table)[req.userUuid].(settings := map["currency" := req.currency,
                                                                      "first_day_of_week" := req.firstDayOfWeek,
                                                                      "profile_picture_url" := req.profilePictureUrl])]
    {
      var cur := Currencies.FromString(req.currency);
      if cur.err.Some? {
        return Outcome(ZeroUser, Some(App(NewIncorrectInputError("Invalid currency", "field-currency-invalid"))));
      }
      var day := Days.FromString(req.firstDayOfWeek);
      if day.err.Some? {
        return Outcome(ZeroUser, Some(App(NewIncorrectInputError("Invalid first day of week", "field-first-day-of-week-invalid"))));
      }
      var settings := NewUserSettings(cur.value, day.value, req.profilePictureUrl);

      var found := userRepository.FindById(req.userUuid, faults.findUser);
      if found.err.Some? {
        return Outcome(ZeroUser, found.err);
      }
      r := userRepository.UpdateSettings(req.userUuid, settings, faults.updateUser, faults.reread);
    }

    /** Google find-or-create. For a known email the stored settings are rewritten from the
        parsed user with the claimed picture, so an unknown stored day becomes MON and other
        keys are dropped (the update's outcome is ignored); tokens are issued for the existing
        UUID. For a new
        email a user is created with the claimed email and name, a hash of a random password
        and DefaultUserSettings(): the picture is computed but not stored. */
    method GoogleSignIn(verification: GoogleVerification, env: Entropy, faults: Faults) returns (r: Outcome<LoginResponse>)
      requires Valid() && FreshId(env.refreshId)
      requires DrawsBelow(env.draws, PasswordLength, |Charset|)
      modifies userRepository, refreshRepository
      ensures Valid() && userRepository.tx == old(userRepository.tx)
      ensures !r.Ok() ==> r.value == ZeroResponse
      ensures verification.Rejected? ==>
        && r == Outcome(ZeroResponse, Some(App(NewIncorrectInputError(verification.e.Message(), "invalid-credentials"))))
        && userRepository.table == old(userRepository.table) && refreshRepository.rows == old(refreshRepository.rows)
      ensures verification.Verified? ==>
        var email := ClaimString(verification.claims, "email");
        var probe := LookupByEmail(old(userRepository.table), email, faults.findUser);
        && (probe.Ok() ==>
              var u := probe.value;
              && userRepository.table == (if faults.updateUser.None?
                   then old(userRepository.table)[u.uuid := old(userRepository.table)[u.uuid].(settings :=
                          UserSettingsToMap(u.settings.(profilePictureUrl := ClaimString(verification.claims, "picture"))))]
                   else old(userRepository.table))
              && (r.Ok() ==> r.value.access.userId == u.uuid && r.value.refresh.userId == u.uuid)
              && (!r.Ok() ==> IsAuthorization(r.err, "could-not-authorize-user"))
              && (r.Ok() <==> IssueSucceeds(old(refreshRepository.rows), u.uuid, maxUserSessions, faults))
              && (r.Ok() ==> r.value == Issued(jwtService, u, env.now, env.refreshId))
              && refreshRepository.rows == LedgerAfterTokens(old(refreshRepository.rows), u.uuid, maxUserSessions, faults,
                                                             IssuedRow(jwtService, u, env.now, env.refreshId)))
        && (!probe.Ok() && !IsNotFound(probe.err.value) ==>
              r == Outcome(ZeroResponse, probe.err)
              && userRepository.table == old(userRepository.table) && refreshRepository.rows == old(refreshRepository.rows))
        && (!probe.Ok() && IsNotFound(probe.err.value) && r.Ok() ==>
              && env.userId !in old(userRepository.table)
              && env.userId in userRepository.table
              && userRepository.table == old(userRepository.table)[env.userId := userRepository.table[env.userId]]
              && userRepository.table[env.userId].email == email
              && userRepository.table[env.userId].name == ClaimString(verification.claims, "name")
              && userRepository.table[env.userId].settings == UserSettingsToMap(DefaultUserSettings())
              && r.value.access.userId == env.userId && r.value.refresh.userId == env.userId)
      ensures verification.Verified? ==>
        var email := ClaimString(verification.claims, "email");
        var probe := LookupByEmail(old(userRepository.table), email, faults.findUser);
        var hash := hasher.hash(Drawn(PasswordLength, Charset, env.draws), env.salt);
        !probe.Ok() && IsNotFound(probe.err.value) ==>
          && (!hash.Ok() ==>
                && r == Outcome(ZeroResponse, Some(App(NewAppError(hash.err.value.Message(), "create-user-error"))))
                && userRepository.table == old(userRepository.table) && refreshRepository.rows == old(refreshRepository.rows))
          && (hash.Ok() ==>
                var user := NewUser(env.userId, email, ClaimString(verification.claims, "name"), hash.value,
                                    DefaultUserSettings(), env.now, env.now);
                var insertErr := InsertError(old(userRepository.table), user, faults.addUser);
                && (insertErr.Some? ==>
                      && r == Outcome(ZeroResponse, Some(App(NewAppError(insertErr.value.Message(), "user-saving-error"))))
                      && userRepository.table == old(userRepository.table) && refreshRepository.rows == old(refreshRepository.rows))
                && (insertErr.None? ==>
                      && userRepository.table == old(userRepository.table)[env.userId := ModelOf(user)]
                      && (r.Ok() <==> IssueSucceeds(old(refreshRepository.rows), env.userId, maxUserSessions, faults))
                      && (r.Ok() ==> r.value == Issued(jwtService, user, env.now, env.refreshId))
                      && refreshRepository.rows == LedgerAfterTokens(old(refreshRepository.rows), env.userId, maxUserSessions, faults,
                                                                     IssuedRow(jwtService, user, env.now, env.refreshId))))
      ensures r.Ok() ==>
        var uid := r.value.refresh.userId;
        refreshRepository.rows == AfterIssue(old(refreshRepository.rows), uid, Count(old(refreshRepository.rows), uid), maxUserSessions,
                                             RefreshRow(env.refreshId, uid, r.value.refresh.value))
    {
      if verification.Rejected? {
        return Outcome(ZeroResponse, Some(App(NewIncorrectInputError(verification.e.Message(), "invalid-credentials"))));
      }
      var claims := verification.claims;

      var authUser := userRepository.FindByEmail(ClaimString(claims, "email"), faults.findUser);
      if authUser.err.None? {
        var settings := authUser.value.settings.(profilePictureUrl := ClaimString(claims, "picture"));
        var _ := userRepository.UpdateSettings(authUser.value.uuid, settings, faults.updateUser, faults.reread);
        r := CreateTokens(authUser.value, env.now, env.refreshId, faults);
        return;
      } else if !IsNotFound(authUser.err.value) {
        return Outcome(ZeroResponse, authUser.err);
      }

      var password := GeneratePassword(env.draws);
      var hash := hasher.hash(password, env.salt);
      if hash.err.Some? {
        return Outcome(ZeroResponse, Some(App(NewAppError(hash.err.value.Message(), "create-user-error"))));
      }

      // The claimed picture is put into these settings, but the user is built with the defaults.
      var settings := DefaultUserSettings().(profilePictureUrl := ClaimString(claims, "picture"));
      var newUser := NewUser(env.userId, ClaimString(claims, "email"), ClaimString(claims, "name"), hash.value,
                             DefaultUserSettings(), env.now, env.now);

      var err := userRepository.Add(newUser, faults.addUser);
      if err.Some? {
        return Outcome(ZeroResponse, Some(App(NewAppError(err.value.Message(), "user-saving-error"))));
      }
      r := CreateTokens(newUser, env.now, env.refreshId, faults);
    }
  }
}
