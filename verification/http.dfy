/** The parts of the HTTP port (internal/ports/http.go) that decide what a client sees: the
    error-category to status mapping, the validation-field to slug table, and the bearer-token
    extraction used by the authenticated handlers. */
module Ports {
  import opened Wrappers
  import opened AppErrors
  import opened Users
  import opened Jwt
  import opened Auth
  import opened UsersAdapter

  /** The JSON error body and the status it is rendered with. */
  datatype ErrorResponse = ErrorResponse(slug: string, status: int)

  /** What a handler renders: a body, or an error response. */
  datatype Response<T> = Body(value: T) | Failure(error: ErrorResponse)

  const StatusBadRequest := 400
  const StatusUnauthorized := 401
  const StatusNotFound := 404
  const StatusInternalServerError := 500

  /** The response for an error returned by the service layer. */
  function RespondWithAppError(err: Error): (r: ErrorResponse)
    ensures !IsApp(err) ==> r == ErrorResponse("internal-server-error", StatusInternalServerError)
    ensures IsApp(err) ==> r.slug == err.app.Slug()
    ensures IsApp(err) && err.app.errorType == Authorization ==> r.status == StatusUnauthorized
    ensures IsApp(err) && err.app.errorType == IncorrectInput ==> r.status == StatusBadRequest
    ensures IsApp(err) && err.app.errorType == NotFound ==> r.status == StatusNotFound
    ensures IsApp(err) && err.app.errorType == Unknown ==> r.status == StatusInternalServerError
  {
    if !err.App? then ErrorResponse("internal-server-error", StatusInternalServerError)
    else
      var status := match err.app.errorType
        case Authorization => StatusUnauthorized
        case IncorrectInput => StatusBadRequest
        case NotFound => StatusNotFound
        case Unknown => StatusInternalServerError;
      ErrorResponse(err.app.Slug(), status)
  }

  /** A client sees a 4xx status exactly for the three client-side categories, and the status
      tells them apart: an internal error never looks like a client error. */
  lemma StatusClassifies(e1: Error, e2: Error)
    ensures 400 <= RespondWithAppError(e1).status < 500 <==> IsApp(e1) && e1.app.errorType != Unknown
    ensures IsApp(e1) && IsApp(e2) && RespondWithAppError(e1).status == RespondWithAppError(e2).status ==>
      e1.app.errorType == e2.app.errorType
  {
  }

  /** One failed rule of the request validator: the struct field and the rule's tag. */
  datatype FieldError = FieldError(field: string, tag: string)

  /** The slugs the port assigns to (field, tag) pairs; any other pair is "invalid-input". */
  const ValidationSlugs: map<(string, string), string> := map[
    ("Password", "gte") := "field-password-invalid-length",
    ("Email", "email") := "field-email-invalid",
    ("Name", "gte") := "field-name-invalid-length",
    ("Name", "required") := "field-name-required",
    ("Password", "required") := "field-password-required",
    ("Email", "required") := "field-email-required",
    ("Refresh", "required") := "invalid-token",
    ("Currency", "required") := "field-currency-required"
  ]

  /** The slug the if-chain picks for one field error. */
  function ValidationSlug(e: FieldError): string
  {
    if e.field == "Password" && e.tag == "gte" then "field-password-invalid-length"
    else if e.field == "Email" && e.tag == "email" then "field-email-invalid"
    else if e.field == "Name" && e.tag == "gte" then "field-name-invalid-length"
    else if e.field == "Name" && e.tag == "required" then "field-name-required"
    else if e.field == "Password" && e.tag == "required" then "field-password-required"
    else if e.field == "Email" && e.tag == "required" then "field-email-required"
    else if e.field == "Refresh" && e.tag == "required" then "invalid-token"
    else if e.field == "Currency" && e.tag == "required" then "field-currency-required"
    else "invalid-input"
  }

  /** The response for a failed validation: a 400 whose slug comes from the first field error
      alone, looked up in the table. The validator never reports an empty list. */
  function RespondValidationError(errs: seq<FieldError>): (r: ErrorResponse)
    requires |errs| > 0
    ensures r.status == StatusBadRequest
    ensures var key := (errs[0].field, errs[0].tag);
      r.slug == if key in ValidationSlugs then ValidationSlugs[key] else "invalid-input"
  {
    ErrorResponse(ValidationSlug(errs[0]), StatusBadRequest)
  }

  /** Only the first field error matters. */
  lemma FirstErrorDecides(errs1: seq<FieldError>, errs2: seq<FieldError>)
    requires |errs1| > 0 && |errs2| > 0 && errs1[0] == errs2[0]
    ensures RespondValidationError(errs1) == RespondValidationError(errs2)
  {
  }

  /** `sep` occurs in `s` at index `i`. */
  predicate OccursAt(s: string, sep: string, i: int)
  {
    0 <= i && i + |sep| <= |s| && s[i..i + |sep|] == sep
  }

  predicate Occurs(s: string, sep: string)
  {
    exists i :: 0 <= i <= |s| && OccursAt(s, sep, i)
  }

  lemma OccursAfterHead(s: string, sep: string, i: int)
    requires |s| >= 1 && 1 <= i
    ensures OccursAt(s, sep, i) <==> OccursAt(s[1..], sep, i - 1)
  {
    if i + |sep| <= |s| {
      var whole, tail := s[i..i + |sep|], s[1..][i - 1..i - 1 + |sep|];
      assert forall k :: 0 <= k < |sep| ==> whole[k] == tail[k];
      assert whole == tail;
    }
  }

  lemma OccursInPrefix(s: string, sep: string, n: int, j: int)
    requires 0 <= n <= |s|
    ensures OccursAt(s[..n], sep, j) ==> OccursAt(s, sep, j)
  {
    if OccursAt(s[..n], sep, j) {
      assert s[..n][j..j + |sep|] == s[j..j + |sep|];
    }
  }

  /** strings.Index: the first index at which `sep` occurs, or -1. */
  function IndexOf(s: string, sep: string): (r: int)
    requires |sep| > 0
    ensures r == -1 || OccursAt(s, sep, r)
    ensures r == -1 <==> !Occurs(s, sep)
    ensures forall j :: 0 <= j < r ==> !OccursAt(s, sep, j)
    decreases |s|
  {
    if |s| < |sep| then
      assert forall i :: !OccursAt(s, sep, i);
      -1
    else if s[..|sep|] == sep then 0
    else
      var j := IndexOf(s[1..], sep);
      forall i | 1 <= i
        ensures OccursAt(s, sep, i) <==> OccursAt(s[1..], sep, i - 1)
      {
        OccursAfterHead(s, sep, i);
      }
      assert !OccursAt(s, sep, 0);
      if j < 0 then -1 else j + 1
  }

  /** strings.Split for a non-empty separator: the pieces between successive occurrences. */
  function Split(s: string, sep: string): (parts: seq<string>)
    requires |sep| > 0
    ensures |parts| >= 1
    decreases |s|
  {
    var i := IndexOf(s, sep);
    if i < 0 then [s] else [s[..i]] + Split(s[i + |sep|..], sep)
  }

  /** strings.Join, the inverse of Split. */
  function Join(parts: seq<string>, sep: string): string
    requires |parts| >= 1
  {
    if |parts| == 1 then parts[0] else parts[0] + sep + Join(parts[1..], sep)
  }

  /** Joining the pieces back with the separator gives the original string. */
  lemma {:induction false} JoinSplit(s: string, sep: string)
    requires |sep| > 0
    ensures Join(Split(s, sep), sep) == s
    decreases |s|
  {
    var i := IndexOf(s, sep);
    if i >= 0 {
      var rest := s[i + |sep|..];
      var parts := Split(s, sep);
      assert parts == [s[..i]] + Split(rest, sep);
      assert parts[1..] == Split(rest, sep);
      calc {
        Join(parts, sep);
        parts[0] + sep + Join(parts[1..], sep);
        { JoinSplit(rest, sep); }
        s[..i] + sep + rest;
        { assert s[i..i + |sep|] == sep; assert s == s[..i] + s[i..i + |sep|] + rest; }
        s;
      }
    }
  }

  /** No piece contains the separator. */
  lemma {:induction false} SplitPiecesFree(s: string, sep: string)
    requires |sep| > 0
    ensures forall k :: 0 <= k < |Split(s, sep)| ==> !Occurs(Split(s, sep)[k], sep)
    decreases |s|
  {
    var i := IndexOf(s, sep);
    if i >= 0 {
      var rest := s[i + |sep|..];
      SplitPiecesFree(rest, sep);
      forall j | 0 <= j <= i
        ensures !OccursAt(s[..i], sep, j)
      {
        OccursInPrefix(s, sep, i, j);
      }
      forall k | 1 <= k < |Split(s, sep)|
        ensures !Occurs(Split(s, sep)[k], sep)
      {
        assert Split(s, sep)[k] == Split(rest, sep)[k - 1];
      }
    }
  }

  /** There are at least two pieces exactly when the separator occurs, and then the second
      piece is what lies between its first and its second occurrence (or the end). */
  lemma SplitSecondPiece(s: string, sep: string)
    requires |sep| > 0
    ensures |Split(s, sep)| >= 2 <==> Occurs(s, sep)
    ensures Occurs(s, sep) ==>
      var rest := s[IndexOf(s, sep) + |sep|..];
      var j := IndexOf(rest, sep);
      Split(s, sep)[1] == if j < 0 then rest else rest[..j]
  {
  }

  const Bearer := "Bearer "

  const TokenNotPresented := App(NewAuthorizationError("Token not presented", "invalid-token"))

  /** The access token of an Authorization header: the header is split on "Bearer "; without
      a second piece it is Authorization "invalid-token", otherwise the second piece is
      validated as an access token. */
  function GetAccessFromHeader(svc: AuthService, header: string, now: int): (r: Outcome<Token>)
    ensures !Occurs(header, Bearer) ==> r == Outcome(ZeroToken, Some(TokenNotPresented))
    ensures r.Ok() <==> Occurs(header, Bearer) && Accepted(svc.jwtService, Split(header, Bearer)[1], now)
    ensures r.Ok() ==> r.value.value == Split(header, Bearer)[1]
    ensures !r.Ok() ==> r.value == ZeroToken
  {
    SplitSecondPiece(header, Bearer);
    var parts := Split(header, Bearer);
    if |parts| < 2 then Outcome(ZeroToken, Some(App(NewAuthorizationError("Token not presented", "invalid-token"))))
    else
      var access := svc.ValidateToken(parts[1], now);
      if access.err.Some? then Outcome(ZeroToken, access.err) else Outcome(access.value, None)
  }

  /** The settings as the port renders them. */
  datatype SettingsPayload = SettingsPayload(currency: string, firstDayOfWeek: string, profilePictureUrl: string)

  datatype UserResponse = UserResponse(uuid: Uuids.Uuid, email: string, name: string, settings: SettingsPayload)

  function UserResponseOf(u: User): UserResponse
  {
    UserResponse(u.uuid, u.email, u.name,
                 SettingsPayload(u.settings.currency.String(), u.settings.firstDayOfWeek.String(), u.settings.profilePictureUrl))
  }

  /** The `me` handler: any failure to extract the access token is 401 "invalid-token",
      whatever the underlying error; otherwise the caller's own user. */
  method Me(svc: AuthService, header: string, now: int, faults: Faults) returns (resp: Response<UserResponse>)
    ensures !GetAccessFromHeader(svc, header, now).Ok() ==> resp == Failure(ErrorResponse("invalid-token", StatusUnauthorized))
    ensures resp.Body? ==>
      var id := GetAccessFromHeader(svc, header, now).value.userId;
      && faults.findUser.None? && id in svc.userRepository.table
      && ServiceUserFromModel(svc.userRepository.table[id]).Ok()
      && resp.value == UserResponseOf(ServiceUserFromModel(svc.userRepository.table[id]).value)
    ensures GetAccessFromHeader(svc, header, now).Ok() && faults.findUser.None?
            && GetAccessFromHeader(svc, header, now).value.userId !in svc.userRepository.table ==>
      resp == Failure(ErrorResponse("not-found", StatusNotFound))
    ensures GetAccessFromHeader(svc, header, now).Ok() ==>
      var found := ById(svc.userRepository.table, GetAccessFromHeader(svc, header, now).value.userId, faults.findUser);
      && (resp.Body? <==> found.Ok())
      && resp == if found.Ok() then Body(UserResponseOf(found.value)) else Failure(RespondWithAppError(found.err.value))
  {
    var access := GetAccessFromHeader(svc, header, now);
    if access.err.Some? {
      return Failure(ErrorResponse("invalid-token", StatusUnauthorized));
    }
    var user := svc.GetUser(access.value.userId, faults);
    if user.err.Some? {
      return Failure(RespondWithAppError(user.err.value));
    }
    return Body(UserResponseOf(user.value));
  }

  /** The `updateSettings` handler. The token is checked first (401 "invalid-token" on any
      failure), then the body: None stands for a body that could not be read or decoded
      (400 "invalid-input"), a non-empty `violations` for a payload the validator rejects. */
  method UpdateSettingsHandler(svc: AuthService, header: string, now: int, payload: Option<SettingsPayload>,
                               violations: seq<FieldError>, faults: Faults)
    returns (resp: Response<UserResponse>)
    requires svc.Valid()
    modifies svc.userRepository
    ensures svc.Valid()
    ensures !GetAccessFromHeader(svc, header, now).Ok() ==>
      resp == Failure(ErrorResponse("invalid-token", StatusUnauthorized)) && svc.userRepository.table == old(svc.userRepository.table)
    ensures GetAccessFromHeader(svc, header, now).Ok() && payload.None? ==>
      resp == Failure(ErrorResponse("invalid-input", StatusBadRequest)) && svc.userRepository.table == old(svc.userRepository.table)
    ensures GetAccessFromHeader(svc, header, now).Ok() && payload.Some? && |violations| > 0 ==>
      resp == Failure(RespondValidationError(violations)) && svc.userRepository.table == old(svc.userRepository.table)
    ensures resp.Body? ==>
      var id := GetAccessFromHeader(svc, header, now).value.userId;
      && payload.Some? && id in old(svc.userRepository.table)
      && resp.value == UserResponse(id, old(svc.userRepository.table)[id].email, old(svc.userRepository.table)[id].name,
                                    payload.value)
      && svc.userRepository.table == old(svc.userRepository.table)[id :=
           old(svc.userRepository.table)[id].(settings := map["currency" := payload.value.currency,
                                                              "first_day_of_week" := payload.value.firstDayOfWeek,
                                                              "profile_picture_url" := payload.value.profilePictureUrl])]
    ensures GetAccessFromHeader(svc, header, now).Ok() && payload.Some? && |violations| == 0 ==>
      var p := payload.value;
      var req := UpdateSettingsRequest(GetAccessFromHeader(svc, header, now).value.userId, p.currency, p.firstDayOfWeek,
                                       p.profilePictureUrl);
      var answer := SettingsAnswer(old(svc.userRepository.table), req, faults);
      && (resp.Body? <==> SettingsWritten(old(svc.userRepository.table), req, faults) && faults.reread.None?)
      && resp == (if answer.Ok() then Body(UserResponseOf(answer.value)) else Failure(RespondWithAppError(answer.err.value)))
      && svc.userRepository.table == TableAfterSettings(old(svc.userRepository.table), req, faults)
  {
    var access := GetAccessFromHeader(svc, header, now);
    if access.err.Some? {
      return Failure(ErrorResponse("invalid-token", StatusUnauthorized));
    }
    if payload.None? {
      return Failure(ErrorResponse("invalid-input", StatusBadRequest));
    }
    if |violations| > 0 {
      return Failure(RespondValidationError(violations));
    }
    var p := payload.value;
    var request := UpdateSettingsRequest(access.value.userId, p.currency, p.firstDayOfWeek, p.profilePictureUrl);
    var user := svc.UpdateSettings(request, faults);
    if user.err.Some? {
      return Failure(RespondWithAppError(user.err.value));
    }
    return Body(UserResponseOf(user.value));
  }
}
