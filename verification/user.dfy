/** User records, their settings, and the random-password generator
    (internal/app/user/user.go). */
module Users {
  import opened Wrappers
  import opened Uuids
  import opened Currencies
  import opened Days
  import opened AppErrors

  datatype UserSettings = UserSettings(currency: Currency, profilePictureUrl: string, firstDayOfWeek: Day)

  /** Timestamps are whole seconds. */
  datatype User = User(uuid: Uuid, email: string, name: string, hash: string, settings: UserSettings,
                       createdAt: int, updatedAt: int)

  /** The settings every new account starts with. */
  function DefaultUserSettings(): (s: UserSettings)
    ensures s.currency == RUB && s.firstDayOfWeek == MON && s.profilePictureUrl == ""
  {
    UserSettings(RUB, "", MON)
  }

  function NewUserSettings(cur: Currency, firstDayOfWeek: Day, profilePictureUrl: string): (s: UserSettings)
    ensures s.currency == cur && s.firstDayOfWeek == firstDayOfWeek && s.profilePictureUrl == profilePictureUrl
  {
    UserSettings(cur, profilePictureUrl, firstDayOfWeek)
  }

  function NewUser(uuid: Uuid, email: string, name: string, hash: string, settings: UserSettings,
                   createdAt: int, updatedAt: int): (u: User)
    ensures u.uuid == uuid && u.email == email && u.name == name && u.hash == hash
    ensures u.settings == settings && u.createdAt == createdAt && u.updatedAt == updatedAt
  {
    User(uuid, email, name, hash, settings, createdAt, updatedAt)
  }

  /** The alphabet of generated passwords: 26 lower-case letters, 26 upper-case letters,
      10 digits and 8 symbols. */
  const Charset: string := "abcdefghijklmnopqrstuvwxyz" + "ABCDEFGHIJKLMNOPQRSTUVWXYZ0123456789" + "$#@&^*()"

  lemma CharsetSize()
    ensures |Charset| == 70
  {
  }

  /** The length of a generated password. */
  const PasswordLength: nat := 20

  /** A sequence of draws from `Intn(n)`: each lies in [0, n). */
  predicate DrawsBelow(draws: seq<nat>, count: nat, n: nat)
  {
    count <= |draws| && forall i :: 0 <= i < count ==> draws[i] < n
  }

  /** The string whose character i is `charset[draws[i]]`, for each i below `length`. */
  function Drawn(length: nat, charset: string, draws: seq<nat>): string
    requires DrawsBelow(draws, length, |charset|)
  {
    seq(length, i requires 0 <= i < length => charset[draws[i]])
  }

  /** Fills a buffer of `length` bytes, byte i being `charset[draws[i]]`. The time-seeded
      generator is replaced by the sequence of its draws. */
  method StringWithCharset(length: nat, charset: string, draws: seq<nat>) returns (s: string)
    requires DrawsBelow(draws, length, |charset|)
    ensures |s| == length
    ensures forall i :: 0 <= i < length ==> s[i] == charset[draws[i]]
    ensures forall i :: 0 <= i < |s| ==> s[i] in charset
    ensures s == Drawn(length, charset, draws)
  {
    var b := new char[length];
    for i := 0 to length
      invariant forall k :: 0 <= k < i ==> b[k] == charset[draws[k]]
    {
      b[i] := charset[draws[i]];
    }
    s := b[..];
  }

  /** A throw-away password of 20 characters from Charset. */
  method GeneratePassword(draws: seq<nat>) returns (p: string)
    requires DrawsBelow(draws, PasswordLength, |Charset|)
    ensures |p| == 20
    ensures forall i :: 0 <= i < |p| ==> p[i] in Charset
    ensures p == Drawn(PasswordLength, Charset, draws)
  {
    p := StringWithCharset(PasswordLength, Charset, draws);
  }

  /** A random string of the given length over Charset. */
  method String(length: nat, draws: seq<nat>) returns (s: string)
    requires DrawsBelow(draws, length, |Charset|)
    ensures |s| == length
    ensures forall i :: 0 <= i < length ==> s[i] == Charset[draws[i]]
  {
    s := StringWithCharset(length, Charset, draws);
  }

  /** bcrypt at cost 12, left abstract: `hash(password, salt)` is GenerateFromPassword with
      the salt it draws (HashPassword), `check` is CompareHashAndPassword succeeding
      (CheckPasswordHash). */
  datatype PasswordHasher = PasswordHasher(hash: (string, nat) -> Outcome<string>, check: (string, string) -> bool) {
    /** A hash produced for a password verifies against that password. */
    ghost predicate Sound()
    {
      forall p, salt :: hash(p, salt).Ok() ==> check(p, hash(p, salt).value)
    }
  }
}
