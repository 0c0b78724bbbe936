/**
 * The auth client (src/utils/auth.ts): registration, login, logout and reading back the
 * stored session. The operations that write local storage are methods over a `LocalStorage`
 * object; each is specified by pure functions of the old storage contents and its inputs.
 * The network answer, the random token suffix and the base64/JSON decoding of a token
 * payload are inputs of the model.
 */
module Auth {
  import opened AuthTypes
  import opened Storage

  const TokenKey: string := "token"
  const UserKey: string := "user"
  const TokenPrefix: string := "mock-jwt-token-"
  const ValidationMessage: string := "Please fill in all fields. Password must be at least 6 characters."
  const LoginFailed: string := "Login failed"

  /** True when `before` and `after` agree on every key other than the two session keys. */
  ghost predicate OnlySessionKeysDiffer(before: map<string, Value>, after: map<string, Value>) {
    forall k :: k != TokenKey && k != UserKey ==>
      (k in before <==> k in after) && (k in before ==> before[k] == after[k])
  }

  // ---------------------------------------------------------------------------------------
  // Reading a token: `token.split('.')[1]`, then an abstract decoder for `atob` + `JSON.parse`
  // ---------------------------------------------------------------------------------------

  /** `s.split(sep)` for a one-character separator: the maximal separator-free pieces, in order. */
  function Split(s: string, sep: char): (parts: seq<string>)
    ensures |parts| >= 1
    ensures forall i :: 0 <= i < |parts| ==> sep !in parts[i]
    ensures |parts| == 1 <==> sep !in s
    decreases |s|
  {
    if s == [] then [[]]
    else
      var rest := Split(s[1..], sep);
      if s[0] == sep then [[]] + rest
      else [[s[0]] + rest[0]] + rest[1..]
  }

  /** `parts.join(sep)`. */
  function Join(parts: seq<string>, sep: char): string
    requires |parts| >= 1
  {
    if |parts| == 1 then parts[0] else parts[0] + [sep] + Join(parts[1..], sep)
  }

  /** Splitting loses nothing: joining the pieces back gives the original text. */
  lemma {:induction false} JoinSplit(s: string, sep: char)
    ensures Join(Split(s, sep), sep) == s
    decreases |s|
  {
    if s != [] {
      var rest := Split(s[1..], sep);
      JoinSplit(s[1..], sep);
      if s[0] == sep {
        assert ([[]] + rest)[1..] == rest;
        assert s == [sep] + s[1..];
      } else if |rest| == 1 {
        assert s == [s[0]] + s[1..];
      } else {
        var parts := [[s[0]] + rest[0]] + rest[1..];
        assert parts[1..] == rest[1..];
        assert s == [s[0]] + s[1..];
      }
    }
  }

  lemma {:induction false} SplitAfterSeparatorFree(a: string, b: string, sep: char)
    requires sep !in a
    ensures Split(a + [sep] + b, sep) == [a] + Split(b, sep)
    decreases |a|
  {
    if a == [] {
      assert [] + [sep] + b == [sep] + b;
      assert ([sep] + b)[1..] == b;
    } else {
      var s := a + [sep] + b;
      assert s[1..] == a[1..] + [sep] + b;
      SplitAfterSeparatorFree(a[1..], b, sep);
      assert [a[0]] + a[1..] == a;
    }
  }

  /** The piece after the first dot and before the next one, or absence when there is no dot. */
  function PayloadSegment(token: string): (seg: Option<string>)
    ensures seg.None? <==> '.' !in token
    ensures seg.Some? ==> '.' !in seg.value
  {
    var parts := Split(token, '.');
    if |parts| >= 2 then Some(parts[1]) else None
  }

  lemma {:induction false} SplitSeparatorFree(s: string, sep: char)
    requires sep !in s
    ensures Split(s, sep) == [s]
    decreases |s|
  {
    if s != [] {
      SplitSeparatorFree(s[1..], sep);
      assert [s[0]] + s[1..] == s;
    }
  }

  /** A token of the shape `header.payload` or `header.payload.rest` has `payload` as its segment. */
  lemma PayloadOfDottedToken(header: string, payload: string, tail: string)
    requires '.' !in header && '.' !in payload
    requires tail == [] || tail[0] == '.'
    ensures PayloadSegment(header + ['.'] + payload + tail) == Some(payload)
  {
    var token := header + ['.'] + payload + tail;
    var rest := Split(payload + tail, '.');
    assert token == header + ['.'] + (payload + tail);
    SplitAfterSeparatorFree(header, payload + tail, '.');
    assert Split(token, '.') == [header] + rest;
    if tail == [] {
      assert payload + tail == payload;
      SplitSeparatorFree(payload, '.');
      assert rest == [payload];
    } else {
      assert payload + tail == payload + ['.'] + tail[1..];
      SplitAfterSeparatorFree(payload, tail[1..], '.');
      assert rest == [payload] + Split(tail[1..], '.');
    }
    assert Split(token, '.')[1] == payload;
  }

  /** The payload claims of a token, for the well-typed payloads the model covers. */
  datatype Claims = Claims(sub: Option<Id>, email: Option<string>, firstName: Option<string>, lastName: Option<string>)

  /** JavaScript truthiness of an identifier claim: absent, `0` and `''` are falsy. */
  predicate IdTruthy(id: Option<Id>) {
    match id
    case None => false
    case Some(NumId(n)) => n != 0
    case Some(TextId(s)) => s != []
  }

  /** `claim || d` for a text claim. */
  function TextOr(claim: Option<string>, d: string): string {
    if claim.Some? && claim.value != [] then claim.value else d
  }

  /** What `parseJwt` promises about the user it builds from claims `c`. */
  predicate BuiltFromClaims(c: Claims, u: User) {
    && (if IdTruthy(c.sub) then u.id == c.sub.value else u.id == NumId(0))
    && u.email == c.email
    && (if c.firstName.Some? && c.firstName.value != [] then u.firstName == c.firstName.value else u.firstName == [])
    && (if c.lastName.Some? && c.lastName.value != [] then u.lastName == c.lastName.value else u.lastName == [])
  }

  /**
   * `parseJwt`. `decode` stands for `atob` followed by `JSON.parse` and reading the claims;
   * `None` is any exception they raise. A token without a dot has no segment 1, so `atob`
   * receives `undefined`, decodes the text "undefined" (nine characters, no valid base64
   * length) and throws: such a token never yields a user, whatever the decoder.
   */
  function ParseJwt(token: string, decode: string -> Option<Claims>): (r: Option<User>)
    ensures '.' !in token ==> r.None?
    ensures '.' in token ==> (r.Some? <==> decode(PayloadSegment(token).value).Some?)
    ensures r.Some? ==> BuiltFromClaims(decode(PayloadSegment(token).value).value, r.value)
  {
    match PayloadSegment(token)
    case None => None
    case Some(segment) =>
      match decode(segment)
      case None => None
      case Some(c) =>
        Some(User(if IdTruthy(c.sub) then c.sub.value else NumId(0),
                  c.email, TextOr(c.firstName, ""), TextOr(c.lastName, "")))
  }

  // ---------------------------------------------------------------------------------------
  // login
  // ---------------------------------------------------------------------------------------

  /** What a caught exception carries: an `Error` with its message, or any other thrown value. */
  datatype Thrown = ErrorValue(message: string) | OtherValue

  /** The network exchange: a response (its `ok` flag and body text), or a rejected `fetch`/`text()`. */
  datatype Fetched = Reply(ok: bool, body: string) | Rejected(thrown: Thrown)

  /** `error instanceof Error ? error.message : 'Login failed'`. */
  function CaughtMessage(t: Thrown): string {
    match t
    case ErrorValue(m) => m
    case OtherValue => LoginFailed
  }

  /** The response `login` returns. */
  function LoginResponse(fetched: Fetched, decode: string -> Option<Claims>): (r: AuthResponse)
    ensures r.success <==> fetched.Reply? && fetched.ok
    ensures r.success ==>
      r.token == Some(fetched.body) && r.user == ParseJwt(fetched.body, decode) && r.message.None?
    ensures fetched.Reply? && !fetched.ok ==> r == AuthResponse(false, None, None, Some(fetched.body))
    ensures fetched.Rejected? ==>
      r == AuthResponse(false, None, None, Some(CaughtMessage(fetched.thrown)))
  {
    match fetched
    case Rejected(t) => AuthResponse(false, None, None, Some(CaughtMessage(t)))
    case Reply(ok, body) =>
      if !ok then AuthResponse(false, None, None, Some(body))
      else AuthResponse(true, Some(body), ParseJwt(body, decode), None)
  }

  /** The storage contents after `login`. */
  function LoginItems(items: map<string, Value>, fetched: Fetched, decode: string -> Option<Claims>)
    : (r: map<string, Value>)
    ensures !(fetched.Reply? && fetched.ok) ==> r == items
    ensures fetched.Reply? && fetched.ok ==> TokenKey in r && r[TokenKey] == Text(fetched.body)
    ensures fetched.Reply? && fetched.ok && ParseJwt(fetched.body, decode).Some? ==>
      UserKey in r && r[UserKey] == Json(ParseJwt(fetched.body, decode).value)
    ensures fetched.Reply? && fetched.ok && ParseJwt(fetched.body, decode).None? ==>
      (UserKey in r <==> UserKey in items) && (UserKey in items ==> r[UserKey] == items[UserKey])
    ensures OnlySessionKeysDiffer(items, r)
  {
    match fetched
    case Rejected(_) => items
    case Reply(ok, body) =>
      if !ok then items
      else
        var user := ParseJwt(body, decode);
        var withToken := items[TokenKey := Text(body)];
        if user.Some? then withToken[UserKey := Json(user.value)] else withToken
  }

  /**
   * `login`. The credentials would be posted to the backend; the answer is `fetched`.
   * A non-ok answer throws before any storage write, and the throw is caught.
   */
  method Login(storage: LocalStorage, credentials: LoginCredentials, fetched: Fetched,
               decode: string -> Option<Claims>)
    returns (r: AuthResponse)
    modifies storage
    ensures r == LoginResponse(fetched, decode)
    ensures storage.items == LoginItems(old(storage.items), fetched, decode)
  {
    match fetched
    case Rejected(t) =>
      r := AuthResponse(false, None, None, Some(CaughtMessage(t)));
    case Reply(ok, token) =>
      if !ok {
        r := AuthResponse(false, None, None, Some(token));
      } else {
        var user := ParseJwt(token, decode);
        storage.SetItem(TokenKey, Text(token));
        if user.Some? {
          storage.SetItem(UserKey, Json(user.value));
        }
        r := AuthResponse(true, Some(token), user, None);
      }
  }

  /** `login` with an ok answer whose token has segment `payload` and whose claims decode to `c`. */
  lemma LoginWithDecodedPayload(body: string, payload: string, c: Claims, decode: string -> Option<Claims>)
    requires PayloadSegment(body) == Some(payload) && decode(payload) == Some(c)
    ensures LoginResponse(Reply(true, body), decode)
            == AuthResponse(true, Some(body),
                            Some(User(if IdTruthy(c.sub) then c.sub.value else NumId(0),
                                      c.email, TextOr(c.firstName, ""), TextOr(c.lastName, ""))), None)
  {
  }

  /** The response-body example `abc.<payload>.xyz`, whose payload holds `sub` "42" and an email, no names. */
  lemma LoginWithSampleToken(decode: string -> Option<Claims>)
    requires decode("eyJzdWIiOiI0MiIsImVtYWlsIjoiYUBiLmNvbSJ9")
             == Some(Claims(Some(TextId("42")), Some("a@b.com"), None, None))
    ensures var body := "abc" + "." + "eyJzdWIiOiI0MiIsImVtYWlsIjoiYUBiLmNvbSJ9" + ".xyz";
      LoginResponse(Reply(true, body), decode)
      == AuthResponse(true, Some(body), Some(User(TextId("42"), Some("a@b.com"), "", "")), None)
  {
    var payload := "eyJzdWIiOiI0MiIsImVtYWlsIjoiYUBiLmNvbSJ9";
    PayloadOfDottedToken("abc", payload, ".xyz");
    LoginWithDecodedPayload("abc" + "." + payload + ".xyz", payload,
                            Claims(Some(TextId("42")), Some("a@b.com"), None, None), decode);
  }

  // ---------------------------------------------------------------------------------------
  // register
  // ---------------------------------------------------------------------------------------

  /**
   * JavaScript's `length` of a string: the number of UTF-16 code units, so a character
   * outside the Basic Multilingual Plane counts twice.
   */
  function Utf16Length(s: string): (n: nat)
    ensures |s| <= n <= 2 * |s|
    ensures (forall i :: 0 <= i < |s| ==> (s[i] as int) < 0x10000) ==> n == |s|
    ensures (forall i :: 0 <= i < |s| ==> (s[i] as int) >= 0x10000) ==> n == 2 * |s|
  {
    if s == [] then 0 else (if (s[0] as int) >= 0x10000 then 2 else 1) + Utf16Length(s[1..])
  }

  /**
   * The local check `register` performs instead of a network call: it refuses an empty
   * email, first name or last name and a password shorter than six UTF-16 code units, and
   * accepts everything else.
   */
  predicate RegistrationValid(c: RegisterCredentials): (b: bool)
    ensures c.email == [] || c.firstName == [] || c.lastName == [] || Utf16Length(c.password) < 6 ==> !b
    ensures c.email != [] && c.firstName != [] && c.lastName != [] && 6 <= Utf16Length(c.password) ==> b
  {
    c.email != [] && Utf16Length(c.password) >= 6 && c.firstName != [] && c.lastName != []
  }

  /** Three emoji make a password of JavaScript length 6, which `register` accepts. */
  lemma AstralPasswordAccepted()
    ensures RegistrationValid(RegisterCredentials("a", "b", "c", "\U{1F600}\U{1F600}\U{1F600}"))
  {
    var p := "\U{1F600}\U{1F600}\U{1F600}";
    assert forall i :: 0 <= i < |p| ==> (p[i] as int) >= 0x10000;
  }

  /** The response `register` returns; `suffix` stands for the random part of the mock token. */
  function RegisterResponse(c: RegisterCredentials, suffix: string): (r: AuthResponse)
    ensures r.success <==> RegistrationValid(c)
    ensures r.success ==>
      && r.token.Some? && TokenPrefix <= r.token.value
      && r.user == Some(User(TextId("1"), Some(c.email), c.firstName, c.lastName))
      && r.message.None?
    ensures !r.success ==> r == AuthResponse(false, None, None, Some(ValidationMessage))
  {
    if RegistrationValid(c) then
      AuthResponse(true, Some(TokenPrefix + suffix),
                   Some(User(TextId("1"), Some(c.email), c.firstName, c.lastName)), None)
    else
      AuthResponse(false, None, None, Some(ValidationMessage))
  }

  /** The storage contents after `register`. */
  function RegisterItems(items: map<string, Value>, c: RegisterCredentials, suffix: string)
    : (r: map<string, Value>)
    ensures !RegistrationValid(c) ==> r == items
    ensures RegistrationValid(c) ==>
      && TokenKey in r && r[TokenKey] == Text(RegisterResponse(c, suffix).token.value)
      && UserKey in r && r[UserKey] == Json(RegisterResponse(c, suffix).user.value)
    ensures OnlySessionKeysDiffer(items, r)
  {
    if RegistrationValid(c) then
      items[TokenKey := Text(TokenPrefix + suffix)]
           [UserKey := Json(User(TextId("1"), Some(c.email), c.firstName, c.lastName))]
    else items
  }

  /** `register` (its one-second delay is not modelled). */
  method Register(storage: LocalStorage, credentials: RegisterCredentials, suffix: string)
    returns (r: AuthResponse)
    modifies storage
    ensures r == RegisterResponse(credentials, suffix)
    ensures storage.items == RegisterItems(old(storage.items), credentials, suffix)
  {
    if RegistrationValid(credentials) {
      var token := TokenPrefix + suffix;
      var user := User(TextId("1"), Some(credentials.email), credentials.firstName, credentials.lastName);
      storage.SetItem(TokenKey, Text(token));
      storage.SetItem(UserKey, Json(user));
      r := AuthResponse(true, Some(token), Some(user), None);
    } else {
      r := AuthResponse(false, None, None, Some(ValidationMessage));
    }
  }

  /** Violating any one of the four conditions is enough to be refused, with storage untouched. */
  lemma RegisterRefusesEachViolation(items: map<string, Value>, c: RegisterCredentials, suffix: string)
    requires c.email == [] || Utf16Length(c.password) < 6 || c.firstName == [] || c.lastName == []
    ensures RegisterResponse(c, suffix) == AuthResponse(false, None, None, Some(ValidationMessage))
    ensures RegisterItems(items, c, suffix) == items
  {
  }

  // ---------------------------------------------------------------------------------------
  // logout and getStoredAuth
  // ---------------------------------------------------------------------------------------

  /** The storage contents after `logout`. */
  function LogoutItems(items: map<string, Value>): (r: map<string, Value>)
    ensures TokenKey !in r && UserKey !in r
    ensures OnlySessionKeysDiffer(items, r)
  {
    items - {TokenKey, UserKey}
  }

  method Logout(storage: LocalStorage)
    modifies storage
    ensures storage.items == LogoutItems(old(storage.items))
  {
    storage.RemoveItem(TokenKey);
    storage.RemoveItem(UserKey);
  }

  /** What `getStoredAuth` returns: the raw token entry and the deserialised user. */
  datatype StoredAuth = StoredAuth(token: Option<Value>, user: Option<User>)

  /** `getStoredAuth`, over the storage contents. */
  function GetStoredAuth(items: map<string, Value>): (a: StoredAuth)
    ensures a.token.Some? <==> TokenKey in items
    ensures a.token.Some? ==> a.token.value == items[TokenKey]
    ensures a.user.Some? <==> UserKey in items && items[UserKey].Json?
    ensures a.user.Some? ==> items[UserKey] == Json(a.user.value)
  {
    var token := if TokenKey in items then Some(items[TokenKey]) else None;
    var user := if UserKey in items && items[UserKey].Json? then Some(items[UserKey].user) else None;
    StoredAuth(token, user)
  }

  /** After `logout`, reading back the session finds neither a token nor a user. */
  lemma LogoutThenLoad(items: map<string, Value>)
    ensures GetStoredAuth(LogoutItems(items)) == StoredAuth(None, None)
  {
  }

  /** A successful `register` is read back as exactly the token and user it returned. */
  lemma RegisterThenLoad(items: map<string, Value>, c: RegisterCredentials, suffix: string)
    requires RegistrationValid(c)
    ensures var r := RegisterResponse(c, suffix);
      GetStoredAuth(RegisterItems(items, c, suffix)) == StoredAuth(Some(Text(r.token.value)), r.user)
  {
  }

  /**
   * After an ok `login`, the stored token is the returned one; the stored user is the returned
   * one when the token decoded, and otherwise whatever was stored before.
   */
  lemma LoginThenLoad(items: map<string, Value>, body: string, decode: string -> Option<Claims>)
    ensures var r := LoginResponse(Reply(true, body), decode);
      var a := GetStoredAuth(LoginItems(items, Reply(true, body), decode));
      && a.token == Some(Text(r.token.value))
      && (r.user.Some? ==> a.user == r.user)
      && (r.user.None? ==> a.user == GetStoredAuth(items).user)
  {
  }
}
