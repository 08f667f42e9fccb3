/** The session helpers: the login state kept in localStorage (`access_token`,
    `token_type` and the `admin_user` record), login through the legacy client,
    logout, and the decoding of the token's payload. `JSON.parse` and the payload
    decoding (`atob`, `decodeURIComponent`, `JSON.parse`) are parameters: what they
    compute is not part of this model, only how their results and failures are used. */
module Auth {
  import opened Wrappers
  import opened Js
  import opened Browser
  import opened Gateway
  import opened LegacyApi

  const ADMIN_USER := "admin_user"
  const FORBIDDEN_MESSAGE := "Доступ запрещен. Требуются права администратора."
  const CREDENTIALS_MESSAGE := "Ошибка авторизации. Проверьте email и пароль."

  /** `isAuthenticated()`: a non-empty access token is stored. */
  predicate IsAuthenticated(storage: map<string, string>) {
    ACCESS_TOKEN in storage && storage[ACCESS_TOKEN] != ""
  }

  /** `localStorage.getItem('admin_user')` when it is truthy. */
  function StoredUser(storage: map<string, string>): Option<string> {
    if ADMIN_USER in storage && storage[ADMIN_USER] != "" then Some(storage[ADMIN_USER]) else None
  }

  /** `isSuperuser()`: `user.is_superuser || false` of the stored record, false without one.
      It throws when the record does not parse or parses to null. */
  function IsSuperuser(storage: map<string, string>, parse: string -> Result<Json>): (r: Result<Json>)
    ensures StoredUser(storage).None? ==> r == Ok(Bool(false))
    ensures r.Ok? && JsonTruthy(r.value) <==>
      StoredUser(storage).Some? && parse(StoredUser(storage).value).Ok? &&
      Truthy(OptionalMember(Defined(parse(StoredUser(storage).value).value), "is_superuser"))
    ensures r.Err? <==>
      (StoredUser(storage).Some? &&
       (parse(StoredUser(storage).value).Err? || parse(StoredUser(storage).value).value.Null?))
  {
    match StoredUser(storage)
    case None => Ok(Bool(false))
    case Some(data) =>
      match parse(data)
      case Err(m) => Err(m)
      case Ok(user) =>
        match Member(Defined(user), "is_superuser")
        case Err(m) => Err(m)
        case Ok(flag) => Ok(Or(flag, Bool(false)))
  }

  /** `getCurrentUser()`: the parsed record, or null without one. */
  function CurrentUser(storage: map<string, string>, parse: string -> Result<Json>): Result<Json> {
    if StoredUser(storage).Some? then parse(StoredUser(storage).value) else Ok(Null)
  }

  /** The storage after `logout()`. */
  function LoggedOut(storage: map<string, string>): map<string, string> {
    storage - {ACCESS_TOKEN, TOKEN_TYPE, ADMIN_USER}
  }

  /** `logout()`: the three session keys go, the browser is sent to the login page, and the
      response cache is left as it is. */
  method Logout(window: Window)
    modifies window
    ensures window.storage == LoggedOut(old(window.storage))
    ensures window.location == Some(LOGIN_PAGE)
    ensures window.now == old(window.now) && window.sent == old(window.sent) && window.replies == old(window.replies)
  {
    window.RemoveItem(ACCESS_TOKEN);
    window.RemoveItem(TOKEN_TYPE);
    window.RemoveItem(ADMIN_USER);
    window.Navigate(LOGIN_PAGE);
  }

  // ---------------------------------------------------------------------------
  // parseJwt

  /** `s.replace(/from/g, to)` for a one-character pattern. */
  function ReplaceAll(s: string, from: char, to: char): (r: string)
    ensures |r| == |s|
    ensures forall i :: 0 <= i < |s| ==> r[i] == if s[i] == from then to else s[i]
  {
    if s == [] then [] else [if s[0] == from then to else s[0]] + ReplaceAll(s[1..], from, to)
  }

  /** The base64url alphabet mapped onto the base64 one. */
  function Base64FromUrl(s: string): string {
    ReplaceAll(ReplaceAll(s, '-', '+'), '_', '/')
  }

  /** `parseJwt(token)`: the decoded second segment of the token, or `{}` when anything fails:
      a token that is not a string, one without a second segment, or a payload that does not decode. */
  function ParseJwt(token: JsValue, decode: string -> Result<Json>): Json {
    if !(token.Defined? && token.json.Str?) then Obj([])
    else
      var parts := Split(token.json.s, '.');
      if |parts| < 2 then Obj([])
      else
        match decode(Base64FromUrl(parts[1]))
        case Err(_) => Obj([])
        case Ok(payload) => payload
  }

  // ---------------------------------------------------------------------------
  // login

  function Credentials(email: string, password: string): Json {
    Obj([Field("email", Str(email)), Field("password", Str(password))])
  }

  /** The message `login` rethrows: the admin-rights one when the original message mentions 403. */
  function LoginFailure(message: string): (m: string)
    ensures m == FORBIDDEN_MESSAGE <==> Contains(message, "403")
    ensures m == FORBIDDEN_MESSAGE || m == CREDENTIALS_MESSAGE
  {
    if Contains(message, "403") then FORBIDDEN_MESSAGE else CREDENTIALS_MESSAGE
  }

  /** The `admin_user` record built from the token payload; reading `id` of a null payload throws. */
  function UserRecord(email: string, tokenData: Json): Result<Json> {
    match Member(Defined(tokenData), "id")
    case Err(m) => Err(m)
    case Ok(id) =>
      Ok(Obj([Field("id", Or(id, Num(0))), Field("email", Str(email)),
              Field("is_superuser", Or(OptionalMember(Defined(tokenData), "is_superuser"), Bool(false)))]))
  }

  /** `login(email, password)` */
  function LoginStep(b: string, e: Env, email: string, password: string, decode: string -> Result<Json>): (Env, Result<()>) {
    var (e1, response) := RequestStep(b, e, "/login", RequestInit("POST", map[], Text(Stringify(Credentials(email, password)))));
    if response.Err? then (e1, Err(LoginFailure(response.message)))
    else
      match Member(Defined(response.value), "access_token")
      case Err(m) => (e1, Err(LoginFailure(m)))
      case Ok(token) =>
        var tokenType := OptionalMember(Defined(response.value), "token_type");
        var e2 := e1.(storage := e1.storage[ACCESS_TOKEN := ToText(token)][TOKEN_TYPE := ToText(tokenType)]);
        match UserRecord(email, ParseJwt(token, decode))
        case Err(m) => (e2, Err(LoginFailure(m)))
        case Ok(user) => (e2.(storage := e2.storage[ADMIN_USER := Stringify(user)]), Ok(()))
  }

  method Login(client: Api, email: string, password: string, decode: string -> Result<Json>) returns (r: Result<()>)
    modifies client.base.cache, client.base.window
    ensures (client.State(), r) == LoginStep(client.base.baseUrl, old(client.State()), email, password, decode)
  {
    var response := client.Login(Credentials(email, password));
    if response.Err? {
      return Err(LoginFailure(response.message));
    }
    var token := Member(Defined(response.value), "access_token");
    if token.Err? {
      return Err(LoginFailure(token.message));
    }
    var tokenType := OptionalMember(Defined(response.value), "token_type");
    client.base.window.SetItem(ACCESS_TOKEN, ToText(token.value));
    client.base.window.SetItem(TOKEN_TYPE, ToText(tokenType));
    var user := UserRecord(email, ParseJwt(token.value, decode));
    if user.Err? {
      return Err(LoginFailure(user.message));
    }
    client.base.window.SetItem(ADMIN_USER, Stringify(user.value));
    r := Ok(());
  }

  // ---------------------------------------------------------------------------
  // Properties

  /** After logout there is no session: not authenticated, not superuser, no current user,
      and every other stored key is kept. */
  lemma LogoutEndsSession(storage: map<string, string>, parse: string -> Result<Json>, k: string)
    ensures !IsAuthenticated(LoggedOut(storage))
    ensures IsSuperuser(LoggedOut(storage), parse) == Ok(Bool(false))
    ensures CurrentUser(LoggedOut(storage), parse) == Ok(Null)
    ensures k != ACCESS_TOKEN && k != TOKEN_TYPE && k != ADMIN_USER ==>
      (k in LoggedOut(storage) <==> k in storage) && (k in storage ==> LoggedOut(storage)[k] == storage[k])
  {
  }

  /** The superuser flag is read from the stored record only: the token does not enter into it. */
  lemma SuperuserIgnoresToken(storage: map<string, string>, parse: string -> Result<Json>, token: string)
    ensures IsSuperuser(storage[ACCESS_TOKEN := token], parse) == IsSuperuser(storage, parse)
    ensures IsSuperuser(storage - {ACCESS_TOKEN}, parse) == IsSuperuser(storage, parse)
  {
    assert StoredUser(storage[ACCESS_TOKEN := token]) == StoredUser(storage);
    assert StoredUser(storage - {ACCESS_TOKEN}) == StoredUser(storage);
  }

  /** After the base64url mapping no '-' or '_' is left, every other character is kept, and the
      mapping is idempotent. */
  lemma Base64FromUrlMapsAlphabet(s: string)
    ensures |Base64FromUrl(s)| == |s|
    ensures forall i :: 0 <= i < |s| ==> Base64FromUrl(s)[i] != '-' && Base64FromUrl(s)[i] != '_'
    ensures forall i :: 0 <= i < |s| && s[i] != '-' && s[i] != '_' ==> Base64FromUrl(s)[i] == s[i]
    ensures forall i :: 0 <= i < |s| ==> (s[i] == '-' <==> Base64FromUrl(s)[i] == '+' && s[i] != '+')
    ensures Base64FromUrl(Base64FromUrl(s)) == Base64FromUrl(s)
  {
  }

  /** Splitting past a first segment that holds no separator. */
  lemma {:induction false} SplitAfterSegment(h: string, sep: char, x: string)
    requires sep !in h
    ensures Split(h + [sep] + x, sep) == [h] + Split(x, sep)
  {
    if h == [] {
      assert h + [sep] + x == [sep] + x;
      assert ([sep] + x)[1..] == x;
    } else {
      SplitAfterSegment(h[1..], sep, x);
      assert (h + [sep] + x)[1..] == h[1..] + [sep] + x;
      assert (h + [sep] + x)[0] == h[0] != sep;
      assert h == [h[0]] + h[1..];
    }
  }

  /** The first segment runs up to the first separator. */
  lemma {:induction false} SplitFirstSegment(p: string, sep: char, rest: string)
    requires sep !in p
    requires rest == [] || rest[0] == sep
    ensures Split(p + rest, sep)[0] == p
  {
    if p != [] {
      SplitFirstSegment(p[1..], sep, rest);
      assert (p + rest)[1..] == p[1..] + rest;
      assert p == [p[0]] + p[1..];
    } else {
      assert p + rest == rest;
    }
  }

  /** Of a token "header.payload[.signature]" only the payload segment is decoded. */
  lemma JwtPayloadSegment(header: string, payload: string, rest: string, decode: string -> Result<Json>)
    requires '.' !in header && '.' !in payload
    requires rest == [] || rest[0] == '.'
    ensures ParseJwt(Defined(Str(header + "." + payload + rest)), decode) ==
      if decode(Base64FromUrl(payload)).Ok? then decode(Base64FromUrl(payload)).value else Obj([])
  {
    var t := header + "." + payload + rest;
    assert t == header + ['.'] + (payload + rest);
    SplitAfterSegment(header, '.', payload + rest);
    SplitFirstSegment(payload, '.', rest);
  }

  /** Anything that is not a dotted string decodes to the empty object. */
  lemma JwtFailureIsEmptyObject(token: JsValue, decode: string -> Result<Json>)
    requires !(token.Defined? && token.json.Str?) || '.' !in token.json.s
    ensures ParseJwt(token, decode) == Obj([])
  {
    if token.Defined? && token.json.Str? {
      SplitWithoutSeparator(token.json.s, '.');
    }
  }

  lemma {:induction false} SplitWithoutSeparator(s: string, sep: char)
    requires sep !in s
    ensures Split(s, sep) == [s]
  {
    if s != [] {
      SplitWithoutSeparator(s[1..], sep);
      assert s == [s[0]] + s[1..];
    }
  }

  /** A failed login request leaves the session as it was, up to the 401 teardown, and is
      reported with one of the two fixed messages. */
  lemma FailedLoginRequest(b: string, e: Env, email: string, password: string, decode: string -> Result<Json>)
    requires Outcome(NextReply(e.replies)).Err?
    ensures var (e1, r) := LoginStep(b, e, email, password, decode);
      r == Err(LoginFailure(Outcome(NextReply(e.replies)).message)) &&
      e1.storage == (if Unauthorized(NextReply(e.replies)) then e.storage - {ACCESS_TOKEN, TOKEN_TYPE} else e.storage)
  {
  }

  /** A 403 answered without a parsable body is reported with the admin-rights message. */
  lemma ForbiddenWithoutBody(b: string, e: Env, email: string, password: string, decode: string -> Result<Json>, syntaxError: string)
    requires NextReply(e.replies) == Some(Response(403, Unparsable(syntaxError)))
    ensures LoginStep(b, e, email, password, decode).1 == Err(FORBIDDEN_MESSAGE)
  {
    var msg := ErrorMessage(403, Unparsable(syntaxError));
    assert NumStr(403) == "403";
    assert OccursAt(msg, "403", |"HTTP error! status: "|);
  }

  /** The choice is made on the message text, not the status: a 403 whose body carries a
      string `detail` without a '4' in it is reported as bad credentials. */
  lemma ForbiddenWithDetail(b: string, e: Env, email: string, password: string, decode: string -> Result<Json>, detail: string)
    requires NextReply(e.replies) == Some(Response(403, Parsed(Obj([Field("detail", Str(detail))]))))
    requires '4' !in detail
    ensures LoginStep(b, e, email, password, decode).1 == Err(CREDENTIALS_MESSAGE)
  {
    assert ErrorMessage(403, Parsed(Obj([Field("detail", Str(detail))]))) == detail;
    WithoutFourNo403(detail);
  }

  /** A message without the digit 4 never mentions 403. */
  lemma WithoutFourNo403(s: string)
    requires '4' !in s
    ensures !Contains(s, "403")
  {
    forall i | 0 <= i <= |s| - 3
      ensures !OccursAt(s, "403", i)
    {
      assert s[i..i + 3][0] == s[i] != '4';
    }
  }

  /** A successful login stores the token, its type and the user record, and changes no other key. */
  lemma SuccessfulLoginStores(b: string, e: Env, email: string, password: string, decode: string -> Result<Json>, k: string)
    ensures var (e1, r) := LoginStep(b, e, email, password, decode);
      r.Ok? ==>
        ACCESS_TOKEN in e1.storage && TOKEN_TYPE in e1.storage && ADMIN_USER in e1.storage &&
        e1.entries == e.entries && e1.location == e.location &&
        (k != ACCESS_TOKEN && k != TOKEN_TYPE && k != ADMIN_USER ==>
          (k in e1.storage <==> k in e.storage) && (k in e.storage ==> e1.storage[k] == e.storage[k]))
  {
  }

  /** A payload that decodes to null makes `login` fail after the token has been stored: the
      session counts as authenticated although the call reported bad credentials. */
  lemma NullPayloadFailsAfterStoringToken(b: string, e: Env, email: string, password: string, decode: string -> Result<Json>, token: string)
    requires NextReply(e.replies) == Some(Response(200, Parsed(Obj([Field("access_token", Str(token))]))))
    requires token != "" && ParseJwt(Defined(Str(token)), decode) == Null
    ensures var (e1, r) := LoginStep(b, e, email, password, decode);
      r == Err(CREDENTIALS_MESSAGE) && IsAuthenticated(e1.storage) && e1.storage[TOKEN_TYPE] == "undefined"
  {
    WithoutFourNo403(CannotRead(Defined(Null), "id"));
  }

  /** The record a login stores reads back, through a `JSON.parse` that inverts `JSON.stringify`,
      as superuser exactly when the token payload's `is_superuser` is truthy. */
  lemma StoredRecordFlag(storage: map<string, string>, parse: string -> Result<Json>, email: string, payload: Json)
    requires !payload.Null?
    requires ADMIN_USER in storage && storage[ADMIN_USER] == Stringify(UserRecord(email, payload).value)
    requires parse(Stringify(UserRecord(email, payload).value)) == Ok(UserRecord(email, payload).value)
    ensures IsSuperuser(storage, parse).Ok?
    ensures JsonTruthy(IsSuperuser(storage, parse).value) <==> Truthy(OptionalMember(Defined(payload), "is_superuser"))
  {
    var flag := Or(OptionalMember(Defined(payload), "is_superuser"), Bool(false));
    var user := UserRecord(email, payload).value;
    assert user.fields[2] == Field("is_superuser", flag);
    assert FieldValue(user.fields, "is_superuser") == Defined(flag) by {
      assert user.fields[0].name != "is_superuser" by { assert "id"[1] != "is_superuser"[1]; }
      assert user.fields[1].name != "is_superuser" by { assert "email"[0] != "is_superuser"[0]; }
    }
    assert Stringify(user)[0] == '{';
    assert StoredUser(storage) == Some(Stringify(user));
  }

  /** The storage after a login whose response carries a token and whose payload yields a record. */
  lemma LoginStepStores(b: string, e: Env, email: string, password: string, decode: string -> Result<Json>, resp: Json, token: JsValue)
    requires Outcome(NextReply(e.replies)) == Ok(resp)
    requires Member(Defined(resp), "access_token") == Ok(token)
    requires UserRecord(email, ParseJwt(token, decode)).Ok?
    ensures var (e1, r) := LoginStep(b, e, email, password, decode);
      r == Ok(()) &&
      e1.storage == e.storage[ACCESS_TOKEN := ToText(token)][TOKEN_TYPE := ToText(OptionalMember(Defined(resp), "token_type"))]
                             [ADMIN_USER := Stringify(UserRecord(email, ParseJwt(token, decode)).value)]
  {
  }

  lemma SecondField(a: string, b: string, va: Json, vb: Json)
    requires |a| > 0 && |b| > 0 && a[0] != b[0]
    ensures FieldValue([Field(a, va), Field(b, vb)], b) == Defined(vb)
  {
    assert [Field(a, va), Field(b, vb)][1..] == [Field(b, vb)];
  }

  /** A 200 answer carrying a non-empty token logs in: the call succeeds and the session is
      authenticated with the token type the server sent. */
  lemma LoginThenAuthenticated(b: string, e: Env, email: string, password: string, decode: string -> Result<Json>,
                               token: string, tokenType: string)
    requires NextReply(e.replies) == Some(Response(200, Parsed(Obj([Field("access_token", Str(token)), Field("token_type", Str(tokenType))]))))
    requires token != "" && !ParseJwt(Defined(Str(token)), decode).Null?
    ensures var (e1, r) := LoginStep(b, e, email, password, decode);
      r == Ok(()) && IsAuthenticated(e1.storage) && e1.storage[TOKEN_TYPE] == tokenType
  {
    var resp := Obj([Field("access_token", Str(token)), Field("token_type", Str(tokenType))]);
    assert Outcome(NextReply(e.replies)) == Ok(resp);
    SecondField("access_token", "token_type", Str(token), Str(tokenType));
    LoginStepStores(b, e, email, password, decode, resp, Defined(Str(token)));
  }

  /** Login followed by the admin check: when `JSON.parse` reads the stored record back as
      `JSON.stringify` wrote it, the new session counts as superuser exactly when the token
      payload's `is_superuser` is truthy. */
  lemma LoginThenSuperuser(b: string, e: Env, email: string, password: string, decode: string -> Result<Json>,
                           parse: string -> Result<Json>, token: string, tokenType: string, payload: Json)
    requires NextReply(e.replies) == Some(Response(200, Parsed(Obj([Field("access_token", Str(token)), Field("token_type", Str(tokenType))]))))
    requires ParseJwt(Defined(Str(token)), decode) == payload && !payload.Null?
    requires parse(Stringify(UserRecord(email, payload).value)) == Ok(UserRecord(email, payload).value)
    ensures IsSuperuser(LoginStep(b, e, email, password, decode).0.storage, parse).Ok?
    ensures JsonTruthy(IsSuperuser(LoginStep(b, e, email, password, decode).0.storage, parse).value) <==>
      Truthy(OptionalMember(Defined(payload), "is_superuser"))
  {
    var st := LoginStep(b, e, email, password, decode).0.storage;
    LoginStoresRecord(b, e, email, password, decode, token, tokenType, payload);
    StoredRecordFlag(st, parse, email, payload);
  }

  /** A 200 answer carrying a token whose payload is not null stores the record built from it. */
  lemma LoginStoresRecord(b: string, e: Env, email: string, password: string, decode: string -> Result<Json>,
                          token: string, tokenType: string, payload: Json)
    requires NextReply(e.replies) == Some(Response(200, Parsed(Obj([Field("access_token", Str(token)), Field("token_type", Str(tokenType))]))))
    requires ParseJwt(Defined(Str(token)), decode) == payload && !payload.Null?
    ensures UserRecord(email, payload).Ok?
    ensures ADMIN_USER in LoginStep(b, e, email, password, decode).0.storage
    ensures LoginStep(b, e, email, password, decode).0.storage[ADMIN_USER] == Stringify(UserRecord(email, payload).value)
  {
    var resp := Obj([Field("access_token", Str(token)), Field("token_type", Str(tokenType))]);
    assert Outcome(NextReply(e.replies)) == Ok(resp);
    LoginStepStores(b, e, email, password, decode, resp, Defined(Str(token)));
  }

  /** Login followed by `getCurrentUser()`: when `JSON.parse` reads the stored record back as
      `JSON.stringify` wrote it, the current user is the record built from the email and the
      token payload, so its `email` is the one logged in with. */
  lemma LoginThenCurrentUser(b: string, e: Env, email: string, password: string, decode: string -> Result<Json>,
                             parse: string -> Result<Json>, token: string, tokenType: string, payload: Json)
    requires NextReply(e.replies) == Some(Response(200, Parsed(Obj([Field("access_token", Str(token)), Field("token_type", Str(tokenType))]))))
    requires ParseJwt(Defined(Str(token)), decode) == payload && !payload.Null?
    requires parse(Stringify(UserRecord(email, payload).value)) == Ok(UserRecord(email, payload).value)
    ensures CurrentUser(LoginStep(b, e, email, password, decode).0.storage, parse) == UserRecord(email, payload)
    ensures UserRecord(email, payload).Ok? && FieldValue(UserRecord(email, payload).value.fields, "email") == Defined(Str(email))
  {
    var st := LoginStep(b, e, email, password, decode).0.storage;
    LoginStoresRecord(b, e, email, password, decode, token, tokenType, payload);
    StoredRecordReadsBack(st, parse, email, payload);
    RecordEmail(email, payload);
  }

  /** The record a login stores reads back, through a `JSON.parse` that inverts `JSON.stringify`,
      as that record. */
  lemma StoredRecordReadsBack(storage: map<string, string>, parse: string -> Result<Json>, email: string, payload: Json)
    requires !payload.Null?
    requires ADMIN_USER in storage && storage[ADMIN_USER] == Stringify(UserRecord(email, payload).value)
    requires parse(Stringify(UserRecord(email, payload).value)) == Ok(UserRecord(email, payload).value)
    ensures CurrentUser(storage, parse) == UserRecord(email, payload)
  {
    var user := UserRecord(email, payload).value;
    assert Stringify(user)[0] == '{';
    assert StoredUser(storage) == Some(Stringify(user));
  }

  /** The record built at login carries the email it was built with. */
  lemma RecordEmail(email: string, payload: Json)
    requires !payload.Null?
    ensures UserRecord(email, payload).Ok? && FieldValue(UserRecord(email, payload).value.fields, "email") == Defined(Str(email))
  {
    var user := UserRecord(email, payload).value;
    assert user.fields[0].name != "email" by { assert "id"[0] != "email"[0]; }
    assert user.fields[1] == Field("email", Str(email));
  }
}
