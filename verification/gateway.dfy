/** The HTTP client core shared by both API facades: building the request
    (URL, merged headers, serialised body), classifying the response into a value
    or an error, tearing the session down on 401, the cache key of a parameterised
    read, and the two cache disciplines built on `request` — read-through for
    getters and invalidate-after-success for writes.

    Every operation is described twice: as a pure step function from one snapshot
    of the world (`Env`) to the next together with the outcome, and as a method of
    `BaseApi` that performs the same steps on the shared `Cache` and `Window`
    objects and promises to agree with the step function. */
module Gateway {
  import opened Wrappers
  import opened Js
  import opened TtlCache
  import opened Browser

  const ACCESS_TOKEN := "access_token"
  const TOKEN_TYPE := "token_type"
  const DEFAULT_TOKEN_TYPE := "bearer"
  const AUTHORIZATION := "Authorization"
  const CONTENT_TYPE := "Content-Type"
  const JSON_MEDIA_TYPE := "application/json"
  const LOGIN_PAGE := "/login"

  /** The base URL of the current client: "/api" in a production build, otherwise
      the configured VITE_APP_API_URL, or "" when that is unset or empty. */
  function BaseUrl(production: bool, configured: Option<string>): string {
    if production then "/api" else if configured.Some? then configured.value else ""
  }

  // ---------------------------------------------------------------------------
  // Building the request

  /** What a caller hands to `request` besides the endpoint: the HTTP method
      (GET when the caller names none), extra headers and a body. */
  datatype RequestInit = RequestInit(verb: string, headers: map<string, string>, body: Body)

  const GET := RequestInit("GET", map[], NoBody)

  /** The scheme word of the Authorization header: the stored `token_type`, or "bearer". */
  function TokenType(storage: map<string, string>): string {
    if TOKEN_TYPE in storage && storage[TOKEN_TYPE] != "" then storage[TOKEN_TYPE] else DEFAULT_TOKEN_TYPE
  }

  /** `getAuthHeaders()`: an Authorization header exactly when a non-empty access token is stored. */
  function AuthHeaders(storage: map<string, string>): (h: map<string, string>)
    ensures h.Keys <= {AUTHORIZATION}
    ensures AUTHORIZATION in h <==> ACCESS_TOKEN in storage && storage[ACCESS_TOKEN] != ""
    ensures AUTHORIZATION in h ==>
      h[AUTHORIZATION] == (if TOKEN_TYPE in storage && storage[TOKEN_TYPE] != "" then storage[TOKEN_TYPE] else "bearer")
                          + " " + storage[ACCESS_TOKEN]
  {
    if ACCESS_TOKEN in storage && storage[ACCESS_TOKEN] != "" then
      map[AUTHORIZATION := TokenType(storage) + " " + storage[ACCESS_TOKEN]]
    else map[]
  }

  /** The headers `request` sends: a JSON Content-Type, overridden by the auth headers,
      overridden by the caller's own. */
  function MergeHeaders(auth: map<string, string>, caller: map<string, string>): map<string, string> {
    map[CONTENT_TYPE := JSON_MEDIA_TYPE] + auth + caller
  }

  /** Only a truthy body of type object (an object or an array) is replaced by its JSON text.
      Any other value goes to `fetch` as it is: `null` is no body, and a string, number or
      boolean is sent as its `String()` text. Text and form data go out unchanged. */
  function SerializeBody(body: Body): Body {
    if !body.Object? then body
    else if body.json.Obj? || body.json.Arr? then Text(Stringify(body.json))
    else if body.json.Null? then NoBody
    else Text(JsonText(body.json))
  }

  /** The request `request(endpoint, init)` hands to `fetch` when `storage` is the current localStorage. */
  function Outgoing(baseUrl: string, endpoint: string, init: RequestInit, storage: map<string, string>): HttpRequest {
    HttpRequest(baseUrl + endpoint, init.verb, MergeHeaders(AuthHeaders(storage), init.headers), SerializeBody(init.body))
  }

  /** `buildCacheKey(prefix, params)` */
  function BuildCacheKey(prefix: string, params: JsValue): (key: string)
    ensures StartsWith(key, prefix)
    ensures key == prefix <==> !Truthy(params)
    ensures Truthy(params) ==> key == prefix + ":" + Stringify(params.json)
  {
    if !Truthy(params) then prefix else prefix + ":" + Stringify(params.json)
  }

  // ---------------------------------------------------------------------------
  // Classifying the response

  /** The message of the error thrown for a response that is not ok: the `detail`
      field of the parsed body when it is a string, its JSON text otherwise, the
      status line when the body cannot be read. */
  function ErrorMessage(status: int, payload: Payload): string {
    var fallback := "HTTP error! status: " + NumStr(status);
    match payload
    case Unparsable(_) => fallback
    case Parsed(data) =>
      if data.Null? then
        // reading `.detail` of null throws inside the try block, which keeps the fallback
        fallback
      else
        var detail := OptionalMember(Defined(data), "detail");
        if detail.Defined? && detail.json.Str? then detail.json.s
        else
          match StringifyValue(detail)
          case Some(text) => text
          // JSON.stringify(undefined) is undefined, and `new Error(undefined)` has the empty message
          case None => ""
  }

  /** `await response.json()` */
  function Parse(payload: Payload): Result<Json> {
    match payload
    case Parsed(j) => Ok(j)
    case Unparsable(syntaxError) => Err(syntaxError)
  }

  /** How `request` settles once `fetch` has settled with `reply`. */
  function Outcome(reply: Option<Response>): Result<Json> {
    match reply
    case None => Err(FAILED_TO_FETCH)
    case Some(response) =>
      if !IsOk(response.status) then Err(ErrorMessage(response.status, response.payload))
      else if response.status == 204 then Ok(Obj([]))
      else Parse(response.payload)
  }

  /** How the facades' direct `fetch` calls (image upload and deletion) settle: the
      same error message, but no special case for 204. */
  function RawOutcome(reply: Option<Response>): Result<Json> {
    match reply
    case None => Err(FAILED_TO_FETCH)
    case Some(response) =>
      if !IsOk(response.status) then Err(ErrorMessage(response.status, response.payload))
      else Parse(response.payload)
  }

  predicate Unauthorized(reply: Option<Response>) {
    reply.Some? && reply.value.status == 401
  }

  // ---------------------------------------------------------------------------
  // Step functions over a snapshot of the world

  /** The cache contents, localStorage, the last redirect, the clock, the requests
      sent so far and the answers still to come. */
  datatype Env = Env(
    entries: Store,
    storage: map<string, string>,
    location: Option<string>,
    now: int,
    sent: seq<HttpRequest>,
    replies: seq<Option<Response>>)

  function FetchStep(e: Env, req: HttpRequest): (Env, Option<Response>) {
    (e.(sent := e.sent + [req], replies := LaterReplies(e.replies)), NextReply(e.replies))
  }

  /** The teardown on 401: both token keys removed, the whole cache cleared, a redirect to the login page. */
  function TearDown(e: Env): Env {
    e.(storage := e.storage - {ACCESS_TOKEN, TOKEN_TYPE}, entries := map[], location := Some(LOGIN_PAGE))
  }

  /** `request(endpoint, init)` */
  function RequestStep(baseUrl: string, e: Env, endpoint: string, init: RequestInit): (Env, Result<Json>) {
    var (e1, reply) := FetchStep(e, Outgoing(baseUrl, endpoint, init, e.storage));
    (if Unauthorized(reply) then TearDown(e1) else e1, Outcome(reply))
  }

  /** Whether `cache.get(key)` yields a value the getters return (`if (cached) return cached`). */
  predicate Hit(m: Store, key: string, now: int) {
    var cached := Lookup(m, key, now);
    cached.Some? && JsonTruthy(cached.value)
  }

  /** A caching getter: serve a truthy cached value, or request the endpoint and store what it returns. */
  function ReadThroughStep(baseUrl: string, e: Env, key: string, endpoint: string, ttl: int): (Env, Result<Json>) {
    var e1 := e.(entries := AfterGet(e.entries, key, e.now));
    if Hit(e.entries, key, e.now) then (e1, Ok(Lookup(e.entries, key, e.now).value))
    else
      var (e2, r) := RequestStep(baseUrl, e1, endpoint, GET);
      if r.Err? then (e2, r) else (e2.(entries := Put(e2.entries, key, r.value, ttl, e2.now)), r)
  }

  /** The keys every excursion write removes: those under the prefixes "excursions" and
      "excursion_full", and the given per-excursion keys. */
  function InvalidateStore(m: Store, dropped: set<string>): Store {
    WithoutPrefix(WithoutPrefix(m, "excursions"), "excursion_full") - dropped
  }

  /** A write: the request, then the invalidation, only when the request succeeded. */
  function WriteStep(baseUrl: string, e: Env, endpoint: string, init: RequestInit, dropped: set<string>): (Env, Result<Json>) {
    var (e1, r) := RequestStep(baseUrl, e, endpoint, init);
    if r.Err? then (e1, r) else (e1.(entries := InvalidateStore(e1.entries, dropped)), r)
  }

  /** A direct `fetch` with only the auth headers, as the image upload and delete calls make. */
  function RawFetchStep(baseUrl: string, e: Env, endpoint: string, verb: string, body: Body): (Env, Result<Json>) {
    var (e1, reply) := FetchStep(e, HttpRequest(baseUrl + endpoint, verb, AuthHeaders(e.storage), body));
    (e1, RawOutcome(reply))
  }

  // ---------------------------------------------------------------------------
  // The client object

  /** A client bound to a base URL, the shared cache and the browser window. */
  class BaseApi {
    const baseUrl: string
    const cache: Cache
    const window: Window

    constructor(baseUrl: string, cache: Cache, window: Window)
      ensures this.baseUrl == baseUrl && this.cache == cache && this.window == window
    {
      this.baseUrl := baseUrl;
      this.cache := cache;
      this.window := window;
    }

    function State(): Env
      reads cache, window
    {
      Env(cache.entries, window.storage, window.location, window.now, window.sent, window.replies)
    }

    /** `request<T>(endpoint, options)` */
    method Request(endpoint: string, init: RequestInit) returns (r: Result<Json>)
      modifies cache, window
      ensures (State(), r) == RequestStep(baseUrl, old(State()), endpoint, init)
    {
      var url := baseUrl + endpoint;
      var headers := MergeHeaders(AuthHeaders(window.storage), init.headers);
      var body := init.body;
      if body.Object? && (body.json.Obj? || body.json.Arr?) {
        body := Text(Stringify(body.json));
      } else if body.Object? {
        body := if body.json.Null? then NoBody else Text(JsonText(body.json));
      }
      var reply := window.Fetch(HttpRequest(url, init.verb, headers, body));
      if reply.None? {
        return Err(FAILED_TO_FETCH);
      }
      var response := reply.value;
      if !IsOk(response.status) {
        if response.status == 401 {
          window.RemoveItem(ACCESS_TOKEN);
          window.RemoveItem(TOKEN_TYPE);
          cache.ClearAll();
          window.Navigate(LOGIN_PAGE);
          assert window.storage == old(window.storage) - {ACCESS_TOKEN, TOKEN_TYPE};
        }
        return Err(ErrorMessage(response.status, response.payload));
      }
      if response.status == 204 {
        return Ok(Obj([]));
      }
      r := Parse(response.payload);
    }

    /** The body every caching getter shares: `cache.get`, then on a miss `request` and `cache.set`. */
    method ReadThrough(key: string, endpoint: string, ttl: int) returns (r: Result<Json>)
      modifies cache, window
      ensures (State(), r) == ReadThroughStep(baseUrl, old(State()), key, endpoint, ttl)
    {
      var cached := cache.Get(key, window.now);
      if cached.Some? && JsonTruthy(cached.value) {
        return Ok(cached.value);
      }
      r := Request(endpoint, GET);
      if r.Ok? {
        cache.Set(key, r.value, window.now, ttl);
      }
    }

    /** A direct `fetch(baseUrl + endpoint, {method, headers: getAuthHeaders(), body})` and the
        facades' handling of its response. */
    method RawFetch(endpoint: string, verb: string, body: Body) returns (r: Result<Json>)
      modifies window
      ensures (State(), r) == RawFetchStep(baseUrl, old(State()), endpoint, verb, body)
    {
      var reply := window.Fetch(HttpRequest(baseUrl + endpoint, verb, AuthHeaders(window.storage), body));
      if reply.None? {
        return Err(FAILED_TO_FETCH);
      }
      var response := reply.value;
      if !IsOk(response.status) {
        return Err(ErrorMessage(response.status, response.payload));
      }
      r := Parse(response.payload);
    }
  }

  // ---------------------------------------------------------------------------
  // Properties of the request pipeline

  /** Later header sources override earlier ones, and the JSON Content-Type is always sent
      unless the caller overrides it, form bodies included. */
  lemma HeaderPrecedence(auth: map<string, string>, caller: map<string, string>, name: string)
    ensures CONTENT_TYPE in MergeHeaders(auth, caller)
    ensures name in MergeHeaders(auth, caller) <==> name == CONTENT_TYPE || name in auth || name in caller
    ensures name in caller ==> MergeHeaders(auth, caller)[name] == caller[name]
    ensures name !in caller && name in auth ==> MergeHeaders(auth, caller)[name] == auth[name]
    ensures CONTENT_TYPE !in caller && CONTENT_TYPE !in auth ==> MergeHeaders(auth, caller)[CONTENT_TYPE] == JSON_MEDIA_TYPE
  {
  }

  /** The outgoing request: base URL then endpoint, the caller's method, a string or
      form body unchanged, an object or array body as its JSON text, a null body dropped,
      a string value sent as it is, and — since the auth headers
      never name Content-Type — a JSON Content-Type unless the caller gives one. */
  lemma OutgoingRequest(baseUrl: string, endpoint: string, init: RequestInit, storage: map<string, string>)
    ensures Outgoing(baseUrl, endpoint, init, storage).url == baseUrl + endpoint
    ensures Outgoing(baseUrl, endpoint, init, storage).verb == init.verb
    ensures init.body.Text? || init.body.Form? || init.body.NoBody? ==> Outgoing(baseUrl, endpoint, init, storage).body == init.body
    ensures init.body.Object? && (init.body.json.Obj? || init.body.json.Arr?) ==>
      Outgoing(baseUrl, endpoint, init, storage).body == Text(Stringify(init.body.json))
    ensures init.body == Object(Null) ==> Outgoing(baseUrl, endpoint, init, storage).body == NoBody
    ensures init.body.Object? && init.body.json.Str? ==> Outgoing(baseUrl, endpoint, init, storage).body == Text(init.body.json.s)
    ensures CONTENT_TYPE !in init.headers ==> Outgoing(baseUrl, endpoint, init, storage).headers[CONTENT_TYPE] == JSON_MEDIA_TYPE
  {
  }

  /** How a response that is not ok is described: the status line exactly when the
      body does not parse (or parses to null), the `detail` string as it is, any other
      `detail` as JSON text, and the empty message when there is no `detail` at all. */
  lemma ErrorMessageCases(status: int, payload: Payload)
    ensures payload.Unparsable? || payload.json.Null? ==> ErrorMessage(status, payload) == "HTTP error! status: " + NumStr(status)
    ensures payload.Parsed? && payload.json.Obj? ==>
      var detail := FieldValue(payload.json.fields, "detail");
      (detail.Defined? && detail.json.Str? ==> ErrorMessage(status, payload) == detail.json.s) &&
      (detail.Defined? && !detail.json.Str? ==> ErrorMessage(status, payload) == Stringify(detail.json)) &&
      (detail.Undefined? ==> ErrorMessage(status, payload) == "")
    ensures payload.Parsed? && !payload.json.Null? && !payload.json.Obj? ==> ErrorMessage(status, payload) == ""
  {
  }

  /** `request` succeeds exactly for a 2xx answer whose body parses or whose status is 204;
      204 yields the empty object and any other success the parsed body. */
  lemma OutcomeCases(reply: Option<Response>)
    ensures Outcome(reply).Ok? <==>
      reply.Some? && IsOk(reply.value.status) && (reply.value.status == 204 || reply.value.payload.Parsed?)
    ensures reply.Some? && reply.value.status == 204 ==> Outcome(reply) == Ok(Obj([]))
    ensures reply.Some? && IsOk(reply.value.status) && reply.value.status != 204 && reply.value.payload.Parsed? ==>
      Outcome(reply) == Ok(reply.value.payload.json)
    ensures reply.None? ==> Outcome(reply) == Err(FAILED_TO_FETCH)
    ensures reply.Some? && !IsOk(reply.value.status) ==>
      Outcome(reply) == Err(ErrorMessage(reply.value.status, reply.value.payload))
  {
  }

  /** Every `request` sends exactly the one outgoing request and consumes one answer; time does not move. */
  lemma RequestSendsOne(baseUrl: string, e: Env, endpoint: string, init: RequestInit)
    ensures RequestStep(baseUrl, e, endpoint, init).0.sent == e.sent + [Outgoing(baseUrl, endpoint, init, e.storage)]
    ensures RequestStep(baseUrl, e, endpoint, init).0.replies == LaterReplies(e.replies)
    ensures RequestStep(baseUrl, e, endpoint, init).0.now == e.now
  {
  }

  /** A 401 answer removes both token keys, empties the whole cache and redirects to
      the login page, and the call still fails. */
  lemma UnauthorizedTearsDown(baseUrl: string, e: Env, endpoint: string, init: RequestInit, payload: Payload)
    requires NextReply(e.replies) == Some(Response(401, payload))
    ensures RequestStep(baseUrl, e, endpoint, init).1 == Err(ErrorMessage(401, payload))
    ensures RequestStep(baseUrl, e, endpoint, init).0.storage == e.storage - {ACCESS_TOKEN, TOKEN_TYPE}
    ensures RequestStep(baseUrl, e, endpoint, init).0.entries == map[]
    ensures RequestStep(baseUrl, e, endpoint, init).0.location == Some(LOGIN_PAGE)
  {
  }

  /** Every other answer, and a failed fetch, leave the cache, localStorage and the location as they were. */
  lemma OnlyUnauthorizedTouchesSession(baseUrl: string, e: Env, endpoint: string, init: RequestInit)
    requires !Unauthorized(NextReply(e.replies))
    ensures RequestStep(baseUrl, e, endpoint, init).0.entries == e.entries
    ensures RequestStep(baseUrl, e, endpoint, init).0.storage == e.storage
    ensures RequestStep(baseUrl, e, endpoint, init).0.location == e.location
  {
  }

  /** Any successful `request` leaves the session and the cache untouched. */
  lemma SuccessTouchesNothing(baseUrl: string, e: Env, endpoint: string, init: RequestInit)
    requires RequestStep(baseUrl, e, endpoint, init).1.Ok?
    ensures RequestStep(baseUrl, e, endpoint, init).0 == FetchStep(e, Outgoing(baseUrl, endpoint, init, e.storage)).0
  {
  }

  /** A read whose key holds a truthy live value returns it, sends nothing and changes nothing. */
  lemma HitMakesNoRequest(baseUrl: string, e: Env, key: string, endpoint: string, ttl: int)
    requires Hit(e.entries, key, e.now)
    ensures ReadThroughStep(baseUrl, e, key, endpoint, ttl) == (e, Ok(e.entries[key].data))
  {
    assert AfterGet(e.entries, key, e.now) == e.entries;
  }

  /** A read without such a value sends one GET to the endpoint; on success it stores the
      result under the key with the given lifetime, on failure it stores nothing. */
  lemma MissMakesOneRequest(baseUrl: string, e: Env, key: string, endpoint: string, ttl: int)
    requires !Hit(e.entries, key, e.now)
    ensures ReadThroughStep(baseUrl, e, key, endpoint, ttl).0.sent == e.sent + [Outgoing(baseUrl, endpoint, GET, e.storage)]
    ensures ReadThroughStep(baseUrl, e, key, endpoint, ttl).1 == Outcome(NextReply(e.replies))
    ensures ReadThroughStep(baseUrl, e, key, endpoint, ttl).1.Ok? ==>
      ReadThroughStep(baseUrl, e, key, endpoint, ttl).0.entries
        == Put(AfterGet(e.entries, key, e.now), key, ReadThroughStep(baseUrl, e, key, endpoint, ttl).1.value, ttl, e.now)
    ensures ReadThroughStep(baseUrl, e, key, endpoint, ttl).1.Err? && !Unauthorized(NextReply(e.replies)) ==>
      ReadThroughStep(baseUrl, e, key, endpoint, ttl).0.entries == AfterGet(e.entries, key, e.now)
  {
  }

  /** After a read that had to ask the server and got a truthy value, the same read
      at any instant up to the lifetime's end is served from the cache without a request. */
  lemma {:induction false} SecondReadServedFromCache(baseUrl: string, e: Env, key: string, endpoint: string, ttl: int, t: int)
    requires !Hit(e.entries, key, e.now)
    requires ReadThroughStep(baseUrl, e, key, endpoint, ttl).1.Ok?
    requires JsonTruthy(ReadThroughStep(baseUrl, e, key, endpoint, ttl).1.value)
    requires e.now <= t <= e.now + ttl
    ensures var (e1, r1) := ReadThroughStep(baseUrl, e, key, endpoint, ttl);
      ReadThroughStep(baseUrl, e1.(now := t), key, endpoint, ttl) == (e1.(now := t), r1)
  {
    var (e1, r1) := ReadThroughStep(baseUrl, e, key, endpoint, ttl);
    MissMakesOneRequest(baseUrl, e, key, endpoint, ttl);
    assert e1.entries[key] == Entry(r1.value, e.now + ttl);
    HitMakesNoRequest(baseUrl, e1.(now := t), key, endpoint, ttl);
  }

  /** Invalidation removes exactly the keys under "excursions" or "excursion_full" and the
      dropped keys; every other entry keeps its value and expiry. */
  lemma InvalidateExact(m: Store, dropped: set<string>, k: string)
    ensures k in InvalidateStore(m, dropped) <==>
      k in m && !StartsWith(k, "excursions") && !StartsWith(k, "excursion_full") && k !in dropped
    ensures k in InvalidateStore(m, dropped) ==> InvalidateStore(m, dropped)[k] == m[k]
  {
  }

  /** A failed write leaves everything as `request` left it; a successful one sent the
      request without touching the cache and then invalidated. */
  lemma WriteInvalidatesOnlyAfterSuccess(baseUrl: string, e: Env, endpoint: string, init: RequestInit, dropped: set<string>)
    ensures RequestStep(baseUrl, e, endpoint, init).1.Err? ==>
      WriteStep(baseUrl, e, endpoint, init, dropped) == RequestStep(baseUrl, e, endpoint, init)
    ensures RequestStep(baseUrl, e, endpoint, init).1.Ok? ==>
      WriteStep(baseUrl, e, endpoint, init, dropped).0.entries == InvalidateStore(e.entries, dropped) &&
      WriteStep(baseUrl, e, endpoint, init, dropped).0.storage == e.storage
  {
  }

  /** The direct `fetch` calls never tear the session down and never send Content-Type,
      and they classify an answer like `request` except that a 204 is parsed like any
      other success. */
  lemma RawFetchDiffersFromRequest(baseUrl: string, e: Env, endpoint: string, verb: string, body: Body)
    ensures var (e1, r) := RawFetchStep(baseUrl, e, endpoint, verb, body);
      e1 == e.(sent := e1.sent, replies := e1.replies) &&
      CONTENT_TYPE !in e1.sent[|e.sent|].headers &&
      (NextReply(e.replies).None? || NextReply(e.replies).value.status != 204 ==> r == Outcome(NextReply(e.replies))) &&
      (NextReply(e.replies).Some? && NextReply(e.replies).value.status == 204 ==> r == Parse(NextReply(e.replies).value.payload))
  {
  }

  /** The parameters object is serialised in its own field order, so the same filter
      written in two orders is cached under two keys. */
  lemma FieldOrderChangesKey()
    ensures BuildCacheKey("excursions", Defined(Obj([Field("a", Num(1)), Field("b", Num(2))])))
         != BuildCacheKey("excursions", Defined(Obj([Field("b", Num(2)), Field("a", Num(1))])))
  {
    var k1 := BuildCacheKey("excursions", Defined(Obj([Field("a", Num(1)), Field("b", Num(2))])));
    var k2 := BuildCacheKey("excursions", Defined(Obj([Field("b", Num(2)), Field("a", Num(1))])));
    assert k1[|"excursions:{\""|] == 'a';
    assert k2[|"excursions:{\""|] == 'b';
  }
}
