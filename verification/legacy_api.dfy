/** The older all-in-one client (`api`), still used by the session helpers: the same
    request pipeline against its own base URL, the same caching getters and writes,
    plus login, registration, the current user, the inclusions, itinerary and
    requirements getters, a standalone image upload and manual cache clearing. Its
    invalidation deletes a different set of per-excursion keys. */
module LegacyApi {
  import opened Wrappers
  import opened Js
  import opened TtlCache
  import opened Browser
  import opened Gateway
  import opened Excursions

  /** The development server this client talks to outside a production build. */
  const DEV_BASE_URL := "http://192.168.0.108:8000"

  function LegacyBaseUrl(production: bool): string {
    if production then "/api" else DEV_BASE_URL
  }

  /** The filters of `getExcursions`, in the order they are appended. */
  const EXCURSION_FILTERS: seq<string> := ["category", "min_price", "max_price", "skip", "limit"]

  /** The per-excursion keys this client's `invalidateExcursionCache(id)` deletes besides the two prefixes. */
  function LegacyKeys(id: JsValue): set<string> {
    if Truthy(id) then
      {IdKey("excursion", id), IdKey("excursion_details", id), IdKey("excursion_inclusions", id),
       IdKey("excursion_itinerary", id), IdKey("excursion_requirements", id)}
    else {}
  }

  /** `checkAdminAccess()`: the current user's `is_superuser`, or false when anything fails. */
  function CheckAdminStep(b: string, e: Env): (Env, JsValue) {
    var (e1, user) := RequestStep(b, e, "/users/me", RequestInit("GET", AuthHeaders(e.storage), NoBody));
    if user.Err? then (e1, Defined(Bool(false)))
    else
      match Member(Defined(user.value), "is_superuser")
      case Err(_) => (e1, Defined(Bool(false)))
      case Ok(flag) => (e1, flag)
  }

  class Api {
    const base: BaseApi

    constructor(base: BaseApi)
      ensures this.base == base
    {
      this.base := base;
    }

    function State(): Env
      reads base.cache, base.window
    {
      base.State()
    }

    /** `invalidateExcursionCache(excursionId?)` */
    method Invalidate(id: JsValue)
      modifies base.cache
      ensures base.cache.entries == InvalidateStore(old(base.cache.entries), LegacyKeys(id))
    {
      base.cache.ClearByPrefix("excursions");
      base.cache.ClearByPrefix("excursion_full");
      if Truthy(id) {
        ghost var cleared := base.cache.entries;
        base.cache.Delete(IdKey("excursion", id));
        base.cache.Delete(IdKey("excursion_details", id));
        base.cache.Delete(IdKey("excursion_inclusions", id));
        base.cache.Delete(IdKey("excursion_itinerary", id));
        base.cache.Delete(IdKey("excursion_requirements", id));
        DeletesAccumulate(cleared, IdKey("excursion", id), IdKey("excursion_details", id), IdKey("excursion_inclusions", id),
                          IdKey("excursion_itinerary", id), IdKey("excursion_requirements", id));
      }
    }

    method Login(loginData: Json) returns (r: Result<Json>)
      modifies base.cache, base.window
      ensures (State(), r) == RequestStep(base.baseUrl, old(State()), "/login", RequestInit("POST", map[], Text(Stringify(loginData))))
    {
      r := base.Request("/login", RequestInit("POST", map[], Text(Stringify(loginData))));
    }

    method GetCurrentUser() returns (r: Result<Json>)
      modifies base.cache, base.window
      ensures (State(), r) == RequestStep(base.baseUrl, old(State()), "/users/me", RequestInit("GET", AuthHeaders(old(State()).storage), NoBody))
    {
      r := base.Request("/users/me", RequestInit("GET", AuthHeaders(base.window.storage), NoBody));
    }

    method Register(userData: Json) returns (r: Result<Json>)
      modifies base.cache, base.window
      ensures (State(), r) == RequestStep(base.baseUrl, old(State()), "/register", RequestInit("POST", map[], Text(Stringify(userData))))
    {
      r := base.Request("/register", RequestInit("POST", map[], Text(Stringify(userData))));
    }

    method GetExcursions(params: JsValue) returns (r: Result<Json>)
      modifies base.cache, base.window
      ensures (State(), r) == ReadThroughStep(base.baseUrl, old(State()), BuildCacheKey("excursions", params),
                                              ListEndpoint("/excursions", params, EXCURSION_FILTERS), LIST_TTL)
    {
      r := base.ReadThrough(BuildCacheKey("excursions", params), ListEndpoint("/excursions", params, EXCURSION_FILTERS), LIST_TTL);
    }

    method GetExcursion(id: JsValue) returns (r: Result<Json>)
      modifies base.cache, base.window
      ensures (State(), r) == ReadThroughStep(base.baseUrl, old(State()), IdKey("excursion", id), ExcursionPath(id), DEFAULT_TTL)
    {
      r := base.ReadThrough(IdKey("excursion", id), ExcursionPath(id), DEFAULT_TTL);
    }

    method CreateExcursion(excursion: Json) returns (r: Result<Json>)
      modifies base.cache, base.window
      ensures (State(), r) == WriteStep(base.baseUrl, old(State()), "/excursions",
                                        ActionInit("POST", old(State()).storage, Text(Stringify(excursion))), LegacyKeys(Undefined))
    {
      r := base.Request("/excursions", ActionInit("POST", base.window.storage, Text(Stringify(excursion))));
      if r.Ok? {
        Invalidate(Undefined);
      }
    }

    method UpdateExcursion(id: JsValue, excursion: Json) returns (r: Result<Json>)
      modifies base.cache, base.window
      ensures (State(), r) == WriteStep(base.baseUrl, old(State()), ExcursionPath(id),
                                        ActionInit("PUT", old(State()).storage, Text(Stringify(excursion))), LegacyKeys(id))
    {
      r := base.Request(ExcursionPath(id), ActionInit("PUT", base.window.storage, Text(Stringify(excursion))));
      if r.Ok? {
        Invalidate(id);
      }
    }

    method DeleteExcursion(id: JsValue) returns (r: Result<()>)
      modifies base.cache, base.window
      ensures var (e1, out) := WriteStep(base.baseUrl, old(State()), ExcursionPath(id), ActionInit("DELETE", old(State()).storage, NoBody), LegacyKeys(id));
        State() == e1 && r == Done(out)
    {
      var out := base.Request(ExcursionPath(id), ActionInit("DELETE", base.window.storage, NoBody));
      if out.Ok? {
        Invalidate(id);
      }
      r := Done(out);
    }

    method GetExcursionsByCategory(category: string) returns (r: Result<Json>)
      modifies base.cache, base.window
      ensures (State(), r) == ReadThroughStep(base.baseUrl, old(State()), "excursions_category:" + category,
                                              "/excursions/category/" + category, LIST_TTL)
    {
      r := base.ReadThrough("excursions_category:" + category, "/excursions/category/" + category, LIST_TTL);
    }

    method SearchExcursions(query: string) returns (r: Result<Json>)
      modifies base.cache, base.window
      ensures (State(), r) == ReadThroughStep(base.baseUrl, old(State()), "excursions_search:" + query,
                                              "/excursions/search/?q=" + EncodeUriComponent(query), LIST_TTL)
    {
      r := base.ReadThrough("excursions_search:" + query, "/excursions/search/?q=" + EncodeUriComponent(query), LIST_TTL);
    }

    method ToggleExcursionActive(id: JsValue) returns (r: Result<Json>)
      modifies base.cache, base.window
      ensures (State(), r) == WriteStep(base.baseUrl, old(State()), ExcursionPath(id) + "/toggle-active",
                                        ActionInit("PATCH", old(State()).storage, NoBody), LegacyKeys(id))
    {
      r := base.Request(ExcursionPath(id) + "/toggle-active", ActionInit("PATCH", base.window.storage, NoBody));
      if r.Ok? {
        Invalidate(id);
      }
    }

    method AddPeopleToExcursion(id: JsValue, peopleCount: int) returns (r: Result<Json>)
      modifies base.cache, base.window
      ensures (State(), r) == WriteStep(base.baseUrl, old(State()), ExcursionPath(id) + "/add_people?people_count=" + NumStr(peopleCount),
                                        ActionInit("PATCH", old(State()).storage, NoBody), LegacyKeys(id))
    {
      var endpoint := ExcursionPath(id) + "/add_people?people_count=" + NumStr(peopleCount);
      r := base.Request(endpoint, ActionInit("PATCH", base.window.storage, NoBody));
      if r.Ok? {
        Invalidate(id);
      }
    }

    /** This client's full view is a plain caching getter, without the image fallback. */
    method GetExcursionFull(id: JsValue) returns (r: Result<Json>)
      modifies base.cache, base.window
      ensures (State(), r) == ReadThroughStep(base.baseUrl, old(State()), IdKey("excursion_full", id), ExcursionPath(id) + "/full", DEFAULT_TTL)
    {
      r := base.ReadThrough(IdKey("excursion_full", id), ExcursionPath(id) + "/full", DEFAULT_TTL);
    }

    method GetExcursionDetails(id: JsValue) returns (r: Result<Json>)
      modifies base.cache, base.window
      ensures (State(), r) == ReadThroughStep(base.baseUrl, old(State()), IdKey("excursion_details", id), DetailsPath(id), DEFAULT_TTL)
    {
      r := base.ReadThrough(IdKey("excursion_details", id), DetailsPath(id), DEFAULT_TTL);
    }

    method CreateExcursionDetails(id: JsValue, details: Json) returns (r: Result<Json>)
      modifies base.cache, base.window
      ensures (State(), r) == WriteStep(base.baseUrl, old(State()), DetailsPath(id),
                                        ActionInit("POST", old(State()).storage, Text(Stringify(details))), LegacyKeys(id))
    {
      r := base.Request(DetailsPath(id), ActionInit("POST", base.window.storage, Text(Stringify(details))));
      if r.Ok? {
        Invalidate(id);
      }
    }

    method UpdateExcursionDetails(id: JsValue, details: Json) returns (r: Result<Json>)
      modifies base.cache, base.window
      ensures (State(), r) == WriteStep(base.baseUrl, old(State()), DetailsPath(id),
                                        ActionInit("PUT", old(State()).storage, Text(Stringify(details))), LegacyKeys(id))
    {
      r := base.Request(DetailsPath(id), ActionInit("PUT", base.window.storage, Text(Stringify(details))));
      if r.Ok? {
        Invalidate(id);
      }
    }

    method CreateOrUpdateExcursionDetails(id: JsValue, details: Json) returns (r: Result<Json>)
      modifies base.cache, base.window
      ensures (State(), r) == WriteStep(base.baseUrl, old(State()), DetailsPath(id),
                                        ActionInit("PATCH", old(State()).storage, Text(Stringify(details))), LegacyKeys(id))
    {
      r := base.Request(DetailsPath(id), ActionInit("PATCH", base.window.storage, Text(Stringify(details))));
      if r.Ok? {
        Invalidate(id);
      }
    }

    method DeleteExcursionDetails(id: JsValue) returns (r: Result<()>)
      modifies base.cache, base.window
      ensures var (e1, out) := WriteStep(base.baseUrl, old(State()), DetailsPath(id), ActionInit("DELETE", old(State()).storage, NoBody), LegacyKeys(id));
        State() == e1 && r == Done(out)
    {
      var out := base.Request(DetailsPath(id), ActionInit("DELETE", base.window.storage, NoBody));
      if out.Ok? {
        Invalidate(id);
      }
      r := Done(out);
    }

    method GetExcursionInclusions(id: JsValue) returns (r: Result<Json>)
      modifies base.cache, base.window
      ensures (State(), r) == ReadThroughStep(base.baseUrl, old(State()), IdKey("excursion_inclusions", id), ExcursionPath(id) + "/inclusions", DEFAULT_TTL)
    {
      r := base.ReadThrough(IdKey("excursion_inclusions", id), ExcursionPath(id) + "/inclusions", DEFAULT_TTL);
    }

    method GetExcursionItinerary(id: JsValue) returns (r: Result<Json>)
      modifies base.cache, base.window
      ensures (State(), r) == ReadThroughStep(base.baseUrl, old(State()), IdKey("excursion_itinerary", id), ExcursionPath(id) + "/itinerary", DEFAULT_TTL)
    {
      r := base.ReadThrough(IdKey("excursion_itinerary", id), ExcursionPath(id) + "/itinerary", DEFAULT_TTL);
    }

    method GetExcursionRequirements(id: JsValue) returns (r: Result<Json>)
      modifies base.cache, base.window
      ensures (State(), r) == ReadThroughStep(base.baseUrl, old(State()), IdKey("excursion_requirements", id), ExcursionPath(id) + "/requirements", DEFAULT_TTL)
    {
      r := base.ReadThrough(IdKey("excursion_requirements", id), ExcursionPath(id) + "/requirements", DEFAULT_TTL);
    }

    /** `saveImage(file)`: a direct upload that leaves the cache alone. */
    method SaveImage(file: File) returns (r: Result<Json>)
      modifies base.window
      ensures (State(), r) == RawFetchStep(base.baseUrl, old(State()), "/excursions/save_image", "POST", Form([("image_file", file)]))
    {
      r := base.RawFetch("/excursions/save_image", "POST", Form([("image_file", file)]));
    }

    /** Unlike the newer client, this one also sends the bus number as a JSON body. */
    method ChangeBusNumber(id: JsValue, busNumber: int) returns (r: Result<Json>)
      modifies base.cache, base.window
      ensures (State(), r) == WriteStep(base.baseUrl, old(State()), ExcursionPath(id) + "/bus-number?bus_number=" + NumStr(busNumber),
                                        ActionInit("PUT", old(State()).storage, Text(Stringify(Obj([Field("bus_number", Num(busNumber))])))),
                                        LegacyKeys(id))
    {
      var body := Text(Stringify(Obj([Field("bus_number", Num(busNumber))])));
      r := base.Request(ExcursionPath(id) + "/bus-number?bus_number=" + NumStr(busNumber), ActionInit("PUT", base.window.storage, body));
      if r.Ok? {
        Invalidate(id);
      }
    }

    method CheckAdminAccess() returns (r: JsValue)
      modifies base.cache, base.window
      ensures (State(), r) == CheckAdminStep(base.baseUrl, old(State()))
    {
      var user := GetCurrentUser();
      if user.Err? {
        return Defined(Bool(false));
      }
      var flag := Member(Defined(user.value), "is_superuser");
      r := if flag.Ok? then flag.value else Defined(Bool(false));
    }

    /** `clearCache()` */
    method ClearCache()
      modifies base.cache
      ensures base.cache.entries == map[]
    {
      base.cache.ClearAll();
    }

    /** `clearExcursionCache(id)`: exactly the effect of `invalidateExcursionCache(id)`. */
    method ClearExcursionCache(id: JsValue)
      modifies base.cache
      ensures base.cache.entries == InvalidateStore(old(base.cache.entries), LegacyKeys(id))
    {
      Invalidate(id);
    }
  }

  /** Deleting five keys one after the other removes the five of them. */
  lemma DeletesAccumulate(m: Store, a: string, b: string, c: string, d: string, e: string)
    ensures m - {a} - {b} - {c} - {d} - {e} == m - {a, b, c, d, e}
  {
  }

  // ---------------------------------------------------------------------------
  // Properties

  /** Invalidation by id removes the two prefixes and, for a truthy id, exactly that
      excursion's entity, details, inclusions, itinerary and requirements keys. */
  lemma LegacyInvalidationRemovesExactly(m: Store, id: JsValue, k: string)
    ensures k in InvalidateStore(m, LegacyKeys(id)) <==>
      k in m && !StartsWith(k, "excursions") && !StartsWith(k, "excursion_full") &&
      !(Truthy(id) && (k == IdKey("excursion", id) || k == IdKey("excursion_details", id) ||
                       k == IdKey("excursion_inclusions", id) || k == IdKey("excursion_itinerary", id) ||
                       k == IdKey("excursion_requirements", id)))
    ensures k in InvalidateStore(m, LegacyKeys(id)) ==> InvalidateStore(m, LegacyKeys(id))[k] == m[k]
  {
  }

  /** Different families never share a key, whatever the id. */
  lemma FamiliesDistinct(f: string, g: string, id: JsValue)
    requires ':' !in f && ':' !in g && f != g
    ensures IdKey(f, id) != IdKey(g, id)
  {
    if IdKey(f, id) == IdKey(g, id) {
      SplitAtColon(f, ToText(id), g, ToText(id));
    }
  }

  /** This client never deletes the images entry of an excursion: it survives every one of its writes. */
  lemma ImagesKeySurvivesLegacyInvalidation(m: Store, id: JsValue)
    requires IdKey("excursion_images", id) in m
    ensures IdKey("excursion_images", id) in InvalidateStore(m, LegacyKeys(id))
  {
    EntityKeyOutsidePrefixes("excursion_images", id);
    var families := ["excursion", "excursion_details", "excursion_inclusions", "excursion_itinerary", "excursion_requirements"];
    forall i | 0 <= i < |families|
      ensures IdKey("excursion_images", id) != IdKey(families[i], id)
    {
      FamiliesDistinct("excursion_images", families[i], id);
    }
  }

  /** Every key this client's getters fill for an excursion is removed by a write on it. */
  lemma LegacyGetterKeysInvalidated(m: Store, id: JsValue)
    requires Truthy(id)
    ensures IdKey("excursion", id) !in InvalidateStore(m, LegacyKeys(id))
    ensures IdKey("excursion_details", id) !in InvalidateStore(m, LegacyKeys(id))
    ensures IdKey("excursion_inclusions", id) !in InvalidateStore(m, LegacyKeys(id))
    ensures IdKey("excursion_itinerary", id) !in InvalidateStore(m, LegacyKeys(id))
    ensures IdKey("excursion_requirements", id) !in InvalidateStore(m, LegacyKeys(id))
    ensures IdKey("excursion_full", id) !in InvalidateStore(m, LegacyKeys(id))
  {
    assert StartsWith(IdKey("excursion_full", id), "excursion_full");
  }

  /** The list of `getExcursions` is cached under the "excursions" prefix, so every write removes it. */
  lemma ExcursionListAlwaysInvalidated(m: Store, dropped: set<string>, params: JsValue)
    ensures BuildCacheKey("excursions", params) !in InvalidateStore(m, dropped)
  {
  }

  /** Login, registration and the current-user call bypass the cache: they change it only
      through the 401 teardown. */
  lemma SessionCallsBypassCache(b: string, e: Env, endpoint: string, init: RequestInit)
    ensures RequestStep(b, e, endpoint, init).0.entries == if Unauthorized(NextReply(e.replies)) then map[] else e.entries
  {
  }

  /** The admin check never fails: it is the user's `is_superuser` when the user arrives,
      false otherwise. */
  lemma CheckAdminResult(b: string, e: Env)
    ensures var user := Outcome(NextReply(e.replies));
      CheckAdminStep(b, e).1 ==
        if user.Ok? && !user.value.Null? then OptionalMember(Defined(user.value), "is_superuser") else Defined(Bool(false))
  {
  }
}
