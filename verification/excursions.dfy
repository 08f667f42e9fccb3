/** The excursions client (`ExcursionsApi`): caching getters for lists, single
    excursions, their details, images and the combined "full" view; writes that
    invalidate the excursion caches once the server has accepted them; image upload
    and deletion through direct `fetch` calls; and the two composite operations that
    chain them. */
module Excursions {
  import opened Wrappers
  import opened Js
  import opened TtlCache
  import opened Browser
  import opened Gateway

  /** The lifetime of cached lists: two minutes. */
  const LIST_TTL: int := 2 * 60 * 1000

  /** The filters of the active and inactive list reads, in the order they are appended. */
  const LIST_FILTERS: seq<string> := ["category", "skip", "limit", "excursion_type"]

  // ---------------------------------------------------------------------------
  // Keys and endpoints

  /** `${family}:${id}` */
  function IdKey(family: string, id: JsValue): string {
    family + ":" + ToText(id)
  }

  /** The per-excursion keys `invalidateExcursionCache(id)` deletes besides the two prefixes. */
  function ExcursionKeys(id: JsValue): set<string> {
    if Truthy(id) then {IdKey("excursion", id), IdKey("excursion_details", id), IdKey("excursion_images", id)} else {}
  }

  function ExcursionPath(id: JsValue): string {
    "/excursions/" + ToText(id)
  }

  function DetailsPath(id: JsValue): string {
    ExcursionPath(id) + "/details"
  }

  /** The query parameters appended for `params`: each named filter whose value is truthy, as text. */
  function QueryParams(params: JsValue, names: seq<string>): (q: seq<(string, string)>)
    ensures |q| <= |names|
  {
    if names == [] then [] else Appended(params, names[0]) + QueryParams(params, names[1..])
  }

  /** The `append` of one filter: its name and text when its value is truthy, nothing otherwise. */
  function Appended(params: JsValue, name: string): seq<(string, string)> {
    var v := OptionalMember(params, name);
    if Truthy(v) then [(name, ToText(v))] else []
  }

  /** `queryString ? `${path}?${queryString}` : path` */
  function ListEndpoint(path: string, params: JsValue, names: seq<string>): string {
    var query := QueryString(QueryParams(params, names));
    if query == "" then path else path + "?" + query
  }

  /** The options of an authenticated write: the method, the auth headers and the body. */
  function ActionInit(verb: string, storage: map<string, string>, body: Body): RequestInit {
    RequestInit(verb, AuthHeaders(storage), body)
  }

  // ---------------------------------------------------------------------------
  // Step functions

  function CreateExcursionStep(b: string, e: Env, excursion: Json): (Env, Result<Json>) {
    WriteStep(b, e, "/excursions", ActionInit("POST", e.storage, Text(Stringify(excursion))), ExcursionKeys(Undefined))
  }

  function UpdateExcursionStep(b: string, e: Env, id: JsValue, excursion: Json): (Env, Result<Json>) {
    WriteStep(b, e, ExcursionPath(id), ActionInit("PUT", e.storage, Text(Stringify(excursion))), ExcursionKeys(id))
  }

  function CreateDetailsStep(b: string, e: Env, id: JsValue, details: Json): (Env, Result<Json>) {
    WriteStep(b, e, DetailsPath(id), ActionInit("POST", e.storage, Text(Stringify(details))), ExcursionKeys(id))
  }

  function UpdateDetailsStep(b: string, e: Env, id: JsValue, details: Json): (Env, Result<Json>) {
    WriteStep(b, e, DetailsPath(id), ActionInit("PUT", e.storage, Text(Stringify(details))), ExcursionKeys(id))
  }

  /** The cache after an image upload: the images key of the excursion, then the usual invalidation. */
  function AfterImageUpload(m: Store, id: JsValue): Store {
    InvalidateStore(m - {IdKey("excursion_images", id)}, ExcursionKeys(id))
  }

  /** `addExcursionImage(id, file)` */
  function AddImageStep(b: string, e: Env, id: JsValue, file: File): (Env, Result<Json>) {
    var (e1, r) := RawFetchStep(b, e, ExcursionPath(id) + "/add_image", "POST", Form([("image_file", file)]));
    if r.Err? then (e1, r) else (e1.(entries := AfterImageUpload(e1.entries, id)), r)
  }

  /** All uploads of `bulkAddExcursionImages`, one after the other: every file is sent,
      and the outcome is the first failure or all the uploaded images in order. */
  function UploadAllStep(b: string, e: Env, id: JsValue, files: seq<File>): (Env, Result<seq<Json>>)
    decreases |files|
  {
    if files == [] then (e, Ok([]))
    else
      var (e1, done) := UploadAllStep(b, e, id, files[..|files| - 1]);
      var (e2, r) := AddImageStep(b, e1, id, files[|files| - 1]);
      (e2, if done.Err? then done else if r.Err? then Err(r.message) else Ok(done.value + [r.value]))
  }

  /** One more upload extends the uploads of the files before it. */
  lemma UploadAllPrefix(b: string, e: Env, id: JsValue, files: seq<File>, i: int)
    requires 0 <= i < |files|
    ensures UploadAllStep(b, e, id, files[..i + 1]) ==
      var (e1, done) := UploadAllStep(b, e, id, files[..i]);
      var (e2, r) := AddImageStep(b, e1, id, files[i]);
      (e2, if done.Err? then done else if r.Err? then Err(r.message) else Ok(done.value + [r.value]))
  {
    assert files[..i + 1][..i] == files[..i];
  }

  /** `bulkAddExcursionImages(id, files)` */
  function BulkAddStep(b: string, e: Env, id: JsValue, files: seq<File>): (Env, Result<Json>) {
    var (e1, r) := UploadAllStep(b, e, id, files);
    if r.Err? then (e1, Err(r.message)) else (e1.(entries := AfterImageUpload(e1.entries, id)), Ok(Arr(r.value)))
  }

  /** `getExcursionImages(id)`: a read-through whose "404" failure becomes an empty list, which is not cached. */
  function ImagesStep(b: string, e: Env, id: JsValue): (Env, Result<Json>) {
    var (e1, r) := ReadThroughStep(b, e, IdKey("excursion_images", id), ExcursionPath(id) + "/get_images", DEFAULT_TTL);
    if r.Err? && Contains(r.message, "404") then (e1, Ok(Arr([]))) else (e1, r)
  }

  /** `!response.images || response.images.length === 0` for a truthy response. A truthy
      `images` has `length` 0 when it is an empty array or an object whose own `length` is 0;
      a truthy string is never empty, and a number or a boolean has no `length`. */
  predicate LacksImages(response: Json) {
    var images := OptionalMember(Defined(response), "images");
    !Truthy(images) ||
    (images.json.Arr? && |images.json.items| == 0) ||
    (images.json.Obj? && FieldValue(images.json.fields, "length") == Defined(Num(0)))
  }

  /** `response.images = images`: an object gains or replaces the field; assigning a
      property of a primitive throws, and the error is swallowed, so it stays as it was. */
  function WithImages(response: Json, images: Json): Json {
    if response.Obj? then Obj(SetField(response.fields, "images", images)) else response
  }

  /** `getExcursionFull(id)`: a read-through that, on a miss whose answer has no images,
      fetches them separately (ignoring any failure) before storing the answer. */
  function FullStep(b: string, e: Env, id: JsValue): (Env, Result<Json>) {
    var key := IdKey("excursion_full", id);
    var e1 := e.(entries := AfterGet(e.entries, key, e.now));
    if Hit(e.entries, key, e.now) then (e1, Ok(Lookup(e.entries, key, e.now).value))
    else
      var (e2, r) := RequestStep(b, e1, ExcursionPath(id) + "/full", GET);
      if r.Err? then (e2, r)
      else
        var (e3, response) :=
          if JsonTruthy(r.value) && LacksImages(r.value) then
            var (e3, images) := ImagesStep(b, e2, id);
            (e3, if images.Ok? then WithImages(r.value, images.value) else r.value)
          else (e2, r.value);
        (e3.(entries := Put(e3.entries, key, response, DEFAULT_TTL, e3.now)), Ok(response))
  }

  /** The cache after a successful image deletion, whose excursion is unknown. */
  function AfterImageDelete(m: Store): Store {
    WithoutPrefix(WithoutPrefix(WithoutPrefix(m, "excursion_images"), "excursion_full"), "excursions")
  }

  /** `deleteExcursionImage(imageId)` */
  function DeleteImageStep(b: string, e: Env, imageId: int): (Env, Result<bool>) {
    var (e1, r) := RawFetchStep(b, e, "/excursions/image/" + NumStr(imageId), "DELETE", NoBody);
    if r.Err? then (e1, Err(r.message))
    else (e1.(entries := AfterImageDelete(e1.entries)), Ok(r.value == Bool(true) || r.value == Str("true")))
  }

  /** The image deletions of `updateExcursionComprehensive`, one after the other, each failure ignored. */
  function DeleteImagesStep(b: string, e: Env, imageIds: seq<int>): Env
    decreases |imageIds|
  {
    if imageIds == [] then e
    else DeleteImageStep(b, DeleteImagesStep(b, e, imageIds[..|imageIds| - 1]), imageIds[|imageIds| - 1]).0
  }

  /** The details created when an update finds none: the update's fields where truthy, empty values otherwise. */
  function DetailsDefaults(update: Json): Json {
    var u := Defined(update);
    Obj([
      Field("description", Or(OptionalMember(u, "description"), Str(""))),
      Field("inclusions", Or(OptionalMember(u, "inclusions"), Arr([]))),
      Field("itinerary", Or(OptionalMember(u, "itinerary"), Arr([]))),
      Field("meeting_point", Or(OptionalMember(u, "meeting_point"), Str(""))),
      Field("requirements", Or(OptionalMember(u, "requirements"), Arr([]))),
      Field("recommendations", Or(OptionalMember(u, "recommendations"), Arr([])))
    ])
  }

  /** Step 2 of `updateExcursionComprehensive`: update the details, or create them when the update reports 404. */
  function DetailsUpdateOrCreateStep(b: string, e: Env, id: JsValue, details: Json): (Env, Result<Json>) {
    var (e1, r) := UpdateDetailsStep(b, e, id, details);
    if r.Err? && Contains(r.message, "404") then CreateDetailsStep(b, e1, id, DetailsDefaults(details)) else (e1, r)
  }

  /** `createExcursionWithDetailsAndImages(excursion, details, images)` */
  function CreateWithDetailsStep(b: string, e: Env, excursion: Json, details: JsValue, images: seq<File>): (Env, Result<Json>) {
    var (e1, created) := CreateExcursionStep(b, e, excursion);
    if created.Err? then (e1, created)
    else
      match Member(Defined(created.value), "id")
      case Err(message) => (e1, Err(message))
      case Ok(id) =>
        var (e2, r2) := if Truthy(details) then CreateDetailsStep(b, e1, id, details.json) else (e1, Ok(Null));
        if r2.Err? then (e2, r2)
        else
          var (e3, r3) := if |images| > 0 then BulkAddStep(b, e2, id, images) else (e2, Ok(Null));
          if r3.Err? then (e3, r3) else FullStep(b, e3, id)
  }

  /** `updateExcursionComprehensive(id, update, details, newImages, deletedImageIds)` */
  function ComprehensiveStep(b: string, e: Env, id: JsValue, update: Json, details: JsValue,
                             newImages: seq<File>, deletedImageIds: seq<int>): (Env, Result<Json>)
  {
    var (e1, r1) := UpdateExcursionStep(b, e, id, update);
    if r1.Err? then (e1, r1)
    else
      var (e2, r2) := if Truthy(details) then DetailsUpdateOrCreateStep(b, e1, id, details.json) else (e1, Ok(Null));
      if r2.Err? then (e2, r2)
      else
        var (e3, r3) := if |newImages| > 0 then BulkAddStep(b, e2, id, newImages) else (e2, Ok(Null));
        if r3.Err? then (e3, r3)
        else FullStep(b, DeleteImagesStep(b, e3, deletedImageIds), id)
  }

  /** What a method of the source declared `Promise<void>` settles with. */
  function Done(r: Result<Json>): Result<()> {
    if r.Ok? then Ok(()) else Err(r.message)
  }

  // ---------------------------------------------------------------------------
  // The client object

  class ExcursionsApi {
    const base: BaseApi

    constructor(base: BaseApi)
      ensures this.base == base
    {
      this.base := base;
    }

    function State(): Env
      reads base.cache, base.window
    {
      base.State()
    }

    /** `invalidateExcursionCache(excursionId?)` */
    method Invalidate(id: JsValue)
      modifies base.cache
      ensures base.cache.entries == InvalidateStore(old(base.cache.entries), ExcursionKeys(id))
    {
      base.cache.ClearByPrefix("excursions");
      base.cache.ClearByPrefix("excursion_full");
      if Truthy(id) {
        base.cache.Delete(IdKey("excursion", id));
        base.cache.Delete(IdKey("excursion_details", id));
        base.cache.Delete(IdKey("excursion_images", id));
      }
    }

    method GetActiveExcursions(params: JsValue) returns (r: Result<Json>)
      modifies base.cache, base.window
      ensures (State(), r) == ReadThroughStep(base.baseUrl, old(State()), BuildCacheKey("activeExcursions", params),
                                              ListEndpoint("/excursions/active", params, LIST_FILTERS), LIST_TTL)
    {
      r := base.ReadThrough(BuildCacheKey("activeExcursions", params), ListEndpoint("/excursions/active", params, LIST_FILTERS), LIST_TTL);
    }

    method GetNotActiveExcursions(params: JsValue) returns (r: Result<Json>)
      modifies base.cache, base.window
      ensures (State(), r) == ReadThroughStep(base.baseUrl, old(State()), BuildCacheKey("notActiveExcursions", params),
                                              ListEndpoint("/excursions/not_active", params, LIST_FILTERS), LIST_TTL)
    {
      r := base.ReadThrough(BuildCacheKey("notActiveExcursions", params), ListEndpoint("/excursions/not_active", params, LIST_FILTERS), LIST_TTL);
    }

    method GetExcursion(id: JsValue) returns (r: Result<Json>)
      modifies base.cache, base.window
      ensures (State(), r) == ReadThroughStep(base.baseUrl, old(State()), IdKey("excursion", id), ExcursionPath(id), DEFAULT_TTL)
    {
      r := base.ReadThrough(IdKey("excursion", id), ExcursionPath(id), DEFAULT_TTL);
    }

    method CreateExcursion(excursion: Json) returns (r: Result<Json>)
      modifies base.cache, base.window
      ensures (State(), r) == CreateExcursionStep(base.baseUrl, old(State()), excursion)
    {
      r := base.Request("/excursions", ActionInit("POST", base.window.storage, Text(Stringify(excursion))));
      if r.Ok? {
        Invalidate(Undefined);
      }
    }

    method UpdateExcursion(id: JsValue, excursion: Json) returns (r: Result<Json>)
      modifies base.cache, base.window
      ensures (State(), r) == UpdateExcursionStep(base.baseUrl, old(State()), id, excursion)
    {
      r := base.Request(ExcursionPath(id), ActionInit("PUT", base.window.storage, Text(Stringify(excursion))));
      if r.Ok? {
        Invalidate(id);
      }
    }

    method DeleteExcursion(id: JsValue) returns (r: Result<()>)
      modifies base.cache, base.window
      ensures var (e1, out) := WriteStep(base.baseUrl, old(State()), ExcursionPath(id), ActionInit("DELETE", old(State()).storage, NoBody), ExcursionKeys(id));
        State() == e1 && r == Done(out)
    {
      var out := base.Request(ExcursionPath(id), ActionInit("DELETE", base.window.storage, NoBody));
      if out.Ok? {
        Invalidate(id);
      }
      r := Done(out);
    }

    method GetExcursionsByCategory(category: string) returns (r: Result<Json>)
      modifies base.cache, base.window
      ensures (State(), r) == ReadThroughStep(base.baseUrl, old(State()), "excursions_category:" + category,
                                              "/excursions/category/" + category, LIST_TTL)
    {
      r := base.ReadThrough("excursions_category:" + category, "/excursions/category/" + category, LIST_TTL);
    }

    method SearchExcursions(query: string) returns (r: Result<Json>)
      modifies base.cache, base.window
      ensures (State(), r) == ReadThroughStep(base.baseUrl, old(State()), "excursions_search:" + query,
                                              "/excursions/search/?q=" + EncodeUriComponent(query), LIST_TTL)
    {
      r := base.ReadThrough("excursions_search:" + query, "/excursions/search/?q=" + EncodeUriComponent(query), LIST_TTL);
    }

    method ToggleExcursionActive(id: JsValue) returns (r: Result<Json>)
      modifies base.cache, base.window
      ensures (State(), r) == WriteStep(base.baseUrl, old(State()), ExcursionPath(id) + "/toggle-active",
                                        ActionInit("PATCH", old(State()).storage, NoBody), ExcursionKeys(id))
    {
      r := base.Request(ExcursionPath(id) + "/toggle-active", ActionInit("PATCH", base.window.storage, NoBody));
      if r.Ok? {
        Invalidate(id);
      }
    }

    method AddPeopleToExcursion(id: JsValue, peopleCount: int) returns (r: Result<Json>)
      modifies base.cache, base.window
      ensures (State(), r) == WriteStep(base.baseUrl, old(State()), ExcursionPath(id) + "/add_people?people_count=" + NumStr(peopleCount),
                                        ActionInit("PATCH", old(State()).storage, NoBody), ExcursionKeys(id))
    {
      var endpoint := ExcursionPath(id) + "/add_people?people_count=" + NumStr(peopleCount);
      r := base.Request(endpoint, ActionInit("PATCH", base.window.storage, NoBody));
      if r.Ok? {
        Invalidate(id);
      }
    }

    method ChangeBusNumber(id: JsValue, busNumber: int) returns (r: Result<Json>)
      modifies base.cache, base.window
      ensures (State(), r) == WriteStep(base.baseUrl, old(State()), ExcursionPath(id) + "/bus-number?bus_number=" + NumStr(busNumber),
                                        ActionInit("PUT", old(State()).storage, NoBody), ExcursionKeys(id))
    {
      r := base.Request(ExcursionPath(id) + "/bus-number?bus_number=" + NumStr(busNumber), ActionInit("PUT", base.window.storage, NoBody));
      if r.Ok? {
        Invalidate(id);
      }
    }

    method AddExcursionImage(id: JsValue, file: File) returns (r: Result<Json>)
      modifies base.cache, base.window
      ensures (State(), r) == AddImageStep(base.baseUrl, old(State()), id, file)
    {
      r := base.RawFetch(ExcursionPath(id) + "/add_image", "POST", Form([("image_file", file)]));
      if r.Ok? {
        base.cache.Delete(IdKey("excursion_images", id));
        Invalidate(id);
      }
    }

    method GetExcursionImages(id: JsValue) returns (r: Result<Json>)
      modifies base.cache, base.window
      ensures (State(), r) == ImagesStep(base.baseUrl, old(State()), id)
    {
      r := base.ReadThrough(IdKey("excursion_images", id), ExcursionPath(id) + "/get_images", DEFAULT_TTL);
      if r.Err? && Contains(r.message, "404") {
        r := Ok(Arr([]));
      }
    }

    method DeleteExcursionImage(imageId: int) returns (r: Result<bool>)
      modifies base.cache, base.window
      ensures (State(), r) == DeleteImageStep(base.baseUrl, old(State()), imageId)
    {
      var result := base.RawFetch("/excursions/image/" + NumStr(imageId), "DELETE", NoBody);
      if result.Err? {
        return Err(result.message);
      }
      base.cache.ClearByPrefix("excursion_images");
      base.cache.ClearByPrefix("excursion_full");
      base.cache.ClearByPrefix("excursions");
      r := Ok(result.value == Bool(true) || result.value == Str("true"));
    }

    /** The uploads of `bulkAddExcursionImages`, one after the other; every file is sent even after a failure. */
    method UploadAll(id: JsValue, files: seq<File>) returns (r: Result<seq<Json>>)
      modifies base.cache, base.window
      ensures (State(), r) == UploadAllStep(base.baseUrl, old(State()), id, files)
    {
      var uploaded: seq<Json> := [];
      var failure: Option<string> := None;
      var i := 0;
      while i < |files|
        invariant 0 <= i <= |files|
        invariant (State(), if failure.Some? then Err(failure.value) else Ok(uploaded))
               == UploadAllStep(base.baseUrl, old(State()), id, files[..i])
      {
        UploadAllPrefix(base.baseUrl, old(State()), id, files, i);
        var image := AddExcursionImage(id, files[i]);
        if failure.None? {
          if image.Err? {
            failure := Some(image.message);
          } else {
            uploaded := uploaded + [image.value];
          }
        }
        i := i + 1;
      }
      assert files[..i] == files;
      r := if failure.Some? then Err(failure.value) else Ok(uploaded);
    }

    method BulkAddExcursionImages(id: JsValue, files: seq<File>) returns (r: Result<Json>)
      modifies base.cache, base.window
      ensures (State(), r) == BulkAddStep(base.baseUrl, old(State()), id, files)
    {
      var results := UploadAll(id, files);
      if results.Err? {
        return Err(results.message);
      }
      base.cache.Delete(IdKey("excursion_images", id));
      Invalidate(id);
      r := Ok(Arr(results.value));
    }

    method GetExcursionFull(id: JsValue) returns (r: Result<Json>)
      modifies base.cache, base.window
      ensures (State(), r) == FullStep(base.baseUrl, old(State()), id)
    {
      var key := IdKey("excursion_full", id);
      var cached := base.cache.Get(key, base.window.now);
      if cached.Some? && JsonTruthy(cached.value) {
        return Ok(cached.value);
      }
      var fetched := base.Request(ExcursionPath(id) + "/full", GET);
      if fetched.Err? {
        return fetched;
      }
      var response := fetched.value;
      if JsonTruthy(response) && LacksImages(response) {
        var images := GetExcursionImages(id);
        if images.Ok? {
          response := WithImages(response, images.value);
        }
      }
      base.cache.Set(key, response, base.window.now);
      r := Ok(response);
    }

    method GetExcursionDetails(id: JsValue) returns (r: Result<Json>)
      modifies base.cache, base.window
      ensures (State(), r) == ReadThroughStep(base.baseUrl, old(State()), IdKey("excursion_details", id), DetailsPath(id), DEFAULT_TTL)
    {
      r := base.ReadThrough(IdKey("excursion_details", id), DetailsPath(id), DEFAULT_TTL);
    }

    method CreateExcursionDetails(id: JsValue, details: Json) returns (r: Result<Json>)
      modifies base.cache, base.window
      ensures (State(), r) == CreateDetailsStep(base.baseUrl, old(State()), id, details)
    {
      r := base.Request(DetailsPath(id), ActionInit("POST", base.window.storage, Text(Stringify(details))));
      if r.Ok? {
        Invalidate(id);
      }
    }

    method UpdateExcursionDetails(id: JsValue, details: Json) returns (r: Result<Json>)
      modifies base.cache, base.window
      ensures (State(), r) == UpdateDetailsStep(base.baseUrl, old(State()), id, details)
    {
      r := base.Request(DetailsPath(id), ActionInit("PUT", base.window.storage, Text(Stringify(details))));
      if r.Ok? {
        Invalidate(id);
      }
    }

    method DeleteExcursionDetails(id: JsValue) returns (r: Result<()>)
      modifies base.cache, base.window
      ensures var (e1, out) := WriteStep(base.baseUrl, old(State()), DetailsPath(id), ActionInit("DELETE", old(State()).storage, NoBody), ExcursionKeys(id));
        State() == e1 && r == Done(out)
    {
      var out := base.Request(DetailsPath(id), ActionInit("DELETE", base.window.storage, NoBody));
      if out.Ok? {
        Invalidate(id);
      }
      r := Done(out);
    }

    method CreateExcursionWithDetailsAndImages(excursion: Json, details: JsValue, images: seq<File>) returns (r: Result<Json>)
      modifies base.cache, base.window
      ensures (State(), r) == CreateWithDetailsStep(base.baseUrl, old(State()), excursion, details, images)
    {
      var created := CreateExcursion(excursion);
      if created.Err? {
        return created;
      }
      var id := Member(Defined(created.value), "id");
      if id.Err? {
        return Err(id.message);
      }
      if Truthy(details) {
        var made := CreateExcursionDetails(id.value, details.json);
        if made.Err? {
          return made;
        }
      }
      if |images| > 0 {
        var added := BulkAddExcursionImages(id.value, images);
        if added.Err? {
          return added;
        }
      }
      r := GetExcursionFull(id.value);
    }

    /** The deletions of the comprehensive update: each is attempted, failures are ignored. */
    method DeleteImagesQuietly(imageIds: seq<int>)
      modifies base.cache, base.window
      ensures State() == DeleteImagesStep(base.baseUrl, old(State()), imageIds)
    {
      var i := 0;
      while i < |imageIds|
        invariant 0 <= i <= |imageIds|
        invariant State() == DeleteImagesStep(base.baseUrl, old(State()), imageIds[..i])
      {
        var _ := DeleteExcursionImage(imageIds[i]);
        i := i + 1;
        assert imageIds[..i][..i - 1] == imageIds[..i - 1];
      }
      assert imageIds[..i] == imageIds;
    }

    /** Step 2 of the comprehensive update. */
    method UpdateOrCreateDetails(id: JsValue, details: Json) returns (r: Result<Json>)
      modifies base.cache, base.window
      ensures (State(), r) == DetailsUpdateOrCreateStep(base.baseUrl, old(State()), id, details)
    {
      r := UpdateExcursionDetails(id, details);
      if r.Err? && Contains(r.message, "404") {
        r := CreateExcursionDetails(id, DetailsDefaults(details));
      }
    }

    method UpdateExcursionComprehensive(id: JsValue, update: Json, details: JsValue,
                                        newImages: seq<File>, deletedImageIds: seq<int>) returns (r: Result<Json>)
      modifies base.cache, base.window
      ensures (State(), r) == ComprehensiveStep(base.baseUrl, old(State()), id, update, details, newImages, deletedImageIds)
    {
      var updated := UpdateExcursion(id, update);
      if updated.Err? {
        return updated;
      }
      if Truthy(details) {
        var changed := UpdateOrCreateDetails(id, details.json);
        if changed.Err? {
          return changed;
        }
      }
      if |newImages| > 0 {
        var added := BulkAddExcursionImages(id, newImages);
        if added.Err? {
          return added;
        }
      }
      DeleteImagesQuietly(deletedImageIds);
      r := GetExcursionFull(id);
    }
  }

  // ---------------------------------------------------------------------------
  // Keys

  /** The position of the first `c` in `s` (|s| when there is none). */
  function FirstIndexOf(s: string, c: char): nat {
    if s == [] || s[0] == c then 0 else 1 + FirstIndexOf(s[1..], c)
  }

  lemma {:induction false} FirstIndexAfter(f: string, c: char, rest: string)
    requires c !in f
    ensures FirstIndexOf(f + [c] + rest, c) == |f|
  {
    if f != [] {
      assert (f + [c] + rest)[1..] == f[1..] + [c] + rest;
      FirstIndexAfter(f[1..], c, rest);
    }
  }

  /** A key "family:rest" determines its family when families contain no colon. */
  lemma SplitAtColon(f1: string, x: string, f2: string, y: string)
    requires ':' !in f1 && ':' !in f2
    requires f1 + ":" + x == f2 + ":" + y
    ensures f1 == f2 && x == y
  {
    var s := f1 + ":" + x;
    FirstIndexAfter(f1, ':', x);
    FirstIndexAfter(f2, ':', y);
    assert f1 == s[..|f1|] == f2;
    assert x == s[|f1| + 1..] == y;
  }

  /** Invalidation by id removes the keys under the two prefixes and, for a truthy id,
      exactly that excursion's entity, details and images keys; nothing else changes. */
  lemma InvalidationRemovesExactly(m: Store, id: JsValue, k: string)
    ensures k in InvalidateStore(m, ExcursionKeys(id)) <==>
      k in m && !StartsWith(k, "excursions") && !StartsWith(k, "excursion_full") &&
      !(Truthy(id) && (k == IdKey("excursion", id) || k == IdKey("excursion_details", id) || k == IdKey("excursion_images", id)))
    ensures k in InvalidateStore(m, ExcursionKeys(id)) ==> InvalidateStore(m, ExcursionKeys(id))[k] == m[k]
  {
  }

  /** Every key a getter fills for an excursion is removed by a write on that excursion. */
  lemma GetterKeysInvalidatedBySameId(m: Store, id: JsValue)
    requires Truthy(id)
    ensures IdKey("excursion", id) !in InvalidateStore(m, ExcursionKeys(id))
    ensures IdKey("excursion_details", id) !in InvalidateStore(m, ExcursionKeys(id))
    ensures IdKey("excursion_images", id) !in InvalidateStore(m, ExcursionKeys(id))
    ensures IdKey("excursion_full", id) !in InvalidateStore(m, ExcursionKeys(id))
  {
    assert StartsWith(IdKey("excursion_full", id), "excursion_full");
  }

  /** With a falsy id (absent, 0) only the prefixes are cleared, so "excursion:0" and its
      siblings survive a write on excursion 0. */
  lemma FalsyIdClearsOnlyPrefixes(m: Store, id: JsValue)
    requires !Truthy(id)
    ensures InvalidateStore(m, ExcursionKeys(id)) == WithoutPrefix(WithoutPrefix(m, "excursions"), "excursion_full")
  {
  }

  /** The active and inactive lists are cached under keys no invalidation matches: they
      survive every write, every image upload and every image deletion. */
  lemma ActiveListsSurviveInvalidation(m: Store, id: JsValue, prefix: string, params: JsValue)
    requires prefix == "activeExcursions" || prefix == "notActiveExcursions"
    requires BuildCacheKey(prefix, params) in m
    ensures BuildCacheKey(prefix, params) in InvalidateStore(m, ExcursionKeys(id))
    ensures BuildCacheKey(prefix, params) in AfterImageUpload(m, id)
    ensures BuildCacheKey(prefix, params) in AfterImageDelete(m)
  {
    var key := BuildCacheKey(prefix, params);
    assert key[0] == prefix[0] != 'e';
    assert IdKey("excursion_images", id)[0] == 'e';
    assert Truthy(id) ==> IdKey("excursion", id)[0] == 'e' && IdKey("excursion_details", id)[0] == 'e';
  }

  /** The category and search lists fall under the "excursions" prefix: every
      invalidation and every image deletion removes them. */
  lemma CategoryAndSearchAlwaysRemoved(m: Store, id: JsValue, category: string, query: string)
    ensures "excursions_category:" + category !in InvalidateStore(m, ExcursionKeys(id))
    ensures "excursions_search:" + query !in InvalidateStore(m, ExcursionKeys(id))
    ensures "excursions_category:" + category !in AfterImageDelete(m)
    ensures "excursions_search:" + query !in AfterImageDelete(m)
  {
    assert ("excursions_category:" + category)[..10] == "excursions";
    assert ("excursions_search:" + query)[..10] == "excursions";
  }

  /** The families of the per-excursion keys. */
  predicate EntityFamily(family: string) {
    family == "excursion" || family == "excursion_details" || family == "excursion_images"
  }

  lemma EntityKeyOutsidePrefixes(family: string, id: JsValue)
    requires EntityFamily(family)
    ensures !StartsWith(IdKey(family, id), "excursions") && !StartsWith(IdKey(family, id), "excursion_full")
  {
    var key := IdKey(family, id);
    if family == "excursion" {
      assert key[9] == ':';
    } else if family == "excursion_details" {
      assert key[9] == '_' && key[10] == 'd';
    } else {
      assert key[9] == '_' && key[10] == 'i';
    }
  }

  lemma EntityKeysDistinct(f: string, g: string, a: int, b: int)
    requires EntityFamily(f) && EntityFamily(g) && a != b
    ensures IdKey(f, Defined(Num(b))) != IdKey(g, Defined(Num(a)))
  {
    assert ':' !in f && ':' !in g;
    if IdKey(f, Defined(Num(b))) == IdKey(g, Defined(Num(a))) {
      SplitAtColon(f, NumStr(b), g, NumStr(a));
      NumStrInjective(a, b);
    }
  }

  /** A write on excursion a leaves the entity, details and images entries of any other
      numeric excursion b as they were. */
  lemma OtherExcursionSurvives(m: Store, a: int, b: int, family: string)
    requires a != b
    requires EntityFamily(family)
    requires IdKey(family, Defined(Num(b))) in m
    ensures IdKey(family, Defined(Num(b))) in InvalidateStore(m, ExcursionKeys(Defined(Num(a))))
    ensures InvalidateStore(m, ExcursionKeys(Defined(Num(a))))[IdKey(family, Defined(Num(b)))] == m[IdKey(family, Defined(Num(b)))]
  {
    EntityKeyOutsidePrefixes(family, Defined(Num(b)));
    EntityKeysDistinct(family, "excursion", a, b);
    EntityKeysDistinct(family, "excursion_details", a, b);
    EntityKeysDistinct(family, "excursion_images", a, b);
  }

  // ---------------------------------------------------------------------------
  // Query strings

  /** A filter appears in the query exactly when its value is truthy, with its value as text. */
  lemma {:induction false} QueryParamsExact(params: JsValue, names: seq<string>, name: string, text: string)
    ensures (name, text) in QueryParams(params, names) <==>
      name in names && Truthy(OptionalMember(params, name)) && text == ToText(OptionalMember(params, name))
  {
    if names != [] {
      QueryParamsExact(params, names[1..], name, text);
    }
  }

  /** Every pair is named after one of the filters, and distinct filters give at most one
      pair each. */
  lemma {:induction false} QueryParamsNames(params: JsValue, names: seq<string>)
    ensures forall i :: 0 <= i < |QueryParams(params, names)| ==> QueryParams(params, names)[i].0 in names
    ensures (forall i, j :: 0 <= i < j < |names| ==> names[i] != names[j]) ==>
      forall i, j :: 0 <= i < j < |QueryParams(params, names)| ==> QueryParams(params, names)[i].0 != QueryParams(params, names)[j].0
  {
    if names != [] {
      var head, rest := Appended(params, names[0]), names[1..];
      QueryParamsNames(params, rest);
      var q, r := QueryParams(params, names), QueryParams(params, rest);
      assert q == head + r;
      forall i | 0 <= i < |q| ensures q[i].0 in names {
        if i >= |head| {
          assert q[i] == r[i - |head|];
        }
      }
      if forall i, j :: 0 <= i < j < |names| ==> names[i] != names[j] {
        assert forall i, j :: 0 <= i < j < |rest| ==> rest[i] != rest[j] by {
          forall i, j | 0 <= i < j < |rest| ensures rest[i] != rest[j] {
            assert rest[i] == names[i + 1] && rest[j] == names[j + 1];
          }
        }
        forall i, j | 0 <= i < j < |q| ensures q[i].0 != q[j].0 {
          if i < |head| {
            assert q[i].0 == names[0] && q[j] == r[j - |head|];
            var k :| 0 <= k < |rest| && rest[k] == q[j].0;
            assert names[k + 1] == rest[k];
          } else {
            assert q[i] == r[i - |head|] && q[j] == r[j - |head|];
          }
        }
      }
    }
  }

  lemma {:induction false} QueryParamsEmpty(params: JsValue, names: seq<string>)
    ensures QueryParams(params, names) == [] <==> forall i :: 0 <= i < |names| ==> !Truthy(OptionalMember(params, names[i]))
  {
    if names != [] {
      QueryParamsEmpty(params, names[1..]);
      if QueryParams(params, names) == [] {
        assert !Truthy(OptionalMember(params, names[0]));
        forall i | 0 <= i < |names| ensures !Truthy(OptionalMember(params, names[i])) {
          if i > 0 {
            assert names[i] == names[1..][i - 1];
          }
        }
      }
    }
  }

  /** The endpoint carries a "?" exactly when some filter is truthy. */
  lemma ListEndpointHasQueryIff(path: string, params: JsValue, names: seq<string>)
    ensures ListEndpoint(path, params, names) == path <==> forall i :: 0 <= i < |names| ==> !Truthy(OptionalMember(params, names[i]))
  {
    QueryParamsEmpty(params, names);
    var q := QueryParams(params, names);
    if q != [] {
      var parts := seq(|q|, i requires 0 <= i < |q| => FormEncode(q[i].0) + "=" + FormEncode(q[i].1));
      assert parts[0] != "";
      assert QueryString(q) != "" by {
        if |parts| > 1 {
          assert QueryString(q) == parts[0] + "&" + Join(parts[1..], "&");
        }
      }
    }
  }

  /** Letters and digits pass through the form encoding unchanged. */
  lemma {:induction false} FormEncodeKeepsAlphaNumeric(s: string)
    requires forall i :: 0 <= i < |s| ==> IsAlphaNumeric(s[i])
    ensures FormEncode(s) == s
  {
    if s != [] {
      FormEncodeKeepsAlphaNumeric(s[1..]);
    }
  }

  /** The filters {limit: 10, skip: 0, category: "sea"} of the example below. */
  const SAMPLE_FILTERS: JsValue := Defined(Obj([Field("limit", Num(10)), Field("skip", Num(0)), Field("category", Str("sea"))]))

  lemma SampleQueryParams()
    ensures QueryParams(SAMPLE_FILTERS, LIST_FILTERS) == [("category", "sea"), ("limit", "10")]
  {
    QueryParamsOfFour(SAMPLE_FILTERS, "category", "skip", "limit", "excursion_type");
    SampleMembers();
    assert NumStr(10) == "10";
  }

  /** Four filters append one after the other. */
  lemma QueryParamsOfFour(params: JsValue, a: string, b: string, c: string, d: string)
    ensures QueryParams(params, [a, b, c, d]) ==
      Appended(params, a) + (Appended(params, b) + (Appended(params, c) + Appended(params, d)))
  {
    assert QueryParams(params, [d]) == Appended(params, d) by {
      QueryParamsCons(params, d, []);
      assert [d] + [] == [d];
    }
    assert QueryParams(params, [c, d]) == Appended(params, c) + Appended(params, d) by {
      QueryParamsCons(params, c, [d]);
      assert [c] + [d] == [c, d];
    }
    assert QueryParams(params, [b, c, d]) == Appended(params, b) + (Appended(params, c) + Appended(params, d)) by {
      QueryParamsCons(params, b, [c, d]);
      assert [b] + [c, d] == [b, c, d];
    }
    QueryParamsCons(params, a, [b, c, d]);
    assert [a] + [b, c, d] == [a, b, c, d];
  }

  lemma QueryParamsCons(params: JsValue, name: string, rest: seq<string>)
    ensures QueryParams(params, [name] + rest) == Appended(params, name) + QueryParams(params, rest)
  {
    assert ([name] + rest)[1..] == rest;
  }

  /** The members of the sample filters, read by optional chaining. */
  lemma SampleMembers()
    ensures OptionalMember(SAMPLE_FILTERS, "category") == Defined(Str("sea"))
    ensures OptionalMember(SAMPLE_FILTERS, "skip") == Defined(Num(0))
    ensures OptionalMember(SAMPLE_FILTERS, "limit") == Defined(Num(10))
    ensures OptionalMember(SAMPLE_FILTERS, "excursion_type") == Undefined
  {
    assert "limit"[0] != "category"[0] && "skip"[0] != "category"[0];
    assert "limit"[0] != "skip"[0];
    assert "limit"[0] != "excursion_type"[0] && "skip"[0] != "excursion_type"[0] && "category"[0] != "excursion_type"[0];
  }

  lemma QueryStringOfTwo(p1: (string, string), p2: (string, string))
    ensures QueryString([p1, p2]) == FormEncode(p1.0) + "=" + FormEncode(p1.1) + "&" + FormEncode(p2.0) + "=" + FormEncode(p2.1)
  {
    var q := [p1, p2];
    var parts := seq(|q|, i requires 0 <= i < |q| => FormEncode(q[i].0) + "=" + FormEncode(q[i].1));
    assert QueryString(q) == Join(parts, "&");
    assert parts[1..] == [FormEncode(p2.0) + "=" + FormEncode(p2.1)];
    assert Join(parts, "&") == parts[0] + "&" + Join(parts[1..], "&");
  }

  /** Filters made of letters and digits appear in the query string as written. */
  lemma QueryStringOfWords(a: string, b: string, c: string, d: string)
    requires forall i :: 0 <= i < |a| ==> IsAlphaNumeric(a[i])
    requires forall i :: 0 <= i < |b| ==> IsAlphaNumeric(b[i])
    requires forall i :: 0 <= i < |c| ==> IsAlphaNumeric(c[i])
    requires forall i :: 0 <= i < |d| ==> IsAlphaNumeric(d[i])
    ensures QueryString([(a, b), (c, d)]) == a + "=" + b + "&" + c + "=" + d
  {
    QueryStringOfTwo((a, b), (c, d));
    FormEncodeKeepsAlphaNumeric(a);
    FormEncodeKeepsAlphaNumeric(b);
    FormEncodeKeepsAlphaNumeric(c);
    FormEncodeKeepsAlphaNumeric(d);
  }

  lemma SampleQueryString()
    ensures QueryString([("category", "sea"), ("limit", "10")]) == "category=sea&limit=10"
  {
    QueryStringOfWords("category", "sea", "limit", "10");
    SampleQueryText();
  }

  lemma SampleQueryText()
    ensures "category" + "=" + "sea" + "&" + "limit" + "=" + "10" == "category=sea&limit=10"
  {
  }

  /** A falsy skip (0 or absent) is left out, and the remaining filters follow their fixed
      order category, limit, excursion_type whatever the order of the object's own fields. */
  lemma SkipZeroOmitted(params: JsValue)
    requires !Truthy(OptionalMember(params, "skip"))
    ensures QueryParams(params, LIST_FILTERS) ==
      Appended(params, "category") + Appended(params, "limit") + Appended(params, "excursion_type")
    ensures forall i :: 0 <= i < |QueryParams(params, LIST_FILTERS)| ==> QueryParams(params, LIST_FILTERS)[i].0 != "skip"
  {
    QueryParamsOfFour(params, "category", "skip", "limit", "excursion_type");
    assert Appended(params, "skip") == [];
    var q := QueryParams(params, LIST_FILTERS);
    forall i | 0 <= i < |q|
      ensures q[i].0 != "skip"
    {
      var c, l, x := Appended(params, "category"), Appended(params, "limit"), Appended(params, "excursion_type");
      if i < |c| {
        assert q[i] == c[i];
      } else if i < |c| + |l| {
        assert q[i] == l[i - |c|];
      } else {
        assert q[i] == x[i - |c| - |l|];
      }
    }
  }

  /** Illustration: {limit: 10, skip: 0, category: "sea"} gives "category=sea&limit=10". */
  lemma SkipZeroOmittedSample()
    ensures QueryString(QueryParams(SAMPLE_FILTERS, LIST_FILTERS)) == "category=sea&limit=10"
  {
    SampleQueryParams();
    SampleQueryString();
  }

  // ---------------------------------------------------------------------------
  // Images and the full view

  /** A "404" failure of the images read yields the empty list and caches nothing new. */
  lemma ImagesNotFoundIsEmptyAndUncached(b: string, e: Env, id: JsValue)
    requires !Hit(e.entries, IdKey("excursion_images", id), e.now)
    requires Outcome(NextReply(e.replies)).Err? && Contains(Outcome(NextReply(e.replies)).message, "404")
    ensures ImagesStep(b, e, id).1 == Ok(Arr([]))
    ensures forall k :: k in ImagesStep(b, e, id).0.entries ==> k in e.entries && ImagesStep(b, e, id).0.entries[k] == e.entries[k]
  {
  }

  /** The images read never fails with a message containing "404". */
  lemma ImagesNeverFailWith404(b: string, e: Env, id: JsValue)
    ensures ImagesStep(b, e, id).1.Err? ==> !Contains(ImagesStep(b, e, id).1.message, "404")
  {
  }

  /** No step moves the clock. */
  lemma {:induction false} ImagesKeepTime(b: string, e: Env, id: JsValue)
    ensures ImagesStep(b, e, id).0.now == e.now
  {
    RequestSendsOne(b, e.(entries := AfterGet(e.entries, IdKey("excursion_images", id), e.now)),
                    ExcursionPath(id) + "/get_images", GET);
  }

  /** The full view fails only when its own request fails: a failing image fallback is
      swallowed. Whatever it returns after a miss is stored under its key for the default lifetime. */
  lemma FullViewOutcome(b: string, e: Env, id: JsValue)
    requires !Hit(e.entries, IdKey("excursion_full", id), e.now)
    ensures FullStep(b, e, id).1.Ok? <==> Outcome(NextReply(e.replies)).Ok?
    ensures FullStep(b, e, id).1.Ok? ==>
      IdKey("excursion_full", id) in FullStep(b, e, id).0.entries &&
      FullStep(b, e, id).0.entries[IdKey("excursion_full", id)] == Entry(FullStep(b, e, id).1.value, e.now + DEFAULT_TTL)
  {
    var e1 := e.(entries := AfterGet(e.entries, IdKey("excursion_full", id), e.now));
    var (e2, r) := RequestStep(b, e1, ExcursionPath(id) + "/full", GET);
    RequestSendsOne(b, e1, ExcursionPath(id) + "/full", GET);
    ImagesKeepTime(b, e2, id);
  }

  /** What a JSON write of the facade does with its request: exactly `verb` on `path` with
      the JSON text of `body` and the auth headers is sent, the result is that answer's
      outcome, a success invalidates the cache with `keys` and keeps the session, and a
      failure adds no invalidation. */
  ghost predicate JsonWrite(b: string, e: Env, step: (Env, Result<Json>), path: string, verb: string, body: Json, keys: set<string>) {
    var init := ActionInit(verb, e.storage, Text(Stringify(body)));
    step.0.sent == e.sent + [Outgoing(b, path, init, e.storage)] &&
    step.1 == Outcome(NextReply(e.replies)) &&
    (step.1.Ok? ==> step.0.entries == InvalidateStore(e.entries, keys) && step.0.storage == e.storage) &&
    (step.1.Err? ==> step == RequestStep(b, e, path, init))
  }

  /** createExcursion, updateExcursion, createExcursionDetails and updateExcursionDetails each
      send one JSON request and invalidate only after it succeeds: the create without an id,
      the others by the excursion's id. */
  lemma ExcursionWritesInvalidateAfterSuccess(b: string, e: Env, id: JsValue, body: Json)
    ensures JsonWrite(b, e, CreateExcursionStep(b, e, body), "/excursions", "POST", body, ExcursionKeys(Undefined))
    ensures JsonWrite(b, e, UpdateExcursionStep(b, e, id, body), ExcursionPath(id), "PUT", body, ExcursionKeys(id))
    ensures JsonWrite(b, e, CreateDetailsStep(b, e, id, body), DetailsPath(id), "POST", body, ExcursionKeys(id))
    ensures JsonWrite(b, e, UpdateDetailsStep(b, e, id, body), DetailsPath(id), "PUT", body, ExcursionKeys(id))
  {
    var text := Text(Stringify(body));
    RequestSendsOne(b, e, "/excursions", ActionInit("POST", e.storage, text));
    RequestSendsOne(b, e, ExcursionPath(id), ActionInit("PUT", e.storage, text));
    RequestSendsOne(b, e, DetailsPath(id), ActionInit("POST", e.storage, text));
    RequestSendsOne(b, e, DetailsPath(id), ActionInit("PUT", e.storage, text));
  }

  /** addExcursionImage sends one form upload of the file by direct fetch; its result is the
      answer's outcome, a success drops the images key and invalidates by id, and nothing
      else changes: a failure, a 401 included, leaves the cache and the session alone. */
  lemma AddImageEffects(b: string, e: Env, id: JsValue, file: File)
    ensures AddImageStep(b, e, id, file).0.sent ==
      e.sent + [HttpRequest(b + (ExcursionPath(id) + "/add_image"), "POST", AuthHeaders(e.storage), Form([("image_file", file)]))]
    ensures AddImageStep(b, e, id, file).1 == RawOutcome(NextReply(e.replies))
    ensures AddImageStep(b, e, id, file).0.storage == e.storage && AddImageStep(b, e, id, file).0.location == e.location
    ensures AddImageStep(b, e, id, file).1.Err? ==> AddImageStep(b, e, id, file).0.entries == e.entries
    ensures AddImageStep(b, e, id, file).1.Ok? ==> AddImageStep(b, e, id, file).0.entries == AfterImageUpload(e.entries, id)
  {
  }

  /** The uploads of a bulk upload settle as `Promise.all` over them: success carries one image
      per file, each the result of that file's upload. */
  lemma {:induction false} UploadAllSucceeds(b: string, e: Env, id: JsValue, files: seq<File>)
    ensures var r := UploadAllStep(b, e, id, files).1;
      r.Ok? ==> (|r.value| == |files| &&
        forall i :: 0 <= i < |files| ==> AddImageStep(b, UploadAllStep(b, e, id, files[..i]).0, id, files[i]).1 == Ok(r.value[i]))
  {
    if files != [] {
      var n := |files| - 1;
      UploadAllSucceeds(b, e, id, files[..n]);
      var r := UploadAllStep(b, e, id, files).1;
      if r.Ok? {
        var (e1, done) := UploadAllStep(b, e, id, files[..n]);
        var last := AddImageStep(b, e1, id, files[n]).1;
        assert done.Ok? && last.Ok? && r.value == done.value + [last.value];
        forall i | 0 <= i < |files|
          ensures AddImageStep(b, UploadAllStep(b, e, id, files[..i]).0, id, files[i]).1 == Ok(r.value[i])
        {
          if i < n {
            assert files[..n][..i] == files[..i] && files[..n][i] == files[i];
            assert AddImageStep(b, UploadAllStep(b, e, id, files[..n][..i]).0, id, files[..n][i]).1 == Ok(done.value[i]);
            assert r.value[i] == done.value[i];
          } else {
            assert files[..i] == files[..n];
            assert r.value[i] == last.value;
          }
        }
      }
    }
  }

  /** A failed bulk upload reports the first upload, in file order, that failed, after all the
      uploads before it succeeded. */
  lemma {:induction false} UploadAllFails(b: string, e: Env, id: JsValue, files: seq<File>)
    ensures var r := UploadAllStep(b, e, id, files).1;
      r.Err? ==>
        exists i :: 0 <= i < |files| && UploadAllStep(b, e, id, files[..i]).1.Ok? &&
                    AddImageStep(b, UploadAllStep(b, e, id, files[..i]).0, id, files[i]).1 == Err(r.message)
  {
    if files != [] {
      var n := |files| - 1;
      UploadAllFails(b, e, id, files[..n]);
      var (e1, done) := UploadAllStep(b, e, id, files[..n]);
      var r := UploadAllStep(b, e, id, files).1;
      if done.Err? {
        var i :| 0 <= i < n && UploadAllStep(b, e, id, files[..n][..i]).1.Ok? &&
          AddImageStep(b, UploadAllStep(b, e, id, files[..n][..i]).0, id, files[..n][i]).1 == Err(done.message);
        assert files[..n][..i] == files[..i] && files[..n][i] == files[i];
        assert r == done;
      } else if r.Err? {
        assert AddImageStep(b, e1, id, files[n]).1 == Err(r.message);
      }
    }
  }

  /** bulkAddExcursionImages: a success returns one image per file, each that file's upload
      result, and afterwards the images key is gone and the cache is invalidated by id; a
      failure returns the first failing upload's message and adds no invalidation of its own.
      Either way every file was sent and the session is kept. */
  lemma BulkAddOutcome(b: string, e: Env, id: JsValue, files: seq<File>)
    ensures var (e1, r) := UploadAllStep(b, e, id, files);
      BulkAddStep(b, e, id, files).1.Ok? ==>
        (r.Ok? && BulkAddStep(b, e, id, files).1.value == Arr(r.value) && |r.value| == |files| &&
         BulkAddStep(b, e, id, files).0.entries == AfterImageUpload(e1.entries, id) &&
         IdKey("excursion_images", id) !in BulkAddStep(b, e, id, files).0.entries)
    ensures BulkAddStep(b, e, id, files).1.Err? ==>
      (BulkAddStep(b, e, id, files).0 == UploadAllStep(b, e, id, files).0 &&
       exists i :: 0 <= i < |files| && UploadAllStep(b, e, id, files[..i]).1.Ok? &&
                   AddImageStep(b, UploadAllStep(b, e, id, files[..i]).0, id, files[i]).1 == Err(BulkAddStep(b, e, id, files).1.message))
    ensures |BulkAddStep(b, e, id, files).0.sent| == |e.sent| + |files|
    ensures BulkAddStep(b, e, id, files).0.storage == e.storage && BulkAddStep(b, e, id, files).0.location == e.location
  {
    UploadAllSucceeds(b, e, id, files);
    UploadAllFails(b, e, id, files);
    UploadAllSendsEveryFile(b, e, id, files);
  }

  /** A full view that comes with images costs exactly one request and is stored as received. */
  lemma FullViewWithImagesMakesOneRequest(b: string, e: Env, id: JsValue)
    requires !Hit(e.entries, IdKey("excursion_full", id), e.now)
    requires Outcome(NextReply(e.replies)).Ok?
    requires !LacksImages(Outcome(NextReply(e.replies)).value)
    ensures FullStep(b, e, id).1 == Outcome(NextReply(e.replies))
    ensures |FullStep(b, e, id).0.sent| == |e.sent| + 1
    ensures FullStep(b, e, id).0.entries ==
      Put(AfterGet(e.entries, IdKey("excursion_full", id), e.now), IdKey("excursion_full", id), Outcome(NextReply(e.replies)).value, DEFAULT_TTL, e.now)
  {
  }

  /** A full view that comes without images is completed by the images read: after a miss,
      a truthy response without images gets the images that read returns, and keeps its own
      when that read fails. */
  lemma FullViewFallsBackToImages(b: string, e: Env, id: JsValue)
    requires !Hit(e.entries, IdKey("excursion_full", id), e.now)
    requires Outcome(NextReply(e.replies)).Ok?
    requires JsonTruthy(Outcome(NextReply(e.replies)).value) && LacksImages(Outcome(NextReply(e.replies)).value)
    ensures var e2 := RequestStep(b, e.(entries := AfterGet(e.entries, IdKey("excursion_full", id), e.now)), ExcursionPath(id) + "/full", GET).0;
      ImagesStep(b, e2, id).1.Ok? ==>
        FullStep(b, e, id).1 == Ok(WithImages(Outcome(NextReply(e.replies)).value, ImagesStep(b, e2, id).1.value))
    ensures var e2 := RequestStep(b, e.(entries := AfterGet(e.entries, IdKey("excursion_full", id), e.now)), ExcursionPath(id) + "/full", GET).0;
      ImagesStep(b, e2, id).1.Ok? && Outcome(NextReply(e.replies)).value.Obj? ==>
        OptionalMember(Defined(FullStep(b, e, id).1.value), "images") == Defined(ImagesStep(b, e2, id).1.value)
    ensures var e2 := RequestStep(b, e.(entries := AfterGet(e.entries, IdKey("excursion_full", id), e.now)), ExcursionPath(id) + "/full", GET).0;
      ImagesStep(b, e2, id).1.Err? ==> FullStep(b, e, id).1 == Outcome(NextReply(e.replies))
  {
    var e1 := e.(entries := AfterGet(e.entries, IdKey("excursion_full", id), e.now));
    RequestSendsOne(b, e1, ExcursionPath(id) + "/full", GET);
  }

  /** A successful image deletion clears the three prefixes; any failure, a 401 included,
      changes neither the cache nor the session. The result is true exactly for a body of
      `true` or "true". */
  lemma DeleteImageEffects(b: string, e: Env, imageId: int)
    ensures DeleteImageStep(b, e, imageId).0.storage == e.storage
    ensures DeleteImageStep(b, e, imageId).0.location == e.location
    ensures DeleteImageStep(b, e, imageId).1.Err? ==> DeleteImageStep(b, e, imageId).0.entries == e.entries
    ensures DeleteImageStep(b, e, imageId).1.Ok? ==>
      DeleteImageStep(b, e, imageId).0.entries == AfterImageDelete(e.entries) &&
      (DeleteImageStep(b, e, imageId).1.value <==> RawOutcome(NextReply(e.replies)).value in {Bool(true), Str("true")})
  {
  }

  /** After an image deletion exactly the keys outside the three prefixes remain. */
  lemma AfterImageDeleteExact(m: Store, k: string)
    ensures k in AfterImageDelete(m) <==>
      k in m && !StartsWith(k, "excursion_images") && !StartsWith(k, "excursion_full") && !StartsWith(k, "excursions")
  {
  }

  // ---------------------------------------------------------------------------
  // Composite operations

  /** A bulk upload sends every file, whatever fails, and never tears down the session. */
  lemma {:induction false} UploadAllSendsEveryFile(b: string, e: Env, id: JsValue, files: seq<File>)
    ensures |UploadAllStep(b, e, id, files).0.sent| == |e.sent| + |files|
    ensures UploadAllStep(b, e, id, files).0.storage == e.storage
    ensures UploadAllStep(b, e, id, files).0.location == e.location
  {
    if files != [] {
      UploadAllSendsEveryFile(b, e, id, files[..|files| - 1]);
    }
  }

  /** The deletions of a comprehensive update are all attempted, and none of them can
      tear down the session. */
  lemma {:induction false} DeleteImagesAttemptsEvery(b: string, e: Env, imageIds: seq<int>)
    ensures |DeleteImagesStep(b, e, imageIds).sent| == |e.sent| + |imageIds|
    ensures DeleteImagesStep(b, e, imageIds).storage == e.storage
    ensures DeleteImagesStep(b, e, imageIds).location == e.location
  {
    if imageIds != [] {
      DeleteImagesAttemptsEvery(b, e, imageIds[..|imageIds| - 1]);
    }
  }

  /** When the details update reports 404, the next request creates the details with the
      defaults, and its outcome is the step's outcome. */
  lemma DetailsNotFoundCreatesDefaults(b: string, e: Env, id: JsValue, details: Json)
    requires UpdateDetailsStep(b, e, id, details).1.Err?
    requires Contains(UpdateDetailsStep(b, e, id, details).1.message, "404")
    ensures var e1 := UpdateDetailsStep(b, e, id, details).0;
      var (e2, r) := DetailsUpdateOrCreateStep(b, e, id, details);
      e2.sent == e1.sent + [Outgoing(b, DetailsPath(id), ActionInit("POST", e1.storage, Text(Stringify(DetailsDefaults(details)))), e1.storage)] &&
      r == Outcome(NextReply(e1.replies))
  {
  }

  /** A failed create ends `createExcursionWithDetailsAndImages` at once: only the POST was
      sent and its error is the result. */
  lemma CreateFailureStops(b: string, e: Env, excursion: Json, details: JsValue, images: seq<File>)
    requires CreateExcursionStep(b, e, excursion).1.Err?
    ensures CreateWithDetailsStep(b, e, excursion, details, images) == CreateExcursionStep(b, e, excursion)
    ensures CreateWithDetailsStep(b, e, excursion, details, images).0.sent ==
      e.sent + [Outgoing(b, "/excursions", ActionInit("POST", e.storage, Text(Stringify(excursion))), e.storage)]
  {
  }

  /** Without details and images, the created excursion's full view is read right after the
      create, and never from the cache: the create cleared every "excursion_full" key, so
      `FullViewOutcome` applies to that read. */
  lemma CreatedFullViewIsFetched(b: string, e: Env, excursion: Json, id: JsValue)
    requires CreateExcursionStep(b, e, excursion).1.Ok?
    requires Member(Defined(CreateExcursionStep(b, e, excursion).1.value), "id") == Ok(id)
    ensures var e1 := CreateExcursionStep(b, e, excursion).0;
      CreateWithDetailsStep(b, e, excursion, Undefined, []) == FullStep(b, e1, id) &&
      !Hit(e1.entries, IdKey("excursion_full", id), e1.now)
  {
    var key := IdKey("excursion_full", id);
    assert StartsWith(key, "excursion_full");
    var e1 := CreateExcursionStep(b, e, excursion).0;
    assert key !in e1.entries;
  }

  /** Any other failure of the details update ends the comprehensive update with that
      error: the excursion update already sent and its invalidation stay in place, and no
      further request is made. */
  lemma ComprehensiveNoRollback(b: string, e: Env, id: JsValue, update: Json, details: JsValue,
                                newImages: seq<File>, deletedImageIds: seq<int>)
    requires UpdateExcursionStep(b, e, id, update).1.Ok?
    requires Truthy(details)
    requires UpdateDetailsStep(b, UpdateExcursionStep(b, e, id, update).0, id, details.json).1.Err?
    requires !Contains(UpdateDetailsStep(b, UpdateExcursionStep(b, e, id, update).0, id, details.json).1.message, "404")
    ensures ComprehensiveStep(b, e, id, update, details, newImages, deletedImageIds)
         == UpdateDetailsStep(b, UpdateExcursionStep(b, e, id, update).0, id, details.json)
    ensures ComprehensiveStep(b, e, id, update, details, newImages, deletedImageIds).0.sent
         == e.sent + [Outgoing(b, ExcursionPath(id), ActionInit("PUT", e.storage, Text(Stringify(update))), e.storage),
                      Outgoing(b, DetailsPath(id), ActionInit("PUT", e.storage, Text(Stringify(details.json))), e.storage)]
  {
  }
}
