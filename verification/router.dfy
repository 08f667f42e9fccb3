/** The application's routes, their `meta` flags, the global `beforeEach` guard that
    decides whether a navigation proceeds or is redirected, and the scroll position
    set after each navigation. */
module Router {
  import opened Wrappers
  import opened Js
  import opened Auth

  datatype Meta = Meta(requiresAuth: bool, requiresAdmin: bool)

  const NO_META := Meta(false, false)

  datatype Route = Route(path: string, name: string, meta: Meta)

  /** The route table, in declaration order. */
  const ROUTES: seq<Route> := [
    Route("/", "Home", NO_META),
    Route("/access-denied", "AccessDenied", Meta(true, false)),
    Route("/excursion/:id", "excursion-detail", NO_META),
    Route("/:pathMatch(.*)*", "NotFoundView", NO_META),
    Route("/about", "About", NO_META),
    Route("/reviews", "ReviewsView", NO_META),
    Route("/admin", "Admin", Meta(true, true)),
    Route("/login", "Login", NO_META)
  ]

  /** A path is static when it has no `:param` segment. */
  predicate Static(routePath: string) {
    ':' !in routePath
  }

  /** ASCII case folding, as a case-insensitive regular expression without the `u` flag
      compares the route paths, which are all ASCII. */
  function LowerChar(c: char): char {
    if 'A' <= c <= 'Z' then (c as int + 32) as char else c
  }

  function FoldCase(s: string): (r: string)
    ensures |r| == |s|
    ensures forall i :: 0 <= i < |s| ==> r[i] == LowerChar(s[i])
  {
    if s == [] then [] else [LowerChar(s[0])] + FoldCase(s[1..])
  }

  /** A static record matches a path as the router's default options make it: case-insensitively
      (`sensitive: false`) and with one optional trailing slash (`strict: false`) unless the record's
      own path already ends in one. The route paths are lower case, so only the path is folded. */
  predicate Matches(routePath: string, path: string) {
    FoldCase(path) == routePath ||
    (!(|routePath| > 0 && routePath[|routePath| - 1] == '/') && FoldCase(path) == routePath + "/")
  }

  /** The flags of the first static record matching the path. The two dynamic records, the
      excursion page and the catch-all, rank below every static record and carry no flags, so a
      path no static record matches resolves to no flags. */
  function MetaIn(routes: seq<Route>, path: string): Meta {
    if routes == [] then NO_META
    else if Static(routes[0].path) && Matches(routes[0].path, path) then routes[0].meta
    else MetaIn(routes[1..], path)
  }

  function MetaOf(path: string): Meta {
    MetaIn(ROUTES, path)
  }

  /** A navigation target: its path as written and the flags of the matched record. */
  datatype Target = Target(path: string, meta: Meta)

  function Resolve(path: string): Target {
    Target(path, MetaOf(path))
  }

  datatype Navigation = Proceed | Redirect(to: string)

  /** The `beforeEach` guard. It fails when `isSuperuser()` throws. */
  function BeforeEach(to: Target, storage: map<string, string>, parse: string -> Result<Json>): Result<Navigation> {
    if to.meta.requiresAuth && !IsAuthenticated(storage) then Ok(Redirect("/login"))
    else if to.meta.requiresAdmin && IsSuperuser(storage, parse).Err? then Err(IsSuperuser(storage, parse).message)
    else if to.meta.requiresAdmin && !JsonTruthy(IsSuperuser(storage, parse).value) then Ok(Redirect("/access-denied"))
    else if to.path == "/login" && IsAuthenticated(storage) then Ok(Redirect("/admin"))
    else Ok(Proceed)
  }

  datatype ScrollPosition = ScrollPosition(top: int, behavior: string)

  /** `scrollBehavior(to, from, savedPosition)`: always the top of the page, scrolled smoothly. */
  function ScrollBehavior(to: Target, savedPosition: Option<ScrollPosition>): (p: ScrollPosition)
    ensures p == ScrollPosition(0, "smooth")
  {
    ScrollPosition(0, "smooth")
  }

  // ---------------------------------------------------------------------------
  // Properties

  /** Only the spellings of two routes carry flags: those of `/admin` both, those of
      `/access-denied` only `requiresAuth`. */
  lemma RouteFlags(path: string)
    ensures MetaOf(path) ==
      if Matches("/admin", path) then Meta(true, true)
      else if Matches("/access-denied", path) then Meta(true, false)
      else NO_META
  {
    MetaSteps(path);
    SpellingsDiffer(path);
  }

  /** Each record of the table in turn: a static record that matches decides, any other is skipped. */
  lemma MetaSteps(path: string)
    ensures MetaOf(path) ==
      if Matches("/", path) then NO_META
      else if Matches("/access-denied", path) then Meta(true, false)
      else if Matches("/about", path) || Matches("/reviews", path) then NO_META
      else if Matches("/admin", path) then Meta(true, true)
      else NO_META
  {
    var r := ROUTES;
    StaticPaths();
    assert r[8..] == [];
    MetaInStep(r, 7, path);
    MetaInStep(r, 6, path);
    MetaInStep(r, 5, path);
    MetaInStep(r, 4, path);
    MetaInStep(r, 3, path);
    MetaInStep(r, 2, path);
    MetaInStep(r, 1, path);
    MetaInStep(r, 0, path);
    assert r[0..] == r;
  }

  lemma MetaInStep(routes: seq<Route>, k: nat, path: string)
    requires k < |routes|
    ensures MetaIn(routes[k..], path) ==
      if Static(routes[k].path) && Matches(routes[k].path, path) then routes[k].meta else MetaIn(routes[k + 1..], path)
  {
    assert routes[k..][1..] == routes[k + 1..];
  }

  /** Which records are static. */
  lemma StaticPaths()
    ensures Static("/") && Static("/access-denied") && Static("/about") && Static("/reviews")
    ensures Static("/admin") && Static("/login")
    ensures !Static("/excursion/:id") && !Static("/:pathMatch(.*)*")
  {
    assert "/excursion/:id"[11] == ':';
    assert "/:pathMatch(.*)*"[1] == ':';
  }

  /** The spellings of `/admin` match no earlier static record, nor do those of `/access-denied`. */
  lemma SpellingsDiffer(path: string)
    ensures Matches("/admin", path) ==>
      !Matches("/", path) && !Matches("/access-denied", path) && !Matches("/about", path) && !Matches("/reviews", path)
    ensures Matches("/access-denied", path) ==> !Matches("/", path)
  {
    var f := FoldCase(path);
    if Matches("/admin", path) {
      assert f[2] == 'd';
      assert f[1] == 'a';
      assert |f| > 2;
    }
    if Matches("/access-denied", path) {
      assert |f| > 2;
    }
  }

  /** The paths the guard compares with or redirects to: `/admin` matches its own record and
      not the access-denied one, `/access-denied` does not match the admin record, and `/login`
      matches neither. */
  lemma FixedPaths()
    ensures Matches("/admin", "/admin") && !Matches("/access-denied", "/admin")
    ensures !Matches("/admin", "/access-denied")
    ensures !Matches("/admin", "/login") && !Matches("/access-denied", "/login")
  {
    AdminPathMatches();
    AccessDeniedPathMatches();
    LoginPathMatches();
  }

  lemma AdminPathMatches()
    ensures Matches("/admin", "/admin") && !Matches("/access-denied", "/admin")
  {
    FoldLowerCase("/admin");
  }

  lemma AccessDeniedPathMatches()
    ensures !Matches("/admin", "/access-denied")
  {
    assert |FoldCase("/access-denied")| == |"/access-denied"| == 14;
  }

  lemma LoginPathMatches()
    ensures !Matches("/admin", "/login") && !Matches("/access-denied", "/login")
  {
    FoldLowerCase("/login");
    assert "/login"[1] != "/admin"[1];
  }

  /** A path without capitals folds to itself. */
  lemma FoldLowerCase(s: string)
    requires forall i :: 0 <= i < |s| ==> !('A' <= s[i] <= 'Z')
    ensures FoldCase(s) == s
  {
  }

  /** No spelling of the admin page is `/login` as written. */
  lemma AdminSpellingIsNotLogin(path: string)
    requires Matches("/admin", path)
    ensures path != "/login"
  {
    assert |path| > 1 && LowerChar(path[1]) == FoldCase(path)[1] == 'a';
  }

  /** `/Admin` and `/admin/` are spellings of `/admin`: they carry its flags, while `to.path`
      stays as written. */
  lemma AdminSpellings()
    ensures Resolve("/Admin") == Target("/Admin", Meta(true, true))
    ensures Resolve("/admin/") == Target("/admin/", Meta(true, true))
  {
    CapitalisedAdmin();
    SlashedAdmin();
  }

  lemma CapitalisedAdmin()
    ensures Resolve("/Admin") == Target("/Admin", Meta(true, true))
  {
    assert FoldCase("/Admin") == "/admin";
    RouteFlags("/Admin");
  }

  lemma SlashedAdmin()
    ensures Resolve("/admin/") == Target("/admin/", Meta(true, true))
  {
    FoldLowerCase("/admin/");
    RouteFlags("/admin/");
  }

  /** The first static record matching the path gives the flags. */
  lemma {:induction false} MetaAt(routes: seq<Route>, i: int, path: string)
    requires 0 <= i < |routes| && Static(routes[i].path) && Matches(routes[i].path, path)
    requires forall j :: 0 <= j < i ==> !(Static(routes[j].path) && Matches(routes[j].path, path))
    ensures MetaIn(routes, path) == routes[i].meta
  {
    if i > 0 {
      MetaAt(routes[1..], i - 1, path);
    }
  }

  /** A target that requires authentication sends an unauthenticated user to the login page,
      whatever the stored user record says. */
  lemma UnauthenticatedGoesToLogin(to: Target, storage: map<string, string>, parse: string -> Result<Json>)
    requires to.meta.requiresAuth && !IsAuthenticated(storage)
    ensures BeforeEach(to, storage, parse) == Ok(Redirect("/login"))
  {
  }

  /** Every spelling of the admin page is reached exactly by an authenticated superuser;
      without a session it sends the user to the login page, and an authenticated user who
      is not a superuser to the access-denied page. */
  lemma AdminProceedsIff(path: string, storage: map<string, string>, parse: string -> Result<Json>)
    requires Matches("/admin", path)
    ensures BeforeEach(Resolve(path), storage, parse) == Ok(Proceed) <==>
      IsAuthenticated(storage) && IsSuperuser(storage, parse).Ok? && JsonTruthy(IsSuperuser(storage, parse).value)
    ensures !IsAuthenticated(storage) ==> BeforeEach(Resolve(path), storage, parse) == Ok(Redirect("/login"))
    ensures IsAuthenticated(storage) && IsSuperuser(storage, parse) == Ok(Bool(false)) ==>
      BeforeEach(Resolve(path), storage, parse) == Ok(Redirect("/access-denied"))
  {
    RouteFlags(path);
    AdminSpellingIsNotLogin(path);
  }

  /** The login page sends an authenticated user on to the admin page. */
  lemma LoginPageRedirect(storage: map<string, string>, parse: string -> Result<Json>)
    ensures BeforeEach(Resolve("/login"), storage, parse) ==
      if IsAuthenticated(storage) then Ok(Redirect("/admin")) else Ok(Proceed)
  {
    RouteFlags("/login");
    FixedPaths();
  }

  /** Every page that is no spelling of the two flagged ones, and is not `/login` as written,
      is open to everyone; so `/Login` does not send a signed-in user on. */
  lemma OpenPagesProceed(path: string, storage: map<string, string>, parse: string -> Result<Json>)
    requires !Matches("/admin", path) && !Matches("/access-denied", path) && path != "/login"
    ensures BeforeEach(Resolve(path), storage, parse) == Ok(Proceed)
  {
    RouteFlags(path);
  }

  /** Redirects settle: when the stored user record reads, following a redirect, and at most
      one more, reaches a page that proceeds. */
  lemma RedirectsSettle(path: string, storage: map<string, string>, parse: string -> Result<Json>)
    requires IsSuperuser(storage, parse).Ok?
    requires BeforeEach(Resolve(path), storage, parse).Ok? && BeforeEach(Resolve(path), storage, parse).value.Redirect?
    ensures var next := BeforeEach(Resolve(path), storage, parse).value.to;
      BeforeEach(Resolve(next), storage, parse) == Ok(Proceed) ||
      (BeforeEach(Resolve(next), storage, parse) == Ok(Redirect("/access-denied")) &&
       BeforeEach(Resolve("/access-denied"), storage, parse) == Ok(Proceed))
  {
    FixedPaths();
    RouteFlags(path);
    RouteFlags("/login");
    RouteFlags("/admin");
    RouteFlags("/access-denied");
  }

  /** The scroll position depends on nothing. */
  lemma ScrollIgnoresInputs(a: Target, b: Target, x: Option<ScrollPosition>, y: Option<ScrollPosition>)
    ensures ScrollBehavior(a, x) == ScrollBehavior(b, y)
  {
  }
}
