/** `adminGuard`, the per-route guard for admin pages: authentication is checked
    first, then the superuser flag. */
module Guard {
  import opened Wrappers
  import opened Js
  import opened Gateway
  import opened Auth
  import opened Router

  datatype GuardResult = Allow | RedirectTo(path: string)

  /** `adminGuard()`. It fails when `isSuperuser()` throws. */
  function AdminGuard(storage: map<string, string>, parse: string -> Result<Json>): Result<GuardResult> {
    if !IsAuthenticated(storage) then Ok(RedirectTo("/login"))
    else
      match IsSuperuser(storage, parse)
      case Err(m) => Err(m)
      case Ok(flag) => if !JsonTruthy(flag) then Ok(RedirectTo("/access-denied")) else Ok(Allow)
  }

  /** The three outcomes: the login page without a session, the access-denied page for a
      session that is not a superuser's, and admission exactly for an authenticated superuser. */
  lemma GuardCases(storage: map<string, string>, parse: string -> Result<Json>)
    ensures !IsAuthenticated(storage) ==> AdminGuard(storage, parse) == Ok(RedirectTo("/login"))
    ensures IsAuthenticated(storage) && IsSuperuser(storage, parse).Ok? && !JsonTruthy(IsSuperuser(storage, parse).value) ==>
      AdminGuard(storage, parse) == Ok(RedirectTo("/access-denied"))
    ensures AdminGuard(storage, parse) == Ok(Allow) <==>
      IsAuthenticated(storage) && IsSuperuser(storage, parse).Ok? && JsonTruthy(IsSuperuser(storage, parse).value)
  {
  }

  /** A superuser record left behind without a token does not open the admin pages. */
  lemma StaleRecordWithoutToken(storage: map<string, string>, parse: string -> Result<Json>)
    requires ACCESS_TOKEN !in storage
    requires IsSuperuser(storage, parse) == Ok(Bool(true))
    ensures AdminGuard(storage, parse) == Ok(RedirectTo("/login"))
  {
  }

  /** The guard and the router's `beforeEach` decide every spelling of the admin page alike. */
  lemma GuardAgreesWithRouter(path: string, storage: map<string, string>, parse: string -> Result<Json>)
    requires Matches("/admin", path)
    ensures AdminGuard(storage, parse).Ok? <==> BeforeEach(Resolve(path), storage, parse).Ok?
    ensures AdminGuard(storage, parse) == Ok(Allow) <==> BeforeEach(Resolve(path), storage, parse) == Ok(Proceed)
    ensures forall p :: AdminGuard(storage, parse) == Ok(RedirectTo(p)) <==> BeforeEach(Resolve(path), storage, parse) == Ok(Redirect(p))
  {
    RouteFlags(path);
    AdminSpellingIsNotLogin(path);
  }
}
