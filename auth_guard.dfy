/** The two route guards. Each reads the authenticated flag once (`take(1)`) and
    either lets the navigation through or redirects. */
module Guards {
  import opened Wrappers
  import Auth

  /** `router.navigate([path], { queryParams: { returnUrl } })` */
  datatype Navigation = Navigation(path: string, returnUrl: Option<string>)

  datatype Verdict = Allow | Redirect(to: Navigation)

  const LandingPath := "/polls"

  /** `AuthGuard`'s decision for the flag it read and the requested url. */
  function AuthGuardVerdict(authenticated: bool, url: string): (v: Verdict)
    ensures v.Allow? <==> authenticated
    ensures v.Redirect? ==> v.to.path == Auth.LoginPath && v.to.returnUrl == Some(url)
  {
    if authenticated then Allow else Redirect(Navigation(Auth.LoginPath, Some(url)))
  }

  /** `NoAuthGuard`'s decision for the flag it read. */
  function NoAuthGuardVerdict(authenticated: bool): (v: Verdict)
    ensures v.Allow? <==> !authenticated
    ensures v.Redirect? ==> v.to == Navigation(LandingPath, None)
  {
    if authenticated then Redirect(Navigation(LandingPath, None)) else Allow
  }

  /** For any state of the flag exactly one of the two guards lets a navigation through,
      and neither ever redirects to the route it protects. */
  lemma GuardsAreComplementary(authenticated: bool, url: string)
    ensures AuthGuardVerdict(authenticated, url).Allow? != NoAuthGuardVerdict(authenticated).Allow?
    ensures AuthGuardVerdict(authenticated, url).Redirect? ==>
              NoAuthGuardVerdict(authenticated).Allow?
    ensures NoAuthGuardVerdict(authenticated).Redirect? ==>
              AuthGuardVerdict(authenticated, NoAuthGuardVerdict(authenticated).to.path).Allow?
  {
  }

  class AuthGuard {
    const authService: Auth.AuthService

    constructor (authService: Auth.AuthService)
      ensures this.authService == authService
    {
      this.authService := authService;
    }

    /** `canActivate(route, state)`: with a valid token but a false flag it starts
        `loadUserFromToken()`, whose profile fetch answers later; the verdict uses
        the flag as it is now and never waits for that fetch. */
    method CanActivate(url: string, now: int) returns (allowed: bool, navigation: Option<Navigation>, fetch: bool)
      requires authService.Valid()
      modifies authService
      ensures unchanged(authService)
      ensures fetch <==> old(authService.IsTokenValid(now)) && !old(authService.authenticated)
      ensures allowed <==> old(authService.authenticated)
      ensures allowed <==> navigation.None?
      ensures AuthGuardVerdict(old(authService.authenticated), url) ==
                (if allowed then Allow else Redirect(navigation.value))
    {
      fetch := false;
      if authService.IsTokenValid(now) && !authService.authenticated {
        fetch := authService.LoadUserFromToken(now);
      }
      var verdict := AuthGuardVerdict(authService.authenticated, url);
      allowed := verdict.Allow?;
      navigation := if verdict.Redirect? then Some(verdict.to) else None;
    }
  }

  class NoAuthGuard {
    const authService: Auth.AuthService

    constructor (authService: Auth.AuthService)
      ensures this.authService == authService
    {
      this.authService := authService;
    }

    /** `canActivate()` */
    method CanActivate() returns (allowed: bool, navigation: Option<Navigation>)
      ensures allowed <==> !authService.authenticated
      ensures allowed <==> navigation.None?
      ensures NoAuthGuardVerdict(authService.authenticated) ==
                (if allowed then Allow else Redirect(navigation.value))
    {
      var verdict := NoAuthGuardVerdict(authService.authenticated);
      allowed := verdict.Allow?;
      navigation := if verdict.Redirect? then Some(verdict.to) else None;
    }
  }
}
