/**
 * The route table and the guard in front of every page (src/routes/AllRoutes.tsx).
 */
module Routes {
  import opened Wrappers
  import opened Storage
  import Auth

  /** What the guard renders. */
  datatype Screen = Spinner | LoginScreen | Child

  /** `ProtectedRoute`: the spinner while loading, then the page if authenticated, else the sign-in page. */
  function Guard(isLoading: bool, isAuthenticated: bool): (s: Screen)
    ensures isLoading ==> s == Spinner
    ensures !isLoading && isAuthenticated ==> s == Child
    ensures !isLoading && !isAuthenticated ==> s == LoginScreen
  {
    if isLoading then Spinner else if isAuthenticated then Child else LoginScreen
  }

  datatype Page = Dashboard | RsvpDashboard | RsvpPage | ChatPage
  datatype Route = Route(path: string, page: Page, isProtected: bool)

  /** The four routes, each behind the guard (src/routes/AllRoutes.tsx:24-27). */
  const AllRoutes := [
    Route("/", Dashboard, true),
    Route("/rsvp-dashboard", RsvpDashboard, true),
    Route("/rsvp/:id", RsvpPage, true),
    Route("/rsvp/chat/:id", ChatPage, true)
  ]

  /** Every route is guarded, and no two routes share a path or a page. */
  lemma RouteTable()
    ensures |AllRoutes| == 4
    ensures forall i :: 0 <= i < |AllRoutes| ==> AllRoutes[i].isProtected
    ensures forall i, j :: 0 <= i < j < |AllRoutes| ==> AllRoutes[i].path != AllRoutes[j].path
    ensures forall i, j :: 0 <= i < j < |AllRoutes| ==> AllRoutes[i].page != AllRoutes[j].page
  {
    var r := AllRoutes;
    assert r[0].path != r[1].path && r[0].path != r[2].path && r[0].path != r[3].path;
    assert r[1].path[5] != r[2].path[5] && r[1].path[5] != r[3].path[5];
    assert r[2].path[6] != r[3].path[6];
  }

  /** The screen a route shows under a provider's flags. */
  function Render(route: Route, isLoading: bool, isAuthenticated: bool): (s: Screen)
    ensures route.isProtected ==> s == Guard(isLoading, isAuthenticated)
  {
    if route.isProtected then Guard(isLoading, isAuthenticated) else Child
  }

  /**
   * A first visit with nothing stored and no redirect parameters: once the
   * provider has initialised, the guard shows the dashboard itself, because
   * the authenticated flag starts true and nothing on that path clears it.
   */
  method FreshVisitor(verify: Auth.VerifyOutcome) returns (screen: Screen, signedIn: bool)
    ensures screen == Child && !signedIn
  {
    var store := new StorageService(map[], map[], true);
    var auth := new Auth.AuthProvider(store);
    var none := Auth.OAuthParams(None, None, None, None, None, None, None);
    var _ := auth.Initialize(verify, none);
    screen, signedIn := Render(AllRoutes[0], auth.isLoading, auth.isAuthenticated), auth.user.Some?;
  }

  /**
   * A logout followed by the reload it triggers. Until the navigation to `/`
   * completes, the guard sends every route to the sign-in page. The reload
   * builds a new provider over the same browser storage, whose token and user
   * are now gone; as on a first visit, its authenticated flag starts true, so
   * the visitor lands on the dashboard with nobody signed in.
   */
  method AfterLogout(verify: Auth.VerifyOutcome, p: Auth.OAuthParams, stored: map<string, string>, reverify: Auth.VerifyOutcome)
    returns (screens: seq<Screen>, afterReload: Screen, signedIn: bool)
    ensures |screens| == |AllRoutes| && forall i :: 0 <= i < |screens| ==> screens[i] == LoginScreen
    ensures afterReload == Child && !signedIn
  {
    var store := new StorageService(stored, map[], true);
    var auth := new Auth.AuthProvider(store);
    var _ := auth.Initialize(verify, p);
    auth.Logout();
    screens := [];
    for i := 0 to |AllRoutes|
      invariant |screens| == i && forall k :: 0 <= k < i ==> screens[k] == LoginScreen
    {
      screens := screens + [Render(AllRoutes[i], auth.isLoading, auth.isAuthenticated)];
    }
    assert store.Token().None?;
    var reloaded := new Auth.AuthProvider(store);
    var none := Auth.OAuthParams(None, None, None, None, None, None, None);
    var _ := reloaded.Initialize(reverify, none);
    afterReload, signedIn := Render(AllRoutes[0], reloaded.isLoading, reloaded.isAuthenticated), reloaded.user.Some?;
  }
}
