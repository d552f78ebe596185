/** The route table and its guards (`src/App.tsx`). A path is taken apart
    into its non-empty `/`-separated segments; a route pattern is a list of
    segments, where a segment starting with `:` matches any one segment.
    Public and sign-in pages render for everybody, customer pages sit behind
    `ProtectedRoute`, admin pages behind `AdminRoute`, and any other path
    redirects to `/`. */
module Routes {
  import opened Common
  import opened Types
  import opened AuthStore

  /** What a guard renders. */
  datatype GuardDecision = Loader | RedirectToLogin | RedirectToDashboard | Children

  /** `ProtectedRoute`: the loader while the session is loading, whatever
      the rest; then the login page unless authenticated. */
  function ProtectedRoute(a: AuthState): (r: GuardDecision)
    ensures a.isLoading <==> r == Loader
    ensures r == RedirectToLogin <==> !a.isLoading && !a.isAuthenticated
    ensures r == Children <==> !a.isLoading && a.isAuthenticated
  {
    if a.isLoading then Loader
    else if !a.isAuthenticated then RedirectToLogin
    else Children
  }

  /** `AdminRoute`: as `ProtectedRoute`, then the dashboard for a signed-in
      user whose profile is missing or has no staff role. */
  function AdminRoute(a: AuthState): (r: GuardDecision)
    ensures a.isLoading <==> r == Loader
    ensures r == RedirectToLogin <==> !a.isLoading && !a.isAuthenticated
    ensures r == RedirectToDashboard <==> !a.isLoading && a.isAuthenticated && !IsStaff(a.profile)
    ensures r == Children <==> !a.isLoading && a.isAuthenticated && IsStaff(a.profile)
  {
    if a.isLoading then Loader
    else if !a.isAuthenticated then RedirectToLogin
    else if !IsStaff(a.profile) then RedirectToDashboard
    else Children
  }

  /** Whatever lets a user into the admin area lets them into the customer
      area, and the admin guard differs only for non-staff users. */
  lemma AdminGuardStricter(a: AuthState)
    ensures AdminRoute(a) == Children ==> ProtectedRoute(a) == Children
    ensures IsStaff(a.profile) ==> AdminRoute(a) == ProtectedRoute(a)
  {
  }

  datatype Access = PublicPage | SignInPage | CustomerPage | AdminPage

  datatype RouteEntry = RouteEntry(pattern: seq<string>, access: Access)

  const RouteTable: seq<RouteEntry> := [
    RouteEntry([], PublicPage),
    RouteEntry(["track", ":trackingId"], PublicPage),
    RouteEntry(["services"], PublicPage),
    RouteEntry(["pricing"], PublicPage),
    RouteEntry(["login"], SignInPage),
    RouteEntry(["register"], SignInPage),
    RouteEntry(["forgot-password"], SignInPage),
    RouteEntry(["dashboard"], CustomerPage),
    RouteEntry(["book"], CustomerPage),
    RouteEntry(["deliveries"], CustomerPage),
    RouteEntry(["deliveries", ":id"], CustomerPage),
    RouteEntry(["history"], CustomerPage),
    RouteEntry(["wallet"], CustomerPage),
    RouteEntry(["addresses"], CustomerPage),
    RouteEntry(["team"], CustomerPage),
    RouteEntry(["settings"], CustomerPage),
    RouteEntry(["profile"], CustomerPage),
    RouteEntry(["company"], CustomerPage),
    RouteEntry(["help"], CustomerPage),
    RouteEntry(["admin"], AdminPage),
    RouteEntry(["admin", "bookings"], AdminPage),
    RouteEntry(["admin", "bookings", ":id"], AdminPage),
    RouteEntry(["admin", "tenants"], AdminPage),
    RouteEntry(["admin", "drivers"], AdminPage),
    RouteEntry(["admin", "pricing"], AdminPage),
    RouteEntry(["admin", "analytics"], AdminPage),
    RouteEntry(["admin", "audit"], AdminPage),
    RouteEntry(["admin", "settings"], AdminPage)]

  /** Every admin page's pattern begins with `admin`, and it is the only
      kind that does. */
  lemma AdminPatterns()
    ensures forall i :: 0 <= i < |RouteTable| ==>
              (RouteTable[i].access == AdminPage <==> |RouteTable[i].pattern| > 0 && RouteTable[i].pattern[0] == "admin")
  {
  }

  /** The non-empty `/`-separated pieces of a path. */
  function Segments(path: string): (r: seq<string>)
    ensures forall i :: 0 <= i < |r| ==> r[i] != "" && '/' !in r[i]
  {
    Filter(SplitOn(path, '/'), (s: string) => s != "")
  }

  predicate SegmentMatches(pattern: string, segment: string) {
    if |pattern| > 0 && pattern[0] == ':' then segment != "" else pattern == segment
  }

  predicate PatternMatches(pattern: seq<string>, segments: seq<string>) {
    |pattern| == |segments| && forall i :: 0 <= i < |pattern| ==> SegmentMatches(pattern[i], segments[i])
  }

  /** The access of the first route whose pattern matches, if any. */
  function Lookup(table: seq<RouteEntry>, segments: seq<string>): (r: Option<Access>)
    ensures r.None? <==> forall i :: 0 <= i < |table| ==> !PatternMatches(table[i].pattern, segments)
    ensures r.Some? ==> exists i :: 0 <= i < |table| && PatternMatches(table[i].pattern, segments)
                                    && table[i].access == r.value
  {
    if table == [] then None
    else if PatternMatches(table[0].pattern, segments) then Some(table[0].access)
    else
      var r := Lookup(table[1..], segments);
      assert forall i :: 1 <= i < |table| ==> table[i] == table[1..][i - 1];
      r
  }

  /** Where a visit ends up. */
  datatype Outcome = ShowLoader | Redirect(to: string) | Render(access: Access)

  /** Visiting a path with the given session: the `*` route sends unknown
      paths to `/`; guarded pages go through their guard. */
  function Visit(a: AuthState, segments: seq<string>): (r: Outcome)
    ensures Lookup(RouteTable, segments).None? ==> r == Redirect("/")
    ensures Lookup(RouteTable, segments) == Some(PublicPage) ==> r == Render(PublicPage)
    ensures Lookup(RouteTable, segments) == Some(SignInPage) ==> r == Render(SignInPage)
    ensures Lookup(RouteTable, segments) == Some(CustomerPage) && a.isLoading ==> r == ShowLoader
    ensures Lookup(RouteTable, segments) == Some(CustomerPage) && !a.isLoading && !a.isAuthenticated ==>
              r == Redirect("/login")
    ensures Lookup(RouteTable, segments) == Some(AdminPage) && !a.isLoading && !a.isAuthenticated ==>
              r == Redirect("/login")
    ensures Lookup(RouteTable, segments) == Some(AdminPage) && !a.isLoading && a.isAuthenticated && !IsStaff(a.profile) ==>
              r == Redirect("/dashboard")
    ensures Lookup(RouteTable, segments) == Some(AdminPage) && a.isLoading ==> r == ShowLoader
    ensures Lookup(RouteTable, segments) == Some(AdminPage) ==>
              (r == Render(AdminPage) <==> !a.isLoading && a.isAuthenticated && IsStaff(a.profile))
    ensures Lookup(RouteTable, segments) == Some(CustomerPage) ==>
              (r == Render(CustomerPage) <==> !a.isLoading && a.isAuthenticated)
    ensures r.Redirect? ==> r.to in {"/", "/login", "/dashboard"}
  {
    match Lookup(RouteTable, segments)
    case None => Redirect("/")
    case Some(access) =>
      var guard := match access
        case PublicPage => Children
        case SignInPage => Children
        case CustomerPage => ProtectedRoute(a)
        case AdminPage => AdminRoute(a);
      match guard
      case Loader => ShowLoader
      case RedirectToLogin => Redirect("/login")
      case RedirectToDashboard => Redirect("/dashboard")
      case Children => Render(access)
  }

  /** No pattern outside the admin area starts with `admin` or with a
      parameter segment. */
  lemma NonAdminPatterns()
    ensures forall i :: 0 <= i < |RouteTable| && RouteTable[i].access != AdminPage && |RouteTable[i].pattern| > 0 ==>
              RouteTable[i].pattern[0] != "admin" && !(|RouteTable[i].pattern[0]| > 0 && RouteTable[i].pattern[0][0] == ':')
  {
  }

  /** Every path in the admin area that renders a page renders an admin page
      to a signed-in staff member: nothing under `/admin` escapes the admin
      guard. */
  lemma AdminAreaGuarded(a: AuthState, segments: seq<string>)
    requires |segments| > 0 && segments[0] == "admin"
    ensures Visit(a, segments).Render? ==>
              Visit(a, segments) == Render(AdminPage) && a.isAuthenticated && IsStaff(a.profile)
  {
    var r := Lookup(RouteTable, segments);
    if r.Some? {
      var i :| 0 <= i < |RouteTable| && PatternMatches(RouteTable[i].pattern, segments) && RouteTable[i].access == r.value;
      NonAdminPatterns();
      assert SegmentMatches(RouteTable[i].pattern[0], segments[0]);
    }
  }
}
