/** The application shell of src/App.jsx: the role-gated route guard, the route
    table, and the choice of the next upcoming appointment for the nav bar. */
module App {
  import opened Entities

  /** What `RoleRoute` renders. */
  datatype View = LoadingView | Redirect(to: string) | Children

  /** The role a user is routed by: the metadata role, `'miner'` when it is missing or empty. */
  function Role(u: User): (r: string)
    ensures r != ""
    ensures Truthy(RoleField(u)) ==> r == RoleField(u).value
    ensures !Truthy(RoleField(u)) ==> r == "miner"
  {
    OrElse(RoleField(u), "miner")
  }

  /** `RoleRoute`: the guard in front of every private page. */
  function RoleRoute(user: Option<User>, loading: bool, allowedRoles: seq<string>): (v: View)
    ensures loading ==> v == LoadingView
    ensures !loading && user.None? ==> v == Redirect("/")
    ensures v == Children <==> !loading && user.Some? && Role(user.value) in allowedRoles
    ensures !loading && user.Some? && Role(user.value) !in allowedRoles ==>
      v == Redirect(if Role(user.value) == "admin" then "/admin" else "/dashboard")
  {
    if loading then LoadingView
    else if user.None? then Redirect("/")
    else
      var role := Role(user.value);
      if role !in allowedRoles then Redirect(if role == "admin" then "/admin" else "/dashboard")
      else Children
  }

  /** The pages the router can show. */
  datatype Page = AuthPage | ProfilePage | DashboardPage | AdminPage | ConsultationPage

  /** A route's element: an unconditional redirect, a public page, or a page behind `RoleRoute`. */
  datatype Element = Navigate(to: string) | Public(page: Page) | Guarded(allowedRoles: seq<string>, page: Page)

  datatype RouteDef = RouteDef(pattern: string, element: Element)

  /** The route table, in declaration order. */
  const Routes: seq<RouteDef> := [
    RouteDef("/consultation", Navigate("/dashboard")),
    RouteDef("/profile", Guarded(["miner"], ProfilePage)),
    RouteDef("/", Public(AuthPage)),
    RouteDef("/dashboard", Guarded(["miner"], DashboardPage)),
    RouteDef("/admin", Guarded(["admin"], AdminPage)),
    RouteDef("/consultation/:id", Guarded(["miner"], ConsultationPage))
  ]

  const ConsultationPrefix: string := "/consultation/"

  /** A pattern ending in `/:id` matches its prefix followed by one non-empty segment;
      any other pattern matches only itself. */
  predicate Matches(pattern: string, path: string)
  {
    if pattern == ConsultationPrefix + ":id" then
      && |path| > |ConsultationPrefix|
      && path[..|ConsultationPrefix|] == ConsultationPrefix
      && '/' !in path[|ConsultationPrefix|..]
    else path == pattern
  }

  /** What the router shows for a path. */
  datatype Screen = NoMatch | Loading | Show(page: Page) | GoTo(to: string)

  function ElementScreen(e: Element, user: Option<User>, loading: bool): Screen
  {
    match e
    case Navigate(to) => GoTo(to)
    case Public(page) => Show(page)
    case Guarded(allowed, page) =>
      match RoleRoute(user, loading, allowed)
      case LoadingView => Loading
      case Redirect(to) => GoTo(to)
      case Children => Show(page)
  }

  /** The screen of the first route matching `path` in `routes`. */
  function ResolveIn(routes: seq<RouteDef>, path: string, user: Option<User>, loading: bool): Screen
  {
    if routes == [] then NoMatch
    else if Matches(routes[0].pattern, path) then ElementScreen(routes[0].element, user, loading)
    else ResolveIn(routes[1..], path, user, loading)
  }

  function Resolve(path: string, user: Option<User>, loading: bool): Screen
  {
    ResolveIn(Routes, path, user, loading)
  }

  /** The screen is that of the first matching route. */
  lemma {:induction false} ResolveInAt(routes: seq<RouteDef>, path: string, user: Option<User>, loading: bool, i: int)
    requires 0 <= i < |routes| && Matches(routes[i].pattern, path)
    requires forall j :: 0 <= j < i ==> !Matches(routes[j].pattern, path)
    ensures ResolveIn(routes, path, user, loading) == ElementScreen(routes[i].element, user, loading)
    decreases i
  {
    if i > 0 {
      assert !Matches(routes[0].pattern, path);
      ResolveInAt(routes[1..], path, user, loading, i - 1);
    }
  }

  /** No route matching means nothing is shown. */
  lemma {:induction false} ResolveInNone(routes: seq<RouteDef>, path: string, user: Option<User>, loading: bool)
    requires forall j :: 0 <= j < |routes| ==> !Matches(routes[j].pattern, path)
    ensures ResolveIn(routes, path, user, loading) == NoMatch
    decreases |routes|
  {
    if routes != [] {
      assert !Matches(routes[0].pattern, path);
      ResolveInNone(routes[1..], path, user, loading);
    }
  }

  /** A path matching the consultation pattern is none of the static paths. */
  lemma ConsultationPathIsNotStatic(path: string)
    requires Matches(ConsultationPrefix + ":id", path)
    ensures forall j :: 0 <= j < 5 ==> path != Routes[j].pattern
  {
  }

  /** The route table, path by path. */
  lemma ResolveByPath(path: string, user: Option<User>, loading: bool)
    ensures path == "/consultation" ==> Resolve(path, user, loading) == GoTo("/dashboard")
    ensures path == "/profile" ==> Resolve(path, user, loading) == ElementScreen(Guarded(["miner"], ProfilePage), user, loading)
    ensures path == "/" ==> Resolve(path, user, loading) == Show(AuthPage)
    ensures path == "/dashboard" ==> Resolve(path, user, loading) == ElementScreen(Guarded(["miner"], DashboardPage), user, loading)
    ensures path == "/admin" ==> Resolve(path, user, loading) == ElementScreen(Guarded(["admin"], AdminPage), user, loading)
    ensures Matches(ConsultationPrefix + ":id", path) ==>
      Resolve(path, user, loading) == ElementScreen(Guarded(["miner"], ConsultationPage), user, loading)
    ensures (forall j :: 0 <= j < |Routes| ==> !Matches(Routes[j].pattern, path)) ==> Resolve(path, user, loading) == NoMatch
  {
    var cp := ConsultationPrefix + ":id";
    assert Routes[5].pattern == cp;
    assert Routes[0].pattern == "/consultation" && Routes[1].pattern == "/profile" && Routes[2].pattern == "/";
    assert Routes[3].pattern == "/dashboard" && Routes[4].pattern == "/admin";
    if Matches(cp, path) {
      ConsultationPathIsNotStatic(path);
      ResolveInAt(Routes, path, user, loading, 5);
    } else if exists j :: 0 <= j < 5 && path == Routes[j].pattern {
      var j :| 0 <= j < 5 && path == Routes[j].pattern;
      assert forall k :: 0 <= k < |Routes| && k != j ==> Routes[k].pattern != path;
      ResolveInAt(Routes, path, user, loading, j);
    } else {
      ResolveInNone(Routes, path, user, loading);
    }
  }

  /** At most one route matches any path, so declaration order does not matter. */
  lemma RoutesDisjoint(path: string, i: int, j: int)
    requires 0 <= i < j < |Routes|
    ensures !(Matches(Routes[i].pattern, path) && Matches(Routes[j].pattern, path))
  {
  }

  /** A signed-out visitor is shown no page but the login page: every guarded path redirects to `/`. */
  lemma SignedOutSeesOnlyLogin(path: string)
    ensures Resolve(path, None, false).Show? ==> Resolve(path, None, false) == Show(AuthPage) && path == "/"
    ensures Resolve(path, None, false).GoTo? ==> Resolve(path, None, false).to in {"/", "/dashboard"}
  {
    ResolveByPath(path, None, false);
  }

  /** For the roles `admin` and `miner`, a refused page redirects to a page that admits the role. */
  lemma RedirectLandsOnAdmittingPage(u: User, allowedRoles: seq<string>)
    requires Role(u) == "admin" || Role(u) == "miner"
    requires RoleRoute(Some(u), false, allowedRoles).Redirect?
    ensures Resolve(RoleRoute(Some(u), false, allowedRoles).to, Some(u), false).Show?
  {
    ResolveByPath(RoleRoute(Some(u), false, allowedRoles).to, Some(u), false);
  }

  /** Any other role is refused by `/dashboard` and redirected to `/dashboard` again. */
  lemma OtherRolesRedirectToThemselves(u: User)
    requires Role(u) != "admin" && Role(u) != "miner"
    ensures Resolve("/dashboard", Some(u), false) == GoTo("/dashboard")
  {
    ResolveByPath("/dashboard", Some(u), false);
  }

  /** The nav bar's next appointment: among those dated strictly after `now`, the earliest;
      on equal dates the one listed first (the sort is stable). */
  function NextAppointment(appts: seq<Appointment>, now: int): (r: Option<Appointment>)
    ensures r.None? <==> forall i :: 0 <= i < |appts| ==> appts[i].date <= now
    ensures r.Some? ==> r.value in appts && r.value.date > now
    ensures r.Some? ==> forall i :: 0 <= i < |appts| && appts[i].date > now ==> r.value.date <= appts[i].date
  {
    if appts == [] then None
    else
      var rest := NextAppointment(appts[1..], now);
      assert forall i :: 1 <= i < |appts| ==> appts[i] == appts[1..][i - 1];
      if appts[0].date > now && (rest.None? || appts[0].date <= rest.value.date) then Some(appts[0])
      else rest
  }

  /** Ties are broken by list order: every future appointment listed before the chosen one
      is dated strictly later. */
  lemma {:induction false} NextAppointmentFirstOfEarliest(appts: seq<Appointment>, now: int)
    requires NextAppointment(appts, now).Some?
    ensures exists i :: 0 <= i < |appts| && appts[i] == NextAppointment(appts, now).value &&
              forall j :: 0 <= j < i && appts[j].date > now ==> appts[j].date > appts[i].date
  {
    var r := NextAppointment(appts, now).value;
    var rest := NextAppointment(appts[1..], now);
    if appts[0].date > now && (rest.None? || appts[0].date <= rest.value.date) {
      assert appts[0] == r;
    } else {
      NextAppointmentFirstOfEarliest(appts[1..], now);
      var k :| 0 <= k < |appts[1..]| && appts[1..][k] == rest.value &&
               forall j :: 0 <= j < k && appts[1..][j].date > now ==> appts[1..][j].date > appts[1..][k].date;
      assert appts[k + 1] == r;
      forall j | 0 <= j < k + 1 && appts[j].date > now ensures appts[j].date > r.date {
        if j > 0 { assert appts[j] == appts[1..][j - 1]; }
      }
    }
  }
}
