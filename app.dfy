/**
 * The root component (frontend/src/App.js): the profile check that runs once the session has
 * loaded, and the screen chosen from the session, the profile flag and the path.
 */
module App {
  import opened Wrappers
  import opened Text
  import ProtectedRoute
  import Backend
  import Client

  datatype Page =
    | LandingPage | InputFormPage | DashboardPage | ResumeQAPage | CompanyQAPage | RoleQAPage
    | ProfilePage | TipsPage | BehavioralPage | StarMethodPage | ResumeAnalysisPage | QuizPage

  /** A route of the table: its path, whether it matches exactly, its page, and whether ProtectedRoute wraps it. */
  datatype Route = Route(path: string, exact: bool, page: Page, guarded: bool)

  datatype View = Spinner | Show(page: Page, withNavbar: bool) | Redirect(to: string)

  const IntakePath := "/input-form"
  const DashboardPath := "/dashboard"

  /** The routes mounted for a user without a profile. */
  const IntakeRoutes: seq<Route> := [Route(IntakePath, false, InputFormPage, false)]

  /** The routes mounted for a user with a profile, in their order. */
  const ProfileRoutes: seq<Route> := [
    Route(IntakePath, false, DashboardPage, true),
    Route(DashboardPath, true, DashboardPage, true),
    Route("/resume-qa", false, ResumeQAPage, true),
    Route("/company-qa", false, CompanyQAPage, true),
    Route("/role-qa", false, RoleQAPage, true),
    Route("/profile", false, ProfilePage, true),
    Route("/tips", false, TipsPage, true),
    Route("/behavioral", false, BehavioralPage, true),
    Route("/star-method", false, StarMethodPage, true),
    Route("/resume-analysis", false, ResumeAnalysisPage, true),
    Route("/quiz", false, QuizPage, true)
  ]

  function Table(hasProfile: bool): seq<Route> {
    if hasProfile then ProfileRoutes else IntakeRoutes
  }

  /** A route matches its own path, and, unless exact, any path below it. */
  predicate Matches(route: Route, path: string) {
    path == route.path || (!route.exact && StartsWith(path, route.path + "/"))
  }

  /** The first route of the list that matches, as a Switch picks it. */
  function FirstMatch(routes: seq<Route>, path: string): (r: Option<nat>)
    ensures r.Some? ==> r.value < |routes| && Matches(routes[r.value], path)
    ensures r.Some? ==> forall j :: 0 <= j < r.value ==> !Matches(routes[j], path)
    ensures r.None? ==> forall j :: 0 <= j < |routes| ==> !Matches(routes[j], path)
  {
    if routes == [] then None
    else if Matches(routes[0], path) then Some(0)
    else match FirstMatch(routes[1..], path)
      case None => None
      case Some(k) => Some(k + 1)
  }

  /** The catch-all route after the table. */
  function Fallback(hasProfile: bool): string {
    if hasProfile then DashboardPath else IntakePath
  }

  /** What the root renders. */
  function Screen(isLoaded: bool, signedIn: bool, isLoadingProfile: bool, hasProfile: bool, path: string): (v: View)
    ensures !isLoaded || isLoadingProfile ==> v == Spinner
    ensures isLoaded && !isLoadingProfile && path == "/" ==> v == Show(LandingPage, false)
    ensures isLoaded && !isLoadingProfile && path != "/" && !signedIn ==> v == Redirect("/")
    ensures isLoaded && !isLoadingProfile && path != "/" && signedIn ==>
              match FirstMatch(Table(hasProfile), path)
              case Some(k) => v == Show(Table(hasProfile)[k].page, true)
              case None => v == Redirect(Fallback(hasProfile))
  {
    if !isLoaded || isLoadingProfile then Spinner
    else if path == "/" then Show(LandingPage, false)
    else if !signedIn then Redirect("/")
    else
      var routes := Table(hasProfile);
      match FirstMatch(routes, path)
      case None => Redirect(Fallback(hasProfile))
      case Some(k) =>
        var route := routes[k];
        if !route.guarded then Show(route.page, true)
        else
          match ProtectedRoute.Render(ProtectedRoute.Guard(true, route.page, route).value, signedIn, path)
          case Mount(page, _) => Show(page, true)
          case Redirect(to) => Redirect(to)
  }

  /** Signed in without a profile: the intake form at /input-form and below, a redirect to it elsewhere. */
  lemma IntakeGate(path: string)
    requires path != "/"
    ensures Screen(true, true, false, false, path) ==
              if path == IntakePath || StartsWith(path, IntakePath + "/") then Show(InputFormPage, true)
              else Redirect(IntakePath)
  {
  }

  /** A route path is one segment: a leading '/' and no other. */
  predicate OneSegment(path: string) {
    |path| > 1 && path[0] == '/' && forall i :: 1 <= i < |path| ==> path[i] != '/'
  }

  lemma ProfilePathsAreSegments(k: nat)
    requires k < |ProfileRoutes|
    ensures OneSegment(ProfileRoutes[k].path)
  {
  }

  /** No two listed paths are equal: they differ in length or in the letter after the '/'. */
  lemma ProfilePathsDistinct(i: nat, j: nat)
    requires i < j < |ProfileRoutes|
    ensures ProfileRoutes[i].path != ProfileRoutes[j].path
  {
    var p, q := ProfileRoutes[i].path, ProfileRoutes[j].path;
    assert |p| != |q| || p[1] != q[1];
  }

  /** A route with a one-segment path matches no other one-segment path. */
  lemma SegmentsDoNotNest(route: Route, path: string)
    requires OneSegment(route.path) && OneSegment(path) && path != route.path
    ensures !Matches(route, path)
  {
    SlashAfterPrefix(path, route.path);
  }

  lemma SlashAfterPrefix(path: string, prefix: string)
    ensures StartsWith(path, prefix + "/") ==> |prefix| < |path| && path[|prefix|] == '/'
  {
    if StartsWith(path, prefix + "/") {
      assert path[|prefix|] == (prefix + "/")[|prefix|];
    }
  }

  /**
   * Signed in with a profile: the path of every listed route shows that route's page, and the
   * intake path shows the dashboard rather than the form.
   */
  lemma ProfileGate(k: nat)
    requires k < |ProfileRoutes|
    ensures Screen(true, true, false, true, ProfileRoutes[k].path) == Show(ProfileRoutes[k].page, true)
    ensures Screen(true, true, false, true, IntakePath) == Show(DashboardPage, true)
  {
    var path := ProfileRoutes[k].path;
    ProfilePathsAreSegments(k);
    assert path != "/";
    var r := FirstMatch(ProfileRoutes, path);
    assert Matches(ProfileRoutes[k], path);
    assert r.Some? && r.value <= k;
    if r.value < k {
      ProfilePathsAreSegments(r.value);
      ProfilePathsDistinct(r.value, k);
      SegmentsDoNotNest(ProfileRoutes[r.value], path);
    }
  }

  /** Signed in with a profile, a path no listed route matches falls back to the dashboard. */
  lemma UnknownPathWithProfile(path: string)
    requires path != "/"
    requires forall k :: 0 <= k < |ProfileRoutes| ==> !Matches(ProfileRoutes[k], path)
    ensures Screen(true, true, false, true, path) == Redirect(DashboardPath)
  {
  }

  /** Every redirect lands on a path that the same state renders as a page: there are no redirect chains. */
  lemma RedirectSettles(signedIn: bool, hasProfile: bool, path: string)
    requires Screen(true, signedIn, false, hasProfile, path).Redirect?
    ensures Screen(true, signedIn, false, hasProfile, Screen(true, signedIn, false, hasProfile, path).to).Show?
  {
    if signedIn && hasProfile {
      ProfileGate(1);
    }
  }

  // ---------------------------------------------------------------------------------------
  // The profile check

  datatype RootState = RootState(hasProfile: bool, isLoadingProfile: bool)

  const InitialRoot := RootState(false, true)

  /** The profile-check call as the effect sees it: the `success` and `is_new_user` fields, or a thrown error. */
  datatype ProfileCheck = ProfileReply(success: bool, isNewUser: bool) | ProfileThrew

  /** The effect of checkProfile on the root's state. */
  function CheckProfile(s: RootState, isLoaded: bool, signedIn: bool, check: ProfileCheck): (t: RootState)
    ensures !isLoaded ==> t == s
    ensures isLoaded ==> !t.isLoadingProfile
    ensures isLoaded && signedIn && check.ProfileReply? ==> (t.hasProfile <==> check.success && !check.isNewUser)
    ensures isLoaded && !(signedIn && check.ProfileReply?) ==> t.hasProfile == s.hasProfile
  {
    if !isLoaded then s
    else if !signedIn then s.(isLoadingProfile := false)
    else match check
      case ProfileReply(success, isNewUser) => RootState(success && !isNewUser, false)
      case ProfileThrew => s.(isLoadingProfile := false)
  }

  /** The email query parameter: encodeURIComponent of a missing address is the text "undefined". */
  function EmailParam(primaryEmail: Option<string>): string {
    if primaryEmail.Some? then primaryEmail.value else "undefined"
  }

  /** How the effect reads a backend reply: a JSON body missing is_new_user reads it as undefined. */
  function ProfileCheckOf(reply: Option<Backend.Body>): ProfileCheck {
    match reply
    case None => ProfileThrew
    case Some(body) =>
      if body.ProfileBody? then ProfileReply(true, body.isNewUser)
      else ProfileReply(Client.SuccessField(body), false)
  }

  /**
   * Against the backend's profile endpoint, the first check after sign-in gives the root a
   * profile exactly when the user is known and their questions are generated; an unknown user
   * makes the call throw and the root falls back to intake. Loading ends either way.
   */
  lemma ProfileFromBackend(db: Backend.Db, id: string, primaryEmail: Option<string>)
    requires id != "" && EmailParam(primaryEmail) != ""
    ensures var reply := Client.Receive(Backend.UserProfile(db, Some(id), Some(EmailParam(primaryEmail))));
            var t := CheckProfile(InitialRoot, true, true, ProfileCheckOf(reply));
            && !t.isLoadingProfile
            && (t.hasProfile <==> id in db.users && db.users[id].questionsGenerated)
  {
  }

  /** A signed-out visitor, once the session is loaded, leaves the spinner without any profile request. */
  lemma SignedOutSkipsCheck(check: ProfileCheck, path: string)
    requires path != "/"
    ensures var t := CheckProfile(InitialRoot, true, false, check);
            t == RootState(false, false) && Screen(true, false, t.isLoadingProfile, t.hasProfile, path) == Redirect("/")
  {
  }
}

/** The root's state as a component object whose effect updates it in place. */
module AppComponent {
  import opened App

  class Root {
    var hasProfile: bool
    var isLoadingProfile: bool

    function State(): RootState
      reads this
    {
      RootState(hasProfile, isLoadingProfile)
    }

    constructor ()
      ensures State() == InitialRoot
    {
      hasProfile, isLoadingProfile := false, true;
    }

    /** The checkProfile effect, with the call's outcome as input. */
    method CheckProfile(isLoaded: bool, signedIn: bool, check: ProfileCheck)
      modifies this
      ensures State() == App.CheckProfile(old(State()), isLoaded, signedIn, check)
    {
      if !isLoaded {
        return;
      }
      if signedIn {
        match check {
          case ProfileReply(success, isNewUser) =>
            if success && !isNewUser {
              hasProfile := true;
            } else {
              hasProfile := false;
            }
          case ProfileThrew =>
        }
      }
      isLoadingProfile := false;
    }

    function View(isLoaded: bool, signedIn: bool, path: string): View
      reads this
    {
      Screen(isLoaded, signedIn, isLoadingProfile, hasProfile, path)
    }
  }
}
