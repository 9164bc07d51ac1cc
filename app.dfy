/** The application shell (App.tsx): the LOGIN / REGISTER / DASHBOARD view
    machine, the signed-in user, and which page is shown. */
module AppShell {
  import opened ClinicTypes
  import opened ClinicStore
  import opened Login

  datatype View = LoginView | RegisterView | DashboardView

  /** The page on screen. */
  datatype Screen = LoginScreen | RegisterScreen | PatientScreen | StaffScreen | DoctorScreen

  /** The top-level render and `renderDashboard`. */
  function ScreenFor(view: View, user: Option<User>): (s: Screen)
    ensures view == LoginView ==> s == LoginScreen
    ensures view == RegisterView ==> s == RegisterScreen
    ensures view == DashboardView && user.None? ==> s == LoginScreen
    ensures view == DashboardView && user.Some? ==> DashboardRole(s) == Some(user.value.role)
  {
    match view
    case LoginView => LoginScreen
    case RegisterView => RegisterScreen
    case DashboardView =>
      if user.None? then LoginScreen
      else match user.value.role
        case Patient => PatientScreen
        case Staff => StaffScreen
        case Doctor => DoctorScreen
  }

  /** The role a dashboard page serves; None for the login and register pages. */
  function DashboardRole(s: Screen): Option<UserRole> {
    match s
    case PatientScreen => Some(Patient)
    case StaffScreen => Some(Staff)
    case DoctorScreen => Some(Doctor)
    case _ => None
  }

  /** A dashboard is shown exactly in the DASHBOARD view with a user, and it is
      the dashboard of that user's role; every other state shows the login or
      the register page. */
  lemma DashboardMatchesRole(view: View, user: Option<User>)
    ensures DashboardRole(ScreenFor(view, user)).Some? <==> view == DashboardView && user.Some?
    ensures DashboardRole(ScreenFor(view, user)).Some? ==>
      DashboardRole(ScreenFor(view, user)) == Some(user.value.role)
    ensures ScreenFor(LoginView, user) == LoginScreen && ScreenFor(RegisterView, user) == RegisterScreen
    ensures view == DashboardView && user.None? ==> ScreenFor(view, user) == LoginScreen
  {
  }

  class App {
    const store: Store
    var view: View
    var user: Option<User>

    /** Every step that enters DASHBOARD also sets a user, so the login page
        fallback inside `renderDashboard` is never reached. */
    ghost predicate Valid()
      reads this
    {
      view == DashboardView ==> user.Some?
    }

    constructor (store: Store)
      ensures this.store == store && Valid()
      ensures view == LoginView && user == store.currentUser
    {
      this.store := store;
      view := LoginView;
      user := store.currentUser;
    }

    /** The mount effect: a session already in the store goes straight to the dashboard. */
    method Mount()
      requires Valid()
      modifies this`view, this`user
      ensures Valid()
      ensures if store.currentUser.Some? then user == store.currentUser && view == DashboardView
              else user == old(user) && view == old(view)
    {
      var u := store.GetCurrentUser();
      if u.Some? {
        user := u;
        view := DashboardView;
      }
    }

    method HandleLogin(u: User)
      modifies this`view, this`user
      ensures Valid() && user == Some(u) && view == DashboardView
    {
      user := Some(u);
      view := DashboardView;
    }

    method HandleLogout()
      modifies this`view, this`user, store`currentUser
      ensures Valid() && store.currentUser == None && user == None && view == LoginView
    {
      store.Logout();
      user := None;
      view := LoginView;
    }

    /** The login page's register link. */
    method GoToRegister()
      requires Valid()
      modifies this`view
      ensures Valid() && view == RegisterView
    {
      view := RegisterView;
    }

    /** The register page's back link. */
    method GoToLogin()
      requires Valid()
      modifies this`view
      ensures Valid() && view == LoginView
    {
      view := LoginView;
    }

    /** A sign-in attempt on the login page, whose `onLogin` is `HandleLogin`. */
    method SignIn(page: LoginPage) returns (signedIn: Option<User>)
      requires Valid() && page.store == store
      modifies this`view, this`user, page`error, store`currentUser
      ensures Valid()
      ensures signedIn == SignInUser(page.email, page.password, store.users)
      ensures signedIn.Some? ==> user == signedIn && view == DashboardView
      ensures signedIn.None? ==> user == old(user) && view == old(view)
      ensures page.error == (if signedIn.None? then InvalidCredentials else "")
      ensures store.currentUser ==
        if HardCodedAccount(page.email, page.password) == NoAccount && signedIn.Some? then signedIn
        else old(store.currentUser)
    {
      signedIn := page.HandleLogin();
      if signedIn.Some? {
        HandleLogin(signedIn.value);
      }
    }

    /** The page on screen; in a valid state the DASHBOARD view always shows
        the dashboard of the signed-in user's role. */
    function Current(): (s: Screen)
      reads this
      ensures Valid() && view == DashboardView ==> DashboardRole(s) == Some(user.value.role)
    {
      DashboardMatchesRole(view, user);
      ScreenFor(view, user)
    }
  }
}
