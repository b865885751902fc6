/** The application shell: the login gate and the dispatch from the
    session's role and the current page to the view shown. */
module App {
  import opened Wrappers
  import Auth

  datatype Page = Home | Attendance | Members

  datatype View =
    | LoginPage
    | AdminDashboardView
    | AdminMembersView
    | MemberDashboardView
    | MemberAttendanceView

  predicate IsAdminView(v: View)
  {
    v == AdminDashboardView || v == AdminMembersView
  }

  /** The view for a session state and page: the login page unless
      authenticated with a user, then the admin or member views by role. */
  function RenderContent(isAuthenticated: bool, user: Option<Auth.User>, page: Page): (v: View)
    ensures v == LoginPage <==> !isAuthenticated || user.None?
    ensures IsAdminView(v) ==> user.Some? && user.value.role == Auth.Admin
    ensures v == MemberDashboardView || v == MemberAttendanceView ==> user.Some? && user.value.role == Auth.Member
  {
    if !isAuthenticated || user.None? then LoginPage
    else match user.value.role
      case Admin =>
        (match page
         case Home => AdminDashboardView
         case Members => AdminMembersView
         case Attendance => AdminDashboardView)
      case Member =>
        (match page
         case Attendance => MemberAttendanceView
         case _ => MemberDashboardView)
  }

  /** An admin sees the members page on `'members'` and the dashboard on
      every other page. */
  lemma AdminRouting(u: Auth.User, page: Page)
    requires u.role == Auth.Admin
    ensures RenderContent(true, Some(u), page) == if page == Members then AdminMembersView else AdminDashboardView
  {
  }

  /** A member sees the attendance screen on `'attendance'` and the member
      dashboard on every other page, `'members'` included; the admin views
      are never reached. */
  lemma MemberRouting(u: Auth.User, page: Page)
    requires u.role == Auth.Member
    ensures RenderContent(true, Some(u), page) == if page == Attendance then MemberAttendanceView else MemberDashboardView
    ensures !IsAdminView(RenderContent(true, Some(u), page))
  {
  }

  class AppContent {
    const auth: Auth.AuthProvider
    var currentPage: Page

    constructor (auth: Auth.AuthProvider)
      ensures this.auth == auth && currentPage == Home
    {
      this.auth := auth;
      currentPage := Home;
    }

    function Shown(): View
      reads this, auth
    {
      RenderContent(auth.isAuthenticated, auth.user, currentPage)
    }

    /** The header's navigation buttons. */
    method Navigate(page: Page)
      modifies this`currentPage
      ensures currentPage == page
    {
      currentPage := page;
    }

    /** The member dashboard's "mark attendance" callback. */
    method NavigateToAttendance()
      modifies this`currentPage
      ensures currentPage == Attendance
    {
      currentPage := Attendance;
    }

    /** The login form's submit: call login and, when it succeeds, return
        to the home page, where the role's dashboard is shown. */
    method SubmitLogin(username: string, password: string, role: Auth.Role) returns (ok: bool)
      requires auth.Valid()
      modifies this`currentPage, auth
      ensures auth.Valid()
      ensures ok == Auth.FindUser(username, role).Some?
      ensures ok ==> currentPage == Home && auth.user == Some(Auth.MockUsers[username])
      ensures ok ==> Shown() == if role == Auth.Admin then AdminDashboardView else MemberDashboardView
      ensures !ok ==> currentPage == old(currentPage) && auth.user == old(auth.user)
      ensures auth.ledger == old(auth.ledger)
    {
      ok := auth.Login(username, password, role);
      if ok {
        currentPage := Home;
      }
    }
  }
}
