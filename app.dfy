/** The top-level screen choice: a spinner while the session loads, then a page by the profile's role. */
module App {
  import opened Wrappers
  import opened Schema

  datatype Screen = Spinner | AuthPage | CustomerDashboard | StaffDashboard | AdminDashboard

  /**
   * The screen for the session state: `loading`, whether a signed-in user exists, and that user's
   * profile row, if it was found.
   */
  function Route(loading: bool, hasUser: bool, profile: Option<User>): (screen: Screen)
    ensures screen == Spinner <==> loading
    ensures screen == CustomerDashboard <==> !loading && hasUser && profile.Some? && profile.value.role == "customer"
    ensures screen == StaffDashboard <==> !loading && hasUser && profile.Some? && profile.value.role == "staff"
    ensures screen == AdminDashboard <==> !loading && hasUser && profile.Some? && profile.value.role == "admin"
    ensures screen == AuthPage <==> !loading && (!hasUser || profile.None? || profile.value.role !in {"customer", "staff", "admin"})
  {
    if loading then Spinner
    else if !hasUser || profile.None? then AuthPage
    else match profile.value.role
      case "customer" => CustomerDashboard
      case "staff" => StaffDashboard
      case "admin" => AdminDashboard
      case _ => AuthPage
  }
}
