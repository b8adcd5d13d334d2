/** The root component's view mode (`'public' | 'login' | 'admin'`) and the controls that change it. */
module Routing {

  datatype ViewMode = Public | Login | Admin

  /** The controls wired to `setViewMode`. */
  datatype Nav =
    | OpenLogin      // footer "Yönetici Girişi" button of the public site
    | LoginAccepted  // the login form's `onLogin`, called on the right password
    | BackToSite     // the login form's `onBack`
    | Logout         // the admin panel's `onLogout`
    | ViewSite       // the admin panel's `onViewSite`

  /** The view on which the control is rendered; elsewhere it does not exist and cannot fire. */
  function ShownOn(e: Nav): ViewMode
  {
    match e
    case OpenLogin => Public
    case LoginAccepted | BackToSite => Login
    case Logout | ViewSite => Admin
  }

  /** The mode the control's handler sets. */
  function Target(e: Nav): ViewMode
  {
    match e
    case OpenLogin => Login
    case LoginAccepted => Admin
    case BackToSite | Logout | ViewSite => Public
  }

  /** The view mode after control `e` is used in mode `m`. */
  function Next(m: ViewMode, e: Nav): (r: ViewMode)
    ensures r == Admin ==> m == Admin || (m == Login && e == LoginAccepted)
    ensures r == Login ==> m == Login || (m == Public && e == OpenLogin)
    ensures m == Public ==> r != Admin
    ensures m == Public && e == OpenLogin ==> r == Login
    ensures m == Login && e == LoginAccepted ==> r == Admin
    ensures m == Login && e == BackToSite ==> r == Public
    ensures m == Admin && (e == Logout || e == ViewSite) ==> r == Public
    ensures m == Admin && r == Admin ==> e != Logout && e != ViewSite
  {
    if m == ShownOn(e) then Target(e) else m
  }
}
