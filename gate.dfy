/** The administrator gate every server action of the admin pages runs first: read the signed-in
    user, read that user's profile row, and redirect unless the profile's is_admin flag is set.
    The profile store is a lookup parameter (`is_admin` of the row, None when there is no row or the
    column is NULL), read afresh on every call. */
module AdminGate {
  import opened Js

  /** Where a denied caller is sent. */
  datatype Page = LoginPage | DashboardPage

  function PagePath(p: Page): string {
    match p
    case LoginPage => "/login"
    case DashboardPage => "/dashboard"
  }

  datatype Gate = Admit(uid: string) | Deny(to: Page)

  /** The result of a server action: a redirect thrown by the gate, an error thrown by a check or
      by the store, or completion with the value the action computed (the write it issues). */
  datatype Outcome<+T, +E> = Redirected(to: Page) | Failed(reason: E) | Done(value: T)

  function Check(user: Option<string>, isAdmin: string -> Option<bool>): (g: Gate)
    ensures g.Admit? <==> user.Some? && isAdmin(user.value) == Some(true)
    ensures g.Admit? ==> g.uid == user.value
    ensures g == Deny(LoginPage) <==> user.None?
    ensures g == Deny(DashboardPage) <==> user.Some? && isAdmin(user.value) != Some(true)
  {
    match user
    case None => Deny(LoginPage)
    case Some(u) => if isAdmin(u) == Some(true) then Admit(u) else Deny(DashboardPage)
  }
}
