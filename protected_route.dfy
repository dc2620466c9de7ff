/** The route guard: an ordered cascade of checks that either redirects or
    renders the protected page. The guard destructures `user` from the
    context value, which has no such field, so as written it always sees no
    user; `Decide` is the cascade itself and `GuardCorrected` feeds it the
    context's `currentUser`. */
module ProtectedRoute {
  import opened Base
  import opened Auth

  datatype Route = ToLogin | ToVerifyEmail | ToUser | ToAdmin | Render

  function Path(r: Route): string
  {
    match r
    case ToLogin => "/login"
    case ToVerifyEmail => "/verify-email"
    case ToUser => "/user"
    case ToAdmin => "/admin"
    case Render => ""
  }

  /** The cascade, checks in source order. */
  function Decide(user: Option<User>, isAdmin: bool, adminOnly: bool): (r: Route)
    ensures r == Render <==> user.Some? && user.value.emailVerified && isAdmin == adminOnly
    ensures user.None? <==> r == ToLogin
    ensures r == ToVerifyEmail <==> user.Some? && !user.value.emailVerified
    ensures r == ToUser <==> user.Some? && user.value.emailVerified && adminOnly && !isAdmin
    ensures r == ToAdmin <==> user.Some? && user.value.emailVerified && !adminOnly && isAdmin
  {
    if user.None? then ToLogin
    else if !user.value.emailVerified then ToVerifyEmail
    else if adminOnly && !isAdmin then ToUser
    else if !adminOnly && isAdmin then ToAdmin
    else Render
  }

  /** The guard as written: `user` is read from a value that lacks it. */
  function GuardAsWritten(ctx: ContextValue, adminOnly: bool): Route
  {
    Decide(None, ctx.isAdmin, adminOnly)
  }

  /** Every visit to a guarded page is sent to /login, signed in or not. */
  lemma AsWrittenAlwaysLogin(ctx: ContextValue, adminOnly: bool)
    ensures GuardAsWritten(ctx, adminOnly) == ToLogin
    ensures Path(GuardAsWritten(ctx, adminOnly)) == "/login"
  {
  }

  /** The guard reading the context's `currentUser`. */
  function GuardCorrected(ctx: ContextValue, adminOnly: bool): Route
  {
    Decide(ctx.currentUser, ctx.isAdmin, adminOnly)
  }

  /** With the provider's invariant, a page renders exactly for a verified
      signed-in user whose admin status matches the page: admins never see
      user pages and users never see admin pages. */
  lemma CorrectedRendersForMatchingRole(p: AuthProvider, adminOnly: bool)
    requires p.Valid()
    ensures GuardCorrected(p.Value(), adminOnly) == Render <==>
      p.currentUser.Some? && p.currentUser.value.emailVerified &&
      (adminOnly <==> p.adminUid == Some(p.currentUser.value.uid))
    ensures p.currentUser.None? ==> GuardCorrected(p.Value(), adminOnly) == ToLogin
  {
  }
}
