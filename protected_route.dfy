/** The route guard in front of the signed-in pages: it waits while the session loads,
    sends visitors to the login page, sends users with an unfinished onboarding to the
    onboarding page, and otherwise shows the page. */
module ProtectedRoute {
  import opened Wrappers
  import opened Types

  /** The signed-in user the session holds. */
  datatype User = User(id: int, email: string, token: string)

  /** What the guard renders. */
  datatype Outcome = LoadingView | Navigate(to: string) | Children

  const LoginPath: string := "/login"
  const OnboardingPath: string := "/onboarding"

  /** The guard's decision. A null profile (None) lets the page through. */
  function Guard(loading: bool, user: Option<User>, profile: Option<UserProfile>): (o: Outcome)
    ensures loading <==> o == LoadingView
    ensures o == Navigate(LoginPath) <==> !loading && user.None?
    ensures o == Navigate(OnboardingPath) <==> !loading && user.Some? && profile.Some? && !profile.value.onboardingCompleted
    ensures o == Children <==> !loading && user.Some? && (profile.None? || profile.value.onboardingCompleted)
  {
    if loading then LoadingView
    else if user.None? then Navigate(LoginPath)
    else if profile.Some? && !profile.value.onboardingCompleted then Navigate(OnboardingPath)
    else Children
  }

  /** Completing the onboarding is what opens the page to a signed-in user whose profile
      has been loaded. */
  lemma OnboardingOpensThePage(user: User, p: UserProfile)
    ensures Guard(false, Some(user), Some(p.(onboardingCompleted := false))) == Navigate(OnboardingPath)
    ensures Guard(false, Some(user), Some(p.(onboardingCompleted := true))) == Children
  {
  }
}
