/** The route guard (`AppRoutes`): which element each of the three paths shows, decided by
    `isAuthenticated` and `user?.needsOnboarding` alone. */
module App {
  import opened Wrappers

  datatype Path = Root | LoginPath | OnboardingPath

  datatype Screen = Home | Login | Onboarding

  /** What a route renders: a screen, or a `<Navigate replace>` to another path. */
  datatype Element = Render(screen: Screen) | Navigate(to: Path)

  /** The screen the application should show in a given state, whatever was asked for: the
      login screen when not authenticated, the wizard while onboarding is pending, else home. */
  function Destination(isAuthenticated: bool, needsOnboarding: Option<bool>): Screen {
    if !isAuthenticated then Login
    else if needsOnboarding == Some(true) then Onboarding
    else Home
  }

  /** The path on which a screen is mounted. */
  function PathOf(screen: Screen): Path {
    match screen
    case Home => Root
    case Login => LoginPath
    case Onboarding => OnboardingPath
  }

  /** The element `AppRoutes` mounts at `path`. `/login` always shows the login screen; a
      guarded path shows the destination screen when it is that screen's path and otherwise
      redirects straight to the destination's path. */
  function AppRoutes(path: Path, isAuthenticated: bool, needsOnboarding: Option<bool>): (e: Element)
    ensures path == LoginPath ==> e == Render(Login)
    ensures path != LoginPath && path == PathOf(Destination(isAuthenticated, needsOnboarding)) ==>
              e == Render(Destination(isAuthenticated, needsOnboarding))
    ensures path != LoginPath && path != PathOf(Destination(isAuthenticated, needsOnboarding)) ==>
              e == Navigate(PathOf(Destination(isAuthenticated, needsOnboarding)))
  {
    match path
    case Root =>
      if isAuthenticated then
        if needsOnboarding == Some(true) then Navigate(OnboardingPath) else Render(Home)
      else Navigate(LoginPath)
    case LoginPath => Render(Login)
    case OnboardingPath =>
      if isAuthenticated then
        if needsOnboarding == Some(true) then Render(Onboarding) else Navigate(Root)
      else Navigate(LoginPath)
  }

  /** Following at most one redirect from any path reaches a rendered screen: the destination
      for a guarded path, the login screen for `/login`. There is no redirect cycle. */
  lemma AtMostOneHop(path: Path, isAuthenticated: bool, needsOnboarding: Option<bool>)
    ensures var e := AppRoutes(path, isAuthenticated, needsOnboarding);
            var screen := if path == LoginPath then Login else Destination(isAuthenticated, needsOnboarding);
            e == Render(screen) || (e.Navigate? && AppRoutes(e.to, isAuthenticated, needsOnboarding) == Render(screen))
  {
  }

  /** The whole table for the two guarded paths. */
  lemma GuardTable(needsOnboarding: Option<bool>)
    ensures AppRoutes(Root, false, needsOnboarding) == Navigate(LoginPath)
    ensures AppRoutes(OnboardingPath, false, needsOnboarding) == Navigate(LoginPath)
    ensures needsOnboarding == Some(true) ==>
              AppRoutes(Root, true, needsOnboarding) == Navigate(OnboardingPath) &&
              AppRoutes(OnboardingPath, true, needsOnboarding) == Render(Onboarding)
    ensures needsOnboarding != Some(true) ==>
              AppRoutes(Root, true, needsOnboarding) == Render(Home) &&
              AppRoutes(OnboardingPath, true, needsOnboarding) == Navigate(Root)
  {
  }
}
