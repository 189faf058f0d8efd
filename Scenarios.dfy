/** End-to-end flows across the session manager, the route guard and the wizard. */
module Scenarios {
  import opened Wrappers
  import SupabaseService
  import opened AuthContext
  import App
  import Onboarding

  /** What the route guard shows at `path` for a session. */
  function Show(path: App.Path, s: Session): App.Element {
    App.AppRoutes(path, s.isAuthenticated, NeedsOnboardingOf(s.user))
  }

  /** A new user signs up, is sent to the wizard from `/`, completes it and is then sent home
      from `/onboarding`. */
  lemma SignupOnboardHome(s: Session, name: string, email: string, password: string, now: nat)
    requires SignupFieldsPresent(name, email, password)
    ensures var signedUp := SignupStep(s, name, email, password, now, false).after;
            var onboarded := CompleteOnboardingStep(signedUp);
            Show(App.Root, signedUp) == App.Navigate(App.OnboardingPath) &&
            Show(App.OnboardingPath, signedUp) == App.Render(App.Onboarding) &&
            Show(App.Root, onboarded) == App.Render(App.Home) &&
            Show(App.OnboardingPath, onboarded) == App.Navigate(App.Root)
  {
  }

  /** The provider's first render comes before its mount effect. In that render both guarded
      paths redirect to `/login`, whatever the store holds. Over a store that holds a session,
      the first render is not a mirror of it, and the mount effect changes it. */
  lemma FirstRenderRedirectsToLogin(store: Store)
    ensures Show(App.Root, Initial(store)) == App.Navigate(App.LoginPath)
    ensures Show(App.OnboardingPath, Initial(store)) == App.Navigate(App.LoginPath)
    ensures Mirrored(Initial(store)) <==> GetItem(store, IsAuthenticatedKey) != Some("true")
    ensures Mount(store) == Initial(store) <==> GetItem(store, IsAuthenticatedKey) != Some("true")
  {
  }

  /** After logout every guarded path leads to the login screen. */
  lemma LogoutShowsLogin(s: Session)
    ensures Show(App.Root, LogoutStep(s)) == App.Navigate(App.LoginPath)
    ensures Show(App.OnboardingPath, LogoutStep(s)) == App.Navigate(App.LoginPath)
  {
  }

  /** The route guard's destination follows the session's phase. */
  lemma DestinationFollowsPhase(s: Session)
    ensures App.Destination(s.isAuthenticated, NeedsOnboardingOf(s.user)) ==
            match PhaseOf(s)
            case LoggedOut => App.Login
            case AwaitingOnboarding => App.Onboarding
            case LoggedIn => App.Home
  {
  }

  /** Jane's row exists; a login with any password gets her in and sends her to the wizard,
      and a reload rebuilds the same user. */
  method JaneLogsIn(password: string) returns (auth: AuthProvider, outcome: Outcome)
    requires password != ""
    ensures outcome == Resolved
    ensures auth.Valid() && PhaseOf(auth.Snapshot()) == AwaitingOnboarding
    ensures Show(App.Root, auth.Snapshot()) == App.Navigate(App.OnboardingPath)
    ensures OnboardingTarget(auth.Snapshot()) == Some("user_7")
    ensures Mount(auth.store).user == auth.user && Mount(auth.store).isAuthenticated
  {
    var users := new SupabaseService.Users(map["jane@x.com" := SupabaseService.UserRecord("user_7", Some("Jane"), Some(true))]);
    auth := new AuthProvider(map[], users);
    assert !auth.isAuthenticated;
    outcome := auth.Login("jane@x.com", password, true);
    var reloaded := new AuthProvider(auth.store, users);
    assert reloaded.user == auth.user;
  }

  /** The wizard walked through, with one click on a disabled button, then completed. */
  method JaneOnboards(auth: AuthProvider)
    requires auth.Valid() && PhaseOf(auth.Snapshot()) == AwaitingOnboarding
    requires OnboardingTarget(auth.Snapshot()).Some?
    modifies auth
    ensures auth.Valid() && Show(App.Root, auth.Snapshot()) == App.Render(App.Home)
  {
    var wizard := new Onboarding.Wizard();
    wizard.ToggleGoal("sleep");
    var moved := wizard.Continue();
    assert moved && wizard.step == 2;
    moved := wizard.Continue();
    moved := wizard.Continue();
    assert !moved && wizard.step == 3;
    wizard.SetActivityLevel("light");
    moved := wizard.Continue();
    assert moved && wizard.step == 4;
    wizard.SetPersonal("34", "170", "65");
    var target := wizard.Complete(auth);
    assert target == Some(App.Root);
  }

  /** Logging out from wherever the session is leads every guarded path to the login screen. */
  method JaneLogsOut(auth: AuthProvider)
    requires auth.Valid()
    modifies auth
    ensures Show(App.Root, auth.Snapshot()) == App.Navigate(App.LoginPath)
    ensures Show(App.OnboardingPath, auth.Snapshot()) == App.Navigate(App.LoginPath)
  {
    auth.Logout();
  }
}
