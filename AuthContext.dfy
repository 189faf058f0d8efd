/** The session manager (`AuthProvider`): an in-memory session (`user`, `isAuthenticated`,
    `error`) mirrored into the browser's durable string store under five keys, and the
    operations that move it between logged out, logged in needing onboarding and logged in.

    Each operation is first defined on values (`LoginStep`, `SignupStep`, ...) and its
    promises are stated there; the class `AuthProvider` then performs the same writes step by
    step and is proved to agree with those definitions. */
module AuthContext {
  import opened Wrappers
  import SupabaseService

  /** `localStorage`: string keys to string values. */
  type Store = map<string, string>

  const IsAuthenticatedKey := "isAuthenticated"
  const UserIdKey := "userId"
  const UserNameKey := "userName"
  const UserEmailKey := "userEmail"
  const NeedsOnboardingKey := "needsOnboarding"

  /** The five keys a session occupies in the store. */
  const SessionKeys: set<string> :=
    {IsAuthenticatedKey, UserIdKey, UserNameKey, UserEmailKey, NeedsOnboardingKey}

  const CredentialsRequired := "Email and password are required"
  const LoginFailed := "Login failed"
  const UserNotFound := "User not found"
  const SignupFieldsRequired := "Name, email, and password are required"
  const CreateFailed := "Failed to create user account"
  const OutsideProvider := "useAuth must be used within an AuthProvider"

  /** The session's user; `None` stands for `undefined`. */
  datatype User = User(id: Option<string>, name: Option<string>, email: string, needsOnboarding: Option<bool>)

  /** Everything the provider holds: the durable store and the three pieces of React state. */
  datatype Session = Session(store: Store, user: Option<User>, isAuthenticated: bool, error: Option<string>)

  /** How the promise returned by `login` or `signup` settles. */
  datatype Outcome = Resolved | Rejected(message: string)

  /** The session after an asynchronous operation, and how its promise settled. */
  datatype Step = Step(after: Session, outcome: Outcome)

  /** The three states the application can be in. */
  datatype Phase = LoggedOut | AwaitingOnboarding | LoggedIn

  /** `localStorage.getItem(key)`: null (`None`) for an absent key. */
  function GetItem(store: Store, key: string): (r: Option<string>)
    ensures r.None? <==> key !in store
    ensures r.Some? ==> r.value == store[key]
  {
    if key in store then Some(store[key]) else None
  }

  /** `value || undefined`: null and the empty string both read as undefined. */
  function OrUndefined(value: Option<string>): (r: Option<string>)
    ensures r.Some? <==> value.Some? && value.value != ""
    ensures r.Some? ==> r == value
  {
    if value.Some? && value.value != "" then value else None
  }

  /** JavaScript truthiness of an optional boolean. */
  predicate IsTrue(flag: Option<bool>) {
    flag == Some(true)
  }

  /** `user?.needsOnboarding`. */
  function NeedsOnboardingOf(user: Option<User>): Option<bool> {
    if user.Some? then user.value.needsOnboarding else None
  }

  function PhaseOf(s: Session): Phase {
    if !s.isAuthenticated then LoggedOut
    else if IsTrue(NeedsOnboardingOf(s.user)) then AwaitingOnboarding
    else LoggedIn
  }

  // ---------------------------------------------------------------------------------------
  // Reading the session back from the store

  /** The user the mount effect rebuilds from the store: id and name are never the empty
      string, the email is "" when absent, and the flag is a definite boolean that is true
      only for a stored "true". Reading back is already normalized. */
  function StoredUser(store: Store): (r: User)
    ensures r.id.Some? <==> UserIdKey in store && store[UserIdKey] != ""
    ensures r.name.Some? <==> UserNameKey in store && store[UserNameKey] != ""
    ensures r.id.Some? ==> r.id.value == store[UserIdKey]
    ensures r.name.Some? ==> r.name.value == store[UserNameKey]
    ensures r.email == (if UserEmailKey in store then store[UserEmailKey] else "")
    ensures r.needsOnboarding == Some(true) <==> GetItem(store, NeedsOnboardingKey) == Some("true")
    ensures Normalized(r) == r
  {
    User(OrUndefined(GetItem(store, UserIdKey)),
         OrUndefined(GetItem(store, UserNameKey)),
         GetItem(store, UserEmailKey).GetOr(""),
         Some(GetItem(store, NeedsOnboardingKey) == Some("true")))
  }

  /** The provider's first render, before any effect has run: the initial React state (no
      user, not authenticated, no error) over whatever the store holds. */
  function Initial(store: Store): (r: Session)
    ensures r.store == store && r.user == None && r.error == None
    ensures PhaseOf(r) == LoggedOut
  {
    Session(store, None, false, None)
  }

  /** The provider right after it mounts: the initial React state (no user, not
      authenticated, no error), then the effect that restores a stored session. */
  function Mount(store: Store): (r: Session)
    ensures r.store == store && r.error == None
    ensures r.isAuthenticated <==> GetItem(store, IsAuthenticatedKey) == Some("true")
    ensures r.user.Some? <==> r.isAuthenticated
    ensures r.isAuthenticated && NeedsOnboardingKey !in store ==> r.user.value.needsOnboarding == Some(false)
    ensures r.isAuthenticated ==> r.user.value == StoredUser(store)
  {
    if GetItem(store, IsAuthenticatedKey) == Some("true") then
      Session(store, Some(StoredUser(store)), true, None)
    else
      Session(store, None, false, None)
  }

  /** What a user looks like once written to the store and read back: empty strings become
      undefined and the onboarding flag becomes a definite boolean. */
  function Normalized(u: User): User {
    User(OrUndefined(u.id), OrUndefined(u.name), u.email, Some(IsTrue(u.needsOnboarding)))
  }

  /** The store mirrors the in-memory session: the stored flag says "true" exactly when the
      session is authenticated, exactly then there is a user, and reading that user back from
      the store gives the user itself up to `Normalized`. */
  predicate Mirrored(s: Session) {
    (s.isAuthenticated <==> GetItem(s.store, IsAuthenticatedKey) == Some("true")) &&
    (s.isAuthenticated <==> s.user.Some?) &&
    (s.user.Some? ==> StoredUser(s.store) == Normalized(s.user.value))
  }

  // ---------------------------------------------------------------------------------------
  // The operations, on values

  /** The store after a session has been written into it: the five keys hold the given
      values and every other key is untouched. */
  predicate WroteSession(before: Store, after: Store, id: string, name: string, email: string, needsOnboarding: bool) {
    GetItem(after, IsAuthenticatedKey) == Some("true") &&
    GetItem(after, UserIdKey) == Some(id) &&
    GetItem(after, UserNameKey) == Some(name) &&
    GetItem(after, UserEmailKey) == Some(email) &&
    GetItem(after, NeedsOnboardingKey) == Some(if needsOnboarding then "true" else "false") &&
    after - SessionKeys == before - SessionKeys &&
    after.Keys == before.Keys + SessionKeys
  }

  /** A thrown error: only `error` changes, and the promise rejects with the same message. */
  function Fail(s: Session, message: string): (r: Step)
    ensures r.outcome == Rejected(message)
    ensures r.after.store == s.store && r.after.user == s.user && r.after.error == Some(message)
    ensures PhaseOf(r.after) == PhaseOf(s)
    ensures Mirrored(s) ==> Mirrored(r.after)
  {
    Step(s.(error := Some(message)), Rejected(message))
  }

  /** `store` with a session written into it, key by key in the order the source writes. */
  function WriteSession(store: Store, id: string, name: string, email: string, needsOnboarding: bool): (r: Store)
    ensures WroteSession(store, r, id, name, email, needsOnboarding)
  {
    store[IsAuthenticatedKey := "true"][UserIdKey := id][UserNameKey := name][UserEmailKey := email]
         [NeedsOnboardingKey := if needsOnboarding then "true" else "false"]
  }

  /** `login(email, password)`, given what the remote lookup of `email` returns. The password
      is checked for presence only: it is never compared with anything. */
  function LoginStep(s: Session, email: string, password: string, reply: SupabaseService.Fetch): (r: Step)
    ensures r.outcome.Resolved? <==> email != "" && password != "" && reply.Fetched? && reply.data.Some?
    ensures email == "" || password == "" ==> r.outcome == Rejected(CredentialsRequired)
    ensures email != "" && password != "" && reply.FetchError? ==> r.outcome == Rejected(LoginFailed)
    ensures email != "" && password != "" && reply == SupabaseService.Fetched(None) ==> r.outcome == Rejected(UserNotFound)
    ensures r.outcome.Rejected? ==> r.after == s.(error := Some(r.outcome.message))
    ensures r.outcome.Resolved? ==>
              var rec := reply.data.value;
              WroteSession(s.store, r.after.store, rec.id, rec.name.GetOr(""), email, IsTrue(rec.needsOnboarding)) &&
              r.after.user == Some(User(Some(rec.id), rec.name, email, rec.needsOnboarding)) &&
              r.after.isAuthenticated && r.after.error == None
  {
    if email == "" || password == "" then Fail(s, CredentialsRequired)
    else match reply
      case FetchError => Fail(s, LoginFailed)
      case Fetched(None) => Fail(s, UserNotFound)
      case Fetched(Some(rec)) =>
        var store := WriteSession(s.store, rec.id, rec.name.GetOr(""), email, IsTrue(rec.needsOnboarding));
        Step(Session(store, Some(User(Some(rec.id), rec.name, email, rec.needsOnboarding)), true, None), Resolved)
  }

  /** `String(n)` for a natural number: its decimal digits, most significant first. */
  function Decimal(n: nat): (s: string)
    ensures |s| >= 1 && (n >= 10 ==> |s| >= 2)
    ensures forall i :: 0 <= i < |s| ==> '0' <= s[i] <= '9'
    decreases n
  {
    var d := (n % 10) as char + '0';
    if n < 10 then [d] else Decimal(n / 10) + [d]
  }

  /** The id `user_${Date.now()}` that signup generates at clock reading `now`. */
  function UserIdAt(now: nat): (id: string)
    ensures |id| > 5 && id[..5] == "user_"
  {
    "user_" + Decimal(now)
  }

  /** Whether all three signup fields are present. */
  predicate SignupFieldsPresent(name: string, email: string, password: string)
    ensures SignupFieldsPresent(name, email, password) <==> |name| > 0 && |email| > 0 && |password| > 0
  {
    name != "" && email != "" && password != ""
  }

  /** The row `signup` asks the remote table to create. */
  function NewRow(now: nat, name: string, email: string): (r: SupabaseService.UserData)
    ensures r.id == UserIdAt(now) && r.id != ""
    ensures r.name == Some(name) && r.email == email
    ensures r.needsOnboarding == Some(true)
  {
    SupabaseService.UserData(UserIdAt(now), Some(name), email, Some(true))
  }

  /** `signup(name, email, password)` at clock reading `now`, given whether the remote insert
      reported an error. */
  function SignupStep(s: Session, name: string, email: string, password: string, now: nat, createFailed: bool): (r: Step)
    ensures r.outcome.Resolved? <==> SignupFieldsPresent(name, email, password) && !createFailed
    ensures !SignupFieldsPresent(name, email, password) ==> r.outcome == Rejected(SignupFieldsRequired)
    ensures SignupFieldsPresent(name, email, password) && createFailed ==> r.outcome == Rejected(CreateFailed)
    ensures r.outcome.Rejected? ==> r.after == s.(error := Some(r.outcome.message))
    ensures r.outcome.Resolved? ==>
              WroteSession(s.store, r.after.store, UserIdAt(now), name, email, true) &&
              r.after.user == Some(User(Some(UserIdAt(now)), Some(name), email, Some(true))) &&
              r.after.isAuthenticated && r.after.error == None
  {
    if !SignupFieldsPresent(name, email, password) then Fail(s, SignupFieldsRequired)
    else if createFailed then Fail(s, CreateFailed)
    else
      var id := UserIdAt(now);
      Step(Session(WriteSession(s.store, id, name, email, true), Some(User(Some(id), Some(name), email, Some(true))), true, None),
           Resolved)
  }

  /** The id for which `completeOnboarding` acts (`user && user.id`), if any. */
  function OnboardingTarget(s: Session): (r: Option<string>)
    ensures r.Some? <==> s.user.Some? && s.user.value.id.Some? && s.user.value.id.value != ""
    ensures r.Some? ==> s.user.value.id == r
  {
    if s.user.Some? then OrUndefined(s.user.value.id) else None
  }

  /** `completeOnboarding()`: clears the onboarding flag in the store and in the user, and
      nothing else; without a user id it does nothing. */
  function CompleteOnboardingStep(s: Session): (r: Session)
    ensures OnboardingTarget(s).None? ==> r == s
    ensures OnboardingTarget(s).Some? ==>
              GetItem(r.store, NeedsOnboardingKey) == Some("false") &&
              r.store - {NeedsOnboardingKey} == s.store - {NeedsOnboardingKey} &&
              r.store.Keys == s.store.Keys + {NeedsOnboardingKey} &&
              r.user.Some? && r.user.value.id == s.user.value.id && r.user.value.name == s.user.value.name &&
              r.user.value.email == s.user.value.email && r.user.value.needsOnboarding == Some(false)
    ensures r.isAuthenticated == s.isAuthenticated && r.error == s.error
    ensures IsTrue(NeedsOnboardingOf(r.user)) ==> IsTrue(NeedsOnboardingOf(s.user))
    ensures GetItem(r.store, NeedsOnboardingKey) == Some("true") ==> GetItem(s.store, NeedsOnboardingKey) == Some("true")
  {
    if OnboardingTarget(s).Some? then
      s.(store := s.store[NeedsOnboardingKey := "false"], user := Some(s.user.value.(needsOnboarding := Some(false))))
    else
      s
  }

  /** `logout()`: the five session keys removed, no user, not authenticated. */
  function LogoutStep(s: Session): (r: Session)
    ensures r.store.Keys == s.store.Keys - SessionKeys
    ensures forall k :: k in r.store ==> r.store[k] == s.store[k]
    ensures r.user == None && !r.isAuthenticated && r.error == s.error
  {
    s.(store := s.store - SessionKeys, user := None, isAuthenticated := false)
  }

  /** `useAuth()`: the provider's session, or the error it throws outside a provider. */
  function UseAuth(context: Option<Session>): (r: Result<Session, string>)
    ensures r.Failure? <==> context.None?
    ensures r.Failure? ==> r.error == OutsideProvider
    ensures r.Success? ==> r.value == context.value
  {
    if context.None? then Failure(OutsideProvider) else Success(context.value)
  }

  // ---------------------------------------------------------------------------------------
  // The provider

  class AuthProvider {
    /** The durable store (`localStorage`). */
    var store: Store
    var user: Option<User>
    var isAuthenticated: bool
    var error: Option<string>
    /** Ids for which `completeOnboarding` issued its remote update, oldest first. The update
        is never awaited, so nothing else depends on it. */
    var onboardingUpdates: seq<string>
    /** The remote `users` table the provider talks to. */
    const remote: SupabaseService.Users

    function Snapshot(): Session
      reads this
    {
      Session(store, user, isAuthenticated, error)
    }

    ghost predicate Valid()
      reads this
    {
      Mirrored(Snapshot())
    }

    /** Mounting the provider over a store that already holds whatever a previous page left. */
    constructor (storage: Store, remote: SupabaseService.Users)
      ensures Snapshot() == Mount(storage) && Valid()
      ensures this.remote == remote && onboardingUpdates == []
    {
      this.remote := remote;
      store := storage;
      user := None;
      isAuthenticated := false;
      error := None;
      onboardingUpdates := [];
      new;
      if GetItem(store, IsAuthenticatedKey) == Some("true") {
        var userId := OrUndefined(GetItem(store, UserIdKey));
        var userName := OrUndefined(GetItem(store, UserNameKey));
        var userEmail := GetItem(store, UserEmailKey).GetOr("");
        var needsOnboarding := GetItem(store, NeedsOnboardingKey) == Some("true");
        user := Some(User(userId, userName, userEmail, Some(needsOnboarding)));
        isAuthenticated := true;
      }
      MountMirrored(storage);
    }

    /** The five `localStorage.setItem` calls of a successful login or signup, in order. */
    method SaveSession(id: string, name: string, email: string, needsOnboarding: bool)
      modifies this`store
      ensures store == WriteSession(old(store), id, name, email, needsOnboarding)
    {
      store := store[IsAuthenticatedKey := "true"];
      store := store[UserIdKey := id];
      store := store[UserNameKey := name];
      store := store[UserEmailKey := email];
      store := store[NeedsOnboardingKey := if needsOnboarding then "true" else "false"];
    }

    method Login(email: string, password: string, available: bool) returns (outcome: Outcome)
      requires Valid()
      modifies this
      ensures Valid()
      ensures Step(Snapshot(), outcome) ==
              LoginStep(old(Snapshot()), email, password, SupabaseService.Lookup(remote.users, email, available))
      ensures onboardingUpdates == old(onboardingUpdates)
    {
      ghost var before := Snapshot();
      if email == "" || password == "" {
        error := Some(CredentialsRequired);
        return Rejected(CredentialsRequired);
      }
      var reply := remote.GetUserByEmail(email, available);
      if reply.FetchError? {
        error := Some(LoginFailed);
        return Rejected(LoginFailed);
      }
      if reply.data.None? {
        error := Some(UserNotFound);
        return Rejected(UserNotFound);
      }
      var rec := reply.data.value;
      SaveSession(rec.id, rec.name.GetOr(""), email, IsTrue(rec.needsOnboarding));
      user := Some(User(Some(rec.id), rec.name, email, rec.needsOnboarding));
      isAuthenticated := true;
      error := None;
      outcome := Resolved;
      LoginMirrored(before, email, password, reply);
    }

    method Signup(name: string, email: string, password: string, now: nat, available: bool) returns (outcome: Outcome)
      requires Valid()
      modifies this, remote
      ensures Valid()
      ensures var write := SupabaseService.Insert(old(remote.users), NewRow(now, name, email), available);
              remote.users == (if SignupFieldsPresent(name, email, password) then write.users else old(remote.users)) &&
              Step(Snapshot(), outcome) == SignupStep(old(Snapshot()), name, email, password, now, write.failed)
      ensures onboardingUpdates == old(onboardingUpdates)
    {
      ghost var before := Snapshot();
      SignupMirrored(before, name, email, password, now);
      if name == "" || email == "" || password == "" {
        error := Some(SignupFieldsRequired);
        assert Snapshot() == before.(error := Some(SignupFieldsRequired));
        return Rejected(SignupFieldsRequired);
      }
      var userId := UserIdAt(now);
      var failed := remote.CreateUser(NewRow(now, name, email), available);
      if failed {
        error := Some(CreateFailed);
        assert Snapshot() == before.(error := Some(CreateFailed));
        return Rejected(CreateFailed);
      }
      SaveSession(userId, name, email, true);
      user := Some(User(Some(userId), Some(name), email, Some(true)));
      isAuthenticated := true;
      error := None;
      outcome := Resolved;
      assert Step(Snapshot(), outcome) == SignupStep(before, name, email, password, now, false);
    }

    method CompleteOnboarding()
      requires Valid()
      modifies this
      ensures Valid()
      ensures Snapshot() == CompleteOnboardingStep(old(Snapshot()))
      ensures var target := OnboardingTarget(old(Snapshot()));
              onboardingUpdates == old(onboardingUpdates) + (if target.Some? then [target.value] else [])
    {
      ghost var before := Snapshot();
      if user.Some? && user.value.id.Some? && user.value.id.value != "" {
        store := store[NeedsOnboardingKey := "false"];
        onboardingUpdates := onboardingUpdates + [user.value.id.value];
        user := Some(user.value.(needsOnboarding := Some(false)));
      }
      CompleteOnboardingMirrored(before);
    }

    method Logout()
      requires Valid()
      modifies this
      ensures Valid()
      ensures Snapshot() == LogoutStep(old(Snapshot()))
      ensures onboardingUpdates == old(onboardingUpdates)
    {
      store := store - {IsAuthenticatedKey};
      store := store - {UserIdKey};
      store := store - {UserNameKey};
      store := store - {UserEmailKey};
      store := store - {NeedsOnboardingKey};
      user := None;
      isAuthenticated := false;
      assert store == old(store) - SessionKeys;
    }
  }

  // ---------------------------------------------------------------------------------------
  // The store stays a mirror of the session

  lemma MountMirrored(store: Store)
    ensures Mirrored(Mount(store))
  {
  }

  lemma LoginMirrored(s: Session, email: string, password: string, reply: SupabaseService.Fetch)
    requires Mirrored(s)
    ensures Mirrored(LoginStep(s, email, password, reply).after)
  {
  }

  lemma SignupMirrored(s: Session, name: string, email: string, password: string, now: nat)
    requires Mirrored(s)
    ensures forall createFailed :: Mirrored(SignupStep(s, name, email, password, now, createFailed).after)
  {
  }

  lemma CompleteOnboardingMirrored(s: Session)
    requires Mirrored(s)
    ensures Mirrored(CompleteOnboardingStep(s))
  {
  }

  lemma LogoutMirrored(s: Session)
    ensures Mirrored(LogoutStep(s))
  {
  }
}

// -----------------------------------------------------------------------------------------
// Properties relating several operations

module AuthProperties {
  import opened Wrappers
  import SupabaseService
  import opened AuthContext

  /** Logging out twice is the same as logging out once. */
  lemma LogoutIdempotent(s: Session)
    ensures LogoutStep(LogoutStep(s)) == LogoutStep(s)
  {
  }

  /** Login only checks that a password was typed: two non-empty passwords give the same
      result for the same email and the same remote answer. */
  lemma LoginIgnoresPassword(s: Session, email: string, password1: string, password2: string,
                             reply: SupabaseService.Fetch)
    requires password1 != "" && password2 != ""
    ensures LoginStep(s, email, password1, reply) == LoginStep(s, email, password2, reply)
  {
  }

  /** After a successful signup, reloading the page rebuilds exactly the same user. */
  lemma SignupThenReload(s: Session, name: string, email: string, password: string, now: nat)
    requires SignupFieldsPresent(name, email, password)
    ensures var after := SignupStep(s, name, email, password, now, false).after;
            Mount(after.store).user == after.user && Mount(after.store).isAuthenticated
  {
  }

  /** After a successful login, reloading rebuilds the user up to `Normalized`: an empty or
      missing name reads back as undefined and the onboarding flag as a definite boolean. */
  lemma LoginThenReload(s: Session, email: string, password: string, rec: SupabaseService.UserRecord)
    requires email != "" && password != ""
    ensures var after := LoginStep(s, email, password, SupabaseService.Fetched(Some(rec))).after;
            Mount(after.store).user == Some(Normalized(after.user.value))
  {
  }

  /** Reloading any mirrored session gives back its user up to `Normalized`. */
  lemma ReloadMirrored(s: Session)
    requires Mirrored(s)
    ensures Mount(s.store).isAuthenticated == s.isAuthenticated
    ensures s.user.Some? ==> Mount(s.store).user == Some(Normalized(s.user.value))
  {
  }

  /** The session lifecycle. Signup always lands in onboarding; login lands there exactly when
      the remote row says so; completing onboarding moves on from it; logout ends any session;
      a failed operation stays where it was. */
  lemma Lifecycle(s: Session, name: string, email: string, password: string, now: nat,
                  reply: SupabaseService.Fetch, createFailed: bool)
    ensures var r := SignupStep(s, name, email, password, now, createFailed);
            PhaseOf(r.after) == if r.outcome.Resolved? then AwaitingOnboarding else PhaseOf(s)
    ensures var r := LoginStep(s, email, password, reply);
            PhaseOf(r.after) == if r.outcome.Rejected? then PhaseOf(s)
                                else if IsTrue(reply.data.value.needsOnboarding) then AwaitingOnboarding
                                else LoggedIn
    ensures PhaseOf(s) == AwaitingOnboarding && OnboardingTarget(s).Some? ==>
              PhaseOf(CompleteOnboardingStep(s)) == LoggedIn
    ensures PhaseOf(s) != AwaitingOnboarding ==> PhaseOf(CompleteOnboardingStep(s)) == PhaseOf(s)
    ensures PhaseOf(LogoutStep(s)) == LoggedOut
  {
  }

  /** Two signups at different clock readings generate different ids. */
  lemma {:induction false} UserIdsDistinct(now1: nat, now2: nat)
    requires now1 != now2
    ensures UserIdAt(now1) != UserIdAt(now2)
  {
    if UserIdAt(now1) == UserIdAt(now2) {
      assert Decimal(now1) == UserIdAt(now1)[5..];
      assert Decimal(now2) == UserIdAt(now2)[5..];
      DecimalInjective(now1, now2);
    }
  }

  lemma {:induction false} DecimalInjective(a: nat, b: nat)
    requires Decimal(a) == Decimal(b)
    ensures a == b
    decreases a
  {
    var da, db := Decimal(a), Decimal(b);
    assert da[|da| - 1] == (a % 10) as char + '0';
    assert db[|db| - 1] == (b % 10) as char + '0';
    if a >= 10 && b >= 10 {
      assert Decimal(a / 10) == da[..|da| - 1];
      assert Decimal(b / 10) == db[..|db| - 1];
      DecimalInjective(a / 10, b / 10);
    }
  }
}
