# Healthify session, routing, onboarding and daily tasks — a Dafny model

This project models the logic at the centre of the Healthify wellness web app.
It has three small state machines and one pure decision:

- **The session manager** (`AuthProvider`). It keeps the signed-in `user`, the
  `isAuthenticated` flag and the last `error`. It mirrors the session into the browser's
  durable string store (`localStorage`) under five keys: `isAuthenticated`, `userId`,
  `userName`, `userEmail` and `needsOnboarding`. It performs `login`, `signup`,
  `completeOnboarding` and `logout`, and rebuilds the session from the store when the page
  mounts. The hosted `users` table is an abstract map from email to row. Its three calls
  (`getUserByEmail`, `createUser`, `updateUserAfterOnboarding`) can fail.
- **The route guard** (`AppRoutes`). It decides what `/`, `/login` and `/onboarding` show
  from `isAuthenticated` and `user?.needsOnboarding`.
- **The onboarding wizard.** It has four linear steps with Back and Continue. Each step's
  Continue is gated by that step's own check. The goal picker treats a list as a set.
- **The daily task list.** It records which tasks are completed. Confetti and the
  `onTaskComplete` callback fire on the not-done → done edge only. Each category gets a badge
  colour.

Module by module:

- `SupabaseService` holds the remote table: value-level `Lookup`, `Insert` and `Update`, and
  the class `Users` whose methods perform them.
- `AuthContext` defines each session operation twice. First as a function on a `Session`
  value (`LoginStep`, `SignupStep`, `CompleteOnboardingStep`, `LogoutStep`, `Mount`), whose
  contract states what the operation promises. Then as the class `AuthProvider`, which
  performs the same store writes step by step; each method is proved equal to its function.
- The predicate `Mirrored` says the store is a faithful mirror of the session. Every
  operation preserves it.
- `AuthProperties` proves properties that involve several operations:
  - the lifecycle LoggedOut → AwaitingOnboarding → LoggedIn;
  - logout is idempotent;
  - a signup followed by a reload gives back the same user;
  - login checks only that a password was given and never compares it;
  - different clock readings give different user ids.
- `App` is the route guard. `Onboarding` is the wizard. `DailyTasksList` is the task list.
  `Lists` holds the `filter`/spread/`includes` helpers that the last two share. `Scenarios`
  contains end-to-end flows.

Inputs the program gets from outside are parameters:

- whether the remote service answers (`available`);
- the clock reading used for a new user id (`now`);
- the store's contents when the page mounts (`storage`).

In these places the code behaves in ways a reader might not expect; the model follows the code:

- `/login` shows the login screen in every state. An authenticated user is not redirected
  away from it.
- `completeOnboarding` tests only `user && user.id`. It does not test `isAuthenticated`.
- Each wizard step's answers live in that step's component. They are discarded when the
  step is left, so a step entered again (for example after Back) starts empty. No answer is
  ever sent to the remote table.
- `login` never compares the password. Any non-empty password for a known email succeeds.
  The model keeps this behaviour.

## Model

| member | source | states |
|---|---|---|
| SupabaseService.Lookup | src/services/supabaseService.ts:95-108 | `getUserByEmail` errors exactly when the service is down; otherwise it returns the row stored under the email, or no data when there is none |
| SupabaseService.Insert | src/services/supabaseService.ts:31-56 | `createUser` fails exactly when the service is down or the email is taken; otherwise it adds one row with the given id and name, keeps every other row, and defaults `needs_onboarding` to true |
| SupabaseService.Update | src/services/supabaseService.ts:61-90 | `updateUserAfterOnboarding` fails exactly when the service is down; it keeps the set of rows, leaves rows with other ids untouched, and on success sets `needs_onboarding` to false on every row with the id |
| SupabaseService.UpdateOnlyClears | src/services/supabaseService.ts:66-78 | the update never makes a row need onboarding that did not already |
| SupabaseService.Users.GetUserByEmail | src/services/supabaseService.ts:95-108 | the call returns `Lookup` of the current table |
| SupabaseService.Users.CreateUser | src/services/supabaseService.ts:31-56 | the new table and the error flag are those of `Insert` |
| SupabaseService.Users.UpdateUserAfterOnboarding | src/services/supabaseService.ts:61-90 | the new table and the error flag are those of `Update` |
| Lists.Remove | src/components/Dashboard/DailyTasksList.tsx:72 | `filter(y => y !== x)` drops `x`, keeps every other id, is the identity when `x` is absent, keeps a duplicate-free list duplicate-free and then shortens it by exactly one |
| Lists.RemoveConcat | src/components/Dashboard/DailyTasksList.tsx:72 | `filter` keeps the order: dropping `x` from a concatenation drops it from each part, and a single id is kept exactly when it is not `x` |
| Lists.Toggle | src/components/Onboarding.tsx:22-26 | flips the membership of `x` only; an absent `x` is appended at the end; no duplicates appear; the length changes by exactly one |
| Lists.RemoveAppended | src/components/Dashboard/DailyTasksList.tsx:71-74 | removing an id that was just appended to a list without it gives back the list |
| Lists.ToggleTwice | src/components/Onboarding.tsx:22-26 | toggling the same id twice restores every id's membership, and the list itself when the id was absent |
| Lists.DistinctBound | src/components/Dashboard/DailyTasksList.tsx:99 | a duplicate-free list drawn from a set is no longer than the set |
| AuthContext.OrUndefined | src/context/AuthContext.tsx:42-43 | `v \|\| undefined`: defined exactly for a present, non-empty string, and then unchanged |
| AuthContext.GetItem | src/context/AuthContext.tsx:40-46 | `localStorage.getItem(key)` is null exactly when the key is absent |
| AuthContext.StoredUser | src/context/AuthContext.tsx:42-52 | the user rebuilt on mount takes its id and name from the stored strings, each only when its key holds a non-empty string; its email is the stored email, or "" when that key is absent; its `needsOnboarding` is a definite boolean, true exactly for a stored "true"; it is already in the form `Normalized` gives |
| AuthContext.Initial | src/context/AuthContext.tsx:34-36 | the provider's first render, before its mount effect: the store as it is, no user, not authenticated, no error, so the phase is LoggedOut |
| AuthContext.Mount | src/context/AuthContext.tsx:34-55 | on mount the session is restored exactly when the stored `isAuthenticated` is "true"; there is a user exactly then; an absent `needsOnboarding` key reads as false; the error is null |
| AuthContext.WriteSession | src/context/AuthContext.tsx:81-88 | the five session keys hold the given values, with `needsOnboarding` "true" or "false"; no other key is added, removed or changed |
| AuthContext.Fail | src/context/AuthContext.tsx:98-101 | a caught error rejects the promise with its message and sets only `error` to it; the store, the user and the phase are unchanged, and a mirrored session stays mirrored |
| AuthContext.LoginStep | src/context/AuthContext.tsx:57-102 | an empty email or password rejects with "Email and password are required"; a lookup error rejects with "Login failed"; no row rejects with "User not found"; a failure changes only `error`. Success writes the five keys from the row and the argument email (`needsOnboarding` "true" iff the row's flag is truthy), sets the user from the row, authenticates and clears the error |
| AuthContext.UserIdAt | src/context/AuthContext.tsx:115 | the generated id is `user_` followed by at least one character (the decimal clock reading) |
| AuthContext.Decimal | src/context/AuthContext.tsx:115 | a clock reading prints as a non-empty string of decimal digits, with at least two digits from 10 upward |
| AuthContext.SignupFieldsPresent | src/context/AuthContext.tsx:107 | `signup` goes past validation exactly when name, email and password are all non-empty |
| AuthContext.NewRow | src/context/AuthContext.tsx:119-124 | the row `signup` asks `createUser` to insert carries the generated non-empty id `user_<digits>`, the given name and email, and needs onboarding |
| AuthContext.SignupStep | src/context/AuthContext.tsx:104-146 | any empty field rejects with "Name, email, and password are required"; a failed insert rejects with "Failed to create user account"; a failure changes only `error`. Success writes the generated id, name, email and `needsOnboarding`="true" to the store, sets the same user with `needsOnboarding` true, authenticates and clears the error |
| AuthContext.OnboardingTarget | src/context/AuthContext.tsx:149 | `completeOnboarding` acts exactly when there is a user with a non-empty id, and then on that id |
| AuthContext.CompleteOnboardingStep | src/context/AuthContext.tsx:148-165 | with no user or no id nothing changes. Otherwise only the `needsOnboarding` key (now "false") and the user's flag (now false) change; id, name, email, `isAuthenticated` and `error` stay. The flag is never turned on, in the store or in the user |
| AuthContext.LogoutStep | src/context/AuthContext.tsx:167-175 | exactly the five session keys are removed and other keys keep their values; there is no user; not authenticated; `error` is untouched |
| AuthContext.UseAuth | src/context/AuthContext.tsx:195-201 | outside a provider, `useAuth` throws "useAuth must be used within an AuthProvider"; inside one, it returns the provider's session |
| AuthContext.AuthProvider.constructor | src/context/AuthContext.tsx:33-55 | the mounted provider holds `Mount(storage)`, which is mirrored, and has issued no remote update |
| AuthContext.AuthProvider.SaveSession | src/context/AuthContext.tsx:81-88 | the five `setItem` calls, made in order, leave the store as `WriteSession` describes: the five keys hold the session, and no other key changes |
| AuthContext.AuthProvider.Login | src/context/AuthContext.tsx:57-102 | the step-by-step writes leave the session and the promise's outcome equal to `LoginStep` on the remote table's answer; the mirror is kept |
| AuthContext.AuthProvider.Signup | src/context/AuthContext.tsx:104-146 | the session and the outcome equal `SignupStep`; the remote table receives the insert only when all fields are present; the mirror is kept |
| AuthContext.AuthProvider.CompleteOnboarding | src/context/AuthContext.tsx:148-165 | the session equals `CompleteOnboardingStep`; exactly one remote update is issued, for the user's id, exactly when that step acts; the mirror is kept |
| AuthContext.AuthProvider.Logout | src/context/AuthContext.tsx:167-175 | the five removals leave the session equal to `LogoutStep`; the mirror is kept |
| AuthContext.MountMirrored | src/context/AuthContext.tsx:38-55 | whatever the store holds, the session restored on mount is mirrored by it |
| AuthContext.LoginMirrored | src/context/AuthContext.tsx:81-97 | login, failed or not, keeps the store a mirror of the session |
| AuthContext.SignupMirrored | src/context/AuthContext.tsx:132-141 | signup, failed or not, keeps the store a mirror of the session |
| AuthContext.CompleteOnboardingMirrored | src/context/AuthContext.tsx:151-163 | completing onboarding keeps the store a mirror of the session |
| AuthContext.LogoutMirrored | src/context/AuthContext.tsx:168-174 | after logout the store mirrors the (empty) session, whatever it held before |
| AuthProperties.LogoutIdempotent | src/context/AuthContext.tsx:167-175 | logging out twice equals logging out once |
| AuthProperties.LoginIgnoresPassword | src/context/AuthContext.tsx:57-80 | any two non-empty passwords give the same login result |
| AuthProperties.SignupThenReload | src/context/AuthContext.tsx:132-139 | reloading after a successful signup restores an authenticated session with exactly the same user |
| AuthProperties.LoginThenReload | src/context/AuthContext.tsx:81-95 | reloading after a successful login restores the user up to `Normalized` (an empty name reads back as undefined) |
| AuthProperties.ReloadMirrored | src/context/AuthContext.tsx:38-55 | reloading any mirrored session restores its authentication and its normalized user |
| AuthProperties.Lifecycle | src/context/AuthContext.tsx:57-175 | signup success lands in AwaitingOnboarding; login success lands there iff the row's flag is truthy and otherwise in LoggedIn; completing onboarding (with an id) moves AwaitingOnboarding to LoggedIn and leaves other phases alone; logout always reaches LoggedOut; failures keep the phase |
| AuthProperties.UserIdsDistinct | src/context/AuthContext.tsx:115 | signups at different clock readings generate different ids |
| AuthProperties.DecimalInjective | src/context/AuthContext.tsx:115 | different numbers print differently |
| App.AppRoutes | src/App.tsx:9-45 | `/login` always renders Login. A guarded path renders the state's destination (Login when unauthenticated, Onboarding when `needsOnboarding` is true, else Home) when it is that screen's path, and otherwise redirects straight to that path |
| App.AtMostOneHop | src/App.tsx:14-42 | from any path, following at most one redirect reaches a rendered screen; there is no redirect cycle |
| App.GuardTable | src/App.tsx:17-40 | the full table: unauthenticated `/` and `/onboarding` go to `/login`; with onboarding pending `/` goes to `/onboarding`, which renders the wizard; otherwise (flag false, undefined or no user) `/` renders Home and `/onboarding` goes to `/` |
| Onboarding.Highlighted | src/components/Onboarding.tsx:255-258 | the highlighted circles are a prefix that always includes circle 1 and ends at the current step |
| Onboarding.GoalsReady | src/components/Onboarding.tsx:61 | step 1's Continue is enabled exactly when at least one goal is selected |
| Onboarding.ActivityReady | src/components/Onboarding.tsx:154 | step 3's Continue is enabled for each of the four radio values and disabled while none is chosen |
| Onboarding.PersonalReady | src/components/Onboarding.tsx:224 | Complete Setup is enabled exactly when age, height and weight are all non-empty |
| Onboarding.Wizard.constructor | src/components/Onboarding.tsx:234 | the wizard starts at step 1 with no goal selected |
| Onboarding.Wizard.ToggleGoal | src/components/Onboarding.tsx:22-26 | a click on a goal tile (one call of `toggleGoal`) replaces the selection with its toggle; the selection stays duplicate-free and within the six goal ids |
| Onboarding.Wizard.SetChallenges | src/components/Onboarding.tsx:76-96 | typing on step 2 sets the challenges text |
| Onboarding.Wizard.SetActivityLevel | src/components/Onboarding.tsx:117-147 | a radio choice on step 3 sets the activity level to one of the four values |
| Onboarding.Wizard.SetPersonal | src/components/Onboarding.tsx:169-214 | typing on step 4 sets age, height and weight |
| Onboarding.Wizard.Continue | src/components/Onboarding.tsx:265-277 | Continue moves exactly when enabled: step 1 needs a goal, step 2 always moves, step 3 needs an activity level. A move goes to step+1 and the new step's form starts empty; a disabled click changes nothing |
| Onboarding.Wizard.Back | src/components/Onboarding.tsx:265-283 | Back exists on steps 2 to 4 only and always moves to step−1; the step stays within 1..4 and the re-entered step's form starts empty |
| Onboarding.Wizard.Complete | src/components/Onboarding.tsx:238-242 | Complete acts exactly when age, height and weight are all non-empty; it then performs `completeOnboarding`, which issues the remote update for the user's id when there is one, and navigates to `/`; a disabled click leaves the session and the issued updates as they were |
| DailyTasksList.ToLower | src/components/Dashboard/DailyTasksList.tsx:82 | lower-casing keeps the length and lowers each character on its own |
| DailyTasksList.CategoryColor | src/components/Dashboard/DailyTasksList.tsx:81-92 | purple iff the lower-cased category is "mental health", green iff "nutrition", blue iff "fitness", gray for anything else |
| DailyTasksList.CategoryColorIgnoresCase | src/components/Dashboard/DailyTasksList.tsx:82 | two categories that differ only in letter case get the same colour |
| DailyTasksList.MentalHealthIsPurple | src/components/Dashboard/DailyTasksList.tsx:83-84 | "Mental Health" is purple |
| DailyTasksList.NutritionIsGreen | src/components/Dashboard/DailyTasksList.tsx:85-86 | "Nutrition" is green |
| DailyTasksList.FitnessIsBlue | src/components/Dashboard/DailyTasksList.tsx:87-88 | "Fitness" and "FITNESS" are blue |
| DailyTasksList.OtherIsGray | src/components/Dashboard/DailyTasksList.tsx:89-90 | a category outside the three, such as "Sleep", is gray |
| DailyTasksList.DefaultTaskColors | src/components/Dashboard/DailyTasksList.tsx:23-64 | every one of the five default tasks has a category with its own colour, never the gray fallback |
| DailyTasksList.Replay | src/components/Dashboard/DailyTasksList.tsx:67-75 | the completed list produced by any sequence of clicks, starting from empty, has no duplicates and holds only clicked ids |
| DailyTasksList.ReplayParity | src/components/Dashboard/DailyTasksList.tsx:70-75 | a task is completed exactly when its button was clicked an odd number of times |
| DailyTasksList.TaskList.constructor | src/components/Dashboard/DailyTasksList.tsx:67-68 | the list mounts with nothing completed, whatever the tasks' own `completed` flags say, no confetti and no callback fired |
| DailyTasksList.TaskList.IsCompleted | src/components/Dashboard/DailyTasksList.tsx:106 | a card shows as completed exactly when its button was clicked an odd number of times |
| DailyTasksList.TaskList.HandleTaskComplete | src/components/Dashboard/DailyTasksList.tsx:70-79 | a click toggles the clicked id only. Marking appends it, shows confetti for it and fires `onTaskComplete` with it exactly once. Unmarking removes it and changes neither the confetti nor the callback log |
| DailyTasksList.TaskList.ConfettiExpired | src/components/Dashboard/DailyTasksList.tsx:76 | when the confetti timer fires, no confetti is shown |
| DailyTasksList.TaskList.CompletedCount | src/components/Dashboard/DailyTasksList.tsx:99 | the completed counter equals the number of distinct completed ids and never exceeds the number of distinct tasks clicked |
| Scenarios.SignupOnboardHome | src/App.tsx:14-42 | after a signup, `/` redirects to the wizard and `/onboarding` renders it; after completing onboarding, `/` renders Home and `/onboarding` redirects to `/` |
| Scenarios.FirstRenderRedirectsToLogin | src/context/AuthContext.tsx:34-55 | in the render before the mount effect (no user, not authenticated) both `/` and `/onboarding` redirect to `/login` whatever the store holds; that state mirrors the store, and equals the mounted session, exactly when the store holds no session |
| Scenarios.LogoutShowsLogin | src/App.tsx:17-40 | after logout both guarded paths redirect to `/login` |
| Scenarios.DestinationFollowsPhase | src/App.tsx:14-42 | the guard's destination is Login, Onboarding or Home as the session is LoggedOut, AwaitingOnboarding or LoggedIn |
| Scenarios.JaneLogsIn | src/context/AuthContext.tsx:57-97 | against a table holding her row, a login with an arbitrary non-empty password succeeds and sends the user to the wizard, and a reload restores the same user |
| Scenarios.JaneOnboards | src/components/Onboarding.tsx:233-283 | walking the wizard (with one click on a disabled Continue) and completing it ends with `/` rendering Home |
| Scenarios.JaneLogsOut | src/context/AuthContext.tsx:167-175 | logout from any mirrored session leads both guarded paths to `/login` |

## Left out

- The simulated 500 ms delays before each remote call are timing only and are not modelled.
- The confetti timer's 2000 ms delay is not modelled. Only the timer's effect is, as `ConfettiExpired`.
- `Date.now()` is the parameter `now`. The id format `user_<digits>` is modelled. Two signups in the same millisecond would get the same id, and the clock is not modelled.
- Network and database failures are the parameter `available`. Nothing models why a call fails.
- The email is the key of the modelled table, so an insert for an email that is already present fails. Whether the hosted table enforces this is not part of this model.
- The hosted library's `.single()` reports an error when no row matches. The model follows the session manager's reading instead: a missing row gives no data and "User not found". Either way login fails and only `error` changes.
- SupabaseService.Insert and SupabaseService.Update: a call that reports an error is assumed to have changed nothing. The service turns any error or exception into `{ data: null, error }`, so a reply can also be lost after the row was written. In that case the app shows "Failed to create user account" while the row exists: a later login with that email then succeeds, and signing up again with it fails. The model's failed signup leaves the table unchanged, so it cannot show that state.
- The remote update that `completeOnboarding` fires and never awaits is only recorded, as `onboardingUpdates`. Its effect is not applied, and its failure, which is only logged, is not modelled. `Users.UpdateUserAfterOnboarding` states what it does when it lands.
- `updateUserAfterOnboarding` also sends health fields. They are always undefined, so the model leaves them out.
- The provider is assumed to be the only writer of the five session keys. `localStorage` is shared by every tab of the same origin, so a logout in another tab removes the keys while this tab keeps its user. The model cannot express that state, because every `AuthProvider` method requires `Mirrored`.
- Overlapping `login`/`signup` calls that interleave at their await points are not modelled: every operation runs to completion.
- The provider first renders with its initial state (no user, not authenticated) and restores the stored session only in its mount effect. `Mount` and `AuthProvider.constructor` treat mounting as one step, so the routes seen during that first render are not part of the session's history. `Scenarios.FirstRenderRedirectsToLogin` states what that render shows: both guarded paths redirect to `/login`. Whether that redirect takes effect before the restored session is rendered depends on the order in which React and the routing library run their effects, which is not part of this model. If it does, a reload by a signed-in user ends on `/login`, which never redirects away.
- React applies state updates asynchronously, and `completeOnboarding` reads the `user` captured at render. The model applies each update at once, in program order.
- The fallback messages "Login failed"/"Signup failed" for a thrown non-`Error` value are not modelled. Every value thrown on these paths is an `Error`.
- `localStorage.setItem` can throw, for example when the quota is exceeded. This is not modelled.
- DailyTasksList.ToLower: lowers only the ASCII letters A–Z, while `toLowerCase` also lowers other Unicode letters. This does not change `CategoryColor`: no other character lowers to a single letter of "mental health", "nutrition" or "fitness" (U+0130 lowers to two code points and the Kelvin sign to `k`, which none of the three contains), so the colour agrees with the source on every category. Only `ToLower` itself differs.
- Onboarding.Wizard.ToggleGoal: requires a goal id from the six tiles and a call on step 1, because those are the only places the click can come from.
- Each goal tile also holds a checkbox whose `onCheckedChange` calls `toggleGoal`. A click on that checkbox probably also bubbles to the tile's own `onClick` and toggles the goal a second time, which would leave its membership unchanged and move an already selected goal to the end of the list. Whether the click bubbles depends on the checkbox component, which is not part of this model. The model covers only clicks on the tile itself, one `toggleGoal` each.
- Onboarding.Wizard.SetActivityLevel: requires one of the four radio values on step 3 for the same reason.
- Rendering, styling and markup are not modelled: `Login.tsx` (whose `handleSubmit` only calls `login`/`signup` and navigates), `home.tsx`, `WellnessOverview.tsx` (its greeting reads the clock), `ContentRecommendations.tsx` and `ProgressCharts.tsx` (floating-point percentages, and a streak grid drawn with `Math.random`).
- The development-only `tempo-routes` mounting, the routing library itself and console logging are not modelled.
