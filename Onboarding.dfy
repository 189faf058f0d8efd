/** The four-step onboarding wizard: goals, challenges, activity level, personal details.
    `step` belongs to the wizard; each step's form fields belong to that step's component and
    are discarded when the step is left, so a step entered again starts empty. */
module Onboarding {
  import opened Wrappers
  import opened Lists
  import AuthContext
  import App

  /** The ids of the six goal tiles of step 1. */
  const GoalIds: seq<string> := ["weight", "stress", "sleep", "fitness", "nutrition", "mental"]

  /** The values of the four radio buttons of step 3. */
  const ActivityLevels: seq<string> := ["sedentary", "light", "moderate", "active"]

  /** Step 1's Continue button is enabled. */
  predicate GoalsReady(selectedGoals: seq<string>)
    ensures GoalsReady(selectedGoals) <==> exists g :: g in selectedGoals
  {
    assert |selectedGoals| != 0 ==> selectedGoals[0] in selectedGoals;
    |selectedGoals| != 0
  }

  /** Step 3's Continue button is enabled. */
  predicate ActivityReady(activityLevel: string)
    ensures activityLevel in ActivityLevels ==> ActivityReady(activityLevel)
    ensures activityLevel == "" ==> !ActivityReady(activityLevel)
  {
    activityLevel != ""
  }

  /** Step 4's Complete Setup button is enabled. */
  predicate PersonalReady(age: string, height: string, weight: string)
    ensures PersonalReady(age, height, weight) <==> |age| > 0 && |height| > 0 && |weight| > 0
  {
    age != "" && height != "" && weight != ""
  }

  /** Which of the four progress circles are highlighted (`step >= i`). */
  function Highlighted(step: int): (r: seq<bool>)
    requires 1 <= step <= 4
    ensures |r| == 4
    ensures r[0] && r[step - 1] && (step < 4 ==> !r[step])
    ensures forall i, j :: 0 <= i <= j < 4 && r[j] ==> r[i]
  {
    [step >= 1, step >= 2, step >= 3, step >= 4]
  }

  class Wizard {
    var step: int
    /** Step 1 */
    var selectedGoals: seq<string>
    /** Step 2 */
    var challenges: string
    /** Step 3 */
    var activityLevel: string
    /** Step 4 */
    var age: string
    var height: string
    var weight: string

    /** The form state of every step other than `s` is at its initial value. */
    ghost predicate FormsEmptyExcept(s: int)
      reads this
    {
      (s != 1 ==> selectedGoals == []) &&
      (s != 2 ==> challenges == "") &&
      (s != 3 ==> activityLevel == "") &&
      (s != 4 ==> age == "" && height == "" && weight == "")
    }

    /** Every step's form is at its initial value, as when a step has just been entered. */
    ghost predicate AllFormsEmpty()
      reads this
    {
      FormsEmptyExcept(0)
    }

    ghost predicate Valid()
      reads this
    {
      1 <= step <= 4 &&
      FormsEmptyExcept(step) &&
      NoDup(selectedGoals) &&
      (forall g :: g in selectedGoals ==> g in GoalIds) &&
      (activityLevel == "" || activityLevel in ActivityLevels)
    }

    constructor ()
      ensures Valid() && step == 1 && selectedGoals == []
    {
      step := 1;
      selectedGoals := [];
      challenges := "";
      activityLevel := "";
      age, height, weight := "", "", "";
    }

    /** Clicking a goal tile on step 1: one call of `toggleGoal`. */
    method ToggleGoal(id: string)
      requires Valid() && step == 1 && id in GoalIds
      modifies this`selectedGoals
      ensures Valid()
      ensures selectedGoals == Toggle(old(selectedGoals), id)
    {
      selectedGoals := Toggle(selectedGoals, id);
    }

    method SetChallenges(text: string)
      requires Valid() && step == 2
      modifies this`challenges
      ensures Valid() && challenges == text
    {
      challenges := text;
    }

    /** Picking one of the four radio buttons on step 3. */
    method SetActivityLevel(level: string)
      requires Valid() && step == 3 && level in ActivityLevels
      modifies this`activityLevel
      ensures Valid() && activityLevel == level
    {
      activityLevel := level;
    }

    /** Typing into the three inputs of step 4. */
    method SetPersonal(newAge: string, newHeight: string, newWeight: string)
      requires Valid() && step == 4
      modifies this`age, this`height, this`weight
      ensures Valid() && age == newAge && height == newHeight && weight == newWeight
    {
      age, height, weight := newAge, newHeight, newWeight;
    }

    /** Clicking Continue on steps 1 to 3. A disabled button ignores the click; an enabled one
        moves to the next step, whose form starts empty. */
    method Continue() returns (moved: bool)
      requires Valid() && step <= 3
      modifies this
      ensures Valid()
      ensures moved <==> (old(step) == 1 && GoalsReady(old(selectedGoals))) || old(step) == 2 ||
                         (old(step) == 3 && ActivityReady(old(activityLevel)))
      ensures moved ==> step == old(step) + 1 && AllFormsEmpty()
      ensures !moved ==> step == old(step) && selectedGoals == old(selectedGoals) &&
                         challenges == old(challenges) && activityLevel == old(activityLevel)
    {
      moved := (step == 1 && GoalsReady(selectedGoals)) || step == 2 || (step == 3 && ActivityReady(activityLevel));
      if moved {
        step := step + 1;
        selectedGoals, challenges, activityLevel := [], "", "";
      }
    }

    /** Clicking Back on steps 2 to 4 (step 1 has no Back button): always moves to the
        previous step, whose form starts empty. */
    method Back()
      requires Valid() && step >= 2
      modifies this
      ensures Valid()
      ensures step == old(step) - 1 && AllFormsEmpty()
    {
      step := step - 1;
      challenges, activityLevel := "", "";
      age, height, weight := "", "", "";
    }

    /** Clicking Complete Setup on step 4: when enabled, `completeOnboarding()` and then a
        navigation to `/`; the collected answers are not sent anywhere. */
    method Complete(auth: AuthContext.AuthProvider) returns (navigateTo: Option<App.Path>)
      requires Valid() && step == 4 && auth.Valid()
      modifies auth
      ensures auth.Valid()
      ensures navigateTo.Some? <==> PersonalReady(age, height, weight)
      ensures navigateTo.Some? ==> navigateTo.value == App.Root
      ensures auth.Snapshot() ==
              if navigateTo.Some? then AuthContext.CompleteOnboardingStep(old(auth.Snapshot())) else old(auth.Snapshot())
      ensures var target := AuthContext.OnboardingTarget(old(auth.Snapshot()));
              auth.onboardingUpdates ==
              old(auth.onboardingUpdates) + (if navigateTo.Some? && target.Some? then [target.value] else [])
    {
      if PersonalReady(age, height, weight) {
        auth.CompleteOnboarding();
        navigateTo := Some(App.Root);
      } else {
        navigateTo := None;
      }
    }
  }
}
