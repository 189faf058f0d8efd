/** The daily task list: which tasks the user has marked complete today, the confetti shown
    for the latest one, the `onTaskComplete` callback fired on each not-done to done edge, and
    the colour of each task's category badge. */
module DailyTasksList {
  import opened Wrappers
  import opened Lists

  datatype Task = Task(id: string, title: string, description: string, estimatedTime: string,
                       category: string, completed: bool)

  const MentalHealthColor := "bg-purple-100 text-purple-800"
  const NutritionColor := "bg-green-100 text-green-800"
  const FitnessColor := "bg-blue-100 text-blue-800"
  const OtherColor := "bg-gray-100 text-gray-800"

  /** The tasks shown when the caller passes none. */
  const DefaultTasks: seq<Task> := [
    Task("1", "Morning Meditation", "Start your day with a 10-minute mindfulness session", "10 min", "Mental Health", false),
    Task("2", "Hydration Reminder", "Drink a full glass of water with lemon", "5 min", "Nutrition", false),
    Task("3", "Quick Stretching", "Do a series of full-body stretches to improve flexibility", "15 min", "Fitness", false),
    Task("4", "Gratitude Journaling", "Write down three things you are grateful for today", "10 min", "Mental Health", false),
    Task("5", "Evening Walk", "Take a relaxing walk after dinner to aid digestion", "20 min", "Fitness", false)
  ]

  // ---------------------------------------------------------------------------------------
  // Category colours

  function LowerChar(c: char): char {
    if 'A' <= c <= 'Z' then (c as int + 32) as char else c
  }

  /** `s.toLowerCase()` on ASCII letters. */
  function ToLower(s: string): (r: string)
    ensures |r| == |s|
    ensures forall i :: 0 <= i < |s| ==> r[i] == LowerChar(s[i])
  {
    if s == [] then [] else [LowerChar(s[0])] + ToLower(s[1..])
  }

  /** Two strings that differ only in the case of their letters. */
  predicate SameIgnoringCase(a: string, b: string) {
    |a| == |b| && forall i :: 0 <= i < |a| ==> LowerChar(a[i]) == LowerChar(b[i])
  }

  /** `getCategoryColor(category)`: the badge colour, chosen on the lower-cased category. */
  function CategoryColor(category: string): (r: string)
    ensures r == MentalHealthColor <==> ToLower(category) == "mental health"
    ensures r == NutritionColor <==> ToLower(category) == "nutrition"
    ensures r == FitnessColor <==> ToLower(category) == "fitness"
    ensures r == OtherColor <==> ToLower(category) !in {"mental health", "nutrition", "fitness"}
  {
    match ToLower(category)
    case "mental health" => MentalHealthColor
    case "nutrition" => NutritionColor
    case "fitness" => FitnessColor
    case _ => OtherColor
  }

  /** The colour does not depend on the case of the category's letters. */
  lemma CategoryColorIgnoresCase(a: string, b: string)
    requires SameIgnoringCase(a, b)
    ensures CategoryColor(a) == CategoryColor(b)
  {
    assert ToLower(a) == ToLower(b);
  }

  /** The categories of the default tasks, as written there, get their own colours. */
  lemma MentalHealthIsPurple()
    ensures CategoryColor("Mental Health") == MentalHealthColor
  {
    LowerOf("Mental Health", "mental health");
  }

  lemma NutritionIsGreen()
    ensures CategoryColor("Nutrition") == NutritionColor
  {
    LowerOf("Nutrition", "nutrition");
  }

  lemma FitnessIsBlue()
    ensures CategoryColor("FITNESS") == FitnessColor && CategoryColor("Fitness") == FitnessColor
  {
    LowerOf("FITNESS", "fitness");
    LowerOf("Fitness", "fitness");
  }

  /** Any other category, such as "Sleep", is gray. */
  lemma OtherIsGray()
    ensures CategoryColor("Sleep") == OtherColor
  {
    LowerOf("Sleep", "sleep");
  }

  /** Every default task's category has a colour of its own. */
  lemma DefaultTaskColors()
    ensures forall i :: 0 <= i < |DefaultTasks| ==> CategoryColor(DefaultTasks[i].category) != OtherColor
  {
    forall i | 0 <= i < |DefaultTasks|
      ensures CategoryColor(DefaultTasks[i].category) != OtherColor
    {
      if i == 0 || i == 3 {
        assert DefaultTasks[i].category == "Mental Health";
        MentalHealthIsPurple();
      } else if i == 1 {
        assert DefaultTasks[i].category == "Nutrition";
        NutritionIsGreen();
      } else {
        assert DefaultTasks[i].category == "Fitness";
        FitnessIsBlue();
      }
    }
  }

  lemma LowerOf(s: string, t: string)
    requires |s| == |t| && forall i :: 0 <= i < |s| ==> LowerChar(s[i]) == t[i]
    ensures ToLower(s) == t
  {
  }

  // ---------------------------------------------------------------------------------------
  // Completion

  /** The completed list after clicking the buttons of the tasks `clicks`, in order, starting
      from the empty list the component mounts with. */
  function Replay(clicks: seq<string>): (r: seq<string>)
    ensures NoDup(r)
    ensures forall id :: id in r ==> id in clicks
  {
    if clicks == [] then [] else Toggle(Replay(clicks[..|clicks| - 1]), clicks[|clicks| - 1])
  }

  /** A task is complete exactly when its button was clicked an odd number of times. */
  lemma {:induction false} ReplayParity(clicks: seq<string>, id: string)
    ensures id in Replay(clicks) <==> multiset(clicks)[id] % 2 == 1
  {
    if clicks != [] {
      var init, last := clicks[..|clicks| - 1], clicks[|clicks| - 1];
      assert clicks == init + [last];
      assert multiset(clicks) == multiset(init) + multiset{last};
      ReplayParity(init, id);
    }
  }

  class TaskList {
    const tasks: seq<Task>
    var completedTasks: seq<string>
    var showConfetti: Option<string>
    /** The ids passed to `onTaskComplete`, in call order. */
    var notified: seq<string>
    /** The ids of every button click so far, in order. */
    ghost var clicks: seq<string>

    ghost predicate Valid()
      reads this
    {
      completedTasks == Replay(clicks)
    }

    /** Mounting: nothing is completed, whatever the tasks' own `completed` flags say. */
    constructor (tasks: seq<Task>)
      ensures Valid() && this.tasks == tasks
      ensures completedTasks == [] && showConfetti == None && notified == [] && clicks == []
      ensures forall t :: t in tasks ==> !IsCompleted(t)
    {
      this.tasks := tasks;
      completedTasks := [];
      showConfetti := None;
      notified := [];
      clicks := [];
    }

    /** The card of `task` shows as completed: exactly when its button was clicked an odd
        number of times. */
    predicate IsCompleted(task: Task)
      reads this
      requires Valid()
      ensures IsCompleted(task) <==> multiset(clicks)[task.id] % 2 == 1
    {
      ReplayParity(clicks, task.id);
      task.id in completedTasks
    }

    /** `handleTaskComplete(taskId)`. */
    method HandleTaskComplete(taskId: string)
      requires Valid()
      modifies this
      ensures Valid() && clicks == old(clicks) + [taskId]
      ensures completedTasks == Toggle(old(completedTasks), taskId)
      ensures taskId in old(completedTasks) ==>
                showConfetti == old(showConfetti) && notified == old(notified)
      ensures taskId !in old(completedTasks) ==>
                completedTasks == old(completedTasks) + [taskId] &&
                showConfetti == Some(taskId) && notified == old(notified) + [taskId]
    {
      clicks := clicks + [taskId];
      if taskId in completedTasks {
        completedTasks := Remove(completedTasks, taskId);
      } else {
        completedTasks := completedTasks + [taskId];
        showConfetti := Some(taskId);
        notified := notified + [taskId];
      }
    }

    /** The confetti timer firing: `setShowConfetti(null)`. */
    method ConfettiExpired()
      modifies this`showConfetti
      ensures showConfetti == None
    {
      showConfetti := None;
    }

    /** The `completedTasks.length` counter: never more than the number of distinct tasks
        clicked so far. */
    function CompletedCount(): (n: nat)
      reads this
      requires Valid()
      ensures n <= |Elems(clicks)|
      ensures n == |Elems(completedTasks)|
    {
      DistinctCount(completedTasks);
      DistinctBound(completedTasks, Elems(clicks));
      |completedTasks|
    }
  }
}
