/**
 * The onboarding wizard: step 1 asks for a name, step 2 for a goal, step 3 welcomes the user
 * with the chosen goal and leads on to the dashboard. Nothing entered is stored.
 */
module Onboarding {
  import opened Js

  datatype Goal = Goal(id: string, title: string, description: string)

  /** The goals offered at step 2, in the order shown. */
  const Goals: seq<Goal> := [
    Goal("dating-clarity", "Dating Clarity", "Navigate dating with confidence and clear intentions"),
    Goal("intimacy-growth", "Intimacy Growth", "Deepen emotional and physical connections"),
    Goal("healing", "Healing", "Process past experiences and build resilience"),
    Goal("self-discovery", "Self-Discovery", "Explore your authentic self and desires")
  ]

  /** Where "Enter Your Sanctuary" leads. */
  const DashboardRoute := "/dashboard"

  /** Step 3's `goals.find(g => g.id === goal)`. */
  function SelectedGoal(goal: string): (r: Option<Goal>)
    ensures r.Some? ==> r.value in Goals && r.value.id == goal
    ensures r.None? <==> forall k | 0 <= k < |Goals| :: Goals[k].id != goal
  {
    Find(Goals, (g: Goal) => g.id == goal)
  }

  /** Goal ids are distinct, so choosing goal `k` shows goal `k`'s title at step 3. */
  lemma SelectedGoalOf(k: nat)
    requires k < |Goals|
    ensures SelectedGoal(Goals[k].id) == Some(Goals[k])
  {
    GoalIdsDistinct();
    FindUnique(Goals, (g: Goal) => g.id == Goals[k].id, k);
  }

  /** No two goals share an id. */
  lemma GoalIdsDistinct()
    ensures forall i, j | 0 <= i < j < |Goals| :: Goals[i].id != Goals[j].id
  {
    forall i, j | 0 <= i < j < |Goals|
      ensures Goals[i].id != Goals[j].id
    {
      assert Goals[i].id[0] != Goals[j].id[0];
    }
  }

  /** A goal id of the radio group. */
  predicate IsGoalId(goal: string) {
    exists k | 0 <= k < |Goals| :: Goals[k].id == goal
  }

  class Wizard {
    var step: nat
    var name: string
    var goal: string

    /** Only steps 1 to 3 exist; step 2 and 3 are reached with a non-blank name, step 3 with a
        chosen goal; the goal is empty or one of the radio group's ids. */
    ghost predicate Valid()
      reads this
    {
      && 1 <= step <= 3
      && (step >= 2 ==> Trim(name) != "")
      && (step == 3 ==> goal != "")
      && (goal == "" || IsGoalId(goal))
    }

    /** The wizard as first shown: step 1, nothing entered. */
    constructor ()
      ensures Valid()
      ensures step == 1 && name == "" && goal == ""
    {
      step, name, goal := 1, "", "";
    }

    /** Typing in the name field, shown at step 1 only. */
    method EditName(text: string)
      requires Valid() && step == 1
      modifies this`name
      ensures Valid()
      ensures name == text
    {
      name := text;
    }

    /** Choosing goal `k` in the radio group, shown at step 2 only. */
    method ChooseGoal(k: nat)
      requires Valid() && step == 2 && k < |Goals|
      modifies this`goal
      ensures Valid()
      ensures goal == Goals[k].id
    {
      goal := Goals[k].id;
    }

    /** "Continue Your Journey": on to step 2 when the name is not blank; the button is
        disabled otherwise. */
    method Continue()
      requires Valid() && step == 1
      modifies this`step
      ensures Valid()
      ensures step == if Trim(name) != "" then 2 else 1
    {
      if Trim(name) != "" {
        step := 2;
      }
    }

    /** "This Feels Right": on to step 3 when a goal is chosen; disabled otherwise. */
    method ConfirmGoal()
      requires Valid() && step == 2
      modifies this`step
      ensures Valid()
      ensures step == if goal != "" then 3 else 2
    {
      if goal != "" {
        step := 3;
      }
    }

    /** "Back" at step 2: to step 1, keeping the name and the chosen goal. */
    method Back()
      requires Valid() && step == 2
      modifies this`step
      ensures Valid()
      ensures step == 1
    {
      step := 1;
    }

    /** Step 3's focus badge: the title of the chosen goal, which always exists. */
    method FocusTitle() returns (title: string)
      requires Valid() && step == 3
      ensures exists k | 0 <= k < |Goals| :: Goals[k].id == goal && title == Goals[k].title
    {
      var k :| 0 <= k < |Goals| && Goals[k].id == goal;
      SelectedGoalOf(k);
      title := SelectedGoal(goal).value.title;
    }

    /** `handleComplete`: the route the user is sent to; the wizard's state is left as it is. */
    method Complete() returns (route: string)
      requires Valid() && step == 3
      ensures route == DashboardRoute
    {
      route := DashboardRoute;
    }
  }

  /** Entering a non-blank name, choosing goal `k` and confirming shows goal `k` as the focus
      and leads to the dashboard. */
  method WalkThrough(userName: string, k: nat) returns (focus: string, route: string)
    requires Trim(userName) != "" && k < |Goals|
    ensures focus == Goals[k].title && route == DashboardRoute
  {
    var w := new Wizard();
    w.EditName(userName);
    w.Continue();
    w.ChooseGoal(k);
    w.ConfirmGoal();
    focus := w.FocusTitle();
    GoalIdsDistinct();
    route := w.Complete();
  }

  /** A blank name keeps the wizard at step 1. */
  method BlankNameStays(userName: string) returns (step: nat)
    requires Trim(userName) == ""
    ensures step == 1
  {
    var w := new Wizard();
    w.EditName(userName);
    w.Continue();
    step := w.step;
  }
}
