/** The "import your program" demo: an endless step sequence that starts when
    the section scrolls into view, the screen each step shows, and the
    exercise counter of the last screen. Each awaited delay finishing is one
    DelayElapses step. */
module ImportProgramAnimation {
  import opened JsCore

  datatype Step = Idle | ShowingDashboard | ClickImport | CreatePlan | AddExercises | Complete

  /** The order in which the sequence sets the steps (Complete goes back to Idle). */
  function NextStep(s: Step): Step {
    match s
    case Idle => ShowingDashboard
    case ShowingDashboard => ClickImport
    case ClickImport => CreatePlan
    case CreatePlan => AddExercises
    case AddExercises => Complete
    case Complete => Idle
  }

  /** The async sequence has seven awaits; `pc` says which one is pending.
      Awaits 0 to 5 end by setting the next step; await 6 (after Idle) ends by
      restarting the sequence, which changes no step. */
  const SequenceLength := 7

  /** The delay of each await, in milliseconds. */
  const Delays: seq<nat> := [300, 1500, 800, 1800, 1800, 1000, 300]

  /** The step shown while await `pc` is pending. */
  function StepAt(pc: nat): Step
    requires pc < SequenceLength
  {
    if pc == 0 || pc == 6 then Idle
    else if pc == 1 then ShowingDashboard
    else if pc == 2 then ClickImport
    else if pc == 3 then CreatePlan
    else if pc == 4 then AddExercises
    else Complete
  }

  /** One await finishing: the next await is pending, and the step moves to
      its successor except on the restart. */
  function Elapse(pc: nat): (next: nat)
    requires pc < SequenceLength
    ensures next < SequenceLength
    ensures pc == 6 ==> next == 0 && StepAt(next) == StepAt(pc)
    ensures pc != 6 ==> next == pc + 1 && StepAt(next) == NextStep(StepAt(pc))
  {
    if pc + 1 == SequenceLength then 0 else pc + 1
  }

  /** k awaits finishing. */
  function ElapseTimes(pc: nat, k: nat): (r: nat)
    requires pc < SequenceLength
    ensures r < SequenceLength
    decreases k
  {
    if k == 0 then pc else Elapse(ElapseTimes(pc, k - 1))
  }

  /** Within one round, k awaits move k places round the sequence; seven
      awaits come back to the same place and the same step, so the sequence
      repeats for ever. */
  lemma {:induction false} ElapseTimesRotates(pc: nat, k: nat)
    requires pc < SequenceLength && k <= SequenceLength
    ensures ElapseTimes(pc, k) == if pc + k < SequenceLength then pc + k else pc + k - SequenceLength
    decreases k
  {
    if k > 0 {
      ElapseTimesRotates(pc, k - 1);
    }
  }

  lemma SequenceRepeats(pc: nat)
    requires pc < SequenceLength
    ensures ElapseTimes(pc, SequenceLength) == pc
    ensures StepAt(ElapseTimes(pc, SequenceLength)) == StepAt(pc)
  {
    ElapseTimesRotates(pc, SequenceLength);
  }

  /** Starting from idle, the steps shown by the seven awaits are the cycle
      idle, dashboard, click import, create plan, add exercises, complete,
      with idle held for two awaits. */
  lemma CycleOrder()
    ensures StepAt(0) == Idle && StepAt(1) == NextStep(Idle) && StepAt(2) == NextStep(StepAt(1))
    ensures StepAt(3) == NextStep(StepAt(2)) && StepAt(4) == NextStep(StepAt(3))
    ensures StepAt(5) == NextStep(StepAt(4)) && StepAt(6) == NextStep(StepAt(5)) && StepAt(6) == Idle
  {
  }

  class Sequencer {
    /** `useInView(ref, { once: true })`: true from the first sighting on. */
    var isInView: bool
    var step: Step
    var pc: nat

    ghost predicate Valid()
      reads this
    {
      pc < SequenceLength && step == StepAt(pc) && (!isInView ==> pc == 0)
    }

    constructor()
      ensures Valid() && !isInView && step == Idle && pc == 0
    {
      isInView := false;
      step := Idle;
      pc := 0;
    }

    /** The section scrolls into view; the sequence starts at its first await. */
    method EnterView()
      requires Valid()
      modifies this`isInView
      ensures Valid() && isInView
      ensures pc == old(pc) && step == old(step)
    {
      isInView := true;
    }

    /** The pending await finishing. Out of view there is no sequence and
        nothing happens. */
    method DelayElapses()
      requires Valid()
      modifies this`step, this`pc
      ensures Valid()
      ensures !isInView ==> pc == old(pc) && step == old(step)
      ensures isInView ==> pc == Elapse(old(pc))
      ensures isInView && old(pc) != 6 ==> step == NextStep(old(step))
      ensures isInView && old(pc) == 6 ==> step == old(step)
    {
      if !isInView {
        return;
      }
      if pc == 0 {
        step := ShowingDashboard;
      } else if pc == 1 {
        step := ClickImport;
      } else if pc == 2 {
        step := CreatePlan;
      } else if pc == 3 {
        step := AddExercises;
      } else if pc == 4 {
        step := Complete;
      } else if pc == 5 {
        step := Idle;
      }
      pc := if pc + 1 == SequenceLength then 0 else pc + 1;
    }
  }

  // ---------------------------------------------------------------------
  // Screen selection

  predicate ShowsLanding(s: Step) {
    s == Idle || s == ShowingDashboard || s == ClickImport
  }

  predicate ShowsCreatePlan(s: Step) {
    s == CreatePlan
  }

  predicate ShowsAddExercises(s: Step) {
    s == AddExercises || s == Complete
  }

  /** The three screen conditions partition the steps: exactly one screen
      renders in every step. */
  lemma ExactlyOneScreen(s: Step)
    ensures ShowsLanding(s) || ShowsCreatePlan(s) || ShowsAddExercises(s)
    ensures !(ShowsLanding(s) && ShowsCreatePlan(s))
    ensures !(ShowsLanding(s) && ShowsAddExercises(s))
    ensures !(ShowsCreatePlan(s) && ShowsAddExercises(s))
  {
  }

  /** The landing screen's import button looks pressed only in the click step,
      and the exercise screen shows completion only in the complete step. */
  predicate IsClickingImport(s: Step) {
    s == ClickImport
  }

  predicate ShowComplete(s: Step) {
    s == Complete
  }

  lemma PressAndCompleteOnTheirScreens(s: Step)
    ensures IsClickingImport(s) ==> ShowsLanding(s)
    ensures ShowComplete(s) ==> ShowsAddExercises(s)
  {
  }

  // ---------------------------------------------------------------------
  // The exercise counter of the add-exercises screen

  const MaxExercises := 3

  /** The total-sets figure: three per exercise, plus one once all three are in. */
  function TotalSets(count: nat): (sets: nat)
    ensures count == 0 ==> sets == 0
    ensures count == 1 ==> sets == 3
    ensures count == 2 ==> sets == 6
    ensures count == 3 ==> sets == 10
    ensures count != 3 ==> sets == 3 * count
  {
    count * 3 + (if count == 3 then 1 else 0)
  }

  /** The counter label, `<n> exercise[s] • <sets> total sets`, in its
      three parts: the count, the noun and the sets figure. */
  function ExerciseLabel(count: nat): string {
    NatToString(count) + Noun(count) + SetsPart(count)
  }

  function Noun(count: nat): string {
    " exercise" + (if count != 1 then "s" else "")
  }

  function SetsPart(count: nat): string {
    " • " + NatToString(TotalSets(count)) + " total sets"
  }

  /** The label starts with the count, and its noun is plural exactly when
      the count is not 1. */
  lemma LabelPlural(count: nat)
    ensures NatToString(count) <= ExerciseLabel(count)
    ensures ExerciseLabel(count)[|NatToString(count)| + 9] == 's' <==> count != 1
  {
    var n, w, t := NatToString(count), Noun(count), SetsPart(count);
    assert ExerciseLabel(count) == n + (w + t);
    assert (n + (w + t))[|n| + 9] == (w + t)[9];
    assert t[0] == ' ';
  }

  /** Exercise card k renders once the counter reaches k. */
  predicate CardVisible(count: nat, k: nat) {
    count >= k
  }

  /** The "add exercise" button renders once all three exercises are in. */
  predicate AddButtonVisible(count: nat) {
    count >= MaxExercises
  }

  class ExerciseCounter {
    var exerciseCount: nat

    /** The counter starts at 0 each time the screen mounts. */
    constructor()
      ensures exerciseCount == 0
    {
      exerciseCount := 0;
    }

    /** One of the three awaited delays finishing: the count goes up by one,
        and after the third there are no more delays. */
    method DelayElapses()
      requires exerciseCount <= MaxExercises
      modifies this`exerciseCount
      ensures exerciseCount <= MaxExercises
      ensures old(exerciseCount) < MaxExercises ==> exerciseCount == old(exerciseCount) + 1
      ensures old(exerciseCount) == MaxExercises ==> exerciseCount == MaxExercises
    {
      if exerciseCount < MaxExercises {
        exerciseCount := exerciseCount + 1;
      }
    }
  }

  /** The screen's whole run: after its three delays every card and the button
      show, and the label counts ten sets. */
  method ExerciseScenario() returns (count: nat, cards: bool, button: bool, sets: nat)
    ensures count == 3 && cards && button && sets == 10
  {
    var c := new ExerciseCounter();
    c.DelayElapses();
    c.DelayElapses();
    c.DelayElapses();
    count := c.exerciseCount;
    cards := CardVisible(count, 1) && CardVisible(count, 2) && CardVisible(count, 3);
    button := AddButtonVisible(count);
    sets := TotalSets(count);
  }
}
