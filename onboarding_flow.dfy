/** The onboarding wizard: three tutorial steps walked through with
    "Continue", a set of completed steps, and a "Skip Tutorial" exit. */
module OnboardingFlow {
  import opened Wrappers

  /** One tutorial page: its number and title. The description, the
      heading, the bullet points and the icon are presentation only. */
  datatype Step = Step(id: int, title: string)

  function Steps(): seq<Step>
  {
    [Step(1, "Welcome to MGM Program"), Step(2, "Share Your Link"), Step(3, "Track & Earn")]
  }

  /** `steps.length`, which `StepsShape` ties to the list. */
  const StepCount: nat := 3

  /** The list holds `StepCount` steps, numbered from 1 in order. */
  lemma StepsShape()
    ensures |Steps()| == StepCount
    ensures forall i :: 0 <= i < StepCount ==> Steps()[i].id == i + 1
  {
  }

  /** `steps.find(step => step.id === id)`: the first step with that id, or
      nothing when no step has it. */
  function FindStep(steps: seq<Step>, id: int): (r: Option<Step>)
    ensures r.Some? <==> exists i :: 0 <= i < |steps| && steps[i].id == id
    ensures r.Some? ==>
      exists j :: 0 <= j < |steps| && steps[j] == r.value && r.value.id == id &&
                  (forall i :: 0 <= i < j ==> steps[i].id != id)
    decreases steps
  {
    if steps == [] then None
    else if steps[0].id == id then Some(steps[0])
    else
      var r := FindStep(steps[1..], id);
      assert forall i :: 1 <= i < |steps| ==> steps[i] == steps[1..][i - 1];
      if r.Some? then
        var j :| 0 <= j < |steps[1..]| && steps[1..][j] == r.value && r.value.id == id &&
                 (forall i :: 0 <= i < j ==> steps[1..][i].id != id);
        assert steps[j + 1] == r.value;
        r
      else r
  }

  /** The lookup finds a step exactly for the numbers 1, 2 and 3. */
  lemma FindStepInRange(n: int)
    ensures FindStep(Steps(), n).Some? <==> 1 <= n <= StepCount
  {
    StepsShape();
  }

  /** The wizard's state: the step on screen and the steps already done. */
  datatype Wizard = Wizard(currentStep: int, completedSteps: set<int>)

  function Initial(): Wizard
  {
    Wizard(1, {})
  }

  /** The steps numbered 1 up to, but not including, `n`. */
  function Below(n: int): (r: set<int>)
    ensures forall k :: k in r <==> 1 <= k < n
    decreases n
  {
    if n <= 1 then {} else Below(n - 1) + {n - 1}
  }

  /** Every reachable state: on a real step, with every earlier step done
      and no later one. */
  predicate Reachable(w: Wizard)
  {
    1 <= w.currentStep <= StepCount &&
    Below(w.currentStep) <= w.completedSteps <= Below(w.currentStep + 1)
  }

  /** Whether a press of the primary button calls `onComplete`: only on the
      last step. */
  predicate NextCompletes(w: Wizard)
  {
    !(w.currentStep < StepCount)
  }

  /** The state after `handleNext`: the current step is marked done, and the
      wizard moves on unless it is on the last step. */
  function Next(w: Wizard): Wizard
  {
    Wizard(if w.currentStep < StepCount then w.currentStep + 1 else w.currentStep,
           w.completedSteps + {w.currentStep})
  }

  /** `handleNext` never leaves the reachable states, never forgets a done
      step, and stays put exactly when it completes. */
  lemma NextPreserves(w: Wizard)
    requires Reachable(w)
    ensures Reachable(Next(w))
    ensures w.completedSteps <= Next(w).completedSteps
    ensures Next(w).currentStep == w.currentStep <==> NextCompletes(w)
  {
  }

  /** The state after `k` presses of the primary button. */
  function Run(k: nat): Wizard
  {
    if k == 0 then Initial() else Next(Run(k - 1))
  }

  /** After `k` presses with `k < 3` the wizard is on step `k + 1` with steps
      1..k done; `onComplete` is reached first by the third press. */
  lemma {:induction false} RunEarly(k: nat)
    requires k < StepCount
    ensures Run(k) == Wizard(k + 1, Below(k + 1))
    ensures NextCompletes(Run(k)) <==> k == StepCount - 1
  {
    if k > 0 {
      RunEarly(k - 1);
      assert Below(k) + {k} == Below(k + 1);
    }
  }

  /** From the third press on, the wizard rests on the last step with every
      step done, and each further press calls `onComplete` again. */
  lemma {:induction false} RunLate(k: nat)
    requires k >= StepCount
    ensures Run(k) == Wizard(StepCount, Below(StepCount + 1))
    ensures NextCompletes(Run(k))
  {
    if k == StepCount {
      RunEarly(k - 1);
      assert Below(3) + {3} == Below(4);
    } else {
      RunLate(k - 1);
    }
  }

  /** Every state reached by pressing the primary button is reachable, so
      the step lookup never comes back empty. */
  lemma {:induction false} RunReachable(k: nat)
    ensures Reachable(Run(k))
    ensures FindStep(Steps(), Run(k).currentStep).Some?
  {
    if k > 0 {
      RunReachable(k - 1);
      NextPreserves(Run(k - 1));
    }
    FindStepInRange(Run(k).currentStep);
  }

  /** `progress`: the share of steps before the current one, as a
      percentage. */
  function Progress(w: Wizard): real
  {
    (w.currentStep - 1) as real / StepCount as real * 100.0
  }

  /** Progress is 0 on the first step and below 100 on every reachable
      state. */
  lemma ProgressRange(w: Wizard)
    requires Reachable(w)
    ensures 0.0 <= Progress(w) < 100.0
    ensures Progress(w) == 0.0 <==> w.currentStep == 1
  {
  }

  /** `Math.round(progress)`: halves go up. */
  function ShownProgress(w: Wizard): int
  {
    (Progress(w) + 0.5).Floor
  }

  /** The percentages shown on the three steps. */
  lemma ShownProgressValues()
    ensures ShownProgress(Wizard(1, {})) == 0
    ensures ShownProgress(Wizard(2, {1})) == 33
    ensures ShownProgress(Wizard(3, {1, 2})) == 67
  {
  }

  /** The label of the primary button. */
  function PrimaryLabel(w: Wizard): string
  {
    if w.currentStep == StepCount then "Get Started" else "Continue"
  }

  /** "Get Started" shows exactly on the last step, which is exactly when
      the button completes the wizard. */
  lemma PrimaryLabelOnLastStep(w: Wizard)
    requires Reachable(w)
    ensures PrimaryLabel(w) == "Get Started" <==> w.currentStep == StepCount
    ensures PrimaryLabel(w) == "Get Started" <==> NextCompletes(w)
  {
    assert "Get Started" != "Continue";
  }

  datatype Indicator = CurrentDot | DoneDot | TodoDot

  /** The dot under the card for step `id`: the current step wins over a
      done one. */
  function IndicatorOf(w: Wizard, id: int): Indicator
  {
    if id == w.currentStep then CurrentDot
    else if id in w.completedSteps then DoneDot
    else TodoDot
  }

  /** On a reachable state the dots read: done before the current step,
      to do after it. */
  lemma IndicatorsInOrder(w: Wizard, id: int)
    requires Reachable(w) && 1 <= id <= StepCount
    ensures id < w.currentStep ==> IndicatorOf(w, id) == DoneDot
    ensures id > w.currentStep ==> IndicatorOf(w, id) == TodoDot
  {
    assert id < w.currentStep ==> id in Below(w.currentStep);
    assert id > w.currentStep ==> id !in Below(w.currentStep + 1);
  }

  /** The wizard component's state. */
  class Onboarding {
    var currentStep: int
    var completedSteps: set<int>

    function State(): Wizard
      reads this
    {
      Wizard(currentStep, completedSteps)
    }

    constructor ()
      ensures State() == Initial()
    {
      currentStep := 1;
      completedSteps := {};
    }

    /** `handleNext`: mark the current step done, then advance unless on the
        last step, in which case `complete` reports the call of
        `onComplete`. */
    method HandleNext() returns (complete: bool)
      modifies this
      ensures State() == Next(old(State()))
      ensures complete == NextCompletes(old(State()))
    {
      StepsShape();
      completedSteps := completedSteps + {currentStep};
      if currentStep < |Steps()| {
        currentStep := currentStep + 1;
        complete := false;
      } else {
        complete := true;
      }
    }

    /** `handleSkip`: calls `onComplete` and changes no state. */
    method HandleSkip() returns (complete: bool)
      ensures complete
    {
      complete := true;
    }
  }
}
