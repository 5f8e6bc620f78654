/** The first-run tutorial: eight fixed steps walked through with "Avanti"
    (next) and "Salta" (skip), a row of progress dots and a step counter.
    Calls of the `onComplete` callback are counted. */
module Tutorial {

  datatype Position = Top | Bottom | Left | Right | Center

  /** A step's anchor and where its tooltip sits; titles and descriptions are
      display text and are not modelled. */
  datatype Step = Step(target: string, position: Position)

  const Steps: seq<Step> := [
    Step("center", Center),
    Step("textarea", Bottom),
    Step("mic-button", Left),
    Step("save-button", Left),
    Step("library-button", Right),
    Step("read-button", Top),
    Step("settings-button", Left),
    Step("center", Center)
  ]

  /** The tooltip of step `i` shows its arrow unless the step is centred,
      which leaves out exactly the welcome and the closing step. */
  predicate ShowsArrow(i: nat)
    requires i < |Steps|
    ensures ShowsArrow(i) <==> 0 < i < |Steps| - 1
  {
    Steps[i].position != Center
  }

  datatype Dot = Active | Done | Pending

  /** The class of the dot at `index` when `current` is shown. */
  function DotAt(index: nat, current: nat): Dot
  {
    if index == current then Active else if index < current then Done else Pending
  }

  /** The first `n` dots. */
  function DotsUpTo(n: nat, current: nat): (ds: seq<Dot>)
    ensures |ds| == n
    ensures forall i :: 0 <= i < n ==> ds[i] == DotAt(i, current)
  {
    if n == 0 then [] else DotsUpTo(n - 1, current) + [DotAt(n - 1, current)]
  }

  /** One dot per step. */
  function ProgressDots(current: nat): seq<Dot>
  {
    DotsUpTo(|Steps|, current)
  }

  /** How many of the dots are of kind `d`. */
  function Count(ds: seq<Dot>, d: Dot): nat
  {
    multiset(ds)[d]
  }

  /** Extending the dots by one adds one to the count of that dot's kind. */
  lemma CountStep(n: nat, current: nat, d: Dot)
    requires n > 0
    ensures Count(DotsUpTo(n, current), d)
      == Count(DotsUpTo(n - 1, current), d) + (if DotAt(n - 1, current) == d then 1 else 0)
  {
    var last := DotAt(n - 1, current);
    assert DotsUpTo(n, current) == DotsUpTo(n - 1, current) + [last];
    assert multiset(DotsUpTo(n, current)) == multiset(DotsUpTo(n - 1, current)) + multiset{last};
  }

  /** The number of indices below `n` whose dot is of kind `d`, counted
      without building the dots. */
  function Tally(n: nat, current: nat, d: Dot): nat
  {
    if n == 0 then 0 else Tally(n - 1, current, d) + (if DotAt(n - 1, current) == d then 1 else 0)
  }

  lemma {:induction false} CountIsTally(n: nat, current: nat, d: Dot)
    ensures Count(DotsUpTo(n, current), d) == Tally(n, current, d)
  {
    if n > 0 {
      CountIsTally(n - 1, current, d);
      CountStep(n, current, d);
    }
  }

  lemma {:induction false} ActiveTally(n: nat, current: nat)
    ensures Tally(n, current, Active) == if current < n then 1 else 0
  {
    if n > 0 {
      ActiveTally(n - 1, current);
    }
  }

  lemma {:induction false} DoneTally(n: nat, current: nat)
    ensures Tally(n, current, Done) == if current < n then current else n
  {
    if n > 0 {
      DoneTally(n - 1, current);
    }
  }

  lemma {:induction false} PendingTally(n: nat, current: nat)
    ensures Tally(n, current, Pending) == if current < n then n - current - 1 else 0
  {
    if n > 0 {
      PendingTally(n - 1, current);
    }
  }

  /** Among the first `n` dots: one active if the current step is among
      them, the ones before it done, the ones after it pending. */
  lemma DotCounts(n: nat, current: nat)
    ensures Count(DotsUpTo(n, current), Active) == (if current < n then 1 else 0)
    ensures Count(DotsUpTo(n, current), Done) == (if current < n then current else n)
    ensures Count(DotsUpTo(n, current), Pending) == (if current < n then n - current - 1 else 0)
  {
    CountIsTally(n, current, Active);
    CountIsTally(n, current, Done);
    CountIsTally(n, current, Pending);
    ActiveTally(n, current);
    DoneTally(n, current);
    PendingTally(n, current);
  }

  /** With a valid current step exactly one dot is active, the dots before it
      are done and the dots after it are pending. */
  lemma ExactlyOneActiveDot(current: nat)
    requires current < |Steps|
    ensures Count(ProgressDots(current), Active) == 1
    ensures Count(ProgressDots(current), Done) == current
    ensures Count(ProgressDots(current), Pending) == |Steps| - 1 - current
    ensures ProgressDots(current)[current] == Active
  {
    DotCounts(|Steps|, current);
  }

  /** The label of the forward button. */
  function NextLabel(current: nat): (caption: string)
    ensures caption == "Inizia!" <==> current >= |Steps| - 1
    ensures caption == "Avanti" <==> current < |Steps| - 1
  {
    if current < |Steps| - 1 then "Avanti" else "Inizia!"
  }

  /** The "n di m" counter under the buttons, as the pair (n, m). */
  function StepCounter(current: nat): (r: (nat, nat))
    requires current < |Steps|
    ensures 1 <= r.0 <= r.1 == 8
    ensures r.0 == current + 1
    ensures r.0 == r.1 <==> NextLabel(current) == "Inizia!"
  {
    (current + 1, |Steps|)
  }

  class TutorialState {
    var currentStep: nat
    var completions: nat

    ghost predicate Valid()
      reads this
    {
      currentStep < |Steps|
    }

    constructor ()
      ensures Valid() && currentStep == 0 && completions == 0
    {
      currentStep := 0;
      completions := 0;
    }

    function CurrentStep(): (s: Step)
      reads this
      requires Valid()
      ensures s in Steps
    {
      Steps[currentStep]
    }

    /** A step before the last advances by one; the last step completes and
        stays where it is. */
    method HandleNext()
      requires Valid()
      modifies this
      ensures Valid()
      ensures old(currentStep) < |Steps| - 1 ==>
        currentStep == old(currentStep) + 1 && completions == old(completions)
      ensures old(currentStep) == |Steps| - 1 ==>
        currentStep == old(currentStep) && completions == old(completions) + 1
    {
      if currentStep < |Steps| - 1 {
        currentStep := currentStep + 1;
      } else {
        completions := completions + 1;
      }
    }

    /** Skipping completes from any step and does not move. */
    method HandleSkip()
      requires Valid()
      modifies this`completions
      ensures Valid()
      ensures completions == old(completions) + 1
    {
      completions := completions + 1;
    }
  }
}
