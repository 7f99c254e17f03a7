/**
 * The four-step form wizard: the fixed list of steps and the clamped moves of
 * the Previous and Next buttons.
 */
module Wizard {

  /** The titles of the steps, in order; the wizard has exactly as many steps. */
  const StepTitles: seq<string> := ["Personal Info", "Experience", "Education", "Skills & Awards"]

  const LastStep: int := |StepTitles| - 1

  /** An index of the steps list. */
  predicate IsStep(s: int) {
    0 <= s < |StepTitles|
  }

  /** `Math.max(0, s - 1)`: one step back, staying put on the first step. On a
      valid step the result is valid, and it equals the current step exactly
      on the first step, where the button is disabled. */
  function Previous(s: int): (r: int)
    ensures r >= 0
    ensures IsStep(s) ==> IsStep(r)
    ensures IsStep(s) ==> (r == s <==> s == 0)
    ensures s > 0 ==> r == s - 1
  {
    if s - 1 < 0 then 0 else s - 1
  }

  /** `Math.min(steps.length - 1, s + 1)`: one step forward, staying put on the
      last step. On a valid step the result is valid, and it equals the current
      step exactly on the last step, where the button is disabled. */
  function Next(s: int): (r: int)
    ensures r <= LastStep
    ensures IsStep(s) ==> IsStep(r)
    ensures IsStep(s) ==> (r == s <==> s == LastStep)
    ensures s < LastStep ==> r == s + 1
  {
    if LastStep < s + 1 then LastStep else s + 1
  }

  /** Next undoes Previous everywhere but on the first step, and Previous
      undoes Next everywhere but on the last. */
  lemma PreviousNextRoundTrip(s: int)
    requires IsStep(s)
    ensures s != 0 ==> Next(Previous(s)) == s
    ensures s != LastStep ==> Previous(Next(s)) == s
  {
  }
}
