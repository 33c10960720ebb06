/**
 * The progress indicator: a row of steps, each complete, active or pending
 * according to where the current step id sits in the row, joined by
 * connectors that turn green once the step they lead to has started.
 */
module ProcessingSteps {
  import opened Values

  datatype Step = Step(id: string, name: string, description: string)

  datatype StepStatus = Pending | Active | Complete

  /** The row shown when the caller passes none. */
  const DefaultSteps: seq<Step> := [
    Step("extracting", "Extracting", "Reading document data"),
    Step("validating", "Validating", "Checking data quality"),
    Step("scoring", "Scoring", "Calculating confidence"),
    Step("formatting", "Formatting", "Preparing output")
  ]

  /** `steps || defaultSteps`: any array the caller passes, even an empty one, is used. */
  function StepsToShow(steps: Option<seq<Step>>): seq<Step>
  {
    if steps.Some? then steps.value else DefaultSteps
  }

  /** `steps.findIndex(s => s.id === id)`: the first position holding `id`, or -1. */
  function FindIndex(steps: seq<Step>, id: Option<string>): (r: int)
    ensures -1 <= r < |steps|
    ensures r >= 0 ==> Some(steps[r].id) == id && forall j :: 0 <= j < r ==> Some(steps[j].id) != id
    ensures r == -1 <==> forall j :: 0 <= j < |steps| ==> Some(steps[j].id) != id
  {
    if steps == [] then -1
    else if Some(steps[0].id) == id then 0
    else
      var k := FindIndex(steps[1..], id);
      assert forall j :: 1 <= j < |steps| ==> steps[j] == steps[1..][j - 1];
      if k == -1 then -1 else k + 1
  }

  function GetStepStatus(steps: seq<Step>, currentStep: Option<string>, stepId: string): StepStatus
  {
    var stepIndex := FindIndex(steps, Some(stepId));
    var currentIndex := FindIndex(steps, currentStep);
    if currentIndex == -1 then Pending
    else if stepIndex < currentIndex then Complete
    else if stepIndex == currentIndex then Active
    else Pending
  }

  /** The connector after position `index` is green iff the next step is not pending. */
  function ConnectorGreen(steps: seq<Step>, currentStep: Option<string>, index: nat): bool
    requires index + 1 < |steps|
  {
    GetStepStatus(steps, currentStep, steps[index + 1].id) != Pending
  }

  predicate UniqueIds(steps: seq<Step>)
  {
    forall i, j :: 0 <= i < j < |steps| ==> steps[i].id != steps[j].id
  }

  /** An id that names no step leaves every step pending. */
  lemma UnknownCurrentStepAllPending(steps: seq<Step>, currentStep: Option<string>, stepId: string)
    requires forall j :: 0 <= j < |steps| ==> Some(steps[j].id) != currentStep
    ensures GetStepStatus(steps, currentStep, stepId) == Pending
  {
  }

  /**
   * The progress events that mark the end of a stage ('extracted', ...,
   * 'complete', 'failed') name no default step, so while one of them is the
   * current step the default row shows all four steps pending.
   */
  lemma {:induction false} StageEndEventsShowAllPending(event: string, i: nat)
    requires event in ["extracted", "validated", "scored", "formatted", "complete", "failed"]
    requires i < |DefaultSteps|
    ensures GetStepStatus(DefaultSteps, Some(event), DefaultSteps[i].id) == Pending
  {
    assert forall j :: 0 <= j < |DefaultSteps| ==> Some(DefaultSteps[j].id) != Some(event);
  }

  /** With unique ids, the step at position `i` is complete before the current step, active at it, pending after. */
  lemma StatusByPosition(steps: seq<Step>, c: nat, i: nat)
    requires UniqueIds(steps)
    requires c < |steps| && i < |steps|
    ensures GetStepStatus(steps, Some(steps[c].id), steps[i].id)
      == if i < c then Complete else if i == c then Active else Pending
  {
    assert FindIndex(steps, Some(steps[i].id)) == i;
    assert FindIndex(steps, Some(steps[c].id)) == c;
  }

  /** With unique ids and a current step in the row, exactly one step is active. */
  lemma ExactlyOneActive(steps: seq<Step>, c: nat)
    requires UniqueIds(steps)
    requires c < |steps|
    ensures GetStepStatus(steps, Some(steps[c].id), steps[c].id) == Active
    ensures forall i :: 0 <= i < |steps| && GetStepStatus(steps, Some(steps[c].id), steps[i].id) == Active ==> i == c
  {
    forall i | 0 <= i < |steps|
      ensures GetStepStatus(steps, Some(steps[c].id), steps[i].id) == Active ==> i == c
    {
      StatusByPosition(steps, c, i);
    }
    StatusByPosition(steps, c, c);
  }

  /** With unique ids, the connector after position `i` is green iff the current step lies beyond `i`. */
  lemma ConnectorGreenWhenPassed(steps: seq<Step>, c: nat, i: nat)
    requires UniqueIds(steps)
    requires c < |steps| && i + 1 < |steps|
    ensures ConnectorGreen(steps, Some(steps[c].id), i) <==> i < c
  {
    StatusByPosition(steps, c, i + 1);
  }
}
