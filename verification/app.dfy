/** The wizard that sequences the four screens, holding the last prediction
    and the client-made prediction id. Handlers are pure transitions; the
    random draw is an input. */
module Wizard {
  import opened Wrappers
  import opened ApiTypes

  datatype Step = HealthStep | PredictionStep | ResultsStep | FeedbackStep

  /** The stepper's order of screens. */
  const Steps: seq<Step> := [HealthStep, PredictionStep, ResultsStep, FeedbackStep]

  datatype WizardState = WizardState(step: Step, result: Option<PredictionResponse>, predictionId: Option<int>)

  /** Session start: the health screen, with neither a result nor an id. */
  const Initial: WizardState := WizardState(HealthStep, None, None)

  /** `steps.findIndex(...)` from position `from`: the first index holding
      `step`, or -1. */
  function FindIndexFrom(steps: seq<Step>, step: Step, from: nat): (r: int)
    requires from <= |steps|
    ensures r == -1 || from <= r < |steps|
    ensures r != -1 ==> steps[r] == step
    ensures forall i :: from <= i < |steps| && (r == -1 || i < r) ==> steps[i] != step
    decreases |steps| - from
  {
    if from == |steps| then -1
    else if steps[from] == step then from
    else FindIndexFrom(steps, step, from + 1)
  }

  /** `getActiveStep`: the position of the current step in the stepper. */
  function ActiveStep(s: WizardState): (r: int)
    ensures 0 <= r <= 3
    ensures Steps[r] == s.step
  {
    FindIndexFrom(Steps, s.step, 0)
  }

  /** Distinct steps sit at distinct positions. */
  lemma ActiveStepInjective(s: WizardState, t: WizardState)
    ensures ActiveStep(s) == ActiveStep(t) <==> s.step == t.step
  {
  }

  /** `handleHealthOk`. */
  function HealthOk(s: WizardState): (r: WizardState)
    ensures r.step == PredictionStep
    ensures r.result == s.result && r.predictionId == s.predictionId
  {
    s.(step := PredictionStep)
  }

  /** `Math.floor(roll * 10000)` for a draw `roll` in [0, 1). */
  function RandomId(roll: real): (id: int)
    requires 0.0 <= roll < 1.0
    ensures 0 <= id < 10000
    ensures id as real <= roll * 10000.0 < id as real + 1.0
  {
    (roll * 10000.0).Floor
  }

  /** `handlePredictionResult`: store exactly the response, draw an id, show
      the results. */
  function PredictionResult(s: WizardState, response: PredictionResponse, roll: real): (r: WizardState)
    requires 0.0 <= roll < 1.0
    ensures r.step == ResultsStep
    ensures r.result == Some(response)
    ensures r.predictionId.Some? && 0 <= r.predictionId.value < 10000
    ensures r.predictionId == Some(RandomId(roll))
  {
    WizardState(ResultsStep, Some(response), Some(RandomId(roll)))
  }

  /** `handleBack`: one screen back, staying on the health screen; the result
      and the id are kept. */
  function Back(s: WizardState): (r: WizardState)
    ensures r.result == s.result && r.predictionId == s.predictionId
    ensures s.step == HealthStep ==> r.step == HealthStep
    ensures s.step != HealthStep ==> ActiveStep(r) == ActiveStep(s) - 1
  {
    match s.step
    case PredictionStep => s.(step := HealthStep)
    case ResultsStep => s.(step := PredictionStep)
    case FeedbackStep => s.(step := ResultsStep)
    case HealthStep => s.(step := HealthStep)
  }

  /** `handleHome`: back to the session's start from anywhere. */
  function Home(s: WizardState): (r: WizardState)
    ensures r == Initial
  {
    WizardState(HealthStep, None, None)
  }

  /** `handleProceedToFeedback`: unconditional; the guard is in rendering. */
  function ProceedToFeedback(s: WizardState): (r: WizardState)
    ensures r.step == FeedbackStep
    ensures r.result == s.result && r.predictionId == s.predictionId
  {
    s.(step := FeedbackStep)
  }

  /** Home forgets the step it came from and is idempotent. */
  lemma HomeResets(s: WizardState, t: WizardState)
    ensures Home(s) == Home(t)
    ensures Home(Home(s)) == Home(s)
    ensures Home(s).result.None? && Home(s).predictionId.None?
  {
  }

  /** What the content area shows. */
  datatype View =
    | HealthView
    | FormView
    | ResultsView(result: PredictionResponse)
    | FeedbackView(predictionId: int)
    | ErrorAlert(message: string)

  const NoResults: string := "No prediction results available"
  const NoFeedbackData: string := "No prediction data available for feedback"

  /** An id is truthy unless absent or zero. */
  predicate Truthy(id: Option<int>) {
    id.Some? && id.value != 0
  }

  /** `renderCurrentStep`. */
  function Render(s: WizardState): (v: View)
    ensures s.step == HealthStep ==> v == HealthView
    ensures s.step == PredictionStep ==> v == FormView
    ensures s.step == ResultsStep ==>
      (if s.result.Some? then v == ResultsView(s.result.value) else v == ErrorAlert(NoResults))
    ensures s.step == FeedbackStep ==>
      (if s.result.Some? && Truthy(s.predictionId) then v == FeedbackView(s.predictionId.value)
       else v == ErrorAlert(NoFeedbackData))
  {
    match s.step
    case HealthStep => HealthView
    case PredictionStep => FormView
    case ResultsStep => if s.result.Some? then ResultsView(s.result.value) else ErrorAlert(NoResults)
    case FeedbackStep =>
      if s.result.Some? && s.predictionId.Some? && s.predictionId.value != 0 then
        FeedbackView(s.predictionId.value)
      else ErrorAlert(NoFeedbackData)
  }

  /** The Back and Start Over buttons are shown off the health screen only. */
  predicate NavigationShown(s: WizardState) {
    s.step != HealthStep
  }

  /** The navigation buttons appear exactly past the stepper's first position. */
  lemma NavigationPastFirstStep(s: WizardState)
    ensures NavigationShown(s) <==> ActiveStep(s) > 0
  {
  }

  /** The user's actions, each available only where its control is rendered.
      A prediction response is the exception: its handler belongs to the
      wizard, so a response that arrives after the user navigated away is
      still taken. */
  datatype Event =
    | HealthPassed
    | PredictionReturned(response: PredictionResponse, roll: real)
    | ProceedPressed
    | BackPressed
    | HomePressed
    | FeedbackSubmitted

  predicate Enabled(s: WizardState, e: Event) {
    match e
    case HealthPassed => Render(s) == HealthView
    case PredictionReturned(_, roll) => 0.0 <= roll < 1.0
    case ProceedPressed => Render(s).ResultsView?
    case BackPressed => NavigationShown(s)
    case HomePressed => NavigationShown(s)
    case FeedbackSubmitted => Render(s).FeedbackView?
  }

  function Next(s: WizardState, e: Event): (r: WizardState)
    requires Enabled(s, e)
  {
    match e
    case HealthPassed => HealthOk(s)
    case PredictionReturned(response, roll) => PredictionResult(s, response, roll)
    case ProceedPressed => ProceedToFeedback(s)
    case BackPressed => Back(s)
    case HomePressed => Home(s)
    case FeedbackSubmitted => s
  }

  /** What every reachable state satisfies: the results and feedback screens
      are only shown with a stored result and an id. */
  predicate Valid(s: WizardState) {
    s.step in {ResultsStep, FeedbackStep} ==> s.result.Some? && s.predictionId.Some?
  }

  /** The initial state is valid and every enabled action keeps it valid. */
  lemma ValidInvariant(s: WizardState, e: Event)
    ensures Valid(Initial)
    ensures Valid(s) && Enabled(s, e) ==> Valid(Next(s, e))
  {
  }

  /** In a valid state the results screen always renders, and the feedback
      screen shows the error alert exactly when the drawn id is 0. */
  lemma ValidRendering(s: WizardState)
    requires Valid(s)
    ensures s.step == ResultsStep ==> Render(s).ResultsView?
    ensures s.step == FeedbackStep ==> (Render(s).ErrorAlert? <==> s.predictionId.value == 0)
  {
  }

  /** A draw below 1/10000 yields id 0, after which the feedback screen is
      unreachable for that prediction. */
  lemma ZeroIdBlocksFeedback(s: WizardState, response: PredictionResponse, roll: real)
    requires 0.0 <= roll < 0.0001
    ensures var r := ProceedToFeedback(PredictionResult(s, response, roll));
      Render(r) == ErrorAlert(NoFeedbackData)
  {
  }

  /** Submitting feedback or an outcome leaves the wizard as it was. */
  lemma FeedbackLeavesWizard(s: WizardState)
    requires Enabled(s, FeedbackSubmitted)
    ensures Next(s, FeedbackSubmitted) == s
  {
  }
}
