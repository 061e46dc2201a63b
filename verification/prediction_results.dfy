/** The decisions the results screen makes about a prediction: its confidence
    tier and colour, the urgency and safety-check chips, and which sections
    are rendered. */
module Results {
  import opened ApiTypes

  /** The MUI palette names the screen uses. */
  datatype Color = Success | Warning | Error | Primary | Default

  datatype Tier = Low | Medium | High

  const HighThreshold: real := 0.8
  const MediumThreshold: real := 0.6

  /** `getConfidenceColor`. */
  function ConfidenceColor(c: real): (r: Color)
    ensures r == Success <==> c >= HighThreshold
    ensures r == Warning <==> MediumThreshold <= c < HighThreshold
    ensures r == Error <==> c < MediumThreshold
  {
    if c >= HighThreshold then Success
    else if c >= MediumThreshold then Warning
    else Error
  }

  /** `getConfidenceLabel`. */
  function ConfidenceLabel(c: real): (r: Tier)
    ensures r == High <==> c >= HighThreshold
    ensures r == Medium <==> MediumThreshold <= c < HighThreshold
    ensures r == Low <==> c < MediumThreshold
  {
    if c >= HighThreshold then High
    else if c >= MediumThreshold then Medium
    else Low
  }

  /** The text `getConfidenceLabel` returns for a tier. */
  function TierName(t: Tier): string {
    match t
    case High => "High"
    case Medium => "Medium"
    case Low => "Low"
  }

  function TierColor(t: Tier): Color {
    match t
    case High => Success
    case Medium => Warning
    case Low => Error
  }

  function TierRank(t: Tier): nat {
    match t
    case Low => 0
    case Medium => 1
    case High => 2
  }

  /** The label text for a confidence: "High" from 0.8, "Medium" from 0.6,
      "Low" below, and no other text. */
  lemma ConfidenceLabelText(c: real)
    ensures TierName(ConfidenceLabel(c)) == "High" <==> c >= HighThreshold
    ensures TierName(ConfidenceLabel(c)) == "Medium" <==> MediumThreshold <= c < HighThreshold
    ensures TierName(ConfidenceLabel(c)) == "Low" <==> c < MediumThreshold
  {
  }

  /** The label chip and the colour always agree, and both are monotone in the
      confidence. */
  lemma TiersAgreeAndAreMonotone(c1: real, c2: real)
    ensures TierColor(ConfidenceLabel(c1)) == ConfidenceColor(c1)
    ensures c1 <= c2 ==> TierRank(ConfidenceLabel(c1)) <= TierRank(ConfidenceLabel(c2))
  {
  }

  /** The urgency chip's colour, from the wire value: `'urgent'` is red,
      `'routine'` primary, anything else (that is, `'stat'`) default. */
  function UrgencyChipColor(urgency: string): (r: Color)
    ensures r == Error <==> urgency == "urgent"
    ensures r == Primary <==> urgency == "routine"
    ensures r == Default <==> urgency != "urgent" && urgency != "routine"
  {
    if urgency == "urgent" then Error
    else if urgency == "routine" then Primary
    else Default
  }

  /** On the three urgencies the chip colour is one-to-one. */
  lemma UrgencyColorsDistinct(u1: Urgency, u2: Urgency)
    ensures UrgencyChipColor(UrgencyName(u1)) == UrgencyChipColor(UrgencyName(u2)) <==> u1 == u2
    ensures UrgencyChipColor(UrgencyName(Stat)) == Default
  {
  }

  /** The medication safety chip. */
  function ContraindicationChip(checked: bool): (r: (string, Color))
    ensures r.0 == "Checked" <==> checked
    ensures r.1 == Success <==> checked
    ensures r.1 in {Success, Warning}
    ensures checked ==> r == ("Checked", Success)
    ensures !checked ==> r == ("Not Checked", Warning)
  {
    if checked then ("Checked", Success) else ("Not Checked", Warning)
  }

  /** The chip's text alone, and its colour alone, each tell whether the
      contraindications were checked. */
  lemma ContraindicationChipReadsBack(a: bool, b: bool)
    ensures ContraindicationChip(a).0 == ContraindicationChip(b).0 <==> a == b
    ensures ContraindicationChip(a).1 == ContraindicationChip(b).1 <==> a == b
  {
  }

  /** Which parts of a prediction card are rendered, and whether the tests
      accordion starts expanded. */
  datatype CardSections = CardSections(
    tests: bool,
    testsExpanded: bool,
    medications: bool,
    rationale: bool,
    riskFactors: bool,
    differentials: bool)

  /** The card for the prediction at position `index`. */
  function Sections(p: DiseasePrediction, index: nat): (r: CardSections)
    ensures r.tests <==> |p.recommendedTests| > 0
    ensures r.testsExpanded <==> r.tests && index == 0
    ensures r.medications <==> |p.recommendedMedications| > 0
    ensures r.rationale <==> |p.rationale| > 0
    ensures r.riskFactors <==> |p.riskFactors| > 0
    ensures r.differentials <==> |p.differentialDiagnoses| > 0
  {
    var tests := |p.recommendedTests| > 0;
    CardSections(tests, tests && index == 0, |p.recommendedMedications| > 0,
      |p.rationale| > 0, |p.riskFactors| > 0, |p.differentialDiagnoses| > 0)
  }

  /** The response-level warnings box is rendered only when there are warnings. */
  function WarningsShown(r: PredictionResponse): (shown: bool)
    ensures shown <==> r.clinicalWarnings != []
  {
    |r.clinicalWarnings| > 0
  }

  /** Number of cards, from position `from` on, whose tests start expanded. */
  function ExpandedFrom(ps: seq<DiseasePrediction>, from: nat): nat
    requires from <= |ps|
    decreases |ps| - from
  {
    if from == |ps| then 0
    else (if Sections(ps[from], from).testsExpanded then 1 else 0) + ExpandedFrom(ps, from + 1)
  }

  /** At most one card of a response starts with its tests expanded: the
      first, when it has tests. */
  lemma {:induction false} AtMostOneExpanded(ps: seq<DiseasePrediction>)
    ensures ExpandedFrom(ps, 0) == (if |ps| > 0 && |ps[0].recommendedTests| > 0 then 1 else 0)
  {
    if |ps| > 0 {
      NoneExpandedAfterFirst(ps, 1);
    }
  }

  lemma {:induction false} NoneExpandedAfterFirst(ps: seq<DiseasePrediction>, from: nat)
    requires 1 <= from <= |ps|
    ensures ExpandedFrom(ps, from) == 0
    decreases |ps| - from
  {
    if from < |ps| {
      NoneExpandedAfterFirst(ps, from + 1);
    }
  }
}
