/** The request and response shapes exchanged with the prediction backend.
    Required fields are plain; optional (`?`) fields are `Option`s; the string
    literal unions become enumerations with their wire spellings. */
module ApiTypes {
  import opened Wrappers

  // ---------------------------------------------------------------------------
  // Enumerations and their wire spellings
  // ---------------------------------------------------------------------------

  /** `'male' | 'female' | 'other'`, shared by prediction and training requests. */
  datatype Sex = Male | Female | Other

  function SexName(s: Sex): string {
    match s
    case Male => "male"
    case Female => "female"
    case Other => "other"
  }

  /** Reads a wire value; exactly the three spellings are accepted. */
  function ParseSex(w: string): (r: Option<Sex>)
    ensures r.Some? ==> SexName(r.value) == w
    ensures r.None? ==> forall s: Sex :: SexName(s) != w
  {
    if w == "male" then Some(Male)
    else if w == "female" then Some(Female)
    else if w == "other" then Some(Other)
    else None
  }

  /** `'routine' | 'urgent' | 'stat'`. */
  datatype Urgency = Routine | Urgent | Stat

  function UrgencyName(u: Urgency): string {
    match u
    case Routine => "routine"
    case Urgent => "urgent"
    case Stat => "stat"
  }

  function ParseUrgency(w: string): (r: Option<Urgency>)
    ensures r.Some? ==> UrgencyName(r.value) == w
    ensures r.None? ==> forall u: Urgency :: UrgencyName(u) != w
  {
    if w == "routine" then Some(Routine)
    else if w == "urgent" then Some(Urgent)
    else if w == "stat" then Some(Stat)
    else None
  }

  /** The five recorded patient outcomes. */
  datatype PatientOutcome = ExcellentRecovery | Improved | NoChange | Worsened | Complications

  function OutcomeName(o: PatientOutcome): string {
    match o
    case ExcellentRecovery => "excellent_recovery"
    case Improved => "improved"
    case NoChange => "no_change"
    case Worsened => "worsened"
    case Complications => "complications"
  }

  function ParseOutcome(w: string): (r: Option<PatientOutcome>)
    ensures r.Some? ==> OutcomeName(r.value) == w
    ensures r.None? ==> forall o: PatientOutcome :: OutcomeName(o) != w
  {
    if w == "excellent_recovery" then Some(ExcellentRecovery)
    else if w == "improved" then Some(Improved)
    else if w == "no_change" then Some(NoChange)
    else if w == "worsened" then Some(Worsened)
    else if w == "complications" then Some(Complications)
    else None
  }

  /** Every enumeration value survives being written and read back, so the
      wire spellings are pairwise distinct. */
  lemma EnumRoundTrips(s: Sex, u: Urgency, o: PatientOutcome)
    ensures ParseSex(SexName(s)) == Some(s)
    ensures ParseUrgency(UrgencyName(u)) == Some(u)
    ensures ParseOutcome(OutcomeName(o)) == Some(o)
  {
  }

  // ---------------------------------------------------------------------------
  // Health
  // ---------------------------------------------------------------------------

  /** A health probe's answer: only `status` is required. The database state
      appears under two independent names, `database` and `database_status`. */
  datatype HealthResponse = HealthResponse(
    status: string,
    service: Option<string>,
    version: Option<string>,
    timestamp: Option<string>,
    database: Option<string>,
    mlModel: Option<string>,
    uptimeSeconds: Option<int>,
    databaseStatus: Option<string>,
    databaseType: Option<string>,
    tablesCount: Option<int>,
    lastQueryTimeMs: Option<real>,
    testQuery: Option<string>)

  // ---------------------------------------------------------------------------
  // Prediction
  // ---------------------------------------------------------------------------

  /** Age, sex and the symptom list are required; vitals, history lists and
      free text are optional. */
  datatype PredictionRequest = PredictionRequest(
    age: int,
    sex: Sex,
    temperatureC: Option<real>,
    heartRate: Option<int>,
    systolic: Option<int>,
    diastolic: Option<int>,
    symptomList: seq<string>,
    pmhList: Option<seq<string>>,
    currentMedications: Option<seq<string>>,
    allergies: Option<seq<string>>,
    chiefComplaint: Option<string>,
    freeTextNotes: Option<string>)

  datatype RecommendedTest = RecommendedTest(
    test: string,
    confidence: real,
    urgency: Urgency,
    rationale: Option<string>)

  datatype RecommendedMedication = RecommendedMedication(
    medication: string,
    confidence: real,
    doseSuggestion: Option<string>,
    duration: Option<string>,
    contraindicationCheck: bool)

  datatype DiseasePrediction = DiseasePrediction(
    icd10Code: string,
    diagnosis: string,
    confidence: real,
    recommendedTests: seq<RecommendedTest>,
    recommendedMedications: seq<RecommendedMedication>,
    assessmentPlan: string,
    rationale: seq<string>,
    riskFactors: seq<string>,
    differentialDiagnoses: seq<string>)

  datatype PredictionResponse = PredictionResponse(
    predictions: seq<DiseasePrediction>,
    modelVersion: string,
    processingTimeMs: real,
    confidenceThreshold: real,
    generatedAt: string,
    clinicalWarnings: seq<string>,
    disclaimer: string)

  // ---------------------------------------------------------------------------
  // Feedback and outcomes
  // ---------------------------------------------------------------------------

  datatype ClinicalFeedbackRequest = ClinicalFeedbackRequest(
    predictionId: int,
    doctorId: string,
    doctorName: Option<string>,
    hospitalUnit: Option<string>,
    predictionAccurate: bool,
    confidenceInFeedback: real,
    actualDiseaseId: Option<int>,
    actualConditionName: Option<string>,
    orderedTests: Option<seq<string>>,
    prescribedMedications: Option<seq<string>>,
    clinicalNotes: Option<string>,
    outcomeNotes: Option<string>)

  datatype ClinicalFeedbackResponse = ClinicalFeedbackResponse(
    message: string,
    feedbackId: int,
    trainingDataAdded: bool,
    trainingRecordId: Option<int>,
    totalFeedbackForPrediction: int,
    predictionAccuracyRate: real)

  /** Six required fields besides the prediction id and outcome; side effects,
      complications and the two day counts are optional. */
  datatype ClinicalOutcomeRequest = ClinicalOutcomeRequest(
    predictionId: int,
    patientOutcome: PatientOutcome,
    finalDiagnosisId: int,
    finalConditionName: string,
    treatmentEffective: bool,
    sideEffects: Option<seq<string>>,
    diagnosisConfirmationDays: Option<int>,
    treatmentDurationDays: Option<int>,
    readmissionRequired: bool,
    complications: Option<seq<string>>,
    reportedBy: string,
    outcomeDate: string)

  datatype TrainingDataRequest = TrainingDataRequest(
    age: int,
    sex: Sex,
    temperatureC: Option<real>,
    heartRate: Option<int>,
    symptomList: seq<string>,
    targetDisease: int,
    targetTests: seq<int>,
    targetMedications: seq<int>,
    conditionName: string,
    chiefComplaint: Option<string>,
    qualityScore: real,
    createdBy: string)

  // ---------------------------------------------------------------------------
  // Errors
  // ---------------------------------------------------------------------------

  /** One element of a validation error's `loc` path: a field name or a list index. */
  datatype LocPart = LocName(name: string) | LocIndex(index: int)

  /** One `{loc, msg, type}` entry of a 422 response. */
  datatype ValidationItem = ValidationItem(loc: seq<LocPart>, msg: string, kind: string)

  /** `ApiError.detail`: a string or a list of validation items; `DetailOther`
      stands for any other value a server may send (absent, null, an object). */
  datatype Detail = DetailText(text: string) | DetailList(items: seq<ValidationItem>) | DetailOther
}
