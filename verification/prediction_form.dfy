/** The symptom-entry form: its state, the ordered validator that guards
    submission, and the edits the form's controls make. */
module PredictionForm {
  import opened Wrappers
  import opened ApiTypes
  import opened ApiClient

  const AgeError: string := "Please enter a valid age (1-120)"
  const SymptomError: string := "Please enter at least one symptom"

  /** What a request must satisfy before it is sent: an age in [1, 120] and at
      least one symptom. */
  predicate ValidRequest(d: PredictionRequest) {
    1 <= d.age <= 120 && |d.symptomList| > 0
  }

  /** `validateForm`: the age check comes first, then the symptom check. */
  function ValidateForm(d: PredictionRequest): (r: Option<string>)
    ensures r == Some(AgeError) <==> d.age <= 0 || d.age > 120
    ensures r == Some(SymptomError) <==> 1 <= d.age <= 120 && d.symptomList == []
    ensures r.None? <==> ValidRequest(d)
  {
    if d.age <= 0 || d.age > 120 then Some(AgeError)
    else if |d.symptomList| == 0 then Some(SymptomError)
    else None
  }

  /** The form's state. `success` says whether the success banner is shown
      (its text formats the processing time and is not modelled). */
  datatype FormState = FormState(data: PredictionRequest, loading: bool, error: Option<string>, success: bool)

  /** The request the form starts from and returns to on "Clear". */
  const EmptyRequest: PredictionRequest :=
    PredictionRequest(0, Male, None, None, None, None, [], None, None, None, None, None)

  const InitialForm: FormState := FormState(EmptyRequest, false, None, false)

  /** The example patient of "Quick Fill Example". */
  const QuickFillRequest: PredictionRequest :=
    PredictionRequest(45, Female, Some(38.5), Some(95), Some(140), Some(90),
      ["fever", "cough", "shortness of breath", "fatigue"],
      Some(["hypertension", "diabetes type 2"]),
      Some(["lisinopril", "metformin"]),
      Some(["penicillin"]),
      Some("Cough and fever for 4 days"),
      Some("Patient reports productive cough with yellow sputum, worsening over past 4 days. No recent travel."))

  // ---------------------------------------------------------------------------
  // Field access, for the single-field edits
  // ---------------------------------------------------------------------------

  datatype Field =
    | AgeField | SexField | TemperatureField | HeartRateField | SystolicField | DiastolicField
    | SymptomsField | PmhField | MedicationsField | AllergiesField | ComplaintField | NotesField

  /** A value of one of the request's field types. */
  datatype FieldValue =
    | IntValue(n: int)
    | SexValue(sex: Sex)
    | OptRealValue(x: Option<real>)
    | OptIntValue(k: Option<int>)
    | ListValue(items: seq<string>)
    | OptListValue(list: Option<seq<string>>)
    | OptTextValue(text: Option<string>)

  /** `v` has the type of field `f`. */
  predicate Fits(f: Field, v: FieldValue) {
    match f
    case AgeField => v.IntValue?
    case SexField => v.SexValue?
    case TemperatureField => v.OptRealValue?
    case HeartRateField | SystolicField | DiastolicField => v.OptIntValue?
    case SymptomsField => v.ListValue?
    case PmhField | MedicationsField | AllergiesField => v.OptListValue?
    case ComplaintField | NotesField => v.OptTextValue?
  }

  function Get(d: PredictionRequest, f: Field): (v: FieldValue)
    ensures Fits(f, v)
  {
    match f
    case AgeField => IntValue(d.age)
    case SexField => SexValue(d.sex)
    case TemperatureField => OptRealValue(d.temperatureC)
    case HeartRateField => OptIntValue(d.heartRate)
    case SystolicField => OptIntValue(d.systolic)
    case DiastolicField => OptIntValue(d.diastolic)
    case SymptomsField => ListValue(d.symptomList)
    case PmhField => OptListValue(d.pmhList)
    case MedicationsField => OptListValue(d.currentMedications)
    case AllergiesField => OptListValue(d.allergies)
    case ComplaintField => OptTextValue(d.chiefComplaint)
    case NotesField => OptTextValue(d.freeTextNotes)
  }

  /** `{...prev, [field]: value}`. */
  function Set(d: PredictionRequest, f: Field, v: FieldValue): (r: PredictionRequest)
    requires Fits(f, v)
    ensures Get(r, f) == v
    ensures forall g :: g != f ==> Get(r, g) == Get(d, g)
  {
    match f
    case AgeField => d.(age := v.n)
    case SexField => d.(sex := v.sex)
    case TemperatureField => d.(temperatureC := v.x)
    case HeartRateField => d.(heartRate := v.k)
    case SystolicField => d.(systolic := v.k)
    case DiastolicField => d.(diastolic := v.k)
    case SymptomsField => d.(symptomList := v.items)
    case PmhField => d.(pmhList := v.list)
    case MedicationsField => d.(currentMedications := v.list)
    case AllergiesField => d.(allergies := v.list)
    case ComplaintField => d.(chiefComplaint := v.text)
    case NotesField => d.(freeTextNotes := v.text)
  }

  // ---------------------------------------------------------------------------
  // Handlers
  // ---------------------------------------------------------------------------

  /** `handleInputChange`: sets one field and clears both banners. */
  function HandleInputChange(s: FormState, f: Field, v: FieldValue): (r: FormState)
    requires Fits(f, v)
    ensures Get(r.data, f) == v
    ensures forall g :: g != f ==> Get(r.data, g) == Get(s.data, g)
    ensures r.error.None? && !r.success && r.loading == s.loading
  {
    s.(data := Set(s.data, f, v), error := None, success := false)
  }

  /** Re-entering a field's current value leaves the form data as it was. */
  lemma ReenteringKeepsData(s: FormState, f: Field)
    ensures HandleInputChange(s, f, Get(s.data, f)).data == s.data
  {
  }

  /** Two edits of the same field: the later value wins, nothing of the
      earlier one survives. */
  lemma LaterEditWins(s: FormState, f: Field, v: FieldValue, w: FieldValue)
    requires Fits(f, v) && Fits(f, w)
    ensures HandleInputChange(HandleInputChange(s, f, v), f, w) == HandleInputChange(s, f, w)
  {
  }

  /** The four list fields the chip selectors edit. */
  predicate IsListField(f: Field) {
    f in {SymptomsField, PmhField, MedicationsField, AllergiesField}
  }

  /** `handleArrayChange`: sets one list field and leaves both banners as they
      are. The symptom list is required; the other lists become present. */
  function HandleArrayChange(s: FormState, f: Field, values: seq<string>): (r: FormState)
    requires IsListField(f)
    ensures Get(r.data, f) == (if f == SymptomsField then ListValue(values) else OptListValue(Some(values)))
    ensures forall g :: g != f ==> Get(r.data, g) == Get(s.data, g)
    ensures r.error == s.error && r.success == s.success && r.loading == s.loading
  {
    var v := if f == SymptomsField then ListValue(values) else OptListValue(Some(values));
    s.(data := Set(s.data, f, v))
  }

  /** `handleClear`: back to the empty request, banners cleared; the cleared
      form is rejected for its age. */
  function HandleClear(s: FormState): (r: FormState)
    ensures r.data.age == 0 && r.data.sex == Male && r.data.symptomList == []
    ensures r.data == EmptyRequest
    ensures r.error.None? && !r.success && r.loading == s.loading
    ensures ValidateForm(r.data) == Some(AgeError)
  {
    s.(data := EmptyRequest, error := None, success := false)
  }

  /** `handleQuickFill`: loads the example patient, which passes validation;
      the banners are left as they are. */
  function HandleQuickFill(s: FormState): (r: FormState)
    ensures r.data.age == 45 && |r.data.symptomList| == 4
    ensures r.data == QuickFillRequest
    ensures ValidateForm(r.data).None?
    ensures r.error == s.error && r.success == s.success && r.loading == s.loading
  {
    s.(data := QuickFillRequest)
  }

  /** What one press of "Get Prediction" produced: the form's next state, the
      request sent (if any) and the response handed to the wizard (if any). */
  datatype SubmitResult = SubmitResult(
    state: FormState,
    sent: Option<PredictionRequest>,
    delivered: Option<PredictionResponse>)

  /** `handleSubmit`. A validation error is shown and nothing is sent;
      otherwise the current request is sent and the call's outcome is either
      handed to the wizard or shown as the classified error. */
  function HandleSubmit(s: FormState, outcome: CallResult<PredictionResponse>, baseUrl: string): (r: SubmitResult)
    ensures r.state.data == s.data
    ensures r.sent.Some? <==> ValidateForm(s.data).None?
    ensures r.sent.Some? ==> r.sent.value == s.data && ValidRequest(r.sent.value)
    ensures r.sent.None? ==> r.state == s.(error := ValidateForm(s.data)) && r.state.error.Some?
    ensures r.delivered.Some? <==> r.sent.Some? && outcome.Returned?
    ensures r.delivered.Some? ==> r.delivered.value == outcome.value && r.state.success && r.state.error.None?
    ensures r.sent.Some? && outcome.Threw? ==>
      r.state.error == Some(HandleApiError(outcome.error, baseUrl)) && !r.state.success
    ensures r.sent.Some? ==> !r.state.loading
  {
    var validation := ValidateForm(s.data);
    if validation.Some? then
      SubmitResult(s.(error := validation), None, None)
    else
      match outcome
      case Returned(resp) =>
        SubmitResult(s.(loading := false, error := None, success := true), Some(s.data), Some(resp))
      case Threw(err) =>
        SubmitResult(s.(loading := false, error := Some(HandleApiError(err, baseUrl)), success := false),
          Some(s.data), None)
  }

  /** From the initial form, an immediate submit is blocked by the age check. */
  lemma InitialSubmitBlocked(outcome: CallResult<PredictionResponse>, baseUrl: string)
    ensures HandleSubmit(InitialForm, outcome, baseUrl).sent.None?
    ensures HandleSubmit(InitialForm, outcome, baseUrl).state.error == Some(AgeError)
  {
  }
}
