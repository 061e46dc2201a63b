/** The clinical-feedback screen: the doctor's feedback draft with its
    duplicate-free test and medication lists, and the outcome draft that is
    checked, completed with defaults and stamped before it is sent. */
module Feedback {
  import opened Wrappers
  import opened Strings
  import opened ApiTypes
  import opened ApiClient

  // ---------------------------------------------------------------------------
  // Duplicate-free lists
  // ---------------------------------------------------------------------------

  predicate NoDuplicates(xs: seq<string>) {
    forall i, j :: 0 <= i < j < |xs| ==> xs[i] != xs[j]
  }

  /** `xs.filter(x => x !== t)`. */
  function RemoveAll(xs: seq<string>, t: string): (r: seq<string>)
    ensures t !in r
    ensures forall x :: x in r <==> x in xs && x != t
    ensures |r| <= |xs|
  {
    if xs == [] then []
    else if xs[0] == t then RemoveAll(xs[1..], t)
    else [xs[0]] + RemoveAll(xs[1..], t)
  }

  /** Filtering distributes over concatenation, so the kept elements stay in
      their original order. */
  lemma {:induction false} RemoveAllConcat(a: seq<string>, b: seq<string>, t: string)
    ensures RemoveAll(a + b, t) == RemoveAll(a, t) + RemoveAll(b, t)
  {
    if a == [] {
      assert a + b == b;
    } else {
      assert (a + b)[1..] == a[1..] + b;
      RemoveAllConcat(a[1..], b, t);
    }
  }

  /** Filtering out an absent element changes nothing. */
  lemma {:induction false} RemoveAbsent(xs: seq<string>, t: string)
    requires t !in xs
    ensures RemoveAll(xs, t) == xs
  {
    if xs != [] {
      assert t !in xs[1..];
      RemoveAbsent(xs[1..], t);
      assert [xs[0]] + xs[1..] == xs;
    }
  }

  /** Filtering keeps a list duplicate-free. */
  lemma {:induction false} RemoveKeepsNoDuplicates(xs: seq<string>, t: string)
    requires NoDuplicates(xs)
    ensures NoDuplicates(RemoveAll(xs, t))
  {
    if xs != [] {
      assert NoDuplicates(xs[1..]) by {
        forall i, j | 0 <= i < j < |xs[1..]| ensures xs[1..][i] != xs[1..][j] {
          assert xs[1..][i] == xs[i + 1] && xs[1..][j] == xs[j + 1];
        }
      }
      RemoveKeepsNoDuplicates(xs[1..], t);
      if xs[0] != t {
        var rest := RemoveAll(xs[1..], t);
        assert xs[0] !in xs[1..];
        assert xs[0] !in rest;
        var r := [xs[0]] + rest;
        forall i, j | 0 <= i < j < |r| ensures r[i] != r[j] {
          if i == 0 {
            assert r[j] == rest[j - 1];
          } else {
            assert r[i] == rest[i - 1] && r[j] == rest[j - 1];
          }
        }
      }
    }
  }

  /** `addTest` / `addMedication` on an optional list: an empty entry or one
      already listed changes nothing; otherwise the entry is appended (to an
      empty list when the field is absent). */
  function AddEntry(list: Option<seq<string>>, t: string): (r: Option<seq<string>>)
    ensures t == "" || (list.Some? && t in list.value) ==> r == list
    ensures t != "" && !(list.Some? && t in list.value) ==> r == Some(list.GetOr([]) + [t])
  {
    if t != "" && !(list.Some? && t in list.value) then Some(list.GetOr([]) + [t]) else list
  }

  /** `removeTest` / `removeMedication`: `list?.filter(x => x !== t)`. */
  function RemoveEntry(list: Option<seq<string>>, t: string): (r: Option<seq<string>>)
    ensures r.Some? <==> list.Some?
    ensures r.Some? ==> r.value == RemoveAll(list.value, t)
  {
    match list
    case None => None
    case Some(xs) => Some(RemoveAll(xs, t))
  }

  /** Adding and removing keep a present list duplicate-free and present. */
  lemma EntriesStayDistinct(list: Option<seq<string>>, t: string)
    requires list.Some? ==> NoDuplicates(list.value)
    ensures AddEntry(list, t).Some? ==> NoDuplicates(AddEntry(list, t).value)
    ensures RemoveEntry(list, t).Some? ==> NoDuplicates(RemoveEntry(list, t).value)
    ensures list.Some? ==> AddEntry(list, t).Some? && RemoveEntry(list, t).Some?
  {
    if list.Some? {
      RemoveKeepsNoDuplicates(list.value, t);
    }
  }

  /** Removing an entry that was just added to a list that lacked it restores
      the list. */
  lemma {:induction false} AddThenRemove(list: seq<string>, t: string)
    requires t !in list
    ensures RemoveEntry(AddEntry(Some(list), t), t) == Some(list)
  {
    RemoveAbsent(list, t);
    if t != "" {
      assert AddEntry(Some(list), t) == Some(list + [t]);
      RemoveAllConcat(list, [t], t);
      assert [t][1..] == [];
      assert RemoveAll([t], t) == [];
      assert RemoveAll(list + [t], t) == list + [];
      assert list + [] == list;
    }
  }

  /** After removal the entry is gone and every other entry keeps its place. */
  lemma {:induction false} RemoveKeepsOthers(front: seq<string>, t: string, back: seq<string>)
    requires t !in front
    ensures RemoveEntry(Some(front + [t] + back), t) == Some(front + RemoveAll(back, t))
  {
    RemoveAllConcat(front + [t], back, t);
    RemoveAllConcat(front, [t], t);
    RemoveAbsent(front, t);
    assert [t][1..] == [];
    assert RemoveAll([t], t) == [];
    assert RemoveAll(front + [t], t) == front + [];
    assert front + [] == front;
  }

  // ---------------------------------------------------------------------------
  // Doctor feedback
  // ---------------------------------------------------------------------------

  /** The feedback draft, a `Partial<ClinicalFeedbackRequest>`. */
  datatype FeedbackDraft = FeedbackDraft(
    predictionId: Option<int>,
    doctorId: Option<string>,
    doctorName: Option<string>,
    hospitalUnit: Option<string>,
    predictionAccurate: Option<bool>,
    confidenceInFeedback: Option<real>,
    actualDiseaseId: Option<int>,
    actualConditionName: Option<string>,
    orderedTests: Option<seq<string>>,
    prescribedMedications: Option<seq<string>>,
    clinicalNotes: Option<string>,
    outcomeNotes: Option<string>)

  function InitialFeedback(predictionId: int): FeedbackDraft {
    FeedbackDraft(Some(predictionId), Some(""), Some(""), Some(""), Some(true), Some(0.8),
      None, None, Some([]), Some([]), Some(""), Some(""))
  }

  function AddTest(d: FeedbackDraft, t: string): (r: FeedbackDraft)
    ensures r == d.(orderedTests := AddEntry(d.orderedTests, t))
  {
    if t != "" && !(d.orderedTests.Some? && t in d.orderedTests.value) then
      d.(orderedTests := Some(d.orderedTests.GetOr([]) + [t]))
    else d
  }

  function RemoveTest(d: FeedbackDraft, t: string): (r: FeedbackDraft)
    ensures r == d.(orderedTests := RemoveEntry(d.orderedTests, t))
  {
    d.(orderedTests := if d.orderedTests.Some? then Some(RemoveAll(d.orderedTests.value, t)) else None)
  }

  function AddMedication(d: FeedbackDraft, m: string): (r: FeedbackDraft)
    ensures r == d.(prescribedMedications := AddEntry(d.prescribedMedications, m))
  {
    if m != "" && !(d.prescribedMedications.Some? && m in d.prescribedMedications.value) then
      d.(prescribedMedications := Some(d.prescribedMedications.GetOr([]) + [m]))
    else d
  }

  function RemoveMedication(d: FeedbackDraft, m: string): (r: FeedbackDraft)
    ensures r == d.(prescribedMedications := RemoveEntry(d.prescribedMedications, m))
  {
    d.(prescribedMedications := if d.prescribedMedications.Some? then
      Some(RemoveAll(d.prescribedMedications.value, m)) else None)
  }

  /** The edits the feedback controls make (the confidence slider's value is
      taken after its division by 100). */
  datatype FeedbackEdit =
    | SetDoctorId(s: string)
    | SetDoctorName(s: string)
    | SetHospitalUnit(s: string)
    | SetAccurate(b: bool)
    | SetConfidence(x: real)
    | SetActualDiseaseId(k: Option<int>)
    | SetActualConditionName(s: string)
    | AddTestEdit(s: string)
    | RemoveTestEdit(s: string)
    | AddMedicationEdit(s: string)
    | RemoveMedicationEdit(s: string)
    | SetClinicalNotes(s: string)
    | SetOutcomeNotes(s: string)

  function ApplyEdit(d: FeedbackDraft, e: FeedbackEdit): FeedbackDraft {
    match e
    case SetDoctorId(s) => d.(doctorId := Some(s))
    case SetDoctorName(s) => d.(doctorName := Some(s))
    case SetHospitalUnit(s) => d.(hospitalUnit := Some(s))
    case SetAccurate(b) => d.(predictionAccurate := Some(b))
    case SetConfidence(x) => d.(confidenceInFeedback := Some(x))
    case SetActualDiseaseId(k) => d.(actualDiseaseId := k)
    case SetActualConditionName(s) => d.(actualConditionName := Some(s))
    case AddTestEdit(s) => AddTest(d, s)
    case RemoveTestEdit(s) => RemoveTest(d, s)
    case AddMedicationEdit(s) => AddMedication(d, s)
    case RemoveMedicationEdit(s) => RemoveMedication(d, s)
    case SetClinicalNotes(s) => d.(clinicalNotes := Some(s))
    case SetOutcomeNotes(s) => d.(outcomeNotes := Some(s))
  }

  /** What every draft the screen reaches satisfies: the request's required
      fields are present and both lists are present and duplicate-free. */
  predicate WellFormedDraft(d: FeedbackDraft) {
    && d.predictionId.Some? && d.doctorId.Some? && d.predictionAccurate.Some?
    && d.confidenceInFeedback.Some?
    && d.orderedTests.Some? && NoDuplicates(d.orderedTests.value)
    && d.prescribedMedications.Some? && NoDuplicates(d.prescribedMedications.value)
  }

  /** The initial draft is well formed and every edit keeps it so. */
  lemma WellFormedInvariant(predictionId: int, d: FeedbackDraft, e: FeedbackEdit)
    ensures WellFormedDraft(InitialFeedback(predictionId))
    ensures WellFormedDraft(d) ==> WellFormedDraft(ApplyEdit(d, e))
  {
    if WellFormedDraft(d) {
      match e
      case AddTestEdit(t) => EntriesStayDistinct(d.orderedTests, t);
      case RemoveTestEdit(t) => EntriesStayDistinct(d.orderedTests, t);
      case AddMedicationEdit(m) => EntriesStayDistinct(d.prescribedMedications, m);
      case RemoveMedicationEdit(m) => EntriesStayDistinct(d.prescribedMedications, m);
      case _ =>
    }
  }

  /** The alert shown above the forms. */
  datatype SubmitStatus = NoStatus | SuccessStatus(message: string) | ErrorStatus(message: string)

  const DoctorIdRequired: string := "Doctor ID is required"

  /** The `name` of the errors the HTTP client rejects with. */
  const AxiosErrorName: string := "AxiosError"

  /** `${error}` for a rejected call, as `Error.prototype.toString` renders it:
      the name alone when the message is empty, otherwise name, ": ", message. */
  function ThrownText(e: AxiosError): (text: string)
    ensures IsPrefix(AxiosErrorName, text)
    ensures text == AxiosErrorName <==> e.message == ""
    ensures e.message != "" ==> text[|AxiosErrorName|..] == ": " + e.message
  {
    if e.message == "" then AxiosErrorName else AxiosErrorName + ": " + e.message
  }

  /** What a submit handler leaves behind: the alert, and the request it sent
      (`None` when validation stopped it before the call). */
  datatype Submission<R> = Submission(status: SubmitStatus, sent: Option<R>)

  /** The request a well-formed draft stands for once its doctor id is set
      (the client sends the draft itself, cast to the request type). */
  function AsRequest(d: FeedbackDraft): (r: ClinicalFeedbackRequest)
    requires WellFormedDraft(d)
    ensures r.predictionId == d.predictionId.value && r.doctorId == d.doctorId.value
    ensures r.orderedTests == d.orderedTests && r.prescribedMedications == d.prescribedMedications
    ensures r.predictionAccurate == d.predictionAccurate.value
    ensures r.confidenceInFeedback == d.confidenceInFeedback.value
    ensures r.doctorName == d.doctorName && r.hospitalUnit == d.hospitalUnit
    ensures r.actualDiseaseId == d.actualDiseaseId && r.actualConditionName == d.actualConditionName
    ensures r.clinicalNotes == d.clinicalNotes && r.outcomeNotes == d.outcomeNotes
  {
    ClinicalFeedbackRequest(d.predictionId.value, d.doctorId.value, d.doctorName, d.hospitalUnit,
      d.predictionAccurate.value, d.confidenceInFeedback.value, d.actualDiseaseId,
      d.actualConditionName, d.orderedTests, d.prescribedMedications, d.clinicalNotes, d.outcomeNotes)
  }

  /** `handleFeedbackSubmit`: an empty doctor id is reported and nothing is
      sent; otherwise the draft is sent and the call's outcome reported. */
  function FeedbackSubmit(d: FeedbackDraft, outcome: CallResult<ClinicalFeedbackResponse>):
    (r: Submission<FeedbackDraft>)
    ensures r.sent.None? <==> d.doctorId.GetOr("") == ""
    ensures r.sent.None? ==> r.status == ErrorStatus(DoctorIdRequired)
    ensures r.sent.Some? ==> r.sent.value == d
    ensures r.sent.Some? && outcome.Returned? ==>
      r.status == SuccessStatus("Feedback submitted successfully! ID: " + IntToString(outcome.value.feedbackId))
    ensures r.sent.Some? && outcome.Threw? ==>
      r.status == ErrorStatus("Failed to submit feedback: " + ThrownText(outcome.error))
  {
    if d.doctorId.GetOr("") == "" then Submission(ErrorStatus(DoctorIdRequired), None)
    else
      match outcome
      case Returned(resp) =>
        Submission(SuccessStatus("Feedback submitted successfully! ID: " + IntToString(resp.feedbackId)), Some(d))
      case Threw(err) =>
        Submission(ErrorStatus("Failed to submit feedback: " + ThrownText(err)), Some(d))
  }

  /** A draft that passed the doctor-id check stands for a complete request
      with a non-empty doctor id. */
  lemma SentFeedbackIsComplete(d: FeedbackDraft, outcome: CallResult<ClinicalFeedbackResponse>)
    requires WellFormedDraft(d)
    requires FeedbackSubmit(d, outcome).sent.Some?
    ensures AsRequest(d).doctorId != ""
    ensures NoDuplicates(AsRequest(d).orderedTests.value)
  {
  }

  // ---------------------------------------------------------------------------
  // Clinical outcome
  // ---------------------------------------------------------------------------

  /** The outcome draft, a `Partial<ClinicalOutcomeRequest>`. */
  datatype OutcomeDraft = OutcomeDraft(
    patientOutcome: Option<PatientOutcome>,
    finalDiagnosisId: Option<int>,
    finalConditionName: Option<string>,
    treatmentEffective: Option<bool>,
    sideEffects: Option<seq<string>>,
    diagnosisConfirmationDays: Option<int>,
    treatmentDurationDays: Option<int>,
    readmissionRequired: Option<bool>,
    complications: Option<seq<string>>,
    reportedBy: Option<string>)

  /** The three required fields are truthy: a non-zero diagnosis id and
      non-empty name and reporter. */
  predicate OutcomeRequiredPresent(d: OutcomeDraft) {
    && d.finalDiagnosisId.GetOr(0) != 0
    && d.finalConditionName.GetOr("") != ""
    && d.reportedBy.GetOr("") != ""
  }

  const OutcomeFieldsRequired: string :=
    "Final diagnosis ID, condition name, and reporter ID are required"

  /** `toISOString().split('.')[0] + 'Z'`: the timestamp cut at its first '.'
      and closed with 'Z'. */
  function TruncateIso(iso: string): (r: string)
    ensures |r| >= 1 && r[|r| - 1] == 'Z'
    ensures '.' !in r[..|r| - 1]
    ensures IsPrefix(r[..|r| - 1], iso)
    ensures |r| - 1 < |iso| ==> iso[|r| - 1] == '.'
  {
    var head := TakeUntil(iso, '.');
    assert (head + "Z")[..|head|] == head;
    head + "Z"
  }

  /** The shape `toISOString` produces: `YYYY-MM-DDTHH:mm:ss.sssZ`, whose only
      '.' precedes the milliseconds. */
  predicate IsoWithMillis(iso: string) {
    |iso| == 24 && iso[19] == '.' && iso[23] == 'Z' && '.' !in iso[..19]
  }

  /** On such a timestamp the truncation keeps whole seconds: the first 19
      characters followed by 'Z', with no fractional part left. */
  lemma TruncateIsoDropsMillis(iso: string)
    requires IsoWithMillis(iso)
    ensures TruncateIso(iso) == iso[..19] + "Z"
    ensures '.' !in TruncateIso(iso)
  {
  }

  /** `handleOutcomeSubmit`'s payload: the prop's prediction id, the draft's
      required fields, and defaults for the rest (`||` for the outcome, day
      counts and lists, `??` for the two booleans). */
  function AssembleOutcome(d: OutcomeDraft, predictionId: int, nowIso: string): (r: ClinicalOutcomeRequest)
    requires OutcomeRequiredPresent(d)
    ensures r.predictionId == predictionId
    ensures r.finalDiagnosisId == d.finalDiagnosisId.value && r.finalDiagnosisId != 0
    ensures r.finalConditionName == d.finalConditionName.value && r.finalConditionName != ""
    ensures r.reportedBy == d.reportedBy.value && r.reportedBy != ""
    ensures r.patientOutcome == d.patientOutcome.GetOr(Improved)
    ensures r.treatmentEffective == d.treatmentEffective.GetOr(true)
    ensures r.readmissionRequired == d.readmissionRequired.GetOr(false)
    ensures r.diagnosisConfirmationDays.Some? && r.diagnosisConfirmationDays.value != 0
    ensures d.diagnosisConfirmationDays.GetOr(0) == 0 ==> r.diagnosisConfirmationDays == Some(1)
    ensures d.diagnosisConfirmationDays.GetOr(0) != 0 ==> r.diagnosisConfirmationDays == d.diagnosisConfirmationDays
    ensures r.treatmentDurationDays.Some? && r.treatmentDurationDays.value != 0
    ensures d.treatmentDurationDays.GetOr(0) == 0 ==> r.treatmentDurationDays == Some(7)
    ensures d.treatmentDurationDays.GetOr(0) != 0 ==> r.treatmentDurationDays == d.treatmentDurationDays
    ensures r.sideEffects == Some(d.sideEffects.GetOr([]))
    ensures r.complications == Some(d.complications.GetOr([]))
    ensures r.outcomeDate == TruncateIso(nowIso)
  {
    ClinicalOutcomeRequest(
      predictionId,
      if d.patientOutcome.Some? then d.patientOutcome.value else Improved,
      d.finalDiagnosisId.value,
      d.finalConditionName.value,
      if d.treatmentEffective.Some? then d.treatmentEffective.value else true,
      Some(if d.sideEffects.Some? then d.sideEffects.value else []),
      Some(if d.diagnosisConfirmationDays.GetOr(0) != 0 then d.diagnosisConfirmationDays.value else 1),
      Some(if d.treatmentDurationDays.GetOr(0) != 0 then d.treatmentDurationDays.value else 7),
      if d.readmissionRequired.Some? then d.readmissionRequired.value else false,
      Some(if d.complications.Some? then d.complications.value else []),
      d.reportedBy.value,
      TruncateIso(nowIso))
  }

  /** `handleOutcomeSubmit`: a missing required field is thrown, caught and
      reported without a call; otherwise the assembled payload is sent and the
      call's outcome reported. Nothing outside this screen changes. */
  function OutcomeSubmit(d: OutcomeDraft, predictionId: int, nowIso: string, outcome: CallResult<int>):
    (r: Submission<ClinicalOutcomeRequest>)
    ensures r.sent.Some? <==> OutcomeRequiredPresent(d)
    ensures r.sent.None? ==> r.status == ErrorStatus("Failed to record outcome: Error: " + OutcomeFieldsRequired)
    ensures r.sent.Some? ==> r.sent.value == AssembleOutcome(d, predictionId, nowIso)
    ensures r.sent.Some? && outcome.Returned? ==> r.status == SuccessStatus("Clinical outcome recorded successfully!")
    ensures r.sent.Some? && outcome.Threw? ==>
      r.status == ErrorStatus("Failed to record outcome: " + ThrownText(outcome.error))
  {
    if !OutcomeRequiredPresent(d) then
      Submission(ErrorStatus("Failed to record outcome: Error: " + OutcomeFieldsRequired), None)
    else
      var request := AssembleOutcome(d, predictionId, nowIso);
      match outcome
      case Returned(_) => Submission(SuccessStatus("Clinical outcome recorded successfully!"), Some(request))
      case Threw(err) => Submission(ErrorStatus("Failed to record outcome: " + ThrownText(err)), Some(request))
  }

  /** The outcome draft's initial value passes the required-field check. */
  const InitialOutcome: OutcomeDraft :=
    OutcomeDraft(Some(Improved), Some(1), Some("Confirmed diagnosis"), Some(true), Some([]),
      Some(1), Some(7), Some(false), Some([]), Some("DR001"))

  /** A zero diagnosis id is rejected like a missing one. */
  lemma ZeroDiagnosisRejected(predictionId: int, nowIso: string, outcome: CallResult<int>)
    ensures OutcomeSubmit(InitialOutcome, predictionId, nowIso, outcome).sent.Some?
    ensures OutcomeSubmit(InitialOutcome.(finalDiagnosisId := Some(0)), predictionId, nowIso, outcome).sent.None?
  {
  }
}
