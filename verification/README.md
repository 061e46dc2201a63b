# Clinical decision support wizard — a Dafny model

This project models the client-side logic of a clinical-decision-support web
front end. The front end is a four-screen wizard: health check → symptom entry
→ prediction results → clinical feedback. The logic modelled here is:

- **Wizard step controller** (`Wizard`, from `src/App.tsx`). This is the
  four-step state machine. It holds the last prediction response and a
  prediction id that the client draws at random. It also has the render guard
  that shows an error alert instead of a screen whose data is missing.
- **API error classifier** (`ApiClient`, from `src/services/api.ts`). This is
  `handleApiError`, which turns a failed call into the message the user sees.
  The module also holds the configured base URL.
- **Health monitor** (`Health`, from `src/components/HealthCheck.tsx`). It
  combines three probe answers into one "all healthy" verdict and keeps the
  component's status. It also has `formatUptime` and the database-label
  fallback.
- **Prediction form** (`PredictionForm`, from `src/components/PredictionForm.tsx`).
  This covers the ordered validator, the submit guard, the single-field and
  list edits, "Clear" and "Quick Fill".
- **Clinical feedback** (`Feedback`, from `src/components/ClinicalFeedback.tsx`).
  This covers the duplicate-free test and medication lists and the two submit
  guards. It also covers assembling the outcome payload with its defaults, and
  cutting the timestamp to whole seconds.
- **Results screen decisions** (`Results`, from `src/components/PredictionResults.tsx`).
  These are the confidence tier and colour, the urgency and safety-check
  chips, and which sections are rendered.
- **Request/response shapes** (`ApiTypes`, from `src/types/api.ts`). Optional
  fields are `Option`s. The string-literal unions become enumerations, each
  with its wire spelling.

Two helper modules support the rest:

- `Wrappers` defines `Option`.
- `Strings` defines the JavaScript string operations the code uses: `join`,
  `includes`, `split(c)[0]` and the decimal rendering of integers.

Everything is a pure function over immutable datatypes. Inputs stand in for
anything the code awaits or draws:

- An API call's outcome (`CallResult`) is an input.
- The joint outcome of the three health probes (`ProbeOutcome`) is an input.
- The `Math.random()` draw is a real in [0, 1).
- The current `toISOString()` timestamp is a string.

Points where the code behaves differently from what one might expect:

- The `ERR_NETWORK`/CORS message is a fixed text without the base URL. Only
  the other "no answer" message (timeouts included) names it.
  `ApiClient.WhichNetworkMessageNamesBaseUrl` states this split.
- The feedback guard tests the prediction id for truthiness. A drawn id of 0
  therefore shows the error alert (`Wizard.ZeroIdBlocksFeedback`).
- Random ids can repeat, so no uniqueness is stated for them.

## Model

| member | source | states |
|---|---|---|
| `Wizard.ActiveStep` | src/App.tsx:32-41 | the stepper index is in [0,3] and is the position of the current step in the step list |
| `Wizard.FindIndexFrom` | src/App.tsx:39-41 | `findIndex` returns a position holding the step with no earlier one, or -1 when no position holds it |
| `Wizard.ActiveStepInjective` | src/App.tsx:32-41 | two states have the same stepper index iff they are on the same step |
| `Wizard.HealthOk` | src/App.tsx:43-46 | moves to the prediction step and keeps the result and id |
| `Wizard.RandomId` | src/App.tsx:52 | `floor(roll*10000)` for a roll in [0,1) is in [0,10000) and is the floor of roll·10000 |
| `Wizard.PredictionResult` | src/App.tsx:48-54 | stores exactly the given response, sets the id drawn from the roll (`floor(roll·10000)`, in [0,10000)) and moves to results |
| `Wizard.Back` | src/App.tsx:56-70 | goes one stepper position back (health stays on health) and never touches result or id |
| `Wizard.Home` | src/App.tsx:72-76 | from any state, yields the session's initial state (health, no result, no id) |
| `Wizard.HomeResets` | src/App.tsx:72-76 | home forgets where it came from, is idempotent and clears result and id |
| `Wizard.ProceedToFeedback` | src/App.tsx:78-80 | moves to feedback unconditionally, keeping result and id |
| `Wizard.Render` | src/App.tsx:86-122 | results render only with a stored result, feedback only with a result and a truthy id; otherwise the matching error alert |
| `Wizard.ValidInvariant` | src/App.tsx:28-122 | the initial state, every action whose control is rendered, and a prediction response arriving at any step keep results/feedback backed by a stored result and id |
| `Wizard.ValidRendering` | src/App.tsx:92-118 | in a reachable state the results screen always renders; the feedback screen shows the alert exactly when the id is 0 |
| `Wizard.ZeroIdBlocksFeedback` | src/App.tsx:48-117 | every roll below 1/10000 gives id 0, and the feedback screen then shows the error alert |
| `Wizard.NavigationPastFirstStep` | src/App.tsx:151 | Back and Start Over are shown exactly when the stepper is past its first position |
| `Wizard.FeedbackLeavesWizard` | src/App.tsx:82-84 | a submitted feedback or outcome leaves the wizard state unchanged |
| `ApiClient.ApiBaseUrl` | src/services/api.ts:16 | the base URL is the environment value when set and non-empty, otherwise `http://127.0.0.1:8000` |
| `ApiClient.HandleApiError` | src/services/api.ts:137-174 | one message per error bucket: 422 list, string detail, generic server error, network/CORS, other no-answer, raw message |
| `ApiClient.LocStrings` | src/services/api.ts:151-153 | each `loc` element renders as itself when a name and as its decimal text when an index, position by position |
| `ApiClient.FormatItems` | src/services/api.ts:151-153 | each validation item becomes `loc` joined by "." then ": " then `msg`, position by position |
| `ApiClient.ValidationSummaryAppend` | src/services/api.ts:149-155 | field errors are listed in the server's order, separated by ", " |
| `ApiClient.ValidationExample` | src/services/api.ts:149-155 | a 422 `[{loc:["body","age"], msg:"value is not a valid integer"}]` gives `Validation Error: body.age: value is not a valid integer` |
| `ApiClient.PrefixRevealsKind` | src/services/api.ts:145-173 | a message starts with "Validation Error: ", "Network Error: " or "Error: " exactly when the error is a 422 list, an unanswered request, or neither response nor request |
| `ApiClient.ResponseTakesPrecedence` | src/services/api.ts:145-162 | with a server answer, the request flag, the code and the raw message do not affect the message |
| `ApiClient.WhichNetworkMessageNamesBaseUrl` | src/services/api.ts:164-170 | for a base URL containing '/' and an unanswered request, the message omits the base URL exactly in the ERR_NETWORK/CORS case |
| `ApiClient.ConfiguredUrlInNetworkMessages` | src/services/api.ts:16-170 | with the default base URL, or a configured one containing '/', only the ERR_NETWORK/CORS message omits the URL the client uses |
| `Health.StartCheck` | src/components/HealthCheck.tsx:48 | starting a check sets loading and clears the error, keeping records and verdict |
| `Health.FinishCheck` | src/components/HealthCheck.tsx:60-83 | success stores the three answers, clears the error and sets the verdict by the healthy/connected rule; failure keeps the old answers, sets the classified error and a false verdict |
| `Health.ConsistentInvariant` | src/components/HealthCheck.tsx:38-83 | a true verdict is always backed by three stored healthy answers and no error |
| `Health.ProceedOnlyWhenHealthy` | src/components/HealthCheck.tsx:60-137 | proceeding is offered after a check only if all probes answered healthy/connected; after a successful check it matches the three card icons |
| `Health.ProceedStaysOfferedDuringRefresh` | src/components/HealthCheck.tsx:48-137 | a refresh keeps a previous positive verdict, and its button, while loading |
| `Health.JsRem` | src/components/HealthCheck.tsx:107 | JavaScript `%` takes the dividend's sign, is a − b·trunc(a/b), and agrees with the mathematical remainder on non-negative values |
| `Health.FormatUptime` | src/components/HealthCheck.tsx:104-109 | "Unknown" iff absent or 0; otherwise hours is the floor of s/3600 and minutes the floor of (s % 3600)/60 for any sign of s, so for positive seconds hours·3600 + minutes·60 ≤ s < that + 60 |
| `Health.UptimeText` | src/components/HealthCheck.tsx:105-108 | the text is "Unknown" exactly for an unknown uptime; otherwise it is `<hours>h <minutes>m` with both numbers in decimal, starting with '-' iff the hours are negative |
| `Health.DatabaseLabel` | src/components/HealthCheck.tsx:235 | the label is a non-empty `database_status`, else a non-empty `database`, else "Unknown"; it is never empty and always one of these |
| `Health.LabelAndIcon` | src/components/HealthCheck.tsx:229-236 | a "connected" label implies a green icon, but the icon can be green while the label says "disconnected" |
| `PredictionForm.ValidateForm` | src/components/PredictionForm.tsx:90-98 | age message iff age ∉ [1,120]; symptom message iff the age is valid and there are no symptoms; none iff the request is valid |
| `PredictionForm.Set` | src/components/PredictionForm.tsx:74-77 | writing a field gives back the written value and leaves every other field as it was |
| `PredictionForm.HandleInputChange` | src/components/PredictionForm.tsx:73-81 | only the named field changes and both banners are cleared |
| `PredictionForm.ReenteringKeepsData` | src/components/PredictionForm.tsx:73-77 | writing a field's current value back leaves the request unchanged |
| `PredictionForm.LaterEditWins` | src/components/PredictionForm.tsx:73-81 | two edits of the same field equal the later edit alone |
| `PredictionForm.HandleArrayChange` | src/components/PredictionForm.tsx:83-88 | only the named list field changes and the banners are left untouched |
| `PredictionForm.HandleSubmit` | src/components/PredictionForm.tsx:100-126 | a request is sent iff it validates, and what is sent is the form data; a blocked submit only sets the error; a response is handed on only after a send that returned |
| `PredictionForm.HandleClear` | src/components/PredictionForm.tsx:128-136 | the whole request becomes the empty one (age 0, male, no symptoms, every optional field absent), both banners clear, and the cleared form fails on age |
| `PredictionForm.HandleQuickFill` | src/components/PredictionForm.tsx:138-153 | the whole request becomes the example patient (45-year-old female, four symptoms, vitals, history, medications, allergies), which passes validation; the banners are untouched |
| `PredictionForm.InitialSubmitBlocked` | src/components/PredictionForm.tsx:63-105 | submitting the initial form sends nothing and shows the age message |
| `Feedback.RemoveAll` | src/components/ClinicalFeedback.tsx:149 | filtering removes exactly the given entry and can only shorten the list |
| `Feedback.RemoveAllConcat` | src/components/ClinicalFeedback.tsx:146-151 | filtering distributes over concatenation, so the rest keep their order |
| `Feedback.AddEntry` | src/components/ClinicalFeedback.tsx:137-144 | an empty or already listed entry changes nothing; otherwise it is appended at the end |
| `Feedback.RemoveEntry` | src/components/ClinicalFeedback.tsx:146-151 | an absent list stays absent; a present one is filtered |
| `Feedback.EntriesStayDistinct` | src/components/ClinicalFeedback.tsx:137-167 | add and remove keep a present list present and duplicate-free |
| `Feedback.AddThenRemove` | src/components/ClinicalFeedback.tsx:137-167 | removing an entry just added to a list that lacked it restores the list |
| `Feedback.RemoveKeepsOthers` | src/components/ClinicalFeedback.tsx:146-151 | removing an entry keeps everything before it in place |
| `Feedback.AddTest` | src/components/ClinicalFeedback.tsx:137-144 | only the ordered tests change, by the add-entry rule |
| `Feedback.RemoveTest` | src/components/ClinicalFeedback.tsx:146-151 | only the ordered tests change, by filtering |
| `Feedback.AddMedication` | src/components/ClinicalFeedback.tsx:153-160 | only the prescribed medications change, by the add-entry rule |
| `Feedback.RemoveMedication` | src/components/ClinicalFeedback.tsx:162-167 | only the prescribed medications change, by filtering |
| `Feedback.WellFormedInvariant` | src/components/ClinicalFeedback.tsx:36-167 | the initial draft has the request's required fields and distinct list entries, and every edit keeps this |
| `Feedback.AsRequest` | src/components/ClinicalFeedback.tsx:82 | the cast keeps every field: id, doctor, accuracy verdict, confidence, optional names, disease, lists and notes |
| `Feedback.ThrownText` | src/components/ClinicalFeedback.tsx:88-91 | a rejected call renders as "AxiosError" alone for an empty message, otherwise as "AxiosError: " followed by the message, which can be read back |
| `Feedback.FeedbackSubmit` | src/components/ClinicalFeedback.tsx:71-96 | an empty doctor id gives "Doctor ID is required" and no call; otherwise the draft is sent and success or failure reported |
| `Feedback.SentFeedbackIsComplete` | src/components/ClinicalFeedback.tsx:71-82 | a sent draft has a non-empty doctor id and duplicate-free tests |
| `Feedback.TruncateIso` | src/components/ClinicalFeedback.tsx:119 | the date is the timestamp up to its first '.', with 'Z' appended |
| `Feedback.TruncateIsoDropsMillis` | src/components/ClinicalFeedback.tsx:119 | on a `toISOString` timestamp the result is its first 19 characters plus 'Z', with no '.' |
| `Feedback.AssembleOutcome` | src/components/ClinicalFeedback.tsx:106-120 | uses the prop's id and the required fields; outcome defaults to improved, days to 1 and 7 when falsy, booleans to true/false, lists to [] |
| `Feedback.OutcomeSubmit` | src/components/ClinicalFeedback.tsx:98-135 | a call is made iff the diagnosis id is non-zero and name and reporter are non-empty; otherwise the thrown message is reported |
| `Feedback.ZeroDiagnosisRejected` | src/components/ClinicalFeedback.tsx:50-104 | the initial outcome draft passes, and the same draft with diagnosis id 0 is rejected |
| `Results.ConfidenceColor` | src/components/PredictionResults.tsx:44-48 | success iff ≥ 0.8, warning iff in [0.6, 0.8), error iff < 0.6 |
| `Results.ConfidenceLabel` | src/components/PredictionResults.tsx:50-54 | High iff ≥ 0.8, Medium iff in [0.6, 0.8), Low iff < 0.6 |
| `Results.ConfidenceLabelText` | src/components/PredictionResults.tsx:50-54 | the label text is "High" iff ≥ 0.8, "Medium" iff in [0.6, 0.8), "Low" iff < 0.6 |
| `Results.TiersAgreeAndAreMonotone` | src/components/PredictionResults.tsx:44-54 | label and colour always agree, and a higher confidence never gets a lower tier |
| `Results.UrgencyChipColor` | src/components/PredictionResults.tsx:142 | urgent → error, routine → primary, anything else → default |
| `Results.UrgencyColorsDistinct` | src/components/PredictionResults.tsx:142 | the three urgencies get three different colours, stat → default |
| `Results.ContraindicationChip` | src/components/PredictionResults.tsx:209-210 | checked → ("Checked", success), otherwise ("Not Checked", warning) |
| `Results.ContraindicationChipReadsBack` | src/components/PredictionResults.tsx:209-210 | the chip's text alone, and its colour alone, each determine whether the contraindications were checked |
| `Results.Sections` | src/components/PredictionResults.tsx:104-270 | each section renders iff its list is non-empty; tests start expanded only on the first card |
| `Results.WarningsShown` | src/components/PredictionResults.tsx:342 | the warnings box renders iff there are clinical warnings |
| `Results.AtMostOneExpanded` | src/components/PredictionResults.tsx:105-106 | in a whole response at most one card, the first if it has tests, starts expanded |
| `ApiTypes.ParseSex` | src/types/api.ts:20 | a sex is exactly one of "male", "female", "other" |
| `ApiTypes.ParseUrgency` | src/types/api.ts:36 | an urgency is exactly one of "routine", "urgent", "stat" |
| `ApiTypes.ParseOutcome` | src/types/api.ts:103 | a patient outcome is exactly one of the five listed values |
| `ApiTypes.EnumRoundTrips` | src/types/api.ts:18-119 | every enumeration value reads back as itself from its wire spelling |

## Left out

- The axios instance, its interceptors and the endpoint wrappers, plus
  `checkBackendConnection` (src/services/api.ts:18-134). These are network
  I/O and logging. Each call's outcome is an input.
- The 30-second timeout. It only decides which error a call throws, and the
  thrown error is an input.
- `Promise.all` in the health check. It is modelled as "three answers or one
  failure", because its concurrency keeps no invariants of its own.
- `Math.random()` and `new Date()`. They become a roll in [0, 1) and an ISO
  timestamp string passed as parameters.
- Floating-point presentation: `formatConfidence`, `toFixed`, the
  processing-time text and the slider's ×100/÷100.
- PredictionForm.HandleSubmit: the success banner is modelled as a flag, not
  as its text, because the text formats the processing time with `toFixed`.
- Parsing of the text inputs (`parseInt(...) || 0`, `parseFloat(...) ||
  undefined`, `Number(...)`). The handlers take the already-parsed value.
  `NaN` and fractional ids or day counts are not modelled.
- Health.FormatUptime: takes integer seconds. Fractional uptimes are not
  modelled.
- Feedback.ThrownText: assumes every rejected call is an `AxiosError` (name
  "AxiosError"), since the client passes the HTTP library's errors through
  unchanged. Other thrown values are not modelled.
- ApiClient.HandleApiError: a response whose body is `null` or `undefined`
  makes the source throw while reading `detail`. The model gives every
  response a detail: a string, a list, or anything else.
- The outcome form's individual `setOutcome` edits. The outcome draft is an
  input to `Feedback.OutcomeSubmit`.
- The feedback screen's `submitting` flag, which only disables the two submit
  buttons while a call is pending.
- `FeedbackStatistics` and `FeedbackSummary`. Only the left-out endpoint
  wrappers use them.
- JSX layout, MUI components, icons, autocomplete suggestion lists and
  `console` output. These are presentation only.
- `src/theme.ts`, `src/vite-env.d.ts` and `vite.config.ts`. They are styling
  and build configuration.
