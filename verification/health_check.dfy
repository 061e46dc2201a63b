/** The health monitor: three probes (basic, detailed, database) whose answers
    are combined into one "all healthy" signal that gates the wizard's first
    step. The probes run together and fail as a unit, so their outcome is an
    input: either all three answers or the error of the one that failed. */
module Health {
  import opened Wrappers
  import opened Strings
  import opened ApiTypes
  import opened ApiClient

  /** The database probe reports a connection under either field name. */
  predicate DatabaseConnected(db: HealthResponse) {
    db.databaseStatus == Some("connected") || db.database == Some("connected")
  }

  /** The aggregate signal computed from the three answers. */
  predicate AllHealthy(basic: HealthResponse, detailed: HealthResponse, db: HealthResponse) {
    && basic.status == "healthy"
    && detailed.status == "healthy"
    && DatabaseConnected(db)
  }

  /** The component's state. */
  datatype HealthStatus = HealthStatus(
    basic: Option<HealthResponse>,
    detailed: Option<HealthResponse>,
    database: Option<HealthResponse>,
    loading: bool,
    error: Option<string>,
    allHealthy: bool)

  const InitialStatus: HealthStatus := HealthStatus(None, None, None, false, None, false)

  /** Outcome of the joint probe: all three answers, or one failure. */
  datatype ProbeOutcome =
    | Probed(basic: HealthResponse, detailed: HealthResponse, database: HealthResponse)
    | ProbeFailed(error: AxiosError)

  /** Starting a check shows the spinner and clears the error; everything else
      is kept, the previous verdict included. */
  function StartCheck(s: HealthStatus): (r: HealthStatus)
    ensures r.loading && r.error.None?
    ensures r.basic == s.basic && r.detailed == s.detailed && r.database == s.database
    ensures r.allHealthy == s.allHealthy
  {
    s.(loading := true, error := None)
  }

  /** Completing a check. On success the whole status is replaced by the three
      answers and their verdict; on failure the previous answers are kept and
      the verdict becomes false. */
  function FinishCheck(s: HealthStatus, outcome: ProbeOutcome, baseUrl: string): (r: HealthStatus)
    ensures !r.loading
    ensures outcome.Probed? ==>
      && r.basic == Some(outcome.basic)
      && r.detailed == Some(outcome.detailed)
      && r.database == Some(outcome.database)
      && r.error.None?
      && (r.allHealthy <==> AllHealthy(outcome.basic, outcome.detailed, outcome.database))
    ensures outcome.ProbeFailed? ==>
      && r.basic == s.basic && r.detailed == s.detailed && r.database == s.database
      && r.error == Some(HandleApiError(outcome.error, baseUrl))
      && !r.allHealthy
  {
    match outcome
    case Probed(b, d, db) =>
      HealthStatus(Some(b), Some(d), Some(db), false, None, AllHealthy(b, d, db))
    case ProbeFailed(err) =>
      s.(loading := false, error := Some(HandleApiError(err, baseUrl)), allHealthy := false)
  }

  /** `checkAllHealth`: start, then complete with the probes' outcome. */
  function CheckAllHealth(s: HealthStatus, outcome: ProbeOutcome, baseUrl: string): HealthStatus {
    FinishCheck(StartCheck(s), outcome, baseUrl)
  }

  /** The "Proceed to Prediction" button is rendered exactly when the verdict
      is true (even while a refresh is loading). */
  predicate ProceedOffered(s: HealthStatus) {
    s.allHealthy
  }

  /** The status icons of the three cards. */
  predicate BasicCardHealthy(s: HealthStatus) {
    s.basic.Some? && s.basic.value.status == "healthy"
  }

  predicate DetailedCardHealthy(s: HealthStatus) {
    s.detailed.Some? && s.detailed.value.status == "healthy"
  }

  predicate DatabaseCardHealthy(s: HealthStatus) {
    s.database.Some? && DatabaseConnected(s.database.value)
  }

  /** What every status the component reaches satisfies: a true verdict is
      backed by three stored answers that are healthy, and never shown next to
      an error. */
  predicate Consistent(s: HealthStatus) {
    s.allHealthy ==>
      && s.error.None?
      && BasicCardHealthy(s) && DetailedCardHealthy(s) && DatabaseCardHealthy(s)
  }

  /** The initial status is consistent and every check keeps it so. */
  lemma ConsistentInvariant(s: HealthStatus, outcome: ProbeOutcome, baseUrl: string)
    ensures Consistent(InitialStatus)
    ensures Consistent(s) ==> Consistent(StartCheck(s))
    ensures Consistent(FinishCheck(s, outcome, baseUrl))
    ensures Consistent(CheckAllHealth(s, outcome, baseUrl))
  {
  }

  /** Proceeding is offered after a check only if all three probes answered and
      they are healthy; after a successful probe the verdict agrees with the
      three card icons. */
  lemma ProceedOnlyWhenHealthy(s: HealthStatus, outcome: ProbeOutcome, baseUrl: string)
    ensures var r := CheckAllHealth(s, outcome, baseUrl);
      ProceedOffered(r) ==>
        outcome.Probed? && AllHealthy(outcome.basic, outcome.detailed, outcome.database)
    ensures var r := CheckAllHealth(s, outcome, baseUrl);
      outcome.Probed? ==>
        (ProceedOffered(r) <==> BasicCardHealthy(r) && DetailedCardHealthy(r) && DatabaseCardHealthy(r))
  {
  }

  /** A refresh keeps a previous positive verdict (and its button) while it
      loads. */
  lemma ProceedStaysOfferedDuringRefresh(s: HealthStatus)
    requires ProceedOffered(s)
    ensures StartCheck(s).loading && ProceedOffered(StartCheck(s))
  {
  }

  /** `formatUptime`'s result: unknown, or whole hours and minutes. */
  datatype Uptime = UnknownUptime | HoursMinutes(hours: int, minutes: int)

  /** JavaScript's `%`, whose result takes the sign of the dividend. */
  function JsRem(a: int, b: int): (r: int)
    requires b > 0
    ensures a >= 0 ==> 0 <= r < b
    ensures a < 0 ==> -b < r <= 0
    ensures a >= 0 ==> r == a % b
    ensures a - r == b * (if a >= 0 then a / b else -((-a) / b))
  {
    assert (-a) == b * ((-a) / b) + (-a) % b;
    if a >= 0 then a % b else -((-a) % b)
  }

  /** `formatUptime(seconds)`: "Unknown" for an absent or zero value, otherwise
      `Math.floor(s / 3600)` hours and `Math.floor((s % 3600) / 60)` minutes. */
  function FormatUptime(seconds: Option<int>): (r: Uptime)
    ensures r.UnknownUptime? <==> seconds.None? || seconds.value == 0
    ensures r.HoursMinutes? ==> -60 <= r.minutes < 60
    ensures r.HoursMinutes? && seconds.value > 0 ==>
      && 0 <= r.hours && 0 <= r.minutes
      && r.hours * 3600 + r.minutes * 60 <= seconds.value < r.hours * 3600 + r.minutes * 60 + 60
    ensures r.HoursMinutes? ==> r.hours * 3600 <= seconds.value < r.hours * 3600 + 3600
    ensures r.HoursMinutes? ==>
      r.minutes * 60 <= JsRem(seconds.value, 3600) < r.minutes * 60 + 60
  {
    if seconds.None? || seconds.value == 0 then UnknownUptime
    else
      var s := seconds.value;
      HoursMinutes(s / 3600, JsRem(s, 3600) / 60)
  }

  /** `${hours}h ${minutes}m`, or "Unknown". */
  function UptimeText(u: Uptime): (text: string)
    ensures text == "Unknown" <==> u.UnknownUptime?
    ensures u.HoursMinutes? ==> |text| > 3 && text[|text| - 1] == 'm' && (text[0] == '-' <==> u.hours < 0)
    ensures u.HoursMinutes? ==> text == IntToString(u.hours) + "h " + IntToString(u.minutes) + "m"
  {
    match u
    case UnknownUptime => "Unknown"
    case HoursMinutes(h, m) =>
      var text := IntToString(h) + "h " + IntToString(m) + "m";
      assert text[|text| - 1] == 'm' != "Unknown"[6];
      text
  }

  /** The database card's label: `database_status || database || 'Unknown'`,
      where an empty string counts as absent. */
  function DatabaseLabel(db: Option<HealthResponse>): (text: string)
    ensures text != ""
    ensures db.None? ==> text == "Unknown"
    ensures db.Some? && db.value.databaseStatus.GetOr("") != "" ==> text == db.value.databaseStatus.value
    ensures db.Some? && db.value.databaseStatus.GetOr("") == "" && db.value.database.GetOr("") != "" ==>
      text == db.value.database.value
    ensures db.Some? && db.value.databaseStatus.GetOr("") == "" && db.value.database.GetOr("") == "" ==>
      text == "Unknown"
    ensures text == "Unknown"
      || (db.Some? && (db.value.databaseStatus == Some(text) || db.value.database == Some(text)))
  {
    if db.Some? && db.value.databaseStatus.GetOr("") != "" then db.value.databaseStatus.value
    else if db.Some? && db.value.database.GetOr("") != "" then db.value.database.value
    else "Unknown"
  }

  /** A "connected" label implies a green database icon, but not conversely:
      the label prefers `database_status`, the icon accepts either field. */
  lemma LabelAndIcon(h: HealthResponse)
    ensures DatabaseLabel(Some(h)) == "connected" ==> DatabaseConnected(h)
    ensures var mixed := h.(databaseStatus := Some("disconnected"), database := Some("connected"));
      DatabaseConnected(mixed) && DatabaseLabel(Some(mixed)) == "disconnected"
  {
  }
}
