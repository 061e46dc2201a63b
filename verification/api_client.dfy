/** The API client's configuration and its error classifier `handleApiError`.
    The HTTP calls themselves are not modelled: a call's outcome is an input,
    either the returned value or the thrown `AxiosError`. */
module ApiClient {
  import opened Wrappers
  import opened Strings
  import opened ApiTypes

  /** Base URL used when `VITE_API_BASE_URL` is unset or empty. */
  const DefaultBaseUrl: string := "http://127.0.0.1:8000"

  /** `import.meta.env.VITE_API_BASE_URL || DefaultBaseUrl`: an empty value is
      falsy and falls back to the default too. */
  function ApiBaseUrl(env: Option<string>): (url: string)
    ensures url != ""
    ensures env.Some? && env.value != "" ==> url == env.value
    ensures env.None? || env.value == "" ==> url == DefaultBaseUrl
  {
    if env.Some? && env.value != "" then env.value else DefaultBaseUrl
  }

  /** The server's answer to a failed request: status and the body's `detail`. */
  datatype ErrorResponse = ErrorResponse(status: int, detail: Detail)

  /** The parts of an `AxiosError` the classifier reads. `request` says whether a
      request object exists (the request was sent). */
  datatype AxiosError = AxiosError(
    message: string,
    code: Option<string>,
    response: Option<ErrorResponse>,
    request: bool)

  /** Outcome of one API call: the value it resolved to, or the error it threw. */
  datatype CallResult<T> = Returned(value: T) | Threw(error: AxiosError)

  /** The five-way error taxonomy (six buckets: a server error with a string
      detail and one without are told apart). */
  datatype ErrorKind =
    | ServerValidation    // 422 with a list of field errors
    | ServerDetail        // any status with a string detail
    | ServerGeneric       // any other server answer
    | NetworkUnreachable  // no answer, ERR_NETWORK or a CORS failure
    | NetworkNoAnswer     // no answer, any other cause (timeouts included)
    | Unknown             // not even a request was made

  /** The reference classification of an error, in the order the client checks. */
  function Classify(e: AxiosError): ErrorKind {
    if e.response.Some? then
      var resp := e.response.value;
      if resp.status == 422 && resp.detail.DetailList? then ServerValidation
      else if resp.detail.DetailText? then ServerDetail
      else ServerGeneric
    else if e.request then
      if e.code == Some("ERR_NETWORK") || Contains(e.message, "CORS") then NetworkUnreachable
      else NetworkNoAnswer
    else Unknown
  }

  const ValidationPrefix: string := "Validation Error: "
  const NetworkPrefix: string := "Network Error: "
  const UnknownPrefix: string := "Error: "

  /** Stands in for a server detail that is not a string. */
  const GenericDetail: string := "Server error occurred"

  const UnreachableMessage: string :=
    NetworkPrefix + (UnreachableReason + UnreachableAdvice + UnreachableCors)

  const UnreachableReason: string := "Unable to connect to backend server. "
  const UnreachableAdvice: string := "Please ensure the backend is running "
  const UnreachableCors: string := "and CORS is properly configured."

  const NoAnswerText: string :=
    "Unable to connect to server. Please check if the backend is running on "

  /** The path elements of `loc`, as `join` renders them. */
  function LocStrings(loc: seq<LocPart>): (r: seq<string>)
    ensures |r| == |loc|
    ensures forall i :: 0 <= i < |loc| && loc[i].LocName? ==> r[i] == loc[i].name
    ensures forall i :: 0 <= i < |loc| && loc[i].LocIndex? ==> r[i] == IntToString(loc[i].index)
  {
    if loc == [] then []
    else
      var head := match loc[0]
        case LocName(n) => n
        case LocIndex(i) => IntToString(i);
      [head] + LocStrings(loc[1..])
  }

  /** `${err.loc.join('.')}: ${err.msg}`. */
  function FormatItem(item: ValidationItem): string {
    Join(LocStrings(item.loc), ".") + ": " + item.msg
  }

  function FormatItems(items: seq<ValidationItem>): (r: seq<string>)
    ensures |r| == |items|
    ensures forall i :: 0 <= i < |items| ==> r[i] == FormatItem(items[i])
  {
    if items == [] then [] else [FormatItem(items[0])] + FormatItems(items[1..])
  }

  /** The field errors of a 422 answer, in order, separated by ", ". */
  function ValidationSummary(items: seq<ValidationItem>): string {
    Join(FormatItems(items), ", ")
  }

  /** `handleApiError`: the message shown for a failed call. A server answer
      takes precedence over the request flag, which takes precedence over the
      raw message. */
  function HandleApiError(e: AxiosError, baseUrl: string): (msg: string)
    ensures Classify(e) == ServerValidation ==>
      msg == ValidationPrefix + ValidationSummary(e.response.value.detail.items)
    ensures Classify(e) == ServerDetail ==>
      msg == "Error " + IntToString(e.response.value.status) + ": " + e.response.value.detail.text
    ensures Classify(e) == ServerGeneric ==>
      msg == "Error " + IntToString(e.response.value.status) + ": " + GenericDetail
    ensures Classify(e) == NetworkUnreachable ==> msg == UnreachableMessage
    ensures Classify(e) == NetworkNoAnswer ==> msg == NetworkPrefix + (NoAnswerText + baseUrl)
    ensures Classify(e) == Unknown ==> msg == UnknownPrefix + e.message
  {
    match e.response
    case Some(ErrorResponse(status, detail)) =>
      if status == 422 && detail.DetailList? then
        ValidationPrefix + ValidationSummary(detail.items)
      else if detail.DetailText? then
        "Error " + IntToString(status) + ": " + detail.text
      else
        "Error " + IntToString(status) + ": " + GenericDetail
    case None =>
      if e.request then
        if e.code == Some("ERR_NETWORK") || Contains(e.message, "CORS") then UnreachableMessage
        else NetworkPrefix + (NoAnswerText + baseUrl)
      else UnknownPrefix + e.message
  }

  /** Field errors are listed in the order the server sent them: one more item
      appends ", " and its rendering. */
  lemma {:induction false} ValidationSummaryAppend(items: seq<ValidationItem>, last: ValidationItem)
    requires items != []
    ensures ValidationSummary(items + [last]) == ValidationSummary(items) + ", " + FormatItem(last)
  {
    var fs := FormatItems(items + [last]);
    assert fs == FormatItems(items) + [FormatItem(last)];
    JoinAppend(FormatItems(items), FormatItem(last), ", ");
  }

  /** A 422 with one field error at `body.age` renders as
      `Validation Error: body.age: <msg>`. */
  lemma ValidationExample()
    ensures HandleApiError(
      AxiosError("", None,
        Some(ErrorResponse(422, DetailList([ValidationItem([LocName("body"), LocName("age")],
          "value is not a valid integer", "type_error.integer")]))), true),
      DefaultBaseUrl)
      == ValidationPrefix + "body" + "." + "age" + ": " + "value is not a valid integer"
  {
  }

  /** A server message starts with "Error " and the status, never with any of
      the other buckets' prefixes. */
  lemma ServerMessageLead(status: int, rest: string)
    ensures var msg := "Error " + IntToString(status) + ": " + rest;
      !IsPrefix(ValidationPrefix, msg) && !IsPrefix(NetworkPrefix, msg) && !IsPrefix(UnknownPrefix, msg)
  {
    var msg := "Error " + IntToString(status) + ": " + rest;
    assert msg[0] == 'E' && msg[5] == ' ';
    assert ValidationPrefix[0] == 'V' && NetworkPrefix[0] == 'N' && UnknownPrefix[5] == ':';
  }

  /** A message built on a prefix starts with that prefix. */
  lemma PrefixLead(p: string, rest: string)
    ensures IsPrefix(p, p + rest)
  {
  }

  lemma ValidationLead(rest: string)
    ensures var msg := ValidationPrefix + rest;
      IsPrefix(ValidationPrefix, msg) && !IsPrefix(NetworkPrefix, msg) && !IsPrefix(UnknownPrefix, msg)
  {
    PrefixLead(ValidationPrefix, rest);
    assert (ValidationPrefix + rest)[0] == 'V';
  }

  lemma NetworkLead(rest: string)
    ensures var msg := NetworkPrefix + rest;
      !IsPrefix(ValidationPrefix, msg) && IsPrefix(NetworkPrefix, msg) && !IsPrefix(UnknownPrefix, msg)
  {
    PrefixLead(NetworkPrefix, rest);
    assert (NetworkPrefix + rest)[0] == 'N';
  }

  lemma UnknownLead(rest: string)
    ensures var msg := UnknownPrefix + rest;
      !IsPrefix(ValidationPrefix, msg) && !IsPrefix(NetworkPrefix, msg) && IsPrefix(UnknownPrefix, msg)
  {
    PrefixLead(UnknownPrefix, rest);
    assert (UnknownPrefix + rest)[0] == 'E';
  }

  /** The opening words of a message tell which bucket the error fell in:
      server messages carry the status right after "Error ", so they never
      start with "Error: ". */
  lemma {:induction false} PrefixRevealsKind(e: AxiosError, baseUrl: string)
    ensures IsPrefix(ValidationPrefix, HandleApiError(e, baseUrl)) <==> Classify(e) == ServerValidation
    ensures IsPrefix(NetworkPrefix, HandleApiError(e, baseUrl)) <==>
      Classify(e) in {NetworkUnreachable, NetworkNoAnswer}
    ensures IsPrefix(UnknownPrefix, HandleApiError(e, baseUrl)) <==> Classify(e) == Unknown
  {
    var msg := HandleApiError(e, baseUrl);
    var kind := Classify(e);
    if kind == ServerValidation {
      ValidationLead(ValidationSummary(e.response.value.detail.items));
    } else if kind == ServerDetail {
      ServerMessageLead(e.response.value.status, e.response.value.detail.text);
    } else if kind == ServerGeneric {
      ServerMessageLead(e.response.value.status, GenericDetail);
    } else if kind == NetworkUnreachable {
      NetworkLead(UnreachableReason + UnreachableAdvice + UnreachableCors);
    } else if kind == NetworkNoAnswer {
      NetworkLead(NoAnswerText + baseUrl);
    } else {
      UnknownLead(e.message);
    }
  }

  /** When a server answered, neither the request flag, the error code nor the
      raw message matter. */
  lemma ResponseTakesPrecedence(e: AxiosError, code: Option<string>, message: string, request: bool, baseUrl: string)
    requires e.response.Some?
    ensures HandleApiError(e.(code := code, message := message, request := request), baseUrl)
      == HandleApiError(e, baseUrl)
  {
  }

  /** The ERR_NETWORK / CORS message does not name the configured base URL (any
      URL with a '/'), while every other unanswered request does. */
  lemma {:induction false} WhichNetworkMessageNamesBaseUrl(e: AxiosError, baseUrl: string)
    requires '/' in baseUrl
    requires e.response.None? && e.request
    ensures Classify(e) == NetworkUnreachable <==> !Contains(HandleApiError(e, baseUrl), baseUrl)
  {
    var msg := HandleApiError(e, baseUrl);
    if Classify(e) == NetworkUnreachable {
      assert '/' !in NetworkPrefix;
      assert '/' !in UnreachableReason;
      assert '/' !in UnreachableAdvice;
      assert '/' !in UnreachableCors;
      assert '/' !in UnreachableMessage;
      if Contains(msg, baseUrl) {
        ContainsChars(msg, baseUrl, '/');
      }
    } else {
      SuffixContained(NetworkPrefix + NoAnswerText, baseUrl);
      assert msg == (NetworkPrefix + NoAnswerText) + baseUrl;
    }
  }

  /** With the default base URL, or any configured one containing '/', the
      ERR_NETWORK / CORS message is the only unanswered-request message that
      does not name the URL the client is configured with. */
  lemma ConfiguredUrlInNetworkMessages(e: AxiosError, env: Option<string>)
    requires env.None? || env.value == "" || '/' in env.value
    requires e.response.None? && e.request
    ensures Classify(e) == NetworkUnreachable <==> !Contains(HandleApiError(e, ApiBaseUrl(env)), ApiBaseUrl(env))
  {
    assert DefaultBaseUrl[4] == ':' && DefaultBaseUrl[5] == '/';
    WhichNetworkMessageNamesBaseUrl(e, ApiBaseUrl(env));
  }

  lemma {:induction false} SuffixContained(p: string, s: string)
    ensures Contains(p + s, s)
    decreases |p|
  {
    if p == [] {
      assert p + s == s;
      assert IsPrefix(s, s);
    } else {
      assert (p + s)[1..] == p[1..] + s;
      SuffixContained(p[1..], s);
    }
  }
}
