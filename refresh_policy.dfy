/**
  The decisions the session filter takes, written as pure functions over the
  HTTP session's attribute map: when a refresh is due, how the responses of
  the validate and refresh endpoints are read, what one intercepted request
  does to the session and which endpoints it calls, and in which order the
  configuration is checked. The filter's methods are proved against these
  functions.
 */
module RefreshPolicy {
  import opened JavaLang
  import opened OidcClientHelper

  const OIDC_ACCESS_TOKEN_KEY := "oidc-access-token"
  const OIDC_LAST_REFRESHED_DATETIME_KEY := "oidc-last-refreshed-datetime"
  const JNDI_OIDC_SESSION_MANAGEMENT_CONFIG := "java:comp/env/config/OidcSessionManagementConfig"
  const NOT_AVAILABLE := "N/A"
  const OIDC_CLAIM_SUB_KEY := "sub"
  const OIDC_CLIENT_ID_KEY := "client-id"
  /** Minimum age, in seconds, of the last refresh before another one is tried. */
  const REFRESH_WAITING_TIME_IN_SECONDS := 30
  const REST_API_CALL_TIMEOUT_IN_MILLISECONDS := 3000
  /** A validation response containing this means the session is valid. */
  const VALID_MARKER := "true"
  /** A refresh response containing this means the refresh was declined. */
  const NOT_VALID_MARKER := "\"valid\": false"

  const FILTER_CONFIG_NULL_MESSAGE := "FilterConfig is null"
  const CONFIG_NOT_FOUND_MESSAGE := "Could not find the named object: " + JNDI_OIDC_SESSION_MANAGEMENT_CONFIG
  const REQUEST_NULL_MESSAGE := "Request is null"

  /** A session attribute: the access token, or the last-refreshed date-time in seconds. */
  datatype Value = Text(text: string) | DateTime(seconds: int)

  type Attributes = map<string, Value>

  /**
    How an outbound POST of the fluent HTTP client ended: an IOException
    (including the one raised for an error status), a response without an
    entity, for which `returnContent()` gives null so that the chained
    `asString()` throws NullPointerException, or the content as a string,
    which is never null.
   */
  datatype CallOutcome = TransportFailure | NoContent | Body(content: string)

  /** A request header; a null value is sent as given. */
  datatype Header = Header(name: string, value: Option<string>)

  /** One outbound POST: its URL, its headers in order and its connect timeout. */
  datatype Call = Post(url: string, headers: seq<Header>, connectTimeoutMillis: int)

  /** The configuration bean, and the four settings the filter caches from it. */
  datatype OidcSessionManagementConfig = OidcSessionManagementConfig(
    baseUrl: Option<string>,
    validateSessionContextPath: Option<string>,
    refreshSessionContextPath: Option<string>,
    oidcClientId: Option<string>)

  /** What the name-service lookup of the configuration gave. */
  datatype LookupOutcome =
    | NamingFailure(explanation: string)        // NamingException
    | NullObject                                // null: nothing bound under the name
    | OtherType                                 // an object that is not a configuration: the cast fails
    | Found(config: OidcSessionManagementConfig)

  /** The exception `init` and `doFilter` throw: one built from a cause, or from a message. */
  datatype FilterException = Caused(cause: Exception) | Failed(message: string)

  /** What leaves `init`: a FilterException, or an unchecked exception nothing catches. */
  datatype InitFailure = Filter(filterException: FilterException) | Unchecked(exception: Exception)

  /** The four settings, in the order `init` checks them. */
  datatype ConfigField = BaseUrl | ValidateSessionContextPath | RefreshSessionContextPath | OidcClientId

  function Rank(f: ConfigField): nat {
    match f
    case BaseUrl => 0
    case ValidateSessionContextPath => 1
    case RefreshSessionContextPath => 2
    case OidcClientId => 3
  }

  function Field(c: OidcSessionManagementConfig, f: ConfigField): Option<string> {
    match f
    case BaseUrl => c.baseUrl
    case ValidateSessionContextPath => c.validateSessionContextPath
    case RefreshSessionContextPath => c.refreshSessionContextPath
    case OidcClientId => c.oidcClientId
  }

  function BlankFieldMessage(f: ConfigField): string {
    match f
    case BaseUrl => "baseUrl is null or empty"
    case ValidateSessionContextPath => "validateSessionContextPath is null or empty"
    case RefreshSessionContextPath => "refreshSessionContextPath is null or empty"
    case OidcClientId => "oidcClientId is null or empty"
  }

  /** The setting on which `init` stops, if any: the first blank one in check order. */
  function FirstBlankField(c: OidcSessionManagementConfig): (first: Option<ConfigField>)
    ensures first.None? <==> forall f :: !IsBlank(Field(c, f))
    ensures first.Some? ==> IsBlank(Field(c, first.value))
    ensures first.Some? ==> forall f :: Rank(f) < Rank(first.value) ==> !IsBlank(Field(c, f))
  {
    if IsBlank(Field(c, BaseUrl)) then Some(BaseUrl)
    else if IsBlank(Field(c, ValidateSessionContextPath)) then Some(ValidateSessionContextPath)
    else if IsBlank(Field(c, RefreshSessionContextPath)) then Some(RefreshSessionContextPath)
    else if IsBlank(Field(c, OidcClientId)) then Some(OidcClientId)
    else None
  }

  /** `init` assigns a setting before checking it, so every setting up to the failing one is assigned. */
  predicate Assigned(first: Option<ConfigField>, f: ConfigField) {
    first.None? || Rank(f) <= Rank(first.value)
  }

  // ---------------------------------------------------------------------------
  // The refresh gate

  /** The gate's answer and the attributes it leaves behind. */
  datatype GateResult = GateResult(due: Result<bool, Exception>, attributes: Attributes)

  /**
    Whether it is time to refresh: only when a last-refreshed date-time is
    stored and is strictly more than the waiting time old. On first contact
    it stores `now` as the baseline; it never changes any other attribute.
   */
  function RefreshGate(attributes: Attributes, now: int): (r: GateResult)
    ensures r.due == Success(true) <==>
              && OIDC_LAST_REFRESHED_DATETIME_KEY in attributes
              && attributes[OIDC_LAST_REFRESHED_DATETIME_KEY].DateTime?
              && now - attributes[OIDC_LAST_REFRESHED_DATETIME_KEY].seconds > REFRESH_WAITING_TIME_IN_SECONDS
    ensures r.due.Failure? <==>
              OIDC_LAST_REFRESHED_DATETIME_KEY in attributes && attributes[OIDC_LAST_REFRESHED_DATETIME_KEY].Text?
    ensures r.due.Failure? ==> r.due.error == ClassCast
    ensures r.attributes - {OIDC_LAST_REFRESHED_DATETIME_KEY} == attributes - {OIDC_LAST_REFRESHED_DATETIME_KEY}
    ensures r.attributes != attributes <==> OIDC_LAST_REFRESHED_DATETIME_KEY !in attributes
    ensures OIDC_LAST_REFRESHED_DATETIME_KEY !in attributes ==>
              && r.due == Success(false)
              && OIDC_LAST_REFRESHED_DATETIME_KEY in r.attributes
              && r.attributes[OIDC_LAST_REFRESHED_DATETIME_KEY] == DateTime(now)
  {
    if OIDC_LAST_REFRESHED_DATETIME_KEY !in attributes then
      GateResult(Success(false), attributes[OIDC_LAST_REFRESHED_DATETIME_KEY := DateTime(now)])
    else
      match attributes[OIDC_LAST_REFRESHED_DATETIME_KEY]
      case Text(_) => GateResult(Failure(ClassCast), attributes)
      case DateTime(last) => GateResult(Success(last + REFRESH_WAITING_TIME_IN_SECONDS < now), attributes)
  }

  // ---------------------------------------------------------------------------
  // Reading the endpoints' responses

  /**
    The validation verdict: valid exactly when the content contains "true";
    a transport failure counts as not valid and is not propagated; a null
    content makes `asString()` throw NullPointerException, which is not caught.
   */
  function ValidationResult(response: CallOutcome): (valid: Result<bool, Exception>)
    ensures valid == Success(true) <==> response.Body? && exists i :: OccursAt(response.content, VALID_MARKER, i)
    ensures valid.Failure? <==> response.NoContent?
    ensures valid.Failure? ==> valid.error.NullPointer?
  {
    match response
    case TransportFailure => Success(false)
    case NoContent => Failure(NullPointer(None))
    case Body(content) => Success(Contains(content, VALID_MARKER))
  }

  /** Whether the refresh succeeded, or what it threw, and the attributes after it. */
  datatype RefreshResult = RefreshResult(refreshed: Result<bool, Exception>, attributes: Attributes)

  /**
    A refresh that returned content, whatever it says, stamps the
    last-refreshed date-time with `now`; it succeeded when the content lacks
    `"valid": false`. One that failed in transport is caught and leaves the
    session as it was. One without content throws NullPointerException from
    `asString()` before the stamp, and nothing in the method catches it. The
    method's `response != null` guard therefore always holds.
   */
  function RefreshOutcome(attributes: Attributes, response: CallOutcome, now: int): (r: RefreshResult)
    ensures r.refreshed == Success(true) <==>
              response.Body? && !exists i :: OccursAt(response.content, NOT_VALID_MARKER, i)
    ensures r.refreshed.Failure? <==> response.NoContent?
    ensures r.refreshed.Failure? ==> r.refreshed.error.NullPointer?
    ensures !response.Body? ==> r.attributes == attributes
    ensures response.Body? ==>
              && r.attributes.Keys == attributes.Keys + {OIDC_LAST_REFRESHED_DATETIME_KEY}
              && r.attributes[OIDC_LAST_REFRESHED_DATETIME_KEY] == DateTime(now)
    ensures r.attributes - {OIDC_LAST_REFRESHED_DATETIME_KEY} == attributes - {OIDC_LAST_REFRESHED_DATETIME_KEY}
  {
    match response
    case TransportFailure => RefreshResult(Success(false), attributes)
    case NoContent => RefreshResult(Failure(NullPointer(None)), attributes)
    case Body(content) =>
      RefreshResult(Success(!Contains(content, NOT_VALID_MARKER)),
                    attributes[OIDC_LAST_REFRESHED_DATETIME_KEY := DateTime(now)])
  }

  // ---------------------------------------------------------------------------
  // One intercepted request

  /** Java's `baseUrl + path`, where a null part reads "null". */
  function Url(baseUrl: Option<string>, path: Option<string>): (url: string)
    ensures |url| == |JavaString(baseUrl)| + |JavaString(path)|
    ensures baseUrl.Some? ==> url[..|baseUrl.value|] == baseUrl.value
    ensures baseUrl.None? ==> url[..4] == "null"
    ensures path.Some? ==> url[|url| - |path.value|..] == path.value
    ensures path.None? ==> url[|url| - 4..] == "null"
  {
    var prefix, suffix := JavaString(baseUrl), JavaString(path);
    assert (prefix + suffix)[..|prefix|] == prefix;
    assert (prefix + suffix)[|prefix|..] == suffix;
    prefix + suffix
  }

  /** The two headers both POSTs carry: the session reference, then the client id. */
  function SessionHeaders(sessionRef: string, clientId: Option<string>): seq<Header> {
    [Header(OIDC_SESSION_REF_KEY, Some(sessionRef)), Header(OIDC_CLIENT_ID_KEY, clientId)]
  }

  function ValidateCall(settings: OidcSessionManagementConfig, sessionRef: string): Call {
    Post(Url(settings.baseUrl, settings.validateSessionContextPath), SessionHeaders(sessionRef, settings.oidcClientId),
         REST_API_CALL_TIMEOUT_IN_MILLISECONDS)
  }

  function RefreshCall(settings: OidcSessionManagementConfig, sessionRef: string): Call {
    Post(Url(settings.baseUrl, settings.refreshSessionContextPath), SessionHeaders(sessionRef, settings.oidcClientId),
         REST_API_CALL_TIMEOUT_IN_MILLISECONDS)
  }

  /** How the body of `doFilter` ended before the chain was invoked. */
  datatype Path =
    | NoAccessToken                          // early return: no token in the container session
    | NullPointerCaught                      // catch (NullPointerException)
    | IllegalArgumentCaught(message: string) // catch (IllegalArgumentException)
    | ExceptionCaught                        // catch (Exception)
    | RecentlyRefreshed                      // the gate said not due
    | SessionNotValid                        // validation said not valid
    | RefreshAttempted(refreshed: bool)      // refresh was called; whether it succeeded

  /**
    The handler of `doFilter` that catches an exception: the clauses are
    tried in order, and the last one catches whatever the first two do not.
   */
  function Caught(e: Exception): (p: Path)
    ensures p.NullPointerCaught? <==> e.NullPointer?
    ensures p.IllegalArgumentCaught? <==> e.IllegalArgument?
    ensures p.IllegalArgumentCaught? ==> p.message == e.message
    ensures p.ExceptionCaught? <==> !e.NullPointer? && !e.IllegalArgument?
  {
    match e
    case NullPointer(_) => NullPointerCaught
    case IllegalArgument(message) => IllegalArgumentCaught(message)
    case _ => ExceptionCaught
  }

  /** `Map.getOrDefault`. */
  function GetOrDefault(m: map<string, string>, key: string, default: string): (v: string)
    ensures key in m ==> v == m[key]
    ensures key !in m ==> v == default
  {
    if key in m then m[key] else default
  }

  /** The stored access token can be decoded: it is a non-blank string. */
  predicate HasUsableToken(attributes: Attributes) {
    && OIDC_ACCESS_TOKEN_KEY in attributes
    && attributes[OIDC_ACCESS_TOKEN_KEY].Text?
    && !IsBlank(Some(attributes[OIDC_ACCESS_TOKEN_KEY].text))
  }

  /** What one request did: the path taken, the session afterwards and the POSTs issued. */
  datatype Interception = Interception(path: Path, attributes: Attributes, calls: seq<Call>)

  /**
    The body of `doFilter` for a request whose container session holds
    `attributes`, with the filter's cached `settings`, the clock read by the
    gate and by the refresh, and the two endpoints' responses.
   */
  function Intercept(settings: OidcSessionManagementConfig, attributes: Attributes, gateNow: int, refreshNow: int,
                     validateResponse: CallOutcome, refreshResponse: CallOutcome): (r: Interception)
    // the last-refreshed date-time is the only attribute that may change, and only on first contact or by a refresh
    ensures r.attributes - {OIDC_LAST_REFRESHED_DATETIME_KEY} == attributes - {OIDC_LAST_REFRESHED_DATETIME_KEY}
    ensures r.attributes != attributes ==>
              || (r.path == RecentlyRefreshed && HasUsableToken(attributes)
                  && OIDC_LAST_REFRESHED_DATETIME_KEY !in attributes
                  && r.attributes == attributes[OIDC_LAST_REFRESHED_DATETIME_KEY := DateTime(gateNow)])
              || (r.path.RefreshAttempted? && refreshResponse.Body?
                  && r.attributes == attributes[OIDC_LAST_REFRESHED_DATETIME_KEY := DateTime(refreshNow)])
    ensures HasUsableToken(attributes) && OIDC_LAST_REFRESHED_DATETIME_KEY !in attributes ==>
              r.attributes == attributes[OIDC_LAST_REFRESHED_DATETIME_KEY := DateTime(gateNow)]
    // validation is called exactly when the token decodes and the gate is due
    ensures r.calls != [] <==> HasUsableToken(attributes) && RefreshGate(attributes, gateNow).due == Success(true)
    ensures r.calls != [] ==> r.calls[0] == ValidateCall(settings, STUB_OIDC_SESSION_REF)
    // how the validation verdict decides the request
    ensures |r.calls| == 1 ==> r.attributes == attributes
    ensures |r.calls| == 1 && ValidationResult(validateResponse) == Success(false) ==> r.path == SessionNotValid
    ensures |r.calls| == 1 && ValidationResult(validateResponse).Failure? ==> r.path == NullPointerCaught
    // refresh is called exactly when validation said valid, always with the decoded session reference
    ensures |r.calls| <= 2
    ensures |r.calls| == 2 <==> r.calls != [] && ValidationResult(validateResponse) == Success(true)
    ensures |r.calls| == 2 ==>
              && r.calls[1] == RefreshCall(settings, STUB_OIDC_SESSION_REF)
              && r.attributes == RefreshOutcome(attributes, refreshResponse, refreshNow).attributes
    ensures |r.calls| == 2 && refreshResponse.NoContent? ==> r.path == NullPointerCaught
    ensures r.path.RefreshAttempted? <==> |r.calls| == 2 && !refreshResponse.NoContent?
    ensures r.path.RefreshAttempted? ==>
              Success(r.path.refreshed) == RefreshOutcome(attributes, refreshResponse, refreshNow).refreshed
    ensures r.path == SessionNotValid ==> r.attributes == attributes
    // each outcome of the gate and of validation, tied to its cause
    ensures r.path == RecentlyRefreshed <==>
              HasUsableToken(attributes) && RefreshGate(attributes, gateNow).due == Success(false)
    ensures r.path == SessionNotValid <==>
              && HasUsableToken(attributes) && RefreshGate(attributes, gateNow).due == Success(true)
              && ValidationResult(validateResponse) == Success(false)
    ensures r.path == ExceptionCaught <==>
              || (OIDC_ACCESS_TOKEN_KEY in attributes && attributes[OIDC_ACCESS_TOKEN_KEY].DateTime?)
              || (HasUsableToken(attributes) && RefreshGate(attributes, gateNow).due.Failure?)
    ensures r.path == ExceptionCaught ==> r.attributes == attributes && r.calls == []
    // the early exits
    ensures r.path == NoAccessToken <==> OIDC_ACCESS_TOKEN_KEY !in attributes
    ensures r.path.IllegalArgumentCaught? <==>
              && OIDC_ACCESS_TOKEN_KEY in attributes && attributes[OIDC_ACCESS_TOKEN_KEY].Text?
              && IsBlank(Some(attributes[OIDC_ACCESS_TOKEN_KEY].text))
    ensures r.path.IllegalArgumentCaught? ==> r.path.message == NO_ID_TOKEN_MESSAGE
  {
    if OIDC_ACCESS_TOKEN_KEY !in attributes then Interception(NoAccessToken, attributes, [])
    else match attributes[OIDC_ACCESS_TOKEN_KEY]
      case DateTime(_) => Interception(ExceptionCaught, attributes, [])
      case Text(accessToken) =>
        ClaimsOfAccessToken(Some(accessToken));
        match GetJwtClaimsFromIdTokenAsMap(GetIdTokenFromAccessToken(Some(accessToken)))
        case Failure(e) => Interception(Caught(e), attributes, [])
        case Success(claims) =>
          var oidcSessionRef := GetOrDefault(claims, OIDC_SESSION_REF_KEY, NOT_AVAILABLE);
          var gate := RefreshGate(attributes, gateNow);
          match gate.due
          case Failure(e) => Interception(Caught(e), gate.attributes, [])
          case Success(false) => Interception(RecentlyRefreshed, gate.attributes, [])
          case Success(true) =>
            ValidateThenRefresh(settings, gate.attributes, oidcSessionRef, refreshNow, validateResponse, refreshResponse)
  }

  /** The part of a request once the gate said due: validate, then refresh if valid. */
  function ValidateThenRefresh(settings: OidcSessionManagementConfig, attributes: Attributes, oidcSessionRef: string,
                               refreshNow: int, validateResponse: CallOutcome, refreshResponse: CallOutcome)
    : Interception
  {
    var validate := ValidateCall(settings, oidcSessionRef);
    match ValidationResult(validateResponse)
    case Failure(e) => Interception(Caught(e), attributes, [validate])
    case Success(false) => Interception(SessionNotValid, attributes, [validate])
    case Success(true) =>
      var refresh := RefreshOutcome(attributes, refreshResponse, refreshNow);
      var calls := [validate, RefreshCall(settings, oidcSessionRef)];
      match refresh.refreshed
      case Failure(e) => Interception(Caught(e), refresh.attributes, calls)
      case Success(refreshed) => Interception(RefreshAttempted(refreshed), refresh.attributes, calls)
  }

  // ---------------------------------------------------------------------------
  // Properties that relate several steps

  /** The waiting-time boundary the tests pin: 29 and 30 seconds are not due, 31 is. */
  lemma GateAtTestedAges(attributes: Attributes, now: int)
    ensures RefreshGate(attributes[OIDC_LAST_REFRESHED_DATETIME_KEY := DateTime(now - 29)], now).due == Success(false)
    ensures RefreshGate(attributes[OIDC_LAST_REFRESHED_DATETIME_KEY := DateTime(now - 30)], now).due == Success(false)
    ensures RefreshGate(attributes[OIDC_LAST_REFRESHED_DATETIME_KEY := DateTime(now - 31)], now).due == Success(true)
  {
  }

  /** Once due, the gate stays due as the clock advances, until something rewrites the date-time. */
  lemma GateStaysDue(attributes: Attributes, now: int, later: int)
    requires RefreshGate(attributes, now).due == Success(true)
    requires now <= later
    ensures RefreshGate(attributes, later).due == Success(true)
  {
  }

  /** The baseline written on first contact starts the waiting time: a later gate is due only after it. */
  lemma BaselineStartsWait(attributes: Attributes, now: int, later: int)
    requires OIDC_LAST_REFRESHED_DATETIME_KEY !in attributes
    ensures var first := RefreshGate(attributes, now);
            && RefreshGate(first.attributes, later).due == Success(later - now > REFRESH_WAITING_TIME_IN_SECONDS)
            && RefreshGate(first.attributes, later).attributes == first.attributes
  {
  }

  /**
    A refresh that returned content restarts the waiting time even when the backend
    declined it, so the gate is not due again for another 30 seconds.
   */
  lemma CompletedRefreshRestartsWait(attributes: Attributes, response: CallOutcome, now: int, later: int)
    requires response.Body?
    ensures RefreshGate(RefreshOutcome(attributes, response, now).attributes, later).due
            == Success(later - now > REFRESH_WAITING_TIME_IN_SECONDS)
  {
  }

  /**
    A refresh that failed in transport, or threw for want of content, leaves
    the gate open, so the next request retries.
   */
  lemma FailedRefreshKeepsRefreshDue(attributes: Attributes, response: CallOutcome, gateNow: int, refreshNow: int,
                                     later: int)
    requires !response.Body?
    requires RefreshGate(attributes, gateNow).due == Success(true)
    requires gateNow <= later
    ensures RefreshGate(RefreshOutcome(attributes, response, refreshNow).attributes, later).due == Success(true)
  {
  }

  /** On a session's first observation no endpoint is called; only the baseline is recorded. */
  lemma FirstContactOnlyRecordsBaseline(settings: OidcSessionManagementConfig, attributes: Attributes, gateNow: int,
                                        refreshNow: int, validateResponse: CallOutcome, refreshResponse: CallOutcome)
    requires HasUsableToken(attributes)
    requires OIDC_LAST_REFRESHED_DATETIME_KEY !in attributes
    ensures var r := Intercept(settings, attributes, gateNow, refreshNow, validateResponse, refreshResponse);
            && r.path == RecentlyRefreshed
            && r.calls == []
            && r.attributes == attributes[OIDC_LAST_REFRESHED_DATETIME_KEY := DateTime(gateNow)]
  {
  }

  /**
    After a request whose refresh call was answered with content, requests within the next 30
    seconds call no endpoint, whatever the refresh content said.
   */
  lemma NoCallsWithinWaitAfterRefresh(settings: OidcSessionManagementConfig, attributes: Attributes, gateNow: int,
                                      refreshNow: int, validateResponse: CallOutcome, refreshResponse: CallOutcome,
                                      later: int, laterResponse: CallOutcome)
    requires HasUsableToken(attributes) && RefreshGate(attributes, gateNow).due == Success(true)
    requires ValidationResult(validateResponse) == Success(true)
    requires refreshResponse.Body?
    requires later - refreshNow <= REFRESH_WAITING_TIME_IN_SECONDS
    ensures Intercept(settings, Intercept(settings, attributes, gateNow, refreshNow, validateResponse, refreshResponse).attributes,
                      later, later, laterResponse, laterResponse).calls == []
  {
  }

  // ---------------------------------------------------------------------------
  // Worked scenarios

  /** A session holding a usable access token and a last-refreshed date-time. */
  function SessionAged(token: string, last: int): Attributes {
    map[OIDC_ACCESS_TOKEN_KEY := Text(token), OIDC_LAST_REFRESHED_DATETIME_KEY := DateTime(last)]
  }

  /**
    Last refreshed 45 seconds ago, validation answers "true" and refresh
    answers {"valid": true}: both endpoints are called, the refresh succeeds
    and the date-time becomes the refresh time.
   */
  lemma ScenarioDueValidRefreshed(settings: OidcSessionManagementConfig, last: int)
    ensures Intercept(settings, SessionAged("faked-token", last), last + 45, last + 45,
                      Body("\"true\""), Body("{\"valid\": true}"))
            == Interception(RefreshAttempted(true), SessionAged("faked-token", last + 45),
                            [ValidateCall(settings, STUB_OIDC_SESSION_REF), RefreshCall(settings, STUB_OIDC_SESSION_REF)])
  {
    var attributes := SessionAged("faked-token", last);
    assert !IsWhitespace("faked-token"[0]);
    assert OccursAt("\"true\"", VALID_MARKER, 1);
    var accepted := "{\"valid\": true}";
    assert accepted[..14] != NOT_VALID_MARKER by {
      assert accepted[..14][0] != NOT_VALID_MARKER[0];
    }
    assert accepted[1..][..14] != NOT_VALID_MARKER by {
      assert accepted[1..][..14][10] != NOT_VALID_MARKER[10];
    }
    assert !Contains(accepted[1..][1..], NOT_VALID_MARKER);
    assert attributes[OIDC_LAST_REFRESHED_DATETIME_KEY := DateTime(last + 45)] == SessionAged("faked-token", last + 45);
  }

  /** Last refreshed 10 seconds ago: no endpoint is called and the session is unchanged. */
  lemma ScenarioRecentlyRefreshed(settings: OidcSessionManagementConfig, last: int, validateResponse: CallOutcome,
                                  refreshResponse: CallOutcome)
    ensures Intercept(settings, SessionAged("faked-token", last), last + 10, last + 10, validateResponse, refreshResponse)
            == Interception(RecentlyRefreshed, SessionAged("faked-token", last), [])
  {
  }

  /**
    The validation call fails in transport: the session counts as not valid,
    refresh is not called and the date-time is untouched.
   */
  lemma ScenarioValidateTransportFailure(settings: OidcSessionManagementConfig, last: int, now: int,
                                         refreshResponse: CallOutcome)
    requires now - last > REFRESH_WAITING_TIME_IN_SECONDS
    ensures Intercept(settings, SessionAged("faked-token", last), now, now, TransportFailure, refreshResponse)
            == Interception(SessionNotValid, SessionAged("faked-token", last), [ValidateCall(settings, STUB_OIDC_SESSION_REF)])
  {
  }
}
