/**
  The session filter as an object: its four cached settings, which `init`
  assigns one by one, and the request handling of `doFilter`, which reads and
  writes the container's HTTP session in place and always hands the request
  on to the filter chain. Each method is proved against the pure functions
  of RefreshPolicy.
 */
module OidcSession {
  import opened JavaLang
  import opened RefreshPolicy

  /** The container's HTTP session: a mutable attribute map. */
  class HttpSession {
    var attributes: Attributes

    constructor (attributes: Attributes)
      ensures this.attributes == attributes
    {
      this.attributes := attributes;
    }

    method SetAttribute(key: string, value: Value)
      modifies this
      ensures attributes == old(attributes)[key := value]
    {
      attributes := attributes[key := value];
    }
  }

  /**
    An incoming request; `session` is what `getSession()` returns, possibly
    null. The filter calls `getSession()` on its request type, although that
    type declares no such method.
   */
  class Request {
    const session: HttpSession?

    constructor (session: HttpSession?)
      ensures this.session == session
    {
      this.session := session;
    }
  }

  /** The rest of the filter chain, seen only through the requests handed on to it. */
  class FilterChain {
    var forwarded: seq<Request>

    constructor ()
      ensures forwarded == []
    {
      forwarded := [];
    }

    method DoFilter(request: Request)
      modifies this
      ensures forwarded == old(forwarded) + [request]
    {
      forwarded := forwarded + [request];
    }
  }

  class SessionFilter {
    var baseUrl: Option<string>
    var validateSessionContextPath: Option<string>
    var refreshSessionContextPath: Option<string>
    var oidcClientId: Option<string>
    /** The outbound POSTs issued so far, in order: a record of traffic, not program state. */
    ghost var sent: seq<Call>

    constructor ()
      ensures Settings() == OidcSessionManagementConfig(None, None, None, None)
      ensures sent == []
    {
      baseUrl := None;
      validateSessionContextPath := None;
      refreshSessionContextPath := None;
      oidcClientId := None;
      sent := [];
    }

    /** The four cached settings as one record. */
    function Settings(): OidcSessionManagementConfig
      reads this
    {
      OidcSessionManagementConfig(baseUrl, validateSessionContextPath, refreshSessionContextPath, oidcClientId)
    }

    /** The cached base URL; null until `init` has assigned it. */
    function GetBaseUrl(): (v: Option<string>)
      reads this
      ensures v == Settings().baseUrl
    {
      baseUrl
    }

    /** The cached validate path; null until `init` has assigned it. */
    function GetValidateSessionContextPath(): (v: Option<string>)
      reads this
      ensures v == Settings().validateSessionContextPath
    {
      validateSessionContextPath
    }

    /** The cached refresh path; null until `init` has assigned it. */
    function GetRefreshSessionContextPath(): (v: Option<string>)
      reads this
      ensures v == Settings().refreshSessionContextPath
    {
      refreshSessionContextPath
    }

    /**
      Initialization. `hasFilterConfig` says whether the filter configuration
      handle is non-null; `lookup` is what the name-service lookup of the
      configuration object gave. The checks run in a fixed order and the
      first failing one throws; each setting is assigned before it is checked.
      An object of the wrong type makes the cast throw ClassCastException,
      which leaves `init` as it is.
     */
    method Init(hasFilterConfig: bool, lookup: LookupOutcome) returns (r: Outcome<InitFailure>)
      modifies this`baseUrl, this`validateSessionContextPath, this`refreshSessionContextPath, this`oidcClientId
      ensures !hasFilterConfig ==>
                r == Fail(Filter(Caused(IllegalArgument(FILTER_CONFIG_NULL_MESSAGE)))) && Settings() == old(Settings())
      ensures hasFilterConfig && lookup.NamingFailure? ==>
                r == Fail(Filter(Caused(Naming(lookup.explanation)))) && Settings() == old(Settings())
      ensures hasFilterConfig && lookup.NullObject? ==>
                r == Fail(Filter(Failed(CONFIG_NOT_FOUND_MESSAGE))) && Settings() == old(Settings())
      ensures hasFilterConfig && lookup.OtherType? ==>
                r == Fail(Unchecked(ClassCast)) && Settings() == old(Settings())
      ensures hasFilterConfig && lookup.Found? ==>
                var first := FirstBlankField(lookup.config);
                && (r.Pass? <==> first.None?)
                && (first.Some? ==> r == Fail(Filter(Failed(BlankFieldMessage(first.value)))))
                && forall f :: Field(Settings(), f) ==
                                 if Assigned(first, f) then Field(lookup.config, f) else Field(old(Settings()), f)
      ensures r.Pass? ==>
                && lookup.Found? && Settings() == lookup.config
                && !IsBlank(GetBaseUrl()) && !IsBlank(GetValidateSessionContextPath())
                && !IsBlank(GetRefreshSessionContextPath()) && !IsBlank(oidcClientId)
    {
      if !hasFilterConfig {
        return Fail(Filter(Caused(IllegalArgument(FILTER_CONFIG_NULL_MESSAGE))));
      }
      var config: OidcSessionManagementConfig;
      match lookup {
        case NamingFailure(explanation) =>
          return Fail(Filter(Caused(Naming(explanation))));
        case NullObject =>
          return Fail(Filter(Failed(CONFIG_NOT_FOUND_MESSAGE)));
        case OtherType =>
          return Fail(Unchecked(ClassCast));
        case Found(c) =>
          config := c;
      }
      baseUrl := config.baseUrl;
      if IsBlank(baseUrl) {
        return Fail(Filter(Failed(BlankFieldMessage(BaseUrl))));
      }
      validateSessionContextPath := config.validateSessionContextPath;
      if IsBlank(validateSessionContextPath) {
        return Fail(Filter(Failed(BlankFieldMessage(ValidateSessionContextPath))));
      }
      refreshSessionContextPath := config.refreshSessionContextPath;
      if IsBlank(refreshSessionContextPath) {
        return Fail(Filter(Failed(BlankFieldMessage(RefreshSessionContextPath))));
      }
      oidcClientId := config.oidcClientId;
      if IsBlank(oidcClientId) {
        return Fail(Filter(Failed(BlankFieldMessage(OidcClientId))));
      }
      r := Pass;
    }

    /** The refresh gate, reading the clock once as `now`. */
    method IsTimeToRefreshOidcSession(session: HttpSession?, now: int) returns (due: Result<bool, Exception>)
      modifies session
      ensures session == null ==> due == Success(false)
      ensures session != null ==>
                && due == RefreshGate(old(session.attributes), now).due
                && session.attributes == RefreshGate(old(session.attributes), now).attributes
    {
      if session == null {
        return Success(false);
      }
      if OIDC_LAST_REFRESHED_DATETIME_KEY !in session.attributes {
        session.SetAttribute(OIDC_LAST_REFRESHED_DATETIME_KEY, DateTime(now));
        return Success(false);
      }
      match session.attributes[OIDC_LAST_REFRESHED_DATETIME_KEY] {
        case Text(_) =>
          due := Failure(ClassCast);  // the stored value is not a date-time
        case DateTime(lastRefreshed) =>
          due := Success(lastRefreshed + REFRESH_WAITING_TIME_IN_SECONDS < now);
      }
    }

    /**
      The validation POST, whose outcome is `response`. An IOException is
      caught and reads as not valid; anything else propagates.
     */
    method ValidateOidcSession(sub: string, oidcSessionRef: string, response: CallOutcome)
      returns (valid: Result<bool, Exception>)
      modifies this`sent
      ensures sent == old(sent) + [ValidateCall(Settings(), oidcSessionRef)]
      ensures valid == ValidationResult(response)
    {
      sent := sent + [ValidateCall(Settings(), oidcSessionRef)];
      match response {
        case TransportFailure =>
          valid := Success(false);
        case NoContent =>
          valid := Failure(NullPointer(None));  // asString() on the null content
        case Body(content) =>
          valid := Success(Contains(content, VALID_MARKER));
      }
    }

    /**
      The refresh POST, whose outcome is `response`, with the clock read as
      `now` once the call returns content. Returns the success flag the Java
      method logs, or the exception that escapes it.
     */
    method TryRefreshOidcSession(sub: string, oidcSessionRef: string, session: HttpSession, response: CallOutcome,
                                 now: int)
      returns (refreshed: Result<bool, Exception>)
      modifies this`sent, session
      ensures sent == old(sent) + [RefreshCall(Settings(), oidcSessionRef)]
      ensures refreshed == RefreshOutcome(old(session.attributes), response, now).refreshed
      ensures session.attributes == RefreshOutcome(old(session.attributes), response, now).attributes
    {
      var isSessionRefreshed := false;
      sent := sent + [RefreshCall(Settings(), oidcSessionRef)];
      match response {
        case TransportFailure =>
          // IOException: caught and logged; the date-time is not written
        case NoContent =>
          return Failure(NullPointer(None));  // asString() on the null content, before the stamp
        case Body(content) =>
          session.SetAttribute(OIDC_LAST_REFRESHED_DATETIME_KEY, DateTime(now));
          if !Contains(content, NOT_VALID_MARKER) {
            isSessionRefreshed := true;
          }
      }
      refreshed := Success(isSessionRefreshed);
    }

    /**
      The guarded body of `doFilter` for the session the request holds: every
      exception it raises is caught, and the handler that caught it is the
      path returned. `gateNow` and `refreshNow` are the two clock readings,
      the responses are the outcomes of the two POSTs should they be made.
     */
    method HandleSession(session: HttpSession?, gateNow: int, refreshNow: int,
                         validateResponse: CallOutcome, refreshResponse: CallOutcome)
      returns (path: Path)
      modifies this`sent, session
      ensures session == null ==> path == NullPointerCaught && sent == old(sent)
      ensures session != null ==>
                var i := Intercept(Settings(), old(session.attributes), gateNow, refreshNow,
                                   validateResponse, refreshResponse);
                && path == i.path
                && session.attributes == i.attributes
                && sent == old(sent) + i.calls
    {
      if session == null {
        return NullPointerCaught;  // getAttribute on a null session
      }
      if OIDC_ACCESS_TOKEN_KEY !in session.attributes {
        return NoAccessToken;  // the early return
      }
      var accessToken: string;
      match session.attributes[OIDC_ACCESS_TOKEN_KEY] {
        case DateTime(_) =>
          return ExceptionCaught;  // the cast to String fails
        case Text(token) =>
          accessToken := token;
      }
      var idToken := OidcClientHelper.GetIdTokenFromAccessToken(Some(accessToken));
      var claimsMap: map<string, string>;
      match OidcClientHelper.GetJwtClaimsFromIdTokenAsMap(idToken) {
        case Failure(e) =>
          return Caught(e);
        case Success(claims) =>
          claimsMap := claims;
      }
      var sub := GetOrDefault(claimsMap, OIDC_CLAIM_SUB_KEY, NOT_AVAILABLE);
      var oidcSessionRef := GetOrDefault(claimsMap, OidcClientHelper.OIDC_SESSION_REF_KEY, NOT_AVAILABLE);
      var due := IsTimeToRefreshOidcSession(session, gateNow);
      if due.Failure? {
        return Caught(due.error);
      }
      if !due.value {
        return RecentlyRefreshed;
      }
      path := ValidateAndRefresh(sub, oidcSessionRef, session, validateResponse, refreshResponse, refreshNow);
    }

    /** Validation, then refresh when the session is still valid; the path says how it ended. */
    method ValidateAndRefresh(sub: string, oidcSessionRef: string, session: HttpSession,
                              validateResponse: CallOutcome, refreshResponse: CallOutcome, refreshNow: int)
      returns (path: Path)
      modifies this`sent, session
      ensures var i := ValidateThenRefresh(Settings(), old(session.attributes), oidcSessionRef, refreshNow,
                                           validateResponse, refreshResponse);
              && path == i.path
              && session.attributes == i.attributes
              && sent == old(sent) + i.calls
    {
      var valid := ValidateOidcSession(sub, oidcSessionRef, validateResponse);
      if valid.Failure? {
        return Caught(valid.error);
      }
      if !valid.value {
        return SessionNotValid;
      }
      var refreshed := TryRefreshOidcSession(sub, oidcSessionRef, session, refreshResponse, refreshNow);
      if refreshed.Failure? {
        return Caught(refreshed.error);
      }
      path := RefreshAttempted(refreshed.value);
    }

    /**
      One request. A null request throws before anything else happens; for
      any other request the guarded body runs and the chain is then invoked
      once with the request, whatever the body did.
     */
    method DoFilter(request: Request?, chain: FilterChain, gateNow: int, refreshNow: int,
                    validateResponse: CallOutcome, refreshResponse: CallOutcome)
      returns (r: Result<Path, FilterException>)
      modifies this`sent, chain, if request != null && request.session != null then {request.session} else {}
      ensures request == null ==>
                && r == Failure(Caused(NullPointer(Some(REQUEST_NULL_MESSAGE))))
                && chain.forwarded == old(chain.forwarded)
                && sent == old(sent)
      ensures request != null ==> r.Success? && chain.forwarded == old(chain.forwarded) + [request]
      ensures request != null && request.session == null ==> r == Success(NullPointerCaught) && sent == old(sent)
      ensures request != null && request.session != null ==>
                var i := Intercept(Settings(), old(request.session.attributes), gateNow, refreshNow,
                                   validateResponse, refreshResponse);
                && r == Success(i.path)
                && request.session.attributes == i.attributes
                && sent == old(sent) + i.calls
    {
      if request == null {
        return Failure(Caused(NullPointer(Some(REQUEST_NULL_MESSAGE))));
      }
      var path := HandleSession(request.session, gateNow, refreshNow, validateResponse, refreshResponse);
      chain.DoFilter(request);  // the finally block
      r := Success(path);
    }
  }

  /** A container initializing the filter from a complete configuration. */
  method ContainerInitializes() returns (filter: SessionFilter)
    ensures filter.Settings() == OidcSessionManagementConfig(Some("http://idp"), Some("/validate"), Some("/refresh"), Some("app"))
  {
    filter := new SessionFilter();
    var config := OidcSessionManagementConfig(Some("http://idp"), Some("/validate"), Some("/refresh"), Some("app"));
    assert !IsWhitespace("http://idp"[0]) && !IsWhitespace("/validate"[0]);
    assert !IsWhitespace("/refresh"[0]) && !IsWhitespace("app"[0]);
    var init := filter.Init(true, Found(config));
    assert init == Pass;
  }

  /**
    A container passing three requests through one chain: one whose session
    was refreshed 45 seconds ago while the validation endpoint is
    unreachable, one without a session, and a null one. The first two reach
    the chain; the null one throws before it.
   */
  method ContainerFilters(filter: SessionFilter)
    returns (unreachable: Result<Path, FilterException>, sessionless: Result<Path, FilterException>,
             missing: Result<Path, FilterException>, forwarded: nat)
    modifies filter
    ensures unreachable == Success(SessionNotValid)
    ensures sessionless == Success(NullPointerCaught)
    ensures missing == Failure(Caused(NullPointer(Some(REQUEST_NULL_MESSAGE))))
    ensures forwarded == 2
  {
    var attributes := SessionAged("faked-token", 0);
    var session := new HttpSession(attributes);
    var request := new Request(session);
    var chain := new FilterChain();
    ScenarioValidateTransportFailure(filter.Settings(), 0, 45, TransportFailure);
    unreachable := filter.DoFilter(request, chain, 45, 46, TransportFailure, TransportFailure);
    assert session.attributes == attributes;

    var bare := new Request(null);
    sessionless := filter.DoFilter(bare, chain, 46, 46, TransportFailure, TransportFailure);

    missing := filter.DoFilter(null, chain, 47, 47, TransportFailure, TransportFailure);
    forwarded := |chain.forwarded|;
  }
}
