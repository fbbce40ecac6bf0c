# OIDC session-keeping filter, modelled in Dafny

`SessionFilter` is a request filter that keeps an OpenID Connect (OIDC) identity session alive.
On every request it reads the OIDC access token from the container's HTTP session and decodes its claims.
It then asks a refresh gate whether the last refresh is more than 30 seconds old.
If so, it POSTs to a validate endpoint and, when the session is still valid, to a refresh endpoint.
Whatever happens to a non-null request, it is handed on to the filter chain exactly once; a null request throws before the chain is reached.
Initialization looks up a configuration object by name and checks its four settings in a fixed order.
The filter uses `OidcClientHelper`, a stub that turns an access token into an ID token and an ID token into a claims map.

The model has four modules:

- `JavaLang` (`java_lang.dfy`): nullable references (`Option`), thrown exceptions (`Result`, `Outcome`, `Exception`), `StringUtils.isBlank` and `String.contains`.
- `OidcClientHelper` (`oidc_client_helper.dfy`): the two static helper functions, as pure functions.
- `RefreshPolicy` (`refresh_policy.dfy`): the filter's decisions as pure functions over the session's attribute map:
  - `RefreshGate`
  - `ValidationResult` and `RefreshOutcome`, which read the two responses
  - `Intercept`, one whole request
  - `FirstBlankField`, the order of the configuration checks
  
  The module also holds the lemmas that relate several steps.
- `OidcSession` (`oidc_session.dfy`): the objects. `HttpSession` holds a mutable attribute map. `Request` holds the session that `getSession()` returns (`Request.java` declares no such method, although `SessionFilter.java:144` calls it). `FilterChain` records the requests handed on to it. `SessionFilter` holds the four cached settings and a ghost record of the POSTs it issued. Each of its methods is proved against the matching `RefreshPolicy` function.

Environment inputs are parameters:

- what the name-service lookup returned (`LookupOutcome`);
- how each POST ended (`CallOutcome`: an IOException, a response without content, or the content);
- the two clock readings, in integer seconds: the gate's, and the one taken after the refresh call.

A thrown exception is a `Failure`/`Fail` value. Each `catch` of `doFilter` is a `Path` constructor.

Points of the program's behaviour worth knowing:

- A null request throws `FilterException` (cause `NullPointerException`, "Request is null") before the `try` (`SessionFilter.java:138-140`), so the chain is not invoked.
- The configuration bean `OidcSessionManagementConfig.java` has no `oidcClientId` property, although `SessionFilter.java:120` reads one. The model's configuration record has it as a fourth optional field.
- Claims decoding fails only for a blank token. The helper is a stub that accepts any non-blank token.
- The fluent HTTP client's `returnContent()` gives null for a response without an entity, and the chained `asString()` then throws `NullPointerException`. In `tryRefreshOidcSession` this happens before the date-time is stamped, and only `IOException` is caught there, so the request ends in `doFilter`'s `NullPointerException` handler with the session unchanged. `asString()` itself never returns null, so the `response != null` guard at `SessionFilter.java:242` always holds.
- A looked-up object that is not an `OidcSessionManagementConfig` makes the cast at `SessionFilter.java:93` throw `ClassCastException`. Only `NamingException` is caught there, so it leaves `init` unwrapped.

## Model

| member | source | states |
|---|---|---|
| `JavaLang.AllWhitespace` | src/main/java/net/huizha/examples/junit5_mockito/SessionFilter.java:109-122 | the blank test scans characters one by one; it holds exactly when every character is Java whitespace |
| `JavaLang.IsBlank` | src/main/java/net/huizha/examples/junit5_mockito/SessionFilter.java:108-123 | a setting is blank iff it is null or every character is Java whitespace (the empty string included) |
| `JavaLang.Contains` | src/main/java/net/huizha/examples/junit5_mockito/SessionFilter.java:226 | the left-to-right `contains` search succeeds exactly when the pattern occurs at some index, including the empty pattern |
| `OidcClientHelper.GetIdTokenFromAccessToken` | src/main/java/net/huizha/examples/junit5_mockito/OidcClientHelper.java:31-36 | null for a blank access token (null, empty, whitespace only); otherwise the fixed, non-blank "stub-id-token" |
| `OidcClientHelper.GetJwtClaimsFromIdTokenAsMap` | src/main/java/net/huizha/examples/junit5_mockito/OidcClientHelper.java:38-46 | IllegalArgumentException with its message exactly for a blank ID token; otherwise a map whose keys are exactly `oidc-session-ref` and `sub`, with the stub values |
| `OidcClientHelper.ClaimsOfAccessToken` | src/main/java/net/huizha/examples/junit5_mockito/SessionFilter.java:151-154 | decoding an access token fails with IllegalArgumentException iff it is blank; otherwise both claims are present, so the "N/A" defaults are never used |
| `RefreshPolicy.FirstBlankField` | src/main/java/net/huizha/examples/junit5_mockito/SessionFilter.java:108-123 | none when all four settings are non-blank; otherwise a blank setting with every setting checked before it non-blank |
| `RefreshPolicy.RefreshGate` | src/main/java/net/huizha/examples/junit5_mockito/SessionFilter.java:201-218 | due iff a stored date-time is strictly more than 30 s old; a stored non-date-time throws ClassCastException; with nothing stored, not due and `now` becomes the baseline; no other attribute changes |
| `RefreshPolicy.ValidationResult` | src/main/java/net/huizha/examples/junit5_mockito/SessionFilter.java:220-232 | valid iff the content contains `true`; a transport failure is "not valid" and is not propagated; a response without content throws NullPointerException |
| `RefreshPolicy.RefreshOutcome` | src/main/java/net/huizha/examples/junit5_mockito/SessionFilter.java:234-255 | succeeded iff there is content and it lacks `"valid": false`; any call that returned content stamps the date-time with `now`; a transport failure is caught and leaves the session unchanged; a response without content throws NullPointerException before the stamp |
| `RefreshPolicy.Url` | src/main/java/net/huizha/examples/junit5_mockito/SessionFilter.java:222 | the URL is the base URL followed by the path, each reading "null" when unset |
| `RefreshPolicy.Caught` | src/main/java/net/huizha/examples/junit5_mockito/SessionFilter.java:174-181 | a NullPointerException reaches the first handler, an IllegalArgumentException the second with its message, anything else the general one |
| `RefreshPolicy.GetOrDefault` | src/main/java/net/huizha/examples/junit5_mockito/SessionFilter.java:153-154 | the claim when the map holds it, otherwise the default |
| `RefreshPolicy.Intercept` | src/main/java/net/huizha/examples/junit5_mockito/SessionFilter.java:143-186 | only the last-refreshed date-time changes, on first contact with a usable token or by a refresh that returned content; first contact with a usable token writes exactly the baseline `gateNow`; "recently refreshed" iff the token decodes and the gate is not due; "not valid" iff it decodes, the gate is due and validation says not valid; the general handler iff the token attribute is a date-time, or the token decodes and the stored last-refreshed value is not a date-time, with the session untouched and no calls; validation is called iff the token decodes and the gate is due; a "not valid" verdict or a thrown validation leaves the session untouched; refresh is called iff validation said valid, and then the session is exactly what `RefreshOutcome` leaves; a refresh without content ends in the NullPointerException handler; the early exits for a missing or blank token |
| `RefreshPolicy.GateAtTestedAges` | src/test/java/net/huizha/examples/junit5_mockito/SessionFilterPrivateMethodsTest.java:63-79 | ages 29 and 30 s are not due, 31 s is |
| `RefreshPolicy.GateStaysDue` | src/main/java/net/huizha/examples/junit5_mockito/SessionFilter.java:214-216 | once due, the gate stays due as time advances |
| `RefreshPolicy.BaselineStartsWait` | src/main/java/net/huizha/examples/junit5_mockito/SessionFilter.java:209-213 | after the first-contact baseline at `now`, a later gate is due iff more than 30 s have passed, and it writes nothing |
| `RefreshPolicy.CompletedRefreshRestartsWait` | src/main/java/net/huizha/examples/junit5_mockito/SessionFilter.java:237-240 | a refresh that returned content, accepted or declined, makes the gate not due for the next 30 s |
| `RefreshPolicy.FailedRefreshKeepsRefreshDue` | src/main/java/net/huizha/examples/junit5_mockito/SessionFilter.java:237-248 | a refresh that fails in transport or returns no content leaves the gate due, so the next request retries |
| `RefreshPolicy.FirstContactOnlyRecordsBaseline` | src/main/java/net/huizha/examples/junit5_mockito/SessionFilter.java:155-172 | on first observation of a session with a usable token, no endpoint is called and only the baseline is written |
| `RefreshPolicy.NoCallsWithinWaitAfterRefresh` | src/main/java/net/huizha/examples/junit5_mockito/SessionFilter.java:155-162 | after a request whose refresh call was answered with content, any request within the next 30 s calls no endpoint |
| `RefreshPolicy.ScenarioDueValidRefreshed` | src/main/java/net/huizha/examples/junit5_mockito/SessionFilter.java:155-162 | age 45 s, validation content `"true"`, refresh content `{"valid": true}`: both endpoints called, refresh succeeds, date-time becomes the refresh time |
| `RefreshPolicy.ScenarioRecentlyRefreshed` | src/test/java/net/huizha/examples/junit5_mockito/SessionFilterStaticMockTest.java:366-376 | age 10 s: no endpoint called, session unchanged |
| `RefreshPolicy.ScenarioValidateTransportFailure` | src/main/java/net/huizha/examples/junit5_mockito/SessionFilter.java:227-231 | validation transport failure: not valid, refresh not called, date-time untouched |
| `OidcSession.HttpSession.constructor` | src/test/java/net/huizha/examples/junit5_mockito/SessionFilterStaticMockTest.java:405-408 | a container session starts with the given attributes |
| `OidcSession.HttpSession.SetAttribute` | src/main/java/net/huizha/examples/junit5_mockito/SessionFilter.java:212 | writes one attribute and leaves the others |
| `OidcSession.Request.constructor` | src/main/java/net/huizha/examples/requestresponse/Request.java:11-13 | a request carries the container session, or null |
| `OidcSession.FilterChain.constructor` | src/main/java/net/huizha/examples/filters/FilterChain.java:17-29 | a fresh chain has been handed no request |
| `OidcSession.FilterChain.DoFilter` | src/main/java/net/huizha/examples/filters/FilterChain.java:26 | the request is appended to those handed on |
| `OidcSession.SessionFilter.constructor` | src/main/java/net/huizha/examples/junit5_mockito/SessionFilter.java:47-52 | all four settings start null and nothing has been sent |
| `OidcSession.SessionFilter.GetBaseUrl` | src/main/java/net/huizha/examples/junit5_mockito/SessionFilter.java:58-63 | the cached base URL, null before `init` assigns it |
| `OidcSession.SessionFilter.GetValidateSessionContextPath` | src/main/java/net/huizha/examples/junit5_mockito/SessionFilter.java:65-70 | the cached validate path |
| `OidcSession.SessionFilter.GetRefreshSessionContextPath` | src/main/java/net/huizha/examples/junit5_mockito/SessionFilter.java:72-77 | the cached refresh path |
| `OidcSession.SessionFilter.Init` | src/main/java/net/huizha/examples/junit5_mockito/SessionFilter.java:80-132 | fails in order: null filter config, lookup error, lookup returned null, object of another type (ClassCastException, not wrapped), then the first blank setting with its own message; settings checked up to the failing one keep their new values, the rest their old ones; on success the three getters and the cached client id hold the four looked-up non-blank values |
| `OidcSession.SessionFilter.IsTimeToRefreshOidcSession` | src/main/java/net/huizha/examples/junit5_mockito/SessionFilter.java:201-218 | false for a null session; otherwise the answer and the new session are those of `RefreshGate` |
| `OidcSession.SessionFilter.ValidateOidcSession` | src/main/java/net/huizha/examples/junit5_mockito/SessionFilter.java:220-232 | issues one POST to base URL + validate path with the `oidc-session-ref` and `client-id` headers and the 3000 ms timeout; the verdict is `ValidationResult` |
| `OidcSession.SessionFilter.TryRefreshOidcSession` | src/main/java/net/huizha/examples/junit5_mockito/SessionFilter.java:234-255 | issues one POST to base URL + refresh path; the success flag or the escaping exception, and the new session, are those of `RefreshOutcome` |
| `OidcSession.SessionFilter.HandleSession` | src/main/java/net/huizha/examples/junit5_mockito/SessionFilter.java:143-181 | the guarded body: a null session ends in the NullPointerException handler; otherwise the path, new session and POSTs are those of `Intercept` |
| `OidcSession.SessionFilter.ValidateAndRefresh` | src/main/java/net/huizha/examples/junit5_mockito/SessionFilter.java:158-167 | once the gate is due: validate, refresh only when valid; the path, new session and POSTs are those of `ValidateThenRefresh`, the due branch of `Intercept` |
| `OidcSession.SessionFilter.DoFilter` | src/main/java/net/huizha/examples/junit5_mockito/SessionFilter.java:134-186 | a null request throws FilterException ("Request is null") and the chain is not invoked; any other request is handed to the chain exactly once; a null session ends in the NullPointerException handler; otherwise the path, new session and POSTs are those of `Intercept` |
| `OidcSession.ContainerInitializes` | src/test/java/net/huizha/examples/junit5_mockito/SessionFilterStaticMockTest.java:292-325 | initializing from a complete configuration succeeds and caches the four values |
| `OidcSession.ContainerFilters` | src/main/java/net/huizha/examples/junit5_mockito/SessionFilter.java:134-186 | an unreachable validation endpoint ends as "not valid", a request without a session in the NullPointerException handler, a null request throws; only the first two reach the chain |

## Left out

- Name-service lookup: creating the `InitialContext`, the `setInitialContext` hook and the lookup itself are replaced by the `LookupOutcome` parameter. The `initialContext` field is not modelled.
- HTTP client: building and executing the POSTs (URL parsing, header encoding, the timeout's effect) is replaced by a `CallOutcome` parameter and a record (`Call`) of the URL, headers and timeout. The client's code is not part of this model; `CallOutcome` follows its documented behaviour (an error status raises an IOException, a response without an entity gives null content). Runtime exceptions it might raise otherwise, such as one for a malformed URL, are not modelled.
- Clock: `LocalDateTime.now()` becomes two integer-second parameters. Sub-second precision of `LocalDateTime` is not modelled.
- Logging: all log4j output, including every log line of `doFilter` and `tryRefreshOidcSession`, and `destroy`, which only logs.
- Concurrency: one filter instance serving concurrent requests is out of scope. Each method runs alone.
- The `Response` object passed down the chain is not modelled. A null filter chain, which would raise NullPointerException in the `finally` block, is excluded by the chain parameter's non-null type.
- Session attribute values other than a string or a date-time are not modelled.
- `FilterException` keeps its cause or its message. The message Java derives from a cause (`Throwable.toString`) is not spelled out.
- `StringUtils`, `Character.isWhitespace` and `String.contains` are library code, written out here from their documented behaviour. U+180E counts as non-whitespace; Java releases built on older Unicode tables disagree.
- `OidcSession.SessionFilter.TryRefreshOidcSession` returns the success flag, which the Java method only logs, or the exception that escapes it. The model exposes both so that they can be stated.
- The `sub` claim is only logged. It is computed but has no effect on the model.
