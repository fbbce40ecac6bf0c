/**
  The stub OIDC client helper: it turns an access token into an ID token and
  an ID token into its claims. Both operations are pure.
 */
module OidcClientHelper {
  import opened JavaLang

  const OIDC_SESSION_REF_KEY := "oidc-session-ref"
  const JWT_CLAIM_SUB_KEY := "sub"

  const STUB_ID_TOKEN := "stub-id-token"
  const STUB_OIDC_SESSION_REF := "stub-oidc-session-ref"
  const STUB_SUB := "stub-sub"

  const NO_ID_TOKEN_MESSAGE := "Could not get JWT claims from ID token: ID token is null or empty"

  /** The ID token carried by an access token; null when the access token is blank. */
  function GetIdTokenFromAccessToken(accessToken: Option<string>): (idToken: Option<string>)
    ensures idToken.None? <==> IsBlank(accessToken)
    ensures idToken.Some? ==> idToken.value == STUB_ID_TOKEN && !IsBlank(idToken)
  {
    if IsBlank(accessToken) then None
    else
      assert !IsWhitespace(STUB_ID_TOKEN[0]);
      Some(STUB_ID_TOKEN)
  }

  /**
    The claims of an ID token, keyed by claim name. A blank ID token raises
    IllegalArgumentException.
   */
  function GetJwtClaimsFromIdTokenAsMap(idToken: Option<string>): (claims: Result<map<string, string>, Exception>)
    ensures claims.Failure? <==> IsBlank(idToken)
    ensures claims.Failure? ==> claims.error == IllegalArgument(NO_ID_TOKEN_MESSAGE)
    ensures claims.Success? ==>
              && claims.value.Keys == {OIDC_SESSION_REF_KEY, JWT_CLAIM_SUB_KEY}
              && claims.value[OIDC_SESSION_REF_KEY] == STUB_OIDC_SESSION_REF
              && claims.value[JWT_CLAIM_SUB_KEY] == STUB_SUB
  {
    if IsBlank(idToken) then Failure(IllegalArgument(NO_ID_TOKEN_MESSAGE))
    else Success(map[OIDC_SESSION_REF_KEY := STUB_OIDC_SESSION_REF, JWT_CLAIM_SUB_KEY := STUB_SUB])
  }

  /**
    Decoding an access token end to end: a blank one (null, empty or
    whitespace only) ends in IllegalArgumentException, any other yields both
    claims, so a caller's "N/A" defaults are never needed on success.
   */
  lemma ClaimsOfAccessToken(accessToken: Option<string>)
    ensures var claims := GetJwtClaimsFromIdTokenAsMap(GetIdTokenFromAccessToken(accessToken));
            && (claims.Failure? <==> IsBlank(accessToken))
            && (claims.Failure? ==> claims.error == IllegalArgument(NO_ID_TOKEN_MESSAGE))
            && (claims.Success? ==>
                  && OIDC_SESSION_REF_KEY in claims.value && JWT_CLAIM_SUB_KEY in claims.value
                  && claims.value[OIDC_SESSION_REF_KEY] == STUB_OIDC_SESSION_REF
                  && claims.value[JWT_CLAIM_SUB_KEY] == STUB_SUB)
  {
  }
}
