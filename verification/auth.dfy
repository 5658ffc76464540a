/**
 * The token handshake and the request gate. The set of issued tokens is
 * passed in and returned explicitly; fresh tokens are supplied by the
 * caller in place of newly generated identifiers.
 */
module Auth {
  import opened Wrappers
  import opened Text

  datatype AuthMethod = NONE | KERBEROS | USERNAME_PASSWORD | TOKEN

  datatype AuthField = NO_FIELD | USERNAME | PASSWORD | TOKEN_FIELD | KERBEROS_TICKET

  /** Which request header carries which credential. */
  datatype AuthFieldMapping = AuthFieldMapping(authField: AuthField, fieldName: string)

  datatype AuthScheme = AuthScheme(authMethod: AuthMethod, authFieldMappings: seq<AuthFieldMapping>)

  /** The schemes the server advertises: no authentication, or user name and password headers. */
  const AllowedAuthSchemes: seq<AuthScheme> := [
    AuthScheme(NONE, []),
    AuthScheme(USERNAME_PASSWORD, [AuthFieldMapping(USERNAME, "user"), AuthFieldMapping(PASSWORD, "password")])
  ]

  /** Request headers: each name maps to its list of values. */
  type Headers = map<string, seq<string>>

  /** The values of a header; an absent header has none. */
  function HeaderValues(headers: Headers, name: string): seq<string>
  {
    if name in headers then headers[name] else []
  }

  datatype AuthResponse = AuthResponse(success: bool, token: Option<string>, message: Option<string>)

  /** The response of a handshake and the set of valid tokens after it. */
  datatype AuthOutcome = AuthOutcome(response: AuthResponse, validTokens: set<string>)

  const CredentialsRequired: string := "Username and password are required."
  const InvalidCredentials: string := "Invalid username and/or password."
  const UnknownMethod: string := "Unknown authentication method."

  /** Both credential headers are present. */
  predicate CredentialsPresent(headers: Headers)
  {
    "user" in headers && "password" in headers
  }

  /** The only known account: each header holds exactly one value, "user1" and "test". */
  predicate CredentialsValid(headers: Headers)
  {
    CredentialsPresent(headers) && headers["user"] == ["user1"] && headers["password"] == ["test"]
  }

  /**
   * The handshake. NONE always issues `freshToken`; USERNAME_PASSWORD issues
   * it only for the known account; any other method fails. A success adds
   * the token to the valid set, a failure leaves the set alone and explains
   * itself.
   */
  function PerformAuth(validTokens: set<string>, headers: Headers, authMethod: AuthMethod, freshToken: string)
    : (r: AuthOutcome)
    ensures validTokens <= r.validTokens
    ensures r.response.success <==>
              authMethod == NONE || (authMethod == USERNAME_PASSWORD && CredentialsValid(headers))
    ensures r.response.success ==>
              && r.response.token == Some(freshToken) && r.response.message == None
              && r.validTokens == validTokens + {freshToken}
    ensures !r.response.success ==>
              && r.response.token == None && r.response.message.Some?
              && r.validTokens == validTokens
    ensures authMethod == USERNAME_PASSWORD && !CredentialsPresent(headers) ==>
              r.response.message == Some(CredentialsRequired)
    ensures authMethod == USERNAME_PASSWORD && CredentialsPresent(headers) && !CredentialsValid(headers) ==>
              r.response.message == Some(InvalidCredentials)
    ensures authMethod == KERBEROS || authMethod == TOKEN ==> r.response.message == Some(UnknownMethod)
  {
    match authMethod
    case NONE =>
      AuthOutcome(AuthResponse(true, Some(freshToken), None), validTokens + {freshToken})
    case USERNAME_PASSWORD =>
      if !CredentialsPresent(headers) then
        AuthOutcome(AuthResponse(false, None, Some(CredentialsRequired)), validTokens)
      else if headers["user"] != ["user1"] || headers["password"] != ["test"] then
        AuthOutcome(AuthResponse(false, None, Some(InvalidCredentials)), validTokens)
      else
        AuthOutcome(AuthResponse(true, Some(freshToken), None), validTokens + {freshToken})
    case _ =>
      AuthOutcome(AuthResponse(false, None, Some(UnknownMethod)), validTokens)
  }

  /** The gate either forwards the request or answers it with a status code and an error. */
  datatype GateDecision = Forward | Reject(statusCode: int, error: string)

  const Unauthorized: int := 401
  const NoTokenProvided: string := "No token provided."
  const EmptyTokenProvided: string := "Empty token provided."
  const InvalidTokenProvided: string := "Invalid token provided."

  /** Paths the gate lets through unchecked. */
  predicate Exempt(path: string)
  {
    || StartsWithSegments(path, "/specification")
    || StartsWithSegments(path, "/server")
    || Contains(path, "/auth")
  }

  /**
   * The request gate: exempt paths pass; otherwise the first value of the
   * `token` header must be present, not blank, and a valid token.
   */
  function EnsureAuth(path: string, headers: Headers, validTokens: set<string>): (r: GateDecision)
    ensures Exempt(path) ==> r == Forward
    ensures r.Reject? ==> r.statusCode == Unauthorized
    ensures !Exempt(path) ==>
              var values := HeaderValues(headers, "token");
              && (r == Forward <==> |values| > 0 && !IsBlank(values[0]) && values[0] in validTokens)
              && (|values| == 0 ==> r == Reject(Unauthorized, NoTokenProvided))
              && (|values| > 0 && IsBlank(values[0]) ==> r == Reject(Unauthorized, EmptyTokenProvided))
              && (|values| > 0 && !IsBlank(values[0]) && values[0] !in validTokens ==>
                    r == Reject(Unauthorized, InvalidTokenProvided))
  {
    if StartsWithSegments(path, "/specification") then Forward
    else if StartsWithSegments(path, "/server") then Forward
    else if Contains(path, "/auth") then Forward
    else
      var values := HeaderValues(headers, "token");
      if |values| == 0 then Reject(Unauthorized, NoTokenProvided)
      else if IsBlank(values[0]) then Reject(Unauthorized, EmptyTokenProvided)
      else if values[0] !in validTokens then Reject(Unauthorized, InvalidTokenProvided)
      else Forward
  }

  /** No valid token is empty or white space, as holds for generated identifiers. */
  ghost predicate TokensNonBlank(validTokens: set<string>)
  {
    forall t :: t in validTokens ==> !IsBlank(t)
  }

  /** A successful handshake uses a method the server advertises, with the header names it advertises. */
  lemma SuccessUsesAdvertisedScheme(validTokens: set<string>, headers: Headers, authMethod: AuthMethod, freshToken: string)
    requires PerformAuth(validTokens, headers, authMethod, freshToken).response.success
    ensures exists i :: 0 <= i < |AllowedAuthSchemes| && AllowedAuthSchemes[i].authMethod == authMethod
    ensures authMethod == USERNAME_PASSWORD ==>
              forall m :: m in AllowedAuthSchemes[1].authFieldMappings ==> m.fieldName in headers
  {
    if authMethod == NONE {
      assert AllowedAuthSchemes[0].authMethod == NONE;
    } else {
      assert AllowedAuthSchemes[1].authMethod == USERNAME_PASSWORD;
    }
  }

  /** Issuing a non-blank token keeps every valid token non-blank. */
  lemma HandshakeKeepsTokensNonBlank(validTokens: set<string>, headers: Headers, authMethod: AuthMethod, freshToken: string)
    requires TokensNonBlank(validTokens) && !IsBlank(freshToken)
    ensures TokensNonBlank(PerformAuth(validTokens, headers, authMethod, freshToken).validTokens)
  {
  }

  /**
   * With non-blank tokens, the gate forwards a request to a protected path
   * exactly when the first `token` value is a valid token.
   */
  lemma GatePassesIffValidToken(path: string, headers: Headers, validTokens: set<string>)
    requires TokensNonBlank(validTokens) && !Exempt(path)
    ensures EnsureAuth(path, headers, validTokens) == Forward <==>
              |HeaderValues(headers, "token")| > 0 && HeaderValues(headers, "token")[0] in validTokens
  {
  }

  /**
   * The handshake and the gate together: the token a successful handshake
   * returns opens every path when sent as the `token` header.
   */
  lemma IssuedTokenPassesGate(validTokens: set<string>, headers: Headers, authMethod: AuthMethod,
                              freshToken: string, path: string)
    requires !IsBlank(freshToken)
    requires PerformAuth(validTokens, headers, authMethod, freshToken).response.success
    ensures var r := PerformAuth(validTokens, headers, authMethod, freshToken);
            EnsureAuth(path, map["token" := [r.response.token.value]], r.validTokens) == Forward
  {
  }

  /** A request the gate forwards stays forwarded after any further handshake. */
  lemma GateDecisionStable(path: string, requestHeaders: Headers, validTokens: set<string>,
                           authHeaders: Headers, authMethod: AuthMethod, freshToken: string)
    ensures EnsureAuth(path, requestHeaders, validTokens) == Forward ==>
              EnsureAuth(path, requestHeaders,
                         PerformAuth(validTokens, authHeaders, authMethod, freshToken).validTokens) == Forward
  {
  }

  /** Segment tests ignore ASCII case: "/SERVER/info" is exempt. */
  lemma ExemptSegmentIgnoresCase()
    ensures Exempt("/SERVER/info")
  {
    var p := "/SERVER/info";
    assert p[..7] == "/SERVER";
    assert Fold("/SERVER") == "/server";
    assert Fold("/server") == "/server";
  }

  /** "/auth" may occur anywhere in the path, even inside a longer segment. */
  lemma ExemptAuthAnywhere()
    ensures Exempt("/retrieval/authx")
  {
    var p := "/retrieval/authx";
    assert p[10..][..5] == "/auth";
    assert Contains(p[10..], "/auth");
  }

  /** A segment test needs a segment boundary: "/serverx" is not exempt. */
  lemma NoSegmentBoundaryNotExempt()
    ensures !Exempt("/serverx")
  {
    var p := "/serverx";
    assert p[7] == 'x';
    assert "/auth"[1] !in p;
    if Contains(p, "/auth") {
      ContainedCharsOccur(p, "/auth");
    }
  }
}
