/**
 * The refresh strategies of flytekit/clients/raw.py and `_get_refresh_handler`, which picks one
 * by the configured auth mode. Each strategy is a specification function on a `Session` value
 * and a method that performs it on the client objects.
 */
module Refresh {
  import opened Wrappers
  import opened PyStr
  import opened Rpc
  import opened Credentials
  import opened TokenExchange
  import Utf8

  /** The four refresh handlers. */
  datatype Strategy = Standard | Basic | FromCommand | Noop

  /** The configuration values the strategies read (`AUTH_MODE`, `SCOPES`, `CLIENT_ID`, ...). */
  datatype Config = Config(
    authMode: string,
    scopes: seq<string>,
    clientId: Option<string>,
    clientCredentialsSecret: Option<string>)

  /** A finished `subprocess.run`: exit status, captured standard output, and `str()` of the failure. */
  datatype CommandRun = CommandRun(returnCode: int, stdout: string, failureText: string)

  /**
   * The answers the outside world gives to one refresh: the token the identity provider issues
   * on a refresh, the token the user's interactive sign-in ends with, the token endpoint's
   * response, and the run of the external command (`COMMAND`).
   */
  datatype ForeignAnswers =
    ForeignAnswers(refreshedToken: string, signedInToken: string, tokenResponse: HttpResponse, commandRun: CommandRun)

  /** The end of one refresh: the new session, or the exception raised (the session unchanged). */
  datatype Outcome = Refreshed(session: Session) | Failed(error: FlyteError)

  const NoAdminResponseMessage: string :=
    "Raw Flyte client attempting client credentials flow but no response from Admin detected. "
    + "Check your Admin server's .well-known endpoints to make sure they're working as expected."

  const NoneKeyMessage: string := "'NoneType' object has no attribute 'authorization_metadata_key'"

  const CommandFailurePrefix: string := "Problems refreshing token with command: "

  function InvalidModeMessage(mode: string): string {
    "Invalid auth mode [" + mode + "] specified. Please update the creds config to use a valid value"
  }

  /** `_get_refresh_handler`: four recognised modes; every other string is a `ValueError`. */
  function GetRefreshHandler(authMode: string): (r: Result<Strategy, FlyteError>)
    ensures r == Ok(Standard) <==> authMode == "standard"
    ensures r == Ok(Basic) <==> authMode == "basic" || authMode == "client_credentials"
    ensures r == Ok(FromCommand) <==> authMode == "external_process"
    ensures r != Ok(Noop)
    ensures r.Err? <==> authMode !in {"standard", "basic", "client_credentials", "external_process"}
    ensures r.Err? ==> r.error == ValueError(InvalidModeMessage(authMode))
  {
    if authMode == "standard" then Ok(Standard)
    else if authMode == "basic" || authMode == "client_credentials" then Ok(Basic)
    else if authMode == "external_process" then Ok(FromCommand)
    else Err(ValueError(InvalidModeMessage(authMode)))
  }

  /**
   * `_refresh_credentials_standard`, given the token a refresh would obtain and the token an
   * interactive sign-in would end with. The configured key is read from the public client
   * config before that config is checked for `None`, so its absence is an `AttributeError`;
   * once both configurations are present the strategy always succeeds.
   */
  function StandardRefresh(pcc: Option<PublicClientConfig>, oauth: Option<OAuth2Metadata>,
                           s: Session, refreshed: string, signedIn: string): (r: Outcome)
    ensures r.Failed? <==> pcc.None? || oauth.None?
    ensures r.Refreshed? ==> r.session.metadata == Some(BearerHeader(r.session.auth.accessToken, HeaderKeyOf(pcc.value)))
    ensures r.Refreshed? ==> r.session.auth.canRefreshToken == s.auth.canRefreshToken
  {
    if pcc.None? then Failed(AttributeError(NoneKeyMessage))
    else
      var key := HeaderKeyOf(pcc.value);
      if oauth.None? then Failed(ValueError(NoAdminResponseMessage))
      else if s.auth.hasValidCredentials && !CheckAccessToken(s.metadata, s.auth.accessToken) then
        // The cached credential is adopted once, then invalidated.
        Refreshed(Session(Some(BearerHeader(s.auth.accessToken, key)), s.auth.(hasValidCredentials := false)))
      else if s.auth.canRefreshToken then
        var auth := s.auth.(hasValidCredentials := true, accessToken := refreshed);
        Refreshed(Session(Some(BearerHeader(refreshed, key)), auth))
      else
        var auth := s.auth.(hasValidCredentials := true, accessToken := signedIn,
                            interactiveFlows := s.auth.interactiveFlows + 1);
        Refreshed(Session(Some(BearerHeader(signedIn, key)), auth))
  }

  /** `SCOPES.get() or public_client_config.scopes`, joined with commas. */
  function BasicScope(cfg: Config, pcc: PublicClientConfig): (r: string)
    ensures var chosen := if |cfg.scopes| > 0 then cfg.scopes else pcc.scopes;
      |chosen| > 0 && (forall i :: 0 <= i < |chosen| ==> ',' !in chosen[i]) ==> Split(r, ',') == chosen
  {
    var chosen := if |cfg.scopes| > 0 then cfg.scopes else pcc.scopes;
    if |chosen| > 0 && (forall i :: 0 <= i < |chosen| ==> ',' !in chosen[i]) then
      SplitJoin(chosen, ',');
      Join(chosen, [','])
    else
      Join(chosen, ",")
  }

  /** What the basic strategy hands to `get_token`. */
  datatype TokenCall = TokenCall(tokenEndpoint: string, authorizationHeader: string, scope: string)

  /**
   * The steps of the basic strategy before the token endpoint is called: the server metadata
   * must be present and a secret configured.
   */
  function BasicTokenCall(cfg: Config, pcc: Option<PublicClientConfig>, oauth: Option<OAuth2Metadata>)
    : (r: Result<TokenCall, FlyteError>)
    ensures oauth.None? || pcc.None? ==> r == Err(ValueError(NoAdminResponseMessage))
    ensures r.Ok? <==> oauth.Some? && pcc.Some? && GetSecret(cfg.clientCredentialsSecret).Ok?
    ensures r.Ok? ==> r.value.tokenEndpoint == oauth.value.tokenEndpoint && r.value.scope == BasicScope(cfg, pcc.value)
  {
    if oauth.None? || pcc.None? then Err(ValueError(NoAdminResponseMessage))
    else
      match GetSecret(cfg.clientCredentialsSecret)
      case Err(e) => Err(e)
      case Ok(secret) =>
        Ok(TokenCall(oauth.value.tokenEndpoint, BasicAuthorizationHeader(FormatArg(cfg.clientId), secret),
                     BasicScope(cfg, pcc.value)))
  }

  /** `_refresh_credentials_basic`: a client-credentials exchange, its token adopted. */
  function BasicRefresh(cfg: Config, pcc: Option<PublicClientConfig>, oauth: Option<OAuth2Metadata>,
                        s: Session, response: HttpResponse): (r: Outcome)
    ensures r.Refreshed? <==> BasicTokenCall(cfg, pcc, oauth).Ok? && response.statusCode == 200
    ensures r.Refreshed? ==> r.session == s.(metadata := Some(BearerHeader(response.accessToken, HeaderKeyOf(pcc.value))))
  {
    match BasicTokenCall(cfg, pcc, oauth)
    case Err(e) => Failed(e)
    case Ok(call) =>
      match GetToken(call.tokenEndpoint, call.authorizationHeader, Some(call.scope), response).result
      case Err(e) => Failed(e)
      case Ok(answer) => Refreshed(s.(metadata := Some(BearerHeader(answer.0, HeaderKeyOf(pcc.value)))))
  }

  /**
   * `_refresh_credentials_from_command`: a non-zero exit is an authentication error; otherwise
   * the stripped standard output is stored under the default key.
   */
  function CommandRefresh(s: Session, run: CommandRun): (r: Outcome)
    ensures r.Refreshed? <==> run.returnCode == 0
    ensures r.Refreshed? ==> r.session.auth == s.auth && r.session.metadata.Some?
  {
    if run.returnCode != 0 then Failed(FlyteAuthenticationException(CommandFailurePrefix + run.failureText))
    else Refreshed(s.(metadata := Some(BearerHeader(Strip(run.stdout), Some(DefaultHeaderKey)))))
  }

  /** What running `strategy` does to the session. */
  function ApplyRefresh(strategy: Strategy, cfg: Config, pcc: Option<PublicClientConfig>,
                        oauth: Option<OAuth2Metadata>, s: Session, answers: ForeignAnswers): (r: Outcome)
    ensures strategy == Noop ==> r == Refreshed(s)
    ensures r.Refreshed? && strategy != Noop ==> r.session.metadata.Some?
  {
    match strategy
    case Standard => StandardRefresh(pcc, oauth, s, answers.refreshedToken, answers.signedInToken)
    case Basic => BasicRefresh(cfg, pcc, oauth, s, answers.tokenResponse)
    case FromCommand => CommandRefresh(s, answers.commandRun)
    case Noop => Refreshed(s)
  }

  /** `err` and the session `after` are what `o` says starting from `before`. */
  ghost predicate Performed(o: Outcome, err: Option<FlyteError>, before: Session, after: Session) {
    match o
    case Failed(e) => err == Some(e) && after == before
    case Refreshed(s) => err == None && after == s
  }

  method RefreshCredentialsStandard(client: FlyteClient, auth: AuthorizationClient, refreshed: string, signedIn: string)
    returns (err: Option<FlyteError>)
    modifies client, auth
    ensures Performed(StandardRefresh(client.publicClientConfig, client.oauth2Metadata, old(SessionOf(client, auth)),
                                      refreshed, signedIn),
                      err, old(SessionOf(client, auth)), SessionOf(client, auth))
  {
    if client.publicClientConfig.None? {
      return Some(AttributeError(NoneKeyMessage));
    }
    var key := HeaderKeyOf(client.publicClientConfig.value);
    if client.oauth2Metadata.None? {
      return Some(ValueError(NoAdminResponseMessage));
    }
    if auth.hasValidCredentials && !CheckAccessToken(client.metadata, auth.accessToken) {
      client.SetAccessToken(auth.accessToken, key);
      auth.Clear();
      return None;
    } else if auth.canRefreshToken {
      auth.RefreshAccessToken(refreshed);
    } else {
      auth.StartAuthorizationFlow(signedIn);
    }
    client.SetAccessToken(auth.accessToken, key);
    return None;
  }

  method RefreshCredentialsBasic(cfg: Config, client: FlyteClient, auth: AuthorizationClient, response: HttpResponse)
    returns (err: Option<FlyteError>)
    modifies client
    ensures Performed(BasicRefresh(cfg, client.publicClientConfig, client.oauth2Metadata, old(SessionOf(client, auth)), response),
                      err, old(SessionOf(client, auth)), SessionOf(client, auth))
  {
    if client.oauth2Metadata.None? || client.publicClientConfig.None? {
      return Some(ValueError(NoAdminResponseMessage));
    }
    var tokenEndpoint := client.oauth2Metadata.value.tokenEndpoint;
    var scopes := BasicScope(cfg, client.publicClientConfig.value);
    var secret := GetSecret(cfg.clientCredentialsSecret);
    if secret.Err? {
      return Some(secret.error);
    }
    var authorizationHeader := BasicAuthorizationHeader(FormatArg(cfg.clientId), secret.value);
    var exchange := GetToken(tokenEndpoint, authorizationHeader, Some(scopes), response);
    if exchange.result.Err? {
      return Some(exchange.result.error);
    }
    client.SetAccessToken(exchange.result.value.0, HeaderKeyOf(client.publicClientConfig.value));
    return None;
  }

  method RefreshCredentialsFromCommand(client: FlyteClient, auth: AuthorizationClient, run: CommandRun)
    returns (err: Option<FlyteError>)
    modifies client
    ensures Performed(CommandRefresh(old(SessionOf(client, auth)), run), err, old(SessionOf(client, auth)), SessionOf(client, auth))
  {
    if run.returnCode != 0 {
      return Some(FlyteAuthenticationException(CommandFailurePrefix + run.failureText));
    }
    client.SetAccessToken(Strip(run.stdout), Some(DefaultHeaderKey));
    return None;
  }

  /** Calls the handler `strategy` on the client. */
  method RunStrategy(strategy: Strategy, cfg: Config, client: FlyteClient, auth: AuthorizationClient, answers: ForeignAnswers)
    returns (err: Option<FlyteError>)
    modifies client, auth
    ensures Performed(ApplyRefresh(strategy, cfg, client.publicClientConfig, client.oauth2Metadata, old(SessionOf(client, auth)), answers),
                      err, old(SessionOf(client, auth)), SessionOf(client, auth))
  {
    match strategy
    case Standard => err := RefreshCredentialsStandard(client, auth, answers.refreshedToken, answers.signedInToken);
    case Basic => err := RefreshCredentialsBasic(cfg, client, auth, answers.tokenResponse);
    case FromCommand => err := RefreshCredentialsFromCommand(client, auth, answers.commandRun);
    case Noop => err := None;
  }

  // Properties of the strategies

  /**
   * The standard strategy fails before touching anything when server metadata is missing: an
   * absent public client config fails with `AttributeError`, whatever the OAuth2 metadata, and
   * only a present config with absent OAuth2 metadata reaches the `ValueError`.
   */
  lemma StandardMissingMetadata(pcc: Option<PublicClientConfig>, oauth: Option<OAuth2Metadata>, s: Session,
                                refreshed: string, signedIn: string)
    ensures pcc.None? ==> StandardRefresh(pcc, oauth, s, refreshed, signedIn) == Failed(AttributeError(NoneKeyMessage))
    ensures pcc.Some? && oauth.None? ==>
      StandardRefresh(pcc, oauth, s, refreshed, signedIn) == Failed(ValueError(NoAdminResponseMessage))
  {
  }

  /**
   * The decision order of the standard strategy once both configurations are present: a valid
   * cached token that differs from the stored one is adopted and then invalidated; otherwise, when
   * a refresh token is held, the refreshed token is adopted without involving the user; and only
   * when there is none does the interactive flow run, its token adopted.
   */
  lemma StandardDecisionOrder(pcc: PublicClientConfig, oauth: OAuth2Metadata, s: Session, refreshed: string, signedIn: string)
    ensures var r := StandardRefresh(Some(pcc), Some(oauth), s, refreshed, signedIn);
      var cached := s.auth.hasValidCredentials && !CheckAccessToken(s.metadata, s.auth.accessToken);
      && r.Refreshed?
      && (cached ==>
            r.session.metadata == Some(BearerHeader(s.auth.accessToken, HeaderKeyOf(pcc)))
            && r.session.auth == s.auth.(hasValidCredentials := false))
      && (!cached && s.auth.canRefreshToken ==>
            r.session.metadata == Some(BearerHeader(refreshed, HeaderKeyOf(pcc)))
            && r.session.auth == s.auth.(hasValidCredentials := true, accessToken := refreshed))
      && (!cached && !s.auth.canRefreshToken ==>
            r.session.metadata == Some(BearerHeader(signedIn, HeaderKeyOf(pcc)))
            && r.session.auth == s.auth.(hasValidCredentials := true, accessToken := signedIn,
                                         interactiveFlows := s.auth.interactiveFlows + 1))
  {
  }

  /** The interactive flow runs, once, exactly when there is neither a usable cached credential nor a refresh token. */
  lemma InteractiveOnlyWithoutRefreshToken(pcc: PublicClientConfig, oauth: OAuth2Metadata, s: Session,
                                           refreshed: string, signedIn: string)
    ensures var r := StandardRefresh(Some(pcc), Some(oauth), s, refreshed, signedIn);
      var cached := s.auth.hasValidCredentials && !CheckAccessToken(s.metadata, s.auth.accessToken);
      && r.session.auth.interactiveFlows >= s.auth.interactiveFlows
      && (r.session.auth.interactiveFlows > s.auth.interactiveFlows <==> !cached && !s.auth.canRefreshToken)
  {
  }

  /**
   * A successful standard refresh leaves the client holding the authorization client's token:
   * `check_access_token` accepts it unless it contains `"Bearer "`.
   */
  lemma {:induction false} StandardStoresAuthToken(pcc: Option<PublicClientConfig>, oauth: Option<OAuth2Metadata>,
                                                    s: Session, refreshed: string, signedIn: string)
    requires StandardRefresh(pcc, oauth, s, refreshed, signedIn).Refreshed?
    ensures var n := StandardRefresh(pcc, oauth, s, refreshed, signedIn).session;
      CheckAccessToken(n.metadata, n.auth.accessToken) <==> !Contains(n.auth.accessToken, BearerPrefix)
  {
    var n := StandardRefresh(pcc, oauth, s, refreshed, signedIn).session;
    CheckOwnToken(n.auth.accessToken, HeaderKeyOf(pcc.value));
  }

  /**
   * Adopt-then-invalidate: after the cached credential has been adopted, the next standard
   * refresh does not adopt it again but takes a newly issued token.
   */
  lemma CachedCredentialUsedOnce(pcc: PublicClientConfig, oauth: OAuth2Metadata, s: Session,
                                 refreshed1: string, signedIn1: string, refreshed2: string, signedIn2: string)
    requires s.auth.hasValidCredentials && !CheckAccessToken(s.metadata, s.auth.accessToken)
    ensures var s1 := StandardRefresh(Some(pcc), Some(oauth), s, refreshed1, signedIn1).session;
      && s1.metadata == Some(BearerHeader(s.auth.accessToken, HeaderKeyOf(pcc)))
      && StandardRefresh(Some(pcc), Some(oauth), s1, refreshed2, signedIn2).session.metadata
           == Some(BearerHeader(if s.auth.canRefreshToken then refreshed2 else signedIn2, HeaderKeyOf(pcc)))
  {
  }

  /**
   * What the basic strategy sends, for every client id: the request goes to the advertised token
   * endpoint as a client-credentials grant, with the comma-joined scopes (the configured ones,
   * else the advertised ones) in the body.
   */
  lemma BasicRequestContents(cfg: Config, pcc: PublicClientConfig, oauth: OAuth2Metadata)
    requires cfg.clientCredentialsSecret.Some? && cfg.clientCredentialsSecret.value != ""
    ensures BasicTokenCall(cfg, Some(pcc), Some(oauth)).Ok?
    ensures var call := BasicTokenCall(cfg, Some(pcc), Some(oauth)).value;
      var request := TokenRequestFor(call.tokenEndpoint, call.authorizationHeader, Some(call.scope));
      && request.url == oauth.tokenEndpoint
      && Lookup(request.body, "grant_type") == Some("client_credentials")
      && Lookup(request.body, "scope") == Some(Join(if |cfg.scopes| > 0 then cfg.scopes else pcc.scopes, ","))
  {
  }

  /**
   * The Basic header the strategy sends carries the client id (written as Python formats it)
   * and the secret; when the id holds no colon, the receiver recovers both exactly.
   */
  lemma {:induction false} BasicHeaderRecovered(cfg: Config, pcc: PublicClientConfig, oauth: OAuth2Metadata)
    requires cfg.clientCredentialsSecret.Some? && cfg.clientCredentialsSecret.value != ""
    requires ':' !in FormatArg(cfg.clientId)
    ensures BasicTokenCall(cfg, Some(pcc), Some(oauth)).Ok?
    ensures ParseBasicCredentials(BasicTokenCall(cfg, Some(pcc), Some(oauth)).value.authorizationHeader)
         == Some((Utf8.Encode(FormatArg(cfg.clientId)), Utf8.Encode(cfg.clientCredentialsSecret.value)))
  {
    BasicHeaderRoundTrip(FormatArg(cfg.clientId), cfg.clientCredentialsSecret.value);
  }

  /** Scopes are joined with commas, not the spaces of section 3.3 of RFC 6749. */
  lemma BasicScopesCommaJoined(cfg: Config, pcc: PublicClientConfig)
    requires cfg.scopes == ["openid", "offline"]
    ensures BasicScope(cfg, pcc) == "openid,offline"
  {
    assert |cfg.scopes| > 0;
    assert cfg.scopes[1..] == ["offline"];
    assert Join(["offline"], ",") == "offline";
    assert Join(cfg.scopes, ",") == "openid" + "," + "offline";
  }

  /** Without a configured secret the basic strategy fails before calling the token endpoint. */
  lemma BasicWithoutSecret(cfg: Config, pcc: PublicClientConfig, oauth: OAuth2Metadata, s: Session, response: HttpResponse)
    requires cfg.clientCredentialsSecret.None? || cfg.clientCredentialsSecret.value == ""
    ensures BasicTokenCall(cfg, Some(pcc), Some(oauth)) == Err(FlyteAuthenticationException(NoSecretMessage))
    ensures BasicRefresh(cfg, Some(pcc), Some(oauth), s, response) == Failed(FlyteAuthenticationException(NoSecretMessage))
  {
  }

  /**
   * Once the request is sent, the basic strategy succeeds exactly on status 200, adopting the
   * returned token under the advertised key and leaving the authorization client alone; any
   * other status is an authentication error that changes nothing.
   */
  lemma BasicExchangeOutcome(cfg: Config, pcc: PublicClientConfig, oauth: OAuth2Metadata, s: Session, response: HttpResponse)
    requires BasicTokenCall(cfg, Some(pcc), Some(oauth)).Ok?
    ensures var r := BasicRefresh(cfg, Some(pcc), Some(oauth), s, response);
      && (response.statusCode == 200 <==> r.Refreshed?)
      && (r.Refreshed? ==> r.session == s.(metadata := Some(BearerHeader(response.accessToken, HeaderKeyOf(pcc)))))
      && (r.Failed? ==> r.error == FlyteAuthenticationException(Non200Message))
  {
  }

  /** The command strategy either stores the stripped output under `authorization` or raises its failure. */
  lemma CommandOutcome(s: Session, run: CommandRun)
    ensures var r := CommandRefresh(s, run);
      && (run.returnCode == 0 <==> r.Refreshed?)
      && (r.Failed? ==>
            && r.error.FlyteAuthenticationException?
            && StartsWith(r.error.message, CommandFailurePrefix)
            && r.error.message[|CommandFailurePrefix|..] == run.failureText)
      && (r.Refreshed? ==>
            && r.session.auth == s.auth
            && r.session.metadata.value.key == Some(DefaultHeaderKey)
            && r.session.metadata.value.value == BearerPrefix + Strip(run.stdout))
  {
  }

  /** The token taken from the command's output carries no surrounding white space. */
  lemma CommandTokenTrimmed(s: Session, run: CommandRun)
    requires run.returnCode == 0
    ensures var token := CommandRefresh(s, run).session.metadata.value.value[|BearerPrefix|..];
      && (token != "" ==> !IsSpace(token[0]) && !IsSpace(token[|token| - 1]))
      && Strip(token) == token
  {
    StripIdempotent(run.stdout);
  }

  /** Only the standard strategy touches the authorization client. */
  lemma OnlyStandardTouchesAuth(strategy: Strategy, cfg: Config, pcc: Option<PublicClientConfig>,
                                oauth: Option<OAuth2Metadata>, s: Session, answers: ForeignAnswers)
    requires strategy != Standard
    requires ApplyRefresh(strategy, cfg, pcc, oauth, s, answers).Refreshed?
    ensures ApplyRefresh(strategy, cfg, pcc, oauth, s, answers).session.auth == s.auth
  {
  }
}
