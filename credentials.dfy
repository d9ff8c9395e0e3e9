/**
 * The credential store of `RawSynchronousFlyteClient` (flytekit/clients/raw.py): the call
 * metadata that `set_access_token` overwrites and `check_access_token` compares against, the
 * server-advertised configuration fetched once at construction, and the keyring-backed
 * authorization client that the standard strategy consults.
 */
module Credentials {
  import opened Wrappers
  import opened PyStr
  import opened Rpc

  const BearerPrefix: string := "Bearer "

  /** The default header key of `set_access_token`. */
  const DefaultHeaderKey: string := "authorization"

  /** The one `(key, value)` pair of call metadata; Python callers may pass `None` as the key. */
  datatype Header = Header(key: Option<string>, value: string)

  /** The pair `set_access_token(token, key)` stores. The key is kept as given, not lower-cased. */
  function BearerHeader(token: string, key: Option<string>): (h: Header)
    ensures h.key == key && StartsWith(h.value, BearerPrefix)
    ensures h.value[|BearerPrefix|..] == token
  {
    Header(key, BearerPrefix + token)
  }

  /**
   * `check_access_token`: false while nothing is stored; otherwise whether `token` equals the
   * stored value with every occurrence of `"Bearer "` deleted.
   */
  function CheckAccessToken(metadata: Option<Header>, token: string): (r: bool)
    ensures metadata.None? ==> !r
    ensures r ==> |token| <= |metadata.value.value|
  {
    metadata.Some? && token == RemoveAll(metadata.value.value, BearerPrefix)
  }

  /** Before any `set_access_token`, no token is reported as stored. */
  lemma CheckBeforeSet(token: string)
    ensures !CheckAccessToken(None, token)
  {
  }

  /**
   * After `set_access_token(t, k)`, `check_access_token(u)` holds exactly for the `u` equal to
   * `t` with every `"Bearer "` deleted, whatever the key.
   */
  lemma {:induction false} CheckAfterSet(t: string, key: Option<string>, u: string)
    ensures CheckAccessToken(Some(BearerHeader(t, key)), u) <==> u == RemoveAll(t, BearerPrefix)
  {
    RemoveAllPrefix(BearerPrefix, t);
  }

  /**
   * The stored token is recognised as itself exactly when it does not contain `"Bearer "`:
   * `str.replace` removes every occurrence, not only the prefix.
   */
  lemma {:induction false} CheckOwnToken(t: string, key: Option<string>)
    ensures CheckAccessToken(Some(BearerHeader(t, key)), t) <==> !Contains(t, BearerPrefix)
  {
    CheckAfterSet(t, key, t);
    RemoveAllUnchanged(t, BearerPrefix);
  }

  /** A token that contains `"Bearer "` is not recognised after being stored. */
  lemma BearerInsideToken()
    ensures !CheckAccessToken(Some(BearerHeader("Bearer abc", Some(DefaultHeaderKey))), "Bearer abc")
    ensures CheckAccessToken(Some(BearerHeader("Bearer abc", Some(DefaultHeaderKey))), "abc")
  {
    var h := BearerHeader("Bearer abc", Some(DefaultHeaderKey));
    assert h.value == "Bearer Bearer abc";
    assert RemoveAll("abc", BearerPrefix) == "abc";
    assert RemoveAll("Bearer abc", BearerPrefix) == "abc";
    assert RemoveAll(h.value, BearerPrefix) == "abc";
  }

  /** The public client configuration of the authorization metadata service. */
  datatype PublicClientConfig =
    PublicClientConfig(authorizationMetadataKey: string, redirectUri: string, clientId: string, scopes: seq<string>)

  /** The OAuth 2.0 server metadata of the authorization metadata service. */
  datatype OAuth2Metadata = OAuth2Metadata(authorizationEndpoint: string, tokenEndpoint: string)

  /** `public_client_config.authorization_metadata_key or None`: an empty key becomes `None`. */
  function HeaderKeyOf(config: PublicClientConfig): (key: Option<string>)
    ensures key.Some? <==> config.authorizationMetadataKey != ""
    ensures key.Some? ==> key.value == config.authorizationMetadataKey
  {
    if config.authorizationMetadataKey == "" then None else Some(config.authorizationMetadataKey)
  }

  /**
   * What the authorization client makes visible to the standard strategy, and how many times it
   * has taken the user through the interactive sign-in flow.
   */
  datatype AuthState = AuthState(hasValidCredentials: bool, canRefreshToken: bool, accessToken: string,
                                 interactiveFlows: nat)

  /** The mutable state the refresh strategies act on: the client's metadata and the authorization client. */
  datatype Session = Session(metadata: Option<Header>, auth: AuthState)

  /** `RawSynchronousFlyteClient` without its channel and stubs. */
  class FlyteClient {
    const url: string
    const publicClientConfig: Option<PublicClientConfig>
    const oauth2Metadata: Option<OAuth2Metadata>
    var metadata: Option<Header>

    /**
     * The two discovery calls are made once; a call that raises an `RpcError` leaves its field
     * `None`. No token is stored yet.
     */
    constructor (url: string, publicClientConfigCall: Result<PublicClientConfig, RpcError>,
                 oauth2MetadataCall: Result<OAuth2Metadata, RpcError>)
      ensures this.url == url
      ensures publicClientConfig == (if publicClientConfigCall.Ok? then Some(publicClientConfigCall.value) else None)
      ensures oauth2Metadata == (if oauth2MetadataCall.Ok? then Some(oauth2MetadataCall.value) else None)
      ensures metadata == None
    {
      this.url := url;
      publicClientConfig := if publicClientConfigCall.Ok? then Some(publicClientConfigCall.value) else None;
      oauth2Metadata := if oauth2MetadataCall.Ok? then Some(oauth2MetadataCall.value) else None;
      metadata := None;
    }

    /** `set_access_token`: the metadata is replaced wholesale by one bearer pair. */
    method SetAccessToken(accessToken: string, authorizationHeaderKey: Option<string>)
      modifies this
      ensures metadata == Some(BearerHeader(accessToken, authorizationHeaderKey))
    {
      metadata := Some(Header(authorizationHeaderKey, BearerPrefix + accessToken));
    }
  }

  /**
   * The keyring-backed authorization client of the interactive flow, by the interface the
   * standard strategy uses. Its refresh and interactive flow are foreign; the token the
   * identity provider issues is their parameter.
   */
  class AuthorizationClient {
    var hasValidCredentials: bool
    var canRefreshToken: bool
    var accessToken: string
    var interactiveFlows: nat

    constructor (state: AuthState)
      ensures State() == state
    {
      hasValidCredentials, canRefreshToken, accessToken := state.hasValidCredentials, state.canRefreshToken, state.accessToken;
      interactiveFlows := state.interactiveFlows;
    }

    function State(): AuthState
      reads this
    {
      AuthState(hasValidCredentials, canRefreshToken, accessToken, interactiveFlows)
    }

    /** `clear()`: the cached credentials stop counting as valid; the rest of the state is taken to survive it. */
    method Clear()
      modifies this
      ensures State() == old(State()).(hasValidCredentials := false)
    {
      hasValidCredentials := false;
    }

    /** `refresh_access_token()`: the identity provider issues `refreshed` without involving the user. */
    method RefreshAccessToken(refreshed: string)
      modifies this
      ensures State() == old(State()).(hasValidCredentials := true, accessToken := refreshed)
    {
      hasValidCredentials, accessToken := true, refreshed;
    }

    /** `start_authorization_flow()`: one more interactive sign-in, which ends with `signedIn`. */
    method StartAuthorizationFlow(signedIn: string)
      modifies this
      ensures State() == old(State()).(hasValidCredentials := true, accessToken := signedIn,
                                       interactiveFlows := old(interactiveFlows) + 1)
    {
      hasValidCredentials, accessToken := true, signedIn;
      interactiveFlows := interactiveFlows + 1;
    }
  }

  /** The session a client and its authorization client are in. */
  function SessionOf(client: FlyteClient, auth: AuthorizationClient): Session
    reads client, auth
  {
    Session(client.metadata, auth.State())
  }
}
