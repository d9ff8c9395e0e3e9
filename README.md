# Authentication and retry core of the Flyte raw client

This project models the authentication and retry layer of `RawSynchronousFlyteClient`, the thin
synchronous gRPC client of flytekit (`flytekit/clients/raw.py`), and proves properties of it.

Every endpoint of the client is a stub call wrapped in `_handle_rpc_error`. That wrapper makes
up to three attempts and classifies each failure by its gRPC status code:

- `UNAUTHENTICATED` refreshes the credentials and tries again. On the last attempt it becomes a
  `FlyteAuthenticationException`.
- `ALREADY_EXISTS` and `NOT_FOUND` are translated into Flyte exceptions at once.
- Any other code is re-raised unchanged, unless `retry` is on and attempts remain. In that case
  the wrapper sleeps `min(200 * 2^i, 1000)` ms first.

The refresh handler is picked by the configured auth mode (`_get_refresh_handler`). There are
four handlers:

- **standard**: adopts a cached credential once, or refreshes, or runs the interactive flow.
- **basic / client_credentials**: an OAuth 2.0 client-credentials exchange, section 4.4.2 of
  RFC 6749. It sends an HTTP Basic header, section 2 of RFC 7617, whose value is encoded with
  the padded standard alphabet of section 4 of RFC 4648.
- **external_process**: a command prints the token.
- **noop**: does nothing.

The client stores the token as a single `(key, "Bearer " + token)` metadata pair. The three
entity-creating endpoints are also wrapped in `_handle_invalid_create_request`.

## Modules

- `Wrappers`, `Bytes`: `Option`/`Result`; octets.
- `Rpc`: the status codes, the per-call outcome and the exceptions the layer raises.
- `PyStr`: the Python string operations the code relies on: `strip`, `join` (with `split` as its
  partner) and `replace(pat, "")`, and a `StartsWith` predicate the contracts use.
- `Utf8`: `str.encode("utf-8")`, specified by the octets of each character (`EncodeChar`), by
  encoding being a homomorphism over concatenation (`EncodeAppend`) and by its ASCII case.
- `Base64`: `base64.b64encode`, with a canonical decoder as its partner. Decoding undoes
  encoding, and every text the decoder accepts is the encoding of what it decodes to. The test
  vectors of section 10 of RFC 4648 are proved too.
- `TokenExchange`: `get_secret`, `get_basic_authorization_header` and `get_token`.
- `Credentials`: the token store.
  - `FlyteClient` is a class with the optional server metadata and the mutable `metadata` field.
  - `AuthorizationClient` is a class with the abstract state of the keyring-backed authorization
    client.
  - `check_access_token` is modelled here.
  - `Session` is a value snapshot of both objects.
- `Refresh`: the selector and the four strategies. Each of the three strategies other than noop
  is a specification function on a `Session` and a method on the two objects, proved to perform
  that function. Noop is only the `Noop` case of `ApplyRefresh` and `RunStrategy`.
- `Retry`: the retry loop and the invalid-create wrapper.
  - `Attempts` is the specification function of the loop.
  - `HandleRpcError` is the loop itself, a `for` loop over the two objects, proved equal to
    `Invocation`.
  - The lemmas give the policy's shape and scenarios.
- `Endpoints`: the endpoint table (retry flag, inner wrapper) and `Invoke`, which composes the
  wrappers as the decorators stack.

## Model

| member | source | states |
|---|---|---|
| Retry.WaitTime | flytekit/clients/raw.py:172 | `min(200 * 2^i, 1000)`: every wait is at least the 200 ms base and at most the 1000 ms cap |
| Retry.WaitTimes | flytekit/clients/raw.py:168-172 | the back-off waits of attempts 0 and 1 are 200 ms and 400 ms; the 1000 ms cap is never reached on an attempt that can back off |
| Retry.Attempts | flytekit/clients/raw.py:144-174 | the policy from attempt `i` on, as a recursive function over the scripted outcomes; every run it gives starts with a stub call |
| Retry.Invocation | flytekit/clients/raw.py:135-178 | one decorated invocation is the policy from attempt 0 with the handlers of the client's configuration; it starts with a stub call |
| Retry.HandleRpcError | flytekit/clients/raw.py:135-178 | the loop ends with the result, the trace of calls, refreshes and sleeps, and the client and authorization-client state that `Invocation` gives for the scripted outcomes, the foreign answers and the initial state |
| Retry.Attempt | flytekit/clients/raw.py:145-174 | one pass of the loop, on the objects: either it ends the invocation with the result, actions and state that attempt `i` of `Attempts` gives, or it records `Call` and a refresh or sleep and leaves the objects in the state from which attempt `i + 1` goes on |
| Retry.AttemptUnauthenticated | flytekit/clients/raw.py:151-158 | the `UNAUTHENTICATED` branch of a pass, on the objects: on the last attempt it raises `FlyteAuthenticationException`; otherwise a selector error or a handler error ends the invocation, and a successful refresh leaves the objects in the state from which attempt `i + 1` goes on |
| Retry.AttemptRefreshes | flytekit/clients/raw.py:150-156 | an `UNAUTHENTICATED` failure before the last attempt whose handler refreshes records `Call, Refresh(mode)` and continues from the next attempt in the refreshed session, without sleeping |
| Retry.AttemptBacksOff | flytekit/clients/raw.py:166-172 | a failure with any other code, when `retry` holds and attempts remain, records `Call, Sleep(min(200*2^i, 1000))` and continues in the same session |
| Retry.AttemptsStep | flytekit/clients/raw.py:145-174 | each attempt either ends the run after one call, leaving the session alone, or is a retried failure followed by a refresh or (only with `retry`) a sleep, and then the next attempt |
| Retry.AttemptsShape | flytekit/clients/raw.py:144-174 | between 1 and 3 calls; every outcome before the last consumed one is a retried failure; the run returns exactly when the last consumed outcome is a success, with its response unchanged; `ALREADY_EXISTS` and `NOT_FOUND` are translated, `UNAUTHENTICATED` on attempt 2 becomes `FlyteAuthenticationException(str(e))`, and other codes are re-raised unchanged |
| Retry.FailFast | flytekit/clients/raw.py:159-167 | a failure the loop does not retry (`ALREADY_EXISTS`, `NOT_FOUND`, or any non-auth code when `retry` is off) raises after exactly one call, with no refresh or sleep and the session untouched |
| Retry.AttemptsActions | flytekit/clients/raw.py:151-172 | every refresh uses the configured auth mode; every sleep happens only when `retry` is on and lasts 200 or 400 ms |
| Retry.SessionUntouched | flytekit/clients/raw.py:145-174 | a run that records no refresh leaves the client's metadata and the authorization client unchanged |
| Retry.FirstCallSucceeds | flytekit/clients/raw.py:145-147 | a successful first call is returned unchanged after one call, with nothing refreshed |
| Retry.InvalidAuthMode | flytekit/clients/raw.py:150-156 | an `UNAUTHENTICATED` first call under an unknown auth mode raises the selector's `ValueError` after one call and before any refresh |
| Retry.RefreshFailurePropagates | flytekit/clients/raw.py:155-156 | an exception raised by the refresh handler ends the invocation after `Call, Refresh(mode)`, with the session unchanged |
| Retry.StandardWithoutClientConfig | flytekit/clients/raw.py:37-38 | under standard auth with no public client config, the refresh raises `AttributeError`, not the `ValueError` of line 39 |
| Retry.RefreshThenSuccess | flytekit/clients/raw.py:145-158 | under any auth mode whose handler refreshes: `UNAUTHENTICATED` then success gives `Call, Refresh, Call`, the second response, and the refreshed session |
| Retry.TwoRefreshesThenSuccess | flytekit/clients/raw.py:145-158 | under any auth mode whose handler refreshes twice: `UNAUTHENTICATED`, `UNAUTHENTICATED`, success gives two refreshes, three calls, no sleep, the third response and the twice-refreshed session |
| Retry.AuthenticationExhausted | flytekit/clients/raw.py:151-158 | under any auth mode whose handler refreshes twice, three `UNAUTHENTICATED` failures give exactly two refreshes and then `FlyteAuthenticationException` carrying the third error's text, in the twice-refreshed session |
| Retry.StandardRefreshThenSuccess | flytekit/clients/raw.py:30-66 | standard auth with both metadata present always refreshes, so `UNAUTHENTICATED` then success ends in the session the standard strategy produces |
| Retry.BackoffThenSuccess | flytekit/clients/raw.py:166-172 | with `retry`, two transient failures then a success give `Call, Sleep 200, Call, Sleep 400, Call` and the success |
| Retry.BackoffExhausted | flytekit/clients/raw.py:166-168 | with `retry`, three transient failures give two back-offs and then the third error re-raised unchanged |
| Retry.InvalidCreateRequest | flytekit/clients/raw.py:181-193 | a success becomes `None` (the return value is dropped); every error passes through unchanged; exactly `INVALID_ARGUMENT` logs the request |
| Retry.GuardAll | flytekit/clients/raw.py:181-193 | the successive outcomes of a wrapped create call, each as the inner wrapper leaves it |
| Retry.GuardedAttempts | flytekit/clients/raw.py:181-193 | the inner wrapper leaves the retry loop's trace, exceptions and final session unchanged; only a returned response becomes `None` |
| Endpoints.RetryFlag | flytekit/clients/raw.py:292-785 | an endpoint's decorator passes `retry=True` exactly when its verb is `get` or `list` |
| Endpoints.CreateWrapped | flytekit/clients/raw.py:292-573 | an endpoint carries the invalid-create wrapper only if its verb is `create`, and then it does not retry |
| Endpoints.RetriedExactlyReads | flytekit/clients/raw.py:292-785 | the decorators pass `retry=True` exactly to the endpoints named `get_*` or `list_*` |
| Endpoints.CreateWrappedEndpoints | flytekit/clients/raw.py:292-573 | only `create_*` endpoints carry the invalid-create wrapper, none of them retries, and `create_execution` does not carry it |
| Endpoints.SeenOutcomes | flytekit/clients/raw.py:292-294 | the inner wrapper keeps the number of scripted outcomes |
| Endpoints.Invoke | flytekit/clients/raw.py:292-294 | calling an endpoint is `_handle_rpc_error` with that endpoint's flag, wrapped around the inner wrapper when the endpoint has it |
| Endpoints.CreateReturnsNone | flytekit/clients/raw.py:181-186 | a wrapped create endpoint returns `None` exactly when the plain stub call would have returned, and otherwise behaves identically |
| Refresh.GetRefreshHandler | flytekit/clients/raw.py:122-132 | each of the four mode strings maps to its strategy (both directions); every other mode is a `ValueError` with the mode in its message; the no-op strategy is never returned |
| Refresh.StandardRefresh | flytekit/clients/raw.py:30-66 | the standard strategy fails exactly when either metadata is absent; when it succeeds, the client stores the very token the authorization client then holds, under the configured key, and the can-refresh mark is unchanged |
| Refresh.RefreshCredentialsStandard | flytekit/clients/raw.py:30-66 | the method changes the client and authorization client exactly as `StandardRefresh` says, calling `refresh_access_token` when a refresh token exists and `start_authorization_flow` otherwise, or raises its error and changes nothing |
| Refresh.BasicScope | flytekit/clients/raw.py:86-87 | the configured scopes, else the advertised ones, comma-joined; when no scope holds a comma, splitting the result on commas gives the chosen scopes back |
| Refresh.BasicTokenCall | flytekit/clients/raw.py:79-92 | the token request is built exactly when both metadata are present and a secret is configured; absent metadata is the `ValueError`; the request goes to the advertised token endpoint with the chosen scopes |
| Refresh.BasicRefresh | flytekit/clients/raw.py:69-96 | the basic strategy succeeds exactly when the request is built and the endpoint answers 200; it then stores the returned token under the advertised key and changes nothing else |
| Refresh.CommandRefresh | flytekit/clients/raw.py:99-115 | the command strategy succeeds exactly on a zero exit, stores a token, and leaves the authorization client alone |
| Refresh.ApplyRefresh | flytekit/clients/raw.py:118-158 | the no-op handler leaves the session as it is; every other handler that succeeds stores a token |
| Refresh.RefreshCredentialsBasic | flytekit/clients/raw.py:69-96 | the method changes the client exactly as `BasicRefresh` says (the authorization client is not touched), or raises its error and changes nothing |
| Refresh.RefreshCredentialsFromCommand | flytekit/clients/raw.py:99-115 | the method changes the client exactly as `CommandRefresh` says, or raises its error and changes nothing |
| Refresh.RunStrategy | flytekit/clients/raw.py:157-158 | calling any handler, the no-op one included, performs `ApplyRefresh` on the two objects |
| Refresh.StandardMissingMetadata | flytekit/clients/raw.py:37-42 | an absent public client config is an `AttributeError` whatever the OAuth2 metadata; a present config with absent OAuth2 metadata is the `ValueError` |
| Refresh.StandardDecisionOrder | flytekit/clients/raw.py:50-66 | with both metadata present: a valid cached token that differs from the stored one is adopted and then invalidated; otherwise, with a refresh token, the refreshed token is adopted; otherwise the token of a new interactive sign-in is adopted; in the last two cases the authorization client holds valid credentials |
| Refresh.InteractiveOnlyWithoutRefreshToken | flytekit/clients/raw.py:50-64 | the count of interactive sign-ins never decreases, and the standard strategy adds one exactly when no cached credential is adopted and the client cannot refresh |
| Refresh.StandardStoresAuthToken | flytekit/clients/raw.py:50-66 | after a standard refresh, `check_access_token` of the authorization client's token holds exactly when that token does not contain `"Bearer "` |
| Refresh.CachedCredentialUsedOnce | flytekit/clients/raw.py:50-66 | a cached credential is adopted once; the next standard refresh adopts the refreshed token when a refresh token exists and the signed-in token otherwise |
| Refresh.BasicRequestContents | flytekit/clients/raw.py:85-93 | for every client id, the basic request goes to the token endpoint with `grant_type=client_credentials` and the comma-joined scopes (configured, else advertised) |
| Refresh.BasicHeaderRecovered | flytekit/clients/raw.py:89-93 | for a client id without `:`, the client id and secret octets are recovered from the Basic header of the request |
| Refresh.BasicScopesCommaJoined | flytekit/clients/raw.py:86-87 | the scopes `openid` and `offline` are sent as `openid,offline` |
| Refresh.BasicWithoutSecret | flytekit/clients/raw.py:90-92 | with no secret configured, the basic strategy raises the no-secret authentication error before any token request |
| Refresh.BasicExchangeOutcome | flytekit/clients/raw.py:93-96 | once the request is built, the basic strategy succeeds exactly on status 200, storing the returned token under the advertised key; otherwise it raises the non-200 error |
| Refresh.CommandOutcome | flytekit/clients/raw.py:108-115 | a zero exit stores `"Bearer " + stdout.strip()` under `authorization`; a non-zero exit raises `FlyteAuthenticationException` whose message is the fixed prefix followed by the failure's text |
| Refresh.CommandTokenTrimmed | flytekit/clients/raw.py:115 | the stored command token has no surrounding white space and is its own strip |
| Refresh.OnlyStandardTouchesAuth | flytekit/clients/raw.py:69-119 | the basic, command and no-op strategies leave the authorization client alone |
| TokenExchange.FormatArg | flytekit/clients/raw.py:851 | `"{}".format(x)`: a configured string is passed verbatim and an unset one becomes `"None"` |
| TokenExchange.GetSecret | flytekit/clients/raw.py:831-840 | the secret is returned exactly when configured and non-empty; otherwise `FlyteAuthenticationException("No secret could be found")` |
| TokenExchange.BasicAuthorizationHeader | flytekit/clients/raw.py:843-852 | the header starts with `"Basic "` and the rest Base64-decodes to `utf8(id) + ":" + utf8(secret)` |
| TokenExchange.HeaderDeterminedByDecode | flytekit/clients/raw.py:843-852 | a text that starts with `"Basic "` and whose rest decodes to the credential octets is exactly the header, so the decoding clause of `BasicAuthorizationHeader` fixes its text |
| TokenExchange.CredentialOctets | flytekit/clients/raw.py:851-852 | the UTF-8 encoding of `id:secret` is the encoding of the id, the colon octet and the encoding of the secret |
| TokenExchange.BasicHeaderRoundTrip | flytekit/clients/raw.py:843-852 | for a client id without `:`, parsing the header as RFC 7617 says gives back exactly the id and secret octets |
| TokenExchange.BasicHeaderExample | flytekit/clients/raw.py:843-852 | the header for id `cid` and secret `sec` is `Basic Y2lkOnNlYw==` |
| TokenExchange.BasicHeaderAscii | flytekit/clients/raw.py:851-852 | for ASCII input, the encoded credentials are the code points of `id:secret` |
| TokenExchange.TokenRequestFor | flytekit/clients/raw.py:811-821 | the request carries the `Authorization`, `Accept` and `Content-Type` headers, `grant_type=client_credentials`, and a `scope` field exactly when a scope is given |
| TokenExchange.GetToken | flytekit/clients/raw.py:803-828 | the result is the access token and expiry exactly when the status is 200; any other status raises `FlyteAuthenticationException("Non-200 received from IDP")` |
| Credentials.BearerHeader | flytekit/clients/raw.py:263-272 | the stored pair has the given key, unchanged and not lower-cased, and the value `"Bearer " + token` |
| Credentials.CheckAccessToken | flytekit/clients/raw.py:274-284 | with nothing stored no token passes; a token that passes is no longer than the stored value |
| Credentials.CheckBeforeSet | flytekit/clients/raw.py:282-283 | with no metadata stored, `check_access_token` is false for every token |
| Credentials.CheckAfterSet | flytekit/clients/raw.py:274-284 | after storing `t`, `check_access_token(u)` holds exactly when `u` equals `t` with every `"Bearer "` removed |
| Credentials.CheckOwnToken | flytekit/clients/raw.py:284 | a stored token passes its own check exactly when it does not contain `"Bearer "` |
| Credentials.BearerInsideToken | flytekit/clients/raw.py:284 | the stored token `"Bearer abc"` fails its own check and `"abc"` passes it |
| Credentials.HeaderKeyOf | flytekit/clients/raw.py:37 | `authorization_metadata_key or None`: an empty key is `None`, any other is kept |
| Credentials.FlyteClient.constructor | flytekit/clients/raw.py:204-249 | each optional metadata field holds the fetched value, or `None` when its fetch raised; the stored metadata starts as `None` |
| Credentials.FlyteClient.SetAccessToken | flytekit/clients/raw.py:263-272 | the stored metadata is replaced wholesale by the one bearer pair |
| Credentials.AuthorizationClient.constructor | flytekit/clients/raw.py:43-49 | the authorization client starts in the given state |
| Credentials.AuthorizationClient.Clear | flytekit/clients/raw.py:59 | clearing drops the valid-credentials mark; the rest of the state, the refresh token included, is taken to survive it |
| Credentials.AuthorizationClient.RefreshAccessToken | flytekit/clients/raw.py:61-62 | a refresh leaves the client holding valid credentials with the issued token |
| Credentials.AuthorizationClient.StartAuthorizationFlow | flytekit/clients/raw.py:63-64 | the interactive flow leaves the client holding valid credentials with the signed-in token, and counts one more interactive sign-in |
| Base64.Encode | flytekit/clients/raw.py:852 | `b64encode` output is four characters per started 3-octet group, all from the alphabet or `=` |
| Base64.RfcVectors | flytekit/clients/raw.py:852 | the encodings of `""`, `f`, `fo`, `foo`, `foob`, `fooba` and `foobar` are the test vectors of section 10 of RFC 4648 |
| Base64.DecodeEncode | flytekit/clients/raw.py:852 | decoding the encoding of any octet sequence gives it back |
| Base64.EncodeDecode | flytekit/clients/raw.py:852 | the decoder accepts nothing but `b64encode` output: any text that decodes is exactly the encoding of its octets (non-zero bits after the last octet of a padded quantum are rejected) |
| Base64.NonCanonicalRejected | flytekit/clients/raw.py:852 | the text `Zh==`, which `b64encode` never produces, does not decode |
| Base64.EncodeInjective | flytekit/clients/raw.py:852 | distinct octet sequences have distinct encodings |
| Utf8.EncodeChar | flytekit/clients/raw.py:852 | one character is 1 to 4 octets; exactly ASCII is one octet, equal to its code point; longer encodings have no ASCII octet |
| Utf8.Encode | flytekit/clients/raw.py:852 | the encoding has between 1 and 4 octets per character |
| Utf8.EncodeAppend | flytekit/clients/raw.py:851-852 | encoding a concatenation is the concatenation of the encodings |
| Utf8.EncodeAscii | flytekit/clients/raw.py:852 | ASCII text encodes to its code points, one octet each |
| Utf8.AsciiOctetAbsent | flytekit/clients/raw.py:851-852 | an ASCII character absent from the text has no octet in its encoding, so the only colon octet in the credentials is the separator |
| Utf8.ColonEncoding | flytekit/clients/raw.py:851 | `":"` encodes to the single octet 0x3A |
| PyStr.Strip | flytekit/clients/raw.py:115 | `strip()` removes only white space, only from the ends, and leaves no white space at either end |
| PyStr.StripIdempotent | flytekit/clients/raw.py:115 | stripping twice is stripping once |
| PyStr.Join | flytekit/clients/raw.py:87 | `sep.join(xs)`: an empty list joins to `""`, and the first element is a prefix of the result |
| PyStr.SplitJoin | flytekit/clients/raw.py:87 | when no scope contains the comma, splitting `",".join(scopes)` on the comma gives the scopes back |
| PyStr.RemoveAll | flytekit/clients/raw.py:284 | `replace(pat, "")` never lengthens the text |
| PyStr.RemoveAllUnchanged | flytekit/clients/raw.py:284 | `replace("Bearer ", "")` is the identity exactly when `"Bearer "` does not occur |
| PyStr.RemoveAllPresent | flytekit/clients/raw.py:284 | an occurrence makes the text strictly shorter |
| PyStr.RemoveAllPrefix | flytekit/clients/raw.py:284 | a leading occurrence is removed along with every later one |

## Left out

- Channel construction is not modelled: the insecure and secure gRPC channels, TLS credentials and reading the root certificate (flytekit/clients/raw.py:215-234). It is transport I/O.
- The stub calls of the endpoints are not modelled. Each wrapped invocation instead consumes a script of outcomes, one per attempt: a response or an `RpcError` with its code and `str()` text. The requests and response messages have no further structure.
- Only `RpcError` is modelled as something the stub can raise. Other exceptions propagate through `_handle_rpc_error` untouched in Python.
- `requests.post` and JSON decoding in `get_token` are replaced by an `HttpResponse` value. The value holds the status and the already-decoded `access_token` and `expires_in`. The response text is only logged (flytekit/clients/raw.py:824), so it is not part of the value. A malformed JSON body and a missing field are not modelled.
- `subprocess.run` is replaced by a `CommandRun` value, the answer to running the configured `COMMAND`; the command itself is only passed to `subprocess.run` and logged, so `Config` does not hold it. A missing executable (`FileNotFoundError`, not caught by line 112) is not modelled.
- The keyring-backed authorization client returned by `_credentials_access.get_client` is modelled abstractly. Its state is a valid-credentials mark, a can-refresh mark, the access token and a count of interactive sign-ins. The token that `refresh_access_token` obtains and the one that `start_authorization_flow` ends with are two separate answers of the outside world. Their own failures and the singleton's construction arguments are not modelled. `clear()` is taken to change only the valid-credentials mark; the refresh token and the access token survive it. The second half of `Refresh.CachedCredentialUsedOnce` (which branch the next refresh takes) rests on that assumption, since flytekit/clients/raw.py:55-58 says only that one of the two other branches follows.
- `Utf8.Encode`: a Python `str` can hold lone surrogates, for which `.encode("utf-8")` at flytekit/clients/raw.py:852 raises `UnicodeEncodeError`; a Dafny `char` is a Unicode scalar value and cannot hold one, so that error path is not modelled.
- `time.sleep`, logging and `MessageToJson` are not performed. The trace records each sleep's duration in milliseconds. `InvalidCreateRequest` records whether the request would be logged.
- The configuration singletons (`AUTH_MODE`, `SCOPES`, `CLIENT_ID`, `CLIENT_CREDENTIALS_SECRET`) are one `Config` value. It is read afresh on every attempt, but it is taken to be constant during an invocation.
- `HandleRpcError`: `retry` is a `bool`. Python's `retry is False` is an identity test that would treat a non-`bool` false value as "retry". No decoration site passes such a value.
- The `url`, `public_client_config` and `oauth2_metadata` properties are read-only fields of `FlyteClient`.
- The endpoint bodies beyond their decorators are not modelled (flytekit/clients/raw.py:292-792). Neither are flytekit/types/iterator/json_iterator.py, flytekit/sensor/sensor_engine.py and flytekit/configuration/images.py, which are file, asynchronous-agent and configuration plumbing outside this layer.
- The code is followed where it disagrees with its comments or with the intent stated elsewhere:
  - `set_access_token` does not lower-case the key, despite the comment at flytekit/clients/raw.py:264-265.
  - `check_access_token` removes every `"Bearer "`, not only the prefix.
  - An absent public client config fails the standard strategy with `AttributeError` at line 37, before the check at line 38.
  - The three wrapped create endpoints return `None` on success, because line 184 drops the return value.
