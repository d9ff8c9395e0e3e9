/**
 * The client-credentials helpers of flytekit/clients/raw.py: `get_secret`,
 * `get_basic_authorization_header` (the HTTP Basic scheme of section 2 of RFC 7617) and
 * `get_token` (the client-credentials token request of section 4.4.2 of RFC 6749).
 */
module TokenExchange {
  import opened Wrappers
  import opened Bytes
  import opened Rpc
  import opened PyStr
  import Base64
  import Utf8

  const NoSecretMessage: string := "No secret could be found"
  const Non200Message: string := "Non-200 received from IDP"
  const BasicPrefix: string := "Basic "

  /** The octet of `:`, the separator of section 2 of RFC 7617. */
  const ColonOctet: uint8 := 0x3A

  /** `get_secret`: the configured secret when it is truthy, else an authentication error. */
  function GetSecret(configured: Option<string>): (r: Result<string, FlyteError>)
    ensures r.Ok? <==> configured.Some? && configured.value != ""
    ensures r.Ok? ==> r.value == configured.value
    ensures r.Err? ==> r.error == FlyteAuthenticationException(NoSecretMessage)
  {
    if configured.Some? && configured.value != "" then Ok(configured.value)
    else Err(FlyteAuthenticationException(NoSecretMessage))
  }

  /** Python's `"{}".format(x)` for a value that may be `None`. */
  function FormatArg(x: Option<string>): (r: string)
    ensures x.Some? ==> r == x.value
    ensures x.None? ==> r == "None"
  {
    match x
    case None => "None"
    case Some(s) => s
  }

  /**
   * `get_basic_authorization_header`: `"Basic "` and the base64 of the UTF-8 octets of
   * `id + ":" + secret`. The text after the scheme decodes back to exactly those octets.
   */
  function BasicAuthorizationHeader(clientId: string, clientSecret: string): (r: string)
    ensures StartsWith(r, BasicPrefix)
    ensures Base64.Decode(r[|BasicPrefix|..])
         == Some(Utf8.Encode(clientId) + [ColonOctet] + Utf8.Encode(clientSecret))
  {
    var octets := Utf8.Encode(clientId + ":" + clientSecret);
    CredentialOctets(clientId, clientSecret);
    Base64.DecodeEncode(octets);
    var r := BasicPrefix + Base64.Encode(octets);
    assert r[|BasicPrefix|..] == Base64.Encode(octets);
    r
  }

  /**
   * The decoding clause of `BasicAuthorizationHeader` pins the header: any text that starts
   * with the scheme and whose rest decodes to the credential octets is that header.
   */
  lemma HeaderDeterminedByDecode(h: string, clientId: string, clientSecret: string)
    requires StartsWith(h, BasicPrefix)
    requires Base64.Decode(h[|BasicPrefix|..]) == Some(Utf8.Encode(clientId) + [ColonOctet] + Utf8.Encode(clientSecret))
    ensures h == BasicAuthorizationHeader(clientId, clientSecret)
  {
    CredentialOctets(clientId, clientSecret);
    Base64.EncodeDecode(h[|BasicPrefix|..], Utf8.Encode(clientId + ":" + clientSecret));
    assert h == h[..|BasicPrefix|] + h[|BasicPrefix|..];
  }

  /** The UTF-8 octets of `id:secret` are those of the id, a colon octet and those of the secret. */
  lemma {:induction false} CredentialOctets(clientId: string, clientSecret: string)
    ensures Utf8.Encode(clientId + ":" + clientSecret)
         == Utf8.Encode(clientId) + [ColonOctet] + Utf8.Encode(clientSecret)
  {
    Utf8.EncodeAppend(clientId + ":", clientSecret);
    Utf8.EncodeAppend(clientId, ":");
    Utf8.ColonEncoding();
  }

  /** A worked header: client id `cid` and secret `sec`. */
  lemma BasicHeaderExample()
    ensures BasicAuthorizationHeader("cid", "sec") == "Basic Y2lkOnNlYw=="
  {
    ExampleOctets();
    ExampleEncoding();
    assert BasicAuthorizationHeader("cid", "sec") == BasicPrefix + Base64.Encode(Utf8.Encode("cid" + ":" + "sec"));
  }

  lemma ExampleOctets()
    ensures Utf8.Encode("cid" + ":" + "sec") == [0x63, 0x69, 0x64, 0x3A, 0x73, 0x65, 0x63]
  {
    CredentialOctets("cid", "sec");
    assert "cid"[1..] == "id" && "id"[1..] == "d" && "d"[1..] == "";
    assert "sec"[1..] == "ec" && "ec"[1..] == "c" && "c"[1..] == "";
    assert Utf8.Encode("cid") == [0x63, 0x69, 0x64];
    assert Utf8.Encode("sec") == [0x73, 0x65, 0x63];
  }

  lemma ExampleEncoding()
    ensures Base64.Encode([0x63, 0x69, 0x64, 0x3A, 0x73, 0x65, 0x63]) == "Y2lkOnNlYw=="
  {
    var octets: seq<uint8> := [0x63, 0x69, 0x64, 0x3A, 0x73, 0x65, 0x63];
    assert Base64.EncodeTriple(0x63, 0x69, 0x64) == "Y2lk" by {
      assert 0x63 / 4 == 24 && (0x63 % 4) * 16 + 0x69 / 16 == 54;
      assert (0x69 % 16) * 4 + 0x64 / 64 == 37 && 0x64 % 64 == 36;
      assert Base64.Sextet(24) == 'Y' && Base64.Sextet(54) == '2' && Base64.Sextet(37) == 'l' && Base64.Sextet(36) == 'k';
    }
    assert Base64.EncodeTriple(0x3A, 0x73, 0x65) == "OnNl" by {
      assert 0x3A / 4 == 14 && (0x3A % 4) * 16 + 0x73 / 16 == 39;
      assert (0x73 % 16) * 4 + 0x65 / 64 == 13 && 0x65 % 64 == 37;
      assert Base64.Sextet(14) == 'O' && Base64.Sextet(39) == 'n' && Base64.Sextet(13) == 'N' && Base64.Sextet(37) == 'l';
    }
    assert Base64.EncodeSingle(0x63) == "Yw==" by {
      assert 0x63 / 4 == 24 && (0x63 % 4) * 16 == 48;
      assert Base64.Sextet(24) == 'Y' && Base64.Sextet(48) == 'w';
    }
    assert octets[3..] == [0x3A, 0x73, 0x65, 0x63] && octets[3..][3..] == [0x63];
  }

  /** The position of the first `x` in `xs`, or `|xs|` when there is none. */
  function IndexOf(xs: seq<uint8>, x: uint8): (k: nat)
    ensures k <= |xs|
    ensures k < |xs| ==> xs[k] == x
    ensures forall i :: 0 <= i < k ==> xs[i] != x
    decreases |xs|
  {
    if |xs| == 0 then 0 else if xs[0] == x then 0 else 1 + IndexOf(xs[1..], x)
  }

  /**
   * The receiving side of section 2 of RFC 7617: strip the scheme, decode, and split the
   * octets at the first colon into user-id and password.
   */
  function ParseBasicCredentials(header: string): Option<(seq<uint8>, seq<uint8>)> {
    if !StartsWith(header, BasicPrefix) then None
    else
      match Base64.Decode(header[|BasicPrefix|..])
      case None => None
      case Some(octets) =>
        var k := IndexOf(octets, ColonOctet);
        if k == |octets| then None else Some((octets[..k], octets[k + 1..]))
  }

  /**
   * A client id without a colon (which section 2 of RFC 7617 forbids in a user-id) is recovered
   * exactly, together with the secret, from the header built for it.
   */
  lemma {:induction false} BasicHeaderRoundTrip(clientId: string, clientSecret: string)
    requires ':' !in clientId
    ensures ParseBasicCredentials(BasicAuthorizationHeader(clientId, clientSecret))
         == Some((Utf8.Encode(clientId), Utf8.Encode(clientSecret)))
  {
    var a, b := Utf8.Encode(clientId), Utf8.Encode(clientSecret);
    var octets := a + [ColonOctet] + b;
    Utf8.AsciiOctetAbsent(clientId, ':');
    var k := IndexOf(octets, ColonOctet);
    assert octets[|a|] == ColonOctet;
    assert k == |a|;
    assert octets[..k] == a;
    assert octets[k + 1..] == b;
  }

  /** For ASCII inputs the encoded credentials are the characters' codes, one octet each. */
  lemma {:induction false} BasicHeaderAscii(clientId: string, clientSecret: string)
    requires Utf8.IsAscii(clientId + ":" + clientSecret)
    ensures var s := clientId + ":" + clientSecret;
      Base64.Decode(BasicAuthorizationHeader(clientId, clientSecret)[|BasicPrefix|..])
        == Some(seq(|s|, i requires 0 <= i < |s| => s[i] as int as uint8))
  {
    var s := clientId + ":" + clientSecret;
    CredentialOctets(clientId, clientSecret);
    Utf8.EncodeAscii(s);
    assert Utf8.Encode(s) == seq(|s|, i requires 0 <= i < |s| => s[i] as int as uint8);
  }

  /** The first value stored under `key` in a list of pairs (how a Python dict reads). */
  function Lookup(pairs: seq<(string, string)>, key: string): Option<string>
    decreases |pairs|
  {
    if |pairs| == 0 then None
    else if pairs[0].0 == key then Some(pairs[0].1)
    else Lookup(pairs[1..], key)
  }

  /** The form-encoded POST `get_token` sends. */
  datatype TokenRequest = TokenRequest(url: string, headers: seq<(string, string)>, body: seq<(string, string)>)

  /** The token endpoint's answer: its status and the fields of its JSON body, already read. */
  datatype HttpResponse = HttpResponse(statusCode: int, accessToken: string, expiresIn: int)

  /** One exchange with the token endpoint: what was sent and what `get_token` made of the answer. */
  datatype Exchange = Exchange(request: TokenRequest, result: Result<(string, int), FlyteError>)

  /**
   * The request of section 4.4.2 of RFC 6749 as `get_token` builds it; `scope` enters the body
   * only when it is not `None`.
   */
  function TokenRequestFor(tokenEndpoint: string, authorizationHeader: string, scope: Option<string>): (r: TokenRequest)
    ensures r.url == tokenEndpoint
    ensures Lookup(r.headers, "Authorization") == Some(authorizationHeader)
    ensures Lookup(r.headers, "Content-Type") == Some("application/x-www-form-urlencoded")
    ensures Lookup(r.headers, "Accept") == Some("application/json")
    ensures Lookup(r.body, "grant_type") == Some("client_credentials")
    ensures Lookup(r.body, "scope") == scope
  {
    var headers := [
      ("Authorization", authorizationHeader),
      ("Cache-Control", "no-cache"),
      ("Accept", "application/json"),
      ("Content-Type", "application/x-www-form-urlencoded")
    ];
    assert Lookup(headers[3..], "Content-Type") == Some("application/x-www-form-urlencoded");
    assert Lookup(headers[2..], "Accept") == Some("application/json");
    assert Lookup(headers[2..], "Content-Type") == Some("application/x-www-form-urlencoded");
    assert Lookup(headers[1..], "Accept") == Some("application/json");
    assert Lookup(headers[1..], "Content-Type") == Some("application/x-www-form-urlencoded");
    var body := [("grant_type", "client_credentials")] + (if scope.Some? then [("scope", scope.value)] else []);
    TokenRequest(tokenEndpoint, headers, body)
  }

  /**
   * `get_token`: any status other than 200 is an authentication error; otherwise the access
   * token and its lifetime from the answer.
   */
  function GetToken(tokenEndpoint: string, authorizationHeader: string, scope: Option<string>,
                    response: HttpResponse): (r: Exchange)
    ensures r.request == TokenRequestFor(tokenEndpoint, authorizationHeader, scope)
    ensures r.result.Ok? <==> response.statusCode == 200
    ensures r.result.Ok? ==> r.result.value == (response.accessToken, response.expiresIn)
    ensures r.result.Err? ==> r.result.error == FlyteAuthenticationException(Non200Message)
  {
    var request := TokenRequestFor(tokenEndpoint, authorizationHeader, scope);
    if response.statusCode != 200 then Exchange(request, Err(FlyteAuthenticationException(Non200Message)))
    else Exchange(request, Ok((response.accessToken, response.expiresIn)))
  }
}
