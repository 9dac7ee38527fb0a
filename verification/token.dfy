/** The client-credentials token request: the form it posts and how the
    outcome of the HTTP exchange becomes a token or an error. */
module Token {
  import opened Wrappers

  /** A decoded token-endpoint response (`access_token`, `expires_in`,
      `token_type` and `scope`). `expiresIn` is in seconds. */
  datatype TokenResponse = TokenResponse(
    accessToken: string,
    expiresIn: int,
    tokenType: string,
    scope: string)

  /** The configuration of a client-credentials provider. The HTTP client
      is not modelled: the exchange is an input of `GetNewToken`. */
  datatype Provider = Provider(
    tokenUrl: string,
    clientId: string,
    clientSecret: string,
    scope: string,
    extraParams: map<string, string>)

  /** Form parameters. Every key is only ever written with `Set`, which
      stores exactly one value, so one string per key suffices. */
  type Form = map<string, string>

  /** The request handed to the HTTP layer. */
  datatype Request = Request(verb: string, url: string, form: Form)

  /** Reading the response body either yields its text or fails. */
  datatype Body = Read(text: string) | ReadFailed(reason: string)

  /** What the HTTP layer made of a request: it could not build it (a bad
      URL), could not send it, or got a response with a status code. */
  datatype Exchange =
    | InvalidRequest(reason: string)
    | SendFailed(reason: string)
    | Responded(status: int, body: Body)

  /** One error per failure path of `GetNewToken`. */
  datatype TokenError =
    | CreateRequestError(reason: string)
    | SendRequestError(reason: string)
    | ReadResponseError(reason: string)
    | UnexpectedStatus(status: int, body: string)
    | ParseError(reason: string)

  const StatusOK := 200

  const GrantTypeKey := "grant_type"
  const ClientIdKey := "client_id"
  const ClientSecretKey := "client_secret"
  const ScopeKey := "scope"
  const ClientCredentials := "client_credentials"

  /** The parameters set before the extra parameters are applied. */
  function StandardParams(p: Provider): (f: Form)
    ensures GrantTypeKey in f && f[GrantTypeKey] == ClientCredentials
    ensures ClientIdKey in f && f[ClientIdKey] == p.clientId
    ensures ClientSecretKey in f && f[ClientSecretKey] == p.clientSecret
    ensures ScopeKey in f <==> p.scope != ""
    ensures ScopeKey in f ==> f[ScopeKey] == p.scope
    ensures f.Keys <= {GrantTypeKey, ClientIdKey, ClientSecretKey, ScopeKey}
  {
    var base := map[GrantTypeKey := ClientCredentials, ClientIdKey := p.clientId, ClientSecretKey := p.clientSecret];
    if p.scope != "" then base[ScopeKey := p.scope] else base
  }

  /** `order` is an order in which Go's `range` may visit the keys of `m`:
      each key exactly once. */
  predicate IsRangeOrder(order: seq<string>, m: map<string, string>) {
    && (forall i | 0 <= i < |order| :: order[i] in m)
    && (forall k | k in m :: k in order)
    && (forall i, j | 0 <= i < j < |order| :: order[i] != order[j])
  }

  /** The `range` loop over the extra parameters: `Set` each visited key. */
  function SetEach(data: Form, extras: map<string, string>, order: seq<string>): Form
    requires forall i | 0 <= i < |order| :: order[i] in extras
    decreases |order|
  {
    if |order| == 0 then data
    else SetEach(data[order[0] := extras[order[0]]], extras, order[1..])
  }

  /** The extras restricted to the keys that `order` visits. */
  function Visited(extras: map<string, string>, order: seq<string>): map<string, string>
  {
    map k | k in order && k in extras :: extras[k]
  }

  /** Setting the visited keys one by one overlays them on the form with
      replace semantics, whatever the order. */
  lemma {:induction false} SetEachOverlays(data: Form, extras: map<string, string>, order: seq<string>)
    requires forall i | 0 <= i < |order| :: order[i] in extras
    ensures SetEach(data, extras, order) == data + Visited(extras, order)
    decreases |order|
  {
    if |order| > 0 {
      var k := order[0];
      var rest := order[1..];
      SetEachOverlays(data[k := extras[k]], extras, rest);
      assert order == [k] + rest;
      forall x
        ensures x in data + Visited(extras, order) <==> x in data[k := extras[k]] + Visited(extras, rest)
      {
        assert x in order <==> x == k || x in rest;
      }
      forall x | x in data + Visited(extras, order)
        ensures (data + Visited(extras, order))[x] == (data[k := extras[k]] + Visited(extras, rest))[x]
      {
        assert x in order <==> x == k || x in rest;
      }
    }
  }

  /** The form posted to the token endpoint: the standard parameters, then
      every extra parameter with replace semantics. The result does not
      depend on the order in which the extras are visited. */
  function FormParams(p: Provider, order: seq<string>): (f: Form)
    requires IsRangeOrder(order, p.extraParams)
    ensures f == StandardParams(p) + p.extraParams
  {
    SetEachOverlays(StandardParams(p), p.extraParams, order);
    assert Visited(p.extraParams, order) == p.extraParams;
    SetEach(StandardParams(p), p.extraParams, order)
  }

  /** Key by key: an extra parameter always wins, every other key keeps its
      standard value, and no key appears from elsewhere. */
  lemma FormParamsContents(p: Provider, order: seq<string>)
    requires IsRangeOrder(order, p.extraParams)
    ensures forall k | k in p.extraParams :: k in FormParams(p, order) && FormParams(p, order)[k] == p.extraParams[k]
    ensures forall k | k !in p.extraParams ::
      (k in FormParams(p, order) <==> k in StandardParams(p))
      && (k in StandardParams(p) ==> FormParams(p, order)[k] == StandardParams(p)[k])
  {
  }

  /** Without extras, `scope` is sent exactly when the provider has a
      non-empty scope, and then with that value; the three client
      credential keys are always sent. */
  lemma FormWithoutExtras(p: Provider)
    requires p.extraParams == map[]
    ensures FormParams(p, [])[GrantTypeKey] == ClientCredentials
    ensures FormParams(p, [])[ClientIdKey] == p.clientId
    ensures FormParams(p, [])[ClientSecretKey] == p.clientSecret
    ensures ScopeKey in FormParams(p, []) <==> p.scope != ""
    ensures ScopeKey in FormParams(p, []) ==> FormParams(p, [])[ScopeKey] == p.scope
  {
    assert StandardParams(p) + p.extraParams == StandardParams(p);
  }

  /** Two visiting orders of the extras give the same form. */
  lemma FormIndependentOfRangeOrder(p: Provider, order1: seq<string>, order2: seq<string>)
    requires IsRangeOrder(order1, p.extraParams) && IsRangeOrder(order2, p.extraParams)
    ensures FormParams(p, order1) == FormParams(p, order2)
  {
  }

  /** The POST request sent for provider `p`. */
  function TokenRequest(p: Provider, order: seq<string>): Request
    requires IsRangeOrder(order, p.extraParams)
  {
    Request("POST", p.tokenUrl, FormParams(p, order))
  }

  /** One token request: build and send the request through `transport`,
      read the body, check the status and decode the body with `decode`
      (the JSON decoder). Every failure path yields an error and no token;
      only a 200 response whose body decodes yields a token, and it is the
      decoded token itself. */
  function GetNewToken(
    p: Provider,
    order: seq<string>,
    transport: Request -> Exchange,
    decode: string -> Result<TokenResponse, string>): (r: Result<TokenResponse, TokenError>)
    requires IsRangeOrder(order, p.extraParams)
    ensures var x := transport(TokenRequest(p, order));
      r.Success? <==> x.Responded? && x.status == StatusOK && x.body.Read? && decode(x.body.text).Success?
    ensures var x := transport(TokenRequest(p, order));
      r.Success? ==> r.value == decode(x.body.text).value
    ensures var x := transport(TokenRequest(p, order));
      && (x.InvalidRequest? ==> r.Failure? && r.error.CreateRequestError?)
      && (x.SendFailed? ==> r.Failure? && r.error.SendRequestError?)
      && (x.Responded? && x.body.ReadFailed? ==> r.Failure? && r.error.ReadResponseError?)
      && (x.Responded? && x.body.Read? && x.status != StatusOK ==> r == Failure(UnexpectedStatus(x.status, x.body.text)))
      && (x.Responded? && x.body.Read? && x.status == StatusOK && decode(x.body.text).Failure? ==> r.Failure? && r.error.ParseError?)
  {
    match transport(TokenRequest(p, order))
    case InvalidRequest(why) => Failure(CreateRequestError(why))
    case SendFailed(why) => Failure(SendRequestError(why))
    case Responded(status, body) =>
      match body
      case ReadFailed(why) => Failure(ReadResponseError(why))
      case Read(text) =>
        if status != StatusOK then Failure(UnexpectedStatus(status, text))
        else
          match decode(text)
          case Failure(why) => Failure(ParseError(why))
          case Success(token) => Success(token)
  }

  /** A non-200 status is an error whatever the body and the decoder say. */
  lemma NonOkStatusIsError(
    p: Provider,
    order: seq<string>,
    transport: Request -> Exchange,
    decode: string -> Result<TokenResponse, string>)
    requires IsRangeOrder(order, p.extraParams)
    requires transport(TokenRequest(p, order)).Responded?
    requires transport(TokenRequest(p, order)).status != StatusOK
    ensures GetNewToken(p, order, transport, decode).Failure?
  {
  }

  /** A body that decodes to a token after a 200 response yields exactly
      that token: the fields are carried over unchanged. */
  lemma DecodedTokenReturned(
    p: Provider,
    order: seq<string>,
    transport: Request -> Exchange,
    decode: string -> Result<TokenResponse, string>,
    text: string,
    token: TokenResponse)
    requires IsRangeOrder(order, p.extraParams)
    requires transport(TokenRequest(p, order)) == Responded(StatusOK, Read(text))
    requires decode(text) == Success(token)
    ensures GetNewToken(p, order, transport, decode) == Success(token)
  {
  }
}
