/** What callers see of the manager: the stored token, the Authorization
    header built from it, and the wait for the first token. */
module Access {
  import opened Wrappers
  import opened Token
  import opened Lifecycle

  /** An HTTP header: canonical key to its list of values. */
  type Header = map<string, seq<string>>

  const AuthorizationKey := "Authorization"

  /** The bare access token, or "" before the first token. */
  function GetToken(m: Manager): (s: string)
    ensures m.current.None? ==> s == ""
    ensures m.current.Some? ==> s == m.current.value.accessToken
  {
    if m.current.None? then "" else m.current.value.accessToken
  }

  /** The whole stored token (a nil pointer before the first one). */
  function GetFullToken(m: Manager): (t: Option<TokenResponse>)
    ensures t == m.current
    ensures t.Some? ==> GetToken(m) == t.value.accessToken
  {
    m.current
  }

  /** The value for the Authorization header: token type, one space, access
      token; "" before the first token. */
  function GetAuthorizationHeader(m: Manager): (h: string)
    ensures m.current.None? ==> h == ""
    ensures m.current.Some? ==>
      var kind := m.current.value.tokenType;
      && |h| == |kind| + 1 + |GetToken(m)|
      && h[..|kind|] == kind && h[|kind|] == ' ' && h[|kind| + 1..] == GetToken(m)
    ensures h == "" <==> m.current.None?
  {
    match GetFullToken(m)
    case None => ""
    case Some(t) => t.tokenType + " " + t.accessToken
  }

  /** Splits an Authorization value at its first space into scheme and
      credentials; `None` when there is no space. */
  function SplitAuthorization(h: string): Option<(string, string)>
    decreases |h|
  {
    if |h| == 0 then None
    else if h[0] == ' ' then Some(("", h[1..]))
    else
      match SplitAuthorization(h[1..])
      case None => None
      case Some(parts) => Some(([h[0]] + parts.0, parts.1))
  }

  /** Splitting `scheme + " " + credentials` gives back both parts when the
      scheme has no space. */
  lemma {:induction false} SplitJoined(scheme: string, credentials: string)
    requires forall i | 0 <= i < |scheme| :: scheme[i] != ' '
    ensures SplitAuthorization(scheme + " " + credentials) == Some((scheme, credentials))
    decreases |scheme|
  {
    var h := scheme + " " + credentials;
    if |scheme| == 0 {
      assert h == [' '] + credentials;
      assert h[1..] == credentials;
    } else {
      assert h[0] == scheme[0];
      assert h[1..] == scheme[1..] + " " + credentials;
      SplitJoined(scheme[1..], credentials);
      assert [scheme[0]] + scheme[1..] == scheme;
    }
  }

  /** A header built from a token whose type has no space parses back into
      that type and access token. */
  lemma AuthorizationHeaderRoundTrip(m: Manager)
    requires m.current.Some?
    requires forall i | 0 <= i < |m.current.value.tokenType| :: m.current.value.tokenType[i] != ' '
    ensures SplitAuthorization(GetAuthorizationHeader(m)) == Some((m.current.value.tokenType, GetToken(m)))
  {
    SplitJoined(m.current.value.tokenType, m.current.value.accessToken);
  }

  /** A token type containing a space does not survive the split: the
      header of type "a b" and token "x" parses as scheme "a". */
  lemma SpacedTokenTypeMisparses()
    ensures GetAuthorizationHeader(Manager(Config.Config(0, 0, None), Some(TokenResponse("x", 1, "a b", "")), Gate(0, true), Acquiring, []))
      == "a b x"
    ensures SplitAuthorization("a b x") == Some(("a", "b x"))
  {
    assert "a b x"[1..] == " b x";
    assert " b x"[1..] == "b x";
    assert SplitAuthorization(" b x") == Some(("", "b x"));
    assert ['a'] + "" == "a";
  }

  /** Sets the Authorization header when there is a value for it and leaves
      the request untouched otherwise. Since the value always holds a space
      once a token is stored, the header is set exactly when a token is
      stored. No other header is touched. */
  function ApplyToRequest(m: Manager, req: Header): (req': Header)
    ensures m.current.None? ==> req' == req
    ensures m.current.Some? ==> AuthorizationKey in req' && req'[AuthorizationKey] == [GetAuthorizationHeader(m)]
    ensures forall k | k != AuthorizationKey :: (k in req' <==> k in req) && (k in req ==> req'[k] == req[k])
  {
    var value := GetAuthorizationHeader(m);
    if value != "" then req[AuthorizationKey := [value]] else req
  }

  /** What a call that blocks on a gate observes in a given state. */
  datatype WaitOutcome = Blocked | Returned(err: Option<string>)

  /** The gate a caller waits on: the one installed when it calls. */
  function WaitForToken(m: Manager): (g: nat)
    ensures g == m.gate.generation
    ensures Released(m, g) <==> m.gate.closed
  {
    m.gate.generation
  }

  /** `EnsureValidToken` waits on gate `g`, read when the call started, and
      in state `m` has either returned or is still blocked. It never
      reports an error. */
  function EnsureValidToken(m: Manager, g: nat): (r: WaitOutcome)
    ensures r.Returned? <==> Released(m, g)
    ensures r != Returned(None) ==> r == Blocked
  {
    if Released(m, g) then Returned(None) else Blocked
  }
}
