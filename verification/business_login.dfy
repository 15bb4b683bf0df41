/** Facebook Login for Business helpers (lib/meta-business-login.ts): the
    authorization URL's parameters, the token fragment parser, and the
    cancellation test.

    `URLSearchParams` is modelled as the WHATWG
    application/x-www-form-urlencoded parser without percent-decoding: a
    leading `?` is dropped, the text is split on `&`, empty pieces are
    skipped, each piece splits at its first `=` (no `=` means an empty value),
    and `+` reads as a space. Serialization is modelled for values that need
    no escaping, so that `toString` is plain `name=value` joined by `&`; the
    login URL is therefore described by its parameter list, whose values
    `toString` would percent-encode. */
module BusinessLogin {
  import opened Wrappers
  import opened Text

  datatype Param = Param(name: string, value: string)

  // ---------------------------------------------------------------- parsing

  /** `+` decodes to a space. */
  function PlusToSpace(s: string): (r: string)
    ensures |r| == |s|
    ensures forall k :: 0 <= k < |s| ==> r[k] == if s[k] == '+' then ' ' else s[k]
  {
    seq(|s|, k requires 0 <= k < |s| => if s[k] == '+' then ' ' else s[k])
  }

  /** One `&`-separated piece: name before the first `=`, value after it. */
  function ParsePair(piece: string): Param {
    var i := RunEnd(piece, 0, c => c != '=');
    if i == |piece| then Param(PlusToSpace(piece), "")
    else Param(PlusToSpace(piece[..i]), PlusToSpace(piece[i + 1..]))
  }

  function ParsePieces(pieces: seq<string>): (params: seq<Param>)
    ensures |params| <= |pieces|
  {
    if pieces == [] then []
    else if pieces[0] == "" then ParsePieces(pieces[1..])
    else [ParsePair(pieces[0])] + ParsePieces(pieces[1..])
  }

  /** `new URLSearchParams(s)`. */
  function ParseParams(s: string): seq<Param> {
    var body := if |s| > 0 && s[0] == '?' then s[1..] else s;
    ParsePieces(Split(body, '&'))
  }

  /** Index of the first parameter called `name`. */
  function FindParam(params: seq<Param>, name: string): (k: Option<nat>)
    ensures k.Some? ==> k.value < |params| && params[k.value].name == name
    ensures k.Some? ==> forall j :: 0 <= j < k.value ==> params[j].name != name
    ensures k.None? ==> forall j :: 0 <= j < |params| ==> params[j].name != name
  {
    if params == [] then None
    else if params[0].name == name then Some(0)
    else match FindParam(params[1..], name)
      case None => None
      case Some(k) => Some(k + 1)
  }

  /** `params.get(name)`: the first value under `name`, or null. */
  function GetParam(params: seq<Param>, name: string): (v: Option<string>)
    ensures v.None? <==> forall j :: 0 <= j < |params| ==> params[j].name != name
    ensures v.Some? ==> exists j :: 0 <= j < |params| && params[j] == Param(name, v.value)
  {
    match FindParam(params, name)
    case None => None
    case Some(k) => Some(params[k].value)
  }

  /** The value under `name` is the one at the first position carrying it. */
  lemma GetParamAt(params: seq<Param>, k: nat, name: string)
    requires k < |params| && params[k].name == name
    requires forall j :: 0 <= j < k ==> params[j].name != name
    ensures GetParam(params, name) == Some(params[k].value)
  {
    var f := FindParam(params, name);
    assert f.Some?;
    assert f.value == k;
  }

  // ---------------------------------------------------------------- serializing

  /** A name or value the serializer and the parser leave unchanged. */
  predicate Plain(s: string) {
    forall k :: 0 <= k < |s| ==> s[k] != '&' && s[k] != '=' && s[k] != '+' && s[k] != '#' && s[k] != '%'
  }

  predicate PlainParams(params: seq<Param>) {
    forall k :: 0 <= k < |params| ==> Plain(params[k].name) && Plain(params[k].value)
  }

  /** The serialized text does not start with the `?` the parser would drop. */
  predicate NoLeadingQuestionMark(params: seq<Param>) {
    params == [] || params[0].name == "" || params[0].name[0] != '?'
  }

  function Piece(p: Param): string {
    p.name + "=" + p.value
  }

  function Pieces(params: seq<Param>): (r: seq<string>)
    ensures |r| == |params|
    ensures forall k :: 0 <= k < |params| ==> r[k] == Piece(params[k])
  {
    if params == [] then [] else [Piece(params[0])] + Pieces(params[1..])
  }

  /** `params.toString()` for parameters that need no escaping. */
  function Serialize(params: seq<Param>): string {
    if params == [] then "" else Join(Pieces(params), '&')
  }

  lemma ParsePairOfPiece(p: Param)
    requires Plain(p.name) && Plain(p.value)
    ensures ParsePair(Piece(p)) == p
  {
    var piece := Piece(p);
    var i := RunEnd(piece, 0, c => c != '=');
    assert forall k :: 0 <= k < |p.name| ==> piece[k] == p.name[k];
    assert piece[|p.name|] == '=';
    assert i == |p.name|;
    assert piece[..i] == p.name;
    assert piece[i + 1..] == p.value;
  }

  lemma {:induction false} ParsePiecesOfPieces(params: seq<Param>)
    requires PlainParams(params)
    ensures ParsePieces(Pieces(params)) == params
    decreases |params|
  {
    if params != [] {
      ParsePairOfPiece(params[0]);
      assert Pieces(params)[1..] == Pieces(params[1..]);
      ParsePiecesOfPieces(params[1..]);
    }
  }

  lemma PieceHasNoAmpersand(p: Param)
    requires Plain(p.name) && Plain(p.value)
    ensures '&' !in Piece(p)
  {
    var piece := Piece(p);
    forall k | 0 <= k < |piece|
      ensures piece[k] != '&'
    {
      if k < |p.name| {
        assert piece[k] == p.name[k];
      } else if k > |p.name| {
        assert piece[k] == p.value[k - |p.name| - 1];
      }
    }
  }

  /** Parsing reads back every list of plain parameters it serialized, in
      order and with repetitions. */
  lemma ParseSerialize(params: seq<Param>)
    requires PlainParams(params) && NoLeadingQuestionMark(params)
    ensures ParseParams(Serialize(params)) == params
  {
    if params == [] {
      assert Split("", '&') == [""];
    } else {
      var pieces := Pieces(params);
      var s := Serialize(params);
      assert s == Join(pieces, '&');
      forall k | 0 <= k < |pieces|
        ensures '&' !in pieces[k]
      {
        PieceHasNoAmpersand(params[k]);
      }
      SplitJoin(pieces, '&');
      assert |pieces[0]| > 0 && s[0] == pieces[0][0];
      ParsePiecesOfPieces(params);
    }
  }

  // ---------------------------------------------------------------- login URL

  const CallbackPath: string := "/api/meta/business-login/callback"
  /** The ten requested permissions, comma-separated. */
  const Scopes: string := "instagram_basic,instagram_content_publish,instagram_manage_comments,instagram_manage_insights,pages_show_list,pages_read_engagement,business_management,pages_read_user_content,ads_read,read_insights"
  const Extras: string := "{\"setup\":{\"channel\":\"IG_API_ONBOARDING\"}}"

  /** The parameter list of the login URL, for any `extras` and `scope`
      values. */
  function LoginParamList(state: string, clientId: string, redirectUri: string, extras: string, scope: string)
    : (params: seq<Param>)
    ensures GetParam(params, "response_type") == Some("token")
    ensures GetParam(params, "state") == Some(state)
    ensures GetParam(params, "redirect_uri") == Some(redirectUri)
    ensures GetParam(params, "client_id") == Some(clientId)
  {
    var params := [ Param("client_id", clientId), Param("display", "page"), Param("extras", extras),
      Param("redirect_uri", redirectUri), Param("response_type", "token"),
      Param("scope", scope), Param("state", state) ];
    GetParamAt(params, 0, "client_id");
    GetParamAt(params, 3, "redirect_uri");
    GetParamAt(params, 4, "response_type");
    GetParamAt(params, 6, "state");
    params
  }

  /** The query parameters of `getBusinessLoginUrl(state)`, in order; the app
      id and the public base URL come from the environment. */
  function LoginParams(state: string, clientId: string, baseUrl: string): (params: seq<Param>)
    ensures GetParam(params, "response_type") == Some("token")
    ensures GetParam(params, "state") == Some(state)
    ensures GetParam(params, "redirect_uri") == Some(baseUrl + CallbackPath)
    ensures GetParam(params, "client_id") == Some(clientId)
  {
    LoginParamList(state, clientId, baseUrl + CallbackPath, Extras, Scopes)
  }

  // ---------------------------------------------------------------- tokens

  /** What `parseBusinessLoginTokens` returns; `None` numbers are NaN. */
  datatype BusinessTokens = BusinessTokens(
    accessToken: string,
    longLivedToken: string,
    expiresIn: Option<int>,
    dataAccessExpirationTime: Option<int>,
    state: Option<string>)

  /** The parameters of a fragment: only its first `#` is removed. */
  function FragmentParams(fragment: string): seq<Param> {
    ParseParams(RemoveFirst(fragment, "#"))
  }

  /** `parseBusinessLoginTokens(fragment)`: null unless the access token, the
      long-lived token and `expires_in` are all present and non-empty;
      `expires_in` is not required to be numeric; the data-access expiry
      defaults to 0; a missing state is passed on as null. */
  function ParseBusinessLoginTokens(fragment: string): (r: Option<BusinessTokens>)
    ensures var p := FragmentParams(fragment);
      r.Some? <==> (Truthy(GetParam(p, "access_token")) && Truthy(GetParam(p, "long_lived_token")) &&
        Truthy(GetParam(p, "expires_in")))
    ensures var p := FragmentParams(fragment);
      r.Some? ==> (r.value.accessToken == GetParam(p, "access_token").value &&
        r.value.longLivedToken == GetParam(p, "long_lived_token").value &&
        r.value.expiresIn == ParseInt(GetParam(p, "expires_in").value) &&
        r.value.state == GetParam(p, "state"))
    ensures var p := FragmentParams(fragment);
      r.Some? ==> (r.value.dataAccessExpirationTime ==
        (if Truthy(GetParam(p, "data_access_expiration_time"))
         then ParseInt(GetParam(p, "data_access_expiration_time").value) else Some(0)))
  {
    var params := FragmentParams(fragment);
    var accessToken := GetParam(params, "access_token");
    var longLivedToken := GetParam(params, "long_lived_token");
    var expiresIn := GetParam(params, "expires_in");
    var dataAccess := GetParam(params, "data_access_expiration_time");
    if !Truthy(accessToken) || !Truthy(longLivedToken) || !Truthy(expiresIn) then None
    else Some(BusinessTokens(
      accessToken.value, longLivedToken.value, ParseInt(expiresIn.value),
      if Truthy(dataAccess) then ParseInt(dataAccess.value) else Some(0),
      GetParam(params, "state")))
  }

  /** The fragment Facebook sends: `#` and the plain parameters. */
  function TokenFragment(accessToken: string, longLivedToken: string, expiresIn: nat, state: Option<string>): seq<Param> {
    [ Param("access_token", accessToken), Param("long_lived_token", longLivedToken),
      Param("expires_in", NatToString(expiresIn)) ] +
    (if state.Some? then [Param("state", state.value)] else [])
  }

  lemma DigitsArePlain(s: string)
    requires AllDigits(s)
    ensures Plain(s)
  {
  }

  lemma RemoveLeadingHash(s: string)
    ensures RemoveFirst("#" + s, "#") == s
  {
    assert OccursAt("#" + s, 0, "#");
    assert ("#" + s)[1..] == s;
  }

  lemma TokenNamesArePlain()
    ensures Plain("access_token") && Plain("long_lived_token") && Plain("expires_in") && Plain("state")
    ensures "access_token"[0] != '?'
  {
  }

  lemma TokenFragmentPlain(accessToken: string, longLivedToken: string, expiresIn: nat, state: Option<string>)
    requires Plain(accessToken) && Plain(longLivedToken) && (state.Some? ==> Plain(state.value))
    ensures var params := TokenFragment(accessToken, longLivedToken, expiresIn, state);
      PlainParams(params) && NoLeadingQuestionMark(params)
  {
    DigitsArePlain(NatToString(expiresIn));
    TokenNamesArePlain();
  }

  lemma TokenFragmentValues(accessToken: string, longLivedToken: string, expiresIn: nat, state: Option<string>)
    ensures var params := TokenFragment(accessToken, longLivedToken, expiresIn, state);
      GetParam(params, "access_token") == Some(accessToken) &&
      GetParam(params, "long_lived_token") == Some(longLivedToken) &&
      GetParam(params, "expires_in") == Some(NatToString(expiresIn)) &&
      GetParam(params, "data_access_expiration_time") == None &&
      GetParam(params, "state") == state
  {
    var params := TokenFragment(accessToken, longLivedToken, expiresIn, state);
    assert |params| <= 4;
    assert params[0].name == "access_token" && params[1].name == "long_lived_token" && params[2].name == "expires_in";
    assert |params| == 4 ==> params[3].name == "state";
    GetParamAt(params, 0, "access_token");
    GetParamAt(params, 1, "long_lived_token");
    GetParamAt(params, 2, "expires_in");
    if state.Some? {
      GetParamAt(params, 3, "state");
    }
  }

  /** The parser's reading of any fragment whose parameters hold the given
      values. */
  lemma ParseTokensOfValues(fragment: string, accessToken: string, longLivedToken: string, expiresIn: nat, state: Option<string>)
    requires accessToken != "" && longLivedToken != ""
    requires var p := FragmentParams(fragment);
      GetParam(p, "access_token") == Some(accessToken) &&
      GetParam(p, "long_lived_token") == Some(longLivedToken) &&
      GetParam(p, "expires_in") == Some(NatToString(expiresIn)) &&
      GetParam(p, "data_access_expiration_time") == None &&
      GetParam(p, "state") == state
    ensures ParseBusinessLoginTokens(fragment) == Some(BusinessTokens(accessToken, longLivedToken, Some(expiresIn), Some(0), state))
  {
    ParseIntOfIntToString(expiresIn);
    assert IntToString(expiresIn) == NatToString(expiresIn);
  }

  lemma TokenFragmentReadsBack(accessToken: string, longLivedToken: string, expiresIn: nat, state: Option<string>)
    requires Plain(accessToken) && Plain(longLivedToken) && (state.Some? ==> Plain(state.value))
    ensures var params := TokenFragment(accessToken, longLivedToken, expiresIn, state);
      FragmentParams("#" + Serialize(params)) == params
  {
    var params := TokenFragment(accessToken, longLivedToken, expiresIn, state);
    TokenFragmentPlain(accessToken, longLivedToken, expiresIn, state);
    RemoveLeadingHash(Serialize(params));
    ParseSerialize(params);
  }

  /** A fragment built from plain values parses back to those values, with a
      numeric `expires_in`, the default data-access expiry 0, and the state
      (or null when the fragment has none). */
  lemma TokenFragmentRoundTrip(accessToken: string, longLivedToken: string, expiresIn: nat, state: Option<string>)
    requires accessToken != "" && longLivedToken != ""
    requires Plain(accessToken) && Plain(longLivedToken) && (state.Some? ==> Plain(state.value))
    ensures ParseBusinessLoginTokens("#" + Serialize(TokenFragment(accessToken, longLivedToken, expiresIn, state)))
      == Some(BusinessTokens(accessToken, longLivedToken, Some(expiresIn), Some(0), state))
  {
    TokenFragmentReadsBack(accessToken, longLivedToken, expiresIn, state);
    TokenFragmentValues(accessToken, longLivedToken, expiresIn, state);
    ParseTokensOfValues("#" + Serialize(TokenFragment(accessToken, longLivedToken, expiresIn, state)),
      accessToken, longLivedToken, expiresIn, state);
  }

  const CancelMarker: string := "error=access_denied"

  /** `isBusinessLoginCanceled(fragment)`: the fragment mentions
      `error=access_denied` anywhere. */
  function IsBusinessLoginCanceled(fragment: string): (r: bool)
    ensures r <==> IndexOf(fragment, CancelMarker).Some?
    ensures r ==> |fragment| >= |CancelMarker|
  {
    Contains(fragment, CancelMarker)
  }
}
