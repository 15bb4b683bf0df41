/** The data-deletion callback (`POST /api/facebook/data-deletion`): check
    the signed request's signature and answer with a confirmation URL.

    HMAC-SHA256 with the app secret and the standard base64 encoding of the
    digest form one oracle; decoding the payload and reading its `user_id`
    form another. The signature conversion is the base64url alphabet of
    section 5 of RFC 4648, with the padding removed as section 3.2 permits. */
module DataDeletion {
  import opened Wrappers
  import opened Text

  // ---------------------------------------------------------------- base64url

  /** The characters of the standard base64 alphabet (section 4 of RFC 4648),
      padding excluded. */
  predicate IsBase64Char(c: char) {
    'A' <= c <= 'Z' || 'a' <= c <= 'z' || '0' <= c <= '9' || c == '+' || c == '/'
  }

  /** One character moved to the URL-safe alphabet. */
  function UrlChar(c: char): char {
    if c == '+' then '-' else if c == '/' then '_' else c
  }

  /** One character moved back to the standard alphabet. */
  function StandardChar(c: char): char {
    if c == '-' then '+' else if c == '_' then '/' else c
  }

  function Count(s: string, c: char): (n: nat)
    ensures n <= |s|
  {
    if s == [] then 0 else (if s[0] == c then 1 else 0) + Count(s[1..], c)
  }

  /** The three global replacements applied to the digest: `+` to `-`, `/`
      to `_`, and every `=` dropped. */
  function ToBase64Url(s: string): (r: string)
    ensures '+' !in r && '/' !in r && '=' !in r
    ensures |r| == |s| - Count(s, '=')
  {
    if s == [] then [] else (if s[0] == '=' then [] else [UrlChar(s[0])]) + ToBase64Url(s[1..])
  }

  function Padding(n: nat): (p: string)
    ensures |p| == n && forall k :: 0 <= k < n ==> p[k] == '='
  {
    if n == 0 then [] else "=" + Padding(n - 1)
  }

  /** The inverse conversion: back to the standard alphabet, padded to a
      multiple of four characters. */
  function FromBase64Url(u: string): (s: string)
    ensures |s| % 4 == 0
  {
    seq(|u|, k requires 0 <= k < |u| => StandardChar(u[k])) + Padding((4 - |u| % 4) % 4)
  }

  lemma {:induction false} ToBase64UrlAppend(a: string, b: string)
    ensures ToBase64Url(a + b) == ToBase64Url(a) + ToBase64Url(b)
    decreases |a|
  {
    if a != [] {
      var h := if a[0] == '=' then [] else [UrlChar(a[0])];
      assert (a + b)[0] == a[0];
      assert (a + b)[1..] == a[1..] + b;
      assert ToBase64Url(a + b) == h + ToBase64Url(a[1..] + b);
      assert ToBase64Url(a) == h + ToBase64Url(a[1..]);
      ToBase64UrlAppend(a[1..], b);
    } else {
      assert a + b == b;
    }
  }

  lemma {:induction false} ToBase64UrlOfBody(body: string)
    requires forall k :: 0 <= k < |body| ==> IsBase64Char(body[k])
    ensures ToBase64Url(body) == seq(|body|, k requires 0 <= k < |body| => UrlChar(body[k]))
    decreases |body|
  {
    if body != [] {
      ToBase64UrlOfBody(body[1..]);
    }
  }

  /** The conversion introduces no character but `-` and `_`. */
  lemma {:induction false} ToBase64UrlAddsOnlyUrlChars(s: string, c: char)
    requires c !in s && c != '-' && c != '_'
    ensures c !in ToBase64Url(s)
    decreases |s|
  {
    if s != [] {
      ToBase64UrlAddsOnlyUrlChars(s[1..], c);
    }
  }

  lemma {:induction false} ToBase64UrlOfPadding(n: nat)
    ensures ToBase64Url(Padding(n)) == []
  {
    if n > 0 {
      ToBase64UrlOfPadding(n - 1);
    }
  }

  lemma ToBase64UrlOfPadded(body: string, pad: nat)
    requires forall k :: 0 <= k < |body| ==> IsBase64Char(body[k])
    ensures ToBase64Url(body + Padding(pad)) == seq(|body|, k requires 0 <= k < |body| => UrlChar(body[k]))
  {
    ToBase64UrlAppend(body, Padding(pad));
    ToBase64UrlOfBody(body);
    ToBase64UrlOfPadding(pad);
    assert ToBase64Url(body) + [] == ToBase64Url(body);
  }

  lemma PaddingRecomputed(n: nat, pad: nat)
    requires pad <= 2 && (n + pad) % 4 == 0
    ensures (4 - n % 4) % 4 == pad
  {
  }

  lemma FromBase64UrlOfMapped(body: string, pad: nat, u: string)
    requires forall k :: 0 <= k < |body| ==> IsBase64Char(body[k])
    requires pad <= 2 && (|body| + pad) % 4 == 0
    requires u == seq(|body|, k requires 0 <= k < |body| => UrlChar(body[k]))
    ensures FromBase64Url(u) == body + Padding(pad)
  {
    assert seq(|u|, k requires 0 <= k < |u| => StandardChar(u[k])) == body;
    PaddingRecomputed(|u|, pad);
  }

  /** Converting a well-formed base64 text and converting back gives the
      text again: the padding the conversion drops is recomputed from the
      length. */
  lemma Base64UrlRoundTrip(body: string, pad: nat)
    requires forall k :: 0 <= k < |body| ==> IsBase64Char(body[k])
    requires pad <= 2 && (|body| + pad) % 4 == 0
    ensures FromBase64Url(ToBase64Url(body + Padding(pad))) == body + Padding(pad)
  {
    ToBase64UrlOfPadded(body, pad);
    FromBase64UrlOfMapped(body, pad, ToBase64Url(body + Padding(pad)));
  }

  // ---------------------------------------------------------------- the route

  const MissingRequestError: string := "Missing signed_request"
  const InvalidSignatureError: string := "Invalid signature"
  const InternalError: string := "Internal server error"
  const StatusPath: string := "/data-deletion?user_id="

  /** The answers of the route. */
  datatype DeletionReply = ErrorReply(status: nat, error: string) | Confirmation(url: string, confirmationCode: Option<string>)

  /** `hmacBase64(payload)`: the standard-base64 HMAC-SHA256 digest of the
      payload under the app secret. `userIdOf(payload)`: the payload decoded
      and parsed as JSON, then its `user_id` as a template literal prints it;
      `Err` when parsing throws, `None` when the field is absent. */
  datatype Crypto = Crypto(hmacBase64: string -> string, userIdOf: string -> Result<Option<string>, string>)

  function ExpectedSignature(payload: string, crypto: Crypto): (sig: string)
    ensures '+' !in sig && '/' !in sig && '=' !in sig
  {
    ToBase64Url(crypto.hmacBase64(payload))
  }

  /** A template literal prints an absent field as `undefined`. */
  function Printed(o: Option<string>): string {
    if o.Some? then o.value else "undefined"
  }

  /** `POST` of the route. `signedRequest` is the body's `signed_request`
      field, or `Err` when the body is not JSON. */
  function DeletionPost(signedRequest: Result<Option<string>, string>, baseUrl: string, crypto: Crypto)
    : (r: DeletionReply)
    ensures signedRequest.Err? ==> r == ErrorReply(500, InternalError)
    ensures signedRequest.Ok? && !Truthy(signedRequest.value) ==> r == ErrorReply(400, MissingRequestError)
    ensures signedRequest.Ok? && Truthy(signedRequest.value) && '.' !in signedRequest.value.value ==>
      r == ErrorReply(500, InternalError)
    ensures signedRequest.Ok? && Truthy(signedRequest.value) && '.' in signedRequest.value.value ==>
      var parts := Split(signedRequest.value.value, '.');
      (r == ErrorReply(400, InvalidSignatureError) <==> parts[0] != ExpectedSignature(parts[1], crypto))
    ensures signedRequest.Ok? && Truthy(signedRequest.value) && '.' in signedRequest.value.value ==>
      var parts := Split(signedRequest.value.value, '.');
      parts[0] == ExpectedSignature(parts[1], crypto) ==>
        (r.Confirmation? <==> crypto.userIdOf(parts[1]).Ok?) &&
        (crypto.userIdOf(parts[1]).Err? ==> r == ErrorReply(500, InternalError))
    ensures r.Confirmation? ==>
      var parts := Split(signedRequest.value.value, '.');
      crypto.userIdOf(parts[1]).Ok? &&
      r.confirmationCode == crypto.userIdOf(parts[1]).value &&
      r.url == baseUrl + StatusPath + Printed(r.confirmationCode)
  {
    match signedRequest
    case Err(_) => ErrorReply(500, InternalError)
    case Ok(field) =>
      if !Truthy(field) then ErrorReply(400, MissingRequestError)
      else
        var parts := Split(field.value, '.');
        if |parts| < 2 then
          assert field.value == parts[0];
          ErrorReply(500, InternalError)
        else if parts[0] != ExpectedSignature(parts[1], crypto) then ErrorReply(400, InvalidSignatureError)
        else match crypto.userIdOf(parts[1])
          case Err(_) => ErrorReply(500, InternalError)
          case Ok(id) => Confirmation(baseUrl + StatusPath + Printed(id), id)
  }

  /** The route reads the first two `.`-separated segments and nothing else. */
  lemma DeletionPostReadsTwoSegments(x: string, y: string, baseUrl: string, crypto: Crypto)
    requires x != [] && y != []
    requires var px := Split(x, '.'); var py := Split(y, '.');
      |px| >= 2 && |py| >= 2 && px[0] == py[0] && px[1] == py[1]
    ensures DeletionPost(Ok(Some(x)), baseUrl, crypto) == DeletionPost(Ok(Some(y)), baseUrl, crypto)
  {
  }

  /** Only the first two segments count: anything after a second `.` is
      ignored. */
  lemma LaterSegmentsIgnored(sig: string, payload: string, rest: string, baseUrl: string, crypto: Crypto)
    requires '.' !in sig && '.' !in payload
    ensures DeletionPost(Ok(Some(sig + "." + payload + "." + rest)), baseUrl, crypto)
      == DeletionPost(Ok(Some(sig + "." + payload)), baseUrl, crypto)
  {
    var long := sig + "." + payload + "." + rest;
    var short := sig + "." + payload;
    assert long == sig + ['.'] + (payload + ['.'] + rest);
    assert short == sig + ['.'] + payload;
    SplitCons(sig, payload + ['.'] + rest, '.');
    SplitCons(payload, rest, '.');
    SplitCons(sig, payload, '.');
    SplitWithoutSep(payload, '.');
    DeletionPostReadsTwoSegments(long, short, baseUrl, crypto);
  }

  /** A request signed with the expected signature over a payload naming a
      user is confirmed, with the user id as confirmation code and in the
      status URL. */
  lemma SignedRequestConfirmed(payload: string, id: string, baseUrl: string, crypto: Crypto)
    requires '.' !in payload && '.' !in crypto.hmacBase64(payload)
    requires crypto.userIdOf(payload) == Ok(Some(id))
    ensures var request := ExpectedSignature(payload, crypto) + "." + payload;
      DeletionPost(Ok(Some(request)), baseUrl, crypto) == Confirmation(baseUrl + StatusPath + id, Some(id))
  {
    var sig := ExpectedSignature(payload, crypto);
    var request := sig + "." + payload;
    ToBase64UrlAddsOnlyUrlChars(crypto.hmacBase64(payload), '.');
    assert request == Join([sig, payload], '.');
    SplitJoin([sig, payload], '.');
    assert request[|sig|] == '.';
  }
}
