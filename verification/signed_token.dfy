/**
 * Self-contained signed tokens: `encoded.sig`, where `encoded` is the
 * base64url JSON payload and `sig` the base64url HMAC-SHA256 of `encoded`.
 * JSON, base64 and HMAC are the library functions in `Codec`.
 */
module SignedToken {
  import opened Wrappers
  import opened Text
  import opened Json

  datatype TokenPayload = TokenPayload(
    trackerId: string, campaignId: string, channelId: string, targetId: string,
    exp: int, mode: string)

  /** JSON (un)marshalling, unpadded base64url and HMAC-SHA256, as opaque functions. */
  datatype Codec = Codec(
    marshal: TokenPayload -> Bytes,
    unmarshal: Bytes -> Option<TokenPayload>,
    encode: Bytes -> string,
    decode: string -> Option<Bytes>,
    hmac: (string, string) -> Bytes)

  /** The codec's functions invert each other on the payloads and bytes of one token. */
  predicate RoundTrips(c: Codec, p: TokenPayload) {
    && c.decode(c.encode(c.marshal(p))) == Some(c.marshal(p))
    && c.unmarshal(c.marshal(p)) == Some(p)
    && '.' !in c.encode(c.marshal(p))
  }

  datatype TokenError = InvalidFormat | InvalidSignature | InvalidEncoding | InvalidPayload | Expired

  function ErrorText(e: TokenError): string {
    match e
    case InvalidFormat => "invalid token format"
    case InvalidSignature => "invalid token signature"
    case InvalidEncoding => "invalid token encoding"
    case InvalidPayload => "invalid token payload"
    case Expired => "token expired"
  }

  datatype Verified = Valid(payload: TokenPayload) | Invalid(error: TokenError)

  /** The signature of an encoded payload under a secret. */
  function Sign(c: Codec, secret: string, encoded: string): string {
    c.encode(c.hmac(secret, encoded))
  }

  /** A positive expiry lies in the past; `exp` equal to `now` is still valid and `exp <= 0` never expires. */
  predicate IsExpired(p: TokenPayload, now: int) {
    p.exp > 0 && now > p.exp
  }

  function GenerateToken(c: Codec, p: TokenPayload, secret: string): (t: string)
    ensures '.' !in c.encode(c.marshal(p)) ==>
      IndexOf(t, '.') == Some(|c.encode(c.marshal(p))|)
      && t[|c.encode(c.marshal(p))| + 1..] == Sign(c, secret, c.encode(c.marshal(p)))
  {
    var encoded := c.encode(c.marshal(p));
    var t := encoded + "." + Sign(c, secret, encoded);
    if '.' !in encoded then FirstDot(encoded, Sign(c, secret, encoded)); t else t
  }

  lemma FirstDot(encoded: string, sig: string)
    requires '.' !in encoded
    ensures IndexOf(encoded + "." + sig, '.') == Some(|encoded|)
  {
    var t := encoded + "." + sig;
    var i := IndexOf(t, '.');
    assert t[|encoded|] == '.';
    assert forall j :: 0 <= j < |encoded| ==> t[j] == encoded[j];
    assert forall j :: 0 <= j < i.value ==> t[j] == t[..i.value][j];
  }

  /** The generated token splits back into its encoded payload and its signature. */
  lemma GeneratedParts(c: Codec, p: TokenPayload, secret: string)
    requires '.' !in c.encode(c.marshal(p))
    ensures var t := GenerateToken(c, p, secret);
      var n := |c.encode(c.marshal(p))|;
      && IndexOf(t, '.') == Some(n)
      && t[..n] == c.encode(c.marshal(p))
      && t[n + 1..] == Sign(c, secret, c.encode(c.marshal(p)))
  {
    var encoded := c.encode(c.marshal(p));
    var t := GenerateToken(c, p, secret);
    assert t == encoded + "." + Sign(c, secret, encoded);
    assert t[..|encoded|] == encoded;
  }

  /**
   * Splits at the first dot, then checks, in order: the signature, the
   * base64 encoding, the JSON payload, and the expiry.
   */
  function VerifyToken(c: Codec, token: string, secret: string, now: int): (r: Verified)
    ensures r == Invalid(InvalidFormat) <==> '.' !in token
    ensures '.' in token ==> var i := IndexOf(token, '.').value;
      && (token[i + 1..] != Sign(c, secret, token[..i]) <==> r == Invalid(InvalidSignature))
      && (r.Valid? ==>
            && c.decode(token[..i]).Some?
            && c.unmarshal(c.decode(token[..i]).value) == Some(r.payload)
            && !IsExpired(r.payload, now))
  {
    match IndexOf(token, '.')
    case None => Invalid(InvalidFormat)
    case Some(i) =>
      var encoded := token[..i];
      var sig := token[i + 1..];
      if sig != Sign(c, secret, encoded) then Invalid(InvalidSignature)
      else match c.decode(encoded)
        case None => Invalid(InvalidEncoding)
        case Some(data) =>
          match c.unmarshal(data)
          case None => Invalid(InvalidPayload)
          case Some(p) => if IsExpired(p, now) then Invalid(Expired) else Valid(p)
  }

  /** A token verifies, under the secret it was made with, to the payload it was made from. */
  lemma RoundTrip(c: Codec, p: TokenPayload, secret: string, now: int)
    requires RoundTrips(c, p)
    requires !IsExpired(p, now)
    ensures VerifyToken(c, GenerateToken(c, p, secret), secret, now) == Valid(p)
  {
    GeneratedParts(c, p, secret);
  }

  /** An intact token past its positive expiry is refused as expired, and only then. */
  lemma ExpiryDecides(c: Codec, p: TokenPayload, secret: string, now: int)
    requires RoundTrips(c, p)
    ensures VerifyToken(c, GenerateToken(c, p, secret), secret, now)
      == (if p.exp > 0 && now > p.exp then Invalid(Expired) else Valid(p))
  {
    GeneratedParts(c, p, secret);
  }

  /** A token checked with a secret whose signature differs is refused before its payload is read. */
  lemma WrongSecretRefused(c: Codec, p: TokenPayload, secret: string, other: string, now: int)
    requires '.' !in c.encode(c.marshal(p))
    requires Sign(c, other, c.encode(c.marshal(p))) != Sign(c, secret, c.encode(c.marshal(p)))
    ensures VerifyToken(c, GenerateToken(c, p, secret), other, now) == Invalid(InvalidSignature)
  {
    GeneratedParts(c, p, secret);
  }
}
