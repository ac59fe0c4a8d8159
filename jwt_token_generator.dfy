/** JwtTokenGenerator: the JWT a Yandex Cloud service account presents to
    the IAM token service. The header and claims are plain values; reading
    the PEM key and PS256 signing are parameters. */
module JwtTokenGenerator {
  import opened Wrappers
  import opened Failures
  import opened Text

  /** A JWT header or claim value: a (nullable) string or an integer. */
  datatype ClaimValue = Text(text: Option<string>) | Number(number: int)

  /** The RSA private key parameters a PEM text yields. */
  datatype RsaPrivateKey = RsaPrivateKey(parameters: seq<nat>)

  /** The operating system the process runs on. */
  datatype Platform = Windows | Linux | OtherPlatform

  /** How long a generated JWT is valid, in seconds. */
  const TokenLifetime: int := 3600

  /** A constructed generator: the three credentials are non-empty; the
      audience is kept as given. */
  datatype Generator = Generator(
    serviceAccountId: string,
    serviceAccountAuthorizedKeyId: string,
    privateKey: string,
    jwtTokenAudience: Option<string>)

  /** The constructor: serviceAccountId, then the authorized key id, then
      the private key must be non-empty; the audience is not checked. */
  function NewGenerator(serviceAccountId: Option<string>, serviceAccountAuthorizedKeyId: Option<string>,
                        privateKey: Option<string>, jwtTokenAudience: Option<string>): (r: Result<Generator, Error>)
    ensures IsNullOrEmpty(serviceAccountId) ==> r == Failure(Argument("serviceAccountId"))
    ensures !IsNullOrEmpty(serviceAccountId) && IsNullOrEmpty(serviceAccountAuthorizedKeyId) ==>
      r == Failure(Argument("serviceAccountAuthorizedKeyId"))
    ensures !IsNullOrEmpty(serviceAccountId) && !IsNullOrEmpty(serviceAccountAuthorizedKeyId) && IsNullOrEmpty(privateKey) ==>
      r == Failure(Argument("privateKey"))
    ensures r.Success? <==>
      !IsNullOrEmpty(serviceAccountId) && !IsNullOrEmpty(serviceAccountAuthorizedKeyId) && !IsNullOrEmpty(privateKey)
    ensures r.Success? ==>
      && Some(r.value.serviceAccountId) == serviceAccountId
      && Some(r.value.serviceAccountAuthorizedKeyId) == serviceAccountAuthorizedKeyId
      && Some(r.value.privateKey) == privateKey
      && r.value.jwtTokenAudience == jwtTokenAudience
  {
    if IsNullOrEmpty(serviceAccountId) then Failure(Argument("serviceAccountId"))
    else if IsNullOrEmpty(serviceAccountAuthorizedKeyId) then Failure(Argument("serviceAccountAuthorizedKeyId"))
    else if IsNullOrEmpty(privateKey) then Failure(Argument("privateKey"))
    else Success(Generator(serviceAccountId.value, serviceAccountAuthorizedKeyId.value, privateKey.value, jwtTokenAudience))
  }

  /** The JWT header: the authorized key id under "kid", nothing else. */
  function Headers(g: Generator): (h: map<string, ClaimValue>)
    ensures h.Keys == {"kid"} && h["kid"] == Text(Some(g.serviceAccountAuthorizedKeyId))
  {
    map["kid" := Text(Some(g.serviceAccountAuthorizedKeyId))]
  }

  /** The JWT claims at Unix time `now`: audience, issuer, issue time and
      an expiry one hour later. */
  function Payload(g: Generator, now: int): (p: map<string, ClaimValue>)
    ensures p.Keys == {"aud", "iss", "iat", "exp"}
    ensures p["aud"] == Text(g.jwtTokenAudience) && p["iss"] == Text(Some(g.serviceAccountId))
    ensures p["iat"] == Number(now) && p["exp"].Number? && p["exp"].number - p["iat"].number == TokenLifetime
  {
    map["aud" := Text(g.jwtTokenAudience), "iss" := Text(Some(g.serviceAccountId)),
        "iat" := Number(now), "exp" := Number(now + 3600)]
  }

  const PemNotRsa: Error := InvalidOperation("RSA private key params is not available")
  const PlatformNotSupported: Error := InvalidOperation("MacOS is not supported")

  /** GetEncodedJwtToken at Unix time `now` on `platform`. `readPem` is the
      PEM reader: a failure when it throws on malformed text, None when the
      text holds no RSA private key. `encode` is the RSA key import and PS256
      signing of the payload and header with the key: a failure when either
      throws. A reader error comes first, then a non-RSA key, then an
      unsupported platform; nothing is signed on any of them. */
  function GetEncodedJwtToken(g: Generator, now: int, platform: Platform,
                              readPem: string -> Result<Option<RsaPrivateKey>, Error>,
                              encode: (map<string, ClaimValue>, RsaPrivateKey, map<string, ClaimValue>) -> Result<string, Error>): (r: Result<string, Error>)
    ensures readPem(g.privateKey).Failure? ==> r == Failure(readPem(g.privateKey).error)
    ensures readPem(g.privateKey) == Success(None) ==> r == Failure(PemNotRsa)
    ensures readPem(g.privateKey).Success? && readPem(g.privateKey).value.Some? && platform == OtherPlatform ==>
      r == Failure(PlatformNotSupported)
    ensures readPem(g.privateKey).Success? && readPem(g.privateKey).value.Some? && platform != OtherPlatform ==>
      r == encode(Payload(g, now), readPem(g.privateKey).value.value, Headers(g))
    ensures r.Success? <==>
      && readPem(g.privateKey).Success? && readPem(g.privateKey).value.Some? && platform != OtherPlatform
      && encode(Payload(g, now), readPem(g.privateKey).value.value, Headers(g)).Success?
  {
    match readPem(g.privateKey)
    case Failure(e) => Failure(e)
    case Success(None) => Failure(PemNotRsa)
    case Success(Some(key)) =>
      if platform == OtherPlatform then Failure(PlatformNotSupported)
      else encode(Payload(g, now), key, Headers(g))
  }

  /** Two tokens generated at different times differ only in iat and exp,
      and each expires an hour after it was issued. */
  lemma PayloadsDifferOnlyInTime(g: Generator, t1: int, t2: int)
    ensures forall c :: c in Payload(g, t1) && c != "iat" && c != "exp" ==> Payload(g, t1)[c] == Payload(g, t2)[c]
    ensures Payload(g, t2)["exp"].number - Payload(g, t1)["exp"].number == t2 - t1
  {
  }
}
