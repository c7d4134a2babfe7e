/** The collaborators the blessing handler calls but does not implement:
    Vanadium's security package (public keys, caveats, blessings and the
    principal that signs them), the VOM, base64url and JSON codecs, the OAuth
    provider and the revocation manager. Each is a total Dafny function that
    may return an error. Nothing is assumed about what it computes, but
    being one fixed function it answers the same arguments the same way in
    every request. */
module Security {
  import opened Results

  type Bytes = seq<bv8>

  /** A parsed public key; `der` is the DER/PKIX encoding it came from. */
  datatype PublicKey = PublicKey(der: Bytes)

  /** `security.Caveat`: an identifier and its VOM-encoded parameters. */
  datatype Caveat = Caveat(id: Bytes, paramVom: Bytes)

  /** `security.Blessings`, opaque to the handler. */
  datatype Blessings = Blessings(certificateChains: Bytes)

  /** `security.WireBlessings`, the structural form that is JSON-encoded. */
  datatype WireBlessings = WireBlessings(certificateChains: Bytes)

  /** `security.ChainSeparator`, which joins the components of a blessing
      name (`<idp>:<appID>:<email>`). */
  const ChainSeparator: string := ":"

  /** The handler's principal, as returned by `v23.GetPrincipal`:
      its own public key and its `Bless` operation, `Bless(key, with,
      extension, caveat, additionalCaveats...)`. */
  datatype Principal = Principal(
    publicKey: PublicKey,
    bless: (PublicKey, Blessings, string, Caveat, seq<Caveat>) -> Result<Blessings>)

  /** Library functions: codecs, key parsing, expiry caveats and
      `Blessings.String`. Time is Go's `time.Time` counted in nanoseconds. */
  datatype Library = Library(
    base64UrlDecode: string -> Result<Bytes>,
    base64UrlEncode: Bytes -> string,
    unmarshalPublicKey: Bytes -> Result<PublicKey>,
    vomDecodeCaveats: Bytes -> Result<seq<Caveat>>,
    vomEncodeBlessings: Blessings -> Result<Bytes>,
    marshalBlessings: Blessings -> WireBlessings,
    jsonMarshal: WireBlessings -> Result<Bytes>,
    newExpiryCaveat: int -> Result<Caveat>,
    blessingsString: Blessings -> string)

  /** What the OAuth provider reports about a verified access token. */
  datatype TokenInfo = TokenInfo(email: string, clientID: string)

  /** `oauth.OAuthProvider.GetEmailAndClientID`. */
  datatype OAuthProvider = OAuthProvider(getEmailAndClientID: string -> Result<TokenInfo>)

  /** `revocation.RevocationManager.NewCaveat(key, dischargerLocation)`. */
  datatype RevocationManager = RevocationManager(newCaveat: (PublicKey, string) -> Result<Caveat>)
}
