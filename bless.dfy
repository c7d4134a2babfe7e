/** The OAuth access-token blessing handler (`accessTokenBlesser` in
    identity/internal/handlers/bless.go). A request is a set of form values;
    the handler decodes the caller's public key, builds the caveat list,
    asks the OAuth provider who the token belongs to, has the service's
    principal bless the key, counts the blessing under the signer's name and
    writes the blessings in the requested format. Each stage can fail and
    ends the request with its own message.

    `Serve` is the whole request as a value: the response and the ordered
    list of collaborator calls it makes. `AccessTokenBlesser.ServeHTTP` runs
    the same pipeline step by step against the object's counter map and is
    proved to agree with `Serve`. */
module Handlers {
  import opened Results
  import opened Security
  import Strings
  import Counters

  // Form keys and output formats.
  const PublicKeyFormKey: string := "public_key"
  const TokenFormKey: string := "token"
  const CaveatsFormKey: string := "caveats"
  const OutputFormatFormKey: string := "output_format"
  const JsonFormat: string := "json"
  const Base64VomFormat: string := "base64vom"

  /** The placeholder a registered extension template may contain. */
  const EmailPlaceholder: string := "{email}"

  /** An entry of `RegisteredAppMap`: the extension for one client ID. */
  datatype AppEntry = AppEntry(extension: string)

  type RegisteredAppMap = map<string, AppEntry>

  /** `OAuthBlesserParams`. `revocationManager` is None when the Go field
      is nil; `blessingDuration` is a `time.Duration` in nanoseconds. */
  datatype Params = Params(
    oauthProvider: OAuthProvider,
    dischargerLocation: string,
    revocationManager: Option<RevocationManager>,
    blessingDuration: int)

  /** A request's form values; `r.FormValue(key)` is "" for a missing key. */
  type Form = map<string, string>

  function FormValue(form: Form, key: string): string {
    if key in form then form[key] else ""
  }

  /** The calls the handler makes to collaborators whose effects matter:
      caveat synthesis, token verification, signing, and the counter. */
  datatype Call =
    | NewRevocationCaveat(key: PublicKey, location: string)
    | NewExpiryCaveat(deadline: int)
    | GetEmailAndClientID(token: string)
    | Bless(key: PublicKey, with: Blessings, extension: string,
            caveat: Caveat, additionalCaveats: seq<Caveat>)
    | IncrementCounter(name: string)

  /** A stage's result together with the calls it made. */
  datatype Step<T> = Step(result: Result<T>, calls: seq<Call>)

  /** The stage a failed request stopped at; its message names it too. */
  datatype Stage =
    | DecodePublicKey | ConstructCaveats | ProcessAccessToken
    | BlessStage | EncodeBlessings | SelectOutputFormat

  /** What is written as the response body: bytes for JSON, text for
      base64url. */
  datatype Body = Binary(bytes: Bytes) | Text(text: string)

  datatype Response =
    | Written(contentType: string, body: Body)
    | ServerError(stage: Stage, message: string)

  /** The message written for a failed stage: a stage-specific prefix and
      the underlying error. */
  function StagePrefix(stage: Stage): string {
    match stage
    case DecodePublicKey => "failed to decode public key: "
    case ConstructCaveats => "failed to construct caveats for blessing: "
    case ProcessAccessToken => "failed to process access token: "
    case BlessStage => "failed to Bless: "
    case EncodeBlessings => "failed to encode blessings in format "
    case SelectOutputFormat => ""
  }

  function Failure(stage: Stage, err: string): Response {
    ServerError(stage, StagePrefix(stage) + err)
  }

  datatype Outcome = Outcome(response: Response, calls: seq<Call>)

  datatype Format = Json | Base64Vom

  // ---------------------------------------------------------------------
  // The stages

  /** `remotePublicKey`: base64url-decode the form value, then parse the key.
      Either step's failure fails the stage. */
  function RemotePublicKey(lib: Library, encoded: string): (r: Result<PublicKey>)
    ensures r.Ok? <==> lib.base64UrlDecode(encoded).Ok? &&
                       lib.unmarshalPublicKey(lib.base64UrlDecode(encoded).value).Ok?
    ensures r.Ok? ==> r.value == lib.unmarshalPublicKey(lib.base64UrlDecode(encoded).value).value
    ensures lib.base64UrlDecode(encoded).Err? ==>
              r == Err(Base64FailurePrefix + lib.base64UrlDecode(encoded).msg)
    ensures lib.base64UrlDecode(encoded).Ok? ==>
              r == lib.unmarshalPublicKey(lib.base64UrlDecode(encoded).value)
  {
    match lib.base64UrlDecode(encoded)
    case Err(e) => Err(Base64FailurePrefix + e)
    case Ok(der) => lib.unmarshalPublicKey(der)
  }

  /** The caller's own caveats: none when the form value is empty, otherwise
      the base64url- and then VOM-decoded list. */
  function SuppliedCaveats(lib: Library, encoded: string): (r: Result<seq<Caveat>>)
    ensures encoded == "" ==> r == Ok([])
    ensures encoded != "" ==>
              (r.Ok? <==> lib.base64UrlDecode(encoded).Ok? &&
                          lib.vomDecodeCaveats(lib.base64UrlDecode(encoded).value).Ok?)
    ensures encoded != "" && r.Ok? ==>
              r.value == lib.vomDecodeCaveats(lib.base64UrlDecode(encoded).value).value
    ensures encoded != "" && lib.base64UrlDecode(encoded).Err? ==>
              r == Err(Base64FailurePrefix + lib.base64UrlDecode(encoded).msg)
    ensures encoded != "" && lib.base64UrlDecode(encoded).Ok? &&
            lib.vomDecodeCaveats(lib.base64UrlDecode(encoded).value).Err? ==>
              r == Err(VomDecodeFailurePrefix + lib.vomDecodeCaveats(lib.base64UrlDecode(encoded).value).msg)
  {
    if |encoded| == 0 then Ok([])
    else match lib.base64UrlDecode(encoded)
      case Err(e) => Err(Base64FailurePrefix + e)
      case Ok(vom) =>
        match lib.vomDecodeCaveats(vom)
        case Err(e) => Err(VomDecodeFailurePrefix + e)
        case Ok(cs) => Ok(cs)
  }

  /** The call that synthesizes the default caveat. The choice tests only
      whether a revocation manager is configured; the revocation caveat is
      bound to the service principal's own key. */
  function DefaultCaveatCall(params: Params, p: Principal, now: int): Call {
    if params.revocationManager.Some?
    then NewRevocationCaveat(p.publicKey, params.dischargerLocation)
    else NewExpiryCaveat(now + params.blessingDuration)
  }

  function DefaultCaveat(lib: Library, params: Params, p: Principal, now: int): Result<Caveat> {
    if params.revocationManager.Some?
    then params.revocationManager.value.newCaveat(p.publicKey, params.dischargerLocation)
    else lib.newExpiryCaveat(now + params.blessingDuration)
  }

  /** `blessingCaveats`: a non-empty decoded caller list is used as it is;
      otherwise exactly one default caveat is synthesized. */
  function BlessingCaveats(lib: Library, params: Params, p: Principal, encoded: string, now: int)
    : (s: Step<seq<Caveat>>)
    ensures s.result.Ok? ==> |s.result.value| >= 1
    ensures SuppliedCaveats(lib, encoded).Err? ==>
              s.result.Err? && s.calls == []
    ensures SuppliedCaveats(lib, encoded).Ok? && |SuppliedCaveats(lib, encoded).value| > 0 ==>
              s.result == SuppliedCaveats(lib, encoded) && s.calls == []
    ensures SuppliedCaveats(lib, encoded) == Ok([]) && params.revocationManager.Some? ==>
              var made := params.revocationManager.value.newCaveat(p.publicKey, params.dischargerLocation);
              s.calls == [NewRevocationCaveat(p.publicKey, params.dischargerLocation)] &&
              (made.Ok? ==> s.result == Ok([made.value])) &&
              (made.Err? ==> s.result == Err(CaveatSynthesisPrefix + made.msg))
    ensures SuppliedCaveats(lib, encoded) == Ok([]) && params.revocationManager.None? ==>
              var made := lib.newExpiryCaveat(now + params.blessingDuration);
              s.calls == [NewExpiryCaveat(now + params.blessingDuration)] &&
              (made.Ok? ==> s.result == Ok([made.value])) &&
              (made.Err? ==> s.result == Err(CaveatSynthesisPrefix + made.msg))
  {
    var supplied := SuppliedCaveats(lib, encoded);
    if supplied.Err? then Step(Err(supplied.msg), [])
    else if |supplied.value| > 0 then Step(supplied, [])
    else
      var call := DefaultCaveatCall(params, p, now);
      match DefaultCaveat(lib, params, p, now)
      case Err(e) => Step(Err(CaveatSynthesisPrefix + e), [call])
      case Ok(cav) => Step(Ok([cav]), [call])
  }

  // The messages the stages wrap their collaborators' errors in.
  const Base64FailurePrefix: string := "base64.URLEncoding.DecodeString failed: "
  const VomDecodeFailurePrefix: string := "vom.Decode failed: "
  const CaveatSynthesisPrefix: string := "failed to construct caveats: "

  /** The message of a failed VOM encoding, which prints the blessings. */
  function VomEncodeFailure(blessings: string, err: string): string {
    "vom.Encode(" + blessings + ") failed: " + err
  }

  /** The extension for a verified (clientID, email): a registered app's
      template with every `{email}` replaced, otherwise `clientID:email`. */
  function ResolveExtension(apps: RegisteredAppMap, clientID: string, email: string): string {
    if clientID in apps
    then Strings.ReplaceAll(apps[clientID].extension, EmailPlaceholder, email)
    else Strings.Join([clientID, email], ChainSeparator)
  }

  /** `blessingExtension`: verify the token, then resolve the extension. */
  function BlessingExtension(provider: OAuthProvider, apps: RegisteredAppMap, token: string)
    : (s: Step<string>)
    ensures s.calls == [GetEmailAndClientID(token)]
    ensures s.result.Ok? <==> provider.getEmailAndClientID(token).Ok?
    ensures s.result.Ok? ==>
              var info := provider.getEmailAndClientID(token).value;
              s.result.value == ResolveExtension(apps, info.clientID, info.email)
  {
    var call := GetEmailAndClientID(token);
    match provider.getEmailAndClientID(token)
    case Err(e) => Step(Err(e), [call])
    case Ok(info) => Step(Ok(ResolveExtension(apps, info.clientID, info.email)), [call])
  }

  /** `encodeBlessingsJSON`. */
  function EncodeBlessingsJSON(lib: Library, b: Blessings): Result<Bytes> {
    lib.jsonMarshal(lib.marshalBlessings(b))
  }

  /** `encodeBlessingsVOM`: VOM-encode, then base64url-encode. */
  function EncodeBlessingsVOM(lib: Library, b: Blessings): (r: Result<string>)
    ensures r.Ok? <==> lib.vomEncodeBlessings(b).Ok?
    ensures r.Ok? ==> r.value == lib.base64UrlEncode(lib.vomEncodeBlessings(b).value)
    ensures r.Err? ==> r.msg == VomEncodeFailure(lib.blessingsString(b), lib.vomEncodeBlessings(b).msg)
  {
    match lib.vomEncodeBlessings(b)
    case Err(e) => Err(VomEncodeFailure(lib.blessingsString(b), e))
    case Ok(vom) => Ok(lib.base64UrlEncode(vom))
  }

  function FormatName(f: Format): string {
    match f
    case Json => JsonFormat
    case Base64Vom => Base64VomFormat
  }

  function ContentType(f: Format): string {
    match f
    case Json => "application/json"
    case Base64Vom => "application/text"
  }

  function UnrecognizedFormatMessage(value: string): string {
    "unrecognized output format [" + value + "] in request. Allowed formats are ["
      + Base64VomFormat + ", " + JsonFormat + "]"
  }

  /** The output-format switch: an empty value means base64vom; anything
      but the two format names is refused. */
  function SelectFormat(value: string): (r: Result<Format>)
    ensures r == Ok(Base64Vom) <==> value == "" || value == Base64VomFormat
    ensures r == Ok(Json) <==> value == JsonFormat
    ensures r.Err? <==> value !in {"", Base64VomFormat, JsonFormat}
    ensures r.Err? ==> r.msg == UnrecognizedFormatMessage(value)
    ensures r.Ok? ==> FormatName(r.value) == (if value == "" then Base64VomFormat else value)
  {
    var name := if |value| == 0 then Base64VomFormat else value;
    if name == JsonFormat then Ok(Json)
    else if name == Base64VomFormat then Ok(Base64Vom)
    else Err(UnrecognizedFormatMessage(name))
  }

  /** The body for a format, or the encoder's error. */
  function EncodeBody(lib: Library, f: Format, b: Blessings): Result<Body> {
    match f
    case Json =>
      (match EncodeBlessingsJSON(lib, b)
       case Err(e) => Err(e)
       case Ok(bytes) => Ok(Binary(bytes)))
    case Base64Vom =>
      (match EncodeBlessingsVOM(lib, b)
       case Err(e) => Err(e)
       case Ok(text) => Ok(Text(text)))
  }

  /** The response for freshly issued blessings. */
  function Respond(lib: Library, value: string, b: Blessings): Response {
    match SelectFormat(value)
    case Err(m) => Failure(SelectOutputFormat, m)
    case Ok(f) =>
      match EncodeBody(lib, f, b)
      case Err(e) =>
        Failure(EncodeBlessings, FormatName(f) + ": " + e)
      case Ok(body) => Written(ContentType(f), body)
  }

  // ---------------------------------------------------------------------
  // The whole request

  /** `ServeHTTP` as a value. `with` is the principal's default blessings. */
  function Serve(lib: Library, params: Params, apps: RegisteredAppMap, p: Principal,
                 with: Blessings, form: Form, now: int): Outcome
  {
    var key := RemotePublicKey(lib, FormValue(form, PublicKeyFormKey));
    if key.Err? then Outcome(Failure(DecodePublicKey, key.msg), [])
    else
      var cav := BlessingCaveats(lib, params, p, FormValue(form, CaveatsFormKey), now);
      if cav.result.Err? then Outcome(Failure(ConstructCaveats, cav.result.msg), cav.calls)
      else Issue(lib, params, apps, p, with, form, key.value, cav.result.value, cav.calls)
  }

  /** The rest of the request once the key is decoded and the caveats are
      built (`calls` are the calls made so far): verify the token, bless,
      count, encode. */
  function Issue(lib: Library, params: Params, apps: RegisteredAppMap, p: Principal,
                 with: Blessings, form: Form, key: PublicKey, caveats: seq<Caveat>,
                 calls: seq<Call>): Outcome
    requires |caveats| >= 1
  {
    var ext := BlessingExtension(params.oauthProvider, apps, FormValue(form, TokenFormKey));
    var calls := calls + ext.calls;
    if ext.result.Err? then Outcome(Failure(ProcessAccessToken, ext.result.msg), calls)
    else Signed(lib, p, with, form, key, caveats, ext.result.value, calls)
  }

  /** The `Bless` stage with the verified extension: the caveat list goes to
      `Bless` split into its first element and the rest. */
  function Signed(lib: Library, p: Principal, with: Blessings, form: Form, key: PublicKey,
                  caveats: seq<Caveat>, extension: string, calls: seq<Call>): Outcome
    requires |caveats| >= 1
  {
    var bless := Bless(key, with, extension, caveats[0], caveats[1..]);
    match p.bless(key, with, extension, caveats[0], caveats[1..])
    case Err(e) => Outcome(Failure(BlessStage, e), calls + [bless])
    case Ok(blessings) => Delivered(lib, form, with, blessings, calls + [bless])
  }

  /** A successful `Bless`: the counter of the default blessings' name moves
      and the blessings are written in the requested format. */
  function Delivered(lib: Library, form: Form, with: Blessings, blessings: Blessings,
                     calls: seq<Call>): Outcome
  {
    Outcome(Respond(lib, FormValue(form, OutputFormatFormKey), blessings),
            calls + [IncrementCounter(lib.blessingsString(with))])
  }

  /** The counter names a list of calls moves, in order. */
  function Increments(calls: seq<Call>): seq<string>
    decreases |calls|
  {
    if calls == [] then []
    else (if calls[0].IncrementCounter? then [calls[0].name] else []) + Increments(calls[1..])
  }

  lemma {:induction false} IncrementsAppend(xs: seq<Call>, ys: seq<Call>)
    ensures Increments(xs + ys) == Increments(xs) + Increments(ys)
    decreases |xs|
  {
    if xs == [] {
      assert xs + ys == ys;
    } else {
      assert (xs + ys)[1..] == xs[1..] + ys;
      IncrementsAppend(xs[1..], ys);
    }
  }

  /** The registered app map the handler uses: a nil map becomes empty. */
  function AppsOrEmpty(apps: Option<RegisteredAppMap>): (m: RegisteredAppMap)
    ensures apps.None? ==> m == map[]
    ensures apps.Some? ==> m == apps.value
  {
    if apps.None? then map[] else apps.value
  }

  // ---------------------------------------------------------------------
  // The handler object

  class AccessTokenBlesser {
    const lib: Library
    /** The principal of the handler's context (`v23.GetPrincipal(ctx)`). */
    const principal: Principal
    const params: Params
    const apps: RegisteredAppMap
    var counters: Counters.CounterMap

    /** `NewOAuthBlessingHandler`: a nil app map is replaced by an empty one;
        the counter map starts out nil. */
    constructor (lib: Library, principal: Principal, params: Params,
                 apps: Option<RegisteredAppMap>)
      ensures this.lib == lib && this.principal == principal && this.params == params
      ensures this.apps == AppsOrEmpty(apps)
      ensures counters.None?
    {
      this.lib := lib;
      this.principal := principal;
      this.params := params;
      this.apps := AppsOrEmpty(apps);
      counters := None;
    }

    /** `counter(name)`: creates the map on first use and the entry for
        `name` if it is missing; returns the entry's current value. */
    method Counter(name: string) returns (value: nat)
      modifies this
      ensures counters.Some? && name in counters.value
      ensures old(counters).Some? && name in old(counters).value ==> counters == old(counters)
      ensures counters == Some(CounterEntries(old(counters))[name := Counters.Count(old(counters), name)])
      ensures value == counters.value[name] == Counters.Count(old(counters), name)
    {
      ghost var entries := CounterEntries(counters);
      if counters.None? {
        counters := Some(map[]);
      }
      if name !in counters.value {
        counters := Some(counters.value[name := 0]);
      } else {
        assert entries[name := entries[name]] == entries;
      }
      value := counters.value[name];
    }

    /** `Incr(1)` on the counter for `name`. */
    method Incr(name: string)
      requires counters.Some? && name in counters.value
      modifies this
      ensures counters == Some(old(counters).value[name := old(counters).value[name] + 1])
    {
      counters := Some(counters.value[name := counters.value[name] + 1]);
    }

    /** `counter(name).Incr(1)`, one issued blessing counted under `name`. */
    method CountBlessing(name: string)
      modifies this
      ensures counters == Counters.Bump(old(counters), name)
    {
      ghost var entries := CounterEntries(counters);
      var current := Counter(name);
      Incr(name);
      assert entries[name := current][name := current + 1] == entries[name := current + 1];
    }

    /** `ServeHTTP`. Returns the response and the collaborator calls made;
        the counter map moves by exactly the increments among them. */
    method ServeHTTP(form: Form, with: Blessings, now: int)
      returns (response: Response, calls: seq<Call>)
      modifies this
      ensures Outcome(response, calls) == Serve(lib, params, apps, principal, with, form, now)
      ensures counters == Counters.BumpAll(old(counters), Increments(calls))
    {
      var key := RemotePublicKey(lib, FormValue(form, PublicKeyFormKey));
      if key.Err? {
        response := Failure(DecodePublicKey, key.msg);
        calls := [];
        return;
      }

      var cav := BlessingCaveats(lib, params, principal, FormValue(form, CaveatsFormKey), now);
      calls := cav.calls;
      if cav.result.Err? {
        response := Failure(ConstructCaveats, cav.result.msg);
        NoIncrements(calls);
        return;
      }

      var cs := cav.result.value;
      assert Serve(lib, params, apps, principal, with, form, now)
          == Issue(lib, params, apps, principal, with, form, key.value, cs, calls);
      NoIncrements(calls);
      response, calls := IssueBlessings(form, with, key.value, cs, calls);
    }

    /** The rest of `ServeHTTP` once the key and the caveats are known:
        verify the access token, bless, count the blessing and write it. */
    method IssueBlessings(form: Form, with: Blessings, key: PublicKey, cs: seq<Caveat>,
                          prior: seq<Call>)
      returns (response: Response, calls: seq<Call>)
      requires |cs| >= 1
      requires Increments(prior) == []
      modifies this
      ensures Outcome(response, calls) == Issue(lib, params, apps, principal, with, form, key, cs, prior)
      ensures counters == Counters.BumpAll(old(counters), Increments(calls))
    {
      var ext := BlessingExtension(params.oauthProvider, apps, FormValue(form, TokenFormKey));
      calls := prior + ext.calls;
      IncrementsAppend(prior, ext.calls);
      NoIncrements(ext.calls);
      if ext.result.Err? {
        response := Failure(ProcessAccessToken, ext.result.msg);
        return;
      }

      response, calls := SignBlessings(form, with, key, cs, ext.result.value, calls);
    }

    /** The `Bless` call, then the blessing is counted and written. */
    method SignBlessings(form: Form, with: Blessings, key: PublicKey, cs: seq<Caveat>,
                         extension: string, prior: seq<Call>)
      returns (response: Response, calls: seq<Call>)
      requires |cs| >= 1
      requires Increments(prior) == []
      modifies this
      ensures Outcome(response, calls) == Signed(lib, principal, with, form, key, cs, extension, prior)
      ensures counters == Counters.BumpAll(old(counters), Increments(calls))
    {
      var blessed := principal.bless(key, with, extension, cs[0], cs[1..]);
      calls := prior + [Bless(key, with, extension, cs[0], cs[1..])];
      IncrementsAppend(prior, [calls[|calls| - 1]]);
      if blessed.Err? {
        response := Failure(BlessStage, blessed.msg);
        return;
      }

      response, calls := DeliverBlessings(form, with, blessed.value, calls);
    }

    /** The end of `ServeHTTP` once `Bless` has succeeded: count the blessing
        under the name of the default blessings, then write it out. */
    method DeliverBlessings(form: Form, with: Blessings, blessings: Blessings, prior: seq<Call>)
      returns (response: Response, calls: seq<Call>)
      requires Increments(prior) == []
      modifies this
      ensures Outcome(response, calls) == Delivered(lib, form, with, blessings, prior)
      ensures counters == Counters.BumpAll(old(counters), Increments(calls))
    {
      var name := lib.blessingsString(with);
      CountBlessing(name);
      calls := prior + [IncrementCounter(name)];
      IncrementsAppend(prior, [IncrementCounter(name)]);

      response := WriteBlessings(FormValue(form, OutputFormatFormKey), blessings);
    }

    /** The output-format switch at the end of `ServeHTTP`: pick the format,
        encode, and set the content type. */
    method WriteBlessings(outputFormat: string, blessings: Blessings) returns (response: Response)
      ensures response == Respond(lib, outputFormat, blessings)
    {
      var format := SelectFormat(outputFormat);
      match format {
        case Err(m) =>
          response := Failure(SelectOutputFormat, m);
        case Ok(f) =>
          var body := EncodeBody(lib, f, blessings);
          if body.Err? {
            response := Failure(EncodeBlessings, FormatName(f) + ": " + body.msg);
          } else {
            response := Written(ContentType(f), body.value);
          }
      }
    }

  }

  /** The entries of a counter map; a nil map has none. */
  function CounterEntries(cs: Counters.CounterMap): map<string, nat> {
    if cs.Some? then cs.value else map[]
  }

  /** Calls none of which is a counter increment move no counter. */
  lemma {:induction false} NoIncrements(calls: seq<Call>)
    requires forall i :: 0 <= i < |calls| ==> !calls[i].IncrementCounter?
    ensures Increments(calls) == []
    decreases |calls|
  {
    if calls != [] {
      NoIncrements(calls[1..]);
    }
  }
}
