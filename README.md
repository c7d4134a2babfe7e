# OAuth access-token blessing handler, in Dafny

This project models `accessTokenBlesser`, the HTTP handler of the Vanadium
identity service that swaps an OAuth2 access token for Vanadium blessings
(identity/internal/handlers/bless.go). A request carries four form values:
`public_key`, `caveats`, `token` and `output_format`. The handler runs
these stages in order:

1. It decodes the caller's public key.
2. It builds the caveat list. A non-empty caller-supplied list is used as
   given. Otherwise it synthesizes one default caveat: a revocation caveat
   when a revocation manager is configured, or else an expiry caveat.
3. It asks the OAuth provider for the token's email and client ID, then
   resolves the blessing extension. A registered app's template has every
   `{email}` replaced. Any other client gets `clientID:email`.
4. It has the service principal `Bless` the key.
5. It counts the blessing under the name of the signer's default blessings.
6. It writes the blessings as JSON or as base64url-encoded VOM.

Every stage can fail, and a failure ends the request with that stage's
message.

The files:

- `results.dfy` holds `Result` and `Option`.
- `security.dfy` declares the collaborators the handler calls but does not
  implement: codecs, key parsing, caveat constructors, the principal's
  `Bless`, the OAuth provider and the revocation manager. Each is a total
  function that may fail. Nothing is assumed about what it computes, but
  being one fixed function it answers the same arguments the same way in
  every request (see "Left out").
- `strings.dfy` models Go's `strings.ReplaceAll` (for a non-empty pattern),
  `strings.Split` and `strings.Join` (for a non-empty list), and proves
  facts about them.
- `counters.dfy` models the per-signer counter map as values.
- `bless.dfy` holds the handler.
  - `Handlers.Serve` is one whole request as a value. It returns the
    response and the ordered list of collaborator calls the request made
    (caveat synthesis, token verification, `Bless`, counter increments).
  - The class `Handlers.AccessTokenBlesser` holds the handler's
    configuration and its mutable counter map. Its `ServeHTTP` runs the
    pipeline step by step with early returns. It is proved to produce
    exactly what `Serve` produces, and to move the counter map by exactly
    the increments in that call list.
- `bless_properties.dfy` proves what the handler promises, stated over
  `Serve`: early abort, the caveats `Bless` receives, when the counter
  moves, the output-format rules, and how extensions are namespaced.

Choices, and where the model departs from the code:

- `security.ChainSeparator` is `":"` in the v23 security package. The
  handler's doc comment (bless.go:72-76) names blessings
  `<idp>:<appID>:<email>` and the model follows it. The inline comment at
  bless.go:156 still says `<clientID>/<email>`; that text is outdated.
- `r.FormValue(key)` is `""` for a missing key. The model reads form
  values the same way (`Handlers.FormValue`).
- The clock is the parameter `now`; the expiry deadline is
  `now + BlessingDuration`.
- The signer's default blessings `with` are an input, because the code
  ignores the error of `BlessingStore().Default()` (bless.go:204).
- The prefixes the stages put before a collaborator's error are the
  constants `Handlers.Base64FailurePrefix` (bless.go:113, 142),
  `Handlers.VomDecodeFailurePrefix` (bless.go:117) and
  `Handlers.CaveatSynthesisPrefix` (bless.go:131). The contracts of
  `RemotePublicKey`, `SuppliedCaveats` and `BlessingCaveats` state the
  messages with them.
- A revocation caveat is chosen when a revocation manager is configured,
  whatever `DischargerLocation` holds (bless.go:125). This is what the code
  does, even though the field comment at bless.go:52 says an empty
  location means no revocation caveats.

## Model

| member | source | states |
|---|---|---|
| Handlers.RemotePublicKey | identity/internal/handlers/bless.go:139-145 | the key decodes exactly when base64url decoding and key parsing both succeed, and it is the parsed key; a base64url failure is reported with the `base64.URLEncoding.DecodeString failed: ` prefix and a parsing failure as the parser's own error |
| Handlers.BlessingCaveats | identity/internal/handlers/bless.go:108-137 | a successful result is never empty; a decode failure of the supplied field fails with no call made; a non-empty supplied list is returned unchanged with no call made; with an empty or empty-decoding field, a configured revocation manager is asked for a caveat on the service principal's own key and the discharger location, otherwise an expiry caveat at now + BlessingDuration is made; that one call is recorded, and the result is that one caveat or the synthesis error with its prefix |
| Handlers.SuppliedCaveats | identity/internal/handlers/bless.go:110-119 | an empty field gives no caveats; otherwise the field succeeds exactly when base64url decoding and VOM decoding both succeed, and gives the decoded list; a base64url failure carries the `base64.URLEncoding.DecodeString failed: ` prefix and a VOM failure the `vom.Decode failed: ` prefix |
| Handlers.DefaultCaveatCall | identity/internal/handlers/bless.go:125-129 | the recorded synthesis call; its properties are stated by `Handlers.BlessingCaveats` and `BlessProperties.DefaultCaveatWhenNoneSupplied` |
| Handlers.DefaultCaveat | identity/internal/handlers/bless.go:125-129 | the synthesized caveat; `Handlers.BlessingCaveats` and `BlessProperties.DefaultCaveatWhenNoneSupplied` state it in terms of the revocation manager and the expiry-caveat constructor |
| Handlers.ResolveExtension | identity/internal/handlers/bless.go:152-166 | the extension for a verified pair; its properties are `BlessProperties.RegisteredAppExtension`, `UnregisteredAppExtension`, `ExtensionDeterminesEmail`, `TemplateWithoutEmailIsShared` and `FallbackSeparatesClients` |
| Handlers.EncodeBlessingsJSON | identity/internal/handlers/bless.go:169-171 | JSON of the wire form; `BlessProperties.RespondByFormat` states the json response in terms of it |
| Handlers.EncodeBlessingsVOM | identity/internal/handlers/bless.go:173-179 | succeeds exactly when VOM encoding does, with the base64url text of the encoding; a failure's message is `vom.Encode(<blessings>) failed: ` and the encoder's error (`Handlers.VomEncodeFailure`) |
| Handlers.EncodeBody | identity/internal/handlers/bless.go:232-250 | the body for a selected format; stated by `BlessProperties.RespondByFormat` |
| Handlers.Respond | identity/internal/handlers/bless.go:228-255 | the output-format switch as a value; stated by `BlessProperties.RespondByFormat` and `UnrecognizedFormatMessageNamesFormats`, and run by `Handlers.AccessTokenBlesser.WriteBlessings` |
| Handlers.VomEncodeFailure | identity/internal/handlers/bless.go:176 | the VOM encoding failure message; `Handlers.EncodeBlessingsVOM` and `BlessProperties.RespondByFormat` state it |
| Handlers.FormatName | identity/internal/handlers/bless.go:33-34 | the names of the two formats, printed in the encoding error at lines 237 and 246; `Handlers.SelectFormat` states that the selected format's name is the defaulted value and `BlessProperties.RespondByFormat` the error text |
| Handlers.ContentType | identity/internal/handlers/bless.go:240-249 | application/json for json and application/text for base64vom; stated by `BlessProperties.RespondByFormat` |
| Handlers.UnrecognizedFormatMessage | identity/internal/handlers/bless.go:253 | the refusal text; `Handlers.SelectFormat` gives it for every refused value and `BlessProperties.UnrecognizedFormatMessageNamesFormats` proves it names the value and both formats |
| Handlers.StagePrefix | identity/internal/handlers/bless.go:199-253 | the message prefix of each failing stage, as at lines 199, 209, 216, 223, 237 and 246 (the format refusal at 253 has none); `BlessProperties.MalformedKeyStopsEverything`, `MalformedCaveatsStopBeforeToken`, `RejectedTokenStopsBeforeBless`, `BlessFailureFailsAtBless`, `DefaultCaveatWhenNoneSupplied` and `RespondByFormat` state the exact error response of every stage with it |
| Handlers.Failure | identity/internal/handlers/bless.go:199-253 | a failed stage's response: the stage and its prefixed message; the lemmas named for `Handlers.StagePrefix` state exact error responses with it |
| Handlers.FormValue | identity/internal/handlers/bless.go:140 | `r.FormValue`: the value for a key, empty when missing |
| Handlers.Serve | identity/internal/handlers/bless.go:195-256 | a whole request as a value; `Handlers.AccessTokenBlesser.ServeHTTP` is proved equal to it and the `BlessProperties` lemmas state its behaviour |
| Handlers.Issue | identity/internal/handlers/bless.go:213-256 | the request after the caveats; `Handlers.AccessTokenBlesser.IssueBlessings` is proved equal to it, and `BlessProperties.IssueBlessCall` and `IssueCountsOnlyIssued` state it |
| Handlers.Signed | identity/internal/handlers/bless.go:220-256 | the `Bless` stage and what follows; `Handlers.AccessTokenBlesser.SignBlessings` is proved equal to it, `BlessProperties.BlessFailureFailsAtBless` states its failure response and `ResponseAfterBless` its success |
| Handlers.Delivered | identity/internal/handlers/bless.go:226-256 | counting and writing after `Bless`; `Handlers.AccessTokenBlesser.DeliverBlessings` is proved equal to it |
| Handlers.Increments | identity/internal/handlers/bless.go:226 | the counter names a trace increments; stated by `Handlers.IncrementsAppend`, `Handlers.NoIncrements` and `BlessProperties.CounterMovesExactlyOnIssuance` |
| Handlers.BlessingExtension | identity/internal/handlers/bless.go:147-167 | the token is verified exactly once; the stage succeeds exactly when the provider accepts the token, and then yields the extension resolved from the reported client ID and email |
| Handlers.SelectFormat | identity/internal/handlers/bless.go:228-254 | empty and base64vom select base64vom, json selects json, and every other value is refused with the message naming the value and both formats; the selected format's name is the defaulted value |
| Handlers.AppsOrEmpty | identity/internal/handlers/bless.go:101-104 | a nil app map becomes the empty map; any other map is kept |
| Handlers.AccessTokenBlesser.constructor | identity/internal/handlers/bless.go:101-106 | the handler keeps its configuration, a nil app map is replaced by an empty one, and the counter map starts out nil |
| Handlers.AccessTokenBlesser.Counter | identity/internal/handlers/bless.go:181-193 | the map is created on first use; a known name leaves the map unchanged; otherwise exactly one entry for the name is added at 0; all other entries are kept; the returned value is the counter for the name |
| Handlers.AccessTokenBlesser.Incr | identity/internal/handlers/bless.go:226 | the named counter goes up by one and no other entry changes |
| Handlers.AccessTokenBlesser.CountBlessing | identity/internal/handlers/bless.go:226 | `counter(name).Incr(1)` moves the named counter by one from its old value (0 if it did not exist) and keeps every other counter |
| Handlers.AccessTokenBlesser.ServeHTTP | identity/internal/handlers/bless.go:195-256 | the response and the collaborator calls are exactly those of `Serve`, and the counter map ends moved by exactly the increments among those calls |
| Handlers.AccessTokenBlesser.IssueBlessings | identity/internal/handlers/bless.go:213-225 | after the key and caveats are known: a rejected token fails the request with the provider's error and no increment; otherwise the request continues to `Bless` with the resolved extension |
| Handlers.AccessTokenBlesser.SignBlessings | identity/internal/handlers/bless.go:220-225 | equal to `Signed`: `Bless` is called with the first caveat and the rest; a failure is `Failure(BlessStage, err)` with no increment, as `BlessProperties.BlessFailureFailsAtBless` states for the whole request |
| Handlers.AccessTokenBlesser.DeliverBlessings | identity/internal/handlers/bless.go:226-255 | after a successful `Bless` the signer's counter is incremented once, before the output format is looked at |
| Handlers.AccessTokenBlesser.WriteBlessings | identity/internal/handlers/bless.go:228-255 | equal to `Respond`: content type and encoded body, an encoding error whose message is the format name, `: ` and the encoder's error, or the refusal of an unknown format, each stated exactly by `BlessProperties.RespondByFormat` |
| Handlers.IncrementsAppend | identity/internal/handlers/bless.go:195-256 | the counter increments of two call lists run one after the other are those of the first followed by those of the second |
| Handlers.NoIncrements | identity/internal/handlers/bless.go:196-225 | a list of calls without an increment moves no counter |
| Counters.Bump | identity/internal/handlers/bless.go:181-193 | the map exists afterwards and has the name among its keys; the named counter is one above its old value and every other counter is unchanged |
| Counters.Count | identity/internal/handlers/bless.go:190 | a counter not created yet reads 0, as a fresh `stats.NewCounter` does; `Counters.Bump` and `Counters.BumpAllCount` state the counts through it |
| Counters.BumpAll | identity/internal/handlers/bless.go:226 | successive `Incr(1)` calls in order; `Counters.BumpAllCount` and `Counters.BumpAllAppend` state it |
| Counters.OccurrencesAppend | identity/internal/handlers/bless.go:226 | the number of increments for a name is additive over concatenated runs |
| Counters.BumpAllCount | identity/internal/handlers/bless.go:181-193 | after a run of increments each counter has moved by exactly the number of increments naming it |
| Counters.BumpAllAppend | identity/internal/handlers/bless.go:226 | running two batches of increments one after the other is running their concatenation |
| BlessProperties.MalformedKeyStopsEverything | identity/internal/handlers/bless.go:196-201 | the request fails at key decoding exactly when the key does not decode, and then the response is `failed to decode public key: ` with the decoding error and no collaborator is called: no caveat, no token check, no `Bless`, no counter |
| BlessProperties.MalformedCaveatsStopBeforeToken | identity/internal/handlers/bless.go:206-211 | a supplied caveat field that fails base64url or VOM decoding fails the request with `failed to construct caveats for blessing: ` and the decoding error, before any collaborator is called |
| BlessProperties.RejectedTokenStopsBeforeBless | identity/internal/handlers/bless.go:213-218 | a rejected token fails the request with the provider's error after the caveats were built; there is no `Bless` call and no increment |
| BlessProperties.BlessFailureFailsAtBless | identity/internal/handlers/bless.go:220-225 | a `Bless` failure fails the request with `failed to Bless: ` and the signer's error, after the caveat calls, the token check and the `Bless` call, and before any increment |
| BlessProperties.BlessGetsVerifiedExtensionAndCaveats | identity/internal/handlers/bless.go:196-220 | every `Bless` call has the decoded key, the signer's default blessings, the extension resolved from a verified token, and the built caveat list split into head and tail, so it always carries at least one caveat |
| BlessProperties.IssueBlessCall | identity/internal/handlers/bless.go:213-220 | the same, for the part of the request after the caveats are built |
| BlessProperties.WrittenMeansBlessed | identity/internal/handlers/bless.go:220-255 | a written response was preceded by a successful `Bless` |
| BlessProperties.SuppliedCaveatsReachBlessUnchanged | identity/internal/handlers/bless.go:206-220 | a non-empty decoded caveat list synthesizes nothing; the token check and then `Bless` are the first calls, with the supplied list's head and tail unchanged and in order |
| BlessProperties.DefaultCaveatWhenNoneSupplied | identity/internal/handlers/bless.go:110-134 | with no caveats supplied, the first call asks the revocation manager (when configured, whatever the discharger location) for a caveat on the service principal's own key, otherwise makes an expiry caveat at now + duration; a failure ends the request with the synthesis error; a success is followed by the token check, and every `Bless` gets exactly that collaborator's caveat and no others |
| BlessProperties.CounterMovesExactlyOnIssuance | identity/internal/handlers/bless.go:196-226 | a request increments the signer's counter once if `Bless` succeeded and otherwise increments nothing |
| BlessProperties.IssueCountsOnlyIssued | identity/internal/handlers/bless.go:213-226 | the same, for the part of the request after the caveats are built |
| BlessProperties.RunCountersIsBumpAll | identity/internal/handlers/bless.go:181-226 | handling requests one after the other moves the counters by the concatenation of their increments |
| BlessProperties.RunIncrementsOccurrences | identity/internal/handlers/bless.go:196-226 | a run of requests increments the signer's counter once per issued blessing and no other counter |
| BlessProperties.CountersAfterRequests | identity/internal/handlers/bless.go:195-226 | after a run of requests, the signer's counter has moved by the number of requests that were issued blessings, and every other counter has not moved |
| BlessProperties.ResponseAfterBless | identity/internal/handlers/bless.go:220-255 | once `Bless` succeeds the counter has moved once, whatever the output format, and the response is the output-format switch on the blessings |
| BlessProperties.RespondByFormat | identity/internal/handlers/bless.go:228-254 | empty or base64vom writes base64url VOM as application/text, json writes JSON bytes as application/json; an encoder failure is the encoding error `failed to encode blessings in format <format>: ` with the encoder's message (for VOM, `vom.Encode(<blessings>) failed: ` and the error); any other value is refused with the exact refusal message |
| BlessProperties.UnrecognizedFormatMessageNamesFormats | identity/internal/handlers/bless.go:253 | the refusal message contains the value asked for and both allowed format names |
| BlessProperties.RegisteredAppExtension | identity/internal/handlers/bless.go:152-153 | a registered client's extension is the template split at `{email}` and joined with the email; a template without `{email}` is returned unchanged |
| BlessProperties.UnregisteredAppExtension | identity/internal/handlers/bless.go:166 | an unregistered client's extension is clientID, the chain separator, then the email |
| BlessProperties.NilAppMapUsesFallback | identity/internal/handlers/bless.go:101-105 | a handler built with a nil app map gives every client the fallback extension |
| BlessProperties.UnregisteredExample | identity/internal/handlers/bless.go:166 | client app1 with email a@x.com, not registered, gets `app1:a@x.com` |
| BlessProperties.TemplateEndingInPlaceholder | identity/internal/handlers/bless.go:152-153 | a template made of a prefix without `{` followed by `{email}` resolves to that prefix followed by the email |
| BlessProperties.RegisteredExample | identity/internal/handlers/bless.go:152-153 | client app2 registered with template `svc/{email}` and email b@y.com gets `svc/b@y.com` |
| BlessProperties.ExtensionDeterminesEmail | identity/internal/handlers/bless.go:152-166 | within one client, unless its template lacks `{email}`, equal extensions mean equal emails |
| BlessProperties.TemplateWithoutEmailIsShared | identity/internal/handlers/bless.go:152-153 | a registered template without `{email}` gives every user of that client the same extension |
| BlessProperties.FallbackSeparatesClients | identity/internal/handlers/bless.go:166 | for unregistered client IDs without the separator, the fallback extension determines both the client ID and the email |
| Strings.ReplaceAll | identity/internal/handlers/bless.go:153 | Go's `strings.ReplaceAll` for a non-empty pattern; stated by the `Strings` lemmas below |
| Strings.Split | identity/internal/handlers/bless.go:153 | Go's `strings.Split` for a non-empty separator, an independent description of the same scan; `Strings.ReplaceAllIsSplitJoin` ties it to `ReplaceAll` and `Strings.SplitJoinRoundTrip` is its inverse law |
| Strings.Join | identity/internal/handlers/bless.go:166 | Go's `strings.Join` for a non-empty list; stated by `Strings.JoinPair` and `Strings.JoinPrepend` |
| Strings.JoinPair | identity/internal/handlers/bless.go:166 | joining two strings is the first, the separator, then the second |
| Strings.JoinPrepend | identity/internal/handlers/bless.go:153 | a character added in front of the first part comes out in front of the join |
| Strings.ReplaceAllIsSplitJoin | identity/internal/handlers/bless.go:153 | replacing every match equals splitting at the pattern and joining with the replacement |
| Strings.SplitJoinRoundTrip | identity/internal/handlers/bless.go:153 | joining the split of a string with the pattern gives the string back |
| Strings.ReplacingWithItselfIsIdentity | identity/internal/handlers/bless.go:153 | replacing the pattern by itself changes nothing |
| Strings.ReplaceAllWithoutMatch | identity/internal/handlers/bless.go:153 | a string without the pattern is returned unchanged |
| Strings.MatchesIffContains | identity/internal/handlers/bless.go:153 | the number of matches replaced is positive exactly when the string contains the pattern |
| Strings.ReplaceAllLengthOrder | identity/internal/handlers/bless.go:153 | result lengths follow replacement lengths: never shorter for a longer replacement, equal for equally long ones, strictly longer once anything is replaced |
| Strings.ReplaceAllInjective | identity/internal/handlers/bless.go:153 | with a match present, equal results mean equal replacements |
| Strings.IndexOfAfterPrefix | identity/internal/handlers/bless.go:166 | in a string made of a prefix without the character, the character and a rest, the first occurrence of the character comes right after the prefix |
| Strings.ReplaceAllPlainPrefix | identity/internal/handlers/bless.go:153 | a prefix without the pattern's first character passes through replacement unchanged |

## Left out

- The generated VDL files (identity/identity.vdl.go, groups/internal/server/server.vdl.go, groups/groupsd/testdata/kvstore/kvstore.vdl.go) hold codec and RPC stubs, not handler logic.
- internal/restsigner/rest_signer.go is an unimplemented stub that always fails.
- The cryptography is not modelled: key parsing, `Bless`, revocation and expiry caveats, and `MarshalBlessings` are uninterpreted functions that may fail.
- The codecs are not modelled: base64url (section 5 of RFC 4648), VOM and `encoding/json` are uninterpreted functions that may fail.
- `Blessings.String` is an uninterpreted function.
- The mutex around the counter map, and concurrency in general, are left out: the map is sequential object state.
- HTTP plumbing is left out: the response writer, `util.HTTPServerError` and its status code, and logging through `ctx.Infof`. The response is a returned value whose error case records only the stage and the message.
- `stats.NewCounter` registration under `http/blessings/<name>` is left out. Each counter is represented by its value, not by a shared `*counter.Counter` object, so aliasing of counters between handlers is not modelled.
- `time.Now()` is the parameter `now`, in nanoseconds. `time.Time` and `time.Duration` overflow is not modelled.
- `v23.GetPrincipal` and `BlessingStore().Default()` are not modelled: their results, the principal and `with`, are inputs.
- Strings.ReplaceAll: modelled only for a non-empty pattern; the handler always passes `{email}`.
- Go strings are byte strings; the model uses Dafny strings of characters. For the ASCII `{email}` and `:` on valid UTF-8 the behaviour is the same, but strings that are not valid UTF-8 cannot be represented.
- `counter.Counter` holds an int64; the model counts with an unbounded `nat`, so int64 overflow of a counter is not modelled.
- Strings.Join: modelled only for a non-empty list (Go gives `""` for an empty one); the handler always joins two parts.
- Each collaborator is one fixed function, so a run of requests (`BlessProperties.CountersAfterRequests`) is one where the same token always gets the same answer from the OAuth provider and the same `Bless` arguments always give the same blessings. Randomized signatures and tokens expiring between requests are not modelled; the per-request properties do not depend on this.
- The trace of calls does not list the codec and encoder calls, because their results are all the handler uses from them.
- The content of the messages of wrapped Go errors (`%v` of an error) is modelled as the error's string.
