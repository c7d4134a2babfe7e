/** What the blessing handler promises, stated over the value model
    `Handlers.Serve` and the extension resolver. Together with
    `AccessTokenBlesser.ServeHTTP`, whose counters move by exactly the
    increments among the calls `Serve` lists, these are statements about the
    handler object as well. */
module BlessProperties {
  import opened Results
  import opened Security
  import opened Handlers
  import Strings
  import Counters

  /** The request reached `Bless` and `Bless` succeeded. */
  predicate Issued(p: Principal, o: Outcome) {
    exists i :: 0 <= i < |o.calls| && o.calls[i].Bless? && BlessOk(p, o.calls[i])
  }

  predicate BlessOk(p: Principal, c: Call)
    requires c.Bless?
  {
    p.bless(c.key, c.with, c.extension, c.caveat, c.additionalCaveats).Ok?
  }

  // ---------------------------------------------------------------------
  // Early abort

  /** A public key that fails base64url decoding or key parsing fails the
      request at the first stage, and only then; no caveat is synthesized, no
      token is verified, nothing is blessed and no counter moves. */
  lemma MalformedKeyStopsEverything(lib: Library, params: Params, apps: RegisteredAppMap,
                                    p: Principal, with: Blessings, form: Form, now: int)
    ensures var o := Serve(lib, params, apps, p, with, form, now);
            (o.response.ServerError? && o.response.stage == DecodePublicKey)
              <==> RemotePublicKey(lib, FormValue(form, PublicKeyFormKey)).Err?
    ensures var key := RemotePublicKey(lib, FormValue(form, PublicKeyFormKey));
            key.Err? ==>
              Serve(lib, params, apps, p, with, form, now) == Outcome(Failure(DecodePublicKey, key.msg), [])
  {
  }

  /** A caller-supplied caveat field that fails base64url or VOM decoding
      fails the request before the token is verified. */
  lemma MalformedCaveatsStopBeforeToken(lib: Library, params: Params, apps: RegisteredAppMap,
                                        p: Principal, with: Blessings, form: Form, now: int)
    requires RemotePublicKey(lib, FormValue(form, PublicKeyFormKey)).Ok?
    requires SuppliedCaveats(lib, FormValue(form, CaveatsFormKey)).Err?
    ensures Serve(lib, params, apps, p, with, form, now) ==
              Outcome(Failure(ConstructCaveats, SuppliedCaveats(lib, FormValue(form, CaveatsFormKey)).msg), [])
  {
  }

  /** A `Bless` failure fails the request at the `Bless` stage with the
      signer's error, after the caveats, the token check and the `Bless`
      call itself; no counter moves. */
  lemma BlessFailureFailsAtBless(lib: Library, params: Params, apps: RegisteredAppMap,
                                 p: Principal, with: Blessings, form: Form, now: int)
    requires RemotePublicKey(lib, FormValue(form, PublicKeyFormKey)).Ok?
    requires BlessingCaveats(lib, params, p, FormValue(form, CaveatsFormKey), now).result.Ok?
    requires params.oauthProvider.getEmailAndClientID(FormValue(form, TokenFormKey)).Ok?
    requires var cs := BlessingCaveats(lib, params, p, FormValue(form, CaveatsFormKey), now).result.value;
             var info := params.oauthProvider.getEmailAndClientID(FormValue(form, TokenFormKey)).value;
             p.bless(RemotePublicKey(lib, FormValue(form, PublicKeyFormKey)).value, with,
                     ResolveExtension(apps, info.clientID, info.email), cs[0], cs[1..]).Err?
    ensures var cav := BlessingCaveats(lib, params, p, FormValue(form, CaveatsFormKey), now);
            var cs := cav.result.value;
            var key := RemotePublicKey(lib, FormValue(form, PublicKeyFormKey)).value;
            var token := FormValue(form, TokenFormKey);
            var info := params.oauthProvider.getEmailAndClientID(token).value;
            var ext := ResolveExtension(apps, info.clientID, info.email);
            Serve(lib, params, apps, p, with, form, now) ==
              Outcome(Failure(BlessStage, p.bless(key, with, ext, cs[0], cs[1..]).msg),
                      cav.calls + [GetEmailAndClientID(token), Bless(key, with, ext, cs[0], cs[1..])])
  {
    var cav := BlessingCaveats(lib, params, p, FormValue(form, CaveatsFormKey), now);
    var token := FormValue(form, TokenFormKey);
    assert cav.calls + [GetEmailAndClientID(token)] + [Bless(RemotePublicKey(lib, FormValue(form, PublicKeyFormKey)).value, with,
                     BlessingExtension(params.oauthProvider, apps, token).result.value,
                     cav.result.value[0], cav.result.value[1..])]
        == cav.calls + [GetEmailAndClientID(token), Bless(RemotePublicKey(lib, FormValue(form, PublicKeyFormKey)).value, with,
                     BlessingExtension(params.oauthProvider, apps, token).result.value,
                     cav.result.value[0], cav.result.value[1..])];
  }

  /** A token the OAuth provider rejects fails the request; nothing is
      blessed and no counter moves. The caveats were built first. */
  lemma RejectedTokenStopsBeforeBless(lib: Library, params: Params, apps: RegisteredAppMap,
                                      p: Principal, with: Blessings, form: Form, now: int)
    requires RemotePublicKey(lib, FormValue(form, PublicKeyFormKey)).Ok?
    requires BlessingCaveats(lib, params, p, FormValue(form, CaveatsFormKey), now).result.Ok?
    requires params.oauthProvider.getEmailAndClientID(FormValue(form, TokenFormKey)).Err?
    ensures var o := Serve(lib, params, apps, p, with, form, now);
            var cav := BlessingCaveats(lib, params, p, FormValue(form, CaveatsFormKey), now);
            o.response == Failure(ProcessAccessToken,
                                  params.oauthProvider.getEmailAndClientID(FormValue(form, TokenFormKey)).msg) &&
            o.calls == cav.calls + [GetEmailAndClientID(FormValue(form, TokenFormKey))] &&
            Increments(o.calls) == []
  {
    var cav := BlessingCaveats(lib, params, p, FormValue(form, CaveatsFormKey), now);
    NoIncrements(cav.calls + [GetEmailAndClientID(FormValue(form, TokenFormKey))]);
  }

  // ---------------------------------------------------------------------
  // Caveats

  /** `Bless` is only ever called after the token was verified, with the
      resolved extension and with the built caveat list split into its first
      element and the rest; issued blessings therefore always carry at least
      one caveat. */
  lemma BlessGetsVerifiedExtensionAndCaveats(lib: Library, params: Params, apps: RegisteredAppMap,
                                             p: Principal, with: Blessings, form: Form, now: int,
                                             i: int)
    requires var o := Serve(lib, params, apps, p, with, form, now);
             0 <= i < |o.calls| && o.calls[i].Bless?
    ensures var o := Serve(lib, params, apps, p, with, form, now);
            var cav := BlessingCaveats(lib, params, p, FormValue(form, CaveatsFormKey), now);
            var token := params.oauthProvider.getEmailAndClientID(FormValue(form, TokenFormKey));
            var c := o.calls[i];
            RemotePublicKey(lib, FormValue(form, PublicKeyFormKey)) == Ok(c.key) &&
            c.with == with &&
            cav.result == Ok([c.caveat] + c.additionalCaveats) &&
            token.Ok? && c.extension == ResolveExtension(apps, token.value.clientID, token.value.email)
  {
    var key := RemotePublicKey(lib, FormValue(form, PublicKeyFormKey));
    var cav := BlessingCaveats(lib, params, p, FormValue(form, CaveatsFormKey), now);
    if key.Ok? && cav.result.Ok? {
      IssueBlessCall(lib, params, apps, p, with, form, key.value, cav.result.value, cav.calls, i);
    }
  }

  /** The `Bless` call of the request's second half gets the decoded key,
      the verified extension and the caveat list, split into head and tail. */
  lemma IssueBlessCall(lib: Library, params: Params, apps: RegisteredAppMap,
                       p: Principal, with: Blessings, form: Form,
                       key: PublicKey, caveats: seq<Caveat>, calls: seq<Call>, i: int)
    requires |caveats| >= 1
    requires forall j :: 0 <= j < |calls| ==> !calls[j].Bless?
    requires var o := Issue(lib, params, apps, p, with, form, key, caveats, calls);
             0 <= i < |o.calls| && o.calls[i].Bless?
    ensures var o := Issue(lib, params, apps, p, with, form, key, caveats, calls);
            var token := params.oauthProvider.getEmailAndClientID(FormValue(form, TokenFormKey));
            var c := o.calls[i];
            c.key == key && c.with == with && [c.caveat] + c.additionalCaveats == caveats &&
            token.Ok? && c.extension == ResolveExtension(apps, token.value.clientID, token.value.email)
  {
    assert [caveats[0]] + caveats[1..] == caveats;
  }

  /** A successful response was preceded by a `Bless` call. */
  lemma WrittenMeansBlessed(lib: Library, params: Params, apps: RegisteredAppMap,
                            p: Principal, with: Blessings, form: Form, now: int)
    requires Serve(lib, params, apps, p, with, form, now).response.Written?
    ensures Issued(p, Serve(lib, params, apps, p, with, form, now))
  {
    var o := Serve(lib, params, apps, p, with, form, now);
    var n := |o.calls|;
    assert o.calls[n - 2].Bless?;
    assert BlessOk(p, o.calls[n - 2]);
  }

  /** A non-empty decoded caveat list is passed to `Bless` unchanged and in
      order, and no default caveat is synthesized. */
  lemma SuppliedCaveatsReachBlessUnchanged(lib: Library, params: Params, apps: RegisteredAppMap,
                                           p: Principal, with: Blessings, form: Form, now: int)
    requires RemotePublicKey(lib, FormValue(form, PublicKeyFormKey)).Ok?
    requires SuppliedCaveats(lib, FormValue(form, CaveatsFormKey)).Ok?
    requires |SuppliedCaveats(lib, FormValue(form, CaveatsFormKey)).value| > 0
    requires params.oauthProvider.getEmailAndClientID(FormValue(form, TokenFormKey)).Ok?
    ensures var o := Serve(lib, params, apps, p, with, form, now);
            var supplied := SuppliedCaveats(lib, FormValue(form, CaveatsFormKey)).value;
            var token := FormValue(form, TokenFormKey);
            var info := params.oauthProvider.getEmailAndClientID(token).value;
            |o.calls| >= 2 &&
            o.calls[..2] == [GetEmailAndClientID(token),
                             Bless(RemotePublicKey(lib, FormValue(form, PublicKeyFormKey)).value, with,
                                   ResolveExtension(apps, info.clientID, info.email),
                                   supplied[0], supplied[1..])]
  {
  }

  /** With no caveats supplied (an empty field, or one that decodes to an
      empty list) exactly one default caveat is synthesized before the token
      is looked at: a revocation caveat for the service principal's own key
      when a revocation manager is configured (whatever the discharger
      location), otherwise an expiry caveat at now + BlessingDuration. If
      synthesis fails the request fails there; otherwise that caveat, and
      only it, is what `Bless` receives. */
  lemma DefaultCaveatWhenNoneSupplied(lib: Library, params: Params, apps: RegisteredAppMap,
                                      p: Principal, with: Blessings, form: Form, now: int)
    requires RemotePublicKey(lib, FormValue(form, PublicKeyFormKey)).Ok?
    requires SuppliedCaveats(lib, FormValue(form, CaveatsFormKey)) == Ok([])
    ensures params.revocationManager.Some? ==>
              SynthesizedFirst(Serve(lib, params, apps, p, with, form, now), form,
                               NewRevocationCaveat(p.publicKey, params.dischargerLocation),
                               params.revocationManager.value.newCaveat(p.publicKey, params.dischargerLocation))
    ensures params.revocationManager.None? ==>
              SynthesizedFirst(Serve(lib, params, apps, p, with, form, now), form,
                               NewExpiryCaveat(now + params.blessingDuration),
                               lib.newExpiryCaveat(now + params.blessingDuration))
  {
    var o := Serve(lib, params, apps, p, with, form, now);
    var cav := BlessingCaveats(lib, params, p, FormValue(form, CaveatsFormKey), now);
    if cav.result.Ok? {
      forall i | 0 <= i < |o.calls| && o.calls[i].Bless?
        ensures o.calls[i].caveat == cav.result.value[0]
        ensures o.calls[i].additionalCaveats == []
      {
        BlessGetsVerifiedExtensionAndCaveats(lib, params, apps, p, with, form, now, i);
        assert [o.calls[i].caveat] + o.calls[i].additionalCaveats == cav.result.value;
      }
    }
  }

  /** The first call of `o` synthesized a caveat, with result `made`: a
      failure ends the request there with the synthesis error; a success is
      followed by the token check, and every `Bless` gets exactly that
      caveat. */
  predicate SynthesizedFirst(o: Outcome, form: Form, call: Call, made: Result<Caveat>) {
    |o.calls| >= 1 && o.calls[0] == call &&
    (made.Err? ==>
       o.response == Failure(ConstructCaveats, CaveatSynthesisPrefix + made.msg) && |o.calls| == 1) &&
    (made.Ok? ==>
       |o.calls| >= 2 && o.calls[1] == GetEmailAndClientID(FormValue(form, TokenFormKey)) &&
       forall i :: 0 <= i < |o.calls| && o.calls[i].Bless? ==>
         o.calls[i].caveat == made.value && o.calls[i].additionalCaveats == [])
  }

  // ---------------------------------------------------------------------
  // The counter

  /** The counter named by the signer's blessings moves exactly when the
      request got a blessing from `Bless`, by one, and before the output
      format is looked at; it moves on no failure path before that. */
  lemma CounterMovesExactlyOnIssuance(lib: Library, params: Params, apps: RegisteredAppMap,
                                      p: Principal, with: Blessings, form: Form, now: int)
    ensures var o := Serve(lib, params, apps, p, with, form, now);
            Increments(o.calls) == (if Issued(p, o) then [lib.blessingsString(with)] else [])
  {
    var key := RemotePublicKey(lib, FormValue(form, PublicKeyFormKey));
    var cav := BlessingCaveats(lib, params, p, FormValue(form, CaveatsFormKey), now);
    if key.Ok? && cav.result.Ok? {
      IssueCountsOnlyIssued(lib, params, apps, p, with, form, key.value, cav.result.value, cav.calls);
    } else {
      var o := Serve(lib, params, apps, p, with, form, now);
      assert forall i :: 0 <= i < |o.calls| ==> !o.calls[i].Bless? && !o.calls[i].IncrementCounter?;
      NoIncrements(o.calls);
    }
  }

  lemma IssueCountsOnlyIssued(lib: Library, params: Params, apps: RegisteredAppMap,
                              p: Principal, with: Blessings, form: Form,
                              key: PublicKey, caveats: seq<Caveat>, calls: seq<Call>)
    requires |caveats| >= 1
    requires forall i :: 0 <= i < |calls| ==> !calls[i].Bless? && !calls[i].IncrementCounter?
    ensures var o := Issue(lib, params, apps, p, with, form, key, caveats, calls);
            Increments(o.calls) == (if Issued(p, o) then [lib.blessingsString(with)] else [])
  {
    var o := Issue(lib, params, apps, p, with, form, key, caveats, calls);
    var ext := BlessingExtension(params.oauthProvider, apps, FormValue(form, TokenFormKey));
    var before := calls + ext.calls;
    assert forall i :: 0 <= i < |before| ==> !before[i].Bless? && !before[i].IncrementCounter?;
    NoIncrements(before);
    if ext.result.Ok? {
      var bless := Bless(key, with, ext.result.value, caveats[0], caveats[1..]);
      if BlessOk(p, bless) {
        var counted := IncrementCounter(lib.blessingsString(with));
        assert o.calls == before + [bless, counted];
        IncrementsAppend(before, [bless, counted]);
        assert [bless, counted][1..] == [counted] && [counted][1..] == [];
        assert Increments([counted]) == [counted.name];
        assert Increments([bless, counted]) == [counted.name];
        assert o.calls[|before|] == bless && BlessOk(p, o.calls[|before|]);
        assert Issued(p, o);
      } else {
        assert o.calls == before + [bless];
        IncrementsAppend(before, [bless]);
        assert [bless][1..] == [];
        assert !Issued(p, o) by {
          forall i | 0 <= i < |o.calls| && o.calls[i].Bless?
            ensures !BlessOk(p, o.calls[i])
          {
            assert i == |before|;
          }
        }
      }
    } else {
      assert o.calls == before;
      assert !Issued(p, o);
    }
  }

  /** Counter exactness over a run of requests: after handling requests in
      order, the signer's counter has moved by exactly the number of them
      that were issued blessings, and every other counter is where it was. */
  function RunCounters(lib: Library, params: Params, apps: RegisteredAppMap, p: Principal,
                       with: Blessings, cs: Counters.CounterMap, requests: seq<(Form, int)>)
    : Counters.CounterMap
    decreases |requests|
  {
    if requests == [] then cs
    else
      var o := Serve(lib, params, apps, p, with, requests[0].0, requests[0].1);
      RunCounters(lib, params, apps, p, with, Counters.BumpAll(cs, Increments(o.calls)), requests[1..])
  }

  function IssuedCount(lib: Library, params: Params, apps: RegisteredAppMap, p: Principal,
                       with: Blessings, requests: seq<(Form, int)>): nat
    decreases |requests|
  {
    if requests == [] then 0
    else
      var o := Serve(lib, params, apps, p, with, requests[0].0, requests[0].1);
      (if Issued(p, o) then 1 else 0) + IssuedCount(lib, params, apps, p, with, requests[1..])
  }

  /** The counter names a run of requests moves, in order. */
  function RunIncrements(lib: Library, params: Params, apps: RegisteredAppMap, p: Principal,
                         with: Blessings, requests: seq<(Form, int)>): seq<string>
    decreases |requests|
  {
    if requests == [] then []
    else
      var o := Serve(lib, params, apps, p, with, requests[0].0, requests[0].1);
      Increments(o.calls) + RunIncrements(lib, params, apps, p, with, requests[1..])
  }

  /** Handling requests one after the other moves the counters by the
      concatenation of their increments. */
  lemma {:induction false} RunCountersIsBumpAll(lib: Library, params: Params, apps: RegisteredAppMap,
                                                p: Principal, with: Blessings,
                                                cs: Counters.CounterMap, requests: seq<(Form, int)>)
    ensures RunCounters(lib, params, apps, p, with, cs, requests) ==
              Counters.BumpAll(cs, RunIncrements(lib, params, apps, p, with, requests))
    decreases |requests|
  {
    if requests != [] {
      var o := Serve(lib, params, apps, p, with, requests[0].0, requests[0].1);
      var rest := RunIncrements(lib, params, apps, p, with, requests[1..]);
      RunCountersIsBumpAll(lib, params, apps, p, with, Counters.BumpAll(cs, Increments(o.calls)), requests[1..]);
      Counters.BumpAllAppend(cs, Increments(o.calls), rest);
    }
  }

  /** A run of requests names the signer once per issued blessing and
      names no other counter. */
  lemma {:induction false} RunIncrementsOccurrences(lib: Library, params: Params, apps: RegisteredAppMap,
                                                    p: Principal, with: Blessings,
                                                    requests: seq<(Form, int)>, name: string)
    ensures Counters.Occurrences(RunIncrements(lib, params, apps, p, with, requests), name) ==
              (if name == lib.blessingsString(with)
               then IssuedCount(lib, params, apps, p, with, requests) else 0)
    decreases |requests|
  {
    if requests != [] {
      var o := Serve(lib, params, apps, p, with, requests[0].0, requests[0].1);
      var first := Increments(o.calls);
      var rest := RunIncrements(lib, params, apps, p, with, requests[1..]);
      CounterMovesExactlyOnIssuance(lib, params, apps, p, with, requests[0].0, requests[0].1);
      Counters.OccurrencesAppend(first, rest, name);
      RunIncrementsOccurrences(lib, params, apps, p, with, requests[1..], name);
      if first != [] {
        assert first[1..] == [];
      }
    }
  }

  lemma CountersAfterRequests(lib: Library, params: Params, apps: RegisteredAppMap,
                              p: Principal, with: Blessings,
                              cs: Counters.CounterMap, requests: seq<(Form, int)>,
                              name: string)
    ensures var after := RunCounters(lib, params, apps, p, with, cs, requests);
            Counters.Count(after, name) ==
              Counters.Count(cs, name) +
              (if name == lib.blessingsString(with)
               then IssuedCount(lib, params, apps, p, with, requests) else 0)
  {
    var names := RunIncrements(lib, params, apps, p, with, requests);
    RunCountersIsBumpAll(lib, params, apps, p, with, cs, requests);
    Counters.BumpAllCount(cs, names, name);
    RunIncrementsOccurrences(lib, params, apps, p, with, requests, name);
  }

  // ---------------------------------------------------------------------
  // Output format

  /** Once `Bless` has succeeded, the response depends only on the output
      format: base64vom (also the default) is written as text with content
      type application/text, json as bytes with application/json, an encoder
      failure is an encoding error, and any other value is refused with a
      message naming both allowed formats. In every case the counter has
      already moved. */
  lemma ResponseAfterBless(lib: Library, params: Params, apps: RegisteredAppMap,
                           p: Principal, with: Blessings, form: Form, now: int,
                           blessings: Blessings)
    requires RemotePublicKey(lib, FormValue(form, PublicKeyFormKey)).Ok?
    requires BlessingCaveats(lib, params, p, FormValue(form, CaveatsFormKey), now).result.Ok?
    requires params.oauthProvider.getEmailAndClientID(FormValue(form, TokenFormKey)).Ok?
    requires var cs := BlessingCaveats(lib, params, p, FormValue(form, CaveatsFormKey), now).result.value;
             var info := params.oauthProvider.getEmailAndClientID(FormValue(form, TokenFormKey)).value;
             p.bless(RemotePublicKey(lib, FormValue(form, PublicKeyFormKey)).value, with,
                     ResolveExtension(apps, info.clientID, info.email), cs[0], cs[1..])
               == Ok(blessings)
    ensures var o := Serve(lib, params, apps, p, with, form, now);
            Issued(p, o) && Increments(o.calls) == [lib.blessingsString(with)] &&
            o.response == Respond(lib, FormValue(form, OutputFormatFormKey), blessings)
  {
    var o := Serve(lib, params, apps, p, with, form, now);
    var n := |o.calls|;
    assert o.calls[n - 2].Bless? && BlessOk(p, o.calls[n - 2]);
    CounterMovesExactlyOnIssuance(lib, params, apps, p, with, form, now);
  }

  lemma RespondByFormat(lib: Library, value: string, blessings: Blessings)
    ensures value == "" || value == Base64VomFormat ==>
              match lib.vomEncodeBlessings(blessings)
              case Ok(vom) =>
                Respond(lib, value, blessings) ==
                  Written("application/text", Text(lib.base64UrlEncode(vom)))
              case Err(e) =>
                Respond(lib, value, blessings) ==
                  Failure(EncodeBlessings,
                          Base64VomFormat + ": " + VomEncodeFailure(lib.blessingsString(blessings), e))
    ensures value == JsonFormat ==>
              match lib.jsonMarshal(lib.marshalBlessings(blessings))
              case Ok(json) =>
                Respond(lib, value, blessings) == Written("application/json", Binary(json))
              case Err(e) =>
                Respond(lib, value, blessings) == Failure(EncodeBlessings, JsonFormat + ": " + e)
    ensures value !in {"", Base64VomFormat, JsonFormat} ==>
              Respond(lib, value, blessings) ==
                ServerError(SelectOutputFormat, UnrecognizedFormatMessage(value))
  {
  }

  /** The refusal of an unknown output format repeats the value asked for
      and names both formats that are allowed. */
  lemma UnrecognizedFormatMessageNamesFormats(value: string)
    ensures Strings.Contains(UnrecognizedFormatMessage(value), value)
    ensures Strings.Contains(UnrecognizedFormatMessage(value), Base64VomFormat)
    ensures Strings.Contains(UnrecognizedFormatMessage(value), JsonFormat)
  {
    var m := UnrecognizedFormatMessage(value);
    var head := "unrecognized output format [";
    var middle := "] in request. Allowed formats are [";
    assert m == head + value + middle + Base64VomFormat + ", " + JsonFormat + "]";
    var i := |head|;
    assert m[i..][..|value|] == value;
    var j := |head| + |value| + |middle|;
    assert m[j..][..|Base64VomFormat|] == Base64VomFormat;
    var k := j + |Base64VomFormat| + 2;
    assert m[k..][..|JsonFormat|] == JsonFormat;
  }

  // ---------------------------------------------------------------------
  // Extensions

  /** A registered app's template with every `{email}` replaced; a template
      without the placeholder is used as it is. */
  lemma RegisteredAppExtension(apps: RegisteredAppMap, clientID: string, email: string)
    requires clientID in apps
    ensures ResolveExtension(apps, clientID, email) ==
              Strings.Join(Strings.Split(apps[clientID].extension, EmailPlaceholder), email)
    ensures !Strings.Contains(apps[clientID].extension, EmailPlaceholder) ==>
              ResolveExtension(apps, clientID, email) == apps[clientID].extension
  {
    Strings.ReplaceAllIsSplitJoin(apps[clientID].extension, EmailPlaceholder, email);
    if !Strings.Contains(apps[clientID].extension, EmailPlaceholder) {
      Strings.ReplaceAllWithoutMatch(apps[clientID].extension, EmailPlaceholder, email);
    }
  }

  /** An unregistered client gets `clientID:email`. */
  lemma UnregisteredAppExtension(apps: RegisteredAppMap, clientID: string, email: string)
    requires clientID !in apps
    ensures ResolveExtension(apps, clientID, email) == clientID + ChainSeparator + email
  {
    Strings.JoinPair(clientID, email, ChainSeparator);
  }

  /** A handler built with a nil app map sends every client to the
      fallback. */
  lemma NilAppMapUsesFallback(clientID: string, email: string)
    ensures ResolveExtension(AppsOrEmpty(None), clientID, email) == clientID + ChainSeparator + email
  {
    UnregisteredAppExtension(AppsOrEmpty(None), clientID, email);
  }

  /** The unregistered-client example: app1 and a@x.com. */
  lemma UnregisteredExample(apps: RegisteredAppMap)
    requires "app1" !in apps
    ensures ResolveExtension(apps, "app1", "a@x.com") == "app1:a@x.com"
  {
    UnregisteredAppExtension(apps, "app1", "a@x.com");
  }

  /** A registered template that ends in `{email}` after a prefix without
      `{`: the extension is that prefix followed by the email. */
  lemma TemplateEndingInPlaceholder(apps: RegisteredAppMap, clientID: string,
                                    prefix: string, email: string)
    requires clientID in apps && apps[clientID].extension == prefix + EmailPlaceholder
    requires EmailPlaceholder[0] !in prefix
    ensures ResolveExtension(apps, clientID, email) == prefix + email
  {
    var pat := EmailPlaceholder;
    Strings.ReplaceAllPlainPrefix(prefix, pat, pat, email);
    assert Strings.ReplaceAll(pat, pat, email) == email by {
      assert Strings.StartsWith(pat, pat) && pat[|pat|..] == [];
    }
  }

  /** The registered-client example: app2 with template svc/{email}. */
  lemma RegisteredExample(apps: RegisteredAppMap)
    requires "app2" in apps && apps["app2"] == AppEntry("svc/{email}")
    ensures ResolveExtension(apps, "app2", "b@y.com") == "svc/b@y.com"
  {
    var prefix, email := "svc/", "b@y.com";
    assert apps["app2"].extension == prefix + EmailPlaceholder;
    TemplateEndingInPlaceholder(apps, "app2", prefix, email);
    assert prefix + email == "svc/b@y.com";
  }

  /** Within one client, the extension determines the email, unless the
      client is registered with a template that has no `{email}`: then
      every user of that client gets the same extension. */
  lemma ExtensionDeterminesEmail(apps: RegisteredAppMap, clientID: string, email1: string, email2: string)
    requires clientID !in apps || Strings.Contains(apps[clientID].extension, EmailPlaceholder)
    requires ResolveExtension(apps, clientID, email1) == ResolveExtension(apps, clientID, email2)
    ensures email1 == email2
  {
    if clientID in apps {
      Strings.ReplaceAllInjective(apps[clientID].extension, EmailPlaceholder, email1, email2);
    } else {
      UnregisteredAppExtension(apps, clientID, email1);
      UnregisteredAppExtension(apps, clientID, email2);
      var n := |clientID + ChainSeparator|;
      assert email1 == ResolveExtension(apps, clientID, email1)[n..];
      assert email2 == ResolveExtension(apps, clientID, email2)[n..];
    }
  }

  lemma TemplateWithoutEmailIsShared(apps: RegisteredAppMap, clientID: string, email1: string, email2: string)
    requires clientID in apps && !Strings.Contains(apps[clientID].extension, EmailPlaceholder)
    ensures ResolveExtension(apps, clientID, email1) == ResolveExtension(apps, clientID, email2)
  {
    RegisteredAppExtension(apps, clientID, email1);
    RegisteredAppExtension(apps, clientID, email2);
  }

  /** The fallback keeps unregistered clients apart: for client IDs without
      the separator, the extension determines both client and email. */
  lemma FallbackSeparatesClients(apps: RegisteredAppMap, client1: string, email1: string,
                                 client2: string, email2: string)
    requires client1 !in apps && client2 !in apps
    requires ChainSeparator[0] !in client1 && ChainSeparator[0] !in client2
    requires ResolveExtension(apps, client1, email1) == ResolveExtension(apps, client2, email2)
    ensures client1 == client2 && email1 == email2
  {
    UnregisteredAppExtension(apps, client1, email1);
    UnregisteredAppExtension(apps, client2, email2);
    var x := client1 + ChainSeparator + email1;
    var y := client2 + ChainSeparator + email2;
    Strings.IndexOfAfterPrefix(client1, ChainSeparator[0], email1);
    Strings.IndexOfAfterPrefix(client2, ChainSeparator[0], email2);
    assert [ChainSeparator[0]] == ChainSeparator;
    assert client1 == x[..|client1|] == y[..|client2|] == client2;
    assert email1 == x[|client1| + 1..] == y[|client2| + 1..] == email2;
  }
}
