/** The statement-submission handler `add_statement` (route /add_stat).
    Route is its specification: from the request method, the JSON body and
    the answers of the outside world it gives the ordered effects the
    handler produces and what it answers. AddStatement is the handler
    itself, step by step, updating the vote ledgers in place. */
module Statement {
  import opened Wrappers
  import opened Text
  import opened Claims
  import opened Ledger

  datatype Verb = Get | Post

  /** The JSON body `{id, tipo, claim?, edit_claim?}`; every key may be
      missing from what the client sent. */
  datatype Submission = Submission(
    id: Option<string>,
    tipo: Option<string>,
    claim: Option<string>,
    editClaim: Option<string>)

  /** What the handler obtains from outside: the user name, the timestamp,
      the edit token `get_token` returns and the `wbgetclaims` answer. */
  datatype Env = Env(username: string, today: string, token: string, claims: ClaimsResponse)

  /** One observable step, in the order the handler takes it. */
  datatype Effect =
    | FetchToken                                  // get_token()
    | ApiPost(params: map<string, string>)        // api_post_request(params)
    | ApiGet(params: map<string, string>)         // requests.get(api, params)
    | AppendVote(ledger: LedgerKind, subject: string, vote: Vote)

  /** The JSON string returned, or an exception that escaped the handler. */
  datatype Reply = Message(text: string) | Crash(fault: Fault)

  datatype Outcome = Outcome(effects: seq<Effect>, reply: Reply)

  const UnknownValue := "unknownvalue"
  const NoValue := "novalue"

  const SuccessMessage := "Declaração inserida com sucesso!"
  const UnknownMotifMessage := "Sua declaração foi inserida com sucesso no nosso banco de dados para análise!"
  const NoMotifMessage := "Sua declaração foi inserida com sucesso no nosso banco de dados!"
  const ErrorMessage := "'Ocorreu algum erro! Verifique se selecionou uma opção. Caso o erro persista, por favor, reporte em https://github.com/WikiMovimentoBrasil/wikimotivos/issues'"

  const ItemValuePrefix := "{\"entity-type\":\"item\",\"numeric-id\":"

  /** The item value payload `{"entity-type":"item","numeric-id":N}`; the
      numeric id can be read back from between the prefix and the brace. */
  function ItemValue(numericId: string): (r: string)
    ensures |r| == |ItemValuePrefix| + |numericId| + 1
    ensures r[..|ItemValuePrefix|] == ItemValuePrefix
    ensures r[|ItemValuePrefix|..|r| - 1] == numericId
    ensures r[|r| - 1] == '}'
  {
    ItemValuePrefix + numericId + "}"
  }

  /** Two payloads are equal only when their numeric ids are. */
  lemma ItemValueInjective(a: string, b: string)
    ensures ItemValue(a) == ItemValue(b) <==> a == b
  {
    if ItemValue(a) == ItemValue(b) {
      assert a == ItemValue(a)[|ItemValuePrefix|..|ItemValue(a)| - 1];
    }
  }

  function SetClaimValueParams(claim: string, numericId: string, token: string): map<string, string> {
    map["action" := "wbsetclaimvalue", "claim" := claim, "snaktype" := "value",
        "token" := token, "value" := ItemValue(numericId)]
  }

  function CreateClaimParams(qid: string, pid: string, numericId: string, token: string): map<string, string> {
    map["action" := "wbcreateclaim", "format" := "json", "entity" := qid, "property" := pid,
        "snaktype" := "value", "token" := token, "value" := ItemValue(numericId)]
  }

  /** The provenance qualifier: P3831 pointing at item Q1229071. */
  function QualifierParams(claim: string, token: string): map<string, string> {
    map["action" := "wbsetqualifier", "format" := "json", "claim" := claim, "property" := "P3831",
        "value" := ItemValue("1229071"), "snaktype" := "value", "token" := token]
  }

  /** Lines after the edit branch: the first-match-wins chain on `tipo`. */
  function Dispatch(qid: string, pid: string, claim: Option<string>, env: Env): Outcome
  {
    if pid == Depicts then
      if claim.None? then Outcome([FetchToken], Crash(KeyError("claim")))
      else
        var numericId := StripQ(claim.value);
        var issued := [FetchToken, ApiPost(CreateClaimParams(qid, pid, numericId, env.token)),
                       ApiGet(LookupParams(qid, pid))];
        match Lookup(env.claims, numericId)
        case Failure(f) => Outcome(issued, Crash(f))
        case Success(statId) =>
          Outcome(issued + [ApiPost(QualifierParams(statId, env.token))], Message(SuccessMessage))
    else if pid == UnknownValue then
      Outcome([AppendVote(UnknownMotifs, qid, Vote(env.username, env.today))], Message(UnknownMotifMessage))
    else if pid == NoValue then
      Outcome([AppendVote(NoMotifs, qid, Vote(env.username, env.today))], Message(NoMotifMessage))
    else Outcome([], Message(ErrorMessage))
  }

  /** The whole handler as a function of its inputs. */
  function Route(verb: Verb, sub: Submission, env: Env): Outcome
  {
    if verb != Post then Outcome([], Message(ErrorMessage))
    else if sub.id.None? then Outcome([], Crash(KeyError("id")))
    else if sub.tipo.None? then Outcome([], Crash(KeyError("tipo")))
    else
      var qid, pid := sub.id.value, sub.tipo.value;
      var editClaim := sub.editClaim.GetOr("");
      if editClaim != "" then
        if sub.claim.None? then Outcome([], Crash(KeyError("claim")))
        else if pid != UnknownValue && pid != NoValue then
          Outcome([FetchToken, ApiPost(SetClaimValueParams(editClaim, StripQ(sub.claim.value), env.token))],
                  Message(SuccessMessage))
        else
          var rest := Dispatch(qid, pid, sub.claim, env);
          Outcome([FetchToken] + rest.effects, rest.reply)
      else Dispatch(qid, pid, sub.claim, env)
  }

  /** The ledger change one effect makes (only vote appends make one). */
  function ApplyEffect(s: Ledgers, e: Effect): Ledgers {
    if e.AppendVote? then Record(s, e.ledger, e.subject, e.vote) else s
  }

  function ApplyVotes(s: Ledgers, effects: seq<Effect>): Ledgers
    decreases |effects|
  {
    if effects == [] then s else ApplyVotes(ApplyEffect(s, effects[0]), effects[1..])
  }

  /** Effects that append no vote leave both ledgers as they were. */
  lemma {:induction false} ApplyVotesWithoutVotes(s: Ledgers, effects: seq<Effect>)
    requires forall i :: 0 <= i < |effects| ==> !effects[i].AppendVote?
    ensures ApplyVotes(s, effects) == s
  {
    if effects != [] {
      ApplyVotesWithoutVotes(s, effects[1..]);
    }
  }

  /** Applying a list and then one more effect is applying the longer list. */
  lemma {:induction false} ApplyVotesSnoc(s: Ledgers, effects: seq<Effect>, e: Effect)
    ensures ApplyVotes(s, effects + [e]) == ApplyEffect(ApplyVotes(s, effects), e)
    decreases |effects|
  {
    if effects == [] {
      assert [e][1..] == [];
    } else {
      assert (effects + [e])[1..] == effects[1..] + [e];
      ApplyVotesSnoc(ApplyEffect(s, effects[0]), effects[1..], e);
    }
  }

  /** The handler: same chain as the source, appending to the ledgers in
      place and calling the lookup loop. */
  method AddStatement(ledgers: MotifLedgers, verb: Verb, sub: Submission, env: Env) returns (out: Outcome)
    modifies ledgers
    ensures out == Route(verb, sub, env)
    ensures ledgers.State() == ApplyVotes(old(ledgers.State()), out.effects)
  {
    if verb != Post {
      return Outcome([], Message(ErrorMessage));
    }
    if sub.id.None? {
      return Outcome([], Crash(KeyError("id")));
    }
    if sub.tipo.None? {
      return Outcome([], Crash(KeyError("tipo")));
    }
    var qid, pid := sub.id.value, sub.tipo.value;
    var editClaim := if sub.editClaim.Some? then sub.editClaim.value else "";
    var effects: seq<Effect> := [];
    if editClaim != "" {
      if sub.claim.None? {
        return Outcome([], Crash(KeyError("claim")));
      }
      var newQid := StripQ(sub.claim.value);
      effects := effects + [FetchToken];
      if pid != UnknownValue && pid != NoValue {
        effects := effects + [ApiPost(SetClaimValueParams(editClaim, newQid, env.token))];
        ApplyVotesWithoutVotes(old(ledgers.State()), effects);
        return Outcome(effects, Message(SuccessMessage));
      }
    }
    if pid == Depicts {
      effects := effects + [FetchToken];
      if sub.claim.None? {
        ApplyVotesWithoutVotes(old(ledgers.State()), effects);
        return Outcome(effects, Crash(KeyError("claim")));
      }
      var claim := StripQ(sub.claim.value);
      effects := effects + [ApiPost(CreateClaimParams(qid, pid, claim, env.token))];
      effects := effects + [ApiGet(LookupParams(qid, pid))];
      var statId := GetClaim(env.claims, claim);
      if statId.Failure? {
        ApplyVotesWithoutVotes(old(ledgers.State()), effects);
        return Outcome(effects, Crash(statId.error));
      }
      effects := effects + [ApiPost(QualifierParams(statId.value, env.token))];
      ApplyVotesWithoutVotes(old(ledgers.State()), effects);
      return Outcome(effects, Message(SuccessMessage));
    } else if pid == UnknownValue {
      var vote := Vote(env.username, env.today);
      ledgers.Append(UnknownMotifs, qid, vote);
      ApplyVotesWithoutVotes(old(ledgers.State()), effects);
      ApplyVotesSnoc(old(ledgers.State()), effects, AppendVote(UnknownMotifs, qid, vote));
      effects := effects + [AppendVote(UnknownMotifs, qid, vote)];
      return Outcome(effects, Message(UnknownMotifMessage));
    } else if pid == NoValue {
      var vote := Vote(env.username, env.today);
      ledgers.Append(NoMotifs, qid, vote);
      ApplyVotesWithoutVotes(old(ledgers.State()), effects);
      ApplyVotesSnoc(old(ledgers.State()), effects, AppendVote(NoMotifs, qid, vote));
      effects := effects + [AppendVote(NoMotifs, qid, vote)];
      return Outcome(effects, Message(NoMotifMessage));
    } else {
      return Outcome([], Message(ErrorMessage));
    }
  }

  predicate IsSentinel(pid: string) {
    pid == UnknownValue || pid == NoValue
  }

  /** The ledger a sentinel `tipo` votes into. */
  function SentinelLedger(pid: string): LedgerKind
    requires IsSentinel(pid)
  {
    if pid == UnknownValue then UnknownMotifs else NoMotifs
  }

  predicate IsAction(e: Effect, action: string) {
    (e.ApiPost? || e.ApiGet?) && "action" in e.params && e.params["action"] == action
  }

  /** A non-empty `edit_claim` wins over every `tipo` except the two
      sentinels, "P180" included: exactly one `wbsetclaimvalue` request on
      the given claim handle, after the token, then the success message. */
  lemma EditTakesPrecedence(sub: Submission, env: Env, handle: string, claim: string)
    requires sub.id.Some? && sub.tipo.Some? && !IsSentinel(sub.tipo.value)
    requires sub.editClaim == Some(handle) && handle != ""
    requires sub.claim == Some(claim)
    ensures Route(Post, sub, env) ==
      Outcome([FetchToken, ApiPost(SetClaimValueParams(handle, StripQ(claim), env.token))], Message(SuccessMessage))
    ensures var p := SetClaimValueParams(handle, StripQ(claim), env.token);
      p["action"] == "wbsetclaimvalue" && p["claim"] == handle && p["snaktype"] == "value"
      && p["value"] == ItemValue(StripQ(claim))
  {
  }

  /** With a sentinel `tipo` the edit branch is skipped, but only after it
      has read `claim` and fetched a token: the handler then behaves as if
      `edit_claim` had been absent, with that one token fetch in front. */
  lemma SentinelSkipsEdit(sub: Submission, env: Env)
    requires sub.id.Some? && sub.tipo.Some? && IsSentinel(sub.tipo.value)
    requires sub.editClaim.Some? && sub.editClaim.value != "" && sub.claim.Some?
    ensures var plain := Route(Post, sub.(editClaim := None), env);
      Route(Post, sub, env) == Outcome([FetchToken] + plain.effects, plain.reply)
  {
  }

  /** "depicts" without an edit: token, `wbcreateclaim` on (id, P180) with
      the stripped item id, the `wbgetclaims` lookup, then the P3831
      qualifier on whatever handle the lookup gave, and success. */
  lemma DepictsSequence(sub: Submission, env: Env, qid: string, claim: string)
    requires sub.id == Some(qid) && sub.tipo == Some(Depicts) && sub.editClaim.GetOr("") == ""
    requires sub.claim == Some(claim) && Lookup(env.claims, StripQ(claim)).Success?
    ensures var handle := Lookup(env.claims, StripQ(claim)).value;
      Route(Post, sub, env) ==
        Outcome([FetchToken,
                 ApiPost(CreateClaimParams(qid, Depicts, StripQ(claim), env.token)),
                 ApiGet(LookupParams(qid, Depicts)),
                 ApiPost(QualifierParams(handle, env.token))],
                Message(SuccessMessage))
    ensures var q := QualifierParams("", env.token);
      q["property"] == "P3831" && q["value"] == ItemValue("1229071")
  {
  }

  /** An item id that `int` accepts never makes the lookup raise, so the
      whole sequence of DepictsSequence runs and the answer is success. */
  lemma DepictsIntegerClaim(sub: Submission, env: Env, qid: string, claim: string, n: int)
    requires sub.id == Some(qid) && sub.tipo == Some(Depicts) && sub.editClaim.GetOr("") == ""
    requires sub.claim == Some(claim) && ParseInt(StripQ(claim)) == Some(n)
    ensures Lookup(env.claims, StripQ(claim)).Success?
    ensures Route(Post, sub, env).reply == Message(SuccessMessage)
    ensures |Route(Post, sub, env).effects| == 4
  {
    LookupIntegerSucceeds(env.claims, StripQ(claim), n);
    DepictsSequence(sub, env, qid, claim);
  }

  /** When the lookup raises (ValueError from `int`), the claim has already
      been created and looked up; no qualifier is sent and the exception
      escapes the handler. */
  lemma DepictsLookupFault(sub: Submission, env: Env, qid: string, claim: string)
    requires sub.id == Some(qid) && sub.tipo == Some(Depicts) && sub.editClaim.GetOr("") == ""
    requires sub.claim == Some(claim) && Lookup(env.claims, StripQ(claim)).Failure?
    ensures Route(Post, sub, env) ==
      Outcome([FetchToken,
               ApiPost(CreateClaimParams(qid, Depicts, StripQ(claim), env.token)),
               ApiGet(LookupParams(qid, Depicts))],
              Crash(Lookup(env.claims, StripQ(claim)).error))
  {
  }

  /** The qualifier goes on the handle of the first P180 claim whose
      numeric id equals the submitted item. */
  lemma DepictsQualifiesFirstMatch(sub: Submission, env: Env, claim: string, n: int,
                                   claims: map<string, seq<ClaimEntry>>, k: nat)
    requires sub.id.Some? && sub.tipo == Some(Depicts) && sub.editClaim.GetOr("") == ""
    requires sub.claim == Some(claim) && ParseInt(StripQ(claim)) == Some(n)
    requires env.claims == ClaimsResponse(Some(claims)) && Depicts in claims
    requires k < |claims[Depicts]| && Matches(claims[Depicts][k], n)
    requires forall j :: 0 <= j < k ==> !Matches(claims[Depicts][j], n)
    ensures Route(Post, sub, env).reply == Message(SuccessMessage)
    ensures var effects := Route(Post, sub, env).effects;
      |effects| == 4 && effects[3] == ApiPost(QualifierParams(claims[Depicts][k].id, env.token))
  {
    ScanFirstMatch(claims[Depicts], StripQ(claim), n, k);
  }

  /** No guard on the lookup result: whenever the lookup gives '', the
      qualifier request is still sent, with an empty claim handle. */
  lemma DepictsQualifiesEmptyHandleOnMiss(sub: Submission, env: Env, claim: string)
    requires sub.id.Some? && sub.tipo == Some(Depicts) && sub.editClaim.GetOr("") == ""
    requires sub.claim == Some(claim) && Lookup(env.claims, StripQ(claim)) == Success("")
    ensures Route(Post, sub, env).reply == Message(SuccessMessage)
    ensures var effects := Route(Post, sub, env).effects;
      |effects| == 4 && effects[3] == ApiPost(QualifierParams("", env.token))
  {
  }

  /** The lookup gives '' (so the qualifier goes on '') when an integer
      target matches no P180 entry, and also when the item id is not an
      integer but no P180 entry has a datavalue, since `int` is then never
      evaluated; a response without a P180 list gives '' in every case. */
  lemma DepictsMisses(response: ClaimsResponse, val: string)
    ensures (response.claims.None? || Depicts !in response.claims.value) ==> Lookup(response, val) == Success("")
    ensures response.claims.Some? && Depicts in response.claims.value && ParseInt(val).Some?
      && (forall j :: 0 <= j < |response.claims.value[Depicts]| ==>
            !Matches(response.claims.value[Depicts][j], ParseInt(val).value))
      ==> Lookup(response, val) == Success("")
    ensures response.claims.Some? && Depicts in response.claims.value && ParseInt(val).None?
      && (forall j :: 0 <= j < |response.claims.value[Depicts]| ==>
            !Comparable(response.claims.value[Depicts][j]))
      ==> Lookup(response, val) == Success("")
  {
    if response.claims.Some? && Depicts in response.claims.value {
      var entries := response.claims.value[Depicts];
      if ParseInt(val).Some? {
        if forall j :: 0 <= j < |entries| ==> !Matches(entries[j], ParseInt(val).value) {
          ScanNoMatch(entries, val, ParseInt(val).value);
        }
      } else {
        ScanNotAnInteger(entries, val);
      }
    }
  }

  /** A claim text that is not an integer, answered without any claims,
      still yields all four requests and success. */
  lemma DepictsNonIntegerExample(env: Env)
    requires env.claims == ClaimsResponse(None)
    ensures var out := Route(Post, Submission(Some("Q1"), Some("P180"), Some("Qabc"), None), env);
      out.reply == Message(SuccessMessage)
      && out.effects == [FetchToken,
                         ApiPost(CreateClaimParams("Q1", "P180", "abc", env.token)),
                         ApiGet(LookupParams("Q1", "P180")),
                         ApiPost(QualifierParams("", env.token))]
  {
    assert StripQ("Qabc") == StripQ("abc") == "abc";
  }

  /** The worked example: Q42 depicts Q100; the claim is created with
      numeric id 100 and the P3831 = Q1229071 qualifier follows. */
  lemma DepictsExample(env: Env)
    ensures var out := Route(Post, Submission(Some("Q42"), Some("P180"), Some("Q100"), None), env);
      out.reply == Message(SuccessMessage) && |out.effects| == 4
      && out.effects[1] == ApiPost(CreateClaimParams("Q42", "P180", "100", env.token))
      && out.effects[3] == ApiPost(QualifierParams(Lookup(env.claims, "100").value, env.token))
  {
    var sub := Submission(Some("Q42"), Some("P180"), Some("Q100"), None);
    StripQExamples();
    ParseIntOfItemId(100);
    assert DecimalText(100) == "100";
    assert ParseInt(StripQ("Q100")) == Some(100);
    DepictsIntegerClaim(sub, env, "Q42", "Q100", 100);
    DepictsSequence(sub, env, "Q42", "Q100");
  }

  /** A sentinel `tipo` without an edit: one vote by this user at this time
      appended under the subject id in its own ledger, its own message, no
      token and no API request. */
  lemma VoteBranch(sub: Submission, env: Env, qid: string)
    requires sub.id == Some(qid) && sub.tipo.Some? && IsSentinel(sub.tipo.value)
    requires sub.editClaim.GetOr("") == ""
    ensures var out := Route(Post, sub, env);
      out.effects == [AppendVote(SentinelLedger(sub.tipo.value), qid, Vote(env.username, env.today))]
      && out.reply == Message(if sub.tipo.value == UnknownValue then UnknownMotifMessage else NoMotifMessage)
  {
  }

  /** What a submission does to the ledgers, in every case: a vote is
      recorded exactly when a POST with a sentinel `tipo` gets past the
      key lookups, in that sentinel's ledger only; nothing else changes. */
  lemma {:induction false} LedgerChange(verb: Verb, sub: Submission, env: Env, s: Ledgers)
    ensures ApplyVotes(s, Route(verb, sub, env).effects) ==
      if verb == Post && sub.id.Some? && sub.tipo.Some? && IsSentinel(sub.tipo.value)
         && (sub.editClaim.GetOr("") == "" || sub.claim.Some?)
      then Record(s, SentinelLedger(sub.tipo.value), sub.id.value, Vote(env.username, env.today))
      else s
  {
    var out := Route(verb, sub, env);
    if verb == Post && sub.id.Some? && sub.tipo.Some? && IsSentinel(sub.tipo.value)
       && (sub.editClaim.GetOr("") == "" || sub.claim.Some?) {
      var vote := AppendVote(SentinelLedger(sub.tipo.value), sub.id.value, Vote(env.username, env.today));
      if sub.editClaim.GetOr("") == "" {
        assert out.effects == [] + [vote];
        ApplyVotesSnoc(s, [], vote);
      } else {
        assert out.effects == [FetchToken] + [vote];
        ApplyVotesWithoutVotes(s, [FetchToken]);
        ApplyVotesSnoc(s, [FetchToken], vote);
      }
    } else {
      ApplyVotesWithoutVotes(s, out.effects);
    }
  }

  /** Any request other than POST, and a POST without an edit whose `tipo`
      is none of "P180", "unknownvalue", "novalue", gets the generic error
      text and causes nothing. */
  lemma FallbackError(verb: Verb, sub: Submission, env: Env)
    requires verb == Post ==> sub.id.Some? && sub.tipo.Some? && sub.editClaim.GetOr("") == ""
                              && sub.tipo.value != Depicts && !IsSentinel(sub.tipo.value)
    ensures Route(verb, sub, env) == Outcome([], Message(ErrorMessage))
  {
  }

  /** Ordering, for every request: a write request always follows a token
      fetch; a qualifier request always comes right after a claim creation
      and a lookup; at most one vote is appended; every message is one of
      the four texts of the handler. */
  lemma EffectOrder(verb: Verb, sub: Submission, env: Env)
    ensures var effects := Route(verb, sub, env).effects;
      forall i :: 0 <= i < |effects| && effects[i].ApiPost? ==> effects[0] == FetchToken
    ensures var effects := Route(verb, sub, env).effects;
      forall i :: 0 <= i < |effects| && IsAction(effects[i], "wbsetqualifier") ==>
        i == 3 && IsAction(effects[1], "wbcreateclaim") && IsAction(effects[2], "wbgetclaims")
    ensures var effects := Route(verb, sub, env).effects;
      forall i, j :: 0 <= i < j < |effects| ==> !(effects[i].AppendVote? && effects[j].AppendVote?)
    ensures var reply := Route(verb, sub, env).reply;
      reply.Message? ==> reply.text in {SuccessMessage, UnknownMotifMessage, NoMotifMessage, ErrorMessage}
  {
  }

  /** The four texts are pairwise distinct, so the caller can tell the
      outcomes apart. */
  lemma MessagesDistinct()
    ensures SuccessMessage != UnknownMotifMessage && SuccessMessage != NoMotifMessage
    ensures SuccessMessage != ErrorMessage && UnknownMotifMessage != NoMotifMessage
    ensures UnknownMotifMessage != ErrorMessage && NoMotifMessage != ErrorMessage
  {
  }
}
