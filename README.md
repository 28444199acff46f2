# wikimotivos curation core, modelled in Dafny

wikimotivos is a Flask front-end for curating the motifs ("depicts", P180)
of artworks on Wikidata. This project models the decision logic of its
`app.py`:

- **Statement submission** (`add_statement`, route `/add_stat`): from the
  request method and the JSON body `{id, tipo, claim?, edit_claim?}` the
  handler picks one branch, first match wins: edit an existing claim
  (`wbsetclaimvalue`), create a P180 claim then look up its handle and attach
  the provenance qualifier P3831 = Q1229071, append a vote to the
  "unknown motif" ledger, append a vote to the "no motif" ledger, or answer
  the generic error text. `Statement.Route` gives, as a function, the ordered
  effects of a request (token fetches, API requests with their parameter
  maps, ledger appends) and its reply. A Python exception escaping the
  handler (a missing key, `int` failing) is a `Crash` reply that keeps the
  effects already issued. `Statement.AddStatement` is the handler itself,
  step by step. It updates a `Ledger.MotifLedgers` object in place and is
  proved equal to `Route`.
- **Vote ledgers** (`unknownmotifs.json`, `nomotifs.json`): maps from a
  subject item id to its votes `{user, data}`, appended at the end.
- **Claim-handle lookup** (`get_claim`): a loop over the P180 claims of the
  `wbgetclaims` answer with an early return on the first match
  (`Claims.GetClaim`), specified by `Claims.Lookup`.
- **Search reshaping** (`search_entity`) and **language normalisation**
  (`pt_to_ptbr`).

Modules: `Wrappers` (Option, Result, the Python faults), `Text` (the
`replace("Q", "")` and `int` conversions), `Language`, `Claims`, `Ledger`,
`Statement`, `Search`.

Where a natural reading of the workflow and the code differ, the model
follows the code:

- The qualifier request is sent even when the lookup returns `''`. No guard
  skips it.
- The lookup always scans the P180 list, whatever `pid` it is given. `pid`
  only travels in the request parameters.
- A non-empty `edit_claim` with `tipo` "unknownvalue" or "novalue" skips the
  edit, but only after `data['claim']` has been read and a token fetched.
  A missing `claim` therefore raises KeyError even on the way to a vote.
  The vote itself makes no API request.
- `int(val)` is evaluated only when a P180 entry with a datavalue is
  reached, so a non-numeric claim fails only in that case. The create
  request has already been sent by then.

## Model

| member | source | states |
|---|---|---|
| Language.PtToPtBr | app.py:103-107 | "pt" becomes "pt-br"; every other code, "pt-br" included, is returned unchanged |
| Language.PtToPtBrIdempotent | app.py:103-107 | normalising twice equals normalising once, and the result is never "pt" |
| Language.PtToPtBrPreimages | app.py:103-107 | exactly "pt" and "pt-br" map to "pt-br"; exactly "en" maps to "en" |
| Text.StripQ | app.py:262 | the result has no 'Q', is no longer than the input, and equals the input when it had no 'Q' |
| Text.StripQConcat | app.py:262 | stripping distributes over concatenation (every 'Q' is removed, not only a leading one; other characters keep their order) |
| Text.StripQDropsQ | app.py:290 | a lone "Q" strips to the empty string |
| Text.StripQIdempotent | app.py:290 | stripping twice equals stripping once |
| Text.StripQExamples | app.py:290 | "Q100" gives "100" and "Q1Q2" gives "12" |
| Text.ParseInt | app.py:346 | `int` succeeds only on non-empty text; all-digit text gives its decimal value; a sign followed by digits gives the signed value; a sign followed by nothing or by a non-digit fails, and so does text that is neither signed nor all digits |
| Text.DigitsValueOfDecimalText | app.py:346 | reading back the decimal text of n gives n |
| Text.ParseIntOfItemId | app.py:346 | `int` of the decimal text of n, and of "Q"+text after stripping, is n |
| Text.ParseIntSigned | app.py:346 | `int` of "-" or "+" before the decimal text of n is -n or n; "+" and "-" alone fail |
| Claims.LookupParams | app.py:335-340 | no contract: the `wbgetclaims` request (action, format json, entity, property = pid) that the Depicts lemmas place in the effect list |
| Claims.Scan | app.py:343-348 | no contract: the specification of the P180 scan that the Scan* lemmas characterise and GetClaim is proved equal to |
| Claims.Lookup | app.py:343-348 | no contract: `get_claim`'s answer for a response, the definition GetClaim, LookupIntegerSucceeds, LookupReadsOnlyDepicts and LookupWithoutDepicts are about |
| Claims.GetClaim | app.py:334-348 | the early-return loop returns exactly the scan result `Lookup` specifies |
| Claims.ScanFirstMatch | app.py:343-347 | with an integer target, the handle returned is that of the first P180 entry whose datavalue numeric id equals it; entries without mainsnak or datavalue are skipped |
| Claims.ScanNoMatch | app.py:343-348 | with an integer target and no matching entry, '' is returned |
| Claims.ScanNotAnInteger | app.py:345-346 | a non-integer target raises ValueError exactly when some entry has a datavalue, and gives '' otherwise |
| Claims.ScanIntegerSucceeds | app.py:344-348 | with an integer target the scan never raises |
| Claims.LookupIntegerSucceeds | app.py:343-348 | with an integer target the lookup never raises, whatever the response |
| Claims.LookupReadsOnlyDepicts | app.py:343-344 | claims under properties other than P180 never change the answer |
| Claims.LookupWithoutDepicts | app.py:343-348 | no `claims` key or no P180 key gives '' |
| Ledger.Appended | app.py:311-314 | the vote is appended at the end of the subject's list, or starts a one-vote list; the key set grows by the subject only; every other key keeps its list |
| Ledger.AppendedKeepsHistory | app.py:311-314 | earlier votes of every subject stay a prefix; the subject's list grows by one and ends with the new vote |
| Ledger.Record | app.py:308-326 | a vote changes only the ledger its kind names |
| Ledger.MotifLedgers.Append | app.py:309-326 | the in-place append leaves the two ledgers equal to `Record` of the old ones |
| Ledger.MotifLedgers.constructor | app.py:310 | the object holds the two loaded ledgers |
| Statement.ItemValue | app.py:271 | the payload is the item-value prefix, the numeric id, then '}', so the id can be read back |
| Statement.ItemValueInjective | app.py:291 | two payloads are equal exactly when their numeric ids are |
| Statement.SetClaimValueParams | app.py:266-272 | no contract: the `wbsetclaimvalue` request (claim, snaktype value, token, item payload; no format key), as EditTakesPrecedence states it |
| Statement.CreateClaimParams | app.py:281-291 | no contract: the `wbcreateclaim` request (format json, entity, property, snaktype value, token, item payload), as DepictsSequence places it |
| Statement.QualifierParams | app.py:296-304 | no contract: the `wbsetqualifier` request with property P3831 and numeric id 1229071; DepictsSequence states those two values |
| Statement.Dispatch | app.py:277-329 | no contract: the first-match chain on `tipo` after the edit branch; the definition the Depicts*, VoteBranch, LedgerChange and FallbackError lemmas are about, through Route |
| Statement.Route | app.py:250-331 | no contract: the whole handler as a function (method check, key lookups with their KeyError order, edit branch, Dispatch); AddStatement is proved equal to it and every Statement lemma is about it |
| Statement.AddStatement | app.py:250-331 | the handler produces exactly `Route`'s outcome, and the ledgers afterwards are the old ones with that outcome's vote appends applied |
| Statement.EditTakesPrecedence | app.py:260-276 | a non-empty `edit_claim` with a non-sentinel `tipo` (even P180) gives a token fetch and exactly one `wbsetclaimvalue` request with claim = edit_claim and snaktype "value", then the success message |
| Statement.SentinelSkipsEdit | app.py:260-277 | with a sentinel `tipo` the edit is skipped: the outcome is that of the same body without `edit_claim`, preceded by one token fetch |
| Statement.DepictsSequence | app.py:277-307 | P180 without an edit, whenever the lookup does not raise: token, `wbcreateclaim` (entity = id, property = P180, stripped item id), `wbgetclaims`, `wbsetqualifier` with P3831 = 1229071 on the looked-up handle (whatever it is, '' included), in that order, then success |
| Statement.DepictsIntegerClaim | app.py:277-307 | an item id that `int` accepts never makes the lookup raise, so the four requests are sent and the answer is success |
| Statement.DepictsLookupFault | app.py:293-295 | when the lookup raises, the claim has been created and looked up, no qualifier is sent and the exception escapes |
| Statement.DepictsQualifiesFirstMatch | app.py:295-305 | the qualifier goes on the handle of the first matching P180 claim |
| Statement.DepictsQualifiesEmptyHandleOnMiss | app.py:295-305 | whenever the lookup gives '', the qualifier request is still sent, with claim '', and the answer is success |
| Statement.DepictsMisses | app.py:343-348 | the lookup gives '' without a P180 list, for an integer target that matches nothing, and for a non-integer target when no entry has a datavalue |
| Statement.DepictsNonIntegerExample | app.py:277-307 | "Qabc" answered without any claims still yields all four requests, the qualifier on '', and success |
| Statement.DepictsExample | app.py:277-307 | Q42 / P180 / Q100 creates the claim with numeric id 100, then sends the P3831 = Q1229071 qualifier on the looked-up handle, and answers success |
| Statement.VoteBranch | app.py:308-327 | a sentinel `tipo` without an edit appends one `{user, data}` vote under `id` to its own ledger, fetches no token, sends no request and returns its own message |
| Statement.LedgerChange | app.py:308-327 | for every request the ledgers change exactly when a POST with a sentinel `tipo` passes the key lookups, by one vote in that sentinel's ledger; otherwise they are unchanged |
| Statement.FallbackError | app.py:328-331 | a non-POST request, or a POST without an edit whose `tipo` is none of the handled ones, answers the generic error with no effect |
| Statement.EffectOrder | app.py:250-331 | for every request: a write request is preceded by a token fetch; a qualifier request is the fourth effect, after creation and lookup; at most one vote is appended; every message is one of the four texts |
| Statement.MessagesDistinct | app.py:276-329 | the four reply texts are pairwise distinct |
| Search.SearchEntity | app.py:353-371 | one result per filtered candidate, in order, with qid = id; for "en" the English label and description; otherwise pt-br, falling back to pt when pt-br is empty |
| Search.OrElse | app.py:365-366 | no contract: the pt-br-or-pt fallback that SearchEntity and OrElseFallback state |
| Search.OrElseFallback | app.py:365-366 | the pt fallback is used exactly when the pt-br text is empty |

## Left out

- OAuth login and callback (`login`, `oauth_callback`) and the `oauth_wikidata` module (`get_username`, `get_token`): oauth_wikidata is not part of this model. The user name and the token are inputs; `get_token` is recorded as a `FetchToken` effect and never fails.
- Flask routing, templates, the error handlers and the page views (`inicio`, `sobre`, `tutorial`, `apps`, `colecao`, `item`): rendering glue.
- Locale and session handling (`get_locale`, `set_locale`): the locale is an input.
- Reading and writing `unknownmotifs.json` and `nomotifs.json`: the ledgers are in-memory maps. The lost update between concurrent workers is a concurrency issue and is not modelled.
- Network calls: `api_post_request` and the `wbgetclaims` GET are recorded as effects with their parameters; their answers and failures are not modelled, except the `wbgetclaims` answer, which is an input.
- `post_search_entity` and `filter_by_category` (the `wikidata` module is not part of this model): the filtered candidates are an input.
- The timestamp formatting with `datetime`: the timestamp text is an input.
- `gettext` translation and `jsonify` encoding: replies are the Portuguese source texts.
- The JSON body: values are taken to be strings, and a body that is not a JSON object is not modelled.
- Text.ParseInt: does not accept the surrounding whitespace, underscores between digits or non-ASCII digits that Python's `int` also accepts; such text is treated as not an integer.
- Claims.Lookup: a datavalue without `value` or `numeric-id`, and an entry without `id`, would raise KeyError in the source; the model's entries always carry them.
- Search.SearchEntity: the in-place update of each candidate dictionary is not visible after the loop and is modelled on values; absent (None) labels are taken as ""; a GET on `/search` returns nothing in the source and is not modelled.
