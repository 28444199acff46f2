/** The claim-handle lookup `get_claim`: after creating a "depicts" (P180)
    claim, the handler re-reads the subject's claims and returns the handle
    of the first P180 claim whose value is the requested item. */
module Claims {
  import opened Wrappers
  import opened Text

  /** The part of a claim's main snak that the lookup reads: the
      `numeric-id` of its `datavalue`, when the snak has one. */
  datatype Snak = Snak(datavalue: Option<int>)

  /** One entry of the claims list: its handle and, possibly, a main snak. */
  datatype ClaimEntry = ClaimEntry(id: string, mainsnak: Option<Snak>)

  /** The JSON answer to `wbgetclaims`: possibly a `claims` object mapping
      property ids to claim lists. */
  datatype ClaimsResponse = ClaimsResponse(claims: Option<map<string, seq<ClaimEntry>>>)

  const Depicts := "P180"

  /** The request the lookup sends; `pid` only travels in the request. */
  function LookupParams(qid: string, pid: string): map<string, string> {
    map["action" := "wbgetclaims", "format" := "json", "entity" := qid, "property" := pid]
  }

  /** An entry is compared only when it has a main snak with a datavalue. */
  predicate Comparable(e: ClaimEntry) {
    e.mainsnak.Some? && e.mainsnak.value.datavalue.Some?
  }

  predicate Matches(e: ClaimEntry, n: int) {
    Comparable(e) && e.mainsnak.value.datavalue.value == n
  }

  /** The scan over the P180 list with its early return. `int(val)` is
      evaluated only when a comparable entry is reached, so a value that is
      not an integer fails only if there is such an entry. */
  function Scan(entries: seq<ClaimEntry>, val: string): Result<string, Fault>
  {
    if entries == [] then Success("")
    else if !Comparable(entries[0]) then Scan(entries[1..], val)
    else match ParseInt(val)
      case None => Failure(ValueError(val))
      case Some(n) =>
        if entries[0].mainsnak.value.datavalue.value == n then Success(entries[0].id)
        else Scan(entries[1..], val)
  }

  /** What `get_claim` returns for a given response: always the scan of the
      P180 list, or '' when the response has no `claims` or no P180 key. */
  function Lookup(response: ClaimsResponse, val: string): Result<string, Fault>
  {
    if response.claims.Some? && Depicts in response.claims.value then
      Scan(response.claims.value[Depicts], val)
    else Success("")
  }

  /** The loop of `get_claim`, with its early return on the first match. */
  method GetClaim(response: ClaimsResponse, val: string) returns (r: Result<string, Fault>)
    ensures r == Lookup(response, val)
  {
    if response.claims.Some? && Depicts in response.claims.value {
      var entries := response.claims.value[Depicts];
      var i := 0;
      while i < |entries|
        invariant 0 <= i <= |entries|
        invariant Scan(entries[i..], val) == Scan(entries, val)
      {
        var e := entries[i];
        assert entries[i..][1..] == entries[i + 1..];
        if Comparable(e) {
          var target := ParseInt(val);
          if target.None? {
            return Failure(ValueError(val));
          }
          if e.mainsnak.value.datavalue.value == target.value {
            return Success(e.id);
          }
        }
        i := i + 1;
      }
    }
    return Success("");
  }

  /** With an integer target, the scan returns the handle of the FIRST
      matching entry; entries without a main snak or datavalue are skipped. */
  lemma {:induction false} ScanFirstMatch(entries: seq<ClaimEntry>, val: string, n: int, k: nat)
    requires ParseInt(val) == Some(n)
    requires k < |entries| && Matches(entries[k], n)
    requires forall j :: 0 <= j < k ==> !Matches(entries[j], n)
    ensures Scan(entries, val) == Success(entries[k].id)
  {
    if k > 0 {
      assert !Matches(entries[0], n);
      ScanFirstMatch(entries[1..], val, n, k - 1);
    }
  }

  /** With an integer target and no matching entry, the scan returns ''. */
  lemma {:induction false} ScanNoMatch(entries: seq<ClaimEntry>, val: string, n: int)
    requires ParseInt(val) == Some(n)
    requires forall j :: 0 <= j < |entries| ==> !Matches(entries[j], n)
    ensures Scan(entries, val) == Success("")
  {
    if entries != [] {
      assert !Matches(entries[0], n);
      ScanNoMatch(entries[1..], val, n);
    }
  }

  /** With a target that is not an integer, the scan raises ValueError
      exactly when some entry is comparable, and returns '' otherwise. */
  lemma {:induction false} ScanNotAnInteger(entries: seq<ClaimEntry>, val: string)
    requires ParseInt(val) == None
    ensures (exists j :: 0 <= j < |entries| && Comparable(entries[j])) ==>
              Scan(entries, val) == Failure(ValueError(val))
    ensures (forall j :: 0 <= j < |entries| ==> !Comparable(entries[j])) ==>
              Scan(entries, val) == Success("")
  {
    if entries != [] && !Comparable(entries[0]) {
      ScanNotAnInteger(entries[1..], val);
      if exists j :: 0 <= j < |entries| && Comparable(entries[j]) {
        var j :| 0 <= j < |entries| && Comparable(entries[j]);
        assert Comparable(entries[1..][j - 1]);
      }
    }
  }

  /** With an integer target the scan never raises: it returns a handle or ''. */
  lemma {:induction false} ScanIntegerSucceeds(entries: seq<ClaimEntry>, val: string, n: int)
    requires ParseInt(val) == Some(n)
    ensures Scan(entries, val).Success?
  {
    if entries != [] {
      ScanIntegerSucceeds(entries[1..], val, n);
    }
  }

  /** With an integer target the lookup never raises, whatever the response. */
  lemma LookupIntegerSucceeds(response: ClaimsResponse, val: string, n: int)
    requires ParseInt(val) == Some(n)
    ensures Lookup(response, val).Success?
  {
    if response.claims.Some? && Depicts in response.claims.value {
      ScanIntegerSucceeds(response.claims.value[Depicts], val, n);
    }
  }

  /** The lookup only ever reads the P180 list: claims under any other
      property cannot change its answer. */
  lemma LookupReadsOnlyDepicts(a: map<string, seq<ClaimEntry>>, b: map<string, seq<ClaimEntry>>, val: string)
    requires (Depicts in a) == (Depicts in b)
    requires Depicts in a ==> a[Depicts] == b[Depicts]
    ensures Lookup(ClaimsResponse(Some(a)), val) == Lookup(ClaimsResponse(Some(b)), val)
  {
  }

  /** A response without `claims`, or without a P180 list, gives ''. */
  lemma LookupWithoutDepicts(response: ClaimsResponse, val: string)
    requires response.claims.None? || Depicts !in response.claims.value
    ensures Lookup(response, val) == Success("")
  {
  }
}
