/**
 The gateway's idempotency cache: a repeated request under a remembered key is answered from the
 cache and never dispatched again, and the keys remembered are exactly the most recently used.
 */
module GatewayCache {
  import opened Wrappers
  import opened OrderedDict

  const MAX_ENTRIES := 1024

  // A field of the request object: missing, a string, or something else.
  datatype Field = Absent | Text(s: string) | Other

  // `fingerprint` is canonical_json of the request without its request_id.
  datatype Request = Request(schemaVersion: int, operation: Field, requestId: Field, idem: Field, fingerprint: string)

  datatype Response = Response(requestId: string, result: string)

  datatype Entry = Entry(fingerprint: string, response: Response)

  datatype Error =
    | UnsupportedSchema | MissingOperation | InvalidRequestId | InvalidIdempotencyKey | IdempotencyKeyReused
    | DispatchRaised

  type Answer = Result<Response, Error>

  datatype State = State(cache: Dict<Entry>, dispatches: nat)

  function Envelope(r: Request): Option<Error> {
    if r.schemaVersion != 1 then Some(UnsupportedSchema)
    else if !r.operation.Text? || r.operation.s == "" then Some(MissingOperation)
    else if r.requestId == Other then Some(InvalidRequestId)
    else if r.idem == Other || r.idem == Text("") then Some(InvalidIdempotencyKey)
    else None
  }

  function RequestId(r: Request): string {
    if r.requestId.Text? then r.requestId.s else ""
  }

  // `outcome` is what the dispatch comes to; None when it raises.
  function Handled(s: State, r: Request, outcome: Option<string>): (State, Answer) {
    if Envelope(r).Some? then (s, Err(Envelope(r).value))
    else if r.idem.Text? && Has(s.cache, r.idem.s) then
      var entry := Get(s.cache, r.idem.s);
      if entry.fingerprint != r.fingerprint then (s, Err(IdempotencyKeyReused))
      else (s.(cache := Put(s.cache, r.idem.s, entry)), Ok(entry.response))
    else if outcome.None? then (s.(dispatches := s.dispatches + 1), Err(DispatchRaised))
    else
      var response := Response(RequestId(r), outcome.value);
      (State(if r.idem.Text? then Trim(Put(s.cache, r.idem.s, Entry(r.fingerprint, response)), MAX_ENTRIES) else s.cache,
             s.dispatches + 1),
       Ok(response))
  }

  class GatewayService {
    var cache: Dict<Entry>
    var dispatches: nat

    ghost function Contents(): State
      reads this
    {
      State(cache, dispatches)
    }

    constructor ()
      ensures Contents() == State([], 0)
    {
      cache, dispatches := [], 0;
    }

    method Handle(r: Request, outcome: Option<string>) returns (answer: Answer)
      modifies this
      ensures (Contents(), answer) == Handled(old(Contents()), r, outcome)
    {
      if Envelope(r).Some? {
        return Err(Envelope(r).value);
      }
      if r.idem.Text? && Has(cache, r.idem.s) {
        var entry := Get(cache, r.idem.s);
        if entry.fingerprint != r.fingerprint {
          return Err(IdempotencyKeyReused);
        }
        cache := Put(cache, r.idem.s, entry);
        return Ok(entry.response);
      }
      dispatches := dispatches + 1;
      if outcome.None? {
        return Err(DispatchRaised);
      }
      var response := Response(RequestId(r), outcome.value);
      if r.idem.Text? {
        cache := TrimTo(Put(cache, r.idem.s, Entry(r.fingerprint, response)), MAX_ENTRIES);
      }
      answer := Ok(response);
    }
  }

  /******* Every sequence of requests *******/

  datatype Call = Call(request: Request, outcome: Option<string>)

  function After(calls: seq<Call>): State {
    if calls == [] then State([], 0)
    else
      var last := calls[|calls| - 1];
      Handled(After(calls[..|calls| - 1]), last.request, last.outcome).0
  }

  function AnswerTo(calls: seq<Call>, i: nat): Answer
    requires i < |calls|
  {
    Handled(After(calls[..i]), calls[i].request, calls[i].outcome).1
  }

  // The call answered a request under the key.
  predicate Uses(calls: seq<Call>, i: nat, k: string)
    requires i < |calls|
  {
    AnswerTo(calls, i).Ok? && calls[i].request.idem == Text(k)
  }

  // The keys in order of their last use, all of them.
  function Recent(calls: seq<Call>): Dict<bool> {
    if calls == [] then []
    else
      var init, last := calls[..|calls| - 1], calls[|calls| - 1];
      if AnswerTo(calls, |calls| - 1).Ok? && last.request.idem.Text?
      then Put(Recent(init), last.request.idem.s, true) else Recent(init)
  }

  // What was answered at the last use of a key.
  function LastAnswer(calls: seq<Call>, k: string): Option<Entry> {
    if calls == [] then None
    else if Uses(calls, |calls| - 1, k)
    then Some(Entry(calls[|calls| - 1].request.fingerprint, AnswerTo(calls, |calls| - 1).value))
    else LastAnswer(calls[..|calls| - 1], k)
  }

  function KeysOf(d: Dict<Entry>): (r: Dict<bool>)
    ensures |r| == |d|
  {
    seq(|d|, i requires 0 <= i < |d| => (d[i].0, true))
  }

  lemma {:induction false} KeysOfRemove(d: Dict<Entry>, k: string)
    ensures KeysOf(Remove(d, k)) == Remove(KeysOf(d), k)
    decreases |d|
  {
    if d == [] {
      assert KeysOf(d) == [];
    } else {
      KeysOfRemove(d[1..], k);
      assert KeysOf(d)[1..] == KeysOf(d[1..]);
      var head: Dict<Entry> := if d[0].0 == k then [] else [d[0]];
      assert KeysOf(head + Remove(d[1..], k)) == KeysOf(head) + KeysOf(Remove(d[1..], k));
    }
  }

  lemma KeysOfPut(d: Dict<Entry>, k: string, e: Entry)
    ensures KeysOf(Put(d, k, e)) == Put(KeysOf(d), k, true)
  {
    KeysOfRemove(d, k);
  }

  lemma KeysDistinct(d: Dict<Entry>)
    ensures Distinct(KeysOf(d)) <==> Distinct(d)
  {
    if Distinct(KeysOf(d)) {
      forall i, j | 0 <= i < j < |d| ensures d[i].0 != d[j].0 { assert KeysOf(d)[i].0 != KeysOf(d)[j].0; }
    }
  }

  lemma KeysOfTrim(d: Dict<Entry>, n: nat)
    ensures KeysOf(Trim(d, n)) == Trim(KeysOf(d), n)
  {
  }

  lemma {:induction false} RecentDistinct(calls: seq<Call>)
    ensures Distinct(Recent(calls))
    decreases |calls|
  {
    if calls != [] {
      var init, last := calls[..|calls| - 1], calls[|calls| - 1];
      RecentDistinct(init);
      if last.request.idem.Text? { PutDistinct(Recent(init), last.request.idem.s, true); }
    }
  }

  // A put of a present key keeps the size, so it needs no trimming.
  lemma PutPresent<V>(d: Dict<V>, k: string, v: V, n: nat)
    requires Distinct(d) && Has(d, k) && |d| <= n
    ensures Trim(Put(d, k, v), n) == Put(d, k, v)
  {
    RemoveOne(d, k);
  }

  // The keys in the cache are exactly the 1024 most recently used ones.
  lemma {:induction false} CacheIsMostRecent(calls: seq<Call>)
    ensures KeysOf(After(calls).cache) == Trim(Recent(calls), 1024)
    decreases |calls|
  {
    hide Trim, Put, Has, Get, KeysOf, Distinct, Envelope;
    if calls == [] {
      NoKeys();
    } else {
      var init, last := calls[..|calls| - 1], calls[|calls| - 1];
      CacheIsMostRecent(init);
      var d, r := After(init).cache, last.request;
      RecentDistinct(init);
      TrimDistinct(Recent(init), MAX_ENTRIES);
      KeysDistinct(d);
      if AnswerTo(calls, |calls| - 1).Ok? && r.idem.Text? {
        var entry := if Has(d, r.idem.s) then Get(d, r.idem.s) else Entry(r.fingerprint, AnswerTo(calls, |calls| - 1).value);
        if Has(d, r.idem.s) { PutPresent(d, r.idem.s, entry, MAX_ENTRIES); }
        KeysOfPut(d, r.idem.s, entry);
        KeysOfTrim(Put(d, r.idem.s, entry), MAX_ENTRIES);
        TrimmedPut(Recent(init), r.idem.s, true, MAX_ENTRIES);
      }
    }
  }

  lemma NoKeys()
    ensures KeysOf([]) == [] && Trim<bool>([], MAX_ENTRIES) == []
  {
  }

  lemma CacheDistinct(calls: seq<Call>)
    ensures Distinct(After(calls).cache)
  {
    CacheIsMostRecent(calls);
    RecentDistinct(calls);
    TrimDistinct(Recent(calls), MAX_ENTRIES);
    KeysDistinct(After(calls).cache);
  }

  // What is remembered is the answer given at the last use.
  lemma {:induction false} RemembersLastAnswer(calls: seq<Call>, k: string)
    requires Has(After(calls).cache, k)
    ensures LastAnswer(calls, k) == Some(Get(After(calls).cache, k))
    decreases |calls|
  {
    hide Trim, Put, Has, Get, KeysOf, Distinct, Envelope;
    if calls == [] {
      NothingThere(k);
    } else {
      var init, last := calls[..|calls| - 1], calls[|calls| - 1];
      var d, r := After(init).cache, last.request;
      CacheDistinct(init);
      if AnswerTo(calls, |calls| - 1).Ok? && r.idem.Text? {
        var entry := if Has(d, r.idem.s) then Get(d, r.idem.s) else Entry(r.fingerprint, AnswerTo(calls, |calls| - 1).value);
        PutDistinct(d, r.idem.s, entry);
        if !Has(d, r.idem.s) { TrimGet(Put(d, r.idem.s, entry), MAX_ENTRIES, k); }
        PutGet(d, r.idem.s, entry, k);
        if k != r.idem.s { RemembersLastAnswer(init, k); }
      } else {
        RemembersLastAnswer(init, k);
      }
    }
  }

  lemma NothingThere(k: string)
    ensures !Has<Entry>([], k)
  {
  }

  // A request that names an operation, with identifiers that are strings where they are given.
  predicate WellFormed(r: Request) {
    && r.schemaVersion == 1
    && r.operation != Absent && r.operation != Other && r.operation != Text("")
    && r.requestId != Other
    && r.idem != Other && r.idem != Text("")
  }

  // A malformed request is refused for the first thing that is wrong with it, and changes nothing.
  lemma MalformedIsRefused(calls: seq<Call>, r: Request, outcome: Option<string>)
    requires !WellFormed(r)
    ensures Handled(After(calls), r, outcome) == (After(calls), Err(
      if r.schemaVersion != 1 then UnsupportedSchema
      else if r.operation == Absent || r.operation == Other || r.operation == Text("") then MissingOperation
      else if r.requestId == Other then InvalidRequestId
      else InvalidIdempotencyKey))
  {
    hide Put, Trim;
  }

  // A well-formed repeat under one of the 1024 most recently used keys is answered as before
  // without a dispatch when it is the same request, and refused without one otherwise; under any
  // other key, or under none, it is dispatched, and answered with what comes of that.
  lemma RepeatIsServedOnce(calls: seq<Call>, r: Request, outcome: Option<string>)
    requires WellFormed(r)
    ensures var (s, answer) := Handled(After(calls), r, outcome);
      if r.idem.Text? && Has(Trim(Recent(calls), 1024), r.idem.s) then
        && s.dispatches == After(calls).dispatches && LastAnswer(calls, r.idem.s).Some?
        && var last := LastAnswer(calls, r.idem.s).value;
           answer == if last.fingerprint == r.fingerprint then Ok(last.response) else Err(IdempotencyKeyReused)
      else
        && s.dispatches == After(calls).dispatches + 1
        && (outcome == None ==> answer == Err(DispatchRaised))
        && (outcome.Some? && r.requestId.Text? ==> answer == Ok(Response(r.requestId.s, outcome.value)))
        && (outcome.Some? && !r.requestId.Text? ==> answer == Ok(Response("", outcome.value)))
  {
    hide Trim, Put;
    CacheIsMostRecent(calls);
    if r.idem.Text? {
      SameKeys(After(calls).cache, r.idem.s);
      if Has(After(calls).cache, r.idem.s) {
        RemembersLastAnswer(calls, r.idem.s);
      }
    }
  }

  // The call was well formed and its key, if it had one, was not remembered.
  predicate Dispatched(calls: seq<Call>, i: nat)
    requires i < |calls|
  {
    var r := calls[i].request;
    WellFormed(r) && !(r.idem.Text? && Has(Trim(Recent(calls[..i]), 1024), r.idem.s))
  }

  // Exactly those calls were dispatched.
  lemma {:induction false} DispatchesCounted(calls: seq<Call>)
    ensures After(calls).dispatches == |set i: nat | i < |calls| && Dispatched(calls, i)|
    decreases |calls|
  {
    hide Handled, WellFormed, Dispatched;
    if calls == [] {
      assert (set i: nat | i < |calls| && Dispatched(calls, i)) == {};
    } else {
      var n := |calls| - 1;
      var init, last := calls[..n], calls[n];
      DispatchesCounted(init);
      var before := set i: nat | i < n && Dispatched(init, i);
      forall i: nat | i < n ensures Dispatched(init, i) <==> Dispatched(calls, i) {
        SamePrefix(calls, n, i);
      }
      assert (set i: nat | i < |calls| && Dispatched(calls, i)) == before + if Dispatched(calls, n) then {n} else {};
      LastDispatch(calls);
    }
  }

  lemma SamePrefix(calls: seq<Call>, n: nat, i: nat)
    requires i < n <= |calls|
    ensures Dispatched(calls[..n], i) <==> Dispatched(calls, i)
  {
    assert calls[..n][..i] == calls[..i];
  }

  lemma LastDispatch(calls: seq<Call>)
    requires calls != []
    ensures After(calls).dispatches
         == After(calls[..|calls| - 1]).dispatches + if Dispatched(calls, |calls| - 1) then 1 else 0
  {
    hide WellFormed, Handled, Trim;
    var init, last := calls[..|calls| - 1], calls[|calls| - 1];
    if WellFormed(last.request) {
      RepeatIsServedOnce(init, last.request, last.outcome);
    } else {
      MalformedIsRefused(init, last.request, last.outcome);
    }
  }

  lemma SameKeys(d: Dict<Entry>, k: string)
    ensures Has(KeysOf(d), k) <==> Has(d, k)
  {
    if Has(KeysOf(d), k) {
      var i :| 0 <= i < |d| && KeysOf(d)[i].0 == k;
      assert d[i].0 == k;
    }
    if Has(d, k) {
      var i :| 0 <= i < |d| && d[i].0 == k;
      assert KeysOf(d)[i].0 == k;
    }
  }
}
