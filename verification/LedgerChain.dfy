/**
 The interleaved per-episode hash chains of the global event log: verified heads, anchors at an
 earlier height, and what a chain root determines.
 */
module LedgerChain {
  import opened Wrappers
  import opened Sql
  import opened Projections

  // HMAC of an event id and hash under the ledger's key; anything else was not made with it.
  datatype Tag = Mac(id: string, hash: Hash) | Forged

  datatype AuthRow = AuthRow(hash: Hash, tag: Tag)

  type AuthTable = map<string, AuthRow>

  function HeadHash(heads: map<string, Head>, ep: string): Hash {
    if ep in heads then heads[ep].hash else Zero
  }

  // The last (seq, hash) of every episode.
  function Heads(log: seq<Event>): map<string, Head> {
    if log == [] then map[]
    else
      var last := log[|log| - 1];
      Heads(log[..|log| - 1])[last.body.episodeId := Head(last.body.seq_, last.hash)]
  }

  // The order in which rows are read: by their integer primary key.
  ghost predicate Ascending(log: seq<Event>) {
    && (forall i | 0 <= i < |log| :: log[i].body.seq_ > 0)
    && (forall i, j | 0 <= i < j < |log| :: log[i].body.seq_ < log[j].body.seq_)
  }

  // Each event extends its own episode's chain and hashes what it says.
  predicate Links(heads: map<string, Head>, e: Event) {
    e.previous == HeadHash(heads, e.body.episodeId) && e.hash == Link(e.previous, e.body)
  }

  ghost predicate Linked(log: seq<Event>) {
    forall i | 0 <= i < |log| :: Links(Heads(log[..i]), log[i])
  }

  predicate IsAuthentic(e: Event, auth: AuthTable) {
    e.body.id in auth && auth[e.body.id] == AuthRow(e.hash, Mac(e.body.id, e.hash))
  }

  ghost predicate Authentic(log: seq<Event>, auth: AuthTable) {
    forall i | 0 <= i < |log| :: IsAuthentic(log[i], auth)
  }

  function LastSeq(log: seq<Event>): nat {
    if log == [] then 0 else log[|log| - 1].body.seq_
  }

  lemma LinkedSnoc(log: seq<Event>, e: Event)
    ensures Linked(log + [e]) <==> Linked(log) && Links(Heads(log), e)
    ensures Heads(log + [e]) == Heads(log)[e.body.episodeId := Head(e.body.seq_, e.hash)]
  {
    var longer := log + [e];
    assert longer[..|log|] == log && longer[|log|] == e;
    assert forall i | 0 <= i < |log| :: longer[..i] == log[..i] && longer[i] == log[i];
  }

  lemma LinkedPrefix(log: seq<Event>, n: nat)
    requires n <= |log|
    ensures Linked(log) ==> Linked(log[..n])
    ensures Ascending(log) ==> Ascending(log[..n])
  {
    assert forall i | 0 <= i < n :: log[..n][..i] == log[..i];
  }

  /******* _verified_heads *******/

  // How many leading events lie at or below a height.
  function Cut(log: seq<Event>, upTo: Option<nat>): (n: nat)
    ensures n <= |log|
  {
    if log == [] || upTo.None? then |log|
    else if log[0].body.seq_ > upTo.value then 0
    else 1 + Cut(log[1..], upTo)
  }

  lemma {:induction false} CutSplits(log: seq<Event>, upTo: Option<nat>)
    ensures forall i | 0 <= i < Cut(log, upTo) :: upTo.None? || log[i].body.seq_ <= upTo.value
    ensures Cut(log, upTo) < |log| ==> upTo.Some? && log[Cut(log, upTo)].body.seq_ > upTo.value
  {
    if log != [] && upTo.Some? && log[0].body.seq_ <= upTo.value {
      CutSplits(log[1..], upTo);
    }
  }

  // Rows are authenticated a fetched batch at a time, so a batch is read whole.
  function Fetched(log: seq<Event>, cut: nat, batch: nat): nat
    requires batch > 0
  {
    if cut >= |log| || (cut / batch + 1) * batch >= |log| then |log| else (cut / batch + 1) * batch
  }

  method VerifiedHeads(log: seq<Event>, auth: AuthTable, upTo: Option<nat>, batch: nat)
    returns (r: Result<map<string, Head>, string>)
    requires batch > 0
    ensures var n := Cut(log, upTo);
      && (r.Ok? <==> Linked(log[..n]) && Authentic(log[..Fetched(log, n, batch)], auth))
      && (r.Ok? ==> r.value == Heads(log[..n]))
  {
    hide Linked, Authentic, Heads, Fetched;
    ghost var cut := Cut(log, upTo);
    EmptyLog(auth);
    var heads: map<string, Head> := map[];
    var offset := 0;
    while offset < |log|
      invariant offset <= cut <= |log|
      invariant offset % batch == 0 || offset == |log|
      invariant Linked(log[..offset]) && heads == Heads(log[..offset])
      invariant Authentic(log[..offset], auth)
    {
      var end := if offset + batch < |log| then offset + batch else |log|;
      FetchedBatch(log, cut, batch, offset, end);
      var authentic := AuthenticateBatch(log, auth, offset, end);
      if !authentic {
        AuthenticPrefix(log, auth, end, Fetched(log, cut, batch));
        return Err("authentication record is missing, stale or mismatched");
      }
      var stop, linked, more := LinkBatch(log, upTo, offset, end, heads);
      if !linked {
        return Err("previous hash or event hash mismatch");
      }
      heads := more;
      if stop < end {
        return Ok(heads);
      }
      offset := end;
    }
    FetchedAll(log, cut, batch);
    assert log[..|log|] == log;
    return Ok(heads);
  }

  // `_authenticated_events` on one batch.
  method AuthenticateBatch(log: seq<Event>, auth: AuthTable, offset: nat, end: nat) returns (ok: bool)
    requires offset <= end <= |log| && Authentic(log[..offset], auth)
    ensures ok <==> Authentic(log[..end], auth)
  {
    for i := offset to end
      invariant Authentic(log[..i], auth)
    {
      if !IsAuthentic(log[i], auth) {
        assert log[..end][i] == log[i];
        return false;
      }
      assert log[..i + 1] == log[..i] + [log[i]];
    }
    return true;
  }

  // Chains one batch up to the height; `stop` is where reading ended.
  method LinkBatch(log: seq<Event>, upTo: Option<nat>, offset: nat, end: nat, start: map<string, Head>)
    returns (stop: nat, linked: bool, heads: map<string, Head>)
    requires offset < end <= |log| && offset <= Cut(log, upTo)
    requires Linked(log[..offset]) && start == Heads(log[..offset])
    ensures !linked ==> !Linked(log[..Cut(log, upTo)])
    ensures linked ==> stop == (if Cut(log, upTo) < end then Cut(log, upTo) else end)
                       && Linked(log[..stop]) && heads == Heads(log[..stop])
  {
    hide Linked, Heads, Cut;
    CutSplits(log, upTo);
    heads := start;
    for i := offset to end
      invariant i <= Cut(log, upTo)
      invariant Linked(log[..i]) && heads == Heads(log[..i])
    {
      if upTo.Some? && log[i].body.seq_ > upTo.value {
        return i, true, heads;
      }
      assert i != Cut(log, upTo);
      LinkedStep(log, i, Cut(log, upTo));
      var ep := log[i].body.episodeId;
      var previous := if ep in heads then heads[ep].hash else Zero;
      if log[i].previous != previous || Link(previous, log[i].body) != log[i].hash {
        return i, false, heads;
      }
      heads := heads[ep := Head(log[i].body.seq_, log[i].hash)];
    }
    return end, true, heads;
  }

  lemma EmptyLog(auth: AuthTable)
    ensures Linked([]) && Heads([]) == map[] && Authentic([], auth)
  {
  }

  lemma AuthenticPrefix(log: seq<Event>, auth: AuthTable, i: nat, n: nat)
    requires i <= n <= |log|
    ensures Authentic(log[..n], auth) ==> Authentic(log[..i], auth)
  {
    assert forall j | 0 <= j < i :: log[..i][j] == log[..n][j];
  }

  lemma LinkedStep(log: seq<Event>, i: nat, cut: nat)
    requires i < cut <= |log| && Linked(log[..i])
    ensures Linked(log[..i + 1]) <==> Links(Heads(log[..i]), log[i])
    ensures Heads(log[..i + 1]) == Heads(log[..i])[log[i].body.episodeId := Head(log[i].body.seq_, log[i].hash)]
    ensures Linked(log[..cut]) ==> Linked(log[..i + 1])
  {
    hide Linked, Heads, Links;
    assert log[..i + 1] == log[..i] + [log[i]];
    LinkedSnoc(log[..i], log[i]);
    LinkedPrefix(log[..cut], i + 1);
    assert log[..cut][..i + 1] == log[..i + 1];
  }

  lemma FetchedAll(log: seq<Event>, cut: nat, batch: nat)
    requires batch > 0 && cut >= |log|
    ensures Fetched(log, cut, batch) == |log|
  {
  }

  // The batch that begins at `offset` is fetched, and nothing after the one holding the cut.
  lemma FetchedBatch(log: seq<Event>, cut: nat, batch: nat, offset: nat, end: nat)
    requires batch > 0 && offset < |log| && offset <= cut <= |log| && offset % batch == 0
    requires end == if offset + batch < |log| then offset + batch else |log|
    ensures end <= Fetched(log, cut, batch) <= |log|
    ensures cut < end ==> end == Fetched(log, cut, batch)
    ensures end % batch == 0 || end == |log|
  {
    var q := offset / batch;
    assert offset == q * batch;
    assert cut / batch >= q by { DivMonotone(offset, cut, batch); }
    assert (cut / batch + 1) * batch >= (q + 1) * batch by { MulMonotone(q + 1, cut / batch + 1, batch); }
    assert (q + 1) * batch == offset + batch;
    if cut < offset + batch {
      DivInside(cut, q, batch);
    }
    DivExact(q + 1, batch);
  }

  lemma DivMonotone(a: nat, b: nat, d: nat)
    requires d > 0 && a <= b
    ensures a / d <= b / d
  {
    if a / d > b / d {
      MulMonotone(b / d + 1, a / d, d);
    }
  }

  lemma MulMonotone(a: nat, b: nat, c: nat)
    requires a <= b
    ensures a * c <= b * c
  {
  }

  lemma DivInside(n: nat, q: nat, d: nat)
    requires d > 0 && q * d <= n < q * d + d
    ensures n / d == q
  {
    if n / d < q {
      MulMonotone(n / d + 1, q, d);
    } else if n / d > q {
      MulMonotone(q + 1, n / d, d);
    }
  }

  lemma DivExact(q: nat, d: nat)
    requires d > 0
    ensures (q * d) % d == 0
  {
    DivInside(q * d, q, d);
  }

  /******* Tamper evidence *******/

  // A head is the head of its own hash: nothing but the hash is needed to know it.
  predicate HashHeads(heads: map<string, Head>, bound: nat) {
    forall ep <- heads ::
      && heads[ep].hash.Link?
      && heads[ep].seq_ == heads[ep].hash.body.seq_
      && heads[ep].hash.body.episodeId == ep
      && heads[ep].seq_ <= bound
  }

  lemma {:induction false} HeadsAreHashes(log: seq<Event>)
    requires Linked(log) && Ascending(log)
    ensures HashHeads(Heads(log), LastSeq(log))
  {
    if log != [] {
      hide Linked, Heads;
      SplitLast(log);
      HeadsAreHashes(log[..|log| - 1]);
    } else {
      assert Heads(log) == map[];
    }
  }

  // A log and its last event.
  lemma SplitLast(log: seq<Event>)
    requires Linked(log) && Ascending(log) && log != []
    ensures var init, last := log[..|log| - 1], log[|log| - 1];
      && log == init + [last]
      && Linked(init) && Ascending(init) && Links(Heads(init), last)
      && Heads(log) == Heads(init)[last.body.episodeId := Head(last.body.seq_, last.hash)]
      && LastSeq(init) < last.body.seq_
  {
    var n := |log| - 1;
    assert log == log[..n] + [log[n]];
    LinkedSnoc(log[..n], log[n]);
    LinkedPrefix(log, n);
    assert n > 0 ==> log[n - 1].body.seq_ < log[n].body.seq_;
  }

  lemma {:induction false} HeadsEmptyIff(log: seq<Event>)
    ensures Heads(log) == map[] <==> log == []
  {
    if log != [] {
      assert log[|log| - 1].body.episodeId in Heads(log);
    }
  }

  // The head of the last event is the one with the greatest sequence number.
  lemma LastHeadIsGreatest(log: seq<Event>, ep: string)
    requires Linked(log) && Ascending(log) && ep in Heads(log)
    ensures Heads(log)[ep].seq_ == LastSeq(log) <==> ep == log[|log| - 1].body.episodeId
  {
    HeadsEmptyIff(log);
    SplitLast(log);
    HeadsAreHashes(log[..|log| - 1]);
  }

  // Two verified logs with the same heads, and so the same chain root, are the same log.
  lemma {:induction false} EqualRootsSameLog(a: seq<Event>, b: seq<Event>)
    requires Linked(a) && Ascending(a) && Linked(b) && Ascending(b)
    requires Heads(a) == Heads(b)
    ensures a == b
    decreases |a|
  {
    HeadsEmptyIff(a);
    HeadsEmptyIff(b);
    if a != [] {
      var m, n := |a| - 1, |b| - 1;
      SplitLast(a);
      SplitLast(b);
      HeadsAreHashes(a);
      HeadsAreHashes(b);
      LastHeadIsGreatest(a, a[m].body.episodeId);
      LastHeadIsGreatest(a, b[n].body.episodeId);
      LastHeadIsGreatest(b, a[m].body.episodeId);
      LastHeadIsGreatest(b, b[n].body.episodeId);
      assert a[m] == b[n];
      EarlierHeads(a[..m], b[..n], a[m]);
      EqualRootsSameLog(a[..m], b[..n]);
    }
  }

  // Undoing the last event gives back the head it names as its predecessor.
  lemma EarlierHeads(a: seq<Event>, b: seq<Event>, e: Event)
    requires Linked(a) && Ascending(a) && Linked(b) && Ascending(b)
    requires Links(Heads(a), e) && Links(Heads(b), e)
    requires Heads(a)[e.body.episodeId := Head(e.body.seq_, e.hash)]
          == Heads(b)[e.body.episodeId := Head(e.body.seq_, e.hash)]
    ensures Heads(a) == Heads(b)
  {
    HeadsAreHashes(a);
    HeadsAreHashes(b);
    var ep, g, h := e.body.episodeId, Heads(a), Heads(b);
    var head := Head(e.body.seq_, e.hash);
    assert ep in g <==> ep in h;
    forall k ensures k in g <==> k in h {
      assert k != ep ==> (k in g <==> k in g[ep := head]) && (k in h <==> k in h[ep := head]);
    }
    forall k | k in g ensures g[k] == h[k] {
      assert k != ep ==> g[k] == g[ep := head][k] && h[k] == h[ep := head][k];
    }
  }

  /******* Anchors *******/

  datatype ChainState = ChainState(height: nat, heads: map<string, Head>)

  // The state `chain_state(up_to_height=h)` reports; the root is a content hash of the heads.
  function StateAt(log: seq<Event>, upTo: Option<nat>): ChainState {
    var cut := log[..Cut(log, upTo)];
    ChainState(LastSeq(cut), Heads(cut))
  }

  // chain_height is computed as the maximum over the heads; that is the last sequence number.
  lemma HeightIsMaximum(log: seq<Event>)
    requires Linked(log) && Ascending(log)
    ensures forall ep <- Heads(log) :: Heads(log)[ep].seq_ <= LastSeq(log)
    ensures log != [] ==> exists ep <- Heads(log) :: Heads(log)[ep].seq_ == LastSeq(log)
  {
    HeadsAreHashes(log);
    if log != [] {
      LastHeadIsGreatest(log, log[|log| - 1].body.episodeId);
    }
  }

  // An anchor recorded when the log ended at some height still checks on every extension.
  lemma AnchorIsStable(log: seq<Event>, extension: seq<Event>)
    requires Ascending(log + extension)
    ensures StateAt(log + extension, Some(LastSeq(log))) == StateAt(log, None)
  {
    var all, h := log + extension, Some(LastSeq(log));
    assert log != [] ==> all[|log| - 1] == log[|log| - 1];
    assert forall i | 0 <= i < |log| :: all[i] == log[i];
    CutAt(all, h, |log|);
    assert all[..|log|] == log == log[..Cut(log, None)];
  }

  lemma {:induction false} CutAt(log: seq<Event>, upTo: Option<nat>, n: nat)
    requires upTo.Some? && n <= |log|
    requires forall i | 0 <= i < n :: log[i].body.seq_ <= upTo.value
    requires n < |log| ==> log[n].body.seq_ > upTo.value
    ensures Cut(log, upTo) == n
  {
    if n > 0 {
      CutAt(log[1..], upTo, n - 1);
    }
  }

  /******* Dropping an episode *******/

  // The other episodes' chains survive unchanged.
  lemma {:induction false} OthersStayLinked(log: seq<Event>, x: string)
    requires Linked(log) && Ascending(log)
    ensures Linked(Others(log, x)) && Ascending(Others(log, x))
    ensures Heads(Others(log, x)) == Heads(log) - {x}
    ensures LastSeq(Others(log, x)) <= LastSeq(log)
  {
    if log != [] {
      hide Linked, Ascending, Heads, LastSeq, Others, Links;
      var init, last := log[..|log| - 1], log[|log| - 1];
      SplitLast(log);
      OthersStayLinked(init, x);
      LastSeqIs(log);
      if last.body.episodeId != x {
        KeptStaysLinked(init, last, Others(init, x), x);
      } else {
        DropUpdate(Heads(init), x, Head(last.body.seq_, last.hash));
      }
      OthersStep(log, x);
    } else {
      assert Heads(log) == map[];
    }
  }

  lemma OthersStep(log: seq<Event>, x: string)
    requires log != []
    ensures var init, last := log[..|log| - 1], log[|log| - 1];
            Others(log, x) == if last.body.episodeId != x then Others(init, x) + [last] else Others(init, x)
  {
  }

  lemma DropUpdate(heads: map<string, Head>, x: string, h: Head)
    ensures heads[x := h] - {x} == heads - {x}
  {
  }

  lemma LastSeqIs(log: seq<Event>)
    requires log != []
    ensures LastSeq(log) == log[|log| - 1].body.seq_
  {
  }

  lemma KeptStaysLinked(init: seq<Event>, last: Event, others: seq<Event>, x: string)
    requires Linked(others) && Ascending(others) && Heads(others) == Heads(init) - {x}
    requires LastSeq(others) <= LastSeq(init) < last.body.seq_
    requires Links(Heads(init), last) && last.body.episodeId != x
    ensures Linked(others + [last]) && Ascending(others + [last])
    ensures Heads(others + [last]) == Heads(init)[last.body.episodeId := Head(last.body.seq_, last.hash)] - {x}
    ensures LastSeq(others + [last]) == last.body.seq_
  {
    hide Linked, Heads;
    DropKeepsHead(Heads(init), last.body.episodeId, x);
    LinkedSnoc(others, last);
    AscendingSnoc(others, last);
  }

  lemma DropKeepsHead(heads: map<string, Head>, ep: string, x: string)
    requires ep != x
    ensures HeadHash(heads - {x}, ep) == HeadHash(heads, ep)
  {
  }

  lemma AscendingSnoc(log: seq<Event>, e: Event)
    requires Ascending(log) && e.body.seq_ > LastSeq(log)
    ensures Ascending(log + [e])
  {
    assert forall i | 0 <= i < |log| - 1 :: log[i].body.seq_ < log[|log| - 1].body.seq_;
  }

  // The event_heads projection agrees with the verified heads.
  lemma {:induction false} FoldHeads(log: seq<Event>)
    requires Fold(log).Some?
    ensures Fold(log).value.heads == Heads(log)
  {
    hide Statements;
    if log != [] {
      FoldHeads(log[..|log| - 1]);
    }
  }
}
