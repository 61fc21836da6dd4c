/**
 Which rows a purge takes out of the authorization log, and that none that belongs to the
 episode is left: said of the rows' own payloads.
 */
module AuthorizationTraces {
  import opened Wrappers
  import opened Authorization
  import opened AuthorizationProtocol
  import opened AuthorizationCompaction
  import opened AuthorizationPurge

  // The episode of the binding that a row carries, if it carries one.
  function OwnEpisode(e: AuthEvent): Option<string> {
    match e
    case ReceiptIssued(_, binding, _, _) => Some(binding.episodeId)
    case ReceiptDenied(_, binding, _) => Some(binding.episodeId)
    case DecisionIssued(_, binding, _, _) => Some(binding.episodeId)
    case DecisionRejected(_, _, binding) => if binding.Some? then Some(binding.value.episodeId) else None
    case _ => None
  }

  // The receipt or the permit that a row is about.
  function Subject(e: AuthEvent): (Option<ReceiptDigest>, Option<TokenDigest>) {
    match e
    case ReceiptIssued(r, _, _, _) => (Some(r), None)
    case ReceiptDenied(r, _, _) => (Some(r), None)
    case ReceiptConsumed(r) => (Some(r), None)
    case ReceiptExpired(r) => (Some(r), None)
    case ReceiptRevoked(r, _) => (Some(r), None)
    case DecisionIssued(d, _, _, _) => (None, Some(d))
    case DecisionRejected(d, _, _) => (None, Some(d))
    case DecisionConsumed(d, _) => (None, Some(d))
    case DecisionExpired(d, _) => (None, Some(d))
    case DecisionRevoked(d, _) => (None, Some(d))
  }

  // The row carries a binding of the episode, or carries none and is about something for which
  // an earlier row does.
  ghost predicate TraceOf(events: seq<AuthEvent>, i: nat, x: string)
    requires i < |events|
  {
    || OwnEpisode(events[i]) == Some(x)
    || (OwnEpisode(events[i]) == None
        && exists j | 0 <= j < i :: Subject(events[j]) == Subject(events[i]) && OwnEpisode(events[j]) == Some(x))
  }

  lemma SpeaksOf(e: AuthEvent)
    ensures EpisodeOf(e) == if OwnEpisode(e).Some? then OwnEpisode(e).value else ""
    ensures CarriesBinding(e) <==> OwnEpisode(e).Some?
    ensures IsApproval(e) ==> Subject(e) == (Some(e.receipt), None)
    ensures !IsApproval(e) ==> Subject(e) == (None, Some(e.token))
  {
  }

  // Looking back finds the episode of one of the rows that are about the same thing.
  lemma {:induction false} LatestIsCarried(events: seq<AuthEvent>, e: AuthEvent) returns (ep: string)
    ensures ep == if IsApproval(e) then LatestForReceipt(events, e.receipt) else LatestForToken(events, e.token)
    ensures ep != "" ==> exists j | 0 <= j < |events| :: Subject(events[j]) == Subject(e) && OwnEpisode(events[j]) == Some(ep)
    ensures ep == "" ==> forall j | 0 <= j < |events| :: Subject(events[j]) == Subject(e) ==> OwnEpisode(events[j]) in {None, Some("")}
    decreases |events|
  {
    hide OwnEpisode, Subject, EpisodeOf;
    ep := if IsApproval(e) then LatestForReceipt(events, e.receipt) else LatestForToken(events, e.token);
    SpeaksOf(e);
    if events != [] {
      var init, last := events[..|events| - 1], events[|events| - 1];
      SpeaksOf(last);
      var before := LatestIsCarried(init, e);
      if ep == "" {
        assert forall j | 0 <= j < |init| :: init[j] == events[j];
      } else if Subject(last) == Subject(e) && OwnEpisode(last) == Some(ep) {
        assert events[|events| - 1] == last;
      } else {
        var j :| 0 <= j < |init| && Subject(init[j]) == Subject(e) && OwnEpisode(init[j]) == Some(ep);
        assert events[j] == init[j];
      }
    }
  }

  // Rows that are about one thing and carry bindings carry the same episode.
  lemma OneEpisodeEach(events: seq<AuthEvent>, i: nat, j: nat)
    requires WellFormed(events) && j < i < |events| && Subject(events[i]) == Subject(events[j])
    ensures OwnEpisode(events[i]).Some? && OwnEpisode(events[j]).Some? ==> OwnEpisode(events[i]) == OwnEpisode(events[j])
  {
    SpeaksOf(events[i]);
    SpeaksOf(events[j]);
    assert DigestNamesBinding(events[i]) && DigestNamesBinding(events[j]);
    assert SameTokenSameEpisode(events[j], events[i]);
  }

  lemma OwnerIsTrace(events: seq<AuthEvent>, i: nat, x: string)
    requires WellFormed(events) && i < |events| && x != ""
    ensures Owner(events[..i], events[i]) == x <==> TraceOf(events, i, x)
  {
    hide WellFormed, OwnEpisode, Subject, EpisodeOf;
    var e, earlier := events[i], events[..i];
    SpeaksOf(e);
    var ep := LatestIsCarried(earlier, e);
    assert forall j | 0 <= j < i :: earlier[j] == events[j];
    forall j: nat | j < i && Subject(events[j]) == Subject(e)
      ensures OwnEpisode(e).Some? && OwnEpisode(events[j]).Some? ==> OwnEpisode(e) == OwnEpisode(events[j])
    {
      OneEpisodeEach(events, i, j);
    }
    if ep != "" {
      var k :| 0 <= k < i && Subject(earlier[k]) == Subject(e) && OwnEpisode(earlier[k]) == Some(ep);
      forall j: nat | j < i && Subject(events[j]) == Subject(e)
        ensures OwnEpisode(events[j]).Some? ==> OwnEpisode(events[j]) == Some(ep)
      {
        if j < k { OneEpisodeEach(events, k, j); }
        if k < j { OneEpisodeEach(events, j, k); }
      }
    }
  }

  // The entry does not belong to `x`.
  ghost predicate Stays(entries: seq<Entry>, i: nat, x: string)
    requires i < |entries|
  {
    Owner(EventsOf(entries)[..i], entries[i].2) != x
  }

  lemma StaysToo(init: seq<Entry>, last: Entry, i: nat, x: string)
    requires i < |init|
    ensures Stays(init + [last], i, x) <==> Stays(init, i, x)
  {
    assert EventsOf(init + [last])[..i] == EventsOf(init)[..i];
  }

  // The entries at these positions, in order, are those that do not belong to `x`.
  ghost predicate Retains(entries: seq<Entry>, x: string, kept: seq<Entry>, at: seq<nat>) {
    && |at| == |kept|
    && (forall k | 0 <= k < |at| :: at[k] < |entries| && kept[k] == entries[at[k]])
    && (forall k, l | 0 <= k < l < |at| :: at[k] < at[l])
    && (forall i | 0 <= i < |entries| :: i in at <==> Stays(entries, i, x))
  }

  lemma RetainsMore(init: seq<Entry>, last: Entry, x: string, kept: seq<Entry>, at: seq<nat>)
    requires Retains(init, x, kept, at)
    ensures Stays(init + [last], |init|, x) ==> Retains(init + [last], x, kept + [last], at + [|init|])
    ensures !Stays(init + [last], |init|, x) ==> Retains(init + [last], x, kept, at)
  {
    hide Stays;
    var n := |init|;
    forall i: nat | i < n ensures Stays(init + [last], i, x) <==> i in at {
      StaysToo(init, last, i, x);
    }
    assert n !in at;
    forall i: nat | i <= n ensures i in at + [n] <==> i in at || i == n {
    }
  }

  lemma {:induction false} KeptAt(entries: seq<Entry>, x: string) returns (at: seq<nat>)
    ensures Retains(entries, x, Kept(entries, x), at)
    decreases |entries|
  {
    hide Owner, Retains, Kept;
    if entries == [] {
      at := [];
      NothingRetained(x);
      NothingKept(x);
    } else {
      var n := |entries| - 1;
      var init, last := entries[..n], entries[n];
      at := KeptAt(init, x);
      RetainsMore(init, last, x, Kept(init, x), at);
      assert init + [last] == entries && EventsOf(entries)[..n] == EventsOf(init);
      KeptSnoc(init, last, x);
      assert Kept(init, x) + [] == Kept(init, x);
      at := if Stays(entries, n, x) then at + [n] else at;
    }
  }

  lemma NothingRetained(x: string)
    ensures Retains([], x, [], [])
  {
  }

  lemma NothingKept(x: string)
    ensures Kept([], x) == []
  {
  }

  // A purge, at any point of any run, takes out exactly the rows that belong to the episode and
  // keeps the others, in order, with their identifiers and times.
  lemma PurgeLeavesNoTrace(ws: seq<World>, moves: seq<Move>, i: nat) returns (at: seq<nat>)
    requires PurgingRun(ws, moves) && i < |moves| && moves[i].PurgeMove? && moves[i].episodeId != ""
    ensures var rows, after := ws[i].store.log, ws[i + 1].store.log;
      && |at| == |after|
      && (forall k | 0 <= k < |at| :: at[k] < |rows|
            && after[k].event == rows[at[k]].event && after[k].id == rows[at[k]].id && after[k].at == rows[at[k]].at)
      && (forall k, l | 0 <= k < l < |at| :: at[k] < at[l])
      && (forall j | 0 <= j < |rows| :: j in at <==> !TraceOf(Events(rows), j, moves[i].episodeId))
  {
    hide Durable, Restrict, Rebuilt, Possible, Kept, Owner, TraceOf, WellFormed;
    var x, rows := moves[i].episodeId, ws[i].store.log;
    PurgingRunIsDurable(ws, moves, i);
    DurableIsWellFormed(ws[i].store);
    PossibleRows(ws[i], moves[i]);
    at := KeptAt(Unchained(rows), x);
    assert EventsOf(Unchained(rows)) == Events(rows);
    forall j | 0 <= j < |rows| ensures j in at <==> !TraceOf(Events(rows), j, x) {
      OwnerIsTrace(Events(rows), j, x);
    }
    PurgedLog(ws, moves, i);
    forall k | 0 <= k < |at| ensures Unchained(ws[i + 1].store.log)[k] == Unchained(rows)[at[k]] {
    }
  }

  lemma DurableIsWellFormed(s: Store)
    requires Durable(s)
    ensures WellFormed(Events(s.log))
  {
  }

  lemma PurgedLog(ws: seq<World>, moves: seq<Move>, i: nat)
    requires PurgingRun(ws, moves) && i < |moves| && moves[i].PurgeMove?
    ensures Unchained(ws[i + 1].store.log) == Kept(Unchained(ws[i].store.log), moves[i].episodeId)
    ensures |ws[i + 1].store.log| == |Unchained(ws[i + 1].store.log)|
  {
    hide Kept, Rebuilt;
    PossibleRows(ws[i], moves[i]);
  }
}
