/**
 The permit protocol over runs that also purge episodes: between two purges the protocol runs
 as before, and a purge replaces the authorization log by its compaction and the tables by what
 that rebuilds to.
 */
module AuthorizationPurge {
  import opened Wrappers
  import opened Authorization
  import opened AuthorizationProtocol
  import opened AuthorizationCompaction

  datatype Move =
    | Live(step: Step)
    // The compacted rows, and the ledger tables of the new database.
    | PurgeMove(episodeId: string, rows: seq<Row>, ledger: LedgerView)

  // Every client is stopped for a purge. The token generator repeats no token the log names.
  ghost predicate Possible(w: World, m: Move) {
    match m
    case Live(step) => Enabled(w, step) && (step.Issue? ==> NeverNamed(Events(w.store.log), Sha256(step.raw)))
    case PurgeMove(x, rows, _) => Chained(rows) && Unchained(rows) == Kept(Unchained(w.store.log), x)
  }

  // What `rebuild_enforcement_projection` leaves; a log that does not fold leaves the tables alone.
  function Rebuilt(t: Tables, rows: seq<Row>): Tables {
    ApplyAll(EmptyTables, Events(rows)).GetOr(t)
  }

  function Moved(w: World, m: Move): World
    requires m.Live? ==> Enabled(w, m.step)
  {
    match m
    case Live(step) => Next(w, step)
    case PurgeMove(_, rows, ledger) => World(ledger, Store(Rebuilt(w.store.tables, rows), rows), multiset{})
  }

  ghost predicate PurgingRun(ws: seq<World>, moves: seq<Move>) {
    && |ws| == |moves| + 1
    && ws[0].store == EmptyStore && ws[0].owed == multiset{}
    && forall i :: 0 <= i < |moves| ==> Possible(ws[i], moves[i]) && ws[i + 1] == Moved(ws[i], moves[i])
  }

  /******* What a log must be to survive a purge *******/

  // A receipt backs permits of its own episode only.
  ghost predicate CitesOwn(t: Tables) {
    forall d <- t.decisions, r <- t.receipts :: Cites(t, d, r) ==>
      t.receipts[r].binding.episodeId == t.decisions[d].binding.episodeId
  }

  // A permit is consumed after it was issued.
  ghost predicate ConsumedKnown(events: seq<AuthEvent>) {
    forall i | 0 <= i < |events| :: events[i].DecisionConsumed? ==> HasIssued(events[..i], events[i].token)
  }

  ghost predicate Durable(s: Store) {
    Inv(s) && WellFormed(Events(s.log)) && CitesOwn(s.tables) && ConsumedKnown(Events(s.log))
  }

  /******* Live steps *******/

  lemma {:induction false} NoIssueNoPermit(t: Tables, events: seq<AuthEvent>)
    requires ApplyAll(t, events).Some? && forall e <- events :: !e.DecisionIssued?
    ensures NoNewPermit(t, ApplyAll(t, events).value)
  {
    hide Apply, Advances;
    if events == [] {
      AdvancesRefl(t);
    } else {
      var n := |events| - 1;
      assert forall e <- events[..n] :: e in events;
      assert events[n] in events;
      NoIssueNoPermit(t, events[..n]);
      OnlyIssuesAddPermits(ApplyAll(t, events[..n]).value, events[n]);
      AdvancesCompose(t, ApplyAll(t, events[..n]).value, ApplyAll(t, events).value);
    }
  }

  lemma NoNewPermitCitesOwn(t: Tables, u: Tables)
    requires TablesOk(t) && ReceiptsOk(t) && CitesOwn(t) && NoNewPermit(t, u)
    ensures CitesOwn(u)
  {
    forall d, r | d in u.decisions && r in u.receipts && Cites(u, d, r)
      ensures u.receipts[r].binding.episodeId == u.decisions[d].binding.episodeId
    {
      assert u.decisions[d].binding == t.decisions[d].binding;
      assert Cites(t, d, r) && u.receipts[r].binding == t.receipts[r].binding;
    }
  }

  lemma IssueCitesOwn(t: Tables, b: ActionBinding, raw: string, ttl: nat, now: nat)
    requires TablesOk(t) && ReceiptsOk(t) && CitesOwn(t) && ApprovalCheck(t, b, now, false).reason.None?
    requires ApplyAll(t, IssueActionEvents(t, b, raw, ttl, now)).Some?
    ensures CitesOwn(ApplyAll(t, IssueActionEvents(t, b, raw, ttl, now)).value)
  {
    hide Apply, ApplyAll, IssueActionEvents, AfterUse, TablesOk;
    var issued := DecisionIssued(Sha256(raw), b, now, now + ttl * MICROSECONDS);
    IssueApplies(t, b, raw, ttl, now);
    IssuedKeepsOthers(t, issued);
    var mid := Apply(t, issued).value;
    AfterUseSpends(t, issued.token, mid.decisions[issued.token], mid);
    var u := AfterUse(t, b, mid);
    forall d, r | d in u.decisions && r in u.receipts && Cites(u, d, r)
      ensures u.receipts[r].binding.episodeId == u.decisions[d].binding.episodeId
    {
      assert d != issued.token ==> Cites(t, d, r);
    }
  }

  lemma StepCitesOwn(w: World, step: Step)
    requires Inv(w.store) && CitesOwn(w.store.tables) && Enabled(w, step)
    ensures CitesOwn(Next(w, step).store.tables)
  {
    hide ApplyAll, StepEvents, CitesOwn, NoNewPermit, Mirrors, CountsOk;
    var t, events := w.store.tables, StepEvents(w, step);
    if ApplyAll(t, events).Some? {
      if step.Issue? && ApprovalCheck(t, step.action, step.env.now, false).reason.None? {
        IssueIs(w, step);
        IssueCitesOwn(t, step.action, step.raw, step.ttl, step.env.now);
      } else {
        OnlyIssueIssues(w, step);
        NoIssueNoPermit(t, events);
        NoNewPermitCitesOwn(t, ApplyAll(t, events).value);
      }
    }
    NextTables(w, step);
  }

  // A step changes nothing, or commits its events.
  lemma NextTables(w: World, step: Step)
    requires Enabled(w, step)
    ensures var s, u, events := w.store, Next(w, step).store, StepEvents(w, step);
      u == s || (ApplyAll(s.tables, events) == Some(u.tables) && Events(u.log) == Events(s.log) + events)
  {
    hide Enabled, ApplyAll, AppendAll;
    if !step.LedgerCommit? && !step.BeginFinalize? && !step.BeginRetract? && !step.Crash? {
      AppendAllFacts(w.store.log, StepEvents(w, step), step.env);
    }
  }

  lemma IssueIs(w: World, step: Step)
    requires step.Issue?
    ensures StepEvents(w, step) == IssueActionEvents(w.store.tables, step.action, step.raw, step.ttl, step.env.now)
  {
  }

  lemma OnlyIssueIssues(w: World, step: Step)
    requires step.Issue? ==> ApprovalCheck(w.store.tables, step.action, step.env.now, false).reason.Some?
    ensures forall e <- StepEvents(w, step) :: !e.DecisionIssued?
  {
    hide ConsumeVerdict, ApprovalCheck, LiveReceipts;
    if step.Issue? {
      RejectedIssueIsQuiet(w.store.tables, step.action, step.raw, step.ttl, step.env.now);
    } else if step.Consume? {
      ConsumeCarriesNone(w, step);
    }
  }

  lemma StepConsumedKnown(w: World, step: Step)
    requires Durable(w.store) && Enabled(w, step)
    ensures ConsumedKnown(Events(Next(w, step).store.log))
  {
    hide StepEvents, Events, HasIssued, Inv, WellFormed, CitesOwn, Enabled, Next;
    NextTables(w, step);
    var events, more := Events(w.store.log), StepEvents(w, step);
    var all := events + more;
    forall i | 0 <= i < |all| && all[i].DecisionConsumed? ensures HasIssued(all[..i], all[i].token) {
      if i < |events| {
        assert all[..i] == events[..i];
      } else {
        assert more[i - |events|] in more;
        ConsumedWasIssued(w, step, all[i].token);
        assert all[..i] == events + more[..i - |events|];
        StillIssued(events, more[..i - |events|], all[i].token);
      }
    }
  }

  lemma StillIssued(events: seq<AuthEvent>, more: seq<AuthEvent>, d: TokenDigest)
    requires HasIssued(events, d)
    ensures HasIssued(events + more, d)
  {
    var i :| 0 <= i < |events| && events[i].DecisionIssued? && events[i].token == d;
    assert (events + more)[i] == events[i];
  }

  lemma ConsumedWasIssued(w: World, step: Step, d: TokenDigest)
    requires Inv(w.store) && WellFormed(Events(w.store.log)) && Enabled(w, step)
    requires exists e <- StepEvents(w, step) :: e.DecisionConsumed? && e.token == d
    ensures HasIssued(Events(w.store.log), d)
  {
    hide StepEvents, WellFormed, Enabled, ApplyAll, HasIssued, ReceiptsOk, CountsOk, TablesOk, Chained;
    ConsumedIsKnown(w, step, d);
    FoldKnowsOwners(Events(w.store.log));
  }

  lemma ConsumedIsKnown(w: World, step: Step, d: TokenDigest)
    requires Inv(w.store) && Enabled(w, step)
    requires exists e <- StepEvents(w, step) :: e.DecisionConsumed? && e.token == d
    ensures d in w.store.tables.decisions
  {
    hide ConsumeVerdict, ApprovalCheck, LiveReceipts, Inv, ReceiptGood, PremisesHold, SameAction;
    InvTables(w.store);
    if step.Consume? {
      ConsumeIffJustified(w, step);
    } else if step.Issue? {
      IssueConsumesNone(w, step);
    }
  }

  lemma IssueConsumesNone(w: World, step: Step)
    requires step.Issue?
    ensures forall e <- StepEvents(w, step) :: !e.DecisionConsumed?
  {
    hide ApprovalCheck;
    CheckCarriesNone(w.store.tables, step.action, step.env.now, false);
  }

  lemma StepKeepsDurable(w: World, step: Step)
    requires Durable(w.store) && Possible(w, Live(step))
    ensures Durable(Next(w, step).store)
  {
    hide Inv, WellFormed, CitesOwn, ConsumedKnown, StepEvents, Next, Enabled, NeverNamed, Appends;
    StepKeepsInv(w, step);
    StepCitesOwn(w, step);
    StepConsumedKnown(w, step);
    StepAppends(w, step);
    WellFormedGrows(Events(w.store.log), StepEvents(w, step));
    NextTables(w, step);
  }

  /******* Purges *******/

  // The kept rows are rows, in their order, and keep their owners' ISSUED rows.
  lemma {:induction false} KeptIsWellFormed(entries: seq<Entry>, x: string)
    requires WellFormed(EventsOf(entries))
    ensures WellFormed(EventsOf(Kept(entries, x)))
    ensures forall e <- EventsOf(Kept(entries, x)) :: e in EventsOf(entries)
  {
    hide Owner;
    if entries != [] {
      var n := |entries| - 1;
      var init, last := entries[..n], entries[n];
      var events, kept := EventsOf(entries), EventsOf(Kept(init, x));
      assert events[..n] == EventsOf(init) && events[n] == last.2;
      WellFormedPrefix(events, n);
      KeptIsWellFormed(init, x);
      KeptStep(entries, x);
      if Owner(EventsOf(init), last.2) != x {
        forall i | 0 <= i < |kept| ensures SameTokenSameEpisode(kept[i], last.2) {
          assert kept[i] in EventsOf(init);
          var j :| 0 <= j < n && events[j] == kept[i];
          assert SameTokenSameEpisode(events[j], events[n]);
        }
        assert DigestNamesBinding(events[n]);
        Lengthened(kept, last.2);
      }
    }
  }

  lemma Lengthened(events: seq<AuthEvent>, e: AuthEvent)
    requires WellFormed(events) && DigestNamesBinding(e)
    requires forall i | 0 <= i < |events| :: SameTokenSameEpisode(events[i], e)
    ensures WellFormed(events + [e])
  {
    hide SameTokenSameEpisode, DigestNamesBinding;
  }

  lemma KeptStep(entries: seq<Entry>, x: string)
    requires entries != []
    ensures var n := |entries| - 1;
      EventsOf(Kept(entries, x)) == if Owner(EventsOf(entries[..n]), entries[n].2) != x
                                    then EventsOf(Kept(entries[..n], x)) + [entries[n].2]
                                    else EventsOf(Kept(entries[..n], x))
    ensures EventsOf(entries) == EventsOf(entries[..|entries| - 1]) + [entries[|entries| - 1].2]
  {
    hide Owner, Kept, EventsOf;
    var n := |entries| - 1;
    assert entries == entries[..n] + [entries[n]];
    KeptSnoc(entries[..n], entries[n], x);
    EventsSnoc(entries[..n], entries[n]);
    EventsSnoc(Kept(entries[..n], x), entries[n]);
    assert Kept(entries[..n], x) + [] == Kept(entries[..n], x);
  }

  lemma EventsSnoc(entries: seq<Entry>, last: Entry)
    ensures EventsOf(entries + [last]) == EventsOf(entries) + [last.2]
  {
  }

  lemma {:induction false} IssuedKept(entries: seq<Entry>, x: string, d: TokenDigest, ep: string)
    requires TokenEpisode(EventsOf(entries), d, ep) && HasIssued(EventsOf(entries), d) && ep != x
    ensures HasIssued(EventsOf(Kept(entries, x)), d)
  {
    hide Owner;
    var n := |entries| - 1;
    var init, last := entries[..n], entries[n].2;
    var events := EventsOf(entries);
    KeptStep(entries, x);
    assert events[..n] == EventsOf(init) && events[n] == last;
    EarlierEpisode(events, n, d, ep);
    if last.DecisionIssued? && last.token == d {
      IssuedOwner(EventsOf(init), last, ep);
      assert EventsOf(Kept(entries, x)) == EventsOf(Kept(init, x)) + [last];
      assert EventsOf(Kept(entries, x))[|Kept(init, x)|] == last;
    } else {
      var i :| 0 <= i < |events| && events[i].DecisionIssued? && events[i].token == d;
      assert EventsOf(init)[i] == events[i];
      IssuedKept(init, x, d, ep);
      StillIssued(EventsOf(Kept(init, x)), [last], d);
    }
  }

  lemma EarlierEpisode(events: seq<AuthEvent>, n: nat, d: TokenDigest, ep: string)
    requires TokenEpisode(events, d, ep) && n <= |events|
    ensures TokenEpisode(events[..n], d, ep)
  {
    assert forall i | 0 <= i < n :: events[..n][i] == events[i];
  }

  lemma IssuedOwner(events: seq<AuthEvent>, e: AuthEvent, ep: string)
    requires e.DecisionIssued? && TokenEpisode(events, e.token, ep) && e.action.episodeId == ep
    ensures Owner(events, e) == ep
  {
    LatestIsTokenEpisode(events, e.token, ep);
  }

  lemma ConsumedOwner(events: seq<AuthEvent>, e: AuthEvent, ep: string)
    requires e.DecisionConsumed? && TokenEpisode(events, e.token, ep) && HasIssued(events, e.token)
    ensures Owner(events, e) == ep
  {
    LatestIsTokenEpisode(events, e.token, ep);
  }

  lemma {:induction false} KeptConsumedKnown(entries: seq<Entry>, x: string)
    requires WellFormed(EventsOf(entries)) && ConsumedKnown(EventsOf(entries))
    ensures ConsumedKnown(EventsOf(Kept(entries, x)))
  {
    hide Owner, HasIssued, TokenEpisode, WellFormed;
    if entries != [] {
      var n := |entries| - 1;
      var init, last := entries[..n], entries[n].2;
      var events, kept := EventsOf(entries), EventsOf(Kept(init, x));
      KeptStep(entries, x);
      assert events[..n] == EventsOf(init) && events[n] == last;
      WellFormedPrefix(events, n);
      forall i | 0 <= i < n && EventsOf(init)[i].DecisionConsumed?
        ensures HasIssued(EventsOf(init)[..i], EventsOf(init)[i].token)
      {
        assert events[i] == EventsOf(init)[i] && events[..i] == EventsOf(init)[..i];
      }
      KeptConsumedKnown(init, x);
      if Owner(EventsOf(init), last) != x {
        if last.DecisionConsumed? {
          var ep := EpisodeOfToken(EventsOf(init), last.token);
          ConsumedOwner(EventsOf(init), last, ep);
          IssuedKept(init, x, last.token, ep);
        }
        KnownLonger(kept, last);
      }
    }
  }

  lemma KnownLonger(events: seq<AuthEvent>, e: AuthEvent)
    requires ConsumedKnown(events) && (e.DecisionConsumed? ==> HasIssued(events, e.token))
    ensures ConsumedKnown(events + [e])
  {
    hide HasIssued;
    var longer := events + [e];
    forall i | 0 <= i < |longer| && longer[i].DecisionConsumed? ensures HasIssued(longer[..i], longer[i].token) {
      assert longer[..i] == events[..i];
      assert events[..|events|] == events;
    }
  }

  // The episode all rows of an issued token agree on.
  lemma EpisodeOfToken(events: seq<AuthEvent>, d: TokenDigest) returns (ep: string)
    requires WellFormed(events) && HasIssued(events, d)
    ensures TokenEpisode(events, d, ep)
  {
    var i :| 0 <= i < |events| && events[i].DecisionIssued? && events[i].token == d;
    ep := EpisodeOf(events[i]);
    forall j | 0 <= j < |events| && !IsApproval(events[j]) && CarriesBinding(events[j]) && events[j].token == d
      ensures EpisodeOf(events[j]) == ep
    {
      if j < i { assert SameTokenSameEpisode(events[j], events[i]); }
      if i < j { assert SameTokenSameEpisode(events[i], events[j]); }
    }
  }

  // A token's CONSUMED events stay or go with its episode.
  lemma {:induction false} KeptCount(entries: seq<Entry>, x: string, d: TokenDigest, ep: string)
    requires ConsumedKnown(EventsOf(entries)) && TokenEpisode(EventsOf(entries), d, ep)
    ensures ConsumedCount(EventsOf(Kept(entries, x)), d) == if ep != x then ConsumedCount(EventsOf(entries), d) else 0
  {
    hide Owner, HasIssued, TokenEpisode;
    if entries != [] {
      var n := |entries| - 1;
      var init, last := entries[..n], entries[n].2;
      var events := EventsOf(entries);
      KeptStep(entries, x);
      assert events[..n] == EventsOf(init) && events[n] == last;
      EarlierEpisode(events, n, d, ep);
      forall i | 0 <= i < n && EventsOf(init)[i].DecisionConsumed?
        ensures HasIssued(EventsOf(init)[..i], EventsOf(init)[i].token)
      {
        assert events[i] == EventsOf(init)[i] && events[..i] == EventsOf(init)[..i];
      }
      KeptCount(init, x, d, ep);
      if last.DecisionConsumed? && last.token == d {
        ConsumedOwner(EventsOf(init), last, ep);
      }
      CountOne(EventsOf(init), last, d);
      CountOne(EventsOf(Kept(init, x)), last, d);
    }
  }

  lemma CountOne(events: seq<AuthEvent>, e: AuthEvent, d: TokenDigest)
    ensures ConsumedCount(events + [e], d) == ConsumedCount(events, d) + if e.DecisionConsumed? && e.token == d then 1 else 0
  {
    assert (events + [e])[..|events|] == events;
  }

  lemma RestrictKeepsTables(t: Tables, x: string)
    requires TablesOk(t)
    ensures TablesOk(Restrict(t, x))
  {
    var u := Restrict(t, x);
    forall d, b ensures (d, b) in u.supports <==> d in u.decisions && b in u.decisions[d].binding.supports {
      assert (d, b).0 == d;
    }
  }

  lemma RestrictKeepsReceipts(t: Tables, x: string)
    requires ReceiptsOk(t) && CitesOwn(t)
    ensures ReceiptsOk(Restrict(t, x)) && CitesOwn(Restrict(t, x))
  {
    var u := Restrict(t, x);
    forall d | d in u.decisions && u.decisions[d].binding.NamesReceipt()
      ensures var r := u.decisions[d].binding.approvalReceipt.value;
              r in u.receipts && u.receipts[r] == t.receipts[r] && Cites(t, d, r)
    {
      assert Cites(t, d, u.decisions[d].binding.approvalReceipt.value);
    }
    forall d, r | Cites(u, d, r) ensures Cites(t, d, r) {
    }
  }

  lemma PurgeKeepsDurable(s: Store, x: string, rows: seq<Row>)
    requires Durable(s) && Chained(rows) && Unchained(rows) == Kept(Unchained(s.log), x)
    ensures Rebuilt(s.tables, rows) == Restrict(s.tables, x)
    ensures Durable(Store(Rebuilt(s.tables, rows), rows))
  {
    hide Restrict, TablesOk, ReceiptsOk, CitesOwn, WellFormed, ConsumedKnown, ConsumedCount, Chained, Unchained, Kept, ApplyAll;
    var entries := Unchained(s.log);
    SameEvents(s.log);
    SameEvents(rows);
    CompactedLogRebuilds(entries, x);
    RestrictKeepsTables(s.tables, x);
    RestrictKeepsReceipts(s.tables, x);
    KeptIsWellFormed(entries, x);
    KeptConsumedKnown(entries, x);
    FoldKnowsOwners(Events(s.log));
    forall d ensures ConsumedCount(Events(rows), d) == Spent(Restrict(s.tables, x), d) {
      CountFits(s, x, d);
    }
  }

  lemma SameEvents(rows: seq<Row>)
    ensures EventsOf(Unchained(rows)) == Events(rows)
  {
  }

  lemma CountFits(s: Store, x: string, d: TokenDigest)
    requires Inv(s) && ConsumedKnown(Events(s.log)) && WellFormed(Events(s.log)) && OwnersKnown(s.tables, Events(s.log))
    ensures ConsumedCount(EventsOf(Kept(Unchained(s.log), x)), d) == Spent(Restrict(s.tables, x), d)
  {
    hide ConsumedKnown, WellFormed, Unchained, Kept, ConsumedCount, TokenEpisode, HasIssued, Mirrors, TablesOk, ReceiptsOk;
    SameEvents(s.log);
    assert ConsumedCount(Events(s.log), d) == Spent(s.tables, d);
    if d in s.tables.decisions {
      KeptCount(Unchained(s.log), x, d, s.tables.decisions[d].binding.episodeId);
    } else {
      CountOnlyShrinks(Unchained(s.log), x, d);
    }
  }

  lemma {:induction false} CountOnlyShrinks(entries: seq<Entry>, x: string, d: TokenDigest)
    ensures ConsumedCount(EventsOf(Kept(entries, x)), d) <= ConsumedCount(EventsOf(entries), d)
  {
    hide Owner;
    if entries != [] {
      var n := |entries| - 1;
      KeptStep(entries, x);
      CountOnlyShrinks(entries[..n], x, d);
      CountOne(EventsOf(entries[..n]), entries[n].2, d);
      CountOne(EventsOf(Kept(entries[..n], x)), entries[n].2, d);
    }
  }

  /******* Theorems over runs with purges *******/

  lemma {:induction false} PurgingRunIsDurable(ws: seq<World>, moves: seq<Move>, i: nat)
    requires PurgingRun(ws, moves) && i < |ws|
    ensures Durable(ws[i].store)
    decreases i
  {
    hide Durable, Possible, Next, Rebuilt;
    if i == 0 {
      EmptyIsDurable();
    } else {
      PurgingRunIsDurable(ws, moves, i - 1);
      var w := ws[i - 1];
      match moves[i - 1]
      case Live(step) => LiveKeepsDurable(w, step);
      case PurgeMove(x, rows, ledger) =>
        PossibleRows(w, moves[i - 1]);
        PurgeKeepsDurable(w.store, x, rows);
    }
  }

  lemma LiveKeepsDurable(w: World, step: Step)
    requires Durable(w.store) && Possible(w, Live(step))
    ensures Enabled(w, step) && Durable(Next(w, step).store)
  {
    StepKeepsDurable(w, step);
  }

  lemma PossibleRows(w: World, m: Move)
    requires Possible(w, m) && m.PurgeMove?
    ensures Chained(m.rows) && Unchained(m.rows) == Kept(Unchained(w.store.log), m.episodeId)
  {
  }

  lemma EmptyIsDurable()
    ensures Durable(EmptyStore)
  {
    assert Events(EmptyStore.log) == [];
  }

  // At every point of every run with purges the live tables are the fold of the log, the log's
  // chain verifies, and a token has at most one CONSUMED event, and one exactly when its row
  // says so.
  lemma AtMostOnceWithPurges(ws: seq<World>, moves: seq<Move>, i: nat, d: TokenDigest)
    requires PurgingRun(ws, moves) && i < |ws|
    ensures ApplyAll(EmptyTables, Events(ws[i].store.log)) == Some(ws[i].store.tables) && Chained(ws[i].store.log)
    ensures ConsumedCount(Events(ws[i].store.log), d) <= 1
    ensures ConsumedCount(Events(ws[i].store.log), d) == 1 <==>
            d in ws[i].store.tables.decisions && ws[i].store.tables.decisions[d].state == Consumed
  {
    hide PurgingRun;
    PurgingRunIsDurable(ws, moves, i);
  }

  // Two permits that cite one single-use receipt are one permit, purges or not, and the
  // receipt is of their episode.
  lemma ReceiptBacksOneWithPurges(ws: seq<World>, moves: seq<Move>, i: nat, d: TokenDigest, e: TokenDigest,
                                  r: ReceiptDigest)
    requires PurgingRun(ws, moves) && i < |ws|
    requires d in ws[i].store.tables.decisions && e in ws[i].store.tables.decisions
    requires Cites(ws[i].store.tables, d, r) && Cites(ws[i].store.tables, e, r)
    ensures r in ws[i].store.tables.receipts
    ensures ws[i].store.tables.receipts[r].binding.episodeId == ws[i].store.tables.decisions[d].binding.episodeId
    ensures SingleUse(ws[i].store.tables.receipts[r].binding.scope) ==> d == e
  {
    hide PurgingRun;
    PurgingRunIsDurable(ws, moves, i);
  }

  // A purge leaves exactly the other episodes' rows, and consumes nothing.
  lemma PurgeMoveRestricts(ws: seq<World>, moves: seq<Move>, i: nat, d: TokenDigest)
    requires PurgingRun(ws, moves) && i < |moves| && moves[i].PurgeMove?
    ensures ws[i + 1].store.tables == Restrict(ws[i].store.tables, moves[i].episodeId)
    ensures ConsumedCount(Events(ws[i + 1].store.log), d) == Spent(Restrict(ws[i].store.tables, moves[i].episodeId), d)
  {
    hide Durable, Restrict, ConsumedCount, Rebuilt, Possible, Spent;
    PurgingRunIsDurable(ws, moves, i);
    PossibleRows(ws[i], moves[i]);
    PurgeKeepsDurable(ws[i].store, moves[i].episodeId, moves[i].rows);
    PurgedCounts(ws[i + 1].store, d);
  }

  lemma PurgedCounts(s: Store, d: TokenDigest)
    requires Durable(s)
    ensures ConsumedCount(Events(s.log), d) == Spent(s.tables, d)
  {
  }

  // Between purges a CONSUMED event is still appended exactly by a justified consume.
  lemma ConsumedWhenJustifiedWithPurges(ws: seq<World>, moves: seq<Move>, i: nat, d: TokenDigest)
    requires PurgingRun(ws, moves) && i < |moves| && moves[i].Live?
    ensures NewlyConsumed(ws[i], ws[i + 1], d) <==>
            moves[i].step.Consume? && Sha256(moves[i].step.raw) == d && Justified(ws[i], moves[i].step)
  {
    hide Durable, Enabled, Next, NewlyConsumed, Justified;
    PurgingRunIsDurable(ws, moves, i);
    DurableInv(ws[i].store);
    StepConsumes(ws[i], moves[i].step, d);
  }

  lemma DurableInv(s: Store)
    requires Durable(s)
    ensures Inv(s)
  {
  }
}
