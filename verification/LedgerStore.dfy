/**
 `LedgerStore`: the live event log, its authentication rows and its projections, with the
 methods that append, verify, replay and purge.
 */
module LedgerStore {
  import opened Wrappers
  import opened Sql
  import opened Projections
  import opened LedgerChain
  import opened Ledger

  class Store {
    var log: seq<Event>
    var auth: AuthTable
    var db: Db
    var heads: map<string, Head>
    var idem: map<string, IdemRow>
    // Identifiers of the rows of llm_reservations.
    var reservations: set<string>

    ghost function Contents(): State
      reads this
    {
      State(log, Projection(db, heads), idem)
    }

    // The database as a run leaves it: projections, heads and idempotency rows follow the log,
    // and every event has its authentication row.
    ghost predicate Valid()
      reads this
    {
      Inv(Contents()) && Authentic(log, auth)
    }

    // What appends rely on and keep whatever the caller puts into a correlation.
    ghost predicate Sound()
      reads this
    {
      LogOk(Contents()) && Authentic(log, auth)
    }

    constructor ()
      ensures Valid() && Contents() == EmptyState && reservations == {}
    {
      log, auth, db, heads, idem, reservations := [], map[], map[], map[], map[], {};
    }

    // `apply_event`. On failure the tables are left part way; the caller rolls back.
    method ApplyEvent(e: Event) returns (ok: bool)
      modifies this`db, this`heads
      ensures ok <==> Apply(old(Contents()).p, e).Some?
      ensures ok ==> Contents().p == Apply(old(Contents()).p, e).value
    {
      var stmts := Statements(e.body);
      ok := ExecuteAll(stmts);
      if ok {
        heads := heads[e.body.episodeId := Head(e.body.seq_, e.hash)];
      }
    }

    method ExecuteAll(stmts: seq<Stmt>) returns (ok: bool)
      modifies this`db
      ensures ok <==> ExecAll(old(db), stmts).Some?
      ensures ok ==> db == ExecAll(old(db), stmts).value
    {
      for i := 0 to |stmts|
        invariant ExecAll(old(db), stmts[..i]) == Some(db)
      {
        ExecPrefix(old(db), stmts, i);
        var next := Exec(db, stmts[i]);
        if next.None? {
          return false;
        }
        db := next.value;
      }
      assert stmts[..|stmts|] == stmts;
      return true;
    }

    // `_insert_event`
    method InsertEvent(e: Event) returns (ok: bool)
      modifies this`log, this`auth
      ensures ok <==> !HasId(old(log), e.body.id)
      ensures ok ==> log == old(log) + [e] && auth == old(auth)[e.body.id := AuthRow(e.hash, Mac(e.body.id, e.hash))]
      ensures !ok ==> unchanged(this)
    {
      if exists i | 0 <= i < |log| :: log[i].body.id == e.body.id {
        return false;
      }
      log := log + [e];
      auth := auth[e.body.id := AuthRow(e.hash, Mac(e.body.id, e.hash))];
      return true;
    }

    // One turn of the loop of `append_events`: build, insert, project.
    method AppendDraft(ep: string, d: Draft, corr: map<string, string>, env: Env, n: nat, previous: Hash)
      returns (ok: bool, hash: Hash)
      requires Authentic(log, auth) && n == LastSeq(log) + 1 && previous == HeadHash(heads, ep)
      modifies this`log, this`auth, this`db, this`heads
      ensures ok <==> AppendOne(old(Contents()), ep, d, corr, env).Some?
      ensures ok ==> && Contents() == AppendOne(old(Contents()), ep, d, corr, env).value
                     && Authentic(log, auth)
                     && LastSeq(log) == n && HeadHash(heads, ep) == hash
    {
      hide Authentic, Statements, ExecAll;
      var body := Body(n, env.ids(n), ep, env.stamps(n), d.aggregateId, corr, d.causal, d.payload);
      var e := Event(body, previous, Link(previous, body));
      assert e == NextEvent(log, heads, ep, d, corr, env);
      hash := e.hash;
      var inserted := InsertEvent(e);
      if !inserted {
        return false, hash;
      }
      AuthenticGrows(old(log), old(auth), e, auth);
      ok := ApplyEvent(e);
    }

    // The loop of `append_events`: sequence numbers and the previous hash are threaded.
    method AppendDrafts(ep: string, drafts: seq<Draft>, corr: map<string, string>, env: Env) returns (ok: bool)
      requires Authentic(log, auth)
      modifies this`log, this`auth, this`db, this`heads
      ensures ok <==> AppendEach(old(Contents()), ep, drafts, corr, env).Some?
      ensures ok ==> Contents() == AppendEach(old(Contents()), ep, drafts, corr, env).value && Authentic(log, auth)
    {
      hide Authentic, AppendOne;
      ghost var before := Contents();
      var previous := if ep in heads then heads[ep].hash else Zero;
      var first := (if log == [] then 0 else log[|log| - 1].body.seq_) + 1;
      for i := 0 to |drafts|
        invariant AppendEach(before, ep, drafts[..i], corr, env) == Some(Contents())
        invariant Authentic(log, auth)
        invariant previous == HeadHash(heads, ep) && first + i == LastSeq(log) + 1
      {
        AppendPrefix(before, ep, drafts, i, corr, env);
        var appended, hash := AppendDraft(ep, drafts[i], corr, env, first + i, previous);
        if !appended {
          return false;
        }
        previous := hash;
      }
      assert drafts[..|drafts|] == drafts;
      return true;
    }

    method AppendEvents(ep: string, drafts: seq<Draft>, correlation: map<string, Option<string>>, key: string,
                        task: string, env: Env) returns (r: Result<seq<Event>, Failure>)
      requires Sound()
      modifies this`log, this`auth, this`db, this`heads, this`idem
      ensures Sound()
      ensures old(Valid()) ==>
        (Valid() <==> r.Err? || NothingToDo(old(Contents()), ep, drafts, task) || !SmugglesKey(correlation, key))
      ensures var spec := Append(old(Contents()), ep, drafts, correlation, key, task, env);
        && (r.Ok? <==> spec.Ok?)
        && (r.Ok? ==> r.value == spec.value.events && Contents() == spec.value.state)
        && (r.Err? ==> r.error == spec.error && Contents() == old(Contents()))
    {
      hide Inv, LogOk, AppendEach, Linked, Authentic, SmugglesKey, TaskOpen, Clean, EventsById, FingerprintClash;
      ghost var before := Contents();
      AppendFacts(before, ep, drafts, correlation, key, task, env);
      if drafts == [] {
        return Ok([]);
      }
      var corr := Clean(correlation, key);
      if task != "" && !TaskOpen(db, task, ep) {
        return Ok([]);
      }
      var storage := StorageKey(ep, key);
      if key != "" && storage in idem && idem[storage].episodeId == ep {
        var existing := EventsById(log, idem[storage].ids);
        if FingerprintClash(existing, corr) {
          return Err(KeyReused);
        }
        return Ok(existing);
      }
      var savedLog, savedAuth, savedDb, savedHeads := log, auth, db, heads;
      var ok := AppendDrafts(ep, drafts, corr, env);
      if !ok || (key != "" && storage in idem) {
        log, auth, db, heads := savedLog, savedAuth, savedDb, savedHeads;
        return Err(Aborted);
      }
      var events := log[|savedLog|..];
      if key != "" {
        idem := idem[storage := IdemRow(ep, Ids(events), events[0].body.timestamp)];
      }
      return Ok(events);
    }

    // `verify_hash_chain`: the verified heads must also be the projected ones.
    method VerifyHashChain(batch: nat) returns (ok: bool)
      requires batch > 0
      ensures ok <==> Linked(log) && Authentic(log, auth) && heads == Heads(log)
    {
      var r := VerifiedHeads(log, auth, None, batch);
      assert log[..|log|] == log;
      return r.Ok? && r.value == heads;
    }

    // `chain_state`: the height is the maximum over the verified heads.
    method ChainStateAt(upTo: Option<nat>, batch: nat) returns (r: Result<ChainState, string>)
      requires batch > 0 && Linked(log) && Ascending(log) && Authentic(log, auth)
      ensures r == Ok(StateAt(log, upTo))
    {
      hide Ascending, Linked, Authentic, Heads, Fetched, Cut;
      WholeLogVerifies(log, auth, upTo, batch);
      var verified := VerifiedHeads(log, auth, upTo, batch);
      var height := Greatest(verified.value);
      GreatestIsHeight(log, Cut(log, upTo), height);
      return Ok(ChainState(height, verified.value));
    }

    // Full `replay`: verify the chain, clear the tables and the reservations, apply every event,
    // regroup the idempotency rows, and commit only if nothing else changed.
    method Replay() returns (ok: bool)
      modifies this
      ensures Contents() == old(Contents()) && auth == old(auth)
      ensures ok <==> Linked(log) && Authentic(log, auth) && heads == Heads(log)
                      && Fold(log) == Some(Contents().p) && Regrouped(idem, log)
      ensures reservations == if ok then {} else old(reservations)
    {
      hide Linked, Authentic, Heads;
      var verified := VerifyHashChain(1000);
      if !verified {
        return false;
      }
      var savedDb, savedHeads, savedIdem, savedReservations := db, heads, idem, reservations;
      reservations := {};
      db, heads := map[], map[];
      for i := 0 to |log|
        invariant log == old(log) && auth == old(auth) && idem == old(idem) && reservations == {}
        invariant Fold(log[..i]) == Some(Contents().p)
      {
        FoldPrefix(log, i);
        var applied := ApplyEvent(log[i]);
        if !applied {
          db, heads, reservations := savedDb, savedHeads, savedReservations;
          return false;
        }
      }
      assert log[..|log|] == log;
      var restored := RestoreIdempotency(log);
      ok := restored.Some? && restored.value == savedIdem && db == savedDb && heads == savedHeads;
      if restored.Some? && Regrouped(savedIdem, log) {
        RegroupedIsUnique(restored.value, savedIdem, log);
      }
      db, heads, idem := savedDb, savedHeads, savedIdem;
      if !ok {
        reservations := savedReservations;
      }
    }

    // `purge_episode`: replay the other episodes into a new database.
    method PurgeEpisode(x: string) returns (removed: nat)
      requires Valid()
      modifies this
      ensures Valid()
      ensures Contents() == Purge(old(Contents()), x)
      ensures removed == |old(log)| - |log| && reservations == {}
    {
      hide Inv, Purge, Authentic, Others, Fold, DistinctIds, Regrouped;
      ghost var before := Contents();
      PurgeKeepsInv(before, x);
      PurgeParts(before, x);
      var preserved := Preserved(x);
      removed := |log| - |preserved|;
      Refill(preserved);
      var restored := RestoreIdempotency(preserved);
      if restored.Some? {
        RegroupedIsUnique(restored.value, Purge(before, x).idem, preserved);
        idem := restored.value;
      }
      assert Contents() == Purge(before, x);
    }

    // [event for event in all_events if event.episode_id != episode_id]
    method Preserved(x: string) returns (preserved: seq<Event>)
      ensures preserved == Others(log, x) && |preserved| <= |log|
    {
      preserved := [];
      for i := 0 to |log|
        invariant preserved == Others(log[..i], x) && |preserved| <= i
      {
        assert log[..i + 1] == log[..i] + [log[i]];
        OthersStep(log[..i + 1], x);
        if log[i].body.episodeId != x {
          preserved := preserved + [log[i]];
        }
      }
      assert log[..|log|] == log;
    }

    // Insert already authenticated events into an empty database.
    method Refill(preserved: seq<Event>)
      requires DistinctIds(preserved) && Fold(preserved).Some?
      modifies this
      ensures log == preserved && Authentic(log, auth) && idem == map[] && reservations == {}
      ensures Fold(preserved) == Some(Contents().p)
    {
      hide Apply;
      log, auth, db, heads, idem, reservations := [], map[], map[], map[], map[], {};
      for i := 0 to |preserved|
        invariant log == preserved[..i] && idem == map[] && reservations == {}
        invariant Fold(log) == Some(Contents().p) && Authentic(log, auth)
      {
        FoldPrefix(preserved, i);
        ghost var logSoFar, authSoFar := log, auth;
        assert !HasId(log, preserved[i].body.id);
        var inserted := InsertEvent(preserved[i]);
        var applied := ApplyEvent(preserved[i]);
        AuthenticGrows(logSoFar, authSoFar, preserved[i], auth);
        assert preserved[..i + 1] == preserved[..i] + [preserved[i]];
      }
      assert preserved[..|preserved|] == preserved;
    }
  }

  // What a purge leaves, taken apart.
  lemma PurgeParts(s: State, x: string)
    requires Inv(s) && Inv(Purge(s, x))
    ensures Purge(s, x).log == Others(s.log, x) && DistinctIds(Others(s.log, x))
    ensures Fold(Others(s.log, x)) == Some(Purge(s, x).p)
    ensures Regrouped(Purge(s, x).idem, Others(s.log, x))
  {
  }

  // `_idempotency_batches` and `_restore_idempotency`: group by (episode, key), then insert one
  // row a group; two groups with one storage key violate the primary key.
  method RestoreIdempotency(log: seq<Event>) returns (r: Option<map<string, IdemRow>>)
    ensures r.Some? ==> Regrouped(r.value, log)
    ensures r.None? ==> !exists table :: Regrouped(table, log)
  {
    var batches: map<(string, string), seq<Event>> := map[];
    for i := 0 to |log|
      invariant Grouped(batches, log[..i])
    {
      var ep, key := log[i].body.episodeId, Lookup(log[i].body.correlation, KEY);
      GroupedStep(batches, log, i);
      if key != "" {
        var before := if (ep, key) in batches then batches[(ep, key)] else [];
        batches := batches[(ep, key) := before + [log[i]]];
      }
    }
    assert log[..|log|] == log;
    var table: map<string, IdemRow> := map[];
    var rest := batches.Keys;
    while rest != {}
      invariant rest <= batches.Keys
      invariant Inserted(table, batches, batches.Keys - rest)
      decreases rest
    {
      var group :| group in rest;
      var storage := StorageKey(group.0, group.1);
      assert (group.0, group.1) in batches && KeyedEvents(log, group.0, group.1) != [];
      if storage in table {
        NoTable(table, batches, batches.Keys - rest, group, log);
        return None;
      }
      assert group !in batches.Keys - rest;
      assert batches.Keys - (rest - {group}) == batches.Keys - rest + {group};
      table := table[storage := RowFor(group.0, batches[group])];
      rest := rest - {group};
    }
    AllInserted(table, batches, log);
    return Some(table);
  }

  ghost predicate Grouped(batches: map<(string, string), seq<Event>>, log: seq<Event>) {
    forall ep, key {:trigger KeyedEvents(log, ep, key)} ::
      && ((ep, key) in batches <==> key != "" && KeyedEvents(log, ep, key) != [])
      && ((ep, key) in batches ==> batches[(ep, key)] == KeyedEvents(log, ep, key))
  }

  lemma GroupedStep(batches: map<(string, string), seq<Event>>, log: seq<Event>, i: nat)
    requires i < |log| && Grouped(batches, log[..i])
    ensures var ep, key := log[i].body.episodeId, Lookup(log[i].body.correlation, KEY);
            var before := if (ep, key) in batches then batches[(ep, key)] else [];
            Grouped(if key != "" then batches[(ep, key) := before + [log[i]]] else batches, log[..i + 1])
  {
    var init, longer := log[..i], log[..i + 1];
    assert longer[..|longer| - 1] == init && longer[i] == log[i];
    forall ep, key ensures KeyedEvents(longer, ep, key)
      == KeyedEvents(init, ep, key)
         + if log[i].body.episodeId == ep && Lookup(log[i].body.correlation, KEY) == key then [log[i]] else [] {}
    var ep, key := log[i].body.episodeId, Lookup(log[i].body.correlation, KEY);
    assert key != "" ==> KeyedEvents(init, ep, key) == if (ep, key) in batches then batches[(ep, key)] else [];
  }

  ghost predicate Inserted(table: map<string, IdemRow>, batches: map<(string, string), seq<Event>>,
                           done: set<(string, string)>)
  {
    && done <= batches.Keys
    && (forall g <- done :: batches[g] != [] && StorageKey(g.0, g.1) in table
                            && table[StorageKey(g.0, g.1)] == RowFor(g.0, batches[g]))
    && (forall s <- table :: exists g :: g in done && s == StorageKey(g.0, g.1) && table[s].episodeId == g.0)
  }

  lemma NoTable(table: map<string, IdemRow>, batches: map<(string, string), seq<Event>>,
                done: set<(string, string)>, group: (string, string), log: seq<Event>)
    requires Grouped(batches, log) && Inserted(table, batches, done)
    requires group in batches && group !in done && StorageKey(group.0, group.1) in table
    ensures !exists other :: Regrouped(other, log)
  {
    var s := StorageKey(group.0, group.1);
    var g :| g in done && s == StorageKey(g.0, g.1) && table[s].episodeId == g.0;
    assert (group.0, group.1) in batches && (g.0, g.1) in batches;
    if g.0 == group.0 {
      StorageKeyInjective(g.0, g.1, group.1);
    }
    forall other ensures !Regrouped(other, log) {
      assert KeyedEvents(log, g.0, g.1) != [] && KeyedEvents(log, group.0, group.1) != [];
    }
  }

  lemma AllInserted(table: map<string, IdemRow>, batches: map<(string, string), seq<Event>>, log: seq<Event>)
    requires Grouped(batches, log) && Inserted(table, batches, batches.Keys)
    ensures Regrouped(table, log)
  {
    forall ep, key {:trigger KeyedEvents(log, ep, key)} | key != "" && KeyedEvents(log, ep, key) != []
      ensures StorageKey(ep, key) in table && table[StorageKey(ep, key)] == RowFor(ep, KeyedEvents(log, ep, key))
    {
      assert (ep, key) in batches;
    }
    forall s | s in table ensures Backed(s, table[s].episodeId, log) {
      var g :| g in batches.Keys && s == StorageKey(g.0, g.1) && table[s].episodeId == g.0;
      assert (g.0, g.1) in batches && KeyedEvents(log, g.0, g.1) != [];
    }
  }

  // The maximum sequence number over a set of heads, or zero.
  method Greatest(heads: map<string, Head>) returns (height: nat)
    ensures forall ep <- heads :: heads[ep].seq_ <= height
    ensures height == 0 || exists ep <- heads :: heads[ep].seq_ == height
  {
    height := 0;
    var rest := heads.Keys;
    while rest != {}
      invariant rest <= heads.Keys
      invariant forall ep <- heads.Keys - rest :: heads[ep].seq_ <= height
      invariant height == 0 || exists ep <- heads :: heads[ep].seq_ == height
      decreases rest
    {
      var ep :| ep in rest;
      if heads[ep].seq_ > height {
        height := heads[ep].seq_;
      }
      rest := rest - {ep};
    }
  }

  lemma ExecPrefix(db: Db, stmts: seq<Stmt>, i: nat)
    requires i < |stmts|
    ensures ExecAll(db, stmts[..i + 1])
         == match ExecAll(db, stmts[..i]) case None => None case Some(mid) => Exec(mid, stmts[i])
    ensures ExecAll(db, stmts[..i + 1]).None? ==> ExecAll(db, stmts).None?
  {
    assert stmts[..i + 1][..i] == stmts[..i];
    ExecMonotone(db, stmts, i + 1);
  }

  lemma {:induction false} ExecMonotone(db: Db, stmts: seq<Stmt>, n: nat)
    requires n <= |stmts|
    ensures ExecAll(db, stmts[..n]).None? ==> ExecAll(db, stmts).None?
    decreases |stmts|
  {
    if n == |stmts| {
      assert stmts[..n] == stmts;
    } else {
      ExecMonotone(db, stmts[..|stmts| - 1], n);
      assert stmts[..|stmts| - 1][..n] == stmts[..n];
    }
  }

  lemma FoldPrefix(log: seq<Event>, i: nat)
    requires i < |log|
    ensures Fold(log[..i + 1]) == match Fold(log[..i]) case None => None case Some(p) => Apply(p, log[i])
    ensures Fold(log[..i + 1]).None? ==> Fold(log).None?
  {
    hide Apply;
    FoldLast(log[..i + 1], log[..i], log[i]);
    CutAndRest(log, i + 1);
    FoldConcat(log[..i + 1], log[i + 1..]);
  }

  lemma FoldLast(log: seq<Event>, init: seq<Event>, last: Event)
    requires log == init + [last]
    ensures Fold(log) == match Fold(init) case None => None case Some(p) => Apply(p, last)
  {
    hide Apply;
    assert log[..|log| - 1] == init;
  }

  lemma CutAndRest(log: seq<Event>, n: nat)
    requires n <= |log|
    ensures log == log[..n] + log[n..]
  {
  }

  lemma AppendPrefix(s: State, ep: string, drafts: seq<Draft>, i: nat, corr: map<string, string>, env: Env)
    requires i < |drafts|
    ensures AppendEach(s, ep, drafts[..i + 1], corr, env)
         == match AppendEach(s, ep, drafts[..i], corr, env)
            case None => None
            case Some(u) => AppendOne(u, ep, drafts[i], corr, env)
    ensures AppendEach(s, ep, drafts[..i + 1], corr, env).None? ==> AppendEach(s, ep, drafts, corr, env).None?
  {
    assert drafts[..i + 1][..i] == drafts[..i];
    AppendMonotone(s, ep, drafts, i + 1, corr, env);
  }

  lemma {:induction false} AppendMonotone(s: State, ep: string, drafts: seq<Draft>, n: nat, corr: map<string, string>,
                                          env: Env)
    requires n <= |drafts|
    ensures AppendEach(s, ep, drafts[..n], corr, env).None? ==> AppendEach(s, ep, drafts, corr, env).None?
    decreases |drafts|
  {
    if n == |drafts| {
      assert drafts[..n] == drafts;
    } else {
      AppendMonotone(s, ep, drafts[..|drafts| - 1], n, corr, env);
      assert drafts[..|drafts| - 1][..n] == drafts[..n];
    }
  }

  lemma AuthenticGrows(log: seq<Event>, auth: AuthTable, e: Event, now: AuthTable)
    requires Authentic(log, auth) && !HasId(log, e.body.id)
    requires now == auth[e.body.id := AuthRow(e.hash, Mac(e.body.id, e.hash))]
    ensures Authentic(log + [e], now)
  {
    forall i | 0 <= i < |log| ensures IsAuthentic(log[i], now) {
      assert log[i].body.id != e.body.id;
    }
  }

  lemma WholeLogVerifies(log: seq<Event>, auth: AuthTable, upTo: Option<nat>, batch: nat)
    requires batch > 0 && Linked(log) && Authentic(log, auth)
    ensures var n := Cut(log, upTo);
            Fetched(log, n, batch) <= |log| && Linked(log[..n]) && Authentic(log[..Fetched(log, n, batch)], auth)
  {
    LinkedPrefix(log, Cut(log, upTo));
  }

  lemma GreatestIsHeight(log: seq<Event>, n: nat, height: nat)
    requires Linked(log) && Ascending(log) && n <= |log|
    requires forall ep <- Heads(log[..n]) :: Heads(log[..n])[ep].seq_ <= height
    requires height == 0 || exists ep <- Heads(log[..n]) :: Heads(log[..n])[ep].seq_ == height
    ensures height == LastSeq(log[..n])
  {
    LinkedPrefix(log, n);
    HeightIsMaximum(log[..n]);
    HeadsEmptyIff(log[..n]);
  }

  // What an append keeps, from any sound database and from one in the invariant.
  lemma AppendFacts(s: State, ep: string, drafts: seq<Draft>, correlation: map<string, Option<string>>, key: string,
                    task: string, env: Env)
    requires LogOk(s)
    ensures var r := Append(s, ep, drafts, correlation, key, task, env);
      r.Ok? ==> LogOk(r.value.state)
                && (Inv(s) ==> (Inv(r.value.state) <==> NothingToDo(s, ep, drafts, task) || !SmugglesKey(correlation, key)))
  {
    hide LogOk, Append, SmugglesKey, Regrouped;
    if Append(s, ep, drafts, correlation, key, task, env).Ok? {
      AppendAddsBatch(s, ep, drafts, correlation, key, task, env);
      if Inv(s) {
        AppendKeepsInv(s, ep, drafts, correlation, key, task, env);
      }
    }
  }

  /******* A smuggled key *******/

  function Creation(ep: string): Draft {
    Draft(EpisodeCreated(ep, ep, map[]), ep, None)
  }

  function EventId(n: nat): string {
    if n == 1 then "event 1" else "event 2"
  }

  function Stamp(n: nat): string {
    "now"
  }

  const SAMPLE := Env(EventId, Stamp)

  // A creation whose episode, key, event id and caller key are new is accepted.
  lemma CreationIsAccepted(s: State, ep: string, correlation: map<string, Option<string>>, key: string)
    requires Id(Episodes, ep) !in s.p.db && !HasId(s.log, EventId(LastSeq(s.log) + 1))
    requires forall k <- s.p.db :: k.table == Episodes ==> Column(s.p.db[k], "episode_key") != Text(ep)
    requires StorageKey(ep, key) !in s.idem
    ensures var e := NextEvent(s.log, s.p.heads, ep, Creation(ep), Clean(correlation, key), SAMPLE);
            var r := Append(s, ep, [Creation(ep)], correlation, key, "", SAMPLE);
      && r.Ok? && r.value.state.log == s.log + [e] && e.body.payload == EpisodeCreated(ep, ep, map[])
      && e.body.id == EventId(LastSeq(s.log) + 1) && e.body.correlation == Clean(correlation, key)
      && r.value.state.p.db == s.p.db[Id(Episodes, ep) := Row(ep, map["episode_key" := Text(ep)])]
      && (key == "" ==> r.value.state.idem == s.idem)
  {
    var d, corr := Creation(ep), Clean(correlation, key);
    var e := NextEvent(s.log, s.p.heads, ep, d, corr, SAMPLE);
    CreationApplies(s.p, e, ep);
    hide Apply, HasId, Clean, NextEvent;
    assert [d][..0] == [];
    assert AppendEach(s, ep, [d], corr, SAMPLE) == AppendOne(s, ep, d, corr, SAMPLE);
    assert AppendOne(s, ep, d, corr, SAMPLE) == Some(State(s.log + [e], Apply(s.p, e).value, s.idem)) by {
      NextIs(s, ep, d, corr, SAMPLE);
    }
    NextIs(s, ep, d, corr, SAMPLE);
  }

  lemma NextIs(s: State, ep: string, d: Draft, corr: map<string, string>, env: Env)
    ensures var e := NextEvent(s.log, s.p.heads, ep, d, corr, env);
            e.body.id == env.ids(LastSeq(s.log) + 1) && e.body.payload == d.payload && e.body.correlation == corr
            && e.body.episodeId == ep
  {
  }

  lemma CreationApplies(p: Projection, e: Event, ep: string)
    requires e.body.payload == EpisodeCreated(ep, ep, map[]) && e.body.episodeId == ep && Id(Episodes, ep) !in p.db
    requires forall k <- p.db :: k.table == Episodes ==> Column(p.db[k], "episode_key") != Text(ep)
    ensures Apply(p, e).Some?
    ensures Apply(p, e).value.db == p.db[Id(Episodes, ep) := Row(ep, map["episode_key" := Text(ep)])]
  {
    var k, r := Id(Episodes, ep), Row(ep, map["episode_key" := Text(ep)]);
    var stmts := [Check(true), Insert(k, r)];
    assert Statements(e.body) == stmts by {
      var none: Columns := map[];
      assert none["episode_key" := Text(ep)] == map["episode_key" := Text(ep)];
    }
    ExecPrefix(p.db, stmts, 0);
    ExecPrefix(p.db, stmts, 1);
    assert stmts[..2] == stmts;
    forall q | q in p.db && q.table == Episodes ensures !Clash(Episodes, r, p.db[q]) {
      assert UniqueColumns(Episodes)[0] == "episode_key";
    }
  }

  // The reserved key put into the correlation without the argument: the append is accepted by
  // the empty ledger, no idempotency row is written, and a replay would make one.
  lemma SmuggledKeyRun()
    ensures var r := Append(EmptyState, "a", [Creation("a")], map[KEY := Some("key")], "", "", SAMPLE);
      && r.Ok? && |r.value.events| == 1 && r.value.state.idem == map[]
      && LogOk(r.value.state) && !Regrouped(r.value.state.idem, r.value.state.log)
      && forall table :: Regrouped(table, r.value.state.log) ==> StorageKey("a", "key") in table
  {
    hide Append, LogOk, Regrouped;
    var correlation := map[KEY := Some("key")];
    CreationIsAccepted(EmptyState, "a", correlation, "");
    var r := Append(EmptyState, "a", [Creation("a")], correlation, "", "", SAMPLE).value;
    EmptyHolds();
    AppendKeepsInv(EmptyState, "a", [Creation("a")], correlation, "", "", SAMPLE);
    AppendAddsBatch(EmptyState, "a", [Creation("a")], correlation, "", "", SAMPLE);
    assert Lookup(Clean(correlation, ""), KEY) == "key";
    var e := NextEvent([], map[], "a", Creation("a"), Clean(correlation, ""), SAMPLE);
    NextIs(EmptyState, "a", Creation("a"), Clean(correlation, ""), SAMPLE);
    assert r.state.log == [e];
    forall table | Regrouped(table, r.state.log) ensures StorageKey("a", "key") in table {
      KeyedHolds(r.state.log, "a", "key", 0);
      KeyIsListed(table, r.state.log, "a", "key");
    }
  }

  lemma EmptyHolds()
    ensures Inv(EmptyState)
  {
  }

  lemma KeyIsListed(table: map<string, IdemRow>, log: seq<Event>, ep: string, key: string)
    requires Regrouped(table, log) && key != "" && KeyedEvents(log, ep, key) != []
    ensures StorageKey(ep, key) in table
  {
  }
}
