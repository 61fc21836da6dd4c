/**
 Exactly when an event is accepted: who must own what it names, which keys must be free, and
 which unique columns must not repeat.
 */
module ProjectionAccepts {
  import opened Wrappers
  import opened Sql
  import opened Projections
  import opened RP = RelabelProjection
  import opened Reapplication
  import opened ProjectionRows

  /******* Unique columns *******/

  predicate KeyTaken(db: Db, k: Key, key: Value) {
    exists q <- db :: q.table == Episodes && q != k && Column(db[q], "episode_key") == key
  }

  predicate SourceTaken(db: Db, k: Key, ep: string, root: Value, kind: Value) {
    exists q <- db :: q.table == Sources && q != k && db[q].episode == ep
      && Column(db[q], "root") == root && Column(db[q], "kind") == kind
  }

  predicate TaskTaken(db: Db, k: Key, ep: string, belief: Value, method_: Value, state: Value) {
    exists q <- db :: q.table == Tasks && q != k && db[q].episode == ep
      && Column(db[q], "belief_id") == belief && Column(db[q], "method") == method_ && Column(db[q], "state") == state
  }

  predicate PairTaken(db: Db, k: Key, ep: string, left: Value, right: Value, state: Value) {
    exists q <- db :: q.table == Conflicts && q != k && db[q].episode == ep
      && Column(db[q], "left_belief_id") == left && Column(db[q], "right_belief_id") == right && Column(db[q], "state") == state
  }

  // A row of the table would repeat the unique columns of another.
  predicate Repeats(db: Db, k: Key, r: Row) {
    match k.table
    case Episodes => KeyTaken(db, k, Column(r, "episode_key"))
    case Sources => SourceTaken(db, k, r.episode, Column(r, "root"), Column(r, "kind"))
    case Tasks => TaskTaken(db, k, r.episode, Column(r, "belief_id"), Column(r, "method"), Column(r, "state"))
    case Conflicts => PairTaken(db, k, r.episode, Column(r, "left_belief_id"), Column(r, "right_belief_id"), Column(r, "state"))
    case _ => false
  }

  lemma ClashIs(t: Table, r: Row, q: Row)
    ensures t == Episodes ==> (Clash(t, r, q) <==> Column(r, "episode_key") == Column(q, "episode_key"))
    ensures t == Sources ==> (Clash(t, r, q) <==>
      r.episode == q.episode && Column(r, "root") == Column(q, "root") && Column(r, "kind") == Column(q, "kind"))
    ensures t == Tasks ==> (Clash(t, r, q) <==>
      r.episode == q.episode && Column(r, "belief_id") == Column(q, "belief_id")
      && Column(r, "method") == Column(q, "method") && Column(r, "state") == Column(q, "state"))
    ensures t == Conflicts ==> (Clash(t, r, q) <==>
      r.episode == q.episode && Column(r, "left_belief_id") == Column(q, "left_belief_id")
      && Column(r, "right_belief_id") == Column(q, "right_belief_id") && Column(r, "state") == Column(q, "state"))
    ensures UniqueColumns(t) == [] ==> !Clash(t, r, q)
  {
    var cs := UniqueColumns(t);
    assert Clash(t, r, q) ==> forall i | 0 <= i < |cs| :: Column(r, cs[i]) == Column(q, cs[i]);
    assert |cs| > 0 ==> (Clash(t, r, q) ==> Column(r, cs[0]) == Column(q, cs[0]));
    assert |cs| > 1 ==> (Clash(t, r, q) ==> Column(r, cs[1]) == Column(q, cs[1]));
    assert |cs| > 2 ==> (Clash(t, r, q) ==> Column(r, cs[2]) == Column(q, cs[2]));
  }

  lemma RepeatsIff(db: Db, k: Key, r: Row)
    ensures UniqueOk(db, k, r) <==> !Repeats(db, k, r)
  {
    hide Clash;
    forall q | q in db ensures q.table == k.table ==> (Clash(k.table, r, db[q]) <==> Clash(k.table, r, db[q])) {
      ClashIs(k.table, r, db[q]);
    }
    if Repeats(db, k, r) {
      var q := Repeated(db, k, r);
      ClashIs(k.table, r, db[q]);
    }
    if !UniqueOk(db, k, r) {
      var q :| q in db && q.table == k.table && q != k && Clash(k.table, r, db[q]);
      ClashIs(k.table, r, db[q]);
    }
  }

  lemma Repeated(db: Db, k: Key, r: Row) returns (q: Key)
    requires Repeats(db, k, r)
    ensures q in db && q.table == k.table && q != k && Clash(k.table, r, db[q])
  {
    hide Clash;
    match k.table {
      case Episodes =>
        q :| q in db && q.table == Episodes && q != k && Column(db[q], "episode_key") == Column(r, "episode_key");
      case Sources =>
        q :| q in db && q.table == Sources && q != k && db[q].episode == r.episode
             && Column(db[q], "root") == Column(r, "root") && Column(db[q], "kind") == Column(r, "kind");
      case Tasks =>
        q :| q in db && q.table == Tasks && q != k && db[q].episode == r.episode
             && Column(db[q], "belief_id") == Column(r, "belief_id")
             && Column(db[q], "method") == Column(r, "method") && Column(db[q], "state") == Column(r, "state");
      case Conflicts =>
        q :| q in db && q.table == Conflicts && q != k && db[q].episode == r.episode
             && Column(db[q], "left_belief_id") == Column(r, "left_belief_id")
             && Column(db[q], "right_belief_id") == Column(r, "right_belief_id") && Column(db[q], "state") == Column(r, "state");
    }
    ClashIs(k.table, r, db[q]);
  }

  // No row of the database repeats another.
  ghost predicate Sound(db: Db) {
    forall k <- db :: !Repeats(db, k, db[k])
  }

  lemma PutKeepsSound(db: Db, k: Key, r: Row)
    requires Sound(db) && Put(db, k, r).Some?
    ensures Sound(db[k := r])
  {
    hide Clash, Repeats;
    var after := db[k := r];
    forall q | q in after ensures !Repeats(after, q, after[q]) {
      RepeatsIff(db, k, r);
      RepeatsIff(after, q, after[q]);
      if q != k {
        RepeatsIff(db, q, db[q]);
        ClashIs(q.table, db[q], r);
        ClashIs(q.table, r, db[q]);
      }
    }
  }

  lemma ExecKeepsSound(db: Db, s: Stmt)
    requires Sound(db) && Exec(db, s).Some?
    ensures Sound(Exec(db, s).value)
  {
    hide Sound, UniqueOk, OwnedBy, Bumped;
    match s
    case Check(_) =>
    case Exists(_) =>
    case Owned(_, _) =>
    case Insert(k, r) => PutKeepsSound(db, k, r);
    case InsertCopying(k, r, from, c, default) =>
      PutKeepsSound(db, k, Row(r.episode, r.cols[c := if from in db then Column(db[from], c) else default]));
    case InsertIgnore(k, r) => if k !in db { PutKeepsSound(db, k, r); }
    case Replace(k, r) => PutKeepsSound(db, k, r);
    case Update(k, sets) => if k in db { PutKeepsSound(db, k, Row(db[k].episode, db[k].cols + sets)); }
    case Bump(k, deltas, clamped) => if k in db { PutKeepsSound(db, k, Bumped(db[k], deltas, clamped)); }
  }

  lemma {:induction false} ListKeepsSound(db: Db, stmts: seq<Stmt>)
    requires Sound(db) && ExecAll(db, stmts).Some?
    ensures Sound(ExecAll(db, stmts).value)
    decreases |stmts|
  {
    hide Sound, Exec;
    if stmts != [] {
      ListKeepsSound(db, stmts[..|stmts| - 1]);
      ExecKeepsSound(ExecAll(db, stmts[..|stmts| - 1]).value, stmts[|stmts| - 1]);
    }
  }

  // The tables that a log folds to repeat no unique columns.
  lemma {:induction false} FoldedIsSound(events: seq<Event>)
    requires Fold(events).Some?
    ensures Sound(Fold(events).value.db)
    decreases |events|
  {
    hide Sound, ExecAll, Statements;
    if events == [] {
      EmptyIsSound();
    } else {
      FoldedIsSound(events[..|events| - 1]);
      ListKeepsSound(Fold(events[..|events| - 1]).value.db, Statements(events[|events| - 1].body));
    }
  }

  lemma EmptyIsSound()
    ensures Sound(EmptyProjection.db)
  {
  }

  /******* Lists that check and insert *******/

  // Checks, and inserts for the episode into tables without unique columns.
  predicate Plainly(s: Stmt, ep: string) {
    match s
    case Check(_) => true
    case Exists(_) => true
    case Owned(_, owner) => owner == ep
    case Insert(k, r) => r.episode == ep && UniqueColumns(k.table) == []
    case InsertCopying(k, r, _, _, _) => r.episode == ep && UniqueColumns(k.table) == []
    case InsertIgnore(k, r) => r.episode == ep && UniqueColumns(k.table) == []
    case _ => false
  }

  function Brings(s: Stmt): set<Key> {
    if s.Insert? || s.InsertCopying? || s.InsertIgnore? then {s.key} else {}
  }

  function AllBring(stmts: seq<Stmt>): set<Key> {
    if stmts == [] then {} else AllBring(stmts[..|stmts| - 1]) + Brings(stmts[|stmts| - 1])
  }

  // The statement goes through once the keys `added` have come in for the episode.
  predicate Fine(db: Db, added: set<Key>, s: Stmt, ep: string) {
    match s
    case Check(ok) => ok
    case Exists(k) => k in db || k in added
    case Owned(keys, _) => exists k <- keys :: if k in db then db[k].episode == ep else k in added
    case Insert(k, _) => k !in db && k !in added
    case InsertCopying(k, _, _, _, _) => k !in db && k !in added
    case InsertIgnore(_, _) => true
    case _ => false
  }

  predicate AllFine(db: Db, added: set<Key>, stmts: seq<Stmt>, ep: string) {
    stmts == [] || (AllFine(db, added, stmts[..|stmts| - 1], ep)
                    && Fine(db, added + AllBring(stmts[..|stmts| - 1]), stmts[|stmts| - 1], ep))
  }

  // The keys have come in for the episode, and nothing else has changed.
  ghost predicate Extends(db: Db, mid: Db, added: set<Key>, ep: string) {
    && mid.Keys == db.Keys + added
    && (forall k <- db :: mid[k] == db[k])
    && (forall k <- mid :: k !in db ==> mid[k].episode == ep)
  }

  lemma FineStep(db: Db, mid: Db, added: set<Key>, s: Stmt, ep: string)
    requires Extends(db, mid, added, ep) && Plainly(s, ep)
    ensures Exec(mid, s).Some? <==> Fine(db, added, s, ep)
    ensures Exec(mid, s).Some? ==> Extends(db, Exec(mid, s).value, added + Brings(s), ep)
  {
    hide UniqueOk;
    if s.Insert? || s.InsertCopying? || s.InsertIgnore? {
      hide OwnedBy;
      forall r: Row ensures UniqueOk(mid, s.key, r) { FreeTable(mid, s.key, r); }
    } else {
      assert added + {} == added;
    }
  }

  lemma FreeTable(db: Db, k: Key, r: Row)
    requires UniqueColumns(k.table) == []
    ensures UniqueOk(db, k, r)
  {
  }

  lemma {:induction false} ExecIffFine(db: Db, stmts: seq<Stmt>, ep: string)
    requires forall s <- stmts :: Plainly(s, ep)
    ensures ExecAll(db, stmts).Some? <==> AllFine(db, {}, stmts, ep)
    ensures ExecAll(db, stmts).Some? ==> Extends(db, ExecAll(db, stmts).value, AllBring(stmts), ep)
    decreases |stmts|
  {
    hide Exec, Fine, Plainly, Extends, Brings;
    if stmts == [] {
      NothingBrought(db, ep);
    } else {
      var init, last := stmts[..|stmts| - 1], stmts[|stmts| - 1];
      ExecIffFine(db, init, ep);
      if ExecAll(db, init).Some? {
        FineStep(db, ExecAll(db, init).value, AllBring(init), last, ep);
        assert {} + AllBring(init) == AllBring(init);
      }
    }
  }

  lemma NothingBrought(db: Db, ep: string)
    ensures Extends(db, db, {}, ep)
  {
  }

  lemma {:induction false} FineConcat(db: Db, added: set<Key>, a: seq<Stmt>, b: seq<Stmt>, ep: string)
    ensures AllBring(a + b) == AllBring(a) + AllBring(b)
    ensures AllFine(db, added, a + b, ep) <==> AllFine(db, added, a, ep) && AllFine(db, added + AllBring(a), b, ep)
    decreases |b|
  {
    hide Fine, Brings;
    if b == [] {
      assert a + b == a;
    } else {
      var init, last := b[..|b| - 1], b[|b| - 1];
      assert (a + b)[..|a + b| - 1] == a + init;
      FineConcat(db, added, a, init, ep);
      assert added + AllBring(a + init) == added + AllBring(a) + AllBring(init);
    }
  }

  lemma {:induction false} FineGuards(db: Db, added: set<Key>, stmts: seq<Stmt>, ep: string)
    requires forall s <- stmts :: Brings(s) == {}
    ensures AllBring(stmts) == {}
    ensures AllFine(db, added, stmts, ep) <==> forall s <- stmts :: Fine(db, added, s, ep)
    decreases |stmts|
  {
    hide Fine, Brings;
    if stmts != [] {
      var init, last := stmts[..|stmts| - 1], stmts[|stmts| - 1];
      assert stmts == init + [last] && forall s <- init :: s in stmts;
      FineGuards(db, added, init, ep);
      assert added + AllBring(init) == added;
    }
  }

  // Inserts with keys of their own: each needs a key that is still free.
  lemma {:induction false} FineInserts(db: Db, added: set<Key>, stmts: seq<Stmt>, ep: string)
    requires forall i | 0 <= i < |stmts| :: stmts[i].Insert? || stmts[i].InsertCopying?
    requires forall i, j | 0 <= i < j < |stmts| :: stmts[i].key != stmts[j].key
    ensures forall k :: k in AllBring(stmts) <==> exists i | 0 <= i < |stmts| :: stmts[i].key == k
    ensures AllFine(db, added, stmts, ep) <==> forall i | 0 <= i < |stmts| :: stmts[i].key !in db && stmts[i].key !in added
    decreases |stmts|
  {
    if stmts != [] {
      var init, last := stmts[..|stmts| - 1], stmts[|stmts| - 1];
      assert forall i | 0 <= i < |init| :: init[i] == stmts[i];
      FineInserts(db, added, init, ep);
      assert last.key !in AllBring(init);
    }
  }

  /******* One event *******/

  // Everything but a creation needs its episode, and then what its handler executes.
  lemma AppliedIff(p: Projection, e: Event)
    ensures e.body.payload.EpisodeCreated? ==> (Apply(p, e).Some? <==> ExecAll(p.db, Handler(e.body)).Some?)
    ensures !e.body.payload.EpisodeCreated? ==>
      (Apply(p, e).Some? <==> Key(Episodes, [Text(e.body.episodeId)]) in p.db && ExecAll(p.db, Handler(e.body)).Some?)
  {
    hide Handler, ExecAll;
    if !e.body.payload.EpisodeCreated? {
      ExecFirst(p.db, Exists(Id(Episodes, e.body.episodeId)), Handler(e.body));
    } else {
      assert Statements(e.body) == Handler(e.body);
    }
  }

  lemma FineOwn(db: Db, added: set<Key>, t: Table, id: string, ep: string)
    requires Key(t, [Text(id)]) !in added
    ensures Fine(db, added, Own(t, id, ep), ep) <==> Entity(db, t, id, ep)
  {
    assert Id(t, id) in [Id(t, id)];
  }

  // Checks first, then one statement on the tables as they are.
  lemma GuardsThen(db: Db, guards: seq<Stmt>, last: Stmt, ep: string)
    requires forall s <- guards :: Plainly(s, ep) && Brings(s) == {}
    ensures ExecAll(db, guards + [last]).Some? <==> (forall s <- guards :: Fine(db, {}, s, ep)) && Exec(db, last).Some?
  {
    hide Exec, Fine, Plainly, Brings;
    ExecConcat(db, guards, [last]);
    ExecIffFine(db, guards, ep);
    FineGuards(db, {}, guards, ep);
    if ExecAll(db, guards).Some? {
      Unchanged(db, ExecAll(db, guards).value, ep);
      ExecOne(db, last);
    }
  }

  lemma Unchanged(db: Db, mid: Db, ep: string)
    requires Extends(db, mid, {}, ep)
    ensures mid == db
  {
  }

  lemma InsertIff(db: Db, k: Key, r: Row)
    ensures Exec(db, Insert(k, r)).Some? <==> k !in db && !Repeats(db, k, r)
  {
    hide UniqueOk, Repeats;
    RepeatsIff(db, k, r);
  }

  lemma UpdateIff(db: Db, k: Key, sets: Columns)
    requires k in db
    ensures Exec(db, Update(k, sets)).Some? <==> !Repeats(db, k, Row(db[k].episode, db[k].cols + sets))
  {
    hide UniqueOk, Repeats;
    RepeatsIff(db, k, Row(db[k].episode, db[k].cols + sets));
  }

  // Columns that are not unique can be set to anything.
  lemma StillSingle(db: Db, k: Key, r: Row)
    requires Sound(db) && k in db && r.episode == db[k].episode
    requires k.table == Episodes ==> Column(r, "episode_key") == Column(db[k], "episode_key")
    requires k.table == Sources ==> Column(r, "root") == Column(db[k], "root") && Column(r, "kind") == Column(db[k], "kind")
    requires k.table != Tasks && k.table != Conflicts
    ensures !Repeats(db, k, r)
  {
    hide Column;
    assert !Repeats(db, k, db[k]);
  }

  // An episode is created under a free id and key.
  lemma CreationAccepted(p: Projection, e: Event)
    requires e.body.payload.EpisodeCreated?
    ensures var d, k := e.body.payload, Key(Episodes, [Text(e.body.episodeId)]);
      Apply(p, e).Some? <==> d.id == e.body.episodeId && k !in p.db && !KeyTaken(p.db, k, Text(d.key))
  {
    hide Apply, Exec, KeyTaken;
    AppliedIff(p, e);
    var d, ep := e.body.payload, e.body.episodeId;
    var k, r, guards := Id(Episodes, ep), Row(ep, d.cols["episode_key" := Text(d.key)]), [Check(d.id == ep)];
    assert Handler(e.body) == guards + [Insert(k, r)];
    GuardsThen(p.db, guards, Insert(k, r), ep);
    assert guards[0] in guards;
    InsertIff(p.db, k, r);
  }

  // A change of key needs a free one; a turn and stakes are always taken.
  lemma EpisodeChangeAccepted(p: Projection, e: Event)
    requires Sound(p.db) && (e.body.payload.TurnStarted? || e.body.payload.StakesChanged? || e.body.payload.EpisodeStateChanged?)
    ensures var d, k := e.body.payload, Key(Episodes, [Text(e.body.episodeId)]);
      Apply(p, e).Some? <==> k in p.db && (d.EpisodeStateChanged? && d.newKey.Some? ==> !KeyTaken(p.db, k, Text(d.newKey.value)))
  {
    hide Apply, Exec, Sound, KeyTaken;
    AppliedIff(p, e);
    var d, k, s := e.body.payload, Id(Episodes, e.body.episodeId), Handler(e.body)[0];
    assert Handler(e.body) == [s];
    if k in p.db {
      ExecOne(p.db, s);
      UpdateIff(p.db, k, s.sets);
      var r := Row(p.db[k].episode, p.db[k].cols + s.sets);
      if !(d.EpisodeStateChanged? && d.newKey.Some?) { StillSingle(p.db, k, r); }
    }
  }

  // One row amended: it must belong to the episode and must not come to repeat another.
  lemma AmendAccepted(p: Projection, e: Event, t: Table, sets: Columns)
    requires !e.body.payload.EpisodeCreated? && Handler(e.body) == Amend(t, e.body.aggregateId, e.body.episodeId, sets)
    ensures var k := Key(t, [Text(e.body.aggregateId)]);
      Apply(p, e).Some? <==>
        && Key(Episodes, [Text(e.body.episodeId)]) in p.db && Entity(p.db, t, e.body.aggregateId, e.body.episodeId)
        && !Repeats(p.db, k, Row(p.db[k].episode, p.db[k].cols + sets))
  {
    hide Apply, UniqueOk, Repeats, Handler, Amend;
    AppliedIff(p, e);
    AmendIsPut(p.db, t, e.body.aggregateId, e.body.episodeId, sets);
    if Entity(p.db, t, e.body.aggregateId, e.body.episodeId) {
      var k := Id(t, e.body.aggregateId);
      RepeatsIff(p.db, k, Row(p.db[k].episode, p.db[k].cols + sets));
    }
  }

  // The table and columns of an event that amends one row and touches no unique column.
  function FreelyAmended(d: Payload): Option<(Table, Columns)> {
    match d
    case SupportActivityChanged(active) => Some((Supports, map["active" := Flag(active)]))
    case JustificationAudited(audit) => Some((Justifications, map["audit_json" := audit]))
    case DefeatActivityChanged(active) => Some((Defeats, map["active" := Flag(active)]))
    case BeliefStatusChanged(to) => Some((Beliefs, map["status" := Text(to)]))
    case BeliefAdmissionChanged(to) => Some((Beliefs, map["admission_status" := Text(to)]))
    case CorroborationChanged(level) => Some((Beliefs, map["corroboration" := Num(level)]))
    case RetractionStateChanged(done) => Some((Notices, map["state" := Text(if done then "acknowledged" else "expired")]))
    case _ => None
  }

  // Such an event is accepted if and only if the row belongs to its episode.
  lemma FreeAmendmentAccepted(p: Projection, e: Event)
    requires FreelyAmended(e.body.payload).Some?
    ensures Apply(p, e).Some? <==>
      Key(Episodes, [Text(e.body.episodeId)]) in p.db
      && Entity(p.db, FreelyAmended(e.body.payload).value.0, e.body.aggregateId, e.body.episodeId)
  {
    hide Apply, Amend;
    var (t, sets) := FreelyAmended(e.body.payload).value;
    AmendAccepted(p, e, t, sets);
  }

  // Counters of a source can always be moved.
  lemma StatsDeltaAccepted(p: Projection, e: Event)
    requires Sound(p.db) && e.body.payload.SourceStatsDelta?
    ensures Apply(p, e).Some? <==>
      Key(Episodes, [Text(e.body.episodeId)]) in p.db && Entity(p.db, Sources, e.body.aggregateId, e.body.episodeId)
  {
    hide Apply, Exec, Sound, Bumped;
    AppliedIff(p, e);
    var ep, agg := e.body.episodeId, e.body.aggregateId;
    var own, last := Own(Sources, agg, ep), Handler(e.body)[1];
    assert Handler(e.body) == [own] + [last];
    GuardsThen(p.db, [own], last, ep);
    assert [own][0] == own;
    FineOwn(p.db, {}, Sources, agg, ep);
    if Entity(p.db, Sources, agg, ep) {
      BumpAccepted(p.db, Id(Sources, agg), last.deltas, last.clamped);
    }
  }

  lemma BumpAccepted(db: Db, k: Key, deltas: map<string, int>, clamped: bool)
    requires Sound(db) && k in db && k.table in {Sources, Episodes}
    requires "root" !in deltas && "kind" !in deltas && "episode_key" !in deltas
    ensures Exec(db, Bump(k, deltas, clamped)).Some?
  {
    hide UniqueOk, Sound, Repeats;
    RepeatsIff(db, k, Bumped(db[k], deltas, clamped));
    StillSingle(db, k, Bumped(db[k], deltas, clamped));
  }

  // A task is completed unless another of the belief and method has that state.
  lemma TaskCompletionAccepted(p: Projection, e: Event)
    requires e.body.payload.TaskCompleted?
    ensures var k := Key(Tasks, [Text(e.body.aggregateId)]);
      Apply(p, e).Some? <==>
        && Key(Episodes, [Text(e.body.episodeId)]) in p.db && Entity(p.db, Tasks, e.body.aggregateId, e.body.episodeId)
        && !TaskTaken(p.db, k, e.body.episodeId, Column(p.db[k], "belief_id"), Column(p.db[k], "method"), Text(e.body.payload.state))
  {
    hide Apply, Amend, TaskTaken;
    AmendAccepted(p, e, Tasks, map["result" := e.body.payload.result, "state" := Text(e.body.payload.state)]);
  }

  // A conflict is resolved unless one of the pair was before.
  lemma ResolutionAccepted(p: Projection, e: Event)
    requires e.body.payload.ConflictResolved?
    ensures var k := Key(Conflicts, [Text(e.body.aggregateId)]);
      Apply(p, e).Some? <==>
        && Key(Episodes, [Text(e.body.episodeId)]) in p.db && Entity(p.db, Conflicts, e.body.aggregateId, e.body.episodeId)
        && !PairTaken(p.db, k, e.body.episodeId, Column(p.db[k], "left_belief_id"), Column(p.db[k], "right_belief_id"), Text("resolved"))
  {
    hide Apply, Amend, PairTaken;
    AmendAccepted(p, e, Conflicts, map["state" := Text("resolved")]);
  }

  lemma StatsUpdateAccepted(p: Projection, e: Event)
    requires e.body.payload.SourceStatsUpdated?
    ensures var k, cols := Key(Sources, [Text(e.body.aggregateId)]), e.body.payload.cols;
      Apply(p, e).Some? <==>
        && Key(Episodes, [Text(e.body.episodeId)]) in p.db && Entity(p.db, Sources, e.body.aggregateId, e.body.episodeId)
        && !SourceTaken(p.db, k, e.body.episodeId, if "root" in cols then cols["root"] else Column(p.db[k], "root"),
                        if "kind" in cols then cols["kind"] else Column(p.db[k], "kind"))
  {
    hide Apply, Amend, SourceTaken;
    AmendAccepted(p, e, Sources, e.body.payload.cols);
  }

  /******* One row inserted *******/

  // Checks, then one insert.
  lemma InsertAccepted(p: Projection, e: Event, guards: seq<Stmt>, k: Key, r: Row)
    requires !e.body.payload.EpisodeCreated? && Handler(e.body) == guards + [Insert(k, r)]
    requires forall s <- guards :: Plainly(s, e.body.episodeId) && Brings(s) == {}
    ensures Apply(p, e).Some? <==>
      && Key(Episodes, [Text(e.body.episodeId)]) in p.db
      && (forall s <- guards :: Fine(p.db, {}, s, e.body.episodeId))
      && k !in p.db && !Repeats(p.db, k, r)
  {
    hide Apply, Exec, Repeats, Handler, Plainly, Brings, Fine;
    AppliedIff(p, e);
    GuardsThen(p.db, guards, Insert(k, r), e.body.episodeId);
    InsertIff(p.db, k, r);
  }

  lemma SourceAccepted(p: Projection, e: Event)
    requires e.body.payload.SourceRegistered?
    ensures var d, ep := e.body.payload, e.body.episodeId;
      var k := Key(Sources, [Text(d.id)]);
      Apply(p, e).Some? <==>
        Key(Episodes, [Text(ep)]) in p.db && d.owner == ep && k !in p.db && !SourceTaken(p.db, k, ep, Text(d.root), Text(d.kind))
  {
    hide Apply, SourceTaken;
    var d, ep := e.body.payload, e.body.episodeId;
    var guards := [Check(d.owner == ep)];
    assert guards[0] in guards;
    InsertAccepted(p, e, guards, Id(Sources, d.id), Row(ep, d.cols["root" := Text(d.root)]["kind" := Text(d.kind)]));
  }

  lemma EvidenceAccepted(p: Projection, e: Event)
    requires e.body.payload.EvidenceIngested?
    ensures var d, ep := e.body.payload, e.body.episodeId;
      Apply(p, e).Some? <==>
        && Key(Episodes, [Text(ep)]) in p.db && d.owner == ep
        && Entity(p.db, Sources, d.source, ep) && Key(Evidence, [Text(d.id)]) !in p.db
  {
    hide Apply;
    var d, ep := e.body.payload, e.body.episodeId;
    var guards := [Check(d.owner == ep), Own(Sources, d.source, ep)];
    assert guards[0] in guards && guards[1] in guards;
    FineOwn(p.db, {}, Sources, d.source, ep);
    InsertAccepted(p, e, guards, Id(Evidence, d.id), Row(ep, d.cols["source_id" := Text(d.source)]));
  }

  lemma SupportAccepted(p: Projection, e: Event)
    requires e.body.payload.SupportAdded?
    ensures var d, ep := e.body.payload, e.body.episodeId;
      Apply(p, e).Some? <==>
        && Key(Episodes, [Text(ep)]) in p.db && d.owner == ep && Entity(p.db, Beliefs, d.belief, ep)
        && Entity(p.db, Evidence, d.evidenceId, ep) && Key(Supports, [Text(d.id)]) !in p.db
  {
    hide Apply;
    var d, ep := e.body.payload, e.body.episodeId;
    var guards := [Check(d.owner == ep), Own(Beliefs, d.belief, ep), Own(Evidence, d.evidenceId, ep)];
    assert guards[0] in guards && guards[1] in guards && guards[2] in guards;
    FineOwn(p.db, {}, Beliefs, d.belief, ep);
    FineOwn(p.db, {}, Evidence, d.evidenceId, ep);
    InsertAccepted(p, e, guards, Id(Supports, d.id),
                   Row(ep, d.cols["belief_id" := Text(d.belief)]["evidence_id" := Text(d.evidenceId)]));
  }

  lemma DefeatAccepted(p: Projection, e: Event)
    requires e.body.payload.DefeatAdded?
    ensures var d, ep := e.body.payload, e.body.episodeId;
      Apply(p, e).Some? <==>
        && Key(Episodes, [Text(ep)]) in p.db && d.owner == ep && Entity(p.db, Beliefs, d.attacker, ep)
        && (Entity(p.db, Beliefs, d.target, ep) || Entity(p.db, Justifications, d.target, ep))
        && Key(Defeats, [Text(d.id)]) !in p.db
  {
    hide Apply;
    var d, ep := e.body.payload, e.body.episodeId;
    var either := [Id(Beliefs, d.target), Id(Justifications, d.target)];
    var guards := [Check(d.owner == ep), Own(Beliefs, d.attacker, ep), Owned(either, ep)];
    assert guards[0] in guards && guards[1] in guards && guards[2] in guards && either[0] in either && either[1] in either;
    FineOwn(p.db, {}, Beliefs, d.attacker, ep);
    InsertAccepted(p, e, guards, Id(Defeats, d.id),
                   Row(ep, d.cols["attacker" := Text(d.attacker)]["target" := Text(d.target)]["active" := Flag(d.active)]));
  }

  lemma TaskAccepted(p: Projection, e: Event)
    requires e.body.payload.TaskCreated?
    ensures var d, ep := e.body.payload, e.body.episodeId;
      var k := Key(Tasks, [Text(d.id)]);
      Apply(p, e).Some? <==>
        && Key(Episodes, [Text(ep)]) in p.db && d.owner == ep && Entity(p.db, Beliefs, d.belief, ep)
        && k !in p.db && !TaskTaken(p.db, k, ep, Text(d.belief), Text(d.method_), Text(d.state))
  {
    hide Apply, TaskTaken;
    var d, ep := e.body.payload, e.body.episodeId;
    var guards := [Check(d.owner == ep), Own(Beliefs, d.belief, ep)];
    assert guards[0] in guards && guards[1] in guards;
    FineOwn(p.db, {}, Beliefs, d.belief, ep);
    InsertAccepted(p, e, guards, Id(Tasks, d.id),
                   Row(ep, d.cols["belief_id" := Text(d.belief)]["method" := Text(d.method_)]["state" := Text(d.state)]));
  }

  lemma ConflictAccepted(p: Projection, e: Event)
    requires e.body.payload.ConflictOpened?
    ensures var d, ep := e.body.payload, e.body.episodeId;
      var k := Key(Conflicts, [Text(d.id)]);
      Apply(p, e).Some? <==>
        && Key(Episodes, [Text(ep)]) in p.db && d.owner == ep && Entity(p.db, Beliefs, d.left, ep)
        && Entity(p.db, Beliefs, d.right, ep) && Entity(p.db, Tasks, d.task, ep)
        && k !in p.db && !PairTaken(p.db, k, ep, Text(d.left), Text(d.right), Text(d.state))
  {
    hide Apply, PairTaken, Fine, Plainly, Brings;
    var d, ep := e.body.payload, e.body.episodeId;
    var guards := [Check(d.owner == ep), Own(Beliefs, d.left, ep), Own(Beliefs, d.right, ep), Own(Tasks, d.task, ep)];
    assert guards[0] in guards && guards[1] in guards && guards[2] in guards && guards[3] in guards;
    CheckFine(p.db, d.owner == ep, ep);
    OwnFine(p.db, Beliefs, d.left, ep);
    OwnFine(p.db, Beliefs, d.right, ep);
    OwnFine(p.db, Tasks, d.task, ep);
    InsertAccepted(p, e, guards, Id(Conflicts, d.id),
      Row(ep, d.cols["left_belief_id" := Text(d.left)]["right_belief_id" := Text(d.right)]["state" := Text(d.state)]));
  }

  lemma NoticeAccepted(p: Projection, e: Event)
    requires e.body.payload.RetractionCreated?
    ensures var d, ep := e.body.payload, e.body.episodeId;
      Apply(p, e).Some? <==>
        && Key(Episodes, [Text(ep)]) in p.db && d.owner == ep && Entity(p.db, Beliefs, d.belief, ep)
        && (forall x <- d.descendants :: Entity(p.db, Beliefs, x, ep)) && Key(Notices, [Text(d.id)]) !in p.db
  {
    hide Apply, Fine, Plainly, Brings, OwnEach;
    var d, ep := e.body.payload, e.body.episodeId;
    var ids := [d.belief] + d.descendants;
    var guards := [Check(d.owner == ep)] + OwnEach(ids, ep);
    OwnEachFirst(d.belief, d.descendants, ep);
    CheckFine(p.db, d.owner == ep, ep);
    EachOwned(p.db, {}, ids, ep);
    assert ids[0] == d.belief && (forall x <- d.descendants :: x in ids);
    assert guards[0] in guards && forall s <- OwnEach(ids, ep) :: s in guards;
    InsertAccepted(p, e, guards, Id(Notices, d.id),
                   Row(ep, d.cols["defeated_belief_id" := Text(d.belief)]["state" := Text(d.state)]));
  }

  lemma OwnEachFirst(first: string, rest: seq<string>, ep: string)
    ensures forall ok :: [Check(ok)] + OwnEach([first] + rest, ep) == [Check(ok), Own(Beliefs, first, ep)] + OwnEach(rest, ep)
  {
  }

  lemma CheckFine(db: Db, ok: bool, ep: string)
    ensures Plainly(Check(ok), ep) && Brings(Check(ok)) == {} && (Fine(db, {}, Check(ok), ep) <==> ok)
  {
  }

  lemma EachOwned(db: Db, added: set<Key>, ids: seq<string>, ep: string)
    requires forall x <- ids :: Key(Beliefs, [Text(x)]) !in added
    ensures forall s <- OwnEach(ids, ep) :: Plainly(s, ep) && Brings(s) == {}
    ensures (forall s <- OwnEach(ids, ep) :: Fine(db, added, s, ep)) <==> forall x <- ids :: Entity(db, Beliefs, x, ep)
  {
    forall x | x in ids ensures Own(Beliefs, x, ep) in OwnEach(ids, ep) {
      var i :| 0 <= i < |ids| && ids[i] == x;
      assert OwnEach(ids, ep)[i] == Own(Beliefs, x, ep);
    }
    forall x | x in ids ensures Fine(db, added, Own(Beliefs, x, ep), ep) <==> Entity(db, Beliefs, x, ep) {
      FineOwn(db, added, Beliefs, x, ep);
    }
  }

  lemma VerdictAccepted(p: Projection, e: Event)
    requires e.body.payload.VerdictRecorded?
    ensures var d, ep := e.body.payload, e.body.episodeId;
      Apply(p, e).Some? <==>
        && Key(Episodes, [Text(ep)]) in p.db && d.owner == ep
        && (d.about.Some? ==> Entity(p.db, Beliefs, d.about.value, ep)) && Key(Verdicts, [Text(d.id)]) !in p.db
  {
    hide Apply;
    var d, ep := e.body.payload, e.body.episodeId;
    var guards := [Check(d.owner == ep)] + if d.about.Some? then [Own(Beliefs, d.about.value, ep)] else [];
    assert guards[0] in guards;
    if d.about.Some? {
      assert guards[1] in guards;
      FineOwn(p.db, {}, Beliefs, d.about.value, ep);
    }
    InsertAccepted(p, e, guards, Id(Verdicts, d.id), Row(ep, d.cols));
  }

  lemma RecordAccepted(p: Projection, e: Event)
    requires e.body.payload.LintRecorded? || e.body.payload.GateDecided? || e.body.payload.ResponseRecorded?
    ensures var d := e.body.payload;
      var t := if d.LintRecorded? then LintReports else if d.GateDecided? then GateDecisions else Responses;
      Apply(p, e).Some? <==> Key(Episodes, [Text(e.body.episodeId)]) in p.db && Key(t, [Text(e.body.id)]) !in p.db
  {
    hide Apply;
    var d := e.body.payload;
    var t := if d.LintRecorded? then LintReports else if d.GateDecided? then GateDecisions else Responses;
    InsertAccepted(p, e, [], Id(t, e.body.id), Row(e.body.episodeId, d.cols));
  }

  /******* The other events *******/

  // A refresh needs its belief and its evidence.
  lemma RefreshAccepted(p: Projection, e: Event)
    requires Sound(p.db) && e.body.payload.ObservationRefreshed?
    ensures var d, ep := e.body.payload, e.body.episodeId;
      Apply(p, e).Some? <==>
        && Key(Episodes, [Text(ep)]) in p.db
        && Entity(p.db, Beliefs, e.body.aggregateId, ep) && Entity(p.db, Evidence, d.evidenceId, ep)
  {
    hide Apply, Exec, Sound, Fine, Plainly, Brings, Repeats;
    AppliedIff(p, e);
    var d, ep, agg := e.body.payload, e.body.episodeId, e.body.aggregateId;
    var guards := [Own(Beliefs, agg, ep), Own(Evidence, d.evidenceId, ep)];
    var k, sets := Id(Beliefs, agg), map["observed_at" := Text(d.at)];
    var link := InsertIgnore(In(BeliefEvidence, ep, [Text(agg), Text(d.evidenceId), d.span]), Row(ep, map["span_json" := d.span]));
    assert Handler(e.body) == (guards + [Update(k, sets)]) + [link];
    ExecConcat(p.db, guards + [Update(k, sets)], [link]);
    OwnsFine(p.db, guards, Beliefs, agg, Evidence, d.evidenceId, ep);
    GuardsThen(p.db, guards, Update(k, sets), ep);
    if Entity(p.db, Beliefs, agg, ep) {
      UpdateIff(p.db, k, sets);
      StillSingle(p.db, k, Row(ep, p.db[k].cols + sets));
    }
    if ExecAll(p.db, guards + [Update(k, sets)]).Some? {
      var mid := ExecAll(p.db, guards + [Update(k, sets)]).value;
      ExecOne(mid, link);
      IgnoreAccepted(mid, link);
    }
  }

  lemma OwnsFine(db: Db, guards: seq<Stmt>, t: Table, id: string, u: Table, other: string, ep: string)
    requires guards == [Own(t, id, ep), Own(u, other, ep)]
    ensures forall s <- guards :: Plainly(s, ep) && Brings(s) == {}
    ensures (forall s <- guards :: Fine(db, {}, s, ep)) <==> Entity(db, t, id, ep) && Entity(db, u, other, ep)
  {
    assert guards[0] in guards && guards[1] in guards;
    FineOwn(db, {}, t, id, ep);
    FineOwn(db, {}, u, other, ep);
  }

  lemma IgnoreAccepted(db: Db, s: Stmt)
    requires s.InsertIgnore? && UniqueColumns(s.key.table) == []
    ensures Exec(db, s).Some?
  {
    hide UniqueOk;
    FreeTable(db, s.key, s.row);
  }

  // Usage needs an id of its own; the episode's totals can always be moved.
  lemma UsageAccepted(p: Projection, e: Event)
    requires Sound(p.db) && e.body.payload.UsageRecorded?
    ensures var d, ep := e.body.payload, e.body.episodeId;
      Apply(p, e).Some? <==> Key(Episodes, [Text(ep)]) in p.db && d.owner == ep && Key(Usage, [Text(d.id)]) !in p.db
  {
    hide Apply, Exec, Sound, Fine, Plainly, Brings, Repeats;
    AppliedIff(p, e);
    var d, ep := e.body.payload, e.body.episodeId;
    var k, r := Id(Usage, d.id), Row(ep, d.cols["input_tokens" := Num(d.inputTokens)]["output_tokens" := Num(d.outputTokens)]);
    var guards, bump := [Check(d.owner == ep)], Handler(e.body)[2];
    assert Handler(e.body) == (guards + [Insert(k, r)]) + [bump];
    ExecConcat(p.db, guards + [Insert(k, r)], [bump]);
    CheckFine(p.db, d.owner == ep, ep);
    assert guards[0] in guards;
    GuardsThen(p.db, guards, Insert(k, r), ep);
    NeverRepeats(p.db, k, r);
    InsertIff(p.db, k, r);
    if ExecAll(p.db, guards + [Insert(k, r)]).Some? && Id(Episodes, ep) in p.db {
      var mid := ExecAll(p.db, guards + [Insert(k, r)]).value;
      ListKeepsSound(p.db, guards + [Insert(k, r)]);
      KeysStay(p.db, guards + [Insert(k, r)]);
      ExecOne(mid, bump);
      BumpAccepted(mid, Id(Episodes, ep), bump.deltas, bump.clamped);
    }
  }

  lemma NeverRepeats(db: Db, k: Key, r: Row)
    requires UniqueColumns(k.table) == []
    ensures !Repeats(db, k, r)
  {
  }

  // Evidence of the episode can always be marked as unpromoted, and unmarking is always taken.
  lemma UnpromotedAccepted(p: Projection, e: Event)
    requires e.body.payload.UnpromotedAdded? || e.body.payload.UnpromotedFinished? || e.body.payload.Unprojected?
    ensures Apply(p, e).Some? <==>
      && Key(Episodes, [Text(e.body.episodeId)]) in p.db
      && (e.body.payload.UnpromotedAdded? ==> Entity(p.db, Evidence, e.body.payload.evidenceId, e.body.episodeId))
  {
    hide Apply, Exec, Fine, Plainly, Brings;
    AppliedIff(p, e);
    var d, ep := e.body.payload, e.body.episodeId;
    if d.UnpromotedAdded? {
      var own, last := Own(Evidence, d.evidenceId, ep), Handler(e.body)[1];
      assert Handler(e.body) == [own] + [last];
      OwnFine(p.db, Evidence, d.evidenceId, ep);
      assert [own][0] in [own];
      GuardsThen(p.db, [own], last, ep);
      WriteAccepted(p.db, last);
    } else if d.UnpromotedFinished? {
      ExecOne(p.db, Handler(e.body)[0]);
      assert Handler(e.body) == [Handler(e.body)[0]];
      WriteAccepted(p.db, Handler(e.body)[0]);
    }
  }

  lemma OwnFine(db: Db, t: Table, id: string, ep: string)
    ensures Plainly(Own(t, id, ep), ep) && Brings(Own(t, id, ep)) == {}
    ensures Fine(db, {}, Own(t, id, ep), ep) <==> Entity(db, t, id, ep)
  {
    FineOwn(db, {}, t, id, ep);
  }

  lemma WriteAccepted(db: Db, s: Stmt)
    requires (s.Replace? || s.Update?) && UniqueColumns(s.key.table) == []
    ensures Exec(db, s).Some?
  {
    hide UniqueOk;
    forall r: Row ensures UniqueOk(db, s.key, r) { FreeTable(db, s.key, r); }
  }

  // A context needs every belief it shows.
  lemma ContextAccepted(p: Projection, e: Event)
    requires e.body.payload.ContextCompiled?
    ensures var d, ep := e.body.payload, e.body.episodeId;
      Apply(p, e).Some? <==> Key(Episodes, [Text(ep)]) in p.db && forall r <- d.rendered :: Entity(p.db, Beliefs, r.belief, ep)
  {
    hide Apply, AllFine, RenderedStmts;
    AppliedIff(p, e);
    RenderedFine(p.db, e.body.payload.rendered, e.body.episodeId);
    ExecIffFine(p.db, RenderedStmts(e.body.payload.rendered, e.body.episodeId), e.body.episodeId);
  }

  lemma {:induction false} RenderedFine(db: Db, rs: seq<RenderedRef>, ep: string)
    ensures forall s <- RenderedStmts(rs, ep) :: Plainly(s, ep)
    ensures forall k <- AllBring(RenderedStmts(rs, ep)) :: k.table == Rendered
    ensures AllFine(db, {}, RenderedStmts(rs, ep), ep) <==> forall r <- rs :: Entity(db, Beliefs, r.belief, ep)
    decreases |rs|
  {
    hide Fine, AllFine, AllBring, RenderedStmts;
    if rs == [] {
      NoStatements(db, {}, ep);
      NothingRendered(ep);
    } else {
      var init, r := rs[..|rs| - 1], rs[|rs| - 1];
      assert rs == init + [r] && r in rs && forall x <- init :: x in rs;
      RenderedFine(db, init, ep);
      var before := RenderedStmts(init, ep);
      var own := Own(Beliefs, r.belief, ep);
      var put := InsertIgnore(In(Rendered, ep, [Text(r.belief), Text(r.requestId)]), Row(ep, r.cols));
      RenderedMore(rs, ep);
      FineConcat(db, {}, before, [own, put], ep);
      FinePair(db, {} + AllBring(before), own, put, ep);
      FineOwn(db, {} + AllBring(before), Beliefs, r.belief, ep);
      IgnoreFine(db, {} + AllBring(before) + Brings(own), put, ep);
    }
  }

  lemma NothingRendered(ep: string)
    ensures RenderedStmts([], ep) == []
  {
  }

  lemma RenderedMore(rs: seq<RenderedRef>, ep: string)
    requires rs != []
    ensures var r := rs[|rs| - 1];
      RenderedStmts(rs, ep) == RenderedStmts(rs[..|rs| - 1], ep)
        + [Own(Beliefs, r.belief, ep), InsertIgnore(In(Rendered, ep, [Text(r.belief), Text(r.requestId)]), Row(ep, r.cols))]
  {
  }

  lemma FineOne(db: Db, added: set<Key>, s: Stmt, ep: string)
    ensures AllBring([s]) == Brings(s) && (AllFine(db, added, [s], ep) <==> Fine(db, added, s, ep))
  {
    hide Fine, Brings;
    assert [s][..0] == [] && added + {} == added;
    assert AllBring([]) == {} && AllFine(db, added, [], ep);
  }

  lemma FinePair(db: Db, added: set<Key>, a: Stmt, b: Stmt, ep: string)
    ensures AllBring([a, b]) == Brings(a) + Brings(b)
    ensures AllFine(db, added, [a, b], ep) <==> Fine(db, added, a, ep) && Fine(db, added + Brings(a), b, ep)
  {
    hide Fine, Brings, AllFine, AllBring;
    assert [a, b] == [a] + [b];
    FineConcat(db, added, [a], [b], ep);
    FineOne(db, added, a, ep);
    FineOne(db, added + Brings(a), b, ep);
  }

  lemma IgnoreFine(db: Db, added: set<Key>, s: Stmt, ep: string)
    requires s.InsertIgnore?
    ensures Fine(db, added, s, ep)
  {
  }

  /******* Justifications and beliefs *******/

  // The belief is of the episode, or has just come in.
  predicate BeliefKnown(db: Db, added: set<Key>, id: string, ep: string) {
    var k := Key(Beliefs, [Text(id)]);
    if k in db then db[k].episode == ep else k in added
  }

  predicate Free(db: Db, added: set<Key>, k: Key) {
    k !in db && k !in added
  }

  // Its beliefs are known, and its keys are free.
  predicate JustificationFits(db: Db, added: set<Key>, j: JustificationRecord, ep: string) {
    && BeliefKnown(db, added, j.belief, ep) && (forall x <- j.premises :: BeliefKnown(db, added, x, ep))
    && Free(db, added, Key(Justifications, [Text(j.id)]))
    && forall i: nat | i < |j.premises| :: Free(db, added, PremiseKey(j, i, ep))
  }

  lemma KnownFine(db: Db, added: set<Key>, id: string, ep: string)
    ensures Plainly(Own(Beliefs, id, ep), ep) && Brings(Own(Beliefs, id, ep)) == {}
    ensures Fine(db, added, Own(Beliefs, id, ep), ep) <==> BeliefKnown(db, added, id, ep)
  {
    assert Id(Beliefs, id) in [Id(Beliefs, id)];
  }

  lemma EachKnown(db: Db, added: set<Key>, ids: seq<string>, ep: string)
    ensures forall s <- OwnEach(ids, ep) :: Plainly(s, ep) && Brings(s) == {}
    ensures AllBring(OwnEach(ids, ep)) == {}
    ensures AllFine(db, added, OwnEach(ids, ep), ep) <==> forall x <- ids :: BeliefKnown(db, added, x, ep)
  {
    hide BeliefKnown, Fine, Plainly, Brings;
    forall i | 0 <= i < |ids|
      ensures OwnEach(ids, ep)[i] == Own(Beliefs, ids[i], ep)
      ensures Plainly(Own(Beliefs, ids[i], ep), ep) && Brings(Own(Beliefs, ids[i], ep)) == {}
      ensures Fine(db, added, Own(Beliefs, ids[i], ep), ep) <==> BeliefKnown(db, added, ids[i], ep)
    {
      KnownFine(db, added, ids[i], ep);
    }
    FineGuards(db, added, OwnEach(ids, ep), ep);
    assert forall i | 0 <= i < |ids| :: ids[i] in ids && OwnEach(ids, ep)[i] in OwnEach(ids, ep);
  }

  function PremiseInserts(j: JustificationRecord, ep: string): seq<Stmt> {
    seq(|j.premises|, i requires 0 <= i < |j.premises| =>
      Insert(In(Premises, ep, [Text(j.id), Num(i)]), Row(ep, map["premise_belief_id" := Text(j.premises[i])])))
  }

  lemma PremisesFine(db: Db, added: set<Key>, j: JustificationRecord, ep: string)
    ensures forall s <- PremiseInserts(j, ep) :: Plainly(s, ep)
    ensures forall k :: k in AllBring(PremiseInserts(j, ep)) <==> exists i: nat | i < |j.premises| :: PremiseKey(j, i, ep) == k
    ensures AllFine(db, added, PremiseInserts(j, ep), ep) <==> forall i: nat | i < |j.premises| :: Free(db, added, PremiseKey(j, i, ep))
  {
    var stmts := PremiseInserts(j, ep);
    forall i: nat | i < |j.premises| ensures stmts[i].key == PremiseKey(j, i, ep) {
      assert [Text(ep)] + [Text(j.id), Num(i)] == [Text(ep), Text(j.id), Num(i)];
    }
    forall i: nat, l: nat | i < l < |j.premises| ensures stmts[i].key != stmts[l].key {
      assert PremiseKey(j, i, ep).pk[2] != PremiseKey(j, l, ep).pk[2];
    }
    FineInserts(db, added, stmts, ep);
  }

  lemma JustificationFine(db: Db, added: set<Key>, j: JustificationRecord, ep: string)
    ensures forall s <- JustificationStmts(j, ep) :: Plainly(s, ep)
    ensures forall k :: k in AllBring(JustificationStmts(j, ep)) <==> JustificationPart(k, j, ep)
    ensures AllFine(db, added, JustificationStmts(j, ep), ep) <==> JustificationFits(db, added, j, ep)
  {
    hide Fine, AllFine, AllBring, OwnEach, PremiseInserts, BeliefKnown, PremiseKey;
    var own, each := Own(Beliefs, j.belief, ep), OwnEach(j.premises, ep);
    var put, rest := Insert(Id(Justifications, j.id), Row(ep, j.cols["belief_id" := Text(j.belief)])), PremiseInserts(j, ep);
    StatementsOf(j, ep);
    var k := Key(Justifications, [Text(j.id)]);
    FineConcat(db, added, [own] + each + [put], rest, ep);
    FineConcat(db, added, [own] + each, [put], ep);
    FineConcat(db, added, [own], each, ep);
    FineOne(db, added, own, ep);
    KnownFine(db, added, j.belief, ep);
    EachKnown(db, added, j.premises, ep);
    assert added + AllBring([own]) == added && added + AllBring([own] + each) == added;
    FineOne(db, added, put, ep);
    PutFine(db, added, put, ep);
    assert added + AllBring([own] + each + [put]) == added + {k};
    PremisesFine(db, added + {k}, j, ep);
    forall i: nat | i < |j.premises| ensures PremiseKey(j, i, ep) != k {
      PremiseTable(j, i, ep);
    }
  }

  lemma StatementsOf(j: JustificationRecord, ep: string)
    ensures JustificationStmts(j, ep)
         == [Own(Beliefs, j.belief, ep)] + OwnEach(j.premises, ep)
            + [Insert(Id(Justifications, j.id), Row(ep, j.cols["belief_id" := Text(j.belief)]))] + PremiseInserts(j, ep)
  {
  }

  lemma PutFine(db: Db, added: set<Key>, s: Stmt, ep: string)
    requires s.Insert? || s.InsertCopying?
    ensures Brings(s) == {s.key} && (Fine(db, added, s, ep) <==> Free(db, added, s.key))
  {
  }

  lemma PremiseTable(j: JustificationRecord, i: nat, ep: string)
    ensures PremiseKey(j, i, ep).table == Premises
  {
  }

  // A justification needs its beliefs and keys that are free.
  lemma JustificationAccepted(p: Projection, e: Event)
    requires e.body.payload.JustificationAdded?
    ensures var j, ep := e.body.payload.record, e.body.episodeId;
      Apply(p, e).Some? <==>
        && Key(Episodes, [Text(ep)]) in p.db
        && Entity(p.db, Beliefs, j.belief, ep) && (forall x <- j.premises :: Entity(p.db, Beliefs, x, ep))
        && Key(Justifications, [Text(j.id)]) !in p.db
        && forall i: nat | i < |j.premises| :: Key(Premises, [Text(ep), Text(j.id), Num(i)]) !in p.db
  {
    hide Apply, AllFine, JustificationStmts;
    var j, ep := e.body.payload.record, e.body.episodeId;
    AppliedIff(p, e);
    JustificationFine(p.db, {}, j, ep);
    ExecIffFine(p.db, JustificationStmts(j, ep), ep);
    forall i: nat | i < |j.premises| ensures PremiseKey(j, i, ep) == Key(Premises, [Text(ep), Text(j.id), Num(i)]) {
    }
  }

  // Each fits by itself, and no two have one id.
  predicate JustificationsFit(db: Db, added: set<Key>, js: seq<JustificationRecord>, ep: string) {
    && (forall m | 0 <= m < |js| :: JustificationFits(db, added, js[m], ep))
    && (forall m, n | 0 <= m < n < |js| :: js[m].id != js[n].id)
  }

  ghost predicate JustificationKeys(keys: set<Key>, js: seq<JustificationRecord>, ep: string) {
    forall k :: k in keys <==> exists m | 0 <= m < |js| :: JustificationPart(k, js[m], ep)
  }

  lemma {:induction false} JustificationsFine(db: Db, added: set<Key>, js: seq<JustificationRecord>, ep: string)
    ensures forall s <- AllJustifications(js, ep) :: Plainly(s, ep)
    ensures JustificationKeys(AllBring(AllJustifications(js, ep)), js, ep)
    ensures AllFine(db, added, AllJustifications(js, ep), ep) <==> JustificationsFit(db, added, js, ep)
    decreases |js|
  {
    hide AllFine, AllBring, JustificationStmts, JustificationFits, JustificationPart;
    if js == [] {
      assert AllBring([]) == {} && AllFine(db, added, [], ep) by { NoStatements(db, added, ep); }
    } else {
      var init, last := js[..|js| - 1], js[|js| - 1];
      JustificationsFine(db, added, init, ep);
      var before := AllJustifications(init, ep);
      FineConcat(db, added, before, JustificationStmts(last, ep), ep);
      JustificationFine(db, added + AllBring(before), last, ep);
      FitsAfter(db, added, AllBring(before), init, last, ep);
      assert forall m | 0 <= m < |init| :: js[m] == init[m];
    }
  }

  lemma NoStatements(db: Db, added: set<Key>, ep: string)
    ensures AllBring([]) == {} && AllFine(db, added, [], ep)
  {
  }

  lemma FitsAfter(db: Db, added: set<Key>, keys: set<Key>, js: seq<JustificationRecord>, j: JustificationRecord, ep: string)
    requires JustificationKeys(keys, js, ep)
    ensures JustificationFits(db, added + keys, j, ep)
       <==> JustificationFits(db, added, j, ep) && forall m | 0 <= m < |js| :: js[m].id != j.id
  {
    var k := Key(Justifications, [Text(j.id)]);
    forall x: string ensures Key(Beliefs, [Text(x)]) !in keys {
    }
    if k in keys {
      var m :| 0 <= m < |js| && JustificationPart(k, js[m], ep);
      assert js[m].id == j.id;
    }
    forall m | 0 <= m < |js| && js[m].id == j.id ensures k in keys {
      assert JustificationPart(k, js[m], ep);
    }
    forall i: nat | i < |j.premises| && PremiseKey(j, i, ep) in keys ensures k in keys {
      var m :| 0 <= m < |js| && JustificationPart(PremiseKey(j, i, ep), js[m], ep);
      var l :| 0 <= l < |js[m].premises| && PremiseKey(j, i, ep) == PremiseKey(js[m], l, ep);
      assert PremiseKey(j, i, ep).pk[1] == PremiseKey(js[m], l, ep).pk[1];
      assert JustificationPart(k, js[m], ep);
    }
  }

  // The first links of a belief to its evidence.
  function Links(b: Payload, n: nat, ep: string): seq<Stmt>
    requires b.BeliefAdmitted? && n <= |b.evidence|
  {
    seq(n, i requires 0 <= i < n => EvidenceLink(b.id, b.evidence[i], ep))
  }

  // A link with a span needs a key of its own; one without is kept once.
  predicate LinkFits(db: Db, added: set<Key>, b: Payload, i: nat, ep: string)
    requires b.BeliefAdmitted? && i < |b.evidence|
  {
    b.evidence[i].span != Null ==> Free(db, added, LinkKey(b, i, ep)) && forall j | 0 <= j < i :: b.evidence[j] != b.evidence[i]
  }

  lemma LinkIs(b: Payload, i: nat, ep: string)
    requires b.BeliefAdmitted? && i < |b.evidence|
    ensures var s := EvidenceLink(b.id, b.evidence[i], ep);
      && Plainly(s, ep) && Brings(s) == {LinkKey(b, i, ep)}
      && (b.evidence[i].span == Null ==> s.InsertIgnore?)
      && (b.evidence[i].span != Null ==> s.Insert? && s.key == LinkKey(b, i, ep))
  {
    assert [Text(ep)] + [Text(b.id), Text(b.evidence[i].evidenceId), b.evidence[i].span]
        == [Text(ep), Text(b.id), Text(b.evidence[i].evidenceId), b.evidence[i].span];
  }

  lemma SameLink(b: Payload, i: nat, j: nat, ep: string)
    requires b.BeliefAdmitted? && i < |b.evidence| && j < |b.evidence|
    ensures LinkKey(b, i, ep) == LinkKey(b, j, ep) <==> b.evidence[i] == b.evidence[j]
  {
    var x, y := LinkKey(b, i, ep).pk, LinkKey(b, j, ep).pk;
    if x == y {
      assert x[2] == y[2] && x[3] == y[3];
    }
  }

  lemma {:induction false} LinksFine(db: Db, added: set<Key>, b: Payload, n: nat, ep: string)
    requires b.BeliefAdmitted? && n <= |b.evidence|
    ensures forall s <- Links(b, n, ep) :: Plainly(s, ep)
    ensures forall k :: k in AllBring(Links(b, n, ep)) <==> exists i: nat | i < n :: LinkKey(b, i, ep) == k
    ensures AllFine(db, added, Links(b, n, ep), ep) <==> forall i: nat | i < n :: LinkFits(db, added, b, i, ep)
    decreases n
  {
    hide AllFine, AllBring, EvidenceLink, LinkKey, Plainly;
    if n == 0 {
      NoStatements(db, added, ep);
      assert Links(b, n, ep) == [];
    } else {
      var m, s := n - 1, EvidenceLink(b.id, b.evidence[n - 1], ep);
      LinksFine(db, added, b, m, ep);
      LinkIs(b, m, ep);
      assert Links(b, n, ep) == Links(b, m, ep) + [s];
      FineConcat(db, added, Links(b, m, ep), [s], ep);
      FineOne(db, added + AllBring(Links(b, m, ep)), s, ep);
      LinkFine(db, added, AllBring(Links(b, m, ep)), b, m, ep);
    }
  }

  lemma LinkFine(db: Db, added: set<Key>, before: set<Key>, b: Payload, m: nat, ep: string)
    requires b.BeliefAdmitted? && m < |b.evidence|
    requires forall k :: k in before <==> exists i: nat | i < m :: LinkKey(b, i, ep) == k
    ensures Fine(db, added + before, EvidenceLink(b.id, b.evidence[m], ep), ep) <==> LinkFits(db, added, b, m, ep)
  {
    hide EvidenceLink, LinkKey;
    LinkIs(b, m, ep);
    forall i: nat | i < m ensures LinkKey(b, i, ep) == LinkKey(b, m, ep) <==> b.evidence[i] == b.evidence[m] {
      SameLink(b, i, m, ep);
    }
    forall i: nat | i < m ensures LinkKey(b, i, ep) in before {
    }
  }

  lemma LinkTable(b: Payload, i: nat, ep: string)
    requires b.BeliefAdmitted? && i < |b.evidence|
    ensures LinkKey(b, i, ep).table == BeliefEvidence
  {
  }

  function OwnEvidence(b: Payload, ep: string): seq<Stmt>
    requires b.BeliefAdmitted?
  {
    seq(|b.evidence|, i requires 0 <= i < |b.evidence| => Own(Evidence, b.evidence[i].evidenceId, ep))
  }

  lemma OwnEvidenceFine(db: Db, b: Payload, ep: string)
    requires b.BeliefAdmitted?
    ensures forall s <- OwnEvidence(b, ep) :: Plainly(s, ep) && Brings(s) == {}
    ensures AllBring(OwnEvidence(b, ep)) == {}
    ensures AllFine(db, {}, OwnEvidence(b, ep), ep) <==> forall r <- b.evidence :: Entity(db, Evidence, r.evidenceId, ep)
  {
    hide Fine, Plainly, Brings;
    var stmts := OwnEvidence(b, ep);
    forall i | 0 <= i < |stmts|
      ensures Plainly(stmts[i], ep) && Brings(stmts[i]) == {}
      ensures Fine(db, {}, stmts[i], ep) <==> Entity(db, Evidence, b.evidence[i].evidenceId, ep)
    {
      OwnFine(db, Evidence, b.evidence[i].evidenceId, ep);
    }
    FineGuards(db, {}, stmts, ep);
    assert forall i | 0 <= i < |stmts| :: stmts[i] in stmts && b.evidence[i] in b.evidence;
  }

  function BeliefInsert(b: Payload, ep: string): Stmt
    requires b.BeliefAdmitted?
  {
    Insert(Id(Beliefs, b.id), Row(ep, b.cols["status" := Text(b.status)]["source_id" := Text(b.source)]))
  }

  function Copies(b: Payload, ep: string): seq<Stmt>
    requires b.BeliefAdmitted?
  {
    [InsertCopying(In(SourceRoots, ep, [Text(b.id)]), Row(ep, map["transport" := b.transport]),
                   Id(Sources, b.source), "root", Text("unknown")),
     InsertCopying(In(Fingerprints, ep, [Text(b.id)]), Row(ep, map["fingerprint" := Fingerprint(b.cols)]),
                   Id(Sources, b.source), "root", Text("unknown"))]
  }

  lemma StatementsOfBelief(b: Payload, ep: string)
    requires b.BeliefAdmitted?
    ensures BeliefStmts(b, ep) == [Check(b.owner == ep), Own(Sources, b.source, ep)] + OwnEvidence(b, ep) + [BeliefInsert(b, ep)]
              + Links(b, |b.evidence|, ep) + AllJustifications(b.justifications, ep) + Copies(b, ep)
  {
    hide EvidenceLink, AllJustifications, Fingerprint;
  }

  lemma CopiesFine(db: Db, added: set<Key>, b: Payload, ep: string)
    requires b.BeliefAdmitted?
    ensures forall s <- Copies(b, ep) :: Plainly(s, ep)
    ensures var roots, prints := Key(SourceRoots, [Text(ep), Text(b.id)]), Key(Fingerprints, [Text(ep), Text(b.id)]);
      AllFine(db, added, Copies(b, ep), ep) <==> Free(db, added, roots) && Free(db, added, prints)
  {
    hide AllFine, Fingerprint;
    assert [Text(ep)] + [Text(b.id)] == [Text(ep), Text(b.id)];
    FinePair(db, added, Copies(b, ep)[0], Copies(b, ep)[1], ep);
    assert Copies(b, ep) == [Copies(b, ep)[0], Copies(b, ep)[1]];
  }

  // Everything before the belief's own row.
  lemma BeliefChecksFine(db: Db, b: Payload, ep: string)
    requires b.BeliefAdmitted?
    ensures var checks := [Check(b.owner == ep), Own(Sources, b.source, ep)] + OwnEvidence(b, ep);
      && (forall s <- checks :: Plainly(s, ep)) && AllBring(checks) == {}
      && (AllFine(db, {}, checks, ep) <==>
            && b.owner == ep && Entity(db, Sources, b.source, ep)
            && forall r <- b.evidence :: Entity(db, Evidence, r.evidenceId, ep))
  {
    hide AllFine, AllBring, OwnEvidence, Fine, Plainly, Brings;
    CheckFine(db, b.owner == ep, ep);
    OwnFine(db, Sources, b.source, ep);
    var check, own := Check(b.owner == ep), Own(Sources, b.source, ep);
    FinePair(db, {}, check, own, ep);
    FineConcat(db, {}, [check, own], OwnEvidence(b, ep), ep);
    OwnEvidenceFine(db, b, ep);
    assert {} + AllBring([check, own]) == {};
  }

  // A belief is admitted if and only if its source and evidence are of the episode, its id and its
  // links with a span are new and not repeated, and its justifications fit, where they may speak
  // of the belief itself.
  predicate BeliefFits(db: Db, b: Payload, ep: string)
    requires b.BeliefAdmitted?
  {
    var me := Key(Beliefs, [Text(b.id)]);
    && b.owner == ep && Entity(db, Sources, b.source, ep)
    && (forall r <- b.evidence :: Entity(db, Evidence, r.evidenceId, ep))
    && me !in db
    && (forall i: nat | i < |b.evidence| && b.evidence[i].span != Null ::
          LinkKey(b, i, ep) !in db && forall j | 0 <= j < i :: b.evidence[j] != b.evidence[i])
    && JustificationsFit(db, {me}, b.justifications, ep)
    && Key(SourceRoots, [Text(ep), Text(b.id)]) !in db && Key(Fingerprints, [Text(ep), Text(b.id)]) !in db
  }

  lemma BeliefAccepted(p: Projection, e: Event)
    requires e.body.payload.BeliefAdmitted?
    ensures Apply(p, e).Some? <==>
      Key(Episodes, [Text(e.body.episodeId)]) in p.db && BeliefFits(p.db, e.body.payload, e.body.episodeId)
  {
    hide Apply, AllFine, BeliefStmts, BeliefFits;
    var b, ep := e.body.payload, e.body.episodeId;
    AppliedIff(p, e);
    BeliefFine(p.db, b, ep);
    ExecIffFine(p.db, BeliefStmts(b, ep), ep);
    assert Handler(e.body) == BeliefStmts(b, ep);
  }

  lemma BeliefFine(db: Db, b: Payload, ep: string)
    requires b.BeliefAdmitted?
    ensures forall s <- BeliefStmts(b, ep) :: Plainly(s, ep)
    ensures AllFine(db, {}, BeliefStmts(b, ep), ep) <==> BeliefFits(db, b, ep)
  {
    hide AllFine, AllBring, BeliefStmts, OwnEvidence, Links, AllJustifications, Copies, Fine, JustificationsFit, LinkKey,
      LinkFits, JustificationKeys, JustificationPart;
    var checks := [Check(b.owner == ep), Own(Sources, b.source, ep)] + OwnEvidence(b, ep);
    var put, links := BeliefInsert(b, ep), Links(b, |b.evidence|, ep);
    var js, copies := AllJustifications(b.justifications, ep), Copies(b, ep);
    StatementsOfBelief(b, ep);
    var me := Key(Beliefs, [Text(b.id)]);
    FineConcat(db, {}, checks + [put] + links + js, copies, ep);
    FineConcat(db, {}, checks + [put] + links, js, ep);
    FineConcat(db, {}, checks + [put], links, ep);
    FineConcat(db, {}, checks, [put], ep);
    BeliefChecksFine(db, b, ep);
    FineOne(db, {}, put, ep);
    PutFine(db, {}, put, ep);
    assert {} + AllBring(checks) == {} && {} + AllBring(checks + [put]) == {me};
    LinksFine(db, {me}, b, |b.evidence|, ep);
    LinksMean(db, b, ep);
    var linked := {} + AllBring(checks + [put] + links);
    assert linked == {me} + AllBring(links);
    JustificationsFine(db, linked, b.justifications, ep);
    BesideLinks(db, me, AllBring(links), b, ep);
    var all := {} + AllBring(checks + [put] + links + js);
    assert all == linked + AllBring(js);
    CopiesFine(db, all, b, ep);
    CopyKeysFree(me, AllBring(links), AllBring(js), b, ep);
  }

  lemma LinksMean(db: Db, b: Payload, ep: string)
    requires b.BeliefAdmitted?
    ensures var me := Key(Beliefs, [Text(b.id)]);
      (forall i: nat | i < |b.evidence| :: LinkFits(db, {me}, b, i, ep)) <==>
      (forall i: nat | i < |b.evidence| && b.evidence[i].span != Null ::
         LinkKey(b, i, ep) !in db && forall j | 0 <= j < i :: b.evidence[j] != b.evidence[i])
  {
    hide LinkKey;
    forall i: nat | i < |b.evidence|
      ensures LinkFits(db, {Key(Beliefs, [Text(b.id)])}, b, i, ep) <==>
        (b.evidence[i].span != Null ==> LinkKey(b, i, ep) !in db && forall j | 0 <= j < i :: b.evidence[j] != b.evidence[i])
    {
      LinkTable(b, i, ep);
    }
  }

  lemma BesideLinks(db: Db, me: Key, links: set<Key>, b: Payload, ep: string)
    requires b.BeliefAdmitted? && me.table == Beliefs
    requires forall k <- links :: exists i: nat | i < |b.evidence| :: LinkKey(b, i, ep) == k
    ensures JustificationsFit(db, {me} + links, b.justifications, ep) <==> JustificationsFit(db, {me}, b.justifications, ep)
  {
    forall k | k in links ensures k.table == BeliefEvidence {
    }
    forall j: JustificationRecord
      ensures JustificationFits(db, {me} + links, j, ep) <==> JustificationFits(db, {me}, j, ep)
    {
    }
  }

  lemma CopyKeysFree(me: Key, links: set<Key>, js: set<Key>, b: Payload, ep: string)
    requires b.BeliefAdmitted? && me.table == Beliefs && JustificationKeys(js, b.justifications, ep)
    requires forall k <- links :: exists i: nat | i < |b.evidence| :: LinkKey(b, i, ep) == k
    ensures forall k <- {me} + links + js :: k.table != SourceRoots && k.table != Fingerprints
  {
  }
}
