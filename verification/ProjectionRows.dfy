/**
 What rows an accepted event leaves, kind by kind: the columns that its handler sets, the rows
 that it makes, the ownership it has checked, and that everything else stays as it was.
 */
module ProjectionRows {
  import opened Wrappers
  import opened Sql
  import opened Projections
  import opened RP = RelabelProjection

  // One row has some columns set, and nothing else has changed.
  predicate Edited(db: Db, after: Db, k: Key, sets: Columns) {
    && k in db && after.Keys == db.Keys
    && (forall q <- db :: q != k ==> after[q] == db[q])
    && after[k].episode == db[k].episode
    && (forall c <- after[k].cols :: c in sets || c in db[k].cols)
    && (forall c <- sets :: c in after[k].cols && after[k].cols[c] == sets[c])
    && (forall c <- db[k].cols :: c in after[k].cols && (c !in sets ==> after[k].cols[c] == db[k].cols[c]))
  }

  // One row has come, with these columns over what the record carried, and nothing else.
  predicate Made(db: Db, after: Db, k: Key, ep: string, record: Columns, sets: Columns) {
    && k !in db && after.Keys == db.Keys + {k}
    && (forall q <- db :: after[q] == db[q])
    && after[k].episode == ep
    && (forall c <- after[k].cols :: c in sets || c in record)
    && (forall c <- sets :: c in after[k].cols && after[k].cols[c] == sets[c])
    && (forall c <- record :: c in after[k].cols && (c !in sets ==> after[k].cols[c] == record[c]))
  }

  lemma PutAmends(db: Db, k: Key, sets: Columns)
    requires k in db && Put(db, k, Row(db[k].episode, db[k].cols + sets)).Some?
    ensures Edited(db, Put(db, k, Row(db[k].episode, db[k].cols + sets)).value, k, sets)
  {
    hide UniqueOk;
  }

  lemma PutMakes(db: Db, k: Key, ep: string, record: Columns, sets: Columns, r: Row)
    requires k !in db && Put(db, k, r).Some? && r.episode == ep && r.cols == record + sets
    ensures Made(db, Put(db, k, r).value, k, ep, record, sets)
  {
    hide UniqueOk;
  }

  // Every event but a creation needs its episode; the head moves to the event.
  lemma AppliedEvent(p: Projection, e: Event)
    requires Apply(p, e).Some?
    ensures Apply(p, e).value.heads == p.heads[e.body.episodeId := Head(e.body.seq_, e.hash)]
    ensures e.body.payload.EpisodeCreated? ==> ExecAll(p.db, Handler(e.body)) == Some(Apply(p, e).value.db)
    ensures !e.body.payload.EpisodeCreated? ==>
      Id(Episodes, e.body.episodeId) in p.db && ExecAll(p.db, Handler(e.body)) == Some(Apply(p, e).value.db)
  {
    hide Handler, ExecAll;
    if !e.body.payload.EpisodeCreated? {
      ExecFirst(p.db, Exists(Id(Episodes, e.body.episodeId)), Handler(e.body));
    }
    assert e.body.payload.EpisodeCreated? ==> Statements(e.body) == Handler(e.body);
  }

  /******* Episodes *******/

  lemma EpisodeMade(p: Projection, e: Event)
    requires Apply(p, e).Some? && e.body.payload.EpisodeCreated?
    ensures e.body.payload.id == e.body.episodeId
    ensures Made(p.db, Apply(p, e).value.db, Key(Episodes, [Text(e.body.episodeId)]), e.body.episodeId,
                 e.body.payload.cols, map["episode_key" := Text(e.body.payload.key)])
  {
    hide Put, Statements;
    AppliedEvent(p, e);
    var ep, d := e.body.episodeId, e.body.payload;
    var r := Row(ep, d.cols["episode_key" := Text(d.key)]);
    CheckedOne(p.db, Check(d.id == ep), Insert(Id(Episodes, ep), r));
    PutMakes(p.db, Id(Episodes, ep), ep, d.cols, map["episode_key" := Text(d.key)], r);
  }

  lemma CheckedOne(db: Db, check: Stmt, s: Stmt)
    requires check.Check?
    ensures ExecAll(db, [check, s]) == if check.ok then Exec(db, s) else None
  {
    hide Exec;
    assert [check, s] == [check] + [s];
    ExecFirst(db, check, [s]);
    ExecOne(db, s);
    CheckIs(db, check);
  }

  lemma CheckIs(db: Db, check: Stmt)
    requires check.Check?
    ensures Exec(db, check) == if check.ok then Some(db) else None
  {
  }

  lemma EpisodeAmended(p: Projection, e: Event, sets: Columns)
    requires Apply(p, e).Some? && !e.body.payload.EpisodeCreated?
    requires Handler(e.body) == [Update(Id(Episodes, e.body.episodeId), sets)]
    ensures Edited(p.db, Apply(p, e).value.db, Id(Episodes, e.body.episodeId), sets)
  {
    hide Put, Statements, Handler;
    AppliedEvent(p, e);
    ExecOne(p.db, Update(Id(Episodes, e.body.episodeId), sets));
    PutAmends(p.db, Id(Episodes, e.body.episodeId), sets);
  }

  // A new turn sets the turn and the time.
  lemma TurnSets(p: Projection, e: Event)
    requires Apply(p, e).Some? && e.body.payload.TurnStarted?
    ensures Edited(p.db, Apply(p, e).value.db, Key(Episodes, [Text(e.body.episodeId)]),
                    map["current_turn" := Num(e.body.payload.turn), "updated_at" := Text(e.body.payload.at)])
  {
    hide Apply;
    EpisodeAmended(p, e, map["current_turn" := Num(e.body.payload.turn), "updated_at" := Text(e.body.payload.at)]);
  }

  lemma StakesSet(p: Projection, e: Event)
    requires Apply(p, e).Some? && e.body.payload.StakesChanged?
    ensures Edited(p.db, Apply(p, e).value.db, Key(Episodes, [Text(e.body.episodeId)]),
                    map["default_stakes" := Text(e.body.payload.to), "updated_at" := Text(e.body.payload.at)])
  {
    hide Apply;
    EpisodeAmended(p, e, map["default_stakes" := Text(e.body.payload.to), "updated_at" := Text(e.body.payload.at)]);
  }

  // A change of state sets the state, the time and, if one is given, the key.
  function StateColumns(d: Payload): Columns
    requires d.EpisodeStateChanged?
  {
    match d.newKey
    case Some(key) => map["state" := Text(d.state), "updated_at" := Text(d.at), "episode_key" := Text(key)]
    case None => map["state" := Text(d.state), "updated_at" := Text(d.at)]
  }

  lemma StateSets(p: Projection, e: Event)
    requires Apply(p, e).Some? && e.body.payload.EpisodeStateChanged?
    ensures Edited(p.db, Apply(p, e).value.db, Key(Episodes, [Text(e.body.episodeId)]), StateColumns(e.body.payload))
  {
    hide Apply;
    var d := e.body.payload;
    if d.newKey.Some? {
      var base: Columns := map["state" := Text(d.state), "updated_at" := Text(d.at)];
      assert StateColumns(d) == base["episode_key" := Text(d.newKey.value)];
    }
    EpisodeAmended(p, e, StateColumns(d));
  }

  /******* One row amended *******/

  lemma EntityAmended(p: Projection, e: Event, t: Table, sets: Columns)
    requires Apply(p, e).Some? && !e.body.payload.EpisodeCreated?
    requires Handler(e.body) == Amend(t, e.body.aggregateId, e.body.episodeId, sets)
    ensures Entity(p.db, t, e.body.aggregateId, e.body.episodeId)
    ensures Edited(p.db, Apply(p, e).value.db, Id(t, e.body.aggregateId), sets)
  {
    hide Put, Statements, Handler, Amend;
    AppliedEvent(p, e);
    AmendIsPut(p.db, t, e.body.aggregateId, e.body.episodeId, sets);
    PutAmends(p.db, Id(t, e.body.aggregateId), sets);
  }

  // The table and columns of the events that amend the aggregate they name.
  function Amendment(d: Payload): Option<(Table, Columns)> {
    match d
    case SourceStatsUpdated(cols) => Some((Sources, cols))
    case SupportActivityChanged(active) => Some((Supports, map["active" := Flag(active)]))
    case JustificationAudited(audit) => Some((Justifications, map["audit_json" := audit]))
    case DefeatActivityChanged(active) => Some((Defeats, map["active" := Flag(active)]))
    case BeliefStatusChanged(to) => Some((Beliefs, map["status" := Text(to)]))
    case BeliefAdmissionChanged(to) => Some((Beliefs, map["admission_status" := Text(to)]))
    case CorroborationChanged(level) => Some((Beliefs, map["corroboration" := Num(level)]))
    case TaskCompleted(result, state) => Some((Tasks, map["result" := result, "state" := Text(state)]))
    case ConflictResolved => Some((Conflicts, map["state" := Text("resolved")]))
    case RetractionStateChanged(true) => Some((Notices, map["state" := Text("acknowledged")]))
    case RetractionStateChanged(false) => Some((Notices, map["state" := Text("expired")]))
    case _ => None
  }

  // Such an event sets those columns of that row, which belongs to its episode.
  lemma AggregateAmended(p: Projection, e: Event)
    requires Apply(p, e).Some? && Amendment(e.body.payload).Some?
    ensures var (t, sets) := Amendment(e.body.payload).value;
      && Entity(p.db, t, e.body.aggregateId, e.body.episodeId)
      && Edited(p.db, Apply(p, e).value.db, Key(t, [Text(e.body.aggregateId)]), sets)
  {
    hide Apply, Edited, Amend;
    var (t, sets) := Amendment(e.body.payload).value;
    EntityAmended(p, e, t, sets);
  }

  // Counters of a source move by the deltas and stop at zero.
  lemma StatsCounted(p: Projection, e: Event)
    requires Apply(p, e).Some? && e.body.payload.SourceStatsDelta?
    ensures var d, k, after := e.body.payload, Key(Sources, [Text(e.body.aggregateId)]), Apply(p, e).value.db;
      && Entity(p.db, Sources, e.body.aggregateId, e.body.episodeId)
      && after.Keys == p.db.Keys && (forall q <- p.db :: q != k ==> after[q] == p.db[q])
      && forall c :: BumpReads(p.db[k], after[k],
                               map["confirmed" := d.confirmed, "defeated" := d.defeated, "samples" := d.samples], true, c)
  {
    hide Put, Statements, UniqueOk, Bumped, BumpReads;
    AppliedEvent(p, e);
    var d, k := e.body.payload, Id(Sources, e.body.aggregateId);
    var own := Own(Sources, e.body.aggregateId, e.body.episodeId);
    var bump := Bump(k, map["confirmed" := d.confirmed, "defeated" := d.defeated, "samples" := d.samples], true);
    assert Handler(e.body) == [own] + [bump];
    ExecFirst(p.db, own, [bump]);
    OwnIsEntity(p.db, Sources, e.body.aggregateId, e.body.episodeId);
    ExecOne(p.db, bump);
    PutIs(p.db, k, Bumped(p.db[k], bump.deltas, true));
    BumpedReads(p.db[k], bump.deltas, true);
  }

  // A counter that is bumped moves by its delta, any other column stays.
  predicate BumpReads(was: Row, now: Row, deltas: map<string, int>, clamped: bool, c: string) {
    && now.episode == was.episode
    && Column(now, c) == if c !in deltas then Column(was, c)
                         else Num(if clamped then AtLeastZero(Counter(Column(was, c)) + deltas[c])
                                  else Counter(Column(was, c)) + deltas[c])
  }

  // A counter that was never set counts from zero.
  function Counter(v: Value): int {
    match v
    case Num(n) => n
    case _ => 0
  }

  lemma BumpedReads(r: Row, deltas: map<string, int>, clamped: bool)
    ensures forall c :: BumpReads(r, Bumped(r, deltas, clamped), deltas, clamped, c)
  {
  }

  function AtLeastZero(n: int): int {
    if n < 0 then 0 else n
  }

  lemma PutIs(db: Db, k: Key, r: Row)
    ensures Put(db, k, r).Some? ==> Put(db, k, r).value == db[k := r]
  {
    hide UniqueOk;
  }

  /******* One row made *******/

  predicate Guard(s: Stmt) {
    s.Check? || s.Owned?
  }

  lemma GuardPasses(db: Db, s: Stmt)
    requires Guard(s) && Exec(db, s).Some?
    ensures Exec(db, s) == Some(db)
  {
    hide Put, OwnedBy;
  }

  lemma {:induction false} GuardsPass(db: Db, guards: seq<Stmt>, last: Stmt)
    requires (forall s <- guards :: Guard(s)) && ExecAll(db, guards + [last]).Some?
    ensures forall s <- guards :: Exec(db, s) == Some(db)
    ensures Exec(db, last) == ExecAll(db, guards + [last])
    decreases |guards|
  {
    hide Exec, ExecAll;
    if guards == [] {
      ExecOne(db, last);
      assert guards + [last] == [last];
    } else {
      assert guards + [last] == [guards[0]] + (guards[1..] + [last]);
      ExecFirst(db, guards[0], guards[1..] + [last]);
      GuardPasses(db, guards[0]);
      GuardsPass(db, guards[1..], last);
    }
  }

  lemma RowMade(p: Projection, e: Event, guards: seq<Stmt>, k: Key, record: Columns, sets: Columns, r: Row)
    requires Apply(p, e).Some? && !e.body.payload.EpisodeCreated?
    requires Handler(e.body) == guards + [Insert(k, r)] && forall s <- guards :: Guard(s)
    requires r.episode == e.body.episodeId && r.cols == record + sets
    ensures Made(p.db, Apply(p, e).value.db, k, e.body.episodeId, record, sets)
    ensures forall s <- guards :: Exec(p.db, s) == Some(p.db)
  {
    hide Put, Statements, Handler;
    AppliedEvent(p, e);
    GuardsPass(p.db, guards, Insert(k, r));
    PutMakes(p.db, k, e.body.episodeId, record, sets, r);
  }

  lemma SourceMade(p: Projection, e: Event)
    requires Apply(p, e).Some? && e.body.payload.SourceRegistered?
    ensures var d := e.body.payload;
      && d.owner == e.body.episodeId
      && Made(p.db, Apply(p, e).value.db, Key(Sources, [Text(d.id)]), e.body.episodeId, d.cols,
              map["root" := Text(d.root), "kind" := Text(d.kind)])
  {
    hide Apply, Put;
    var ep, d := e.body.episodeId, e.body.payload;
    var guards := [Check(d.owner == ep)];
    assert guards[0] in guards;
    RowMade(p, e, guards, Id(Sources, d.id), d.cols, map["root" := Text(d.root), "kind" := Text(d.kind)],
            Row(ep, d.cols["root" := Text(d.root)]["kind" := Text(d.kind)]));
  }

  lemma EvidenceMade(p: Projection, e: Event)
    requires Apply(p, e).Some? && e.body.payload.EvidenceIngested?
    ensures var d := e.body.payload;
      && d.owner == e.body.episodeId && Entity(p.db, Sources, d.source, e.body.episodeId)
      && Made(p.db, Apply(p, e).value.db, Key(Evidence, [Text(d.id)]), e.body.episodeId, d.cols, map["source_id" := Text(d.source)])
  {
    hide Apply, Put;
    var ep, d := e.body.episodeId, e.body.payload;
    var guards := [Check(d.owner == ep), Own(Sources, d.source, ep)];
    assert guards[0] in guards && guards[1] in guards;
    RowMade(p, e, guards, Id(Evidence, d.id), d.cols, map["source_id" := Text(d.source)], Row(ep, d.cols["source_id" := Text(d.source)]));
    OwnIsEntity(p.db, Sources, d.source, ep);
  }

  lemma SupportMade(p: Projection, e: Event)
    requires Apply(p, e).Some? && e.body.payload.SupportAdded?
    ensures var d := e.body.payload;
      && d.owner == e.body.episodeId
      && Entity(p.db, Beliefs, d.belief, e.body.episodeId) && Entity(p.db, Evidence, d.evidenceId, e.body.episodeId)
      && Made(p.db, Apply(p, e).value.db, Key(Supports, [Text(d.id)]), e.body.episodeId, d.cols,
              map["belief_id" := Text(d.belief), "evidence_id" := Text(d.evidenceId)])
  {
    hide Apply, Put;
    var ep, d := e.body.episodeId, e.body.payload;
    var guards := [Check(d.owner == ep), Own(Beliefs, d.belief, ep), Own(Evidence, d.evidenceId, ep)];
    assert guards[0] in guards && guards[1] in guards && guards[2] in guards;
    RowMade(p, e, guards, Id(Supports, d.id), d.cols, map["belief_id" := Text(d.belief), "evidence_id" := Text(d.evidenceId)],
            Row(ep, d.cols["belief_id" := Text(d.belief)]["evidence_id" := Text(d.evidenceId)]));
    OwnIsEntity(p.db, Beliefs, d.belief, ep);
    OwnIsEntity(p.db, Evidence, d.evidenceId, ep);
  }

  // A defeat names an attacking belief and a belief or justification under attack.
  lemma DefeatMade(p: Projection, e: Event)
    requires Apply(p, e).Some? && e.body.payload.DefeatAdded?
    ensures var d := e.body.payload;
      && d.owner == e.body.episodeId && Entity(p.db, Beliefs, d.attacker, e.body.episodeId)
      && (Entity(p.db, Beliefs, d.target, e.body.episodeId) || Entity(p.db, Justifications, d.target, e.body.episodeId))
      && Made(p.db, Apply(p, e).value.db, Key(Defeats, [Text(d.id)]), e.body.episodeId, d.cols,
              map["attacker" := Text(d.attacker), "target" := Text(d.target), "active" := Flag(d.active)])
  {
    hide Apply, Put;
    var ep, d := e.body.episodeId, e.body.payload;
    var guards := [Check(d.owner == ep), Own(Beliefs, d.attacker, ep),
                   Owned([Id(Beliefs, d.target), Id(Justifications, d.target)], ep)];
    assert guards[0] in guards && guards[1] in guards && guards[2] in guards;
    RowMade(p, e, guards, Id(Defeats, d.id), d.cols,
            map["attacker" := Text(d.attacker), "target" := Text(d.target), "active" := Flag(d.active)],
            Row(ep, d.cols["attacker" := Text(d.attacker)]["target" := Text(d.target)]["active" := Flag(d.active)]));
    OwnIsEntity(p.db, Beliefs, d.attacker, ep);
  }

  lemma TaskMade(p: Projection, e: Event)
    requires Apply(p, e).Some? && e.body.payload.TaskCreated?
    ensures var d := e.body.payload;
      && d.owner == e.body.episodeId && Entity(p.db, Beliefs, d.belief, e.body.episodeId)
      && Made(p.db, Apply(p, e).value.db, Key(Tasks, [Text(d.id)]), e.body.episodeId, d.cols,
              map["belief_id" := Text(d.belief), "method" := Text(d.method_), "state" := Text(d.state)])
  {
    hide Apply, Put;
    var ep, d := e.body.episodeId, e.body.payload;
    var guards := [Check(d.owner == ep), Own(Beliefs, d.belief, ep)];
    assert guards[0] in guards && guards[1] in guards;
    RowMade(p, e, guards, Id(Tasks, d.id), d.cols,
            map["belief_id" := Text(d.belief), "method" := Text(d.method_), "state" := Text(d.state)],
            Row(ep, d.cols["belief_id" := Text(d.belief)]["method" := Text(d.method_)]["state" := Text(d.state)]));
    OwnIsEntity(p.db, Beliefs, d.belief, ep);
  }

  lemma ConflictMade(p: Projection, e: Event)
    requires Apply(p, e).Some? && e.body.payload.ConflictOpened?
    ensures var d := e.body.payload;
      && d.owner == e.body.episodeId && Entity(p.db, Beliefs, d.left, e.body.episodeId)
      && Entity(p.db, Beliefs, d.right, e.body.episodeId) && Entity(p.db, Tasks, d.task, e.body.episodeId)
      && Made(p.db, Apply(p, e).value.db, Key(Conflicts, [Text(d.id)]), e.body.episodeId, d.cols,
              map["left_belief_id" := Text(d.left), "right_belief_id" := Text(d.right), "state" := Text(d.state)])
  {
    hide Apply, Put;
    var ep, d := e.body.episodeId, e.body.payload;
    var guards := [Check(d.owner == ep), Own(Beliefs, d.left, ep), Own(Beliefs, d.right, ep), Own(Tasks, d.task, ep)];
    assert guards[0] in guards && guards[1] in guards && guards[2] in guards && guards[3] in guards;
    RowMade(p, e, guards, Id(Conflicts, d.id), d.cols,
            map["left_belief_id" := Text(d.left), "right_belief_id" := Text(d.right), "state" := Text(d.state)],
            Row(ep, d.cols["left_belief_id" := Text(d.left)]["right_belief_id" := Text(d.right)]["state" := Text(d.state)]));
    OwnIsEntity(p.db, Beliefs, d.left, ep);
    OwnIsEntity(p.db, Beliefs, d.right, ep);
    OwnIsEntity(p.db, Tasks, d.task, ep);
  }

  // A notice names a belief and descendants of the episode.
  lemma NoticeMade(p: Projection, e: Event)
    requires Apply(p, e).Some? && e.body.payload.RetractionCreated?
    ensures var d := e.body.payload;
      && d.owner == e.body.episodeId && Entity(p.db, Beliefs, d.belief, e.body.episodeId)
      && (forall x <- d.descendants :: Entity(p.db, Beliefs, x, e.body.episodeId))
      && Made(p.db, Apply(p, e).value.db, Key(Notices, [Text(d.id)]), e.body.episodeId, d.cols,
              map["defeated_belief_id" := Text(d.belief), "state" := Text(d.state)])
  {
    hide Apply, Put;
    var ep, d := e.body.episodeId, e.body.payload;
    var own := OwnEach(d.descendants, ep);
    var guards := [Check(d.owner == ep), Own(Beliefs, d.belief, ep)] + own;
    assert guards[0] in guards && guards[1] in guards;
    RowMade(p, e, guards, Id(Notices, d.id), d.cols, map["defeated_belief_id" := Text(d.belief), "state" := Text(d.state)],
            Row(ep, d.cols["defeated_belief_id" := Text(d.belief)]["state" := Text(d.state)]));
    OwnIsEntity(p.db, Beliefs, d.belief, ep);
    forall x | x in d.descendants ensures Entity(p.db, Beliefs, x, ep) {
      var i :| 0 <= i < |d.descendants| && d.descendants[i] == x;
      assert own[i] in guards;
      OwnIsEntity(p.db, Beliefs, x, ep);
    }
  }

  lemma VerdictMade(p: Projection, e: Event)
    requires Apply(p, e).Some? && e.body.payload.VerdictRecorded?
    ensures var d := e.body.payload;
      && d.owner == e.body.episodeId
      && (d.about.Some? ==> Entity(p.db, Beliefs, d.about.value, e.body.episodeId))
      && Made(p.db, Apply(p, e).value.db, Key(Verdicts, [Text(d.id)]), e.body.episodeId, d.cols, map[])
  {
    hide Apply, Put;
    var ep, d := e.body.episodeId, e.body.payload;
    var guards := [Check(d.owner == ep)] + (if d.about.Some? then [Own(Beliefs, d.about.value, ep)] else []);
    assert guards[0] in guards && (d.about.Some? ==> guards[1] in guards);
    assert d.cols + map[] == d.cols;
    RowMade(p, e, guards, Id(Verdicts, d.id), d.cols, map[], Row(ep, d.cols));
    if d.about.Some? { OwnIsEntity(p.db, Beliefs, d.about.value, ep); }
  }

  // A lint report, a gate decision or a response is one row under the event's own id.
  lemma RecordMade(p: Projection, e: Event)
    requires Apply(p, e).Some?
    requires e.body.payload.LintRecorded? || e.body.payload.GateDecided? || e.body.payload.ResponseRecorded?
    ensures var d := e.body.payload;
      var t := if d.LintRecorded? then LintReports else if d.GateDecided? then GateDecisions else Responses;
      Made(p.db, Apply(p, e).value.db, Key(t, [Text(e.body.id)]), e.body.episodeId, d.cols, map[])
  {
    hide Apply, Put;
    var ep, d := e.body.episodeId, e.body.payload;
    var t := if d.LintRecorded? then LintReports else if d.GateDecided? then GateDecisions else Responses;
    assert d.cols + map[] == d.cols;
    assert Handler(e.body) == [] + [Insert(Id(t, e.body.id), Row(ep, d.cols))];
    RowMade(p, e, [], Id(t, e.body.id), d.cols, map[], Row(ep, d.cols));
  }

  // Usage is one row, and the episode's counters move by one call and by the tokens.
  lemma UsageCounted(p: Projection, e: Event)
    requires Apply(p, e).Some? && e.body.payload.UsageRecorded?
    ensures var d, u, k, after := e.body.payload, Key(Usage, [Text(e.body.payload.id)]), Key(Episodes, [Text(e.body.episodeId)]),
                                  Apply(p, e).value.db;
      && d.owner == e.body.episodeId && u !in p.db && k in p.db && after.Keys == p.db.Keys + {u}
      && after[u] == Row(e.body.episodeId, d.cols["input_tokens" := Num(d.inputTokens)]["output_tokens" := Num(d.outputTokens)])
      && (forall q <- p.db :: q != k ==> after[q] == p.db[q])
      && forall c :: BumpReads(p.db[k], after[k],
           map["llm_calls_used" := 1, "input_tokens_used" := d.inputTokens, "output_tokens_used" := d.outputTokens], false, c)
  {
    hide Put, Statements, UniqueOk, Bumped, BumpReads;
    AppliedEvent(p, e);
    var d, u, k := e.body.payload, Id(Usage, e.body.payload.id), Id(Episodes, e.body.episodeId);
    var check := Check(d.owner == e.body.episodeId);
    var insert := Insert(u, Row(e.body.episodeId, d.cols["input_tokens" := Num(d.inputTokens)]["output_tokens" := Num(d.outputTokens)]));
    var bump := Bump(k, map["llm_calls_used" := 1, "input_tokens_used" := d.inputTokens, "output_tokens_used" := d.outputTokens], false);
    assert Handler(e.body) == [check] + ([insert] + [bump]);
    ExecFirst(p.db, check, [insert] + [bump]);
    CheckIs(p.db, check);
    ExecFirst(p.db, insert, [bump]);
    PutIs(p.db, u, insert.row);
    var mid := p.db[u := insert.row];
    ExecOne(mid, bump);
    PutIs(mid, k, Bumped(mid[k], bump.deltas, false));
    BumpedReads(p.db[k], bump.deltas, false);
  }

  // Unpromoted evidence: its row is open with what the record carried, whatever was there.
  lemma UnpromotedOpened(p: Projection, e: Event)
    requires Apply(p, e).Some? && e.body.payload.UnpromotedAdded?
    ensures var d, k, after := e.body.payload, Key(Unpromoted, [Text(e.body.episodeId), Text(e.body.payload.evidenceId)]),
                               Apply(p, e).value.db;
      && Entity(p.db, Evidence, d.evidenceId, e.body.episodeId)
      && after == p.db[k := Row(e.body.episodeId, d.cols["state" := Text("open")])]
  {
    hide Put, Statements;
    AppliedEvent(p, e);
    var ep, d := e.body.episodeId, e.body.payload;
    var own, replace := Own(Evidence, d.evidenceId, ep),
        Replace(In(Unpromoted, ep, [Text(d.evidenceId)]), Row(ep, d.cols["state" := Text("open")]));
    assert Handler(e.body) == [own] + [replace];
    ExecFirst(p.db, own, [replace]);
    OwnIsEntity(p.db, Evidence, d.evidenceId, ep);
    ExecOne(p.db, replace);
    PutIs(p.db, replace.key, replace.row);
    assert [Text(ep)] + [Text(d.evidenceId)] == [Text(ep), Text(d.evidenceId)];
  }

  // It is finished as resolved or failed, with the reason; with no row there nothing happens.
  lemma UnpromotedClosed(p: Projection, e: Event)
    requires Apply(p, e).Some? && e.body.payload.UnpromotedFinished?
    ensures var d, k, after := e.body.payload, Key(Unpromoted, [Text(e.body.episodeId), Text(e.body.payload.evidenceId)]),
                               Apply(p, e).value.db;
      if k in p.db
      then Edited(p.db, after, k, map["state" := Text(if d.resolved then "resolved" else "failed"), "reason" := Text(d.reason)])
      else after == p.db
  {
    hide Put, Statements;
    AppliedEvent(p, e);
    var ep, d := e.body.episodeId, e.body.payload;
    var sets: Columns := map["state" := Text(if d.resolved then "resolved" else "failed"), "reason" := Text(d.reason)];
    var k := In(Unpromoted, ep, [Text(d.evidenceId)]);
    assert [Text(ep)] + [Text(d.evidenceId)] == [Text(ep), Text(d.evidenceId)];
    ExecOne(p.db, Update(k, sets));
    if k in p.db { PutAmends(p.db, k, sets); }
  }

  // A refresh sets the time of the belief and links the evidence, once.
  lemma ObservationSet(p: Projection, e: Event)
    requires Apply(p, e).Some? && e.body.payload.ObservationRefreshed?
    ensures var d, b, after := e.body.payload, Key(Beliefs, [Text(e.body.aggregateId)]), Apply(p, e).value.db;
      var link := Key(BeliefEvidence, [Text(e.body.episodeId), Text(e.body.aggregateId), Text(d.evidenceId), d.span]);
      && Entity(p.db, Beliefs, e.body.aggregateId, e.body.episodeId) && Entity(p.db, Evidence, d.evidenceId, e.body.episodeId)
      && after.Keys == p.db.Keys + {link}
      && (forall q <- p.db :: q != b ==> after[q] == p.db[q])
      && after[b] == Row(p.db[b].episode, p.db[b].cols["observed_at" := Text(d.at)])
      && (link !in p.db ==> after[link] == Row(e.body.episodeId, map["span_json" := d.span]))
  {
    hide Put, Statements, UniqueOk;
    AppliedEvent(p, e);
    var ep, agg, d := e.body.episodeId, e.body.aggregateId, e.body.payload;
    var own, other := Own(Beliefs, agg, ep), Own(Evidence, d.evidenceId, ep);
    var update := Update(Id(Beliefs, agg), map["observed_at" := Text(d.at)]);
    var link := InsertIgnore(In(BeliefEvidence, ep, [Text(agg), Text(d.evidenceId), d.span]), Row(ep, map["span_json" := d.span]));
    assert Handler(e.body) == [own] + ([other] + ([update] + [link]));
    ExecFirst(p.db, own, [other] + ([update] + [link]));
    OwnIsEntity(p.db, Beliefs, agg, ep);
    ExecFirst(p.db, other, [update] + [link]);
    OwnIsEntity(p.db, Evidence, d.evidenceId, ep);
    ExecFirst(p.db, update, [link]);
    var b := Id(Beliefs, agg);
    PutIs(p.db, b, Row(p.db[b].episode, p.db[b].cols + update.sets));
    assert p.db[b].cols + update.sets == p.db[b].cols["observed_at" := Text(d.at)];
    var mid := p.db[b := Row(p.db[b].episode, p.db[b].cols + update.sets)];
    ExecOne(mid, link);
    PutIs(mid, link.key, link.row);
    assert [Text(ep)] + [Text(agg), Text(d.evidenceId), d.span] == [Text(ep), Text(agg), Text(d.evidenceId), d.span];
  }

  /******* Several rows made *******/

  predicate Adding(s: Stmt) {
    s.Check? || s.Exists? || s.Owned? || s.Insert? || s.InsertIgnore? || s.InsertCopying?
  }

  predicate Adds(s: Stmt, k: Key) {
    (s.Insert? || s.InsertIgnore? || s.InsertCopying?) && s.key == k
  }

  // What one statement of the list must have done by the end.
  predicate Done(db: Db, after: Db, s: Stmt) {
    match s
    case Check(ok) => ok
    case Exists(k) => k in after
    case Owned(keys, owner) => exists k <- keys :: k in after && after[k].episode == owner
    case Insert(k, r) => k !in db && k in after && after[k] == r
    case InsertIgnore(k, r) => k in after
    case InsertCopying(k, r, from, c, _) =>
      && k !in db && k in after
      && (from in db ==> after[k] == Row(r.episode, r.cols[c := Column(db[from], c)]))
    case _ => false
  }

  ghost predicate Grown(db: Db, after: Db, stmts: seq<Stmt>) {
    && (forall k <- db :: k in after && after[k] == db[k])
    && (forall k <- after :: k in db || exists s <- stmts :: Brought(after, s, k))
    && (forall s <- stmts :: Done(db, after, s))
  }

  // A new row is one that a statement of the list gives.
  predicate Brought(after: Db, s: Stmt, k: Key)
    requires k in after
  {
    Adds(s, k) && (s.InsertIgnore? ==> after[k] == s.row)
  }

  lemma AddStep(db: Db, mid: Db, after: Db, stmts: seq<Stmt>, s: Stmt)
    requires Grown(db, mid, stmts) && Adding(s) && Exec(mid, s) == Some(after)
    ensures Grown(db, after, stmts + [s])
  {
    hide UniqueOk;
    forall t | t in stmts + [s] ensures Done(db, after, t) {
      if t in stmts {
        assert Done(db, mid, t);
        StillDone(db, mid, after, t, s);
      } else {
        assert t == s;
      }
    }
    forall k | k in after && k !in db ensures exists t <- stmts + [s] :: Brought(after, t, k) {
      if k in mid {
        var t :| t in stmts && Brought(mid, t, k);
        assert t in stmts + [s] && after[k] == mid[k];
      } else {
        assert Brought(after, s, k) && s in stmts + [s];
      }
    }
  }

  lemma StillDone(db: Db, mid: Db, after: Db, t: Stmt, s: Stmt)
    requires Done(db, mid, t) && Adding(s) && Exec(mid, s) == Some(after)
    ensures Done(db, after, t)
  {
    hide UniqueOk;
  }

  lemma {:induction false} ListAdds(db: Db, stmts: seq<Stmt>)
    requires (forall s <- stmts :: Adding(s)) && ExecAll(db, stmts).Some?
    ensures Grown(db, ExecAll(db, stmts).value, stmts)
  {
    hide Exec, Grown, Adding;
    if stmts == [] {
      NothingGrown(db);
    } else {
      var init, last := stmts[..|stmts| - 1], stmts[|stmts| - 1];
      assert stmts == init + [last] && last in stmts && forall s <- init :: s in stmts;
      ListAdds(db, init);
      AddStep(db, ExecAll(db, init).value, ExecAll(db, stmts).value, init, last);
    }
  }

  lemma NothingGrown(db: Db)
    ensures Grown(db, db, [])
  {
  }

  // The rows that a justification consists of.
  predicate JustificationPart(k: Key, j: JustificationRecord, ep: string) {
    || k == Key(Justifications, [Text(j.id)])
    || exists i | 0 <= i < |j.premises| :: k == PremiseKey(j, i, ep)
  }

  function PremiseKey(j: JustificationRecord, i: nat, ep: string): Key {
    Key(Premises, [Text(ep), Text(j.id), Num(i)])
  }

  // The justification has its row and one row for each premise, in order, and all its beliefs
  // are of the episode.
  ghost predicate JustificationThere(after: Db, j: JustificationRecord, ep: string) {
    && Entity(after, Beliefs, j.belief, ep) && (forall x <- j.premises :: Entity(after, Beliefs, x, ep))
    && Key(Justifications, [Text(j.id)]) in after
    && after[Key(Justifications, [Text(j.id)])] == Row(ep, j.cols["belief_id" := Text(j.belief)])
    && forall i | 0 <= i < |j.premises| ::
         PremiseKey(j, i, ep) in after
         && after[PremiseKey(j, i, ep)] == Row(ep, map["premise_belief_id" := Text(j.premises[i])])
  }

  lemma JustificationListed(j: JustificationRecord, ep: string)
    ensures Own(Beliefs, j.belief, ep) in JustificationStmts(j, ep)
    ensures forall x <- j.premises :: Own(Beliefs, x, ep) in JustificationStmts(j, ep)
    ensures Insert(Key(Justifications, [Text(j.id)]), Row(ep, j.cols["belief_id" := Text(j.belief)])) in JustificationStmts(j, ep)
    ensures forall i | 0 <= i < |j.premises| ::
      Insert(PremiseKey(j, i, ep), Row(ep, map["premise_belief_id" := Text(j.premises[i])])) in JustificationStmts(j, ep)
  {
    var stmts := JustificationStmts(j, ep);
    assert stmts[0] == Own(Beliefs, j.belief, ep);
    forall x | x in j.premises ensures Own(Beliefs, x, ep) in stmts {
      var i :| 0 <= i < |j.premises| && j.premises[i] == x;
      assert stmts[1 + i] == Own(Beliefs, x, ep);
    }
    assert stmts[1 + |j.premises|] == Insert(Id(Justifications, j.id), Row(ep, j.cols["belief_id" := Text(j.belief)]));
    forall i | 0 <= i < |j.premises|
      ensures Insert(PremiseKey(j, i, ep), Row(ep, map["premise_belief_id" := Text(j.premises[i])])) in stmts
    {
      PremiseAt(j, ep, i);
    }
  }

  lemma PremiseAt(j: JustificationRecord, ep: string, i: nat)
    requires i < |j.premises|
    ensures JustificationStmts(j, ep)[2 + |j.premises| + i]
         == Insert(PremiseKey(j, i, ep), Row(ep, map["premise_belief_id" := Text(j.premises[i])]))
  {
    assert [Text(ep)] + [Text(j.id), Num(i)] == [Text(ep), Text(j.id), Num(i)];
  }

  lemma JustificationAdds(j: JustificationRecord, ep: string)
    ensures forall s <- JustificationStmts(j, ep) :: Adding(s)
    ensures forall s, k :: s in JustificationStmts(j, ep) && Adds(s, k) ==> JustificationPart(k, j, ep)
  {
    var stmts, m := JustificationStmts(j, ep), |j.premises|;
    forall n | 0 <= n < |stmts| ensures Adding(stmts[n]) && forall k :: Adds(stmts[n], k) ==> JustificationPart(k, j, ep) {
      if n >= 2 + m {
        PremiseAt(j, ep, n - 2 - m);
      } else if n == 1 + m {
        assert stmts[n].key == Id(Justifications, j.id);
      } else if n > 0 {
        assert stmts[n] == Own(Beliefs, j.premises[n - 1], ep);
      }
    }
  }

  lemma {:induction false} JustificationsListed(js: seq<JustificationRecord>, ep: string)
    ensures forall s <- AllJustifications(js, ep) :: Adding(s)
    ensures forall s, k :: s in AllJustifications(js, ep) && Adds(s, k) ==> exists j <- js :: JustificationPart(k, j, ep)
    ensures forall j <- js :: forall s <- JustificationStmts(j, ep) :: s in AllJustifications(js, ep)
  {
    hide JustificationPart, Adding, Adds, JustificationStmts;
    if js != [] {
      var init, last := js[..|js| - 1], js[|js| - 1];
      assert js == init + [last] && last in js && forall j <- init :: j in js;
      JustificationsListed(init, ep);
      JustificationAdds(last, ep);
      forall s, k | s in AllJustifications(js, ep) && Adds(s, k) ensures exists j <- js :: JustificationPart(k, j, ep) {
        if s in AllJustifications(init, ep) {
          var j :| j in init && JustificationPart(k, j, ep);
          assert j in js;
        } else {
          assert s in JustificationStmts(last, ep);
        }
      }
    }
  }

  lemma JustificationDone(db: Db, after: Db, stmts: seq<Stmt>, j: JustificationRecord, ep: string)
    requires Grown(db, after, stmts) && forall s <- JustificationStmts(j, ep) :: s in stmts
    ensures JustificationThere(after, j, ep)
  {
    hide JustificationStmts;
    JustificationListed(j, ep);
    assert Done(db, after, Own(Beliefs, j.belief, ep));
    OwnedIs(after, j.belief, ep);
    forall x | x in j.premises ensures Entity(after, Beliefs, x, ep) {
      assert Done(db, after, Own(Beliefs, x, ep));
      OwnedIs(after, x, ep);
    }
    assert Done(db, after, Insert(Key(Justifications, [Text(j.id)]), Row(ep, j.cols["belief_id" := Text(j.belief)])));
    forall i | 0 <= i < |j.premises|
      ensures PremiseKey(j, i, ep) in after
              && after[PremiseKey(j, i, ep)] == Row(ep, map["premise_belief_id" := Text(j.premises[i])])
    {
      assert Done(db, after, Insert(PremiseKey(j, i, ep), Row(ep, map["premise_belief_id" := Text(j.premises[i])])));
    }
  }

  lemma OwnedIs(after: Db, id: string, ep: string)
    ensures (exists k <- [Id(Beliefs, id)] :: k in after && after[k].episode == ep) <==> Entity(after, Beliefs, id, ep)
  {
    assert Id(Beliefs, id) in [Id(Beliefs, id)];
  }

  lemma JustificationMade(p: Projection, e: Event)
    requires Apply(p, e).Some? && e.body.payload.JustificationAdded?
    ensures var after, j := Apply(p, e).value.db, e.body.payload.record;
      && JustificationThere(after, j, e.body.episodeId)
      && (forall k <- p.db :: k in after && after[k] == p.db[k])
      && (forall k <- after :: k in p.db || JustificationPart(k, j, e.body.episodeId))
  {
    hide Statements, Exec, ExecAll, JustificationStmts, Grown, JustificationThere, JustificationPart;
    AppliedEvent(p, e);
    var j, ep := e.body.payload.record, e.body.episodeId;
    JustificationAdds(j, ep);
    assert Handler(e.body) == JustificationStmts(j, ep);
    ListAdds(p.db, JustificationStmts(j, ep));
    JustificationDone(p.db, Apply(p, e).value.db, JustificationStmts(j, ep), j, ep);
    OnlyAdded(p.db, Apply(p, e).value.db, JustificationStmts(j, ep));
  }

  lemma OnlyAdded(db: Db, after: Db, stmts: seq<Stmt>)
    requires Grown(db, after, stmts)
    ensures forall k <- db :: k in after && after[k] == db[k]
    ensures forall k <- after :: k in db || exists s <- stmts :: Brought(after, s, k)
  {
  }

  /******* Beliefs *******/

  function LinkKey(b: Payload, i: nat, ep: string): Key
    requires b.BeliefAdmitted? && i < |b.evidence|
  {
    Key(BeliefEvidence, [Text(ep), Text(b.id), Text(b.evidence[i].evidenceId), b.evidence[i].span])
  }

  // The rows that an admitted belief consists of.
  predicate BeliefPart(k: Key, b: Payload, ep: string)
    requires b.BeliefAdmitted?
  {
    || k == Key(Beliefs, [Text(b.id)])
    || k == Key(SourceRoots, [Text(ep), Text(b.id)])
    || k == Key(Fingerprints, [Text(ep), Text(b.id)])
    || (exists i | 0 <= i < |b.evidence| :: k == LinkKey(b, i, ep))
    || (exists j <- b.justifications :: JustificationPart(k, j, ep))
  }

  lemma EvidenceListed(b: Payload, ep: string, i: nat)
    requires b.BeliefAdmitted? && i < |b.evidence|
    ensures Own(Evidence, b.evidence[i].evidenceId, ep) in BeliefStmts(b, ep)
    ensures EvidenceLink(b.id, b.evidence[i], ep) in BeliefStmts(b, ep)
  {
    hide AllJustifications, EvidenceLink;
    var stmts := BeliefStmts(b, ep);
    assert stmts[2 + i] == Own(Evidence, b.evidence[i].evidenceId, ep);
    assert stmts[3 + |b.evidence| + i] == EvidenceLink(b.id, b.evidence[i], ep);
  }

  lemma BeliefListed(b: Payload, ep: string)
    requires b.BeliefAdmitted?
    ensures Check(b.owner == ep) in BeliefStmts(b, ep) && Own(Sources, b.source, ep) in BeliefStmts(b, ep)
    ensures Insert(Key(Beliefs, [Text(b.id)]), Row(ep, b.cols["status" := Text(b.status)]["source_id" := Text(b.source)]))
            in BeliefStmts(b, ep)
    ensures forall s <- AllJustifications(b.justifications, ep) :: s in BeliefStmts(b, ep)
    ensures InsertCopying(Key(SourceRoots, [Text(ep), Text(b.id)]), Row(ep, map["transport" := b.transport]),
                          Key(Sources, [Text(b.source)]), "root", Text("unknown")) in BeliefStmts(b, ep)
    ensures InsertCopying(Key(Fingerprints, [Text(ep), Text(b.id)]), Row(ep, map["fingerprint" := Fingerprint(b.cols)]),
                          Key(Sources, [Text(b.source)]), "root", Text("unknown")) in BeliefStmts(b, ep)
  {
    hide AllJustifications, EvidenceLink, Fingerprint;
    var stmts, m := BeliefStmts(b, ep), |b.evidence|;
    var js := AllJustifications(b.justifications, ep);
    assert [Text(ep)] + [Text(b.id)] == [Text(ep), Text(b.id)];
    assert stmts[0] == Check(b.owner == ep) && stmts[1] == Own(Sources, b.source, ep);
    assert stmts[2 + m].Insert?;
    assert forall n | 0 <= n < |js| :: stmts[3 + 2 * m + n] == js[n];
    assert stmts[3 + 2 * m + |js|].InsertCopying? && stmts[4 + 2 * m + |js|].InsertCopying?;
  }

  lemma BeliefAdds(b: Payload, ep: string)
    requires b.BeliefAdmitted?
    ensures forall s <- BeliefStmts(b, ep) :: Adding(s)
    ensures forall s, k :: s in BeliefStmts(b, ep) && Adds(s, k) ==> BeliefPart(k, b, ep)
  {
    hide AllJustifications, JustificationPart;
    JustificationsListed(b.justifications, ep);
    assert [Text(ep)] + [Text(b.id)] == [Text(ep), Text(b.id)];
    forall i | 0 <= i < |b.evidence|
      ensures Adding(EvidenceLink(b.id, b.evidence[i], ep))
      ensures EvidenceLink(b.id, b.evidence[i], ep).key == LinkKey(b, i, ep)
    {
      assert [Text(ep)] + [Text(b.id), Text(b.evidence[i].evidenceId), b.evidence[i].span]
          == [Text(ep), Text(b.id), Text(b.evidence[i].evidenceId), b.evidence[i].span];
    }
  }

  // An admitted belief has its row, a link to each piece of its evidence, its justifications, and
  // one row each for its source root and its fingerprint, both with the root of its source; and
  // nothing else has changed.
  lemma LinkRow(b: Payload, ep: string, i: nat, s: Stmt)
    requires b.BeliefAdmitted? && i < |b.evidence| && s in BeliefStmts(b, ep) && Adds(s, LinkKey(b, i, ep))
    ensures (s.Insert? || s.InsertIgnore?) && s.row == Row(ep, map["span_json" := b.evidence[i].span])
  {
    hide AllJustifications, JustificationStmts;
    JustificationsListed(b.justifications, ep);
    forall j: nat | j < |b.evidence|
      ensures EvidenceLink(b.id, b.evidence[j], ep).key == LinkKey(b, j, ep)
    {
      assert [Text(ep)] + [Text(b.id), Text(b.evidence[j].evidenceId), b.evidence[j].span]
          == [Text(ep), Text(b.id), Text(b.evidence[j].evidenceId), b.evidence[j].span];
    }
  }

  lemma LinkMade(db: Db, after: Db, b: Payload, ep: string, i: nat)
    requires b.BeliefAdmitted? && i < |b.evidence| && Grown(db, after, BeliefStmts(b, ep))
    requires LinkKey(b, i, ep) in after && LinkKey(b, i, ep) !in db
    ensures after[LinkKey(b, i, ep)] == Row(ep, map["span_json" := b.evidence[i].span])
  {
    hide BeliefStmts;
    var s :| s in BeliefStmts(b, ep) && Brought(after, s, LinkKey(b, i, ep));
    LinkRow(b, ep, i, s);
    ListDone(db, after, BeliefStmts(b, ep), s);
  }

  lemma BeliefMade(p: Projection, e: Event)
    requires Apply(p, e).Some? && e.body.payload.BeliefAdmitted?
    ensures var b, ep, after := e.body.payload, e.body.episodeId, Apply(p, e).value.db;
      var root := if Key(Sources, [Text(b.source)]) in p.db then Column(p.db[Key(Sources, [Text(b.source)])], "root") else Null;
      && b.owner == ep && Entity(p.db, Sources, b.source, ep)
      && (forall i | 0 <= i < |b.evidence| :: Entity(p.db, Evidence, b.evidence[i].evidenceId, ep))
      && Key(Beliefs, [Text(b.id)]) !in p.db
      && (forall k <- p.db :: k in after && after[k] == p.db[k])
      && (forall k <- after :: k in p.db || BeliefPart(k, b, ep))
      && Holds(after, Key(Beliefs, [Text(b.id)]), Row(ep, b.cols["status" := Text(b.status)]["source_id" := Text(b.source)]))
      && (forall i | 0 <= i < |b.evidence| :: LinkKey(b, i, ep) in after
            && (LinkKey(b, i, ep) !in p.db ==> after[LinkKey(b, i, ep)] == Row(ep, map["span_json" := b.evidence[i].span])))
      && (forall j <- b.justifications :: JustificationThere(after, j, ep))
      && Holds(after, Key(SourceRoots, [Text(ep), Text(b.id)]), Row(ep, map["transport" := b.transport, "root" := root]))
      && Holds(after, Key(Fingerprints, [Text(ep), Text(b.id)]),
               Row(ep, map["fingerprint" := if "content_fingerprint" in b.cols then b.cols["content_fingerprint"] else Null,
                           "root" := root]))
  {
    hide Statements, Exec, ExecAll, BeliefStmts, Grown, JustificationThere, JustificationPart, AllJustifications, JustificationStmts;
    AppliedEvent(p, e);
    var b, ep, after, stmts := e.body.payload, e.body.episodeId, Apply(p, e).value.db, BeliefStmts(e.body.payload, e.body.episodeId);
    BeliefListed(b, ep);
    BeliefAdds(b, ep);
    assert Handler(e.body) == stmts;
    ListAdds(p.db, stmts);
    OnlyAdded(p.db, after, stmts);
    BeliefGuards(p.db, after, b, ep);
    BeliefRows(p.db, after, b, ep);
    JustificationsListed(b.justifications, ep);
    forall i: nat | i < |b.evidence| && LinkKey(b, i, ep) !in p.db
      ensures after[LinkKey(b, i, ep)] == Row(ep, map["span_json" := b.evidence[i].span])
    {
      LinkMade(p.db, after, b, ep, i);
    }
    forall j | j in b.justifications ensures JustificationThere(after, j, ep) { JustificationDone(p.db, after, stmts, j, ep); }
  }

  predicate Holds(db: Db, k: Key, r: Row) {
    k in db && db[k] == r
  }

  lemma BeliefGuards(db: Db, after: Db, b: Payload, ep: string)
    requires b.BeliefAdmitted? && Grown(db, after, BeliefStmts(b, ep))
    requires forall k <- after :: k in db || BeliefPart(k, b, ep)
    requires forall k <- db :: k in after && after[k] == db[k]
    ensures b.owner == ep && Entity(db, Sources, b.source, ep)
    ensures forall i | 0 <= i < |b.evidence| ::
              Entity(db, Evidence, b.evidence[i].evidenceId, ep) && LinkKey(b, i, ep) in after
  {
    hide BeliefStmts;
    BeliefListed(b, ep);
    assert Done(db, after, Check(b.owner == ep)) && Done(db, after, Own(Sources, b.source, ep));
    assert !BeliefPart(Id(Sources, b.source), b, ep);
    hide Done, Grown, BeliefPart, LinkKey;
    forall i | 0 <= i < |b.evidence|
      ensures Entity(db, Evidence, b.evidence[i].evidenceId, ep) && LinkKey(b, i, ep) in after
    {
      EvidenceGuard(db, after, b, ep, i);
    }
  }

  lemma EvidenceGuard(db: Db, after: Db, b: Payload, ep: string, i: nat)
    requires b.BeliefAdmitted? && i < |b.evidence| && Grown(db, after, BeliefStmts(b, ep))
    requires forall k <- after :: k in db || BeliefPart(k, b, ep)
    requires forall k <- db :: k in after && after[k] == db[k]
    ensures Entity(db, Evidence, b.evidence[i].evidenceId, ep) && LinkKey(b, i, ep) in after
  {
    hide BeliefStmts;
    EvidenceListed(b, ep, i);
    assert Done(db, after, Own(Evidence, b.evidence[i].evidenceId, ep));
    assert !BeliefPart(Id(Evidence, b.evidence[i].evidenceId), b, ep);
    assert Done(db, after, EvidenceLink(b.id, b.evidence[i], ep));
    assert [Text(ep)] + [Text(b.id), Text(b.evidence[i].evidenceId), b.evidence[i].span]
        == [Text(ep), Text(b.id), Text(b.evidence[i].evidenceId), b.evidence[i].span];
  }

  lemma BeliefRows(db: Db, after: Db, b: Payload, ep: string)
    requires b.BeliefAdmitted? && Grown(db, after, BeliefStmts(b, ep)) && Key(Sources, [Text(b.source)]) in db
    ensures Key(Beliefs, [Text(b.id)]) !in db
    ensures Holds(after, Key(Beliefs, [Text(b.id)]), Row(ep, b.cols["status" := Text(b.status)]["source_id" := Text(b.source)]))
    ensures var root := Column(db[Key(Sources, [Text(b.source)])], "root");
      && Holds(after, Key(SourceRoots, [Text(ep), Text(b.id)]), Row(ep, map["transport" := b.transport, "root" := root]))
      && Holds(after, Key(Fingerprints, [Text(ep), Text(b.id)]),
               Row(ep, map["fingerprint" := if "content_fingerprint" in b.cols then b.cols["content_fingerprint"] else Null,
                           "root" := root]))
  {
    hide BeliefStmts;
    BeliefListed(b, ep);
    var from := Key(Sources, [Text(b.source)]);
    assert Done(db, after, Insert(Key(Beliefs, [Text(b.id)]), Row(ep, b.cols["status" := Text(b.status)]["source_id" := Text(b.source)])));
    assert Done(db, after, InsertCopying(Key(SourceRoots, [Text(ep), Text(b.id)]), Row(ep, map["transport" := b.transport]), from, "root", Text("unknown")));
    assert Done(db, after, InsertCopying(Key(Fingerprints, [Text(ep), Text(b.id)]), Row(ep, map["fingerprint" := Fingerprint(b.cols)]), from, "root", Text("unknown")));
    var transport: Columns, fingerprint: Columns := map["transport" := b.transport], map["fingerprint" := Fingerprint(b.cols)];
    var root := Column(db[from], "root");
    assert transport["root" := root] == map["transport" := b.transport, "root" := root];
    assert fingerprint["root" := root] == map["fingerprint" := Fingerprint(b.cols), "root" := root];
  }

  /******* Rendered beliefs *******/

  predicate RenderedBy(s: Stmt, rs: seq<RenderedRef>, ep: string) {
    exists r <- rs :: s == InsertIgnore(RenderedKey(r, ep), Row(ep, r.cols))
  }

  function RenderedKey(r: RenderedRef, ep: string): Key {
    Key(Rendered, [Text(ep), Text(r.belief), Text(r.requestId)])
  }

  lemma {:induction false} RenderedListed(rs: seq<RenderedRef>, ep: string)
    ensures forall s <- RenderedStmts(rs, ep) :: Adding(s)
    ensures forall s <- RenderedStmts(rs, ep) :: s.Owned? || RenderedBy(s, rs, ep)
    ensures forall r <- rs ::
      Own(Beliefs, r.belief, ep) in RenderedStmts(rs, ep) && InsertIgnore(RenderedKey(r, ep), Row(ep, r.cols)) in RenderedStmts(rs, ep)
  {
    if rs != [] {
      var init, last := rs[..|rs| - 1], rs[|rs| - 1];
      assert rs == init + [last] && last in rs && forall r <- init :: r in rs;
      RenderedListed(init, ep);
      assert [Text(ep)] + [Text(last.belief), Text(last.requestId)] == [Text(ep), Text(last.belief), Text(last.requestId)];
      var two := [Own(Beliefs, last.belief, ep), InsertIgnore(RenderedKey(last, ep), Row(ep, last.cols))];
      assert RenderedStmts(rs, ep) == RenderedStmts(init, ep) + two;
      assert two[0] in two && two[1] in two;
      forall s | RenderedBy(s, init, ep) ensures RenderedBy(s, rs, ep) {
        var r :| r in init && s == InsertIgnore(RenderedKey(r, ep), Row(ep, r.cols));
        assert r in rs;
      }
    }
  }

  // Every rendered belief is of the episode and has a row for its request; rows there already
  // stay, and nothing else has come.
  lemma ContextMade(p: Projection, e: Event)
    requires Apply(p, e).Some? && e.body.payload.ContextCompiled?
    ensures var rs, ep, after := e.body.payload.rendered, e.body.episodeId, Apply(p, e).value.db;
      && (forall k <- p.db :: k in after && after[k] == p.db[k])
      && (forall k <- after :: k in p.db || exists r <- rs :: k == RenderedKey(r, ep) && after[k] == Row(ep, r.cols))
      && (forall r <- rs :: Entity(after, Beliefs, r.belief, ep) && RenderedKey(r, ep) in after)
  {
    hide Statements, Exec, ExecAll, RenderedStmts, Grown;
    AppliedEvent(p, e);
    var rs, ep, after := e.body.payload.rendered, e.body.episodeId, Apply(p, e).value.db;
    RenderedListed(rs, ep);
    assert Handler(e.body) == RenderedStmts(rs, ep);
    ListAdds(p.db, RenderedStmts(rs, ep));
    OnlyAdded(p.db, after, RenderedStmts(rs, ep));
    forall k | k in after && k !in p.db ensures exists r <- rs :: k == RenderedKey(r, ep) && after[k] == Row(ep, r.cols) {
      var s :| s in RenderedStmts(rs, ep) && Brought(after, s, k);
    }
    forall r | r in rs ensures Entity(after, Beliefs, r.belief, ep) && RenderedKey(r, ep) in after {
      ListDone(p.db, after, RenderedStmts(rs, ep), Own(Beliefs, r.belief, ep));
      ListDone(p.db, after, RenderedStmts(rs, ep), InsertIgnore(RenderedKey(r, ep), Row(ep, r.cols)));
      OwnedIs(after, r.belief, ep);
    }
  }

  lemma ListDone(db: Db, after: Db, stmts: seq<Stmt>, s: Stmt)
    requires Grown(db, after, stmts) && s in stmts
    ensures Done(db, after, s)
  {
  }

  // An event without a handler moves the head and nothing else.
  lemma UnprojectedMovesHead(p: Projection, e: Event)
    requires Apply(p, e).Some? && e.body.payload.Unprojected?
    ensures Apply(p, e).value == Projection(p.db, p.heads[e.body.episodeId := Head(e.body.seq_, e.hash)])
  {
    hide Statements;
    AppliedEvent(p, e);
    assert ExecAll(p.db, []) == Some(p.db);
  }
}
