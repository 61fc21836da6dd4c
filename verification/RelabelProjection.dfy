/**
 The relabel model against the projection tables: every draft is carried out by its projection
 handler exactly as the model's view says, so the outcome reached on the view is the outcome
 reached in the tables.
 */
module RelabelProjection {
  import opened Wrappers
  import opened Sql
  import P = Projections
  import R = Relabel

  function StatusText(s: R.Status): string {
    match s
    case IN => "in"
    case OUT => "out"
    case PENDING => "pending"
    case QUARANTINED => "quarantined"
  }

  predicate Entity(db: Db, t: Table, id: string, ep: string) {
    P.Id(t, id) in db && db[P.Id(t, id)].episode == ep
  }

  predicate Reads(r: Row, c: string, v: Value) {
    Column(r, c) == v
  }

  function OpenText(open: bool, closed: string): Value {
    Text(if open then "open" else closed)
  }

  predicate BeliefRow(r: Row, b: R.Belief) {
    && Reads(r, "status", Text(StatusText(b.status)))
    && Reads(r, "admission_status", Text(StatusText(b.admission)))
    && Reads(r, "source_id", Text(b.source))
  }

  predicate EdgeRow(r: Row, active: bool) {
    Reads(r, "active", Flag(active))
  }

  predicate TaskRow(r: Row, t: R.Task) {
    Reads(r, "belief_id", Text(t.belief)) && Reads(r, "method", Text(t.method_)) && Reads(r, "state", OpenText(t.open, "completed"))
  }

  predicate ConflictRow(r: Row, c: R.Conflict) {
    && Reads(r, "left_belief_id", Text(c.left))
    && Reads(r, "right_belief_id", Text(c.right))
    && Reads(r, "state", OpenText(c.open, "resolved"))
  }

  predicate NoticeRow(r: Row, n: R.Notice) {
    Reads(r, "defeated_belief_id", Text(n.belief)) && (n.active <==> Reads(r, "state", Text("active")))
  }

  predicate SourceRow(r: Row, s: R.Stats) {
    && Number(Column(r, "confirmed")) == s.confirmed
    && Number(Column(r, "defeated")) == s.defeated
    && Number(Column(r, "samples")) == s.samples
  }

  // One table of the database read as the map of one episode's rows.
  ghost predicate Tabulates<T>(db: Db, t: Table, ep: string, m: map<string, T>, row: (Row, T) -> bool) {
    && (forall id :: id in m <==> Entity(db, t, id, ep))
    && (forall id <- m :: row(db[P.Id(t, id)], m[id]))
  }

  // Tables with a UNIQUE constraint: plain keys, and no two rows that clash.
  ghost predicate Unclashing(db: Db, t: Table) {
    && (forall k <- db :: k.table == t ==> |k.pk| == 1 && k.pk[0].Text?)
    && (forall k <- db :: k.table == t ==> UniqueOk(db, k, db[k]))
  }

  // The tables show the view.
  ghost predicate Shows(db: Db, ep: string, v: R.View) {
    && P.Id(Episodes, ep) in db
    && Tabulates(db, Beliefs, ep, v.beliefs, BeliefRow)
    && Tabulates(db, Defeats, ep, v.edges, EdgeRow)
    && Tabulates(db, Tasks, ep, v.tasks, TaskRow)
    && Tabulates(db, Conflicts, ep, v.conflicts, ConflictRow)
    && Tabulates(db, Notices, ep, v.notices, NoticeRow)
    && Tabulates(db, Sources, ep, v.sources, SourceRow)
    && Unclashing(db, Tasks) && Unclashing(db, Conflicts) && Unclashing(db, Sources)
  }

  /******* One row written *******/

  lemma OtherTable<T>(db: Db, t: Table, ep: string, m: map<string, T>, row: (Row, T) -> bool, k: Key, r: Row)
    requires Tabulates(db, t, ep, m, row) && k.table != t
    ensures Tabulates(db[k := r], t, ep, m, row)
  {
    var after := db[k := r];
    forall id ensures id in m <==> Entity(after, t, id, ep) { assert P.Id(t, id) != k; }
    forall id <- m ensures row(after[P.Id(t, id)], m[id]) { assert P.Id(t, id) != k; }
  }

  lemma OtherUnclashing(db: Db, t: Table, k: Key, r: Row)
    requires Unclashing(db, t) && k.table != t
    ensures Unclashing(db[k := r], t)
  {
    hide Clash;
    var after := db[k := r];
    forall q <- after | q.table == t ensures UniqueOk(after, q, after[q]) {
      assert UniqueOk(db, q, db[q]);
    }
  }

  lemma ThisTable<T>(db: Db, t: Table, ep: string, m: map<string, T>, row: (Row, T) -> bool, id: string, x: T, r: Row)
    requires Tabulates(db, t, ep, m, row) && r.episode == ep && row(r, x)
    ensures Tabulates(db[P.Id(t, id) := r], t, ep, m[id := x], row)
  {
    var after, k := db[P.Id(t, id) := r], P.Id(t, id);
    forall j ensures j in m[id := x] <==> Entity(after, t, j, ep) { assert P.Id(t, j) == k <==> j == id; }
    forall j <- m[id := x] ensures row(after[P.Id(t, j)], m[id := x][j]) { assert P.Id(t, j) == k <==> j == id; }
  }

  lemma ClashSymmetric(t: Table, r: Row, q: Row)
    ensures Clash(t, r, q) <==> Clash(t, q, r)
  {
  }

  lemma ThisUnclashing(db: Db, t: Table, id: string, r: Row)
    requires Unclashing(db, t) && UniqueOk(db, P.Id(t, id), r)
    ensures Unclashing(db[P.Id(t, id) := r], t)
  {
    hide Clash;
    var after, k := db[P.Id(t, id) := r], P.Id(t, id);
    forall q <- after | q.table == t ensures UniqueOk(after, q, after[q]) {
      forall p <- after | p.table == t && p != q ensures !Clash(t, after[q], after[p]) {
        if q != k && p == k { ClashSymmetric(t, r, db[q]); }
        if q != k && p != k { assert UniqueOk(db, q, db[q]); }
      }
    }
  }

  /******* What the handlers of the drafts execute *******/

  lemma OwnIsEntity(db: Db, t: Table, id: string, ep: string)
    ensures Exec(db, P.Own(t, id, ep)) == if Entity(db, t, id, ep) then Some(db) else None
  {
    assert P.Id(t, id) in [P.Id(t, id)];
  }

  lemma AmendIsPut(db: Db, t: Table, id: string, ep: string, sets: Columns)
    ensures ExecAll(db, P.Amend(t, id, ep, sets)) ==
            if Entity(db, t, id, ep) then Put(db, P.Id(t, id), Row(ep, db[P.Id(t, id)].cols + sets)) else None
  {
    hide Put;
    var update := Update(P.Id(t, id), sets);
    assert P.Amend(t, id, ep, sets) == [P.Own(t, id, ep)] + [update];
    ExecFirst(db, P.Own(t, id, ep), [update]);
    OwnIsEntity(db, t, id, ep);
    ExecOne(db, update);
  }

  lemma {:induction false} OwnEachIsEntities(db: Db, ids: seq<string>, ep: string)
    ensures ExecAll(db, P.OwnEach(ids, ep)) == if forall x <- ids :: Entity(db, Beliefs, x, ep) then Some(db) else None
    decreases |ids|
  {
    hide Exec;
    if ids != [] {
      var init, last := ids[..|ids| - 1], ids[|ids| - 1];
      OwnEachIsEntities(db, init, ep);
      assert P.OwnEach(ids, ep)[..|ids| - 1] == P.OwnEach(init, ep);
      OwnIsEntity(db, Beliefs, last, ep);
      assert ids == init + [last];
    }
  }

  /******* A row written, and what the tables show then *******/

  lemma WriteBelief(db: Db, ep: string, v: R.View, id: string, x: R.Belief, r: Row)
    requires Shows(db, ep, v) && r.episode == ep && BeliefRow(r, x)
    ensures Shows(db[P.Id(Beliefs, id) := r], ep, v.(beliefs := v.beliefs[id := x]))
  {
    hide Tabulates, Unclashing, UniqueOk, BeliefRow, EdgeRow, TaskRow, ConflictRow, NoticeRow, SourceRow;
    var k := P.Id(Beliefs, id);
    ThisTable(db, Beliefs, ep, v.beliefs, BeliefRow, id, x, r);
    OtherTable(db, Defeats, ep, v.edges, EdgeRow, k, r);
    OtherTable(db, Tasks, ep, v.tasks, TaskRow, k, r);
    OtherTable(db, Conflicts, ep, v.conflicts, ConflictRow, k, r);
    OtherTable(db, Notices, ep, v.notices, NoticeRow, k, r);
    OtherTable(db, Sources, ep, v.sources, SourceRow, k, r);
    OtherUnclashing(db, Tasks, k, r);
    OtherUnclashing(db, Conflicts, k, r);
    OtherUnclashing(db, Sources, k, r);
  }

  lemma WriteEdge(db: Db, ep: string, v: R.View, id: string, x: bool, r: Row)
    requires Shows(db, ep, v) && r.episode == ep && EdgeRow(r, x)
    ensures Shows(db[P.Id(Defeats, id) := r], ep, v.(edges := v.edges[id := x]))
  {
    hide Tabulates, Unclashing, UniqueOk, BeliefRow, EdgeRow, TaskRow, ConflictRow, NoticeRow, SourceRow;
    var k := P.Id(Defeats, id);
    ThisTable(db, Defeats, ep, v.edges, EdgeRow, id, x, r);
    OtherTable(db, Beliefs, ep, v.beliefs, BeliefRow, k, r);
    OtherTable(db, Tasks, ep, v.tasks, TaskRow, k, r);
    OtherTable(db, Conflicts, ep, v.conflicts, ConflictRow, k, r);
    OtherTable(db, Notices, ep, v.notices, NoticeRow, k, r);
    OtherTable(db, Sources, ep, v.sources, SourceRow, k, r);
    OtherUnclashing(db, Tasks, k, r);
    OtherUnclashing(db, Conflicts, k, r);
    OtherUnclashing(db, Sources, k, r);
  }

  lemma WriteTask(db: Db, ep: string, v: R.View, id: string, x: R.Task, r: Row)
    requires Shows(db, ep, v) && r.episode == ep && TaskRow(r, x) && UniqueOk(db, P.Id(Tasks, id), r)
    ensures Shows(db[P.Id(Tasks, id) := r], ep, v.(tasks := v.tasks[id := x]))
  {
    hide Tabulates, Unclashing, UniqueOk, BeliefRow, EdgeRow, TaskRow, ConflictRow, NoticeRow, SourceRow;
    var k := P.Id(Tasks, id);
    ThisTable(db, Tasks, ep, v.tasks, TaskRow, id, x, r);
    ThisUnclashing(db, Tasks, id, r);
    OtherTable(db, Beliefs, ep, v.beliefs, BeliefRow, k, r);
    OtherTable(db, Defeats, ep, v.edges, EdgeRow, k, r);
    OtherTable(db, Conflicts, ep, v.conflicts, ConflictRow, k, r);
    OtherTable(db, Notices, ep, v.notices, NoticeRow, k, r);
    OtherTable(db, Sources, ep, v.sources, SourceRow, k, r);
    OtherUnclashing(db, Conflicts, k, r);
    OtherUnclashing(db, Sources, k, r);
  }

  lemma WriteConflict(db: Db, ep: string, v: R.View, id: string, x: R.Conflict, r: Row)
    requires Shows(db, ep, v) && r.episode == ep && ConflictRow(r, x) && UniqueOk(db, P.Id(Conflicts, id), r)
    ensures Shows(db[P.Id(Conflicts, id) := r], ep, v.(conflicts := v.conflicts[id := x]))
  {
    hide Tabulates, Unclashing, UniqueOk, BeliefRow, EdgeRow, TaskRow, ConflictRow, NoticeRow, SourceRow;
    var k := P.Id(Conflicts, id);
    ThisTable(db, Conflicts, ep, v.conflicts, ConflictRow, id, x, r);
    ThisUnclashing(db, Conflicts, id, r);
    OtherTable(db, Beliefs, ep, v.beliefs, BeliefRow, k, r);
    OtherTable(db, Defeats, ep, v.edges, EdgeRow, k, r);
    OtherTable(db, Tasks, ep, v.tasks, TaskRow, k, r);
    OtherTable(db, Notices, ep, v.notices, NoticeRow, k, r);
    OtherTable(db, Sources, ep, v.sources, SourceRow, k, r);
    OtherUnclashing(db, Tasks, k, r);
    OtherUnclashing(db, Sources, k, r);
  }

  lemma WriteNotice(db: Db, ep: string, v: R.View, id: string, x: R.Notice, r: Row)
    requires Shows(db, ep, v) && r.episode == ep && NoticeRow(r, x)
    ensures Shows(db[P.Id(Notices, id) := r], ep, v.(notices := v.notices[id := x]))
  {
    hide Tabulates, Unclashing, UniqueOk, BeliefRow, EdgeRow, TaskRow, ConflictRow, NoticeRow, SourceRow;
    var k := P.Id(Notices, id);
    ThisTable(db, Notices, ep, v.notices, NoticeRow, id, x, r);
    OtherTable(db, Beliefs, ep, v.beliefs, BeliefRow, k, r);
    OtherTable(db, Defeats, ep, v.edges, EdgeRow, k, r);
    OtherTable(db, Tasks, ep, v.tasks, TaskRow, k, r);
    OtherTable(db, Conflicts, ep, v.conflicts, ConflictRow, k, r);
    OtherTable(db, Sources, ep, v.sources, SourceRow, k, r);
    OtherUnclashing(db, Tasks, k, r);
    OtherUnclashing(db, Conflicts, k, r);
    OtherUnclashing(db, Sources, k, r);
  }

  lemma WriteSource(db: Db, ep: string, v: R.View, id: string, x: R.Stats, r: Row)
    requires Shows(db, ep, v) && r.episode == ep && SourceRow(r, x) && UniqueOk(db, P.Id(Sources, id), r)
    ensures Shows(db[P.Id(Sources, id) := r], ep, v.(sources := v.sources[id := x]))
  {
    hide Tabulates, Unclashing, UniqueOk, BeliefRow, EdgeRow, TaskRow, ConflictRow, NoticeRow, SourceRow;
    var k := P.Id(Sources, id);
    ThisTable(db, Sources, ep, v.sources, SourceRow, id, x, r);
    ThisUnclashing(db, Sources, id, r);
    OtherTable(db, Beliefs, ep, v.beliefs, BeliefRow, k, r);
    OtherTable(db, Defeats, ep, v.edges, EdgeRow, k, r);
    OtherTable(db, Tasks, ep, v.tasks, TaskRow, k, r);
    OtherTable(db, Conflicts, ep, v.conflicts, ConflictRow, k, r);
    OtherTable(db, Notices, ep, v.notices, NoticeRow, k, r);
    OtherUnclashing(db, Tasks, k, r);
    OtherUnclashing(db, Conflicts, k, r);
  }

  /******* UNIQUE keys, in the tables and in the view *******/

  lemma NoUniqueKey(db: Db, k: Key, r: Row)
    requires UniqueColumns(k.table) == []
    ensures Put(db, k, r) == Some(db[k := r])
  {
  }

  lemma ThreeColumns(t: Table, r: Row, q: Row)
    requires t != Episodes && |UniqueColumns(t)| == 3
    ensures Clash(t, r, q) <==>
      && r.episode == q.episode
      && Column(r, UniqueColumns(t)[0]) == Column(q, UniqueColumns(t)[0])
      && Column(r, UniqueColumns(t)[1]) == Column(q, UniqueColumns(t)[1])
      && Column(r, UniqueColumns(t)[2]) == Column(q, UniqueColumns(t)[2])
  {
  }

  lemma TasksClash(r: Row, q: Row, t: R.Task, u: R.Task)
    requires TaskRow(r, t) && TaskRow(q, u)
    ensures Clash(Tasks, r, q) <==> r.episode == q.episode && t == u
  {
    ThreeColumns(Tasks, r, q);
    assert t.open != u.open ==> OpenText(t.open, "completed") != OpenText(u.open, "completed");
  }

  lemma ConflictsClash(r: Row, q: Row, c: R.Conflict, d: R.Conflict)
    requires ConflictRow(r, c) && ConflictRow(q, d)
    ensures Clash(Conflicts, r, q) <==> r.episode == q.episode && c.left == d.left && c.right == d.right && c.open == d.open
  {
    ThreeColumns(Conflicts, r, q);
    assert c.open != d.open ==> OpenText(c.open, "resolved") != OpenText(d.open, "resolved");
  }

  // A row of the episode, by its id.
  lemma RowOf<T>(db: Db, t: Table, ep: string, m: map<string, T>, row: (Row, T) -> bool, q: Key) returns (x: string)
    requires Tabulates(db, t, ep, m, row) && Unclashing(db, t) && q in db && q.table == t && db[q].episode == ep
    ensures q == P.Id(t, x) && x in m && row(db[q], m[x])
  {
    x := q.pk[0].text;
    assert q == P.Id(t, x);
    assert Entity(db, t, x, ep);
  }

  lemma TaskUniqueIff(db: Db, ep: string, v: R.View, id: string, t: R.Task, r: Row)
    requires Shows(db, ep, v) && TaskRow(r, t) && r.episode == ep
    ensures UniqueOk(db, P.Id(Tasks, id), r) <==> R.TaskUnique(v, id, t)
  {
    hide Clash, TaskRow, Unclashing, BeliefRow, EdgeRow, ConflictRow, NoticeRow, SourceRow;
    forall q <- db | q.table == Tasks && q != P.Id(Tasks, id) && R.TaskUnique(v, id, t) ensures !Clash(Tasks, r, db[q]) {
      if db[q].episode == ep {
        var x := RowOf(db, Tasks, ep, v.tasks, TaskRow, q);
        TasksClash(r, db[q], t, v.tasks[x]);
      } else {
        OtherEpisode(Tasks, r, db[q]);
      }
    }
    forall k <- v.tasks | k != id && UniqueOk(db, P.Id(Tasks, id), r) ensures v.tasks[k] != t {
      assert Entity(db, Tasks, k, ep);
      TasksClash(r, db[P.Id(Tasks, k)], t, v.tasks[k]);
      assert P.Id(Tasks, k) != P.Id(Tasks, id);
    }
  }

  lemma ConflictUniqueIff(db: Db, ep: string, v: R.View, id: string, c: R.Conflict, r: Row)
    requires Shows(db, ep, v) && ConflictRow(r, c) && r.episode == ep
    ensures UniqueOk(db, P.Id(Conflicts, id), r) <==> R.ConflictUnique(v, id, c.left, c.right, c.open)
  {
    hide Clash, TaskRow, Unclashing, BeliefRow, EdgeRow, ConflictRow, NoticeRow, SourceRow;
    forall q <- db | q.table == Conflicts && q != P.Id(Conflicts, id) && R.ConflictUnique(v, id, c.left, c.right, c.open)
      ensures !Clash(Conflicts, r, db[q])
    {
      if db[q].episode == ep {
        var x := RowOf(db, Conflicts, ep, v.conflicts, ConflictRow, q);
        ConflictsClash(r, db[q], c, v.conflicts[x]);
      } else {
        OtherEpisode(Conflicts, r, db[q]);
      }
    }
    forall k <- v.conflicts | k != id && UniqueOk(db, P.Id(Conflicts, id), r)
      ensures !(v.conflicts[k].left == c.left && v.conflicts[k].right == c.right && v.conflicts[k].open == c.open)
    {
      assert Entity(db, Conflicts, k, ep);
      ConflictsClash(r, db[P.Id(Conflicts, k)], c, v.conflicts[k]);
      assert P.Id(Conflicts, k) != P.Id(Conflicts, id);
    }
  }

  lemma OtherEpisode(t: Table, r: Row, q: Row)
    requires t != Episodes && r.episode != q.episode
    ensures !Clash(t, r, q)
  {
  }

  /******* Draft by draft *******/

  // What one draft may do in the tables: be refused with the view, or leave them showing its
  // next state.
  ghost predicate Refines(after: Option<Db>, ep: string, next: Option<R.View>) {
    match next
    case None => after == None
    case Some(w) => after.Some? && Shows(after.value, ep, w)
  }

  lemma Listed<T>(db: Db, t: Table, ep: string, m: map<string, T>, row: (Row, T) -> bool, id: string)
    requires Tabulates(db, t, ep, m, row)
    ensures id in m <==> Entity(db, t, id, ep)
    ensures id in m ==> row(db[P.Id(t, id)], m[id])
  {
  }

  // Setting columns of a row.
  lemma SetStatus(r: Row, b: R.Belief, to: R.Status)
    requires BeliefRow(r, b)
    ensures BeliefRow(Row(r.episode, r.cols + map["status" := Text(StatusText(to))]), b.(status := to))
  {
    hide StatusText;
  }

  lemma SetAdmission(r: Row, b: R.Belief, to: R.Status)
    requires BeliefRow(r, b)
    ensures BeliefRow(Row(r.episode, r.cols + map["admission_status" := Text(StatusText(to))]), b.(admission := to))
  {
    hide StatusText;
  }

  lemma SetCompleted(r: Row, t: R.Task, result: Value)
    requires TaskRow(r, t)
    ensures TaskRow(Row(r.episode, r.cols + map["result" := result, "state" := Text("completed")]), t.(open := false))
  {
  }

  lemma SetResolved(r: Row, c: R.Conflict)
    requires ConflictRow(r, c)
    ensures ConflictRow(Row(r.episode, r.cols + map["state" := Text("resolved")]), c.(open := false))
  {
  }

  lemma StatusRefines(db: Db, ep: string, v: R.View, b: string, to: R.Status)
    requires Shows(db, ep, v)
    ensures Refines(ExecAll(db, P.Amend(Beliefs, b, ep, map["status" := Text(StatusText(to))])), ep, R.Apply(v, R.StatusChanged(b, to)))
  {
    hide Tabulates, Unclashing, BeliefRow, StatusText, ExecAll, Put;
    var sets: Columns := map["status" := Text(StatusText(to))];
    AmendIsPut(db, Beliefs, b, ep, sets);
    Listed(db, Beliefs, ep, v.beliefs, BeliefRow, b);
    if b in v.beliefs {
      var r := Row(ep, db[P.Id(Beliefs, b)].cols + sets);
      SetStatus(db[P.Id(Beliefs, b)], v.beliefs[b], to);
      NoUniqueKey(db, P.Id(Beliefs, b), r);
      WriteBelief(db, ep, v, b, v.beliefs[b].(status := to), r);
    }
  }

  lemma AdmissionRefines(db: Db, ep: string, v: R.View, b: string, to: R.Status)
    requires Shows(db, ep, v)
    ensures Refines(ExecAll(db, P.Amend(Beliefs, b, ep, map["admission_status" := Text(StatusText(to))])), ep,
                    R.Apply(v, R.AdmissionChanged(b, to)))
  {
    hide Tabulates, Unclashing, BeliefRow, StatusText, ExecAll, Put;
    var sets: Columns := map["admission_status" := Text(StatusText(to))];
    AmendIsPut(db, Beliefs, b, ep, sets);
    Listed(db, Beliefs, ep, v.beliefs, BeliefRow, b);
    if b in v.beliefs {
      var r := Row(ep, db[P.Id(Beliefs, b)].cols + sets);
      SetAdmission(db[P.Id(Beliefs, b)], v.beliefs[b], to);
      NoUniqueKey(db, P.Id(Beliefs, b), r);
      WriteBelief(db, ep, v, b, v.beliefs[b].(admission := to), r);
    }
  }

  lemma EdgeRefines(db: Db, ep: string, v: R.View, e: string, active: bool)
    requires Shows(db, ep, v)
    ensures Refines(ExecAll(db, P.Amend(Defeats, e, ep, map["active" := Flag(active)])), ep, R.Apply(v, R.EdgeActivity(e, active)))
  {
    hide Tabulates, Unclashing, ExecAll, Put;
    var sets: Columns := map["active" := Flag(active)];
    AmendIsPut(db, Defeats, e, ep, sets);
    Listed(db, Defeats, ep, v.edges, EdgeRow, e);
    if e in v.edges {
      var r := Row(ep, db[P.Id(Defeats, e)].cols + sets);
      NoUniqueKey(db, P.Id(Defeats, e), r);
      WriteEdge(db, ep, v, e, active, r);
    }
  }

  lemma TaskCompletedRefines(db: Db, ep: string, v: R.View, id: string, result: Value)
    requires Shows(db, ep, v)
    ensures Refines(ExecAll(db, P.Amend(Tasks, id, ep, map["result" := result, "state" := Text("completed")])), ep,
                    R.Apply(v, R.TaskCompleted(id)))
  {
    hide Tabulates, Unclashing, TaskRow, ExecAll, UniqueOk, R.TaskUnique;
    var sets: Columns := map["result" := result, "state" := Text("completed")];
    AmendIsPut(db, Tasks, id, ep, sets);
    Listed(db, Tasks, ep, v.tasks, TaskRow, id);
    if id in v.tasks {
      var r, t := Row(ep, db[P.Id(Tasks, id)].cols + sets), v.tasks[id].(open := false);
      SetCompleted(db[P.Id(Tasks, id)], v.tasks[id], result);
      TaskUniqueIff(db, ep, v, id, t, r);
      if R.TaskUnique(v, id, t) { WriteTask(db, ep, v, id, t, r); }
    }
  }

  lemma ConflictResolvedRefines(db: Db, ep: string, v: R.View, id: string)
    requires Shows(db, ep, v)
    ensures Refines(ExecAll(db, P.Amend(Conflicts, id, ep, map["state" := Text("resolved")])), ep, R.Apply(v, R.ConflictResolved(id)))
  {
    hide Tabulates, Unclashing, ConflictRow, ExecAll, UniqueOk, R.ConflictUnique;
    var sets: Columns := map["state" := Text("resolved")];
    AmendIsPut(db, Conflicts, id, ep, sets);
    Listed(db, Conflicts, ep, v.conflicts, ConflictRow, id);
    if id in v.conflicts {
      var r, c := Row(ep, db[P.Id(Conflicts, id)].cols + sets), v.conflicts[id].(open := false);
      SetResolved(db[P.Id(Conflicts, id)], v.conflicts[id]);
      ConflictUniqueIff(db, ep, v, id, c, r);
      if R.ConflictUnique(v, id, c.left, c.right, false) { WriteConflict(db, ep, v, id, c, r); }
    }
  }

  // An insert of a row the episode owns, after its checks.
  lemma CheckedInsert(db: Db, checks: seq<Stmt>, k: Key, r: Row, ok: bool)
    requires ExecAll(db, checks) == if ok then Some(db) else None
    ensures ExecAll(db, checks + [Insert(k, r)]) == if ok && k !in db then Put(db, k, r) else None
  {
    hide Put;
    ExecConcat(db, checks, [Insert(k, r)]);
    ExecOne(db, Insert(k, r));
  }

  lemma OwnerAndBelief(db: Db, b: string, ep: string)
    ensures ExecAll(db, [Check(true), P.Own(Beliefs, b, ep)]) == if Entity(db, Beliefs, b, ep) then Some(db) else None
  {
    var own := P.Own(Beliefs, b, ep);
    assert [Check(true), own] == [Check(true)] + [own];
    ExecFirst(db, Check(true), [own]);
    ExecOne(db, own);
    OwnIsEntity(db, Beliefs, b, ep);
  }

  function TaskCols(cols: Columns, b: string): Columns {
    cols["belief_id" := Text(b)]["method" := Text(R.CROSS_SOURCE)]["state" := Text("open")]
  }

  lemma NewTaskRow(ep: string, cols: Columns, b: string)
    ensures TaskRow(Row(ep, TaskCols(cols, b)), R.Task(b, R.CROSS_SOURCE, true))
  {
  }

  lemma TaskCreatedRefines(db: Db, ep: string, v: R.View, id: string, b: string, cols: Columns)
    requires Shows(db, ep, v) && (P.Id(Tasks, id) in db ==> Entity(db, Tasks, id, ep))
    ensures Refines(ExecAll(db, [Check(true), P.Own(Beliefs, b, ep)] + [Insert(P.Id(Tasks, id), Row(ep, TaskCols(cols, b)))]), ep,
                    R.Apply(v, R.TaskCreated(id, b)))
  {
    hide Tabulates, Unclashing, TaskRow, TaskCols, ExecAll, UniqueOk, R.TaskUnique;
    var r, t := Row(ep, TaskCols(cols, b)), R.Task(b, R.CROSS_SOURCE, true);
    OwnerAndBelief(db, b, ep);
    CheckedInsert(db, [Check(true), P.Own(Beliefs, b, ep)], P.Id(Tasks, id), r, Entity(db, Beliefs, b, ep));
    Listed(db, Tasks, ep, v.tasks, TaskRow, id);
    Listed(db, Beliefs, ep, v.beliefs, BeliefRow, b);
    NewTaskRow(ep, cols, b);
    TaskUniqueIff(db, ep, v, id, t, r);
    if id !in v.tasks && R.TaskUnique(v, id, t) { WriteTask(db, ep, v, id, t, r); }
  }

  function ConflictCols(cols: Columns, left: string, right: string): Columns {
    cols["left_belief_id" := Text(left)]["right_belief_id" := Text(right)]["state" := Text("open")]
  }

  lemma NewConflictRow(ep: string, cols: Columns, left: string, right: string, task: string)
    ensures ConflictRow(Row(ep, ConflictCols(cols, left, right)), R.Conflict(left, right, task, true))
  {
  }

  function ConflictChecks(left: string, right: string, task: string, ep: string): seq<Stmt> {
    [Check(true), P.Own(Beliefs, left, ep), P.Own(Beliefs, right, ep), P.Own(Tasks, task, ep)]
  }

  lemma ConflictChecksExec(db: Db, left: string, right: string, task: string, ep: string)
    ensures ExecAll(db, ConflictChecks(left, right, task, ep)) ==
            if Entity(db, Beliefs, left, ep) && Entity(db, Beliefs, right, ep) && Entity(db, Tasks, task, ep) then Some(db) else None
  {
    hide Exec, P.Own;
    OwnerAndBelief(db, left, ep);
    OwnIsEntity(db, Beliefs, right, ep);
    OwnIsEntity(db, Tasks, task, ep);
    assert ConflictChecks(left, right, task, ep) ==
           [Check(true), P.Own(Beliefs, left, ep)] + ([P.Own(Beliefs, right, ep)] + [P.Own(Tasks, task, ep)]);
    ExecConcat(db, [Check(true), P.Own(Beliefs, left, ep)], [P.Own(Beliefs, right, ep)] + [P.Own(Tasks, task, ep)]);
    ExecFirst(db, P.Own(Beliefs, right, ep), [P.Own(Tasks, task, ep)]);
    ExecOne(db, P.Own(Tasks, task, ep));
  }

  lemma ConflictOpenedRefines(db: Db, ep: string, v: R.View, id: string, left: string, right: string, task: string, cols: Columns)
    requires Shows(db, ep, v) && (P.Id(Conflicts, id) in db ==> Entity(db, Conflicts, id, ep))
    ensures Refines(ExecAll(db, ConflictChecks(left, right, task, ep)
                                + [Insert(P.Id(Conflicts, id), Row(ep, ConflictCols(cols, left, right)))]), ep,
                    R.Apply(v, R.ConflictOpened(id, left, right, task)))
  {
    hide Tabulates, Unclashing, ConflictRow, ConflictCols, ConflictChecks, ExecAll, UniqueOk, R.ConflictUnique;
    var r, c := Row(ep, ConflictCols(cols, left, right)), R.Conflict(left, right, task, true);
    ConflictChecksExec(db, left, right, task, ep);
    CheckedInsert(db, ConflictChecks(left, right, task, ep), P.Id(Conflicts, id), r,
                  Entity(db, Beliefs, left, ep) && Entity(db, Beliefs, right, ep) && Entity(db, Tasks, task, ep));
    Listed(db, Conflicts, ep, v.conflicts, ConflictRow, id);
    Listed(db, Beliefs, ep, v.beliefs, BeliefRow, left);
    Listed(db, Beliefs, ep, v.beliefs, BeliefRow, right);
    Listed(db, Tasks, ep, v.tasks, TaskRow, task);
    NewConflictRow(ep, cols, left, right, task);
    ConflictUniqueIff(db, ep, v, id, c, r);
    if id !in v.conflicts && R.ConflictUnique(v, id, left, right, true) { WriteConflict(db, ep, v, id, c, r); }
  }

  function NoticeCols(cols: Columns, b: string): Columns {
    cols["defeated_belief_id" := Text(b)]["state" := Text("active")]
  }

  lemma NewNoticeRow(ep: string, cols: Columns, b: string, ds: seq<string>)
    ensures NoticeRow(Row(ep, NoticeCols(cols, b)), R.Notice(b, ds, true))
  {
  }

  lemma NoticeRefines(db: Db, ep: string, v: R.View, id: string, b: string, ds: seq<string>, cols: Columns)
    requires Shows(db, ep, v) && (P.Id(Notices, id) in db ==> Entity(db, Notices, id, ep))
    ensures Refines(ExecAll(db, [Check(true), P.Own(Beliefs, b, ep)] + P.OwnEach(ds, ep)
                                + [Insert(P.Id(Notices, id), Row(ep, NoticeCols(cols, b)))]), ep,
                    R.Apply(v, R.RetractionCreated(id, b, ds)))
  {
    hide Tabulates, Unclashing, NoticeRow, NoticeCols, ExecAll, Put, P.OwnEach, P.Own, Entity;
    var r := Row(ep, NoticeCols(cols, b));
    var checks := [Check(true), P.Own(Beliefs, b, ep)] + P.OwnEach(ds, ep);
    OwnerAndBelief(db, b, ep);
    OwnEachIsEntities(db, ds, ep);
    ExecConcat(db, [Check(true), P.Own(Beliefs, b, ep)], P.OwnEach(ds, ep));
    forall x <- ds ensures x in v.beliefs <==> Entity(db, Beliefs, x, ep) { Listed(db, Beliefs, ep, v.beliefs, BeliefRow, x); }
    CheckedInsert(db, checks, P.Id(Notices, id), r, Entity(db, Beliefs, b, ep) && forall x <- ds :: Entity(db, Beliefs, x, ep));
    Listed(db, Notices, ep, v.notices, NoticeRow, id);
    Listed(db, Beliefs, ep, v.beliefs, BeliefRow, b);
    EntityIsThere(db, Notices, id, ep);
    NewNoticeRow(ep, cols, b, ds);
    NoUniqueKey(db, P.Id(Notices, id), r);
    if id !in v.notices { WriteNotice(db, ep, v, id, R.Notice(b, ds, true), r); }
  }

  lemma EntityIsThere(db: Db, t: Table, id: string, ep: string)
    ensures Entity(db, t, id, ep) ==> P.Id(t, id) in db
  {
  }

  function StatDeltas(x: R.Delta): map<string, int> {
    map["confirmed" := x.confirmed, "defeated" := x.defeated, "samples" := x.samples]
  }

  lemma BumpedRow(r: Row, s: R.Stats, x: R.Delta)
    requires SourceRow(r, s)
    ensures var q := Bumped(r, StatDeltas(x), true);
      SourceRow(q, R.Learn(s, x)) && Column(q, "root") == Column(r, "root") && Column(q, "kind") == Column(r, "kind")
  {
  }

  lemma SourcesClash(r: Row, r': Row, q: Row)
    requires r.episode == r'.episode && Column(r, "root") == Column(r', "root") && Column(r, "kind") == Column(r', "kind")
    ensures Clash(Sources, r, q) <==> Clash(Sources, r', q)
  {
  }

  lemma StatsRefines(db: Db, ep: string, v: R.View, x: R.Delta)
    requires Shows(db, ep, v)
    ensures Refines(ExecAll(db, [P.Own(Sources, x.source, ep), Bump(P.Id(Sources, x.source), StatDeltas(x), true)]), ep,
                    R.Apply(v, R.StatsDelta(x)))
  {
    hide Tabulates, SourceRow, StatDeltas, ExecAll, Clash, P.Own, Bumped, R.Learn;
    var k, bump := P.Id(Sources, x.source), Bump(P.Id(Sources, x.source), StatDeltas(x), true);
    assert [P.Own(Sources, x.source, ep), bump] == [P.Own(Sources, x.source, ep)] + [bump];
    ExecFirst(db, P.Own(Sources, x.source, ep), [bump]);
    OwnIsEntity(db, Sources, x.source, ep);
    ExecOne(db, bump);
    Listed(db, Sources, ep, v.sources, SourceRow, x.source);
    if x.source in v.sources {
      var r := Bumped(db[k], StatDeltas(x), true);
      BumpedRow(db[k], v.sources[x.source], x);
      BumpedEpisode(db[k], StatDeltas(x));
      assert UniqueOk(db, k, db[k]);
      forall q <- db | q.table == Sources && q != k ensures !Clash(Sources, r, db[q]) { SourcesClash(db[k], r, db[q]); }
      WriteSource(db, ep, v, x.source, R.Learn(v.sources[x.source], x), r);
      ShowsIgnoresDeltas(db[k := r], ep, v.(sources := v.sources[x.source := R.Learn(v.sources[x.source], x)]), v.deltas + [x]);
    }
  }

  lemma BumpedEpisode(r: Row, deltas: map<string, int>)
    ensures Bumped(r, deltas, true).episode == r.episode
  {
  }

  // The deltas of the view are read from the log, not from a table.
  lemma ShowsIgnoresDeltas(db: Db, ep: string, v: R.View, deltas: seq<R.Delta>)
    requires Shows(db, ep, v)
    ensures Shows(db, ep, v.(deltas := deltas))
  {
    hide Tabulates, Unclashing;
  }

  /******* Whole batches *******/

  // The event a draft is recorded as, whatever columns it carries besides.
  predicate Realizes(e: P.Body, d: R.Draft) {
    match d
    case EdgeActivity(x, active) => e.payload == P.DefeatActivityChanged(active) && e.aggregateId == x
    case StatusChanged(b, to) => e.payload == P.BeliefStatusChanged(StatusText(to)) && e.aggregateId == b
    case AdmissionChanged(b, to) => e.payload == P.BeliefAdmissionChanged(StatusText(to)) && e.aggregateId == b
    case RetractionCreated(id, b, ds) =>
      e.payload.RetractionCreated? && e.payload == P.RetractionCreated(id, e.episodeId, b, ds, "active", e.payload.cols)
    case TaskCreated(id, b) =>
      e.payload.TaskCreated? && e.payload == P.TaskCreated(id, e.episodeId, b, R.CROSS_SOURCE, "open", e.payload.cols)
    case TaskCompleted(id) => e.payload.TaskCompleted? && e.payload.state == "completed" && e.aggregateId == id
    case ConflictOpened(id, l, r, t) =>
      e.payload.ConflictOpened? && e.payload == P.ConflictOpened(id, e.episodeId, l, r, t, "open", e.payload.cols)
    case ConflictResolved(id) => e.payload == P.ConflictResolved && e.aggregateId == id
    case StatsDelta(x) =>
      e.payload == P.SourceStatsDelta(x.belief, x.confirmed, x.defeated, x.samples) && e.aggregateId == x.source
    case DefeatCycle => e.payload == P.Unprojected("DEFEAT_CYCLE_SAMSAYA")
  }

  // Identifiers made up for new rows name no row of another episode.
  predicate NotElsewhere(db: Db, ep: string, d: R.Draft) {
    match d
    case RetractionCreated(id, _, _) => P.Id(Notices, id) !in Outside(db, ep)
    case TaskCreated(id, _) => P.Id(Tasks, id) !in Outside(db, ep)
    case ConflictOpened(id, _, _, _) => P.Id(Conflicts, id) !in Outside(db, ep)
    case _ => true
  }

  predicate Creates(d: R.Draft) {
    d.RetractionCreated? || d.TaskCreated? || d.ConflictOpened?
  }

  lemma AmendmentRefines(db: Db, v: R.View, d: R.Draft, e: P.Body)
    requires Shows(db, e.episodeId, v) && Realizes(e, d) && !Creates(d)
    ensures Refines(ExecAll(db, P.Handler(e)), e.episodeId, R.Apply(v, d))
  {
    hide Shows, Refines, ExecAll, R.Apply, StatusText, P.Own, P.Amend;
    var ep := e.episodeId;
    match d
    case EdgeActivity(x, active) => EdgeRefines(db, ep, v, x, active);
    case StatusChanged(b, to) => StatusRefines(db, ep, v, b, to);
    case AdmissionChanged(b, to) => AdmissionRefines(db, ep, v, b, to);
    case TaskCompleted(id) => TaskCompletedRefines(db, ep, v, id, e.payload.result);
    case ConflictResolved(id) => ConflictResolvedRefines(db, ep, v, id);
    case StatsDelta(x) => StatsRefines(db, ep, v, x);
    case DefeatCycle => NothingExecuted(db, v, ep);
    case _ =>
  }

  lemma CreationRefines(db: Db, v: R.View, d: R.Draft, e: P.Body)
    requires Shows(db, e.episodeId, v) && Realizes(e, d) && NotElsewhere(db, e.episodeId, d) && Creates(d)
    ensures Refines(ExecAll(db, P.Handler(e)), e.episodeId, R.Apply(v, d))
  {
    hide Shows, Refines, ExecAll, R.Apply, P.Own, P.OwnEach, P.Amend, Outside, Entity;
    var ep := e.episodeId;
    match d
    case RetractionCreated(id, b, ds) =>
      HereOrNowhere(db, Notices, id, ep);
      NoticeRefines(db, ep, v, id, b, ds, e.payload.cols);
    case TaskCreated(id, b) =>
      HereOrNowhere(db, Tasks, id, ep);
      TaskCreatedRefines(db, ep, v, id, b, e.payload.cols);
      assert P.Handler(e) == [Check(true), P.Own(Beliefs, b, ep)] + [Insert(P.Id(Tasks, id), Row(ep, TaskCols(e.payload.cols, b)))];
    case ConflictOpened(id, l, r, t) =>
      HereOrNowhere(db, Conflicts, id, ep);
      ConflictOpenedRefines(db, ep, v, id, l, r, t, e.payload.cols);
      assert P.Handler(e) == ConflictChecks(l, r, t, ep) + [Insert(P.Id(Conflicts, id), Row(ep, ConflictCols(e.payload.cols, l, r)))];
    case _ =>
  }

  lemma HereOrNowhere(db: Db, t: Table, id: string, ep: string)
    requires P.Id(t, id) !in Outside(db, ep)
    ensures P.Id(t, id) in db ==> Entity(db, t, id, ep)
  {
  }

  lemma NothingExecuted(db: Db, v: R.View, ep: string)
    requires Shows(db, ep, v)
    ensures Refines(ExecAll(db, []), ep, R.Apply(v, R.DefeatCycle))
  {
    hide Shows;
  }

  // One event: its handler does to the tables what the draft does to the view.
  lemma EventRefines(p: P.Projection, v: R.View, d: R.Draft, e: P.Event)
    requires WellKeyed(p.db) && Shows(p.db, e.body.episodeId, v) && Realizes(e.body, d) && NotElsewhere(p.db, e.body.episodeId, d)
    ensures match R.Apply(v, d)
            case None => P.Apply(p, e) == None
            case Some(w) =>
              && P.Apply(p, e).Some? && Shows(P.Apply(p, e).value.db, e.body.episodeId, w)
              && WellKeyed(P.Apply(p, e).value.db)
              && Outside(P.Apply(p, e).value.db, e.body.episodeId) == Outside(p.db, e.body.episodeId)
  {
    hide ExecAll, R.Apply, P.Handler, Realizes, NotElsewhere, Outside, WellKeyed, Tabulates, Unclashing;
    if Creates(d) { CreationRefines(p.db, v, d, e.body); } else { AmendmentRefines(p.db, v, d, e.body); }
    NoEpisode(e.body, d);
    ExecFirst(p.db, Exists(P.Id(Episodes, e.body.episodeId)), P.Handler(e.body));
    if R.Apply(v, d).Some? {
      P.ApplyOutside(p, e, e.body.episodeId);
    }
  }

  lemma NoEpisode(e: P.Body, d: R.Draft)
    requires Realizes(e, d)
    ensures !e.payload.EpisodeCreated?
  {
  }

  ghost predicate Recorded(events: seq<P.Event>, drafts: seq<R.Draft>, ep: string) {
    |events| == |drafts|
    && forall i | 0 <= i < |events| :: events[i].body.episodeId == ep && Realizes(events[i].body, drafts[i])
  }

  lemma SameElsewhere(db: Db, after: Db, ep: string, d: R.Draft)
    requires Outside(after, ep) == Outside(db, ep)
    ensures NotElsewhere(after, ep, d) <==> NotElsewhere(db, ep, d)
  {
  }

  // A batch of drafts, folded into the projection tables event by event, is accepted exactly
  // when the view accepts it, and leaves the tables showing the view it leads to.
  lemma {:induction false} BatchRefines(p: P.Projection, ep: string, v: R.View, drafts: seq<R.Draft>, events: seq<P.Event>)
    requires WellKeyed(p.db) && Shows(p.db, ep, v) && Recorded(events, drafts, ep)
    requires forall d <- drafts :: NotElsewhere(p.db, ep, d)
    ensures match R.ApplyAll(v, drafts)
            case None => P.FoldFrom(p, events) == None
            case Some(w) =>
              && P.FoldFrom(p, events).Some? && Shows(P.FoldFrom(p, events).value.db, ep, w)
              && WellKeyed(P.FoldFrom(p, events).value.db)
              && Outside(P.FoldFrom(p, events).value.db, ep) == Outside(p.db, ep)
    decreases |drafts|
  {
    hide R.Apply, P.Apply, Shows, WellKeyed, Outside, NotElsewhere, Realizes;
    if drafts != [] {
      var n := |drafts| - 1;
      assert forall d <- drafts[..n] :: d in drafts;
      BatchRefines(p, ep, v, drafts[..n], events[..n]);
      if R.ApplyAll(v, drafts[..n]).Some? {
        var q, u := P.FoldFrom(p, events[..n]).value, R.ApplyAll(v, drafts[..n]).value;
        assert drafts[n] in drafts;
        SameElsewhere(p.db, q.db, ep, drafts[n]);
        EventRefines(q, u, drafts[n], events[n]);
      }
    }
  }

  // So the rows themselves match the outcome once the view does.
  lemma TablesMatchOutcome(db: Db, ep: string, v: R.View, out: R.Outcome)
    requires Shows(db, ep, v) && R.OutcomeOk(v, out) && R.Matches(v, out)
    ensures forall b <- out.statuses ::
      Entity(db, Beliefs, b, ep) && Column(db[P.Id(Beliefs, b)], "status") == Text(StatusText(out.statuses[b]))
    ensures forall e :: Entity(db, Defeats, e, ep) ==>
      Column(db[P.Id(Defeats, e)], "active") == Flag(R.WantActive(out, e))
    ensures forall c :: Entity(db, Conflicts, c, ep) && Column(db[P.Id(Conflicts, c)], "state") == Text("open") ==>
      exists pair <- out.conflicts ::
        Column(db[P.Id(Conflicts, c)], "left_belief_id") == Text(pair.0)
        && Column(db[P.Id(Conflicts, c)], "right_belief_id") == Text(pair.1)
    ensures forall pair <- out.conflicts :: exists c :: OpenRow(db, ep, c, pair)
  {
    hide Unclashing, TaskRow, NoticeRow, SourceRow, R.WantActive;
    forall b <- out.statuses ensures Entity(db, Beliefs, b, ep) { Listed(db, Beliefs, ep, v.beliefs, BeliefRow, b); }
    forall e | Entity(db, Defeats, e, ep) ensures Column(db[P.Id(Defeats, e)], "active") == Flag(R.WantActive(out, e)) {
      Listed(db, Defeats, ep, v.edges, EdgeRow, e);
    }
    forall c | Entity(db, Conflicts, c, ep) && Column(db[P.Id(Conflicts, c)], "state") == Text("open")
      ensures exists pair <- out.conflicts ::
        Column(db[P.Id(Conflicts, c)], "left_belief_id") == Text(pair.0)
        && Column(db[P.Id(Conflicts, c)], "right_belief_id") == Text(pair.1)
    {
      Listed(db, Conflicts, ep, v.conflicts, ConflictRow, c);
      assert R.Pair(v.conflicts[c]) in R.OpenPairs(v);
    }
    forall pair <- out.conflicts ensures exists c :: OpenRow(db, ep, c, pair) {
      var c :| c in v.conflicts && v.conflicts[c].open && R.Pair(v.conflicts[c]) == pair;
      Listed(db, Conflicts, ep, v.conflicts, ConflictRow, c);
      assert OpenRow(db, ep, c, pair);
    }
  }

  predicate OpenRow(db: Db, ep: string, c: string, pair: (string, string)) {
    Entity(db, Conflicts, c, ep)
    && Column(db[P.Id(Conflicts, c)], "left_belief_id") == Text(pair.0)
    && Column(db[P.Id(Conflicts, c)], "right_belief_id") == Text(pair.1)
    && Column(db[P.Id(Conflicts, c)], "state") == Text("open")
  }
}
