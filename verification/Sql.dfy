/**
 The projection tables as one keyed store, and the statements the projection handlers execute
 against it. A statement that raises or violates a constraint yields None: the transaction
 around it is rolled back.
 */
module Sql {
  import opened Wrappers

  datatype Value = Null | Text(text: string) | Num(num: int) | Flag(flag: bool)

  type Columns = map<string, Value>

  datatype Table =
    | Episodes | Sources | Evidence | Beliefs | BeliefEvidence | Supports | Justifications | Premises
    | Defeats | Tasks | Conflicts | Notices | Rendered | SourceRoots | Fingerprints | Verdicts | Usage
    | Unpromoted | LintReports | GateDecisions | Responses

  datatype Key = Key(table: Table, pk: seq<Value>)

  // `episode` is the episode_id column, or for belief_evidence and justification_premises the
  // episode of the parent row; the keys of those two tables start with it here, which changes
  // no collision because a parent has one episode.
  datatype Row = Row(episode: string, cols: Columns)

  type Db = map<Key, Row>

  datatype Stmt =
    // Python guards: raise unless the condition holds.
    | Check(ok: bool)
    | Exists(key: Key)
    | Owned(keys: seq<Key>, owner: string)
    | Insert(key: Key, row: Row)
    // INSERT ... column := (SELECT from.column)
    | InsertCopying(key: Key, row: Row, source: Key, column: string, default: Value)
    // INSERT OR IGNORE, INSERT ... WHERE NOT EXISTS
    | InsertIgnore(key: Key, row: Row)
    // INSERT OR REPLACE
    | Replace(key: Key, row: Row)
    // UPDATE ... SET ... WHERE <primary key>
    | Update(key: Key, sets: Columns)
    // UPDATE ... SET column = MAX(0, column + delta)
    | Bump(key: Key, deltas: map<string, int>, clamped: bool)

  // The UNIQUE constraints of the schema beyond primary keys.
  function UniqueColumns(t: Table): seq<string> {
    match t
    case Episodes => ["episode_key"]
    case Sources => ["root", "kind"]
    case Tasks => ["belief_id", "method", "state"]
    case Conflicts => ["left_belief_id", "right_belief_id", "state"]
    case _ => []
  }

  function Column(r: Row, c: string): Value {
    if c in r.cols then r.cols[c] else Null
  }

  // episodes.episode_key is unique across the database, the others within an episode.
  predicate Clash(t: Table, r: Row, q: Row) {
    && UniqueColumns(t) != []
    && (t == Episodes || r.episode == q.episode)
    && forall i | 0 <= i < |UniqueColumns(t)| :: Column(r, UniqueColumns(t)[i]) == Column(q, UniqueColumns(t)[i])
  }

  predicate UniqueOk(db: Db, k: Key, r: Row) {
    forall q <- db :: q.table == k.table && q != k ==> !Clash(k.table, r, db[q])
  }

  predicate OwnedBy(db: Db, keys: seq<Key>, owner: string) {
    exists k <- keys :: k in db && db[k].episode == owner
  }

  function Number(v: Value): int {
    if v.Num? then v.num else 0
  }

  function Bumped(r: Row, deltas: map<string, int>, clamped: bool): Row {
    Row(r.episode,
        r.cols + map c | c in deltas ::
          var n := Number(Column(r, c)) + deltas[c];
          Num(if clamped && n < 0 then 0 else n))
  }

  function Put(db: Db, k: Key, r: Row): Option<Db> {
    if UniqueOk(db, k, r) then Some(db[k := r]) else None
  }

  function Exec(db: Db, s: Stmt): Option<Db> {
    match s
    case Check(ok) => if ok then Some(db) else None
    case Exists(k) => if k in db then Some(db) else None
    case Owned(keys, owner) => if OwnedBy(db, keys, owner) then Some(db) else None
    case Insert(k, r) => if k in db then None else Put(db, k, r)
    case InsertCopying(k, r, from, c, default) =>
      if k in db then None
      else Put(db, k, Row(r.episode, r.cols[c := if from in db then Column(db[from], c) else default]))
    case InsertIgnore(k, r) => if k in db then Some(db) else Put(db, k, r)
    case Replace(k, r) => Put(db, k, r)
    case Update(k, sets) => if k in db then Put(db, k, Row(db[k].episode, db[k].cols + sets)) else Some(db)
    case Bump(k, deltas, clamped) =>
      if k in db then Put(db, k, Bumped(db[k], deltas, clamped)) else Some(db)
  }

  function ExecAll(db: Db, stmts: seq<Stmt>): Option<Db> {
    if stmts == [] then Some(db)
    else match ExecAll(db, stmts[..|stmts| - 1])
         case None => None
         case Some(mid) => Exec(mid, stmts[|stmts| - 1])
  }

  lemma {:induction false} ExecConcat(db: Db, a: seq<Stmt>, b: seq<Stmt>)
    ensures ExecAll(db, a + b) == match ExecAll(db, a) case None => None case Some(mid) => ExecAll(mid, b)
    decreases |b|
  {
    hide Exec;
    if b == [] {
      assert a + b == a;
    } else {
      assert (a + b)[..|a + b| - 1] == a + b[..|b| - 1];
      ExecConcat(db, a, b[..|b| - 1]);
    }
  }

  lemma ExecOne(db: Db, s: Stmt)
    ensures ExecAll(db, [s]) == Exec(db, s)
  {
    hide Exec;
    assert [s][..0] == [];
    assert ExecAll(db, []) == Some(db);
  }

  lemma ExecFirst(db: Db, s: Stmt, rest: seq<Stmt>)
    ensures ExecAll(db, [s] + rest) == match Exec(db, s) case None => None case Some(mid) => ExecAll(mid, rest)
  {
    hide Exec;
    ExecConcat(db, [s], rest);
    ExecOne(db, s);
  }

  /******* Which rows a statement can reach *******/

  // Tables whose primary key begins with the episode.
  predicate KeyedByEpisode(t: Table) {
    t in {Episodes, BeliefEvidence, Premises, Rendered, SourceRoots, Fingerprints, Unpromoted}
  }

  predicate InEpisode(k: Key, ep: string) {
    KeyedByEpisode(k.table) && k.pk != [] && k.pk[0] == Text(ep)
  }

  ghost predicate WellKeyed(db: Db) {
    forall k <- db :: KeyedByEpisode(k.table) ==> InEpisode(k, db[k].episode)
  }

  // Inserted rows belong to the episode.
  predicate Inserts(k: Key, r: Row, ep: string) {
    r.episode == ep && (KeyedByEpisode(k.table) ==> InEpisode(k, ep))
  }

  predicate Local(s: Stmt, ep: string) {
    match s
    case Check(_) => true
    case Exists(k) => InEpisode(k, ep)
    case Owned(_, owner) => owner == ep
    case Insert(k, r) => Inserts(k, r, ep)
    case InsertCopying(k, r, _, _, _) => Inserts(k, r, ep)
    case InsertIgnore(k, r) => Inserts(k, r, ep) && InEpisode(k, ep)
    case Replace(k, r) => Inserts(k, r, ep) && InEpisode(k, ep)
    case Update(_, _) => true
    case Bump(_, _, _) => true
  }

  // A key whose row, if there is one, is known to belong to the episode: the key names the
  // episode, or an ownership check on exactly this key succeeded earlier.
  predicate Known(stmts: seq<Stmt>, i: nat, k: Key, ep: string)
    requires i <= |stmts|
  {
    InEpisode(k, ep) || (exists j | 0 <= j < i :: stmts[j] == Owned([k], ep))
  }

  // Every statement stays within the episode.
  ghost predicate Guarded(stmts: seq<Stmt>, ep: string) {
    forall i | 0 <= i < |stmts| ::
      && Local(stmts[i], ep)
      && (stmts[i].Update? || stmts[i].Bump? ==> Known(stmts, i, stmts[i].key, ep))
      && (stmts[i].InsertCopying? ==> Known(stmts, i, stmts[i].source, ep))
  }

  /******* Non-interference *******/

  function Outside(db: Db, x: string): Db {
    map k | k in db && db[k].episode != x :: db[k]
  }

  // Rows are never deleted and never change episode.
  ghost predicate Keeps(db: Db, later: Db) {
    forall k <- db :: k in later && later[k].episode == db[k].episode
  }

  predicate RowIn(db: Db, k: Key, ep: string) {
    k in db ==> db[k].episode == ep
  }

  lemma PutOutside(db: Db, k: Key, r: Row, x: string)
    requires Put(db, k, r).Some? && RowIn(db, k, r.episode)
    ensures r.episode == x ==> Outside(db[k := r], x) == Outside(db, x)
    ensures r.episode != x ==> Put(Outside(db, x), k, r) == Some(Outside(db[k := r], x))
  {
    if r.episode != x {
      assert Outside(db, x)[k := r] == Outside(db[k := r], x);
    }
  }

  lemma KeyedRowIn(db: Db, k: Key, ep: string)
    requires WellKeyed(db) && InEpisode(k, ep)
    ensures RowIn(db, k, ep)
  {
  }

  // What one statement does to the rows outside an episode x.
  lemma ExecOutside(db: Db, s: Stmt, ep: string, x: string)
    requires WellKeyed(db) && Local(s, ep) && Exec(db, s).Some?
    requires s.Update? || s.Bump? ==> RowIn(db, s.key, ep)
    requires s.InsertCopying? ==> RowIn(db, s.source, ep)
    ensures WellKeyed(Exec(db, s).value) && Keeps(db, Exec(db, s).value)
    ensures ep == x ==> Outside(Exec(db, s).value, x) == Outside(db, x)
    ensures ep != x ==> Exec(Outside(db, x), s) == Some(Outside(Exec(db, s).value, x))
  {
    match s
    case Check(_) =>
    case Exists(k) => KeyedRowIn(db, k, ep);
    case Owned(keys, _) =>
      if ep != x {
        var k :| k in keys && k in db && db[k].episode == ep;
        assert k in Outside(db, x);
      }
    case Insert(k, r) => PutOutside(db, k, r, x);
    case InsertCopying(k, r, from, c, default) =>
      PutOutside(db, k, Row(r.episode, r.cols[c := if from in db then Column(db[from], c) else default]), x);
    case InsertIgnore(k, r) => KeyedRowIn(db, k, ep); if k !in db { PutOutside(db, k, r, x); }
    case Replace(k, r) => KeyedRowIn(db, k, ep); PutOutside(db, k, r, x);
    case Update(k, sets) => if k in db { PutOutside(db, k, Row(db[k].episode, db[k].cols + sets), x); }
    case Bump(k, deltas, clamped) => if k in db { PutOutside(db, k, Bumped(db[k], deltas, clamped), x); }
  }

  // The ownership checks passed so far still hold.
  ghost predicate Checked(stmts: seq<Stmt>, db: Db, ep: string) {
    forall i | 0 <= i < |stmts| :: stmts[i].Owned? && |stmts[i].keys| == 1 && stmts[i].owner == ep ==>
      stmts[i].keys[0] in db && db[stmts[i].keys[0]].episode == ep
  }

  lemma KnownRowIn(stmts: seq<Stmt>, i: nat, k: Key, ep: string, db: Db)
    requires i <= |stmts| && Known(stmts, i, k, ep) && WellKeyed(db) && Checked(stmts[..i], db, ep)
    ensures RowIn(db, k, ep)
  {
    if !InEpisode(k, ep) {
      var j :| 0 <= j < i && stmts[j] == Owned([k], ep);
      assert stmts[..i][j] == stmts[j];
    }
  }

  // What a guarded list of statements does to the rows outside an episode x: nothing when the
  // statements are x's own, and otherwise exactly what it does in the presence of x's rows.
  lemma {:induction false} ExecAllOutside(db: Db, stmts: seq<Stmt>, ep: string, x: string)
    requires WellKeyed(db) && Guarded(stmts, ep) && ExecAll(db, stmts).Some?
    ensures var after := ExecAll(db, stmts).value;
      && WellKeyed(after) && Keeps(db, after) && Checked(stmts, after, ep)
      && (ep == x ==> Outside(after, x) == Outside(db, x))
      && (ep != x ==> ExecAll(Outside(db, x), stmts) == Some(Outside(after, x)))
  {
    if stmts != [] {
      var n := |stmts| - 1;
      var s := stmts[n];
      hide Exec, Outside;
      GuardedPrefix(stmts, n, ep);
      ExecAllOutside(db, stmts[..n], ep, x);
      var mid := ExecAll(db, stmts[..n]).value;
      if s.Update? || s.Bump? { KnownRowIn(stmts, n, s.key, ep, mid); }
      if s.InsertCopying? { KnownRowIn(stmts, n, s.source, ep, mid); }
      ExecOutside(mid, s, ep, x);
      CheckedStep(stmts, mid, ep);
    }
  }

  lemma GuardedPrefix(stmts: seq<Stmt>, n: nat, ep: string)
    requires Guarded(stmts, ep) && n <= |stmts|
    ensures Guarded(stmts[..n], ep)
  {
    forall i, k | 0 <= i < n && Known(stmts, i, k, ep) ensures Known(stmts[..n], i, k, ep) {
      if !InEpisode(k, ep) {
        var j :| 0 <= j < i && stmts[j] == Owned([k], ep);
        assert stmts[..n][j] == Owned([k], ep);
      }
    }
  }

  lemma GuardedCons(first: Stmt, rest: seq<Stmt>, ep: string)
    requires Guarded(rest, ep) && first.Exists? && Local(first, ep)
    ensures Guarded([first] + rest, ep)
  {
    var all := [first] + rest;
    forall i, k | 0 <= i < |rest| && Known(rest, i, k, ep) ensures Known(all, i + 1, k, ep) {
      if !InEpisode(k, ep) {
        var j :| 0 <= j < i && rest[j] == Owned([k], ep);
        assert all[j + 1] == Owned([k], ep);
      }
    }
    assert forall i | 0 < i < |all| :: all[i] == rest[i - 1];
  }

  lemma CheckedStep(stmts: seq<Stmt>, mid: Db, ep: string)
    requires stmts != [] && Checked(stmts[..|stmts| - 1], mid, ep)
    requires Exec(mid, stmts[|stmts| - 1]).Some? && Keeps(mid, Exec(mid, stmts[|stmts| - 1]).value)
    ensures Checked(stmts, Exec(mid, stmts[|stmts| - 1]).value, ep)
  {
    var n := |stmts| - 1;
    forall i | 0 <= i < |stmts| && stmts[i].Owned? && |stmts[i].keys| == 1 && stmts[i].owner == ep
      ensures stmts[i].keys[0] in Exec(mid, stmts[n]).value
              && Exec(mid, stmts[n]).value[stmts[i].keys[0]].episode == ep
    {
      if i < n { assert stmts[..n][i] == stmts[i]; }
    }
  }
}
