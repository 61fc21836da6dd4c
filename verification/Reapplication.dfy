/**
 What the projection handlers do with events whose effects are in the tables already: a plain
 insert aborts, a restated assignment changes nothing, and a counter counts again.
 */
module Reapplication {
  import opened Wrappers
  import opened Sql
  import opened Projections
  import opened LedgerChain
  import LedgerStore

  /******* Events as one list of statements *******/

  function Flat(events: seq<Event>): seq<Stmt> {
    if events == [] then [] else Flat(events[..|events| - 1]) + Statements(events[|events| - 1].body)
  }

  lemma {:induction false} FoldFromIsExec(p: Projection, events: seq<Event>)
    ensures FoldFrom(p, events) == match ExecAll(p.db, Flat(events))
                                   case None => None
                                   case Some(db) => Some(Projection(db, p.heads + Heads(events)))
  {
    hide Statements;
    if events == [] {
      assert p.heads + map[] == p.heads;
    } else {
      var init, last := events[..|events| - 1], events[|events| - 1];
      FoldFromIsExec(p, init);
      ExecConcat(p.db, Flat(init), Statements(last.body));
      var head := Head(last.body.seq_, last.hash);
      assert (p.heads + Heads(init))[last.body.episodeId := head] == p.heads + Heads(init)[last.body.episodeId := head];
    }
  }

  lemma {:induction false} FoldFromConcat(p: Projection, a: seq<Event>, b: seq<Event>)
    ensures FoldFrom(p, a + b) == match FoldFrom(p, a) case None => None case Some(q) => FoldFrom(q, b)
  {
    hide Apply;
    if b == [] {
      assert a + b == a;
    } else {
      assert (a + b)[..|a + b| - 1] == a + b[..|b| - 1];
      FoldFromConcat(p, a, b[..|b| - 1]);
    }
  }

  lemma {:induction false} FlatHolds(events: seq<Event>, i: nat)
    requires i < |events|
    ensures forall s <- Statements(events[i].body) :: s in Flat(events)
  {
    hide Statements;
    if i < |events| - 1 {
      FlatHolds(events[..|events| - 1], i);
    }
  }

  lemma {:induction false} FlatOnly(events: seq<Event>, s: Stmt) returns (i: nat)
    requires s in Flat(events)
    ensures i < |events| && s in Statements(events[i].body)
  {
    hide Statements;
    i := |events| - 1;
    if s !in Statements(events[i].body) {
      i := FlatOnly(events[..|events| - 1], s);
    }
  }

  /******* A plain insert aborts *******/

  lemma {:induction false} KeysStay(db: Db, stmts: seq<Stmt>)
    requires ExecAll(db, stmts).Some?
    ensures db.Keys <= ExecAll(db, stmts).value.Keys
  {
    if stmts != [] {
      KeysStay(db, stmts[..|stmts| - 1]);
    }
  }

  lemma InsertedTwice(db: Db, stmts: seq<Stmt>, j: nat)
    requires ExecAll(db, stmts).Some? && j < |stmts| && stmts[j].Insert?
    ensures ExecAll(ExecAll(db, stmts).value, stmts).None?
  {
    var after := ExecAll(db, stmts).value;
    assert stmts == stmts[..j + 1] + stmts[j + 1..];
    ExecConcat(db, stmts[..j + 1], stmts[j + 1..]);
    LedgerStore.ExecPrefix(db, stmts, j);
    KeysStay(ExecAll(db, stmts[..j + 1]).value, stmts[j + 1..]);
    assert stmts[j].key in after;
    LedgerStore.ExecPrefix(after, stmts, j);
    if ExecAll(after, stmts[..j]).Some? {
      KeysStay(after, stmts[..j]);
    }
  }

  // Events whose handler makes a row that must not be there yet.
  predicate MakesRow(p: Payload) {
    || p.EpisodeCreated? || p.SourceRegistered? || p.EvidenceIngested? || p.BeliefAdmitted? || p.SupportAdded?
    || p.JustificationAdded? || p.DefeatAdded? || p.TaskCreated? || p.ConflictOpened? || p.RetractionCreated?
    || p.VerdictRecorded? || p.UsageRecorded? || p.LintRecorded? || p.GateDecided? || p.ResponseRecorded?
  }

  lemma MakesRowInserts(e: Body) returns (s: Stmt)
    requires MakesRow(e.payload)
    ensures s.Insert? && s in Statements(e)
  {
    s := InsertOf(e);
    assert Statements(e) == Statements(e)[..|Statements(e)| - |Handler(e)|] + Handler(e);
  }

  lemma InsertOf(e: Body) returns (s: Stmt)
    requires MakesRow(e.payload)
    ensures s.Insert? && s in Handler(e)
  {
    hide BeliefStmts, JustificationStmts;
    if e.payload.BeliefAdmitted? {
      s := BeliefInsert(e.payload, e.episodeId);
    } else if e.payload.JustificationAdded? {
      s := JustificationInsert(e.payload.record, e.episodeId);
    } else if AddsEntity(e.payload) {
      s := EntityInsert(e);
    } else {
      s := RecordInsert(e);
    }
  }

  lemma EntityInsert(e: Body) returns (s: Stmt)
    requires AddsEntity(e.payload)
    ensures s.Insert? && s in Handler(e)
  {
    hide BeliefStmts, JustificationStmts;
    s := Handler(e)[|Handler(e)| - 1];
  }

  lemma RecordInsert(e: Body) returns (s: Stmt)
    requires e.payload.RetractionCreated? || e.payload.VerdictRecorded? || e.payload.UsageRecorded?
             || e.payload.LintRecorded? || e.payload.GateDecided? || e.payload.ResponseRecorded?
    ensures s.Insert? && s in Handler(e)
  {
    hide BeliefStmts, JustificationStmts;
    s := if e.payload.UsageRecorded? then Handler(e)[1] else Handler(e)[|Handler(e)| - 1];
  }

  lemma BeliefInsert(b: Payload, ep: string) returns (s: Stmt)
    requires b.BeliefAdmitted?
    ensures s.Insert? && s in BeliefStmts(b, ep)
  {
    s := BeliefStmts(b, ep)[2 + |b.evidence|];
  }

  lemma JustificationInsert(j: JustificationRecord, ep: string) returns (s: Stmt)
    ensures s.Insert? && s in JustificationStmts(j, ep)
  {
    s := JustificationStmts(j, ep)[1 + |j.premises|];
  }

  // Applying events a second time aborts as soon as one of them makes a row.
  lemma AppliedTwiceAborts(p: Projection, events: seq<Event>, i: nat)
    requires FoldFrom(p, events).Some? && i < |events| && MakesRow(events[i].body.payload)
    ensures FoldFrom(FoldFrom(p, events).value, events) == None
  {
    hide Statements, Flat, FoldFrom, ExecAll, MakesRow;
    var q := FoldFrom(p, events).value;
    var s := MakesRowInserts(events[i].body);
    FlatHolds(events, i);
    var j :| 0 <= j < |Flat(events)| && Flat(events)[j] == s;
    FoldFromIsExec(p, events);
    FoldFromIsExec(q, events);
    InsertedTwice(p.db, Flat(events), j);
  }

  /******* A restated assignment changes nothing *******/

  // A handler inserts into these tables only with INSERT OR IGNORE once a belief is admitted.
  predicate LinkTable(t: Table) {
    t == BeliefEvidence || t == Rendered
  }

  // Statements that set columns or rows to given values, or add a link unless it is there.
  predicate Restating(s: Stmt) {
    match s
    case Check(_) => true
    case Exists(_) => true
    case Owned(keys, _) => forall k <- keys :: k.table != Unpromoted
    case InsertIgnore(k, _) => LinkTable(k.table)
    case Replace(k, _) => k.table == Unpromoted
    case Update(k, _) => !LinkTable(k.table)
    case _ => false
  }

  // The statement gives a column of a UNIQUE key of this row a value.
  predicate Sets(s: Stmt, k: Key, c: string) {
    s.Update? && s.key == k && c in s.sets && c in UniqueColumns(k.table)
  }

  // No two updates give one column of a UNIQUE key of one row different values.
  ghost predicate Settled(stmts: seq<Stmt>) {
    forall s <- stmts, t <- stmts, k, c :: Sets(s, k, c) && Sets(t, k, c) ==> s.sets[c] == t.sets[c]
  }

  ghost predicate Unique(db: Db) {
    forall k <- db :: UniqueOk(db, k, db[k])
  }

  // What a list of restating statements last writes to a row.
  datatype Write = Over(cols: Columns) | Whole(row: Row)

  function Amended(w: Write, sets: Columns): Write {
    match w
    case Over(cols) => Over(cols + sets)
    case Whole(r) => Whole(Row(r.episode, r.cols + sets))
  }

  function Writing(w: map<Key, Write>, s: Stmt): map<Key, Write> {
    match s
    case Update(k, sets) => w[k := if k in w then Amended(w[k], sets) else Over(sets)]
    case Replace(k, r) => w[k := Whole(r)]
    case _ => w
  }

  function Writes(stmts: seq<Stmt>): map<Key, Write> {
    if stmts == [] then map[] else Writing(Writes(stmts[..|stmts| - 1]), stmts[|stmts| - 1])
  }

  // Links are not written over, and only open items are replaced whole.
  ghost predicate Plausible(w: map<Key, Write>) {
    forall k <- w :: !LinkTable(k.table) && (w[k].Whole? ==> k.table == Unpromoted)
  }

  function Written(r: Row, w: Write): Row {
    match w
    case Over(cols) => Row(r.episode, r.cols + cols)
    case Whole(row) => row
  }

  function On(db: Db, w: map<Key, Write>): Db {
    map k | k in db :: if k in w then Written(db[k], w[k]) else db[k]
  }

  lemma ExecUnique(db: Db, s: Stmt)
    requires Unique(db) && Exec(db, s).Some?
    ensures Unique(Exec(db, s).value)
  {
  }

  lemma {:induction false} AllUnique(db: Db, stmts: seq<Stmt>)
    requires Unique(db) && ExecAll(db, stmts).Some?
    ensures Unique(ExecAll(db, stmts).value)
  {
    hide Unique, Exec;
    if stmts != [] {
      AllUnique(db, stmts[..|stmts| - 1]);
      ExecUnique(ExecAll(db, stmts[..|stmts| - 1]).value, stmts[|stmts| - 1]);
    }
  }

  ghost predicate AllRestating(stmts: seq<Stmt>) {
    forall s <- stmts :: Restating(s)
  }

  lemma PrefixRestates(stmts: seq<Stmt>, n: nat)
    requires n <= |stmts|
    ensures AllRestating(stmts) ==> AllRestating(stmts[..n])
    ensures Settled(stmts) ==> Settled(stmts[..n])
  {
    assert forall s <- stmts[..n] :: s in stmts;
  }

  // What was written is there: writing it over the outcome changes nothing.
  lemma {:induction false} WritesHold(db: Db, stmts: seq<Stmt>)
    requires AllRestating(stmts) && ExecAll(db, stmts).Some?
    ensures On(ExecAll(db, stmts).value, Writes(stmts)) == ExecAll(db, stmts).value
    ensures Plausible(Writes(stmts))
  {
    hide AllRestating, Exec, On, Writing, Plausible;
    if stmts != [] {
      var init, s := stmts[..|stmts| - 1], stmts[|stmts| - 1];
      PrefixRestates(stmts, |stmts| - 1);
      WritesHold(db, init);
      LastRestates(stmts);
      WriteHolds(ExecAll(db, init).value, Writes(init), s);
    } else {
      NoWrites(db);
    }
  }

  lemma LastRestates(stmts: seq<Stmt>)
    requires AllRestating(stmts) && stmts != []
    ensures Restating(stmts[|stmts| - 1])
  {
  }

  lemma NoWrites(db: Db)
    ensures On(db, map[]) == db && Plausible(map[])
  {
  }

  lemma WriteHolds(db: Db, w: map<Key, Write>, s: Stmt)
    requires Restating(s) && Plausible(w) && On(db, w) == db && Exec(db, s).Some?
    ensures On(Exec(db, s).value, Writing(w, s)) == Exec(db, s).value && Plausible(Writing(w, s))
  {
    hide UniqueOk;
    match s
    case Update(k, sets) =>
      if k in db {
        var r := db[k];
        var now := Row(r.episode, r.cols + sets);
        assert Written(now, Writing(w, s)[k]) == now by {
          if k in w {
            assert On(db, w)[k] == r;
            SetTwice(r, w[k], sets);
          }
        }
        OthersHold(db, w, k, now, Writing(w, s)[k]);
      } else {
        assert On(db, Writing(w, s)) == On(db, w);
      }
    case Replace(k, r) => OthersHold(db, w, k, r, Whole(r));
    case InsertIgnore(k, r) =>
      if k !in db {
        assert k !in w;
        assert On(db[k := r], w) == On(db, w)[k := r];
      }
    case _ =>
  }

  lemma SetTwice(r: Row, w: Write, sets: Columns)
    requires Written(r, w) == r
    ensures Written(Row(r.episode, r.cols + sets), Amended(w, sets)) == Row(r.episode, r.cols + sets)
  {
    if w.Over? {
      assert r.cols + w.cols == r.cols;
      assert (r.cols + sets) + (w.cols + sets) == (r.cols + w.cols) + sets;
    }
  }

  lemma OthersHold(db: Db, w: map<Key, Write>, k: Key, r: Row, x: Write)
    requires On(db, w) == db && Written(r, x) == r
    ensures On(db[k := r], w[k := x]) == db[k := r]
  {
    forall q | q in db && q != k ensures On(db[k := r], w[k := x])[q] == db[q] {
      assert On(db, w)[q] == db[q];
    }
  }

  // Rows stay, and apart from open items keep their episode.
  ghost predicate Stays(db: Db, later: Db) {
    forall k <- db :: k in later && (k.table != Unpromoted ==> later[k].episode == db[k].episode)
  }

  lemma StepStays(db: Db, s: Stmt)
    requires Restating(s) && Exec(db, s).Some?
    ensures Stays(db, Exec(db, s).value)
  {
    hide UniqueOk;
  }

  lemma {:induction false} PrefixStays(db: Db, stmts: seq<Stmt>, n: nat)
    requires AllRestating(stmts) && ExecAll(db, stmts).Some? && n <= |stmts|
    ensures ExecAll(db, stmts[..n]).Some? && Stays(ExecAll(db, stmts[..n]).value, ExecAll(db, stmts).value)
    decreases |stmts|
  {
    hide AllRestating, Exec;
    if n == |stmts| {
      assert stmts[..n] == stmts;
    } else {
      PrefixRestates(stmts, |stmts| - 1);
      LastRestates(stmts);
      PrefixStays(db, stmts[..|stmts| - 1], n);
      assert stmts[..|stmts| - 1][..n] == stmts[..n];
      StepStays(ExecAll(db, stmts[..|stmts| - 1]).value, stmts[|stmts| - 1]);
    }
  }

  // Every UNIQUE column that an update sets has that value.
  ghost predicate Settles(db: Db, s: Stmt) {
    forall k, c :: Sets(s, k, c) && k in db ==> c in db[k].cols && db[k].cols[c] == s.sets[c]
  }

  lemma {:induction false} AllSettle(db: Db, stmts: seq<Stmt>)
    requires AllRestating(stmts) && Settled(stmts) && ExecAll(db, stmts).Some?
    ensures forall s <- stmts :: Settles(ExecAll(db, stmts).value, s)
  {
    hide AllRestating, Exec, Settles, Settled;
    if stmts != [] {
      var init, last := stmts[..|stmts| - 1], stmts[|stmts| - 1];
      PrefixRestates(stmts, |stmts| - 1);
      LastRestates(stmts);
      AllSettle(db, init);
      var mid := ExecAll(db, init).value;
      forall s | s in stmts ensures Settles(Exec(mid, last).value, s) {
        assert s in init || s == last;
        SettledPair(stmts, s, last);
        StepSettles(mid, s, last);
      }
    }
  }

  lemma SettledPair(stmts: seq<Stmt>, s: Stmt, t: Stmt)
    requires Settled(stmts) && s in stmts && t in stmts
    ensures Settled([s, t])
  {
  }

  lemma StepSettles(db: Db, s: Stmt, last: Stmt)
    requires Restating(last) && Settled([s, last]) && Exec(db, last).Some? && (Settles(db, s) || s == last)
    ensures Settles(Exec(db, last).value, s)
  {
    hide UniqueOk;
    assert s in [s, last] && last in [s, last];
    var after := Exec(db, last).value;
    forall k, c | Sets(s, k, c) && k in after ensures c in after[k].cols && after[k].cols[c] == s.sets[c] {
      assert Sets(last, k, c) ==> last.sets[c] == s.sets[c];
    }
  }

  // The same rows, with the same UNIQUE columns.
  ghost predicate Alike(b: Db, d: Db) {
    && b.Keys == d.Keys
    && (forall k <- d :: k.table != Unpromoted ==> b[k].episode == d[k].episode)
    && (forall k, c :: k in d && c in UniqueColumns(k.table) ==> Column(b[k], c) == Column(d[k], c))
  }

  lemma AlikeUnique(b: Db, d: Db, k: Key, r: Row)
    requires Unique(d) && Alike(b, d) && k in d && Alike(b[k := r], d)
    ensures UniqueOk(b, k, r)
  {
    var t := k.table;
    forall q | q in b && q.table == t && q != k ensures !Clash(t, r, b[q]) {
      if Clash(t, r, b[q]) {
        assert b[k := r][q] == b[q] && b[k := r][k] == r;
        forall i | 0 <= i < |UniqueColumns(t)|
          ensures Column(d[k], UniqueColumns(t)[i]) == Column(d[q], UniqueColumns(t)[i])
        {
          assert UniqueColumns(t)[i] in UniqueColumns(t);
        }
        assert UniqueOk(d, k, d[k]) && Clash(t, d[k], d[q]);
      }
    }
  }

  lemma SecondStep(a: Db, d: Db, w: map<Key, Write>, s: Stmt)
    requires Restating(s) && Exec(a, s).Some? && Stays(Exec(a, s).value, d) && Stays(a, d)
    requires Plausible(w) && Unique(d) && Settles(d, s) && Alike(On(d, w), d)
    ensures Exec(On(d, w), s) == Some(On(d, Writing(w, s))) && Alike(On(d, Writing(w, s)), d)
  {
    hide UniqueOk, Unique, Settles;
    var b := On(d, w);
    match s
    case Update(_, _) => SecondUpdate(d, w, s);
    case Replace(k, r) =>
      WriteOn(d, w, k, Whole(r));
      assert On(d, Writing(w, s)) == b[k := r];
      AlikeUnique(b, d, k, r);
    case Owned(keys, owner) =>
      var k :| k in keys && k in a && a[k].episode == owner;
      assert k in b && b[k].episode == owner;
    case _ =>
  }

  lemma SecondUpdate(d: Db, w: map<Key, Write>, s: Stmt)
    requires s.Update? && Unique(d) && Settles(d, s) && Alike(On(d, w), d)
    ensures Exec(On(d, w), s) == Some(On(d, Writing(w, s))) && Alike(On(d, Writing(w, s)), d)
  {
    hide UniqueOk, Unique, Settles, Alike, Written, Amended;
    var b, k, sets := On(d, w), s.key, s.sets;
    WriteOn(d, w, k, if k in w then Amended(w[k], sets) else Over(sets));
    if k in d {
      var r := Row(b[k].episode, b[k].cols + sets);
      WrittenAmended(d[k], if k in w then w[k] else Over(map[]), sets);
      UpdateAlike(b, d, s, r);
      AlikeUnique(b, d, k, r);
    }
  }

  lemma WrittenAmended(r: Row, w: Write, sets: Columns)
    ensures Written(r, Amended(w, sets)) == Row(Written(r, w).episode, Written(r, w).cols + sets)
    ensures Written(r, Over(map[])) == r && Amended(Over(map[]), sets) == Over(sets)
  {
    assert r.cols + map[] == r.cols && map[] + sets == sets;
    if w.Over? {
      assert r.cols + (w.cols + sets) == (r.cols + w.cols) + sets;
    }
  }

  lemma WriteOn(d: Db, w: map<Key, Write>, k: Key, x: Write)
    ensures k in d ==> On(d, w[k := x]) == On(d, w)[k := Written(d[k], x)]
    ensures k !in d ==> On(d, w[k := x]) == On(d, w)
  {
  }

  lemma UpdateAlike(b: Db, d: Db, s: Stmt, r: Row)
    requires s.Update? && s.key in d && Settles(d, s) && Alike(b, d) && r == Row(b[s.key].episode, b[s.key].cols + s.sets)
    ensures Alike(b[s.key := r], d)
  {
    forall c | c in UniqueColumns(s.key.table) ensures Column(r, c) == Column(d[s.key], c) {
      assert c in s.sets ==> Sets(s, s.key, c);
    }
  }

  // Carrying out restating statements on their own outcome gives that outcome again.
  lemma {:induction false} SecondPass(db: Db, stmts: seq<Stmt>, n: nat)
    requires AllRestating(stmts) && Settled(stmts) && Unique(db) && ExecAll(db, stmts).Some? && n <= |stmts|
    ensures var d := ExecAll(db, stmts).value;
            ExecAll(d, stmts[..n]) == Some(On(d, Writes(stmts[..n]))) && Alike(On(d, Writes(stmts[..n])), d)
    decreases n
  {
    hide AllRestating, Exec, On, Writing, Unique, Settles, Settled, Stays, Alike, Plausible, Restating;
    var d := ExecAll(db, stmts).value;
    if n > 0 {
      SecondPass(db, stmts, n - 1);
      assert stmts[..n][..n - 1] == stmts[..n - 1];
      var s := stmts[n - 1];
      PrefixStays(db, stmts, n - 1);
      PrefixStays(db, stmts, n);
      PrefixRestates(stmts, n - 1);
      PrefixRestates(stmts, n);
      LastRestates(stmts[..n]);
      WritesHold(db, stmts[..n - 1]);
      AllUnique(db, stmts);
      AllSettle(db, stmts);
      SecondStep(ExecAll(db, stmts[..n - 1]).value, d, Writes(stmts[..n - 1]), s);
    } else {
      NoWrites(d);
      AlikeItself(d);
    }
  }

  lemma AlikeItself(d: Db)
    ensures Alike(d, d)
  {
  }

  lemma RestatedTwice(db: Db, stmts: seq<Stmt>)
    requires AllRestating(stmts) && Settled(stmts) && Unique(db) && ExecAll(db, stmts).Some?
    ensures ExecAll(ExecAll(db, stmts).value, stmts) == ExecAll(db, stmts)
  {
    hide *;
    SecondPass(db, stmts, |stmts|);
    WritesHold(db, stmts);
    assert stmts[..|stmts|] == stmts;
  }

  // Events that neither make a row nor count.
  predicate Restates(p: Payload) {
    !MakesRow(p) && !p.SourceStatsDelta?
  }

  lemma RestatesStatements(e: Body)
    requires Restates(e.payload)
    ensures AllRestating(Statements(e))
  {
    hide RenderedStmts, BeliefStmts, JustificationStmts, AllRestating;
    assert Handler(e) == Statements(e)[|Statements(e)| - |Handler(e)|..];
    if e.payload.ContextCompiled? {
      RenderedRestates(e.payload.rendered, e.episodeId);
    } else if |Handler(e)| == 2 && !e.payload.UnpromotedAdded? {
      AmendRestates(e);
    } else {
      OthersRestate(e);
    }
    ExistsRestates(Id(Episodes, e.episodeId), Handler(e));
  }

  lemma AmendRestates(e: Body)
    requires Restates(e.payload) && |Handler(e)| == 2 && !e.payload.ContextCompiled? && !e.payload.UnpromotedAdded?
    ensures AllRestating(Handler(e))
  {
    hide RenderedStmts, BeliefStmts, JustificationStmts, AllRestating, Amend;
    AmendsRestate();
  }

  lemma AmendsRestate()
    ensures forall t, id, ep, sets :: !LinkTable(t) && t != Unpromoted ==> AllRestating(Amend(t, id, ep, sets))
  {
  }

  lemma OthersRestate(e: Body)
    requires Restates(e.payload) && !e.payload.ContextCompiled?
    requires |Handler(e)| != 2 || e.payload.UnpromotedAdded?
    ensures AllRestating(Handler(e))
  {
    hide RenderedStmts, BeliefStmts, JustificationStmts;
  }

  lemma ExistsRestates(k: Key, rest: seq<Stmt>)
    ensures AllRestating(rest) ==> AllRestating([Exists(k)] + rest)
  {
  }

  lemma {:induction false} RenderedRestates(rs: seq<RenderedRef>, ep: string)
    ensures AllRestating(RenderedStmts(rs, ep))
  {
    if rs != [] {
      RenderedRestates(rs[..|rs| - 1], ep);
    }
  }

  lemma FlatRestates(events: seq<Event>)
    requires forall i | 0 <= i < |events| :: Restates(events[i].body.payload)
    ensures AllRestating(Flat(events))
  {
    hide Restates, Flat, Restating, Statements;
    forall s | s in Flat(events) ensures Restating(s) {
      var i := FlatOnly(events, s);
      RestatesStatements(events[i].body);
    }
  }

  // Applying events a second time changes nothing if they only restate and settle what they set.
  lemma AppliedTwiceIsOnce(p: Projection, events: seq<Event>)
    requires FoldFrom(p, events).Some? && Unique(p.db) && Settled(Flat(events))
    requires forall i | 0 <= i < |events| :: Restates(events[i].body.payload)
    ensures FoldFrom(FoldFrom(p, events).value, events) == FoldFrom(p, events)
  {
    hide Statements, Flat, FoldFrom, ExecAll, Restates, AllRestating, Settled, Unique, Heads;
    var q := FoldFrom(p, events).value;
    FoldFromIsExec(p, events);
    FoldFromIsExec(q, events);
    FlatRestates(events);
    RestatedTwice(p.db, Flat(events));
    assert (p.heads + Heads(events)) + Heads(events) == p.heads + Heads(events);
  }

  /******* A counter counts again *******/

  function Counter(db: Db, source: string, c: string): int
    requires Id(Sources, source) in db
  {
    Number(Column(db[Id(Sources, source)], c))
  }

  // What one event adds to a counter of a source.
  function Delta(e: Body, source: string, c: string): int {
    match e.payload
    case SourceStatsDelta(_, confirmed, defeated, samples) =>
      if e.aggregateId != source then 0
      else if c == "confirmed" then confirmed
      else if c == "defeated" then defeated
      else if c == "samples" then samples
      else 0
    case _ => 0
  }

  // The event does not set the counter of the source outright, and does not lower it.
  predicate CountsUp(e: Body, source: string, c: string) {
    && (e.payload.SourceStatsUpdated? && e.aggregateId == source ==> c !in e.payload.cols)
    && Delta(e, source, c) >= 0
  }

  function Total(events: seq<Event>, source: string, c: string): int {
    if events == [] then 0
    else Total(events[..|events| - 1], source, c) + Delta(events[|events| - 1].body, source, c)
  }

  // The statement leaves a column of a row as it is.
  predicate Leaves(s: Stmt, k: Key, c: string) {
    match s
    case Update(q, sets) => q != k || c !in sets
    case Bump(q, deltas, _) => q != k || c !in deltas
    case Replace(q, _) => q != k
    case _ => true
  }

  ghost predicate AllLeave(stmts: seq<Stmt>, k: Key, c: string) {
    forall s <- stmts :: Leaves(s, k, c)
  }

  lemma {:induction false} LeftAlone(db: Db, stmts: seq<Stmt>, k: Key, c: string)
    requires AllLeave(stmts, k, c) && k in db && ExecAll(db, stmts).Some?
    ensures k in ExecAll(db, stmts).value && Column(ExecAll(db, stmts).value[k], c) == Column(db[k], c)
  {
    hide UniqueOk;
    if stmts != [] {
      LeftAlone(db, stmts[..|stmts| - 1], k, c);
      assert Leaves(stmts[|stmts| - 1], k, c);
    }
  }

  lemma {:induction false} JustificationsLeave(js: seq<JustificationRecord>, ep: string, k: Key, c: string)
    ensures AllLeave(AllJustifications(js, ep), k, c)
  {
    if js != [] {
      JustificationsLeave(js[..|js| - 1], ep, k, c);
    }
  }

  lemma {:induction false} RenderedLeave(rs: seq<RenderedRef>, ep: string, k: Key, c: string)
    ensures AllLeave(RenderedStmts(rs, ep), k, c)
  {
    if rs != [] {
      RenderedLeave(rs[..|rs| - 1], ep, k, c);
    }
  }

  lemma BeliefLeaves(b: Payload, ep: string, k: Key, c: string)
    requires b.BeliefAdmitted?
    ensures AllLeave(BeliefStmts(b, ep), k, c)
  {
    hide AllJustifications;
    JustificationsLeave(b.justifications, ep, k, c);
  }

  // Events that leave a column of a source, or the state of an episode, as it is.
  predicate Spared(e: Body, k: Key, c: string) {
    || (k.table == Sources && !e.payload.SourceStatsDelta?
        && (e.payload.SourceStatsUpdated? && k == Id(Sources, e.aggregateId) ==> c !in e.payload.cols))
    || (k.table == Episodes && c == "state" && !e.payload.EpisodeStateChanged?)
  }

  lemma StatementsLeave(e: Body, k: Key, c: string)
    requires Spared(e, k, c)
    ensures AllLeave(Statements(e), k, c)
  {
    hide RenderedStmts, BeliefStmts, Spared;
    match e.payload {
      case BeliefAdmitted(_, _, _, _, _, _, _, _) => BeliefLeaves(e.payload, e.episodeId, k, c);
      case ContextCompiled(rs) => RenderedLeave(rs, e.episodeId, k, c);
      case SourceStatsUpdated(_) => AmendLeaves(e, k, c);
      case _ => OthersLeave(e, k, c);
    }
  }

  lemma AmendLeaves(e: Body, k: Key, c: string)
    requires Spared(e, k, c) && e.payload.SourceStatsUpdated?
    ensures AllLeave(Statements(e), k, c)
  {
  }

  lemma OthersLeave(e: Body, k: Key, c: string)
    requires Spared(e, k, c) && !e.payload.BeliefAdmitted? && !e.payload.ContextCompiled? && !e.payload.SourceStatsUpdated?
    ensures AllLeave(Statements(e), k, c)
  {
    hide Handler, AllLeave;
    if e.payload.SourceStatsDelta? {
      DeltaLeaves(e, k, c);
    } else if Restates(e.payload) {
      if |Handler(e)| == 2 {
        PairLeaves(e, k, c);
      } else {
        RestatesLeave(e, k, c);
      }
    } else if AddsEntity(e.payload) {
      EntityLeaves(e, k, c);
    } else {
      RecordLeaves(e, k, c);
    }
    ExistsLeaves(Id(Episodes, e.episodeId), Handler(e), k, c);
    assert e.payload.EpisodeCreated? ==> Statements(e) == Handler(e);
  }

  lemma PairLeaves(e: Body, k: Key, c: string)
    requires Spared(e, k, c) && Restates(e.payload) && !e.payload.ContextCompiled? && !e.payload.SourceStatsUpdated? && |Handler(e)| == 2
    ensures AllLeave(Handler(e), k, c)
  {
    hide RenderedStmts, BeliefStmts, JustificationStmts;
  }

  lemma RestatesLeave(e: Body, k: Key, c: string)
    requires Spared(e, k, c) && Restates(e.payload) && !e.payload.ContextCompiled? && !e.payload.SourceStatsUpdated? && |Handler(e)| != 2
    ensures AllLeave(Handler(e), k, c)
  {
    hide RenderedStmts, BeliefStmts, JustificationStmts;
  }

  lemma EntityLeaves(e: Body, k: Key, c: string)
    requires Spared(e, k, c) && AddsEntity(e.payload)
    ensures AllLeave(Handler(e), k, c)
  {
    hide RenderedStmts, BeliefStmts, JustificationStmts;
  }

  lemma RecordLeaves(e: Body, k: Key, c: string)
    requires Spared(e, k, c) && MakesRow(e.payload) && !AddsEntity(e.payload) && !e.payload.BeliefAdmitted?
    ensures AllLeave(Handler(e), k, c)
  {
    hide RenderedStmts, BeliefStmts, JustificationStmts;
    if e.payload.JustificationAdded? {
      JustificationLeaves(e.payload.record, e.episodeId, k, c);
    }
  }

  lemma DeltaLeaves(e: Body, k: Key, c: string)
    requires Spared(e, k, c) && e.payload.SourceStatsDelta?
    ensures AllLeave(Handler(e), k, c)
  {
  }

  lemma JustificationLeaves(j: JustificationRecord, ep: string, k: Key, c: string)
    ensures AllLeave(JustificationStmts(j, ep), k, c)
  {
  }

  lemma ExistsLeaves(row: Key, rest: seq<Stmt>, k: Key, c: string)
    ensures AllLeave(rest, k, c) ==> AllLeave([Exists(row)] + rest, k, c)
  {
  }

  lemma ApplyCounts(p: Projection, e: Event, source: string, c: string)
    requires Apply(p, e).Some? && Id(Sources, source) in p.db && CountsUp(e.body, source, c)
    ensures Id(Sources, source) in Apply(p, e).value.db
    ensures Counter(p.db, source, c) >= 0 ==>
              Counter(Apply(p, e).value.db, source, c) == Counter(p.db, source, c) + Delta(e.body, source, c)
  {
    hide Statements, CountsUp;
    if e.body.payload.SourceStatsDelta? {
      DeltaBumps(p, e);
      assert Delta(e.body, source, c) >= 0 by { CountsUpDelta(e.body, source, c); }
    } else {
      CountsSpare(e.body, source, c);
      StatementsLeave(e.body, Id(Sources, source), c);
      LeftAlone(p.db, Statements(e.body), Id(Sources, source), c);
    }
  }

  lemma CountsSpare(e: Body, source: string, c: string)
    requires CountsUp(e, source, c) && !e.payload.SourceStatsDelta?
    ensures Spared(e, Id(Sources, source), c)
  {
  }

  lemma CountsUpDelta(e: Body, source: string, c: string)
    requires CountsUp(e, source, c)
    ensures Delta(e, source, c) >= 0
  {
  }

  lemma DeltaBumps(p: Projection, e: Event)
    requires Apply(p, e).Some? && e.body.payload.SourceStatsDelta?
    ensures var k, d := Id(Sources, e.body.aggregateId), e.body.payload;
      k in p.db && Apply(p, e).value.db
        == p.db[k := Bumped(p.db[k], map["confirmed" := d.confirmed, "defeated" := d.defeated, "samples" := d.samples], true)]
  {
    hide UniqueOk;
    var stmts, d := Statements(e.body), e.body.payload;
    var k := Id(Sources, e.body.aggregateId);
    assert stmts == [Exists(Id(Episodes, e.body.episodeId)), Own(Sources, e.body.aggregateId, e.body.episodeId),
      Bump(k, map["confirmed" := d.confirmed, "defeated" := d.defeated, "samples" := d.samples], true)];
    LedgerStore.ExecPrefix(p.db, stmts, 0);
    LedgerStore.ExecPrefix(p.db, stmts, 1);
    LedgerStore.ExecPrefix(p.db, stmts, 2);
    assert stmts[..3] == stmts;
  }

  lemma {:induction false} FoldCounts(p: Projection, events: seq<Event>, source: string, c: string)
    requires FoldFrom(p, events).Some? && Id(Sources, source) in p.db && Counter(p.db, source, c) >= 0
    requires forall i | 0 <= i < |events| :: CountsUp(events[i].body, source, c)
    ensures Id(Sources, source) in FoldFrom(p, events).value.db
    ensures Counter(FoldFrom(p, events).value.db, source, c) == Counter(p.db, source, c) + Total(events, source, c)
    ensures Total(events, source, c) >= 0
  {
    hide Apply, CountsUp, Delta, Counter;
    if events != [] {
      var init, last := events[..|events| - 1], events[|events| - 1];
      FoldCounts(p, init, source, c);
      ApplyCounts(FoldFrom(p, init).value, last, source, c);
      CountsUpDelta(last.body, source, c);
    }
  }

  lemma {:induction false} TotalConcat(a: seq<Event>, b: seq<Event>, source: string, c: string)
    ensures Total(a + b, source, c) == Total(a, source, c) + Total(b, source, c)
  {
    if b == [] {
      assert a + b == a;
    } else {
      assert (a + b)[..|a + b| - 1] == a + b[..|b| - 1];
      TotalConcat(a, b[..|b| - 1], source, c);
    }
  }

  // An event that raised a counter leaves it there, not negative, whatever came before.
  lemma CountedOnce(p: Projection, events: seq<Event>, i: nat, source: string, c: string)
    requires FoldFrom(p, events).Some? && i < |events| && Delta(events[i].body, source, c) > 0
    requires forall j | 0 <= j < |events| :: CountsUp(events[j].body, source, c)
    ensures Id(Sources, source) in FoldFrom(p, events).value.db
    ensures Counter(FoldFrom(p, events).value.db, source, c) >= 0
  {
    hide Statements, ExecAll, CountsUp, Total;
    var upTo, rest := events[..i + 1], events[i + 1..];
    assert events == upTo + rest && upTo[..i] == events[..i] && upTo[i] == events[i];
    FoldFromConcat(p, upTo, rest);
    DeltaBumps(FoldFrom(p, events[..i]).value, events[i]);
    FoldCounts(FoldFrom(p, upTo).value, rest, source, c);
  }

  lemma {:induction false} TotalPositive(events: seq<Event>, i: nat, source: string, c: string)
    requires i < |events| && Delta(events[i].body, source, c) > 0
    requires forall j | 0 <= j < |events| :: CountsUp(events[j].body, source, c)
    ensures Total(events, source, c) > 0
    decreases |events|
  {
    hide CountsUp, Delta;
    var n := |events| - 1;
    CountsUpDelta(events[n].body, source, c);
    if i < n {
      TotalPositive(events[..n], i, source, c);
    } else {
      TotalNatural(events[..n], source, c);
    }
  }

  lemma {:induction false} TotalNatural(events: seq<Event>, source: string, c: string)
    requires forall j | 0 <= j < |events| :: CountsUp(events[j].body, source, c)
    ensures Total(events, source, c) >= 0
  {
    hide CountsUp, Delta;
    if events != [] {
      TotalNatural(events[..|events| - 1], source, c);
      CountsUpDelta(events[|events| - 1].body, source, c);
    }
  }

  // Events that raise a counter, applied a second time, leave it too high for good: no later
  // event makes up for it unless it sets or lowers that counter.
  lemma AppliedTwiceCountsTwice(p: Projection, events: seq<Event>, rest: seq<Event>, i: nat, source: string, c: string)
    requires FoldFrom(p, events).Some? && i < |events| && Delta(events[i].body, source, c) > 0
    requires forall j | 0 <= j < |events| :: CountsUp(events[j].body, source, c)
    requires forall j | 0 <= j < |rest| :: CountsUp(rest[j].body, source, c)
    requires FoldFrom(FoldFrom(p, events).value, rest).Some?
    ensures FoldFrom(FoldFrom(p, events).value, events + rest) != FoldFrom(FoldFrom(p, events).value, rest)
  {
    hide FoldFrom, CountsUp, Delta, Total, Counter;
    var d := FoldFrom(p, events).value;
    CountedOnce(p, events, i, source, c);
    TotalPositive(events, i, source, c);
    FoldCounts(d, rest, source, c);
    if FoldFrom(d, events + rest).Some? {
      TotalConcat(events, rest, source, c);
      FoldCounts(d, events + rest, source, c);
    }
  }
}
