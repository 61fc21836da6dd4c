/**
 What one relabel pass leaves behind, row by row, said of the rows before it and of the outcome
 of the defeat engine.
 */
module RelabelOutcomes {
  import opened Wrappers
  import opened Ordering
  import opened Descendants
  import opened Relabel

  // Beliefs take the outcome's status and keep everything else; an edge is active exactly if the
  // outcome lists it as active; no row of either comes or goes.
  lemma StatusesLeft(v: View, out: Outcome, deps: Dependents, ids: Names, w: View)
    requires OutcomeOk(v, out) && Relabelled(v, out, deps, ids, w)
    ensures w.beliefs.Keys == v.beliefs.Keys && w.edges.Keys == v.edges.Keys && w.rendered == v.rendered
    ensures forall b <- v.beliefs :: w.beliefs[b] == v.beliefs[b].(status := out.statuses[b])
    ensures forall e <- v.edges :: w.edges[e] <==> e in out.activeEdges && out.activeEdges[e]
  {
    hide NoticesAfter, ConflictsOpened, TasksOpened, Resolved, Reports, OpenPairs, NewlyDefeated, LearnAll, Less;
  }

  // The belief was shown to the model, was IN and is not any more, and no notice says so yet.
  predicate MustBeTold(v: View, w: View, b: string)
    requires w.beliefs.Keys == v.beliefs.Keys
  {
    && b in v.rendered && b in v.beliefs
    && v.beliefs[b].status == IN && w.beliefs[b].status != IN
    && !exists n <- v.notices :: v.notices[n].belief == b && v.notices[n].active
  }

  // Such a belief gets one new notice, active and listing what was derived from it; no other
  // notice is made, and those there stay.
  lemma NoticesLeft(v: View, out: Outcome, deps: Dependents, ids: Names, w: View)
    requires OutcomeOk(v, out) && Fresh(v, ids) && Relabelled(v, out, deps, ids, w) && w.beliefs.Keys == v.beliefs.Keys
    ensures forall n <- v.notices :: n in w.notices && w.notices[n] == v.notices[n]
    ensures forall n <- w.notices :: n !in v.notices ==>
      && MustBeTold(v, w, w.notices[n].belief) && w.notices[n].active
      && IsDescendants(deps, w.notices[n].belief, w.notices[n].descendants)
    ensures forall b <- v.beliefs :: MustBeTold(v, w, b) ==>
      exists n <- w.notices :: n !in v.notices && w.notices[n].belief == b
    ensures forall m <- w.notices, n <- w.notices ::
      m !in v.notices && n !in v.notices && w.notices[m].belief == w.notices[n].belief ==> m == n
  {
    hide NoticesAfter, Relabelled, OutcomeOk, Fresh, NeedsNotice, MustBeTold, IsDescendants;
    StatusesLeft(v, out, deps, ids, w);
    MadeNotices(v, out, deps, ids, w);
    forall b | b in v.beliefs ensures MustBeTold(v, w, b) <==> NeedsNotice(v, out, b) {
      StatusKnown(v, out, b);
      ToldIff(v, out, w, b);
    }
    forall n | n in w.notices && n !in v.notices
      ensures MustBeTold(v, w, w.notices[n].belief) && w.notices[n].active && n == ids.notice(w.notices[n].belief)
      ensures IsDescendants(deps, w.notices[n].belief, w.notices[n].descendants)
    {
      var b := NoticeOf(v, out, deps, ids, w, n);
    }
    forall b | b in v.beliefs && MustBeTold(v, w, b)
      ensures exists n <- w.notices :: n !in v.notices && w.notices[n].belief == b
    {
      assert ids.notice(b) in w.notices && ids.notice(b) !in v.notices && w.notices[ids.notice(b)].belief == b;
    }
  }

  lemma StatusKnown(v: View, out: Outcome, b: string)
    requires OutcomeOk(v, out)
    ensures b in v.beliefs <==> b in out.statuses
  {
  }

  lemma MadeNotices(v: View, out: Outcome, deps: Dependents, ids: Names, w: View)
    requires Fresh(v, ids) && Relabelled(v, out, deps, ids, w)
    ensures forall n <- v.notices :: n in w.notices && w.notices[n] == v.notices[n]
    ensures forall b <- v.beliefs :: NeedsNotice(v, out, b) ==>
      ids.notice(b) in w.notices && ids.notice(b) !in v.notices && w.notices[ids.notice(b)].belief == b
  {
    hide Reports, TasksOpened, ConflictsOpened, Resolved, OpenPairs, NewEdges, NewStatuses, NewlyDefeated, LearnAll, NeedsNotice,
      IsDescendants;
    forall b | b in v.beliefs && NeedsNotice(v, out, b)
      ensures ids.notice(b) in w.notices && ids.notice(b) !in v.notices && w.notices[ids.notice(b)].belief == b
    {
      assert b in v.beliefs.Keys;
    }
  }

  lemma NoticeOf(v: View, out: Outcome, deps: Dependents, ids: Names, w: View, n: string) returns (b: string)
    requires Fresh(v, ids) && Relabelled(v, out, deps, ids, w) && n in w.notices && n !in v.notices
    ensures b in v.beliefs && NeedsNotice(v, out, b) && n == ids.notice(b)
    ensures w.notices[n].belief == b && w.notices[n].active && IsDescendants(deps, b, w.notices[n].descendants)
  {
    hide Reports, TasksOpened, ConflictsOpened, Resolved, OpenPairs, NewEdges, NewStatuses, NewlyDefeated, LearnAll, NeedsNotice,
      IsDescendants;
    b :| b in v.beliefs.Keys && NeedsNotice(v, out, b) && n == ids.notice(b);
  }

  lemma ToldIff(v: View, out: Outcome, w: View, b: string)
    requires OutcomeOk(v, out) && w.beliefs.Keys == v.beliefs.Keys && b in v.beliefs && w.beliefs[b].status == out.statuses[b]
    ensures MustBeTold(v, w, b) <==> NeedsNotice(v, out, b)
  {
    assert HasNotice(v, b) <==> exists n <- v.notices :: ActiveNotice(v, n, b);
  }

  // The belief was IN and is OUT, and no sample of its source has counted that before.
  predicate MustBeSampled(v: View, w: View, b: string)
    requires w.beliefs.Keys == v.beliefs.Keys
  {
    && b in v.beliefs && v.beliefs[b].status == IN && w.beliefs[b].status == OUT
    && !exists i | 0 <= i < |v.deltas| :: v.deltas[i].belief == b && v.deltas[i].defeated > 0
  }

  // Each such belief, and no other, is counted once against its own source.
  lemma SamplesLeft(v: View, out: Outcome, deps: Dependents, ids: Names, w: View)
    requires OutcomeOk(v, out) && Relabelled(v, out, deps, ids, w) && w.beliefs.Keys == v.beliefs.Keys
    ensures v.deltas <= w.deltas
    ensures forall i | |v.deltas| <= i < |w.deltas| ::
      MustBeSampled(v, w, w.deltas[i].belief)
      && w.deltas[i] == Delta(v.beliefs[w.deltas[i].belief].source, w.deltas[i].belief, 0, 1, 1)
    ensures forall i, j | |v.deltas| <= i < j < |w.deltas| :: w.deltas[i].belief != w.deltas[j].belief
    ensures forall b <- v.beliefs :: MustBeSampled(v, w, b) ==>
      exists i | |v.deltas| <= i < |w.deltas| :: w.deltas[i].belief == b
  {
    hide ConflictsOpened, TasksOpened, Resolved, OpenPairs, NewEdges, NewStatuses, NewlyDefeated, NoticesAfter, LearnAll, Less,
      MustBeSampled;
    StatusesLeft(v, out, deps, ids, w);
    var ds: seq<Delta> :| Reports(v, ds, NewlyDefeated(v, out)) && w.deltas == v.deltas + ds;
    forall b | b in v.beliefs ensures MustBeSampled(v, w, b) <==> b in NewlyDefeated(v, out) {
      SampledIff(v, out, w, b);
    }
    forall b | b in v.beliefs && MustBeSampled(v, w, b)
      ensures exists i | |v.deltas| <= i < |w.deltas| :: w.deltas[i].belief == b
    {
      var i :| 0 <= i < |ds| && ds[i].belief == b;
      assert w.deltas[|v.deltas| + i].belief == b;
    }
  }

  lemma SampledIff(v: View, out: Outcome, w: View, b: string)
    requires OutcomeOk(v, out) && w.beliefs.Keys == v.beliefs.Keys && b in v.beliefs
    requires w.beliefs[b].status == out.statuses[b]
    ensures MustBeSampled(v, w, b) <==> b in NewlyDefeated(v, out)
  {
  }

  // The two beliefs of a conflict, in the order of its columns.
  function Between(c: Conflict): (string, string) {
    (c.left, c.right)
  }

  // No open row for the pair yet.
  ghost predicate NotOpenYet(v: View, p: (string, string)) {
    forall c <- v.conflicts :: v.conflicts[c].open ==> Between(v.conflicts[c]) != p
  }

  // Each new pair gets one open conflict on an open cross-source task of its first belief; a row
  // whose pair the outcome no longer has is closed, and nothing else about the rows changes.
  lemma ConflictsLeft(v: View, out: Outcome, deps: Dependents, ids: Names, w: View)
    requires OutcomeOk(v, out) && Fresh(v, ids) && Relabelled(v, out, deps, ids, w)
    ensures forall c <- v.conflicts ::
      c in w.conflicts
      && w.conflicts[c] == v.conflicts[c].(open := v.conflicts[c].open && Between(v.conflicts[c]) in out.conflicts)
    ensures forall c <- w.conflicts :: c !in v.conflicts ==>
      var x := w.conflicts[c];
      && x.open && Between(x) in out.conflicts && NotOpenYet(v, Between(x))
      && x.task in w.tasks && w.tasks[x.task] == Task(x.left, "cross_source", true)
    ensures forall p <- out.conflicts :: NotOpenYet(v, p) ==>
      exists c <- w.conflicts :: c !in v.conflicts && Between(w.conflicts[c]) == p
    ensures forall c <- w.conflicts, d <- w.conflicts ::
      c !in v.conflicts && d !in v.conflicts && Between(w.conflicts[c]) == Between(w.conflicts[d]) ==> c == d
  {
    hide NoticesAfter, TasksOpened, Reports, NewlyDefeated, LearnAll, NewEdges, NewStatuses, Less;
    var conflicts: map<string, Conflict> :|
      ConflictsOpened(v, ids, out.conflicts - OpenPairs(v), w.tasks, conflicts)
      && w.conflicts == Resolved(v, OpenPairs(v) - out.conflicts, conflicts);
    forall p | p in out.conflicts ensures NotOpenYet(v, p) <==> p in out.conflicts - OpenPairs(v) {
    }
    forall c | c in v.conflicts && v.conflicts[c].open ensures Between(v.conflicts[c]) in OpenPairs(v) {
      assert Pair(v.conflicts[c]) in OpenPairs(v);
    }
    forall c | c in w.conflicts && c !in v.conflicts
      ensures exists p <- out.conflicts - OpenPairs(v) :: c == ids.conflict(p) && OpenedOn(w.tasks, w.conflicts[c], p)
    {
      var p :| p in out.conflicts - OpenPairs(v) && c == ids.conflict(p);
      assert OpenedOn(w.tasks, conflicts[c], p);
    }
    forall p | p in out.conflicts && NotOpenYet(v, p)
      ensures exists c <- w.conflicts :: c !in v.conflicts && Between(w.conflicts[c]) == p
    {
      assert p in out.conflicts - OpenPairs(v) && OpenedOn(w.tasks, conflicts[ids.conflict(p)], p);
      assert ids.conflict(p) in w.conflicts;
    }
  }

  // A task is made only for a belief that has no open cross-source task and is the first of a new
  // pair; those there stay.
  lemma TasksLeft(v: View, out: Outcome, deps: Dependents, ids: Names, w: View)
    requires OutcomeOk(v, out) && Fresh(v, ids) && Relabelled(v, out, deps, ids, w)
    ensures forall t <- v.tasks :: t in w.tasks && w.tasks[t] == v.tasks[t]
    ensures forall t <- w.tasks :: t !in v.tasks ==>
      && w.tasks[t] == Task(w.tasks[t].belief, "cross_source", true)
      && (forall u <- v.tasks :: v.tasks[u] != w.tasks[t])
      && exists p <- out.conflicts :: p.0 == w.tasks[t].belief && NotOpenYet(v, p)
    ensures forall t <- w.tasks, u <- w.tasks :: t !in v.tasks && u !in v.tasks && w.tasks[t] == w.tasks[u] ==> t == u
  {
    hide NoticesAfter, ConflictsOpened, Resolved, Reports, NewlyDefeated, LearnAll, NewEdges, NewStatuses, Less;
    forall p | p in out.conflicts ensures NotOpenYet(v, p) <==> p in out.conflicts - OpenPairs(v) {
      NotOpenIff(v, p);
    }
    forall t | t in w.tasks && t !in v.tasks
      ensures exists p <- out.conflicts - OpenPairs(v) ::
        NeedsTask(v, p.0) && t == ids.task(p.0) && w.tasks[t] == Task(p.0, "cross_source", true)
    {
    }
  }

  lemma NotOpenIff(v: View, p: (string, string))
    ensures NotOpenYet(v, p) <==> p !in OpenPairs(v)
  {
    if p in OpenPairs(v) {
      var c :| c in v.conflicts && v.conflicts[c].open && Pair(v.conflicts[c]) == p;
    }
    if !NotOpenYet(v, p) {
      var c :| c in v.conflicts && v.conflicts[c].open && Between(v.conflicts[c]) == p;
      assert Pair(v.conflicts[c]) in OpenPairs(v);
    }
  }
}
