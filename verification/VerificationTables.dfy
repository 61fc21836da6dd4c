/**
 A completed verification in the projection tables: what its batch of events leaves in the rows
 of the task, the belief and the source.
 */
module VerificationTables {
  import opened Wrappers
  import opened Sql
  import P = Projections
  import R = Relabel
  import opened RelabelProjection
  import opened SourceLearning

  function Wanted(verdict: Verdict, was: Value): Value {
    match verdict
    case Confirmed => Text("in")
    case Disconfirmed => Text("out")
    case Inconclusive => was
  }

  // The batch is refused exactly when another task of the belief and method was completed before.
  // Otherwise the task's row is completed, the belief's admission is as the verdict says and its
  // status as before, and the counters of its source are one sample on if the verdict counts.
  lemma CompletionInTables(p: P.Projection, ep: string, v: R.View, id: string, verdict: Verdict,
                           drafts: seq<R.Draft>, events: seq<P.Event>)
    requires WellKeyed(p.db) && Shows(p.db, ep, v) && Recorded(events, drafts, ep)
    requires id in v.tasks && v.tasks[id].belief in v.beliefs && CompletionDrafts(v, id, verdict, drafts)
    ensures P.Id(Beliefs, v.tasks[id].belief) in p.db
    ensures P.FoldFrom(p, events).None? <==> CompletedBefore(v, id)
    ensures P.FoldFrom(p, events).Some? ==>
      var q, b := P.FoldFrom(p, events).value.db, v.tasks[id].belief;
      var k, s := P.Id(Beliefs, b), P.Id(Sources, v.beliefs[b].source);
      && k in q && P.Id(Tasks, id) in q
      && Column(q[P.Id(Tasks, id)], "state") == Text("completed")
      && Column(q[k], "admission_status") == Wanted(verdict, Column(p.db[k], "admission_status"))
      && Column(q[k], "status") == Column(p.db[k], "status")
      && (forall x <- v.beliefs | x != b :: P.Id(Beliefs, x) in q && P.Id(Beliefs, x) in p.db
            && Column(q[P.Id(Beliefs, x)], "admission_status") == Column(p.db[P.Id(Beliefs, x)], "admission_status"))
      && (Counts(v, b, verdict) ==> s in q && s in p.db)
      && (Counts(v, b, verdict) && v.sources[v.beliefs[b].source].confirmed >= 0
          && v.sources[v.beliefs[b].source].defeated >= 0 && v.sources[v.beliefs[b].source].samples >= 0 ==>
            && Number(Column(q[s], "confirmed")) == Number(Column(p.db[s], "confirmed")) + (if verdict == Confirmed then 1 else 0)
            && Number(Column(q[s], "defeated")) == Number(Column(p.db[s], "defeated")) + (if verdict == Disconfirmed then 1 else 0)
            && Number(Column(q[s], "samples")) == Number(Column(p.db[s], "samples")) + 1)
  {
    hide Shows, P.FoldFrom, R.ApplyAll, CompletionLeaves, CompletedBefore, CanComplete, Completed, Counts, WellKeyed, Recorded, Outside;
    var b := v.tasks[id].belief;
    forall d | d in drafts ensures NotElsewhere(p.db, ep, d) {
    }
    BatchRefines(p, ep, v, drafts, events);
    DraftsComplete(v, id, verdict, drafts);
    CanCompleteIff(v, id);
    CompletedLeaves(v, id, verdict);
    ShownBelief(p.db, ep, v, b);
    if P.FoldFrom(p, events).Some? {
      var q, w := P.FoldFrom(p, events).value.db, Completed(v, id, verdict);
      LeavesBeliefs(v, id, verdict, w);
      ShownTask(q, ep, w, id);
      forall x | x in v.beliefs ensures x in w.beliefs && P.Id(Beliefs, x) in q && P.Id(Beliefs, x) in p.db
        ensures BeliefRow(q[P.Id(Beliefs, x)], w.beliefs[x]) && BeliefRow(p.db[P.Id(Beliefs, x)], v.beliefs[x])
      {
        ShownBelief(p.db, ep, v, x);
        ShownBelief(q, ep, w, x);
      }
      if Counts(v, b, verdict) {
        LeavesSource(v, id, verdict, w);
        ShownSource(p.db, ep, v, v.beliefs[b].source);
        ShownSource(q, ep, w, v.beliefs[b].source);
      }
    }
  }

  lemma LeavesBeliefs(v: R.View, id: string, verdict: Verdict, w: R.View)
    requires id in v.tasks && v.tasks[id].belief in v.beliefs && CompletionLeaves(v, id, verdict, w)
    ensures w.beliefs.Keys == v.beliefs.Keys && id in w.tasks && !w.tasks[id].open
    ensures forall x <- v.beliefs | x != v.tasks[id].belief :: w.beliefs[x] == v.beliefs[x]
    ensures var b := v.tasks[id].belief;
      && w.beliefs[b].status == v.beliefs[b].status
      && w.beliefs[b].admission == match verdict case Confirmed => R.IN case Disconfirmed => R.OUT
                                                 case Inconclusive => v.beliefs[b].admission
  {
  }

  lemma LeavesSource(v: R.View, id: string, verdict: Verdict, w: R.View)
    requires id in v.tasks && v.tasks[id].belief in v.beliefs && CompletionLeaves(v, id, verdict, w)
    requires Counts(v, v.tasks[id].belief, verdict)
    ensures v.beliefs[v.tasks[id].belief].source in v.sources && v.beliefs[v.tasks[id].belief].source in w.sources
    ensures var s := v.beliefs[v.tasks[id].belief].source;
      v.sources[s].confirmed >= 0 && v.sources[s].defeated >= 0 && v.sources[s].samples >= 0 ==>
        w.sources[s] == R.Stats(v.sources[s].confirmed + (if verdict == Confirmed then 1 else 0),
                                v.sources[s].defeated + (if verdict == Disconfirmed then 1 else 0), v.sources[s].samples + 1)
  {
  }

  lemma ShownBelief(db: Db, ep: string, v: R.View, x: string)
    requires Shows(db, ep, v) && x in v.beliefs
    ensures P.Id(Beliefs, x) in db && BeliefRow(db[P.Id(Beliefs, x)], v.beliefs[x])
  {
    hide BeliefRow, Unclashing;
    Listed(db, Beliefs, ep, v.beliefs, BeliefRow, x);
  }

  lemma ShownTask(db: Db, ep: string, v: R.View, x: string)
    requires Shows(db, ep, v) && x in v.tasks
    ensures P.Id(Tasks, x) in db && TaskRow(db[P.Id(Tasks, x)], v.tasks[x])
  {
    hide TaskRow, Unclashing;
    Listed(db, Tasks, ep, v.tasks, TaskRow, x);
  }

  lemma ShownSource(db: Db, ep: string, v: R.View, x: string)
    requires Shows(db, ep, v) && x in v.sources
    ensures P.Id(Sources, x) in db && SourceRow(db[P.Id(Sources, x)], v.sources[x])
  {
    hide SourceRow, Unclashing;
    Listed(db, Sources, ep, v.sources, SourceRow, x);
  }
}
