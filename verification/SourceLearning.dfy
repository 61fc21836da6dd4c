/**
 Completing a verification task, and the conservation of source learning: over every run of
 relabel passes and verification steps, what a source's counters say is what its beliefs showed.
 */
module SourceLearning {
  import opened Wrappers
  import opened Descendants
  import opened Relabel

  datatype Verdict = Confirmed | Disconfirmed | Inconclusive

  predicate Sampled(deltas: seq<Delta>, b: string, confirmed: bool) {
    if confirmed then SampledConfirmed(deltas, b) else SampledDefeated(deltas, b)
  }

  function VerdictDelta(v: View, b: string, confirmed: bool): Delta
    requires b in v.beliefs
  {
    Delta(v.beliefs[b].source, b, if confirmed then 1 else 0, if confirmed then 0 else 1, 1)
  }

  // A second completion for the same belief and method meets the row of the first.
  predicate CanComplete(v: View, id: string)
    requires id in v.tasks
  {
    TaskUnique(v, id, v.tasks[id].(open := false))
  }

  function Completed(v: View, id: string, verdict: Verdict): View
    requires id in v.tasks && v.tasks[id].belief in v.beliefs
  {
    var b := v.tasks[id].belief;
    var u := v.(tasks := v.tasks[id := v.tasks[id].(open := false)]);
    if verdict == Inconclusive then u
    else
      var x := u.(beliefs := u.beliefs[b := u.beliefs[b].(admission := if verdict == Confirmed then IN else OUT)]);
      if v.beliefs[b].source in v.sources && !Sampled(v.deltas, b, verdict == Confirmed)
      then Learning(x, [VerdictDelta(v, b, verdict == Confirmed)]) else x
  }

  // What the verdict says about admission.
  function Admission(v: View, b: string, verdict: Verdict): Status
    requires b in v.beliefs
  {
    match verdict
    case Confirmed => IN
    case Disconfirmed => OUT
    case Inconclusive => v.beliefs[b].admission
  }

  // The verdict counts: it says something, the source is known, and the belief was not counted
  // with that outcome before.
  predicate Counts(v: View, b: string, verdict: Verdict)
    requires b in v.beliefs
  {
    && v.beliefs[b].source in v.sources
    && match verdict
       case Confirmed => forall i | 0 <= i < |v.deltas| :: v.deltas[i].belief == b ==> v.deltas[i].confirmed <= 0
       case Disconfirmed => forall i | 0 <= i < |v.deltas| :: v.deltas[i].belief == b ==> v.deltas[i].defeated <= 0
       case Inconclusive => false
  }

  function Sample(v: View, b: string, verdict: Verdict): Delta
    requires b in v.beliefs
  {
    Delta(v.beliefs[b].source, b, if verdict == Confirmed then 1 else 0, if verdict == Disconfirmed then 1 else 0, 1)
  }

  // The drafts of a completion: the task, the admission if it differs, the sample if it counts.
  predicate CompletionDrafts(v: View, id: string, verdict: Verdict, drafts: seq<Draft>)
    requires id in v.tasks && v.tasks[id].belief in v.beliefs
  {
    var b := v.tasks[id].belief;
    drafts == [TaskCompleted(id)]
      + (if v.beliefs[b].admission != Admission(v, b, verdict) then [AdmissionChanged(b, Admission(v, b, verdict))] else [])
      + (if Counts(v, b, verdict) then [StatsDelta(Sample(v, b, verdict))] else [])
  }

  // What it leaves: that task closed, the belief's admission as the verdict says, its source one
  // sample on, and everything else as it was.
  ghost predicate CompletionLeaves(v: View, id: string, verdict: Verdict, w: View)
    requires id in v.tasks && v.tasks[id].belief in v.beliefs
  {
    var b, source := v.tasks[id].belief, v.beliefs[v.tasks[id].belief].source;
    && w.tasks == v.tasks[id := Task(b, v.tasks[id].method_, false)]
    && w.beliefs == v.beliefs[b := Belief(v.beliefs[b].status, Admission(v, b, verdict), source)]
    && w.edges == v.edges && w.conflicts == v.conflicts && w.notices == v.notices && w.rendered == v.rendered
    && w.deltas == v.deltas + (if Counts(v, b, verdict) then [Sample(v, b, verdict)] else [])
    && w.sources.Keys == v.sources.Keys
    && (forall s <- v.sources | s != source || !Counts(v, b, verdict) :: w.sources[s] == v.sources[s])
    && (Counts(v, b, verdict) && v.sources[source].confirmed >= 0 && v.sources[source].defeated >= 0 && v.sources[source].samples >= 0 ==>
          && w.sources[source].confirmed == v.sources[source].confirmed + (if verdict == Confirmed then 1 else 0)
          && w.sources[source].defeated == v.sources[source].defeated + (if verdict == Disconfirmed then 1 else 0)
          && w.sources[source].samples == v.sources[source].samples + 1)
  }

  // Another task of the same belief and method has been completed.
  predicate CompletedBefore(v: View, id: string)
    requires id in v.tasks
  {
    exists k <- v.tasks :: k != id && v.tasks[k] == Task(v.tasks[id].belief, v.tasks[id].method_, false)
  }

  lemma CanCompleteIff(v: View, id: string)
    requires id in v.tasks
    ensures CanComplete(v, id) <==> !CompletedBefore(v, id)
  {
  }

  lemma CompletedLeaves(v: View, id: string, verdict: Verdict)
    requires id in v.tasks && v.tasks[id].belief in v.beliefs
    ensures CompletionLeaves(v, id, verdict, Completed(v, id, verdict))
  {
    var b := v.tasks[id].belief;
    assert v.beliefs[b := v.beliefs[b]] == v.beliefs;
    SampleIs(v, b, verdict);
    if Counts(v, b, verdict) { LearnAllOne(v.sources, Sample(v, b, verdict)); }
  }

  lemma SampleIs(v: View, b: string, verdict: Verdict)
    requires b in v.beliefs
    ensures verdict != Inconclusive ==> Sample(v, b, verdict) == VerdictDelta(v, b, verdict == Confirmed)
    ensures Counts(v, b, verdict) <==>
      verdict != Inconclusive && v.beliefs[b].source in v.sources && !Sampled(v.deltas, b, verdict == Confirmed)
  {
  }

  // The drafts carried out.
  lemma DraftsComplete(v: View, id: string, verdict: Verdict, drafts: seq<Draft>)
    requires id in v.tasks && v.tasks[id].belief in v.beliefs && CompletionDrafts(v, id, verdict, drafts)
    ensures ApplyAll(v, drafts) == if CanComplete(v, id) then Some(Completed(v, id, verdict)) else None
  {
    hide ApplyAll, SampledConfirmed, SampledDefeated, TaskUnique, Counts, Sample;
    var b := v.tasks[id].belief;
    SampleIs(v, b, verdict);
    NothingApplied(v);
    ApplySnoc(v, [], TaskCompleted(id));
    var first := [TaskCompleted(id)];
    assert [] + first == first;
    var admitted := AdmissionChanged(b, Admission(v, b, verdict));
    var second := if v.beliefs[b].admission != Admission(v, b, verdict) then first + [admitted] else first;
    ApplySnoc(v, first, admitted);
    var u := v.(tasks := v.tasks[id := v.tasks[id].(open := false)]);
    var x := u.(beliefs := u.beliefs[b := u.beliefs[b].(admission := Admission(v, b, verdict))]);
    assert v.beliefs[b].admission == Admission(v, b, verdict) ==> x.beliefs == u.beliefs;
    assert ApplyAll(v, second) == if CanComplete(v, id) then Some(x) else None;
    if Counts(v, b, verdict) {
      var d := Sample(v, b, verdict);
      ApplySnoc(v, second, StatsDelta(d));
      NothingLearnt(x, x);
      LearningStep(x, [], d);
      assert [] + [d] == [d] && drafts == second + [StatsDelta(d)];
    } else {
      assert drafts == second;
    }
  }

  // `complete_verification` up to the append; None when the task's belief is missing.
  method CompleteVerification(v: View, id: string, verdict: Verdict) returns (r: Option<seq<Draft>>)
    ensures id !in v.tasks || !v.tasks[id].open ==> r == Some([])
    ensures id in v.tasks && v.tasks[id].open && v.tasks[id].belief !in v.beliefs ==> r == None
    ensures id in v.tasks && v.tasks[id].open && v.tasks[id].belief in v.beliefs ==>
      && r.Some? && CompletionDrafts(v, id, verdict, r.value)
      && ApplyAll(v, r.value) == (if CanComplete(v, id) then Some(Completed(v, id, verdict)) else None)
      && (ApplyAll(v, r.value).None? <==> CompletedBefore(v, id))
      && (ApplyAll(v, r.value).Some? ==> CompletionLeaves(v, id, verdict, ApplyAll(v, r.value).value))
  {
    hide ApplyAll, CanComplete, Completed, Sampled, CompletedBefore, CompletionLeaves, Counts, Sample;
    if id !in v.tasks || !v.tasks[id].open {
      return Some([]);
    }
    var b := v.tasks[id].belief;
    if b !in v.beliefs {
      return None;
    }
    SampleIs(v, b, verdict);
    var drafts := [TaskCompleted(id)];
    if verdict != Inconclusive {
      var admission := if verdict == Confirmed then IN else OUT;
      if v.beliefs[b].admission != admission {
        drafts := drafts + [AdmissionChanged(b, admission)];
      }
      if v.beliefs[b].source in v.sources && !Sampled(v.deltas, b, verdict == Confirmed) {
        drafts := drafts + [StatsDelta(VerdictDelta(v, b, verdict == Confirmed))];
      }
    }
    DraftsComplete(v, id, verdict, drafts);
    CanCompleteIff(v, id);
    CompletedLeaves(v, id, verdict);
    r := Some(drafts);
  }

  /******* Conservation *******/

  // Each delta is one sample of one outcome, held against the belief's own source, and a belief
  // is sampled at most once with each outcome.
  ghost predicate DeltasOk(v: View) {
    && (forall i | 0 <= i < |v.deltas| :: DeltaOk(v, v.deltas[i]))
    && (forall i, j | 0 <= i < j < |v.deltas| && v.deltas[i].belief == v.deltas[j].belief ::
          v.deltas[i].confirmed != v.deltas[j].confirmed)
  }

  predicate DeltaOk(v: View, d: Delta) {
    d.belief in v.beliefs && (d == VerdictDelta(v, d.belief, true) || d == VerdictDelta(v, d.belief, false))
  }

  // The distinct beliefs of a source that were sampled with an outcome.
  function Counted(deltas: seq<Delta>, source: string, confirmed: bool): set<string> {
    set i | 0 <= i < |deltas| && deltas[i].source == source && (deltas[i].confirmed > 0) == confirmed :: deltas[i].belief
  }

  ghost predicate Conserved(v: View) {
    forall s <- v.sources ::
      && v.sources[s].confirmed == |Counted(v.deltas, s, true)|
      && v.sources[s].defeated == |Counted(v.deltas, s, false)|
      && v.sources[s].samples == v.sources[s].confirmed + v.sources[s].defeated
  }

  ghost predicate Learnt(v: View) {
    SourcesOk(v) && DeltasOk(v) && Conserved(v)
  }

  lemma CountedStep(deltas: seq<Delta>, d: Delta, source: string, confirmed: bool)
    ensures Counted(deltas + [d], source, confirmed) ==
            Counted(deltas, source, confirmed) + if d.source == source && (d.confirmed > 0) == confirmed then {d.belief} else {}
  {
    var more := deltas + [d];
    forall b | b in Counted(deltas, source, confirmed) ensures b in Counted(more, source, confirmed) {
      var i :| 0 <= i < |deltas| && deltas[i].source == source && (deltas[i].confirmed > 0) == confirmed && deltas[i].belief == b;
      assert more[i] == deltas[i];
    }
    if d.source == source && (d.confirmed > 0) == confirmed {
      assert more[|deltas|] == d;
      assert d.belief in Counted(more, source, confirmed);
    }
  }

  lemma LearnAllOne(sources: map<string, Stats>, d: Delta)
    requires d.source in sources
    ensures LearnAll(sources, [d]) == sources[d.source := Learn(sources[d.source], d)]
  {
    hide Learn;
    assert [d][..0] == [];
    assert LearnAll(sources, []) == sources;
  }

  lemma DeltasStep(v: View, b: string, confirmed: bool)
    requires DeltasOk(v) && b in v.beliefs && !Sampled(v.deltas, b, confirmed)
    ensures DeltasOk(v.(deltas := v.deltas + [VerdictDelta(v, b, confirmed)]))
  {
    hide Sampled;
    NotCounted(v, b, confirmed);
    var w := v.(deltas := v.deltas + [VerdictDelta(v, b, confirmed)]);
    forall i | 0 <= i < |w.deltas| ensures DeltaOk(w, w.deltas[i]) {
      if i < |v.deltas| { assert DeltaOk(v, v.deltas[i]); }
    }
    forall i | 0 <= i < |v.deltas| && v.deltas[i].belief == b ensures v.deltas[i].confirmed != w.deltas[|v.deltas|].confirmed {
      assert DeltaOk(v, v.deltas[i]);
    }
  }

  lemma LearnOne(v: View, b: string, confirmed: bool)
    requires Learnt(v) && b in v.beliefs && !Sampled(v.deltas, b, confirmed)
    ensures Learnt(Learning(v, [VerdictDelta(v, b, confirmed)]))
  {
    hide Sampled, Counted, DeltasOk, LearnAll;
    var d := VerdictDelta(v, b, confirmed);
    var w := Learning(v, [d]);
    NotCounted(v, b, confirmed);
    DeltasStep(v, b, confirmed);
    LearnAllOne(v.sources, d);
    SameDeltas(v.(deltas := w.deltas), w);
    forall s <- w.sources
      ensures w.sources[s].confirmed == |Counted(w.deltas, s, true)|
      ensures w.sources[s].defeated == |Counted(w.deltas, s, false)|
      ensures w.sources[s].samples == w.sources[s].confirmed + w.sources[s].defeated
    {
      CountedStep(v.deltas, d, s, true);
      CountedStep(v.deltas, d, s, false);
    }
  }

  // The deltas stay good while beliefs are added and keep their source.
  predicate KeepsSources(v: View, w: View) {
    forall b <- v.beliefs :: b in w.beliefs && w.beliefs[b].source == v.beliefs[b].source
  }

  lemma SameDeltas(v: View, w: View)
    requires DeltasOk(v) && w.deltas == v.deltas && KeepsSources(v, w)
    ensures DeltasOk(w)
  {
    forall i | 0 <= i < |w.deltas| ensures DeltaOk(w, w.deltas[i]) { assert DeltaOk(v, v.deltas[i]); }
  }

  lemma NotCounted(v: View, b: string, confirmed: bool)
    requires DeltasOk(v) && b in v.beliefs && !Sampled(v.deltas, b, confirmed)
    ensures forall s :: b !in Counted(v.deltas, s, confirmed)
    ensures forall i | 0 <= i < |v.deltas| && v.deltas[i].belief == b :: (v.deltas[i].confirmed > 0) != confirmed
  {
    forall i | 0 <= i < |v.deltas| && v.deltas[i].belief == b ensures (v.deltas[i].confirmed > 0) != confirmed {
      assert DeltaOk(v, v.deltas[i]);
    }
  }

  lemma {:induction false} LearnReports(v: View, ds: seq<Delta>)
    requires Learnt(v)
    requires forall i | 0 <= i < |ds| ::
      ds[i].belief in v.beliefs && ds[i] == DefeatDelta(v, ds[i].belief) && !SampledDefeated(v.deltas, ds[i].belief)
    requires forall i, j | 0 <= i < j < |ds| :: ds[i].belief != ds[j].belief
    ensures Learnt(Learning(v, ds))
    decreases |ds|
  {
    hide Learnt, LearnAll;
    if ds == [] {
      NothingLearnt(v, v);
    } else {
      var rest, d := ds[..|ds| - 1], ds[|ds| - 1];
      LearnReports(v, rest);
      var u := Learning(v, rest);
      NotYetSampled(v, rest, d.belief);
      LearnOne(u, d.belief, false);
      LearningMore(v, rest, d);
      assert ds == rest + [d];
    }
  }

  lemma LearningMore(v: View, ds: seq<Delta>, d: Delta)
    ensures Learning(v, ds + [d]) == Learning(Learning(v, ds), [d])
  {
    hide Learn;
    assert (ds + [d])[..|ds + [d]| - 1] == ds;
    assert [d][..0] == [];
    assert LearnAll(LearnAll(v.sources, ds), []) == LearnAll(v.sources, ds);
    assert v.deltas + (ds + [d]) == v.deltas + ds + [d];
  }

  lemma NotYetSampled(v: View, ds: seq<Delta>, b: string)
    requires !SampledDefeated(v.deltas, b) && forall i | 0 <= i < |ds| :: ds[i].belief != b
    ensures !SampledDefeated(v.deltas + ds, b)
  {
    var all := v.deltas + ds;
    forall i | 0 <= i < |all| ensures !(all[i].belief == b && all[i].defeated > 0) {
      if i < |v.deltas| { assert all[i] == v.deltas[i]; } else { assert all[i] == ds[i - |v.deltas|]; }
    }
  }

  // Whatever else happens to the episode: no delta, beliefs keep their source, new ones have one,
  // and new sources start with nothing counted.
  ghost predicate Elsewhere(v: View, w: View) {
    && w.deltas == v.deltas && KeepsSources(v, w) && SourcesOk(w)
    && (forall s <- v.sources :: s in w.sources && w.sources[s] == v.sources[s])
    && (forall s <- w.sources :: s !in v.sources ==> w.sources[s] == Stats(0, 0, 0))
  }

  lemma ElsewhereKeeps(v: View, w: View)
    requires Learnt(v) && Elsewhere(v, w)
    ensures Learnt(w)
  {
    hide Counted, DeltasOk;
    SameDeltas(v, w);
    forall s <- w.sources | s !in v.sources ensures Counted(w.deltas, s, true) == {} && Counted(w.deltas, s, false) == {} {
      NewSourceCountsNothing(v, s);
    }
  }

  lemma NewSourceCountsNothing(v: View, s: string)
    requires SourcesOk(v) && DeltasOk(v) && s !in v.sources
    ensures Counted(v.deltas, s, true) == {} && Counted(v.deltas, s, false) == {}
  {
    forall i | 0 <= i < |v.deltas| ensures v.deltas[i].source != s { assert DeltaOk(v, v.deltas[i]); }
  }

  /******* Runs *******/

  datatype Label = RelabelPass(out: Outcome, deps: Dependents, ids: Names) | Verification(id: string, verdict: Verdict) | Other

  // One committed transaction; a batch that aborts changes nothing and is no step.
  ghost predicate Step(v: View, how: Label, w: View) {
    match how
    case RelabelPass(out, deps, ids) => OutcomeOk(v, out) && Fresh(v, ids) && CanResolve(v, out) && Relabelled(v, out, deps, ids, w)
    case Verification(id, verdict) =>
      && id in v.tasks && v.tasks[id].open && v.tasks[id].belief in v.beliefs
      && CanComplete(v, id) && w == Completed(v, id, verdict)
    case Other => Elsewhere(v, w)
  }

  ghost predicate Run(trace: seq<View>, labels: seq<Label>) {
    && |trace| == |labels| + 1
    && trace[0].deltas == [] && trace[0].beliefs == map[] && trace[0].sources == map[]
    && forall i | 0 <= i < |labels| :: Step(trace[i], labels[i], trace[i + 1])
  }

  lemma RelabelKeeps(v: View, out: Outcome, deps: Dependents, ids: Names, w: View)
    requires Learnt(v) && Relabelled(v, out, deps, ids, w)
    ensures Learnt(w)
  {
    hide Learnt, NoticesAfter, TasksOpened, ConflictsOpened, Resolved, OpenPairs, NewEdges, SampledDefeated;
    var ds: seq<Delta> :| Reports(v, ds, NewlyDefeated(v, out)) && w.sources == LearnAll(v.sources, ds) && w.deltas == v.deltas + ds;
    LearnReports(v, ds);
    LearntAgain(Learning(v, ds), w);
  }

  lemma LearntAgain(v: View, w: View)
    requires Learnt(v) && w.sources == v.sources && w.deltas == v.deltas
    requires w.beliefs.Keys == v.beliefs.Keys && KeepsSources(v, w)
    ensures Learnt(w)
  {
    ElsewhereKeeps(v, w);
  }

  lemma VerificationKeeps(v: View, id: string, verdict: Verdict)
    requires Learnt(v) && id in v.tasks && v.tasks[id].belief in v.beliefs
    ensures Learnt(Completed(v, id, verdict))
  {
    hide Learnt, Sampled;
    var b := v.tasks[id].belief;
    var w := Completed(v, id, verdict);
    if verdict != Inconclusive && v.beliefs[b].source in v.sources && !Sampled(v.deltas, b, verdict == Confirmed) {
      LearnOne(v, b, verdict == Confirmed);
      LearntAgain(Learning(v, [VerdictDelta(v, b, verdict == Confirmed)]), w);
    } else {
      LearntAgain(v, w);
    }
  }

  lemma StepKeeps(v: View, how: Label, w: View)
    requires Learnt(v) && Step(v, how, w)
    ensures Learnt(w)
  {
    hide Learnt, Relabelled, Elsewhere, Completed;
    match how
    case RelabelPass(out, deps, ids) => RelabelKeeps(v, out, deps, ids, w);
    case Verification(id, verdict) => VerificationKeeps(v, id, verdict);
    case Other => ElsewhereKeeps(v, w);
  }

  lemma {:induction false} RunLearns(trace: seq<View>, labels: seq<Label>, k: nat)
    requires Run(trace, labels) && k < |trace|
    ensures Learnt(trace[k])
    decreases k
  {
    hide Step;
    if k > 0 {
      RunLearns(trace, labels, k - 1);
      StepKeeps(trace[k - 1], labels[k - 1], trace[k]);
    }
  }

  // Source learning is conserved at every point of every run.
  lemma LearningIsConserved(trace: seq<View>, labels: seq<Label>, k: nat, s: string)
    requires Run(trace, labels) && k < |trace| && s in trace[k].sources
    ensures var st := trace[k].sources[s];
      && st.samples == st.confirmed + st.defeated
      && st.confirmed == |Counted(trace[k].deltas, s, true)|
      && st.defeated == |Counted(trace[k].deltas, s, false)|
    ensures forall b :: b in Counted(trace[k].deltas, s, true) + Counted(trace[k].deltas, s, false) ==>
      b in trace[k].beliefs && trace[k].beliefs[b].source == s
  {
    hide Step;
    RunLearns(trace, labels, k);
    var v := trace[k];
    forall i | 0 <= i < |v.deltas| ensures v.deltas[i].belief in v.beliefs && v.deltas[i].source == v.beliefs[v.deltas[i].belief].source {
      assert DeltaOk(v, v.deltas[i]);
    }
  }

  /******* A task of one belief and method is completed once *******/

  // No completed row goes away or is opened again.
  predicate KeepsCompleted(v: View, w: View) {
    forall t <- v.tasks :: !v.tasks[t].open ==> t in w.tasks && w.tasks[t] == v.tasks[t]
  }

  lemma CompletedStays(v: View, how: Label, w: View)
    requires Step(v, how, w) && (how.Other? ==> KeepsCompleted(v, w))
    ensures KeepsCompleted(v, w)
  {
    hide NoticesAfter, ConflictsOpened, Resolved, Reports, NewEdges, NewStatuses, CanResolve, Fresh, CanComplete;
  }

  lemma {:induction false} CompletedRowStays(trace: seq<View>, labels: seq<Label>, i: nat, j: nat, id: string)
    requires Run(trace, labels) && i <= j < |trace| && id in trace[i].tasks && !trace[i].tasks[id].open
    requires forall k | i <= k < j && labels[k].Other? :: KeepsCompleted(trace[k], trace[k + 1])
    ensures id in trace[j].tasks && trace[j].tasks[id] == trace[i].tasks[id]
    decreases j
  {
    hide Step;
    if i < j {
      CompletedRowStays(trace, labels, i, j - 1, id);
      CompletedStays(trace[j - 1], labels[j - 1], trace[j]);
    }
  }

  // After a task has been completed, no other task of that belief and method can be, at any
  // later point of the run.
  lemma SecondCompletionAborts(trace: seq<View>, labels: seq<Label>, i: nat, j: nat, again: string)
    requires Run(trace, labels) && i < j < |trace| && labels[i].Verification?
    requires forall k | i < k < j && labels[k].Other? :: KeepsCompleted(trace[k], trace[k + 1])
    requires again in trace[j].tasks && trace[j].tasks[again].open
    requires var first := labels[i].id;
             first in trace[i].tasks && trace[j].tasks[again].belief == trace[i].tasks[first].belief
             && trace[j].tasks[again].method_ == trace[i].tasks[first].method_
    ensures !CanComplete(trace[j], again)
  {
    hide Step;
    var first := labels[i].id;
    CompletionCloses(trace, labels, i);
    CompletedRowStays(trace, labels, i + 1, j, first);
  }

  lemma CompletionCloses(trace: seq<View>, labels: seq<Label>, i: nat)
    requires Run(trace, labels) && i < |labels| && labels[i].Verification?
    ensures var id := labels[i].id;
      && id in trace[i].tasks && id in trace[i + 1].tasks
      && trace[i + 1].tasks[id] == trace[i].tasks[id].(open := false)
  {
    hide CanComplete, Sampled;
    assert Step(trace[i], labels[i], trace[i + 1]);
  }

  function SampleView(tasks: map<string, Task>): View {
    View(map["b" := Belief(IN, IN, "s")], map[], map[], tasks, map[], {}, map["s" := Stats(0, 0, 0)], [])
  }

  // A belief, a task of it completed as inconclusive, and a second task of the same method: the
  // second cannot be completed.
  lemma SecondCompletionRun() returns (trace: seq<View>, labels: seq<Label>)
    ensures Run(trace, labels) && |trace| == 4 && labels[1] == Verification("first", Inconclusive)
    ensures var v := trace[3];
      "second" in v.tasks && v.tasks["second"].open && v.tasks["second"].belief in v.beliefs && !CanComplete(v, "second")
  {
    var t, done := Task("b", CROSS_SOURCE, true), Task("b", CROSS_SOURCE, false);
    var empty := View(map[], map[], map[], map[], map[], {}, map[], []);
    trace := [empty, SampleView(map["first" := t]), SampleView(map["first" := done]), SampleView(map["first" := done, "second" := t])];
    labels := [Other, Verification("first", Inconclusive), Other];
    assert Elsewhere(trace[0], trace[1]) && Elsewhere(trace[2], trace[3]);
    assert trace[1].tasks["first" := done] == trace[2].tasks;
    assert Step(trace[1], labels[1], trace[2]);
    SecondCompletionAborts(trace, labels, 1, 3, "second");
  }
}
