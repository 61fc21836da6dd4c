/**
 Relabel reconciliation: the diff between the projected state of an episode and the outcome of
 the defeat engine, emitted as one batch of events that must drive the state to that outcome,
 and the source learning that rides on it.

 The engine's outcome is an arbitrary input here. What `engine/defeat.py` fixes about its shape
 is required: a status for every belief, and conflict pairs written smaller id first.
 */
module Relabel {
  import opened Wrappers
  import opened Ordering
  import opened Descendants

  datatype Status = IN | OUT | PENDING | QUARANTINED

  datatype Belief = Belief(status: Status, admission: Status, source: string)

  datatype Conflict = Conflict(left: string, right: string, task: string, open: bool)

  datatype Task = Task(belief: string, method_: string, open: bool)

  datatype Notice = Notice(belief: string, descendants: seq<string>, active: bool)

  datatype Stats = Stats(confirmed: int, defeated: int, samples: int)

  // A SOURCE_STATS_DELTA event in the log.
  datatype Delta = Delta(source: string, belief: string, confirmed: int, defeated: int, samples: int)

  // The projections of one episode that relabel and verification read and write.
  datatype View = View(
    beliefs: map<string, Belief>,
    edges: map<string, bool>,
    conflicts: map<string, Conflict>,
    tasks: map<string, Task>,
    notices: map<string, Notice>,
    rendered: set<string>,
    sources: map<string, Stats>,
    deltas: seq<Delta>)

  datatype Outcome = Outcome(
    statuses: map<string, Status>, activeEdges: map<string, bool>, conflicts: set<(string, string)>, oscillation: bool)

  datatype Draft =
    | EdgeActivity(edge: string, active: bool)
    | StatusChanged(belief: string, to: Status)
    | AdmissionChanged(belief: string, to: Status)
    | RetractionCreated(id: string, belief: string, descendants: seq<string>)
    | TaskCreated(id: string, belief: string)
    | TaskCompleted(id: string)
    | ConflictOpened(id: string, left: string, right: string, task: string)
    | ConflictResolved(id: string)
    | StatsDelta(delta: Delta)
    | DefeatCycle

  const CROSS_SOURCE := "cross_source"

  // UNIQUE(episode_id, belief_id, method, state) and UNIQUE(episode_id, left, right, state).
  predicate TaskUnique(v: View, id: string, t: Task) {
    forall k <- v.tasks :: k != id ==> v.tasks[k] != t
  }

  predicate ConflictUnique(v: View, id: string, left: string, right: string, open: bool) {
    forall k <- v.conflicts :: k != id ==>
      !(v.conflicts[k].left == left && v.conflicts[k].right == right && v.conflicts[k].open == open)
  }

  function Clamped(n: int): int {
    if n < 0 then 0 else n
  }

  function Learn(s: Stats, d: Delta): Stats {
    Stats(Clamped(s.confirmed + d.confirmed), Clamped(s.defeated + d.defeated), Clamped(s.samples + d.samples))
  }

  // The projection handlers on this view; None aborts the batch.
  function Apply(v: View, d: Draft): Option<View> {
    match d
    case EdgeActivity(e, active) => if e in v.edges then Some(v.(edges := v.edges[e := active])) else None
    case StatusChanged(b, to) =>
      if b in v.beliefs then Some(v.(beliefs := v.beliefs[b := v.beliefs[b].(status := to)])) else None
    case AdmissionChanged(b, to) =>
      if b in v.beliefs then Some(v.(beliefs := v.beliefs[b := v.beliefs[b].(admission := to)])) else None
    case RetractionCreated(id, b, ds) =>
      if b in v.beliefs && (forall x <- ds :: x in v.beliefs) && id !in v.notices
      then Some(v.(notices := v.notices[id := Notice(b, ds, true)])) else None
    case TaskCreated(id, b) =>
      var t := Task(b, CROSS_SOURCE, true);
      if b in v.beliefs && id !in v.tasks && TaskUnique(v, id, t)
      then Some(v.(tasks := v.tasks[id := t])) else None
    case TaskCompleted(id) =>
      if id in v.tasks && TaskUnique(v, id, v.tasks[id].(open := false))
      then Some(v.(tasks := v.tasks[id := v.tasks[id].(open := false)])) else None
    case ConflictOpened(id, l, r, t) =>
      if l in v.beliefs && r in v.beliefs && t in v.tasks && id !in v.conflicts && ConflictUnique(v, id, l, r, true)
      then Some(v.(conflicts := v.conflicts[id := Conflict(l, r, t, true)])) else None
    case ConflictResolved(id) =>
      if id in v.conflicts && ConflictUnique(v, id, v.conflicts[id].left, v.conflicts[id].right, false)
      then Some(v.(conflicts := v.conflicts[id := v.conflicts[id].(open := false)])) else None
    case StatsDelta(x) =>
      if x.source in v.sources
      then Some(v.(sources := v.sources[x.source := Learn(v.sources[x.source], x)], deltas := v.deltas + [x])) else None
    case DefeatCycle => Some(v)
  }

  function ApplyAll(v: View, ds: seq<Draft>): Option<View> {
    if ds == [] then Some(v)
    else match ApplyAll(v, ds[..|ds| - 1])
         case None => None
         case Some(u) => Apply(u, ds[|ds| - 1])
  }

  lemma {:induction false} ApplyAllConcat(v: View, a: seq<Draft>, b: seq<Draft>)
    ensures ApplyAll(v, a + b) == match ApplyAll(v, a) case None => None case Some(u) => ApplyAll(u, b)
  {
    if b == [] {
      assert a + b == a;
    } else {
      assert (a + b)[..|a + b| - 1] == a + b[..|b| - 1];
      ApplyAllConcat(v, a, b[..|b| - 1]);
    }
  }

  lemma ApplySnoc(v: View, ds: seq<Draft>, d: Draft)
    ensures ApplyAll(v, ds + [d]) == match ApplyAll(v, ds) case None => None case Some(u) => Apply(u, d)
  {
    assert (ds + [d])[..|ds + [d]| - 1] == ds;
  }

  /******* What the outcome asks for *******/

  // As `engine/defeat.py` builds it.
  predicate OutcomeOk(v: View, out: Outcome) {
    && out.statuses.Keys == v.beliefs.Keys
    && forall p <- out.conflicts :: p.0 in v.beliefs && p.1 in v.beliefs && !Less(p.1, p.0)
  }

  function WantActive(out: Outcome, e: string): bool {
    e in out.activeEdges && out.activeEdges[e]
  }

  function OrderedPair(a: string, b: string): (string, string) {
    if Less(b, a) then (b, a) else (a, b)
  }

  function Pair(c: Conflict): (string, string) {
    (c.left, c.right)
  }

  function OpenPairs(v: View): set<(string, string)> {
    set c | c in v.conflicts && v.conflicts[c].open :: Pair(v.conflicts[c])
  }

  predicate ActiveNotice(v: View, n: string, b: string) {
    n in v.notices && v.notices[n].active && v.notices[n].belief == b
  }

  predicate HasNotice(v: View, b: string) {
    exists n <- v.notices :: ActiveNotice(v, n, b)
  }

  ghost predicate OneNoticeEach(v: View) {
    forall m <- v.notices, n <- v.notices ::
      v.notices[m].active && v.notices[n].active && v.notices[m].belief == v.notices[n].belief ==> m == n
  }

  predicate SameState(c: Conflict, d: Conflict) {
    c.left == d.left && c.right == d.right && c.open == d.open
  }

  // Conflicts are stored ordered, and no two open rows share a pair.
  ghost predicate ConflictsOk(v: View) {
    && (forall c <- v.conflicts :: !Less(v.conflicts[c].right, v.conflicts[c].left))
    && (forall c <- v.conflicts, d <- v.conflicts ::
          SameState(v.conflicts[c], v.conflicts[d]) ==> c == d)
  }

  // The state the outcome describes.
  ghost predicate Matches(v: View, out: Outcome) {
    && (forall b <- out.statuses :: b in v.beliefs && v.beliefs[b].status == out.statuses[b])
    && (forall e <- v.edges :: v.edges[e] == WantActive(out, e))
    && OpenPairs(v) == out.conflicts
  }

  // A pair is resolved at most once: the resolved row of an earlier resolution is in the way.
  predicate CanResolve(v: View, out: Outcome) {
    forall c <- v.conflicts :: v.conflicts[c].open && Pair(v.conflicts[c]) !in out.conflicts ==>
      ConflictUnique(v, c, v.conflicts[c].left, v.conflicts[c].right, false)
  }

  // Identifiers made up for new rows.
  datatype Names = Names(notice: string -> string, task: string -> string, conflict: ((string, string)) -> string)

  ghost predicate Fresh(v: View, ids: Names) {
    && (forall b :: ids.notice(b) !in v.notices)
    && (forall a, b :: ids.notice(a) == ids.notice(b) ==> a == b)
    && (forall b :: ids.task(b) !in v.tasks)
    && (forall a, b :: ids.task(a) == ids.task(b) ==> a == b)
    && (forall p :: ids.conflict(p) !in v.conflicts)
    && (forall p, q :: ids.conflict(p) == ids.conflict(q) ==> p == q)
  }

  /******* _edge_activity_drafts *******/

  function NewEdges(v: View, out: Outcome, done: set<string>): map<string, bool> {
    map e | e in v.edges :: if e in done then WantActive(out, e) else v.edges[e]
  }

  lemma NewEdgesStep(v: View, out: Outcome, done: set<string>, e: string)
    requires e in v.edges
    ensures e in NewEdges(v, out, done)
    ensures NewEdges(v, out, done + {e}) == NewEdges(v, out, done)[e := WantActive(out, e)]
    ensures e !in done && v.edges[e] == WantActive(out, e) ==> NewEdges(v, out, done + {e}) == NewEdges(v, out, done)
  {
    hide WantActive;
  }

  lemma NoNewEdges(v: View, out: Outcome)
    ensures NewEdges(v, out, {}) == v.edges
  {
  }

  lemma NothingApplied(v: View)
    ensures ApplyAll(v, []) == Some(v)
  {
  }

  predicate Flips(v: View, d: Draft) {
    d.EdgeActivity? && d.edge in v.edges && v.edges[d.edge] != d.active
  }

  method EdgeActivityDrafts(v: View, out: Outcome) returns (drafts: seq<Draft>)
    ensures ApplyAll(v, drafts) == Some(v.(edges := NewEdges(v, out, v.edges.Keys)))
    ensures drafts == [] <==> forall e <- v.edges :: v.edges[e] == WantActive(out, e)
    ensures forall i | 0 <= i < |drafts| :: Flips(v, drafts[i])
  {
    hide ApplyAll, WantActive, Sorted, Less, Members, NewEdges;
    var rows := SortStrings(v.edges.Keys);
    drafts := [];
    NothingApplied(v);
    ghost var done: set<string> := {};
    NoNewEdges(v, out);
    NoMembers(rows);
    for i := 0 to |rows|
      invariant done == Members(rows[..i]) && done <= v.edges.Keys
      invariant ApplyAll(v, drafts) == Some(v.(edges := NewEdges(v, out, done)))
      invariant drafts == [] <==> forall e <- done :: v.edges[e] == WantActive(out, e)
      invariant forall k | 0 <= k < |drafts| :: Flips(v, drafts[k])
    {
      var e := rows[i];
      MembersStep(rows, i);
      NewEdgesStep(v, out, done, e);
      var active := WantActive(out, e);
      if active != v.edges[e] {
        ApplySnoc(v, drafts, EdgeActivity(e, active));
        drafts := drafts + [EdgeActivity(e, active)];
      }
      done := done + {e};
    }
    AllMembers(rows, v.edges.Keys);
  }

  /******* _belief_transition_drafts *******/

  predicate LeavesIn(v: View, out: Outcome, b: string) {
    b in v.beliefs && b in out.statuses && v.beliefs[b].status == IN && out.statuses[b] != IN
  }

  predicate NeedsNotice(v: View, out: Outcome, b: string) {
    LeavesIn(v, out, b) && b in v.rendered && !HasNotice(v, b)
  }

  function NewStatuses(v: View, out: Outcome, done: set<string>): map<string, Belief> {
    map b | b in v.beliefs :: if b in done && b in out.statuses then v.beliefs[b].(status := out.statuses[b]) else v.beliefs[b]
  }

  // The beliefs one batch reports as defeated, and not reported before.
  function NewlyDefeated(v: View, out: Outcome): set<string> {
    set b | b in v.beliefs && b in out.statuses && v.beliefs[b].status == IN && out.statuses[b] == OUT
            && !SampledDefeated(v.deltas, b)
  }

  predicate SampledDefeated(deltas: seq<Delta>, b: string) {
    exists i | 0 <= i < |deltas| :: deltas[i].belief == b && deltas[i].defeated > 0
  }

  predicate SampledConfirmed(deltas: seq<Delta>, b: string) {
    exists i | 0 <= i < |deltas| :: deltas[i].belief == b && deltas[i].confirmed > 0
  }

  // The notices after some beliefs have been visited.
  ghost predicate NoticesAfter(v: View, out: Outcome, deps: Dependents, ids: Names, done: set<string>,
                               notices: map<string, Notice>)
  {
    && (forall n :: n in notices <==> n in v.notices || exists b <- done :: NeedsNotice(v, out, b) && n == ids.notice(b))
    && (forall n <- v.notices :: notices[n] == v.notices[n])
    && (forall b <- done :: NeedsNotice(v, out, b) ==> IsNotice(notices[ids.notice(b)], deps, b))
  }

  ghost predicate IsNotice(n: Notice, deps: Dependents, b: string) {
    n.belief == b && n.active && IsDescendants(deps, b, n.descendants)
  }

  ghost predicate IsDescendants(deps: Dependents, b: string, ds: seq<string>) {
    Sorted(ds, Less) && forall x :: x in ds <==> Reaches(deps, b, x)
  }

  lemma ReachedInside(deps: Dependents, b: string, beliefs: set<string>, x: string)
    requires forall a <- deps :: deps[a] <= beliefs
    requires Reaches(deps, b, x)
    ensures x in beliefs
  {
    var p :| Walk(deps, p) && p[0] == b && p[|p| - 1] == x;
    assert p[|p| - 1] in Of(deps, p[|p| - 2]);
  }

  // The drafts for one belief, and what they do to any state that agrees with `v` about it.
  method OneBelief(v: View, out: Outcome, deps: Dependents, ids: Names, b: string, ghost w: View)
    returns (drafts: seq<Draft>)
    requires OutcomeOk(v, out) && b in v.beliefs && (forall a <- deps :: deps[a] <= v.beliefs.Keys)
    requires w.beliefs.Keys == v.beliefs.Keys && w.beliefs[b] == v.beliefs[b] && ids.notice(b) !in w.notices
    ensures ApplyAll(w, drafts).Some?
    ensures var x := ApplyAll(w, drafts).value;
      && x == w.(beliefs := w.beliefs[b := v.beliefs[b].(status := out.statuses[b])], notices := x.notices)
      && (!NeedsNotice(v, out, b) ==> x.notices == w.notices)
      && (NeedsNotice(v, out, b) ==>
            ids.notice(b) in x.notices
            && x.notices == w.notices[ids.notice(b) := x.notices[ids.notice(b)]]
            && IsNotice(x.notices[ids.notice(b)], deps, b))
    ensures drafts == [] <==> v.beliefs[b].status == out.statuses[b]
  {
    if v.beliefs[b].status == out.statuses[b] {
      assert w.beliefs == w.beliefs[b := v.beliefs[b].(status := out.statuses[b])];
      return [];
    }
    ApplySnoc(w, [], StatusChanged(b, out.statuses[b]));
    drafts := [StatusChanged(b, out.statuses[b])];
    assert [] + drafts == drafts;
    if LeavesIn(v, out, b) && b in v.rendered && !HasNotice(v, b) {
      var ds := DescendantIds(b, deps);
      forall x | x in ds ensures x in v.beliefs { ReachedInside(deps, b, v.beliefs.Keys, x); }
      ApplySnoc(w, drafts, RetractionCreated(ids.notice(b), b, ds));
      drafts := drafts + [RetractionCreated(ids.notice(b), b, ds)];
    }
  }

  // `u` is the state in which the drafts will be applied: the edges may have moved.
  lemma NewStatusesStep(v: View, out: Outcome, done: set<string>, b: string)
    requires b in v.beliefs && b in out.statuses
    ensures NewStatuses(v, out, done + {b}) == NewStatuses(v, out, done)[b := v.beliefs[b].(status := out.statuses[b])]
    ensures NewStatuses(v, out, done).Keys == v.beliefs.Keys
    ensures b !in done ==> NewStatuses(v, out, done)[b] == v.beliefs[b]
  {
  }

  lemma NoNewStatuses(v: View, out: Outcome)
    ensures NewStatuses(v, out, {}) == v.beliefs
  {
  }

  lemma NewlyDefeatedStep(v: View, out: Outcome, done: set<string>, b: string)
    requires b in v.beliefs && b in out.statuses
    ensures NewlyDefeated(v, out) * (done + {b}) ==
            NewlyDefeated(v, out) * done
            + if v.beliefs[b].status == IN && out.statuses[b] == OUT && !SampledDefeated(v.deltas, b) then {b} else {}
    ensures NewlyDefeated(v, out) <= v.beliefs.Keys
  {
  }

  method BeliefTransitionDrafts(v: View, out: Outcome, deps: Dependents, ids: Names, ghost u: View)
    returns (drafts: seq<Draft>, defeated: set<string>)
    requires OutcomeOk(v, out) && Fresh(v, ids) && (forall a <- deps :: deps[a] <= v.beliefs.Keys)
    requires u.beliefs == v.beliefs && u.notices == v.notices
    ensures defeated == NewlyDefeated(v, out)
    ensures ApplyAll(u, drafts).Some?
    ensures var w := ApplyAll(u, drafts).value;
      && w == u.(beliefs := NewStatuses(v, out, v.beliefs.Keys), notices := w.notices)
      && NoticesAfter(v, out, deps, ids, v.beliefs.Keys, w.notices)
    ensures drafts == [] <==> forall b <- v.beliefs :: v.beliefs[b].status == out.statuses[b]
  {
    hide Apply, IsNotice, ApplyAll, Sorted, Less, Members, NewStatuses, NewlyDefeated, NeedsNotice, NoticesAfter, SampledDefeated, Fresh;
    var rows := SortStrings(out.statuses.Keys);
    drafts, defeated := [], {};
    ghost var done: set<string> := {};
    ghost var w := u;
    NoNewStatuses(v, out);
    NothingApplied(u);
    NoMembers(rows);
    NoNotices(v, out, deps, ids);
    for i := 0 to |rows|
      invariant done == Members(rows[..i]) && done <= v.beliefs.Keys
      invariant defeated == NewlyDefeated(v, out) * done
      invariant ApplyAll(u, drafts) == Some(w)
      invariant w == u.(beliefs := NewStatuses(v, out, done), notices := w.notices)
      invariant NoticesAfter(v, out, deps, ids, done, w.notices)
      invariant drafts == [] <==> forall b <- done :: v.beliefs[b].status == out.statuses[b]
    {
      var b := rows[i];
      MembersStep(rows, i);
      NoticeIsFree(v, out, deps, ids, done, w.notices, b);
      NewStatusesStep(v, out, done, b);
      NewlyDefeatedStep(v, out, done, b);
      var more := OneBelief(v, out, deps, ids, b, w);
      ApplyAllConcat(u, drafts, more);
      drafts := drafts + more;
      if v.beliefs[b].status == IN && out.statuses[b] == OUT && !SampledDefeated(v.deltas, b) {
        defeated := defeated + {b};
      }
      ghost var x := ApplyAll(w, more).value;
      NoticesStep(v, out, deps, ids, done, b, w.notices, x.notices);
      done, w := done + {b}, x;
    }
    AllMembers(rows, v.beliefs.Keys);
    assert done == v.beliefs.Keys;
    NewlyDefeatedInside(v, out);
  }

  lemma NewlyDefeatedInside(v: View, out: Outcome)
    ensures NewlyDefeated(v, out) * v.beliefs.Keys == NewlyDefeated(v, out)
  {
  }

  lemma NoNotices(v: View, out: Outcome, deps: Dependents, ids: Names)
    ensures NoticesAfter(v, out, deps, ids, {}, v.notices)
  {
  }

  lemma NoticeIsFree(v: View, out: Outcome, deps: Dependents, ids: Names, done: set<string>,
                     notices: map<string, Notice>, b: string)
    requires Fresh(v, ids) && b !in done && NoticesAfter(v, out, deps, ids, done, notices)
    ensures ids.notice(b) !in notices
  {
  }

  lemma NoticesStep(v: View, out: Outcome, deps: Dependents, ids: Names, done: set<string>, b: string,
                    before: map<string, Notice>, after: map<string, Notice>)
    requires Fresh(v, ids) && b !in done && NoticesAfter(v, out, deps, ids, done, before)
    requires NeedsNotice(v, out, b) ==>
               && ids.notice(b) in after && after == before[ids.notice(b) := after[ids.notice(b)]]
               && IsNotice(after[ids.notice(b)], deps, b)
    requires !NeedsNotice(v, out, b) ==> after == before
    ensures NoticesAfter(v, out, deps, ids, done + {b}, after)
  {
  }

  /******* _conflict_transition_drafts *******/

  // UNIQUE(episode_id, belief_id, method, state), for every row.
  ghost predicate TasksOk(v: View) {
    forall t <- v.tasks, u <- v.tasks :: v.tasks[t] == v.tasks[u] ==> t == u
  }

  predicate NeedsTask(v: View, b: string) {
    forall t <- v.tasks :: v.tasks[t] != Task(b, CROSS_SOURCE, true)
  }

  // `w` is `u` with the pairs `done` opened, each on the one open cross-source task of its first
  // belief, and a task made only where `v` has none.
  ghost predicate Opened(v: View, ids: Names, done: set<(string, string)>, u: View, w: View) {
    && w == u.(tasks := w.tasks, conflicts := w.conflicts)
    && TasksOpened(v, ids, done, w.tasks)
    && ConflictsOpened(v, ids, done, w.tasks, w.conflicts)
  }

  ghost predicate TasksOpened(v: View, ids: Names, done: set<(string, string)>, tasks: map<string, Task>) {
    && (forall t :: t in tasks <==> t in v.tasks || exists p <- done :: NeedsTask(v, p.0) && t == ids.task(p.0))
    && (forall t <- v.tasks :: tasks[t] == v.tasks[t])
    && (forall p <- done :: NeedsTask(v, p.0) ==> tasks[ids.task(p.0)] == Task(p.0, CROSS_SOURCE, true))
  }

  ghost predicate ConflictsOpened(v: View, ids: Names, done: set<(string, string)>, tasks: map<string, Task>,
                                  conflicts: map<string, Conflict>)
  {
    && (forall c :: c in conflicts <==> c in v.conflicts || exists p <- done :: c == ids.conflict(p))
    && (forall c <- v.conflicts :: conflicts[c] == v.conflicts[c])
    && (forall p <- done :: OpenedOn(tasks, conflicts[ids.conflict(p)], p))
  }

  predicate OpenedOn(tasks: map<string, Task>, c: Conflict, p: (string, string)) {
    Pair(c) == p && c.open && c.task in tasks && tasks[c.task] == Task(p.0, CROSS_SOURCE, true)
  }

  // (belief id, method) -> open task, and ordered pair -> open conflict.
  function OpenTasks(v: View): (m: map<(string, string), string>)
    requires TasksOk(v)
  {
    map t | t in v.tasks && v.tasks[t].open :: (v.tasks[t].belief, v.tasks[t].method_) := t
  }

  function ExistingConflicts(v: View): (m: map<(string, string), string>)
    requires ConflictsOk(v)
  {
    map c | c in v.conflicts && v.conflicts[c].open :: OrderedPair(v.conflicts[c].left, v.conflicts[c].right) := c
  }

  // What the dictionary of open tasks knows about the task table.
  ghost predicate Indexes(index: map<(string, string), string>, tasks: map<string, Task>) {
    && (forall k <- index :: index[k] in tasks && tasks[index[k]] == Task(k.0, k.1, true))
    && (forall t <- tasks :: tasks[t].open ==> (tasks[t].belief, tasks[t].method_) in index)
  }

  lemma OpenTasksIndexes(v: View)
    requires TasksOk(v)
    ensures Indexes(OpenTasks(v), v.tasks)
  {
  }

  ghost predicate SameTables(u: View, v: View) {
    u.beliefs.Keys == v.beliefs.Keys && u.tasks == v.tasks && u.conflicts == v.conflicts
  }

  // The task a new pair is put on: an open one, or a new one.
  method TaskFor(v: View, ids: Names, p: (string, string), index: map<(string, string), string>,
                 ghost done: set<(string, string)>, ghost w: View)
    returns (drafts: seq<Draft>, task: string, index': map<(string, string), string>, ghost x: View)
    requires Fresh(v, ids) && p.0 in w.beliefs && TasksOpened(v, ids, done, w.tasks) && Indexes(index, w.tasks)
    ensures ApplyAll(w, drafts) == Some(x) && x == w.(tasks := x.tasks)
    ensures TasksOpened(v, ids, done + {p}, x.tasks) && Indexes(index', x.tasks)
    ensures task in x.tasks && x.tasks[task] == Task(p.0, CROSS_SOURCE, true)
    ensures forall t <- w.tasks :: t in x.tasks && x.tasks[t] == w.tasks[t]
  {
    hide TasksOpened, Fresh, ApplyAll, Indexes, Apply;
    NothingApplied(w);
    drafts, index', x := [], index, w;
    if (p.0, CROSS_SOURCE) in index {
      task := index[(p.0, CROSS_SOURCE)];
      IndexedTask(index, w.tasks, p.0);
    } else {
      task := ids.task(p.0);
      TaskIsFree(v, ids, p, index, done, w.tasks);
      index' := index[(p.0, CROSS_SOURCE) := task];
      drafts := [TaskCreated(task, p.0)];
      NewTask(w, task, p.0, index);
      x := w.(tasks := w.tasks[task := Task(p.0, CROSS_SOURCE, true)]);
    }
    TasksStep(v, ids, p, index, done, w.tasks, x.tasks);
  }

  lemma IndexedTask(index: map<(string, string), string>, tasks: map<string, Task>, b: string)
    requires Indexes(index, tasks) && (b, CROSS_SOURCE) in index
    ensures index[(b, CROSS_SOURCE)] in tasks && tasks[index[(b, CROSS_SOURCE)]] == Task(b, CROSS_SOURCE, true)
  {
  }

  lemma NewTask(w: View, task: string, b: string, index: map<(string, string), string>)
    requires b in w.beliefs && task !in w.tasks && Indexes(index, w.tasks)
    requires forall t <- w.tasks :: w.tasks[t] != Task(b, CROSS_SOURCE, true)
    ensures var tasks := w.tasks[task := Task(b, CROSS_SOURCE, true)];
      && ApplyAll(w, [TaskCreated(task, b)]) == Some(w.(tasks := tasks))
      && Indexes(index[(b, CROSS_SOURCE) := task], tasks)
  {
    ApplySnoc(w, [], TaskCreated(task, b));
    assert [] + [TaskCreated(task, b)] == [TaskCreated(task, b)];
  }

  lemma TaskIsFree(v: View, ids: Names, p: (string, string), index: map<(string, string), string>,
                   done: set<(string, string)>, tasks: map<string, Task>)
    requires Fresh(v, ids) && TasksOpened(v, ids, done, tasks) && Indexes(index, tasks) && (p.0, CROSS_SOURCE) !in index
    ensures ids.task(p.0) !in tasks && (forall t <- tasks :: tasks[t] != Task(p.0, CROSS_SOURCE, true))
  {
    forall t <- tasks ensures tasks[t] != Task(p.0, CROSS_SOURCE, true) {
      assert tasks[t].open ==> (tasks[t].belief, tasks[t].method_) in index;
    }
    forall q <- done | NeedsTask(v, q.0) ensures ids.task(q.0) != ids.task(p.0) {
      assert tasks[ids.task(q.0)] == Task(q.0, CROSS_SOURCE, true);
    }
  }

  lemma TasksStep(v: View, ids: Names, p: (string, string), index: map<(string, string), string>,
                  done: set<(string, string)>, before: map<string, Task>, after: map<string, Task>)
    requires Fresh(v, ids) && TasksOpened(v, ids, done, before) && Indexes(index, before)
    requires (p.0, CROSS_SOURCE) in index ==> after == before
    requires (p.0, CROSS_SOURCE) !in index ==> after == before[ids.task(p.0) := Task(p.0, CROSS_SOURCE, true)]
    ensures TasksOpened(v, ids, done + {p}, after)
  {
    if (p.0, CROSS_SOURCE) in index {
      var t := index[(p.0, CROSS_SOURCE)];
      if NeedsTask(v, p.0) {
        assert t !in v.tasks;
        var q :| q in done && NeedsTask(v, q.0) && t == ids.task(q.0);
        assert q.0 == p.0;
      }
    } else {
      TaskIsFree(v, ids, p, index, done, before);
      assert NeedsTask(v, p.0);
    }
  }

  method OpenOne(v: View, ids: Names, p: (string, string), index: map<(string, string), string>,
                 ghost done: set<(string, string)>, ghost u: View, ghost w: View)
    returns (drafts: seq<Draft>, index': map<(string, string), string>, ghost x: View)
    requires Fresh(v, ids) && SameTables(u, v) && Opened(v, ids, done, u, w) && Indexes(index, w.tasks)
    requires p.0 in v.beliefs && p.1 in v.beliefs && p !in done && p !in OpenPairs(v)
    ensures drafts != []
    ensures ApplyAll(w, drafts) == Some(x) && Opened(v, ids, done + {p}, u, x) && Indexes(index', x.tasks)
  {
    hide TasksOpened, ConflictsOpened, Indexes, OpenPairs, Fresh, ApplyAll;
    var task;
    ghost var y;
    drafts, task, index', y := TaskFor(v, ids, p, index, done, w);
    ConflictIsFree(v, ids, p, done, w);
    ApplySnoc(w, drafts, ConflictOpened(ids.conflict(p), p.0, p.1, task));
    drafts := drafts + [ConflictOpened(ids.conflict(p), p.0, p.1, task)];
    x := y.(conflicts := y.conflicts[ids.conflict(p) := Conflict(p.0, p.1, task, true)]);
    ConflictsStep(v, ids, p, task, done, w.tasks, x.tasks, w.conflicts, x.conflicts);
  }

  lemma ConflictIsFree(v: View, ids: Names, p: (string, string), done: set<(string, string)>, w: View)
    requires Fresh(v, ids) && ConflictsOpened(v, ids, done, w.tasks, w.conflicts)
    requires p !in done && p !in OpenPairs(v)
    ensures ids.conflict(p) !in w.conflicts && ConflictUnique(w, ids.conflict(p), p.0, p.1, true)
  {
    forall k <- v.conflicts ensures !(Pair(w.conflicts[k]) == p && w.conflicts[k].open) {
      assert v.conflicts[k].open ==> Pair(v.conflicts[k]) in OpenPairs(v);
    }
    forall q <- done ensures Pair(w.conflicts[ids.conflict(q)]) != p {
      assert OpenedOn(w.tasks, w.conflicts[ids.conflict(q)], q);
    }
  }

  lemma ConflictsStep(v: View, ids: Names, p: (string, string), task: string, done: set<(string, string)>,
                      tasks: map<string, Task>, tasks': map<string, Task>,
                      before: map<string, Conflict>, after: map<string, Conflict>)
    requires Fresh(v, ids) && p !in done && ConflictsOpened(v, ids, done, tasks, before)
    requires forall t <- tasks :: t in tasks' && tasks'[t] == tasks[t]
    requires task in tasks' && tasks'[task] == Task(p.0, CROSS_SOURCE, true)
    requires after == before[ids.conflict(p) := Conflict(p.0, p.1, task, true)]
    ensures ConflictsOpened(v, ids, done + {p}, tasks', after)
  {
  }

  lemma ExistingAreOpenPairs(v: View)
    requires ConflictsOk(v)
    ensures ExistingConflicts(v).Keys == OpenPairs(v)
    ensures forall p <- OpenPairs(v) ::
      var c := ExistingConflicts(v)[p]; c in v.conflicts && v.conflicts[c].open && Pair(v.conflicts[c]) == p
  {
    hide Less;
    forall c <- v.conflicts | v.conflicts[c].open
      ensures OrderedPair(v.conflicts[c].left, v.conflicts[c].right) == Pair(v.conflicts[c])
      ensures ExistingConflicts(v)[Pair(v.conflicts[c])] == c
    {
    }
  }

  predicate Resolvable(v: View, c: string)
    requires c in v.conflicts
  {
    ConflictUnique(v, c, v.conflicts[c].left, v.conflicts[c].right, false)
  }

  // The conflicts after the pairs `done`, open in `v`, were resolved.
  function Resolved(v: View, done: set<(string, string)>, conflicts: map<string, Conflict>): map<string, Conflict> {
    map c | c in conflicts ::
      if c in v.conflicts && v.conflicts[c].open && Pair(v.conflicts[c]) in done
      then conflicts[c].(open := false) else conflicts[c]
  }

  lemma NoneResolved(v: View, conflicts: map<string, Conflict>)
    ensures Resolved(v, {}, conflicts) == conflicts
  {
  }

  lemma ResolvableStays(v: View, ids: Names, made: set<(string, string)>, tasks: map<string, Task>,
                        conflicts: map<string, Conflict>, done: set<(string, string)>, c: string, u: View)
    requires ConflictsOpened(v, ids, made, tasks, conflicts)
    requires c in v.conflicts && v.conflicts[c].open && Pair(v.conflicts[c]) !in done
    requires u.conflicts == Resolved(v, done, conflicts)
    ensures c in u.conflicts && u.conflicts[c] == v.conflicts[c]
    ensures Resolvable(v, c) <==> Resolvable(u, c)
  {
    forall k <- v.conflicts
      ensures Pair(v.conflicts[k]) == Pair(v.conflicts[c]) ==> u.conflicts[k].open == v.conflicts[k].open
    {
    }
    forall k <- u.conflicts | k !in v.conflicts ensures u.conflicts[k].open {
      var q :| q in made && k == ids.conflict(q);
      assert OpenedOn(tasks, conflicts[ids.conflict(q)], q);
    }
  }

  lemma ResolvedStep(v: View, done: set<(string, string)>, c: string, conflicts: map<string, Conflict>)
    requires ConflictsOk(v) && c in conflicts && c in v.conflicts && v.conflicts[c].open
    ensures Resolved(v, done + {Pair(v.conflicts[c])}, conflicts) ==
            Resolved(v, done, conflicts)[c := conflicts[c].(open := false)]
  {
    hide Less;
    forall k <- v.conflicts | v.conflicts[k].open && Pair(v.conflicts[k]) == Pair(v.conflicts[c]) ensures k == c {
      assert SameState(v.conflicts[k], v.conflicts[c]);
    }
  }

  lemma ResolveStep(v: View, ids: Names, made: set<(string, string)>, u: View, w: View, done: set<(string, string)>,
                    c: string)
    requires ConflictsOk(v) && ConflictsOpened(v, ids, made, w.tasks, w.conflicts)
    requires c in v.conflicts && v.conflicts[c].open && Pair(v.conflicts[c]) !in done
    requires u == w.(conflicts := Resolved(v, done, w.conflicts))
    ensures Apply(u, ConflictResolved(c)) ==
            if Resolvable(v, c) then Some(w.(conflicts := Resolved(v, done + {Pair(v.conflicts[c])}, w.conflicts))) else None
  {
    hide ConflictUnique, Resolved, ConflictsOk;
    ResolvableStays(v, ids, made, w.tasks, w.conflicts, done, c, u);
    ResolvedStep(v, done, c, w.conflicts);
  }

  lemma NothingOpened(v: View, ids: Names, u: View)
    requires SameTables(u, v)
    ensures Opened(v, ids, {}, u, u)
  {
  }

  // Opens the pairs that are new.
  method OpenDrafts(v: View, out: Outcome, ids: Names, ghost u: View) returns (drafts: seq<Draft>, ghost w: View)
    requires OutcomeOk(v, out) && Fresh(v, ids) && ConflictsOk(v) && TasksOk(v) && SameTables(u, v)
    ensures ApplyAll(u, drafts) == Some(w) && Opened(v, ids, out.conflicts - OpenPairs(v), u, w)
    ensures drafts == [] <==> out.conflicts <= OpenPairs(v)
  {
    hide Apply, ApplyAll, Fresh, Less, Sorted, PairLess, Members, Opened, Indexes, OpenPairs, OpenTasks, ExistingConflicts,
      ConflictsOk, TasksOk;
    var existing := ExistingConflicts(v);
    ExistingAreOpenPairs(v);
    var rows := SortPairs(out.conflicts - existing.Keys);
    var index := OpenTasks(v);
    OpenTasksIndexes(v);
    drafts, w := [], u;
    NothingApplied(u);
    NothingOpened(v, ids, u);
    NoMembers(rows);
    ghost var done: set<(string, string)> := {};
    for i := 0 to |rows|
      invariant done == Members(rows[..i])
      invariant ApplyAll(u, drafts) == Some(w) && Opened(v, ids, done, u, w) && Indexes(index, w.tasks)
      invariant drafts == [] <==> i == 0
    {
      MembersStep(rows, i);
      var more;
      ghost var x;
      more, index, x := OpenOne(v, ids, rows[i], index, done, u, w);
      ApplyAllConcat(u, drafts, more);
      drafts, done, w := drafts + more, done + {rows[i]}, x;
    }
    AllMembers(rows, out.conflicts - OpenPairs(v));
    EmptyListing(rows, out.conflicts, OpenPairs(v));
  }

  lemma EmptyListing<T>(rows: seq<T>, a: set<T>, b: set<T>)
    requires forall x :: x in rows <==> x in a - b
    ensures rows == [] <==> a <= b
  {
    if x :| x in a && x !in b {
      assert x in rows;
    }
    if rows != [] {
      assert rows[0] in a - b;
    }
  }

  ghost predicate AllResolvable(v: View, pairs: set<(string, string)>) {
    forall c <- v.conflicts :: v.conflicts[c].open && Pair(v.conflicts[c]) in pairs ==> Resolvable(v, c)
  }

  lemma AllResolvableStep(v: View, done: set<(string, string)>, c: string)
    requires ConflictsOk(v) && c in v.conflicts && v.conflicts[c].open
    ensures AllResolvable(v, done + {Pair(v.conflicts[c])}) <==> AllResolvable(v, done) && Resolvable(v, c)
  {
    hide Less, ConflictUnique;
    forall k <- v.conflicts | v.conflicts[k].open && Pair(v.conflicts[k]) == Pair(v.conflicts[c]) ensures k == c {
      assert SameState(v.conflicts[k], v.conflicts[c]);
    }
  }

  // Resolves the open pairs the outcome no longer has; the batch aborts exactly when one of them
  // was resolved before.
  method ResolveDrafts(v: View, out: Outcome, ids: Names, ghost made: set<(string, string)>, ghost w: View)
    returns (drafts: seq<Draft>)
    requires ConflictsOk(v) && ConflictsOpened(v, ids, made, w.tasks, w.conflicts)
    ensures ApplyAll(w, drafts) ==
            if CanResolve(v, out) then Some(w.(conflicts := Resolved(v, OpenPairs(v) - out.conflicts, w.conflicts))) else None
    ensures drafts == [] <==> OpenPairs(v) <= out.conflicts
  {
    hide Apply, ApplyAll, Less, Sorted, PairLess, Members, OpenPairs, ExistingConflicts, ConflictsOk, ConflictsOpened,
      Resolved, AllResolvable, Resolvable, CanResolve;
    var existing := ExistingConflicts(v);
    ExistingAreOpenPairs(v);
    var rows := SortPairs(existing.Keys - out.conflicts);
    drafts := [];
    NothingApplied(w);
    NoneResolved(v, w.conflicts);
    NoMembers(rows);
    NoneToResolve(v);
    ghost var done: set<(string, string)> := {};
    for i := 0 to |rows|
      invariant done == Members(rows[..i])
      invariant ApplyAll(w, drafts) ==
                if AllResolvable(v, done) then Some(w.(conflicts := Resolved(v, done, w.conflicts))) else None
      invariant drafts == [] <==> i == 0
    {
      MembersStep(rows, i);
      var c := existing[rows[i]];
      AllResolvableStep(v, done, c);
      ResolveStep(v, ids, made, w.(conflicts := Resolved(v, done, w.conflicts)), w, done, c);
      ApplySnoc(w, drafts, ConflictResolved(c));
      drafts, done := drafts + [ConflictResolved(c)], done + {rows[i]};
    }
    AllMembers(rows, OpenPairs(v) - out.conflicts);
    EmptyListing(rows, OpenPairs(v), out.conflicts);
    ResolvableIffCanResolve(v, out);
  }

  lemma NoneToResolve(v: View)
    ensures AllResolvable(v, {})
  {
  }

  lemma ResolvableIffCanResolve(v: View, out: Outcome)
    ensures AllResolvable(v, OpenPairs(v) - out.conflicts) <==> CanResolve(v, out)
  {
    hide ConflictUnique;
    forall c <- v.conflicts | v.conflicts[c].open ensures Pair(v.conflicts[c]) in OpenPairs(v) {}
  }

  method ConflictTransitionDrafts(v: View, out: Outcome, ids: Names, ghost u: View)
    returns (drafts: seq<Draft>, ghost w: View)
    requires OutcomeOk(v, out) && Fresh(v, ids) && ConflictsOk(v) && TasksOk(v) && SameTables(u, v)
    ensures Opened(v, ids, out.conflicts - OpenPairs(v), u, w)
    ensures ApplyAll(u, drafts) ==
            if CanResolve(v, out) then Some(w.(conflicts := Resolved(v, OpenPairs(v) - out.conflicts, w.conflicts))) else None
    ensures drafts == [] <==> OpenPairs(v) == out.conflicts
  {
    hide ApplyAll, Resolved, OpenPairs, CanResolve, ConflictsOpened;
    drafts, w := OpenDrafts(v, out, ids, u);
    var more := ResolveDrafts(v, out, ids, out.conflicts - OpenPairs(v), w);
    ApplyAllConcat(u, drafts, more);
    drafts := drafts + more;
  }

  // The open pairs afterwards are those of the outcome.
  lemma OpenPairsMatch(v: View, out: Outcome, ids: Names, u: View, w: View)
    requires Opened(v, ids, out.conflicts - OpenPairs(v), u, w)
    ensures OpenPairs(w.(conflicts := Resolved(v, OpenPairs(v) - out.conflicts, w.conflicts))) == out.conflicts
  {
    var after := w.(conflicts := Resolved(v, OpenPairs(v) - out.conflicts, w.conflicts));
    forall k <- v.conflicts | v.conflicts[k].open ensures Pair(w.conflicts[k]) in OpenPairs(v) {
      assert Pair(v.conflicts[k]) in OpenPairs(v);
    }
    forall p | p in OpenPairs(after) ensures p in out.conflicts {
      var c :| c in after.conflicts && after.conflicts[c].open && Pair(after.conflicts[c]) == p;
      if c in v.conflicts {
        assert w.conflicts[c] == v.conflicts[c];
        assert Pair(v.conflicts[c]) in OpenPairs(v);
      } else {
        var q :| q in out.conflicts - OpenPairs(v) && c == ids.conflict(q);
        assert OpenedOn(w.tasks, w.conflicts[ids.conflict(q)], q);
      }
    }
    forall p <- out.conflicts ensures p in OpenPairs(after) {
      if p in OpenPairs(v) {
        var c :| c in v.conflicts && v.conflicts[c].open && Pair(v.conflicts[c]) == p;
        assert w.conflicts[c] == v.conflicts[c] && after.conflicts[c] == v.conflicts[c];
      } else {
        var c := ids.conflict(p);
        assert OpenedOn(w.tasks, w.conflicts[c], p);
        assert after.conflicts[c].open && Pair(after.conflicts[c]) == p;
      }
    }
  }

  /******* _relabel_summary_drafts *******/

  // Every belief has its source in the episode: admission checks it.
  ghost predicate SourcesOk(v: View) {
    forall b <- v.beliefs :: v.beliefs[b].source in v.sources
  }

  function DefeatDelta(v: View, b: string): Delta
    requires b in v.beliefs
  {
    Delta(v.beliefs[b].source, b, 0, 1, 1)
  }

  function LearnAll(sources: map<string, Stats>, ds: seq<Delta>): (r: map<string, Stats>)
    ensures r.Keys == sources.Keys
  {
    if ds == [] then sources
    else
      var m := LearnAll(sources, ds[..|ds| - 1]);
      var d := ds[|ds| - 1];
      if d.source in m then m[d.source := Learn(m[d.source], d)] else m
  }

  // `ds` reports each of the beliefs once, against its own source.
  ghost predicate Reports(v: View, ds: seq<Delta>, defeated: set<string>) {
    && (forall i | 0 <= i < |ds| :: ds[i].belief in defeated && ds[i].belief in v.beliefs && ds[i] == DefeatDelta(v, ds[i].belief))
    && (forall i, j | 0 <= i < j < |ds| :: ds[i].belief != ds[j].belief)
    && (forall b <- defeated :: exists i | 0 <= i < |ds| :: ds[i].belief == b)
  }

  lemma ReportsStep(v: View, ds: seq<Delta>, done: set<string>, b: string)
    requires Reports(v, ds, done) && b in v.beliefs && b !in done
    ensures Reports(v, ds + [DefeatDelta(v, b)], done + {b})
  {
    var es := ds + [DefeatDelta(v, b)];
    forall x <- done + {b} ensures exists i | 0 <= i < |es| :: es[i].belief == x {
      if x in done {
        var i :| 0 <= i < |ds| && ds[i].belief == x;
        assert es[i].belief == x;
      } else {
        assert es[|ds|].belief == x;
      }
    }
  }

  function Learning(u: View, ds: seq<Delta>): View {
    u.(sources := LearnAll(u.sources, ds), deltas := u.deltas + ds)
  }

  lemma LearningStep(u: View, ds: seq<Delta>, d: Delta)
    requires d.source in u.sources
    ensures Apply(Learning(u, ds), StatsDelta(d)) == Some(Learning(u, ds + [d]))
  {
    assert (ds + [d])[..|ds + [d]| - 1] == ds;
    assert u.deltas + ds + [d] == u.deltas + (ds + [d]);
  }

  lemma NothingLearnt(v: View, u: View)
    ensures Learning(u, []) == u && Reports(v, [], {})
  {
    assert u.deltas + [] == u.deltas;
  }

  method RelabelSummaryDrafts(v: View, defeated: set<string>, oscillation: bool, ghost u: View)
    returns (drafts: seq<Draft>, ghost ds: seq<Delta>)
    requires SourcesOk(v) && defeated <= v.beliefs.Keys && u.sources == v.sources
    ensures Reports(v, ds, defeated)
    ensures ApplyAll(u, drafts) == Some(Learning(u, ds))
    ensures defeated == {} ==> drafts == if oscillation then [DefeatCycle] else []
    ensures drafts == [] <==> defeated == {} && !oscillation
  {
    hide ApplyAll, Sorted, Less, Members, Reports, Learning;
    var sources := SortStrings(set b | b in defeated :: v.beliefs[b].source);
    drafts, ds := [], [];
    ghost var done: set<string> := {};
    NothingApplied(u);
    NothingLearnt(v, u);
    for i := 0 to |sources|
      invariant done == (set b | b in defeated && v.beliefs[b].source in sources[..i])
      invariant Reports(v, ds, done) && ApplyAll(u, drafts) == Some(Learning(u, ds))
      invariant drafts == [] <==> done == {}
    {
      var mine := set b | b in defeated && v.beliefs[b].source == sources[i];
      BySource(v, defeated, sources, i);
      drafts, ds, done := OneSource(v, mine, u, drafts, ds, done);
    }
    AllSources(v, defeated, sources);
    if oscillation {
      ApplySnoc(u, drafts, DefeatCycle);
      drafts := drafts + [DefeatCycle];
    }
  }

  lemma BySource(v: View, defeated: set<string>, sources: seq<string>, i: nat)
    requires i < |sources| && defeated <= v.beliefs.Keys
    requires forall j, k | 0 <= j < k < |sources| :: sources[j] != sources[k]
    ensures var done := set b | b in defeated && v.beliefs[b].source in sources[..i];
            var mine := set b | b in defeated && v.beliefs[b].source == sources[i];
      && mine !! done
      && done + mine == (set b | b in defeated && v.beliefs[b].source in sources[..i + 1])
  {
    assert sources[..i + 1] == sources[..i] + [sources[i]];
  }

  lemma AllSources(v: View, defeated: set<string>, sources: seq<string>)
    requires defeated <= v.beliefs.Keys
    requires forall s :: s in sources <==> exists b <- defeated :: v.beliefs[b].source == s
    ensures defeated == set b | b in defeated && v.beliefs[b].source in sources[..|sources|]
  {
    assert sources[..|sources|] == sources;
  }

  // The reports on the beliefs of one source.
  method OneSource(v: View, mine: set<string>, ghost u: View, drafts: seq<Draft>, ghost ds: seq<Delta>,
                   ghost done: set<string>)
    returns (drafts': seq<Draft>, ghost ds': seq<Delta>, ghost done': set<string>)
    requires SourcesOk(v) && mine <= v.beliefs.Keys && mine !! done && u.sources == v.sources
    requires Reports(v, ds, done) && ApplyAll(u, drafts) == Some(Learning(u, ds))
    ensures done' == done + mine
    ensures Reports(v, ds', done') && ApplyAll(u, drafts') == Some(Learning(u, ds'))
    ensures drafts' == [] <==> drafts == [] && mine == {}
  {
    hide ApplyAll, Sorted, Less, Members, Reports, Learning;
    var rows := SortStrings(mine);
    drafts', ds', done' := drafts, ds, done;
    NoMembers(rows);
    for i := 0 to |rows|
      invariant done' == done + Members(rows[..i]) && Members(rows[..i]) <= mine
      invariant Reports(v, ds', done') && ApplyAll(u, drafts') == Some(Learning(u, ds'))
      invariant drafts' == [] <==> drafts == [] && i == 0
    {
      var b := rows[i];
      MembersStep(rows, i);
      assert b in mine;
      ReportsStep(v, ds', done', b);
      LearningStep(u, ds', DefeatDelta(v, b));
      ApplySnoc(u, drafts', StatsDelta(DefeatDelta(v, b)));
      drafts', ds', done' := drafts' + [StatsDelta(DefeatDelta(v, b))], ds' + [DefeatDelta(v, b)], done' + {b};
    }
    AllMembers(rows, mine);
    assert mine - {} == mine;
    EmptyListing(rows, mine, {});
  }

  /******* relabel *******/

  // What an accepted batch leaves behind, table by table.
  ghost predicate Relabelled(v: View, out: Outcome, deps: Dependents, ids: Names, w: View) {
    && w.edges == NewEdges(v, out, v.edges.Keys)
    && w.beliefs == NewStatuses(v, out, v.beliefs.Keys)
    && w.rendered == v.rendered
    && NoticesAfter(v, out, deps, ids, v.beliefs.Keys, w.notices)
    && TasksOpened(v, ids, out.conflicts - OpenPairs(v), w.tasks)
    && (exists conflicts: map<string, Conflict> ::
          ConflictsOpened(v, ids, out.conflicts - OpenPairs(v), w.tasks, conflicts)
          && w.conflicts == Resolved(v, OpenPairs(v) - out.conflicts, conflicts))
    && (exists ds: seq<Delta> ::
          Reports(v, ds, NewlyDefeated(v, out)) && w.sources == LearnAll(v.sources, ds) && w.deltas == v.deltas + ds)
  }

  lemma Assembled(v: View, out: Outcome, deps: Dependents, ids: Names, a: View, b: View, c: View, d: View,
                  ds: seq<Delta>, w: View)
    requires a == v.(edges := NewEdges(v, out, v.edges.Keys))
    requires b == a.(beliefs := NewStatuses(v, out, v.beliefs.Keys), notices := b.notices)
    requires NoticesAfter(v, out, deps, ids, v.beliefs.Keys, b.notices)
    requires Opened(v, ids, out.conflicts - OpenPairs(v), b, c)
    requires d == c.(conflicts := Resolved(v, OpenPairs(v) - out.conflicts, c.conflicts))
    requires Reports(v, ds, NewlyDefeated(v, out)) && w == Learning(d, ds)
    ensures Relabelled(v, out, deps, ids, w)
  {
    hide NewEdges, NewStatuses, NoticesAfter, OpenPairs, Resolved, Reports, NewlyDefeated, TasksOpened, ConflictsOpened;
  }

  lemma MatchesParts(v: View, out: Outcome)
    requires OutcomeOk(v, out)
    ensures Matches(v, out) <==>
      && (forall e <- v.edges :: v.edges[e] == WantActive(out, e))
      && (forall b <- v.beliefs :: v.beliefs[b].status == out.statuses[b])
      && OpenPairs(v) == out.conflicts
    ensures (forall b <- v.beliefs :: v.beliefs[b].status == out.statuses[b]) ==> NewlyDefeated(v, out) == {}
  {
    hide OpenPairs, WantActive, Less;
  }

  // One pass. With no belief there is nothing to relabel; otherwise the batch is accepted exactly
  // when no pair is resolved twice, and then it leaves the state the outcome describes.
  method Relabel(v: View, out: Outcome, js: seq<Justification>, ids: Names)
    returns (drafts: seq<Draft>, deps: Dependents, ghost w: View)
    requires OutcomeOk(v, out) && Fresh(v, ids) && ConflictsOk(v) && TasksOk(v) && SourcesOk(v)
    requires forall i | 0 <= i < |js| :: js[i].belief in v.beliefs
    ensures forall a, b :: b in Of(deps, a) <==> exists i | 0 <= i < |js| :: a in js[i].premises && js[i].belief == b
    ensures v.beliefs == map[] ==> drafts == []
    ensures v.beliefs != map[] ==>
      && ApplyAll(v, drafts) == (if CanResolve(v, out) then Some(w) else None)
      && Relabelled(v, out, deps, ids, w)
      && (Matches(v, out) ==> drafts == if out.oscillation then [DefeatCycle] else [])
      && (drafts == [] <==> Matches(v, out) && !out.oscillation)
  {
    hide ApplyAll, NewEdges, NewStatuses, NoticesAfter, OpenPairs, Resolved, Reports, NewlyDefeated, TasksOpened,
      ConflictsOpened, Relabelled, CanResolve, ConflictsOk, TasksOk, Matches, Less, Fresh;
    deps := BuildDependents(js);
    w := v;
    if v.beliefs == map[] {
      return [], deps, v;
    }
    forall a <- deps ensures deps[a] <= v.beliefs.Keys {
      forall b <- deps[a] ensures b in v.beliefs { assert b in Of(deps, a); }
    }
    drafts := EdgeActivityDrafts(v, out);
    ghost var a := v.(edges := NewEdges(v, out, v.edges.Keys));
    var status, defeated := BeliefTransitionDrafts(v, out, deps, ids, a);
    ghost var b := ApplyAll(a, status).value;
    NewStatusesKeys(v, out);
    var conflicts;
    ghost var c;
    conflicts, c := ConflictTransitionDrafts(v, out, ids, b);
    ghost var d := c.(conflicts := Resolved(v, OpenPairs(v) - out.conflicts, c.conflicts));
    var summary;
    ghost var ds;
    NewlyDefeatedInside(v, out);
    summary, ds := RelabelSummaryDrafts(v, defeated, out.oscillation, d);
    w := Learning(d, ds);
    Assembled(v, out, deps, ids, a, b, c, d, ds, w);
    MatchesParts(v, out);
    ApplyAllConcat(v, drafts, status);
    ApplyAllConcat(v, drafts + status, conflicts);
    ApplyAllConcat(v, drafts + status + conflicts, summary);
    drafts := drafts + status + conflicts + summary;
  }

  lemma NewStatusesKeys(v: View, out: Outcome)
    ensures NewStatuses(v, out, v.beliefs.Keys).Keys == v.beliefs.Keys
  {
  }

  /******* What a pass promises *******/

  lemma StateMatchesOutcome(v: View, out: Outcome, deps: Dependents, ids: Names, w: View)
    requires OutcomeOk(v, out) && Relabelled(v, out, deps, ids, w)
    ensures Matches(w, out) && OutcomeOk(w, out)
  {
    hide NoticesAfter, ConflictsOpened, TasksOpened, Resolved, Reports, OpenPairs, WantActive, Less;
    var conflicts: map<string, Conflict> :|
      ConflictsOpened(v, ids, out.conflicts - OpenPairs(v), w.tasks, conflicts)
      && w.conflicts == Resolved(v, OpenPairs(v) - out.conflicts, conflicts);
    var x := w.(conflicts := conflicts);
    OpenPairsMatch(v, out, ids, w.(tasks := v.tasks, conflicts := v.conflicts), x);
    assert x.(conflicts := Resolved(v, OpenPairs(v) - out.conflicts, x.conflicts)) == w;
  }

  // At most one active notice per belief; and a belief that was rendered and leaves IN has one,
  // which, when made by this pass, lists exactly what was derived from it.
  lemma NoticesPromise(v: View, out: Outcome, deps: Dependents, ids: Names, w: View)
    requires Fresh(v, ids) && Relabelled(v, out, deps, ids, w)
    ensures OneNoticeEach(v) ==> OneNoticeEach(w)
    ensures forall b <- v.rendered :: LeavesIn(v, out, b) ==> HasNotice(w, b)
    ensures forall n <- w.notices :: n !in v.notices ==>
      var b := w.notices[n].belief; LeavesIn(v, out, b) && b in v.rendered && IsDescendants(deps, b, w.notices[n].descendants)
  {
    hide ConflictsOpened, TasksOpened, Resolved, Reports, OpenPairs, NewEdges, NewStatuses, NewlyDefeated, LearnAll, Sorted, Less;
    forall n <- w.notices | n !in v.notices
      ensures exists b :: NeedsNotice(v, out, b) && n == ids.notice(b) && IsNotice(w.notices[n], deps, b)
    {
    }
    if OneNoticeEach(v) {
      forall m <- w.notices, n <- w.notices
        | w.notices[m].active && w.notices[n].active && w.notices[m].belief == w.notices[n].belief
        ensures m == n
      {
        assert forall k <- v.notices :: v.notices[k].active ==> ActiveNotice(v, k, v.notices[k].belief);
      }
    }
    forall b <- v.rendered | LeavesIn(v, out, b) ensures HasNotice(w, b) {
      if HasNotice(v, b) {
        var n :| n in v.notices && ActiveNotice(v, n, b);
        assert ActiveNotice(w, n, b);
      } else {
        assert NeedsNotice(v, out, b) && b in v.beliefs.Keys;
        assert ActiveNotice(w, ids.notice(b), b);
      }
    }
  }

  // The unique keys of the tables survive an accepted pass.
  lemma TablesStayUnique(v: View, out: Outcome, deps: Dependents, ids: Names, w: View)
    requires OutcomeOk(v, out) && Fresh(v, ids) && Relabelled(v, out, deps, ids, w) && CanResolve(v, out)
    requires ConflictsOk(v) && TasksOk(v) && SourcesOk(v)
    ensures ConflictsOk(w) && TasksOk(w) && SourcesOk(w)
  {
    hide NoticesAfter, ConflictsOpened, TasksOpened, Resolved, Reports, OpenPairs, Less, NewlyDefeated, CanResolve, ConflictsOk, Fresh, NewEdges;
    var conflicts: map<string, Conflict> :|
      ConflictsOpened(v, ids, out.conflicts - OpenPairs(v), w.tasks, conflicts)
      && w.conflicts == Resolved(v, OpenPairs(v) - out.conflicts, conflicts);
    TasksStayUnique(v, ids, out.conflicts - OpenPairs(v), w);
    OpenedStayUnique(v, out, ids, w.tasks, conflicts);
    ResolvedStayUnique(v, out, ids, w.tasks, conflicts, w);
  }

  lemma TasksStayUnique(v: View, ids: Names, made: set<(string, string)>, w: View)
    requires Fresh(v, ids) && TasksOk(v) && TasksOpened(v, ids, made, w.tasks)
    ensures TasksOk(w)
  {
    forall t <- w.tasks | t !in v.tasks
      ensures exists p <- made :: NeedsTask(v, p.0) && t == ids.task(p.0) && w.tasks[t] == Task(p.0, CROSS_SOURCE, true)
    {
    }
  }

  lemma OpenedStayUnique(v: View, out: Outcome, ids: Names, tasks: map<string, Task>, conflicts: map<string, Conflict>)
    requires OutcomeOk(v, out) && Fresh(v, ids) && ConflictsOk(v)
    requires ConflictsOpened(v, ids, out.conflicts - OpenPairs(v), tasks, conflicts)
    ensures ConflictsOk(v.(conflicts := conflicts))
  {
    hide Less;
    forall k <- v.conflicts ensures v.conflicts[k].open ==> Pair(v.conflicts[k]) in OpenPairs(v) {}
    forall k <- conflicts | k !in v.conflicts
      ensures exists p <- out.conflicts - OpenPairs(v) :: k == ids.conflict(p) && Pair(conflicts[k]) == p && conflicts[k].open
    {
      var p :| p in out.conflicts - OpenPairs(v) && k == ids.conflict(p);
      assert OpenedOn(tasks, conflicts[ids.conflict(p)], p);
    }
  }

  lemma ResolvedStayUnique(v: View, out: Outcome, ids: Names, tasks: map<string, Task>, conflicts: map<string, Conflict>,
                           w: View)
    requires ConflictsOk(v) && CanResolve(v, out) && ConflictsOk(v.(conflicts := conflicts))
    requires ConflictsOpened(v, ids, out.conflicts - OpenPairs(v), tasks, conflicts)
    requires w.conflicts == Resolved(v, OpenPairs(v) - out.conflicts, conflicts)
    ensures ConflictsOk(w)
  {
    hide Less;
    ResolvableIffCanResolve(v, out);
    forall k <- conflicts | k !in v.conflicts ensures conflicts[k].open {
      var p :| p in out.conflicts - OpenPairs(v) && k == ids.conflict(p);
      assert OpenedOn(tasks, conflicts[ids.conflict(p)], p);
    }
    forall c <- w.conflicts, d <- w.conflicts | c != d ensures !SameState(w.conflicts[c], w.conflicts[d]) {
      assert !SameState(conflicts[c], conflicts[d]);
      assert w.conflicts[c] != conflicts[c] ==> Resolvable(v, c);
      assert w.conflicts[d] != conflicts[d] ==> Resolvable(v, d);
    }
  }

  // A resolved row is never removed, so a pair that is resolved, opened again and dropped again by
  // the outcome aborts the pass that would resolve it the second time.
  lemma SecondResolutionAborts(v0: View, o1: Outcome, d1: Dependents, i1: Names, v1: View,
                               o2: Outcome, d2: Dependents, i2: Names, v2: View, o3: Outcome, p: (string, string))
    requires p in OpenPairs(v0) && p !in o1.conflicts && p in o2.conflicts && p !in o3.conflicts
    requires OutcomeOk(v0, o1) && Fresh(v0, i1) && Relabelled(v0, o1, d1, i1, v1)
    requires OutcomeOk(v1, o2) && Fresh(v1, i2) && Relabelled(v1, o2, d2, i2, v2)
    ensures !CanResolve(v2, o3)
  {
    hide NoticesAfter, TasksOpened, Reports, Less, NewlyDefeated, Fresh, NewEdges, NewStatuses, CanResolve;
    var c :| c in v0.conflicts && v0.conflicts[c].open && Pair(v0.conflicts[c]) == p;
    assert c in v1.conflicts && !v1.conflicts[c].open && Pair(v1.conflicts[c]) == p;
    assert c in v2.conflicts && v2.conflicts[c] == v1.conflicts[c];
    StateMatchesOutcome(v1, o2, d2, i2, v2);
    assert p in OpenPairs(v2);
    var k :| k in v2.conflicts && v2.conflicts[k].open && Pair(v2.conflicts[k]) == p;
    SpentPair(v2, o3, c, k);
  }

  lemma SpentPair(v: View, out: Outcome, c: string, k: string)
    requires c in v.conflicts && k in v.conflicts && c != k && Pair(v.conflicts[c]) == Pair(v.conflicts[k])
    requires !v.conflicts[c].open && v.conflicts[k].open && Pair(v.conflicts[k]) !in out.conflicts
    ensures !CanResolve(v, out)
  {
    assert !ConflictUnique(v, k, v.conflicts[k].left, v.conflicts[k].right, false);
  }
}
