/**
 Deferred context maintenance: callers put an episode's query on a bounded queue, and one daemon
 worker drains it. Every critical section under the registry lock is one step; starting the
 thread and doing the work happen outside it.
 */
module Maintenance {
  import opened OrderedDict

  const LIMIT := 64

  datatype State = State(queue: Dict<string>, active: bool, idle: bool)

  // The section of `schedule_context_maintenance`: the caller has a thread to start or not.
  function Enqueued(s: State, episode: string, query: string): (State, bool) {
    var queue := Trim(Put(s.queue, episode, query), LIMIT);
    if s.active then (s.(queue := queue), false) else (State(queue, true, false), true)
  }

  // The section run when the thread could not be started.
  function Abandoned(s: State): State {
    s.(active := false, idle := true)
  }

  // The worker's section: the oldest entry, or the end.
  function Taken(s: State): State {
    if s.queue == [] then s.(active := false, idle := true) else s.(queue := s.queue[1..])
  }

  class Runtime {
    var queue: Dict<string>
    var active: bool
    var idle: bool

    ghost function Contents(): State
      reads this
    {
      State(queue, active, idle)
    }

    constructor ()
      ensures Contents() == State([], false, true)
    {
      queue, active, idle := [], false, true;
    }

    method Enqueue(episode: string, query: string) returns (start: bool)
      modifies this
      ensures (Contents(), start) == Enqueued(old(Contents()), episode, query)
    {
      queue := TrimTo(Put(queue, episode, query), LIMIT);
      if active {
        return false;
      }
      active := true;
      idle := false;
      start := true;
    }

    method StartFailed()
      modifies this
      ensures Contents() == Abandoned(old(Contents()))
    {
      active := false;
      idle := true;
    }

    method Take() returns (more: bool, episode: string, query: string)
      modifies this
      ensures Contents() == Taken(old(Contents())) && (more <==> old(queue) != [])
      ensures more ==> (episode, query) == old(queue)[0]
    {
      if queue == [] {
        active := false;
        idle := true;
        return false, "", "";
      }
      episode, query := queue[0].0, queue[0].1;
      queue := queue[1..];
      more := true;
    }
  }

  /******* Interleavings *******/

  // Threads by where they are: a caller about to start the worker, a worker at the top of its
  // loop, a worker at work.
  datatype World = World(s: State, starting: nat, looping: nat, busy: nat)

  datatype Step = Schedule(episode: string, query: string) | Started | StartFails | Take | Finish

  predicate Enabled(w: World, step: Step) {
    match step
    case Schedule(_, _) => true
    case Started => w.starting > 0
    case StartFails => w.starting > 0
    case Take => w.looping > 0
    case Finish => w.busy > 0
  }

  function Next(w: World, step: Step): World
    requires Enabled(w, step)
  {
    match step
    case Schedule(episode, query) =>
      var (s, start) := Enqueued(w.s, episode, query);
      w.(s := s, starting := w.starting + if start then 1 else 0)
    case Started => w.(starting := w.starting - 1, looping := w.looping + 1)
    case StartFails => w.(s := Abandoned(w.s), starting := w.starting - 1)
    case Take =>
      if w.s.queue == [] then w.(s := Taken(w.s), looping := w.looping - 1)
      else w.(s := Taken(w.s), looping := w.looping - 1, busy := w.busy + 1)
    case Finish => w.(looping := w.looping + 1, busy := w.busy - 1)
  }

  ghost predicate Run(ws: seq<World>, steps: seq<Step>) {
    && |ws| == |steps| + 1
    && ws[0] == World(State([], false, true), 0, 0, 0)
    && forall i | 0 <= i < |steps| :: Enabled(ws[i], steps[i]) && ws[i + 1] == Next(ws[i], steps[i])
  }

  // The thread of the last call that had one to start could not be started, and nobody has
  // called since.
  predicate Stranded(steps: seq<Step>) {
    steps != []
    && var last := steps[|steps| - 1];
       if last.StartFails? then true
       else if last.Schedule? then false
       else Stranded(steps[..|steps| - 1])
  }

  // The query of the last call for an episode.
  predicate Latest(steps: seq<Step>, episode: string, query: string) {
    steps != []
    && var last := steps[|steps| - 1];
       if last.Schedule? && last.episode == episode then last.query == query
       else Latest(steps[..|steps| - 1], episode, query)
  }

  ghost predicate Inv(w: World, steps: seq<Step>) {
    && w.starting + w.looping + w.busy == (if w.s.active then 1 else 0)
    && w.s.idle == !w.s.active
    && |w.s.queue| <= LIMIT && Distinct(w.s.queue)
    && (w.s.queue != [] && !w.s.active ==> Stranded(steps))
    && (forall i | 0 <= i < |w.s.queue| :: Latest(steps, w.s.queue[i].0, w.s.queue[i].1))
  }

  lemma QueuedAreLatest(queue: Dict<string>, steps: seq<Step>, episode: string, query: string)
    requires forall i | 0 <= i < |queue| :: Latest(steps, queue[i].0, queue[i].1)
    ensures var more, after := steps + [Schedule(episode, query)], Trim(Put(queue, episode, query), LIMIT);
      forall i | 0 <= i < |after| :: Latest(more, after[i].0, after[i].1)
  {
    var more, put := steps + [Schedule(episode, query)], Put(queue, episode, query);
    assert more[..|more| - 1] == steps;
    forall i | 0 <= i < |put| ensures Latest(more, put[i].0, put[i].1) {
      if i < |put| - 1 {
        var j := Left(queue, episode, i);
      }
    }
  }

  lemma StepKeeps(w: World, steps: seq<Step>, step: Step)
    requires Inv(w, steps) && Enabled(w, step)
    ensures Inv(Next(w, step), steps + [step])
  {
    hide Put, Remove;
    assert (steps + [step])[..|steps + [step]| - 1] == steps;
    if step.Schedule? {
      QueuedAreLatest(w.s.queue, steps, step.episode, step.query);
      PutDistinct(w.s.queue, step.episode, step.query);
      TrimDistinct(Put(w.s.queue, step.episode, step.query), LIMIT);
    }
  }

  lemma {:induction false} RunKeeps(ws: seq<World>, steps: seq<Step>, k: nat)
    requires Run(ws, steps) && k < |ws|
    ensures Inv(ws[k], steps[..k])
    decreases k
  {
    hide Inv, Next;
    if k == 0 {
      StartHolds(ws[0]);
    } else {
      RunKeeps(ws, steps, k - 1);
      StepKeeps(ws[k - 1], steps[..k - 1], steps[k - 1]);
      assert steps[..k] == steps[..k - 1] + [steps[k - 1]];
    }
  }

  lemma StartHolds(w: World)
    requires w == World(State([], false, true), 0, 0, 0)
    ensures Inv(w, [])
  {
  }

  lemma {:induction false} StrandedNeedsFailure(steps: seq<Step>)
    requires forall i | 0 <= i < |steps| :: !steps[i].StartFails?
    ensures !Stranded(steps)
    decreases |steps|
  {
    if steps != [] {
      assert forall i | 0 <= i < |steps| - 1 :: steps[..|steps| - 1][i] == steps[i];
      StrandedNeedsFailure(steps[..|steps| - 1]);
    }
  }

  // At every point of every run: at most one worker; idle exactly when there is none, starting
  // ones counted; at most 64 entries, one an episode, each with its latest query; and waiting work
  // has a worker, unless a thread failed to start and nobody has called since.
  lemma OneWorkerNoLostWakeup(ws: seq<World>, steps: seq<Step>, k: nat)
    requires Run(ws, steps) && k < |ws|
    ensures var w := ws[k];
      && w.looping + w.busy <= 1
      && (w.s.idle <==> w.starting + w.looping + w.busy == 0)
      && |w.s.queue| <= 64 && Distinct(w.s.queue)
      && (forall i | 0 <= i < |w.s.queue| :: Latest(steps[..k], w.s.queue[i].0, w.s.queue[i].1))
      && (w.s.queue != [] && w.starting + w.looping + w.busy == 0 ==> Stranded(steps[..k]))
    ensures (forall i | 0 <= i < k :: !steps[i].StartFails?) && ws[k].s.queue != [] ==>
      ws[k].starting + ws[k].looping + ws[k].busy == 1
  {
    hide Latest, Stranded;
    RunKeeps(ws, steps, k);
    if forall i | 0 <= i < k :: !steps[i].StartFails? {
      StrandedNeedsFailure(steps[..k]);
    }
  }

  /******* No request is lost *******/

  // Requests for other episodes among the steps.
  function Others(steps: seq<Step>, episode: string): nat {
    if steps == [] then 0
    else
      var last := steps[|steps| - 1];
      Others(steps[..|steps| - 1], episode) + if last.Schedule? && last.episode != episode then 1 else 0
  }

  // How many entries are newer than the episode's is bounded.
  predicate Waiting(queue: Dict<string>, episode: string, newer: nat) {
    exists i | 0 <= i < |queue| :: queue[i].0 == episode && |queue| - 1 - i <= newer
  }

  lemma {:induction false} RemoveShifts(d: Dict<string>, k: string, j: nat) returns (i: nat)
    requires j < |d| && d[j].0 != k
    ensures i < |Remove(d, k)| && Remove(d, k)[i] == d[j] && |Remove(d, k)| - i <= |d| - j
    decreases |d|
  {
    if j == 0 {
      i := 0;
    } else {
      i := RemoveShifts(d[1..], k, j - 1);
      if d[0].0 != k { i := i + 1; }
    }
  }

  lemma OtherScheduled(queue: Dict<string>, episode: string, newer: nat, k: string, v: string)
    requires Waiting(queue, episode, newer) && k != episode && newer + 1 < LIMIT
    ensures Waiting(Trim(Put(queue, k, v), LIMIT), episode, newer + 1)
  {
    var j :| 0 <= j < |queue| && queue[j].0 == episode && |queue| - 1 - j <= newer;
    var i := RemoveShifts(queue, k, j);
    var put := Put(queue, k, v);
    var t := Trim(put, LIMIT);
    assert t[i - (|put| - |t|)].0 == episode;
  }

  lemma SameScheduled(queue: Dict<string>, episode: string, v: string, newer: nat)
    ensures Waiting(Trim(Put(queue, episode, v), LIMIT), episode, newer)
  {
    var t := Trim(Put(queue, episode, v), LIMIT);
    assert t[|t| - 1].0 == episode;
  }

  predicate Takes(w: World, step: Step, episode: string) {
    step.Take? && w.s.queue != [] && w.s.queue[0].0 == episode
  }

  lemma FirstTaken(queue: Dict<string>, episode: string, newer: nat)
    requires Waiting(queue, episode, newer) && queue[0].0 != episode
    ensures Waiting(queue[1..], episode, newer)
  {
    var j :| 0 <= j < |queue| && queue[j].0 == episode && |queue| - 1 - j <= newer;
    assert queue[1..][j - 1].0 == episode;
  }

  // One step after the request: it is still queued, at most one entry further from the end.
  lemma StillWaiting(w: World, step: Step, episode: string, newer: nat)
    requires Enabled(w, step) && Waiting(w.s.queue, episode, newer) && !Takes(w, step, episode)
    requires step.Schedule? && step.episode != episode ==> newer + 1 < LIMIT
    ensures Waiting(Next(w, step).s.queue, episode, newer + if step.Schedule? && step.episode != episode then 1 else 0)
  {
    hide Waiting, Trim, Put;
    if step.Schedule? && step.episode != episode {
      OtherScheduled(w.s.queue, episode, newer, step.episode, step.query);
    } else if step.Schedule? {
      SameScheduled(w.s.queue, episode, step.query, newer);
    } else if step.Take? && w.s.queue != [] {
      FirstTaken(w.s.queue, episode, newer);
    }
  }

  // A request stays queued until the worker takes it, as long as fewer than 64 requests for
  // other episodes have come after it.
  lemma {:induction false} RequestIsNotLost(ws: seq<World>, steps: seq<Step>, at: nat, k: nat, episode: string)
    requires Run(ws, steps) && at < k < |ws| && steps[at].Schedule? && steps[at].episode == episode
    requires forall i | at < i < k :: !Takes(ws[i], steps[i], episode)
    requires Others(steps[at + 1..k], episode) < 64
    ensures Waiting(ws[k].s.queue, episode, Others(steps[at + 1..k], episode))
    decreases k
  {
    hide Waiting, Trim, Put, Takes;
    if k == at + 1 {
      SameScheduled(ws[at].s.queue, episode, steps[at].query, Others(steps[at + 1..k], episode));
    } else {
      assert steps[at + 1..k][..|steps[at + 1..k]| - 1] == steps[at + 1..k - 1];
      RequestIsNotLost(ws, steps, at, k - 1, episode);
      StillWaiting(ws[k - 1], steps[k - 1], episode, Others(steps[at + 1..k - 1], episode));
    }
  }

  lemma RunHas(ws: seq<World>, steps: seq<Step>)
    requires Run(ws, steps)
    ensures |ws| == |steps| + 1
  {
  }

  lemma RunLonger(ws: seq<World>, steps: seq<Step>, step: Step)
    requires Run(ws, steps) && Enabled(ws[|steps|], step)
    ensures Run(ws + [Next(ws[|steps|], step)], steps + [step])
  {
    hide Next, Enabled;
  }

  // The queue names the last of the list, at most 64 of them.
  predicate NamesLast(queue: Dict<string>, names: seq<string>) {
    var n := if |names| > 64 then 64 else |names|;
    |queue| == n && forall i | 0 <= i < n :: queue[i].0 == names[|names| - n + i]
  }

  // The 64 is sharp: called for any number of episodes before the worker comes to its loop, the
  // queue holds the last 64 of them, oldest first.
  lemma {:induction false} OnlyLastStay(names: seq<string>) returns (ws: seq<World>, steps: seq<Step>)
    requires forall i, j | 0 <= i < j < |names| :: names[i] != names[j]
    ensures Run(ws, steps) && |steps| == |names| && forall i | 0 <= i < |names| :: steps[i] == Schedule(names[i], "")
    ensures NamesLast(ws[|names|].s.queue, names)
    decreases |names|
  {
    hide Run, Put, Trim, Next, Enabled;
    if names == [] {
      ws, steps := [World(State([], false, true), 0, 0, 0)], [];
      StartRuns();
    } else {
      var n := |names| - 1;
      var init, last := names[..n], names[n];
      ws, steps := OnlyLastStay(init);
      RunHas(ws, steps);
      var w, step := ws[n], Schedule(last, "");
      QueuedNext(w, last);
      LastNamed(w.s.queue, init, last);
      RunLonger(ws, steps, step);
      assert init + [last] == names;
      ws, steps := ws + [Next(w, step)], steps + [step];
    }
  }

  lemma StartRuns()
    ensures Run([World(State([], false, true), 0, 0, 0)], [])
  {
  }

  lemma QueuedNext(w: World, name: string)
    ensures Enabled(w, Schedule(name, "")) && Next(w, Schedule(name, "")).s.queue == Trim(Put(w.s.queue, name, ""), 64)
  {
    hide Put, Trim;
  }

  lemma LastNamed(queue: Dict<string>, names: seq<string>, last: string)
    requires NamesLast(queue, names) && last !in names
    ensures NamesLast(Trim(Put(queue, last, ""), 64), names + [last])
  {
    hide Remove;
    RemoveAbsent(queue, last);
  }

  lemma {:induction false} RemoveAbsent(d: Dict<string>, k: string)
    requires forall i | 0 <= i < |d| :: d[i].0 != k
    ensures Remove(d, k) == d
    decreases |d|
  {
    if d != [] { RemoveAbsent(d[1..], k); }
  }

  /******* The worker gets through *******/

  predicate Work(step: Step) {
    step.Started? || step.Take? || step.Finish?
  }

  // How far the worker is from the end, by its queue and where it is.
  function StepsToEnd(w: World): nat {
    2 * |w.s.queue| + 2 * w.starting + w.looping + 2 * w.busy
  }

  // The worker's next step, and that it is one nearer to the end.
  function WorkerStep(w: World): Step {
    if w.starting > 0 then Started else if w.looping > 0 then Take else Finish
  }

  lemma OneStepNearer(w: World)
    requires w.starting + w.looping + w.busy == 1 && w.s.active
    ensures Enabled(w, WorkerStep(w)) && Work(WorkerStep(w))
    ensures var v := Next(w, WorkerStep(w));
      && StepsToEnd(v) == StepsToEnd(w) - 1
      && (v.starting + v.looping + v.busy == 0 ==> v.s.queue == [] && v.s.idle && StepsToEnd(v) == 0)
  {
  }

  // At every point of every run with a worker, started or about to be, the worker alone can go on
  // until the queue is empty and it has ended, taking each entry once.
  lemma {:induction false} WorkerGetsThrough(ws: seq<World>, steps: seq<Step>) returns (vs: seq<World>, more: seq<Step>)
    requires Run(ws, steps) && var w := ws[|steps|]; w.starting + w.looping + w.busy > 0
    ensures Run(ws + vs, steps + more) && forall i | 0 <= i < |more| :: Work(more[i])
    ensures var end := (ws + vs)[|steps + more|];
      end.s.queue == [] && end.s.idle && end.starting + end.looping + end.busy == 0
    ensures |more| == StepsToEnd(ws[|steps|])
    decreases StepsToEnd(ws[|steps|])
  {
    hide Run, Next, Enabled, StepsToEnd;
    RunHas(ws, steps);
    RunKeeps(ws, steps, |steps|);
    var w := ws[|steps|];
    var step := WorkerStep(w);
    OneStepNearer(w);
    var next := Next(w, step);
    var us, so := ws + [next], steps + [step];
    RunLonger(ws, steps, step);
    if next.starting + next.looping + next.busy == 0 {
      vs, more := [next], [step];
    } else {
      vs, more := WorkerGetsThrough(us, so);
      assert us + vs == ws + ([next] + vs) && so + more == steps + ([step] + more);
      vs, more := [next] + vs, [step] + more;
    }
  }
}
