/**
 The append-only ledger of `store.py` as values: append with idempotency keys, replay from
 origin and purge, and what holds over every run of them.
 */
module Ledger {
  import opened Wrappers
  import opened Sql
  import opened Projections
  import opened LedgerChain

  datatype Draft = Draft(payload: Payload, aggregateId: string, causal: Option<string>)

  datatype IdemRow = IdemRow(episodeId: string, ids: seq<string>, createdAt: string)

  datatype State = State(log: seq<Event>, p: Projection, idem: map<string, IdemRow>)

  const EmptyState := State([], EmptyProjection, map[])

  // Identifier source and clock of one transaction, by sequence number.
  datatype Env = Env(ids: nat -> string, stamps: nat -> string)

  datatype Failure = KeyReused | Aborted

  const KEY := "idempotency_key"
  const FINGERPRINT := "idempotency_fingerprint"

  /******* Idempotency batches *******/

  function StorageKey(ep: string, key: string): string {
    ep + ":" + key
  }

  function Lookup(m: map<string, string>, k: string): string {
    if k in m then m[k] else ""
  }

  // The events that carry one caller key, in log order.
  function KeyedEvents(log: seq<Event>, ep: string, key: string): seq<Event> {
    if log == [] then []
    else
      var init, last := log[..|log| - 1], log[|log| - 1];
      KeyedEvents(init, ep, key)
      + (if last.body.episodeId == ep && Lookup(last.body.correlation, KEY) == key then [last] else [])
  }

  function Ids(events: seq<Event>): seq<string> {
    seq(|events|, i requires 0 <= i < |events| => events[i].body.id)
  }

  function RowFor(ep: string, events: seq<Event>): IdemRow
    requires events != []
  {
    IdemRow(ep, Ids(events), events[0].body.timestamp)
  }

  // The table holds exactly one row for every key in the log, listing that key's events.
  ghost predicate Regrouped(idem: map<string, IdemRow>, log: seq<Event>) {
    && (forall ep, key {:trigger KeyedEvents(log, ep, key)} :: key != "" && KeyedEvents(log, ep, key) != [] ==>
          && StorageKey(ep, key) in idem
          && idem[StorageKey(ep, key)] == RowFor(ep, KeyedEvents(log, ep, key)))
    && (forall s <- idem :: Backed(s, idem[s].episodeId, log))
  }

  ghost predicate Backed(s: string, ep: string, log: seq<Event>) {
    exists key {:trigger KeyedEvents(log, ep, key)} ::
      key != "" && s == StorageKey(ep, key) && KeyedEvents(log, ep, key) != []
  }

  lemma StorageKeyInjective(ep: string, a: string, b: string)
    requires StorageKey(ep, a) == StorageKey(ep, b)
    ensures a == b
  {
    var n := |ep| + 1;
    assert StorageKey(ep, a)[n..] == a && StorageKey(ep, b)[n..] == b;
  }

  // A log determines its idempotency table.
  lemma RegroupedIsUnique(a: map<string, IdemRow>, b: map<string, IdemRow>, log: seq<Event>)
    requires Regrouped(a, log) && Regrouped(b, log)
    ensures a == b
  {
    forall s ensures s in a ==> s in b && a[s] == b[s] {
      if s in a { BackedRow(a, b, log, s); }
    }
    forall s ensures s in b ==> s in a {
      if s in b { BackedRow(b, a, log, s); }
    }
  }

  lemma BackedRow(a: map<string, IdemRow>, b: map<string, IdemRow>, log: seq<Event>, s: string)
    requires Regrouped(a, log) && Regrouped(b, log) && s in a
    ensures s in b && a[s] == b[s]
  {
    var ep := a[s].episodeId;
    var key :| key != "" && s == StorageKey(ep, key) && KeyedEvents(log, ep, key) != [];
  }

  lemma {:induction false} KeyedConcat(a: seq<Event>, b: seq<Event>, ep: string, key: string)
    ensures KeyedEvents(a + b, ep, key) == KeyedEvents(a, ep, key) + KeyedEvents(b, ep, key)
  {
    if b == [] {
      assert a + b == a;
    } else {
      assert (a + b)[..|a + b| - 1] == a + b[..|b| - 1];
      KeyedConcat(a, b[..|b| - 1], ep, key);
    }
  }

  // Events of one append share their episode and correlation.
  ghost predicate OneBatch(events: seq<Event>, ep: string, corr: map<string, string>) {
    forall i | 0 <= i < |events| :: events[i].body.episodeId == ep && events[i].body.correlation == corr
  }

  lemma {:induction false} KeyedBatch(events: seq<Event>, ep: string, corr: map<string, string>, ep': string, key: string)
    requires OneBatch(events, ep, corr)
    ensures KeyedEvents(events, ep', key) == if ep' == ep && Lookup(corr, KEY) == key then events else []
  {
    if events != [] {
      KeyedBatch(events[..|events| - 1], ep, corr, ep', key);
      assert events == events[..|events| - 1] + [events[|events| - 1]];
    }
  }

  /******* append_events *******/

  function Clean(correlation: map<string, Option<string>>, key: string): map<string, string> {
    var kept := map c | c in correlation && correlation[c].Some? && correlation[c].value != "" :: correlation[c].value;
    if key != "" then kept[KEY := key] else kept
  }

  function NextEvent(log: seq<Event>, heads: map<string, Head>, ep: string, d: Draft, corr: map<string, string>,
                     env: Env): Event
  {
    var n := LastSeq(log) + 1;
    var body := Body(n, env.ids(n), ep, env.stamps(n), d.aggregateId, corr, d.causal, d.payload);
    Event(body, HeadHash(heads, ep), Link(HeadHash(heads, ep), body))
  }

  predicate HasId(log: seq<Event>, id: string) {
    exists i | 0 <= i < |log| :: log[i].body.id == id
  }

  // Insert one event and project it; a repeated id or a failing handler aborts.
  function AppendOne(s: State, ep: string, d: Draft, corr: map<string, string>, env: Env): Option<State> {
    var e := NextEvent(s.log, s.p.heads, ep, d, corr, env);
    if HasId(s.log, e.body.id) then None
    else match Apply(s.p, e)
         case None => None
         case Some(q) => Some(State(s.log + [e], q, s.idem))
  }

  function AppendEach(s: State, ep: string, drafts: seq<Draft>, corr: map<string, string>, env: Env): (r: Option<State>)
    ensures r.Some? ==> s.log <= r.value.log && |r.value.log| == |s.log| + |drafts|
  {
    if drafts == [] then Some(s)
    else match AppendEach(s, ep, drafts[..|drafts| - 1], corr, env)
         case None => None
         case Some(u) => AppendOne(u, ep, drafts[|drafts| - 1], corr, env)
  }

  function EventsById(log: seq<Event>, ids: seq<string>): seq<Event> {
    if log == [] then []
    else
      var init, last := log[..|log| - 1], log[|log| - 1];
      EventsById(init, ids) + (if last.body.id in ids then [last] else [])
  }

  predicate TaskOpen(db: Db, task: string, ep: string) {
    Id(Tasks, task) in db && db[Id(Tasks, task)].episode == ep && Column(db[Id(Tasks, task)], "state") == Text("open")
  }

  predicate KeyTaken(s: State, ep: string, key: string) {
    StorageKey(ep, key) in s.idem && s.idem[StorageKey(ep, key)].episodeId == ep
  }

  // Both requests carry a fingerprint and they differ.
  predicate FingerprintClash(events: seq<Event>, corr: map<string, string>) {
    && events != []
    && Lookup(events[0].body.correlation, FINGERPRINT) != ""
    && Lookup(corr, FINGERPRINT) != ""
    && Lookup(events[0].body.correlation, FINGERPRINT) != Lookup(corr, FINGERPRINT)
  }

  datatype Appended = Appended(state: State, events: seq<Event>)

  // The new state and the returned events; on failure the transaction leaves nothing behind.
  function Append(s: State, ep: string, drafts: seq<Draft>, correlation: map<string, Option<string>>, key: string,
                  task: string, env: Env): Result<Appended, Failure>
  {
    var corr := Clean(correlation, key);
    if drafts == [] then Ok(Appended(s, []))
    else if task != "" && !TaskOpen(s.p.db, task, ep) then Ok(Appended(s, []))
    else if key != "" && KeyTaken(s, ep, key) then
      var existing := EventsById(s.log, s.idem[StorageKey(ep, key)].ids);
      if FingerprintClash(existing, corr) then Err(KeyReused) else Ok(Appended(s, existing))
    else match AppendEach(s, ep, drafts, corr, env)
         case None => Err(Aborted)
         case Some(u) =>
           var events := u.log[|s.log|..];
           if key == "" then Ok(Appended(u, events))
           else if StorageKey(ep, key) in u.idem then Err(Aborted)
           else Ok(Appended(u.(idem := u.idem[StorageKey(ep, key) := RowFor(ep, events)]), events))
  }

  /******* The invariant *******/

  ghost predicate DistinctIds(log: seq<Event>) {
    forall i, j | 0 <= i < j < |log| :: log[i].body.id != log[j].body.id
  }

  // The log is verified and ordered, and the projections are its fold.
  ghost predicate LogOk(s: State) {
    Ascending(s.log) && Linked(s.log) && DistinctIds(s.log) && Fold(s.log) == Some(s.p)
  }

  ghost predicate Inv(s: State) {
    LogOk(s) && Regrouped(s.idem, s.log)
  }

  lemma AppendOneKeeps(s: State, ep: string, d: Draft, corr: map<string, string>, env: Env)
    requires LogOk(s) && AppendOne(s, ep, d, corr, env).Some?
    ensures LogOk(AppendOne(s, ep, d, corr, env).value)
  {
    hide Linked, Apply, Heads;
    var e, u := NextEvent(s.log, s.p.heads, ep, d, corr, env), AppendOne(s, ep, d, corr, env).value;
    FoldHeads(s.log);
    LinkedSnoc(s.log, e);
    AscendingSnoc(s.log, e);
    assert u.log[..|u.log| - 1] == s.log;
  }

  lemma {:induction false} AppendEachFacts(s: State, ep: string, drafts: seq<Draft>, corr: map<string, string>, env: Env)
    requires AppendEach(s, ep, drafts, corr, env).Some?
    ensures var u := AppendEach(s, ep, drafts, corr, env).value;
      && s.log <= u.log && |u.log| == |s.log| + |drafts| && u.idem == s.idem
      && OneBatch(u.log[|s.log|..], ep, corr)
      && (LogOk(s) ==> LogOk(u))
  {
    hide LogOk, AppendOne;
    if drafts != [] {
      var init, d := drafts[..|drafts| - 1], drafts[|drafts| - 1];
      AppendEachFacts(s, ep, init, corr, env);
      var mid := AppendEach(s, ep, init, corr, env).value;
      if LogOk(s) {
        AppendOneKeeps(mid, ep, d, corr, env);
      }
      var e := AppendOneAdds(mid, ep, d, corr, env);
      BatchGrows(s.log, mid.log, e, ep, corr);
    }
  }

  lemma AppendOneAdds(s: State, ep: string, d: Draft, corr: map<string, string>, env: Env) returns (e: Event)
    requires AppendOne(s, ep, d, corr, env).Some?
    ensures var u := AppendOne(s, ep, d, corr, env).value;
      u.log == s.log + [e] && u.idem == s.idem && e.body.episodeId == ep && e.body.correlation == corr
  {
    hide Apply;
    e := NextEvent(s.log, s.p.heads, ep, d, corr, env);
  }

  lemma BatchGrows(log: seq<Event>, mid: seq<Event>, e: Event, ep: string, corr: map<string, string>)
    requires log <= mid && OneBatch(mid[|log|..], ep, corr) && e.body.episodeId == ep && e.body.correlation == corr
    ensures log <= mid + [e] && OneBatch((mid + [e])[|log|..], ep, corr)
  {
    assert (mid + [e])[|log|..] == mid[|log|..] + [e];
  }

  // An append either changes nothing or adds one batch of events.
  ghost predicate AddsBatch(s: State, u: State, events: seq<Event>, ep: string, corr: map<string, string>) {
    events != [] && u.log == s.log + events && OneBatch(events, ep, corr)
  }

  lemma AppendAddsBatch(s: State, ep: string, drafts: seq<Draft>, correlation: map<string, Option<string>>,
                        key: string, task: string, env: Env)
    requires Append(s, ep, drafts, correlation, key, task, env).Ok?
    ensures var r := Append(s, ep, drafts, correlation, key, task, env).value;
      || r.state == s
      || (&& AddsBatch(s, r.state, r.events, ep, Clean(correlation, key))
          && (LogOk(s) ==> LogOk(r.state))
          && |r.events| == |drafts|
          && (key == "" ==> r.state.idem == s.idem)
          && (key != "" ==> StorageKey(ep, key) !in s.idem
                            && r.state.idem == s.idem[StorageKey(ep, key) := RowFor(ep, r.events)]))
  {
    hide AppendEach, LogOk;
    var corr := Clean(correlation, key);
    if AppendEach(s, ep, drafts, corr, env).Some? {
      AppendEachFacts(s, ep, drafts, corr, env);
      var u := AppendEach(s, ep, drafts, corr, env).value;
      assert u.log == s.log + u.log[|s.log|..];
      SameLogOk(u, Append(s, ep, drafts, correlation, key, task, env).value.state);
    }
  }

  lemma SameLogOk(u: State, v: State)
    ensures u.log == v.log && u.p == v.p ==> (LogOk(u) <==> LogOk(v))
  {
  }

  // The caller put the reserved key into the correlation without passing it as the argument.
  predicate SmugglesKey(correlation: map<string, Option<string>>, key: string) {
    key == "" && Lookup(Clean(correlation, ""), KEY) != ""
  }

  lemma KeyedGrows(s: State, u: State, events: seq<Event>, ep: string, corr: map<string, string>,
                   ep': string, key: string)
    requires AddsBatch(s, u, events, ep, corr)
    ensures KeyedEvents(u.log, ep', key)
         == KeyedEvents(s.log, ep', key) + if ep' == ep && Lookup(corr, KEY) == key then events else []
  {
    KeyedConcat(s.log, events, ep', key);
    KeyedBatch(events, ep, corr, ep', key);
  }

  // A key the table does not hold for its episode has no events.
  lemma UntakenKeyIsUnused(s: State, ep: string, key: string)
    requires Regrouped(s.idem, s.log) && key != "" && StorageKey(ep, key) !in s.idem
    ensures KeyedEvents(s.log, ep, key) == []
  {
  }

  lemma KeyedAppendRegroups(s: State, u: State, events: seq<Event>, ep: string, corr: map<string, string>, key: string)
    requires Regrouped(s.idem, s.log) && AddsBatch(s, u, events, ep, corr)
    requires key != "" && Lookup(corr, KEY) == key && StorageKey(ep, key) !in s.idem
    requires u.idem == s.idem[StorageKey(ep, key) := RowFor(ep, events)]
    ensures Regrouped(u.idem, u.log)
  {
    UntakenKeyIsUnused(s, ep, key);
    forall ep', k {:trigger KeyedEvents(u.log, ep', k)} | k != "" && KeyedEvents(u.log, ep', k) != []
      ensures StorageKey(ep', k) in u.idem && u.idem[StorageKey(ep', k)] == RowFor(ep', KeyedEvents(u.log, ep', k))
    {
      KeyedGrows(s, u, events, ep, corr, ep', k);
      if ep' == ep && k == key {
        assert KeyedEvents(u.log, ep', k) == events;
      } else {
        assert KeyedEvents(u.log, ep', k) == KeyedEvents(s.log, ep', k);
        assert StorageKey(ep', k) in s.idem;
      }
    }
    forall t | t in u.idem ensures Backed(t, u.idem[t].episodeId, u.log) {
      if t == StorageKey(ep, key) {
        KeyedGrows(s, u, events, ep, corr, ep, key);
      } else {
        StillBacked(s, u, events, ep, corr, t);
      }
    }
  }

  lemma StillBacked(s: State, u: State, events: seq<Event>, ep: string, corr: map<string, string>, t: string)
    requires AddsBatch(s, u, events, ep, corr) && t in s.idem && Backed(t, s.idem[t].episodeId, s.log)
    ensures Backed(t, s.idem[t].episodeId, u.log)
  {
    var ep' := s.idem[t].episodeId;
    var k :| k != "" && t == StorageKey(ep', k) && KeyedEvents(s.log, ep', k) != [];
    KeyedGrows(s, u, events, ep, corr, ep', k);
  }

  lemma UnkeyedAppendRegroups(s: State, u: State, events: seq<Event>, ep: string, corr: map<string, string>)
    requires Regrouped(s.idem, s.log) && AddsBatch(s, u, events, ep, corr) && u.idem == s.idem
    ensures Regrouped(u.idem, u.log) <==> Lookup(corr, KEY) == ""
  {
    var k0 := Lookup(corr, KEY);
    if k0 == "" {
      forall ep', k {:trigger KeyedEvents(u.log, ep', k)} | k != ""
        ensures KeyedEvents(u.log, ep', k) == KeyedEvents(s.log, ep', k)
      {
        KeyedGrows(s, u, events, ep, corr, ep', k);
      }
      forall t | t in u.idem ensures Backed(t, u.idem[t].episodeId, u.log) {
        StillBacked(s, u, events, ep, corr, t);
      }
    } else {
      KeyedGrows(s, u, events, ep, corr, ep, k0);
      var t, was := StorageKey(ep, k0), KeyedEvents(s.log, ep, k0);
      if was != [] {
        assert s.idem[t].ids == Ids(was) && |Ids(was + events)| > |Ids(was)|;
      } else if t in s.idem && s.idem[t].episodeId == ep {
        var k :| k != "" && t == StorageKey(ep, k) && KeyedEvents(s.log, ep, k) != [];
        StorageKeyInjective(ep, k, k0);
      }
    }
  }

  // The append returns before it looks at the database's events.
  predicate NothingToDo(s: State, ep: string, drafts: seq<Draft>, task: string) {
    drafts == [] || (task != "" && !TaskOpen(s.p.db, task, ep))
  }

  // Every append keeps the invariant, except one that smuggles the key and has something to
  // do: that one leaves a table which a replay does not rebuild.
  lemma AppendKeepsInv(s: State, ep: string, drafts: seq<Draft>, correlation: map<string, Option<string>>,
                       key: string, task: string, env: Env)
    requires Inv(s) && Append(s, ep, drafts, correlation, key, task, env).Ok?
    ensures var u := Append(s, ep, drafts, correlation, key, task, env).value.state;
      && LogOk(u)
      && (Inv(u) <==> NothingToDo(s, ep, drafts, task) || !SmugglesKey(correlation, key))
  {
    hide Append, LogOk, Regrouped, SmugglesKey;
    AppendAddsBatch(s, ep, drafts, correlation, key, task, env);
    AppendIdles(s, ep, drafts, correlation, key, task, env);
    var r := Append(s, ep, drafts, correlation, key, task, env).value;
    if r.state != s {
      var corr := Clean(correlation, key);
      BatchIsNew(s, r.state, r.events, ep, corr);
      if key != "" {
        KeyedAppendRegroups(s, r.state, r.events, ep, corr, key);
      } else {
        UnkeyedAppendRegroups(s, r.state, r.events, ep, corr);
      }
    }
  }

  // What an append that succeeds and changes nothing can be.
  lemma AppendIdles(s: State, ep: string, drafts: seq<Draft>, correlation: map<string, Option<string>>,
                    key: string, task: string, env: Env)
    requires Append(s, ep, drafts, correlation, key, task, env).Ok?
    ensures Append(s, ep, drafts, correlation, key, task, env).value.state == s
       <==> NothingToDo(s, ep, drafts, task) || (key != "" && KeyTaken(s, ep, key))
    ensures SmugglesKey(correlation, key) ==> key == "" && Lookup(Clean(correlation, key), KEY) != ""
    ensures !SmugglesKey(correlation, key) ==> Lookup(Clean(correlation, key), KEY) == key
  {
    hide AppendOne, EventsById, FingerprintClash;
  }

  lemma BatchIsNew(s: State, u: State, events: seq<Event>, ep: string, corr: map<string, string>)
    requires AddsBatch(s, u, events, ep, corr)
    ensures u.log != s.log
  {
  }

  /******* Purge *******/

  function Purge(s: State, x: string): State {
    State(Others(s.log, x), Without(s.p, x), map t | t in s.idem && s.idem[t].episodeId != x :: s.idem[t])
  }

  lemma {:induction false} OthersKeyed(log: seq<Event>, x: string, ep: string, key: string)
    ensures KeyedEvents(Others(log, x), ep, key) == if ep == x then [] else KeyedEvents(log, ep, key)
  {
    if log != [] {
      var init, last := log[..|log| - 1], log[|log| - 1];
      OthersKeyed(init, x, ep, key);
      OthersStep(log, x);
      if last.body.episodeId != x {
        var rest := Others(init, x);
        assert (rest + [last])[..|rest + [last]| - 1] == rest;
      }
    }
  }

  lemma {:induction false} OthersDistinct(log: seq<Event>, x: string)
    requires DistinctIds(log)
    ensures DistinctIds(Others(log, x))
    ensures forall e <- Others(log, x) :: e in log && e.body.episodeId != x
  {
    if log != [] {
      var n := |log| - 1;
      OthersStep(log, x);
      OthersDistinct(log[..n], x);
      assert forall e <- log[..n] :: e in log;
      forall i | 0 <= i < |Others(log[..n], x)| ensures Others(log[..n], x)[i].body.id != log[n].body.id {
        assert Others(log[..n], x)[i] in log[..n];
      }
    }
  }

  // Purging an episode leaves a valid ledger whose log, projections, heads and idempotency
  // rows are those of the other episodes.
  lemma PurgeKeepsInv(s: State, x: string)
    requires Inv(s)
    ensures Inv(Purge(s, x))
    ensures Heads(Purge(s, x).log) == Heads(s.log) - {x}
  {
    hide Linked, Ascending, Without, Others, Heads, DistinctIds, Fold;
    var u := Purge(s, x);
    OthersStayLinked(s.log, x);
    OthersDistinct(s.log, x);
    ReplayOfOthers(s.log, x);
    forall ep, k {:trigger KeyedEvents(u.log, ep, k)} | k != "" && KeyedEvents(u.log, ep, k) != []
      ensures StorageKey(ep, k) in u.idem && u.idem[StorageKey(ep, k)] == RowFor(ep, KeyedEvents(u.log, ep, k))
    {
      OthersKeyed(s.log, x, ep, k);
    }
    forall t | t in u.idem ensures Backed(t, u.idem[t].episodeId, u.log) {
      var ep := s.idem[t].episodeId;
      var k :| k != "" && t == StorageKey(ep, k) && KeyedEvents(s.log, ep, k) != [];
      OthersKeyed(s.log, x, ep, k);
    }
  }

  /******* Runs *******/

  datatype Step =
    | AppendStep(ep: string, drafts: seq<Draft>, correlation: map<string, Option<string>>, key: string,
                 task: string, env: Env)
    | PurgeStep(x: string)

  function Next(s: State, step: Step): State {
    match step
    case AppendStep(ep, drafts, correlation, key, task, env) =>
      var r := Append(s, ep, drafts, correlation, key, task, env);
      if r.Ok? then r.value.state else s
    case PurgeStep(x) => Purge(s, x)
  }

  ghost predicate Run(ss: seq<State>, steps: seq<Step>) {
    && |ss| == |steps| + 1 && ss[0] == EmptyState
    && forall i | 0 <= i < |steps| ::
         && ss[i + 1] == Next(ss[i], steps[i])
         && (steps[i].AppendStep? ==> !SmugglesKey(steps[i].correlation, steps[i].key))
  }

  lemma {:induction false} RunInv(ss: seq<State>, steps: seq<Step>, i: nat)
    requires Run(ss, steps) && i < |ss|
    ensures Inv(ss[i])
    decreases i
  {
    if i == 0 {
      assert Inv(EmptyState);
    } else {
      hide Inv, Append, Purge;
      RunInv(ss, steps, i - 1);
      match steps[i - 1]
      case AppendStep(ep, drafts, correlation, key, task, env) =>
        if Append(ss[i - 1], ep, drafts, correlation, key, task, env).Ok? {
          AppendKeepsInv(ss[i - 1], ep, drafts, correlation, key, task, env);
        }
      case PurgeStep(x) => PurgeKeepsInv(ss[i - 1], x);
    }
  }

  // Replay from origin rebuilds the projections, the heads and the idempotency table.
  lemma ReplayRebuildsEverything(ss: seq<State>, steps: seq<Step>, i: nat, rebuilt: map<string, IdemRow>)
    requires Run(ss, steps) && i < |ss| && Regrouped(rebuilt, ss[i].log)
    ensures Fold(ss[i].log) == Some(ss[i].p) && ss[i].p.heads == Heads(ss[i].log) && rebuilt == ss[i].idem
    ensures Linked(ss[i].log)
  {
    RunInv(ss, steps, i);
    FoldHeads(ss[i].log);
    RegroupedIsUnique(rebuilt, ss[i].idem, ss[i].log);
  }

  // One step never adds to the batch of a key that already has one.
  lemma StepKeepsBatch(s: State, step: Step, ep: string, key: string)
    requires Inv(s) && key != "" && KeyedEvents(s.log, ep, key) != []
    requires step.AppendStep? ==> !SmugglesKey(step.correlation, step.key)
    requires step.PurgeStep? ==> step.x != ep
    ensures KeyedEvents(Next(s, step).log, ep, key) == KeyedEvents(s.log, ep, key)
  {
    hide Append, LogOk;
    match step
    case AppendStep(ep', drafts, correlation, key', task, env) =>
      if Append(s, ep', drafts, correlation, key', task, env).Ok? {
        AppendAddsBatch(s, ep', drafts, correlation, key', task, env);
        var r := Append(s, ep', drafts, correlation, key', task, env).value;
        if r.state != s {
          KeyedGrows(s, r.state, r.events, ep', Clean(correlation, key'), ep, key);
        }
      }
    case PurgeStep(x) => OthersKeyed(s.log, x, ep, key);
  }

  lemma {:induction false} BatchIsForever(ss: seq<State>, steps: seq<Step>, i: nat, j: nat, ep: string, key: string)
    requires Run(ss, steps) && i <= j < |ss| && key != "" && KeyedEvents(ss[i].log, ep, key) != []
    requires forall k | i <= k < j :: steps[k].PurgeStep? ==> steps[k].x != ep
    ensures KeyedEvents(ss[j].log, ep, key) == KeyedEvents(ss[i].log, ep, key)
    decreases j
  {
    if i < j {
      hide Inv, Next;
      BatchIsForever(ss, steps, i, j - 1, ep, key);
      RunInv(ss, steps, j - 1);
      StepKeepsBatch(ss[j - 1], steps[j - 1], ep, key);
    }
  }

  lemma {:induction false} KeyedAreInLog(log: seq<Event>, ep: string, key: string)
    ensures forall e <- KeyedEvents(log, ep, key) :: e in log
  {
    if log != [] {
      KeyedAreInLog(log[..|log| - 1], ep, key);
      assert forall e <- log[..|log| - 1] :: e in log;
    }
  }

  // Looking a batch up by its ids returns the batch.
  lemma {:induction false} BatchById(log: seq<Event>, ids: seq<string>, ep: string, key: string)
    requires DistinctIds(log)
    requires forall e <- log :: e.body.id in ids <==>
               e.body.episodeId == ep && Lookup(e.body.correlation, KEY) == key
    ensures EventsById(log, ids) == KeyedEvents(log, ep, key)
  {
    if log != [] {
      var n := |log| - 1;
      assert forall e <- log[..n] :: e in log;
      assert log[n] in log;
      BatchById(log[..n], ids, ep, key);
    }
  }

  lemma {:induction false} KeyedIdsAreKeyed(log: seq<Event>, ep: string, key: string)
    requires DistinctIds(log)
    ensures forall e <- log :: e.body.id in Ids(KeyedEvents(log, ep, key)) <==>
              e.body.episodeId == ep && Lookup(e.body.correlation, KEY) == key
  {
    forall i | 0 <= i < |log|
      ensures log[i].body.id in Ids(KeyedEvents(log, ep, key)) <==>
              log[i].body.episodeId == ep && Lookup(log[i].body.correlation, KEY) == key
    {
      KeyedMembership(log, ep, key, i);
    }
  }

  lemma {:induction false} KeyedMembership(log: seq<Event>, ep: string, key: string, i: nat)
    requires DistinctIds(log) && i < |log|
    ensures log[i].body.id in Ids(KeyedEvents(log, ep, key)) <==>
            log[i].body.episodeId == ep && Lookup(log[i].body.correlation, KEY) == key
  {
    var batch := KeyedEvents(log, ep, key);
    KeyedHolds(log, ep, key, i);
    KeyedAreInLog(log, ep, key);
    AllKeyed(log, ep, key);
    if log[i] in batch {
      var j :| 0 <= j < |batch| && batch[j] == log[i];
      assert Ids(batch)[j] == log[i].body.id;
    }
    if log[i].body.id in Ids(batch) {
      var j :| 0 <= j < |batch| && Ids(batch)[j] == log[i].body.id;
      assert batch[j] in log;
    }
  }

  lemma {:induction false} KeyedHolds(log: seq<Event>, ep: string, key: string, i: nat)
    requires i < |log|
    ensures log[i].body.episodeId == ep && Lookup(log[i].body.correlation, KEY) == key ==>
            log[i] in KeyedEvents(log, ep, key)
  {
    if i < |log| - 1 {
      KeyedHolds(log[..|log| - 1], ep, key, i);
    }
  }

  lemma {:induction false} AllKeyed(log: seq<Event>, ep: string, key: string)
    ensures forall e <- KeyedEvents(log, ep, key) ::
      e.body.episodeId == ep && Lookup(e.body.correlation, KEY) == key
  {
    if log != [] {
      AllKeyed(log[..|log| - 1], ep, key);
    }
  }

  // Exactly once: after a keyed append, and until its episode is purged, every later append
  // under the same key changes nothing. It returns the first batch, or is refused when its
  // fingerprint differs; if it asks for a task that is not open it returns no events.
  lemma ExactlyOnce(ss: seq<State>, steps: seq<Step>, i: nat, j: nat, ep: string, key: string,
                    drafts: seq<Draft>, correlation: map<string, Option<string>>, task: string, env: Env)
    requires Run(ss, steps) && i <= j < |ss| && key != "" && KeyedEvents(ss[i].log, ep, key) != []
    requires forall k | i <= k < j :: steps[k].PurgeStep? ==> steps[k].x != ep
    ensures var batch := KeyedEvents(ss[i].log, ep, key);
      && KeyedEvents(ss[j].log, ep, key) == batch
      && Append(ss[j], ep, drafts, correlation, key, task, env)
         == if NothingToDo(ss[j], ep, drafts, task) then Ok(Appended(ss[j], []))
            else if FingerprintClash(batch, Clean(correlation, key)) then Err(KeyReused)
            else Ok(Appended(ss[j], batch))
  {
    hide AppendEach, Linked, Ascending, Fold;
    BatchIsForever(ss, steps, i, j, ep, key);
    RunInv(ss, steps, j);
    var batch := KeyedEvents(ss[j].log, ep, key);
    assert ss[j].idem[StorageKey(ep, key)] == RowFor(ep, batch);
    KeyedIdsAreKeyed(ss[j].log, ep, key);
    BatchById(ss[j].log, Ids(batch), ep, key);
  }

  // What the caller gave under a name; an absent, null or empty entry is nothing.
  function Given(correlation: map<string, Option<string>>, name: string): string {
    if name in correlation && correlation[name].Some? then correlation[name].value else ""
  }

  // The stored correlation is the caller's entries that are not empty, plus the key.
  ghost predicate Carries(stored: map<string, string>, correlation: map<string, Option<string>>, key: string) {
    forall c: string ::
      if c == "idempotency_key" && key != "" then c in stored && stored[c] == key
      else (c in stored <==> Given(correlation, c) != "") && (c in stored ==> stored[c] == Given(correlation, c))
  }

  lemma CleanCarries(correlation: map<string, Option<string>>, key: string)
    ensures Carries(Clean(correlation, key), correlation, key)
  {
  }

  // An append that changes the ledger records its drafts, one event each, numbered on from the
  // log, stamped from its own clock, with what the caller gave.
  lemma AppendRecordsDrafts(s: State, ep: string, drafts: seq<Draft>, correlation: map<string, Option<string>>,
                            key: string, task: string, env: Env, k: nat)
    requires Append(s, ep, drafts, correlation, key, task, env).Ok?
    requires Append(s, ep, drafts, correlation, key, task, env).value.state != s && k < |drafts|
    ensures var r := Append(s, ep, drafts, correlation, key, task, env).value;
      && r.state.log == s.log + r.events && |r.events| == |drafts|
      && var n, body := LastSeq(s.log) + 1 + k, r.events[k].body;
         && body.seq_ == n && body.id == env.ids(n) && body.timestamp == env.stamps(n) && body.episodeId == ep
         && body.payload == drafts[k].payload && body.aggregateId == drafts[k].aggregateId
         && body.causal == drafts[k].causal && Carries(body.correlation, correlation, key)
  {
    hide AppendEach, AppendOne, LogOk, Carries;
    var corr := Clean(correlation, key);
    CleanCarries(correlation, key);
    AppendAddsBatch(s, ep, drafts, correlation, key, task, env);
    EachRecorded(s, ep, drafts, corr, env, k);
  }

  lemma {:induction false} EachRecorded(s: State, ep: string, drafts: seq<Draft>, corr: map<string, string>, env: Env, k: nat)
    requires AppendEach(s, ep, drafts, corr, env).Some? && k < |drafts|
    ensures var log := AppendEach(s, ep, drafts, corr, env).value.log; |log| == |s.log| + |drafts|
    ensures var e := AppendEach(s, ep, drafts, corr, env).value.log[|s.log| + k];
      var n := LastSeq(s.log) + 1 + k;
      e.body == Body(n, env.ids(n), ep, env.stamps(n), drafts[k].aggregateId, corr, drafts[k].causal, drafts[k].payload)
    decreases |drafts|
  {
    hide AppendOne, LastSeq;
    var m := |drafts| - 1;
    var mid := AppendEach(s, ep, drafts[..m], corr, env).value;
    var e := OneRecorded(mid, ep, drafts[m], corr, env);
    if k < m {
      EachRecorded(s, ep, drafts[..m], corr, env, k);
    } else {
      EachNumbered(s, ep, drafts[..m], corr, env);
    }
  }

  lemma {:induction false} EachNumbered(s: State, ep: string, drafts: seq<Draft>, corr: map<string, string>, env: Env)
    requires AppendEach(s, ep, drafts, corr, env).Some?
    ensures LastSeq(AppendEach(s, ep, drafts, corr, env).value.log) == LastSeq(s.log) + |drafts|
    decreases |drafts|
  {
    hide AppendOne;
    if drafts != [] {
      var m := |drafts| - 1;
      EachNumbered(s, ep, drafts[..m], corr, env);
      var e := OneRecorded(AppendEach(s, ep, drafts[..m], corr, env).value, ep, drafts[m], corr, env);
    }
  }

  lemma OneRecorded(s: State, ep: string, d: Draft, corr: map<string, string>, env: Env) returns (e: Event)
    requires AppendOne(s, ep, d, corr, env).Some?
    ensures AppendOne(s, ep, d, corr, env).value.log == s.log + [e]
    ensures var n := LastSeq(s.log) + 1;
      e.body == Body(n, env.ids(n), ep, env.stamps(n), d.aggregateId, corr, d.causal, d.payload)
  {
    hide Apply;
    e := NextEvent(s.log, s.p.heads, ep, d, corr, env);
  }

  // A keyed append that changes the ledger leaves one row under "episode:key", listing the ids of
  // its events in order.
  lemma KeyedAppendLeavesRow(s: State, ep: string, drafts: seq<Draft>, correlation: map<string, Option<string>>,
                             key: string, task: string, env: Env)
    requires Append(s, ep, drafts, correlation, key, task, env).Ok? && key != ""
    requires Append(s, ep, drafts, correlation, key, task, env).value.state != s
    ensures var r := Append(s, ep, drafts, correlation, key, task, env).value;
      && r.events != []
      && exists row :: r.state.idem == s.idem[ep + ":" + key := row]
           && row.episodeId == ep && row.createdAt == r.events[0].body.timestamp
           && |row.ids| == |r.events| && forall i | 0 <= i < |row.ids| :: row.ids[i] == r.events[i].body.id
  {
    hide Append, LogOk;
    AppendAddsBatch(s, ep, drafts, correlation, key, task, env);
    var r := Append(s, ep, drafts, correlation, key, task, env).value;
    var row := RowFor(ep, r.events);
    assert r.state.idem == s.idem[ep + ":" + key := row];
  }

  // What a retry is answered: after a keyed append that changed the ledger, and until its episode
  // is purged, a request under the key that has drafts, and a task that is open if it asks for
  // one, is refused exactly when both requests gave a fingerprint and they differ. Otherwise it
  // gets the first batch back.
  lemma RetryAnswer(ss: seq<State>, steps: seq<Step>, i: nat, j: nat, drafts: seq<Draft>,
                    correlation: map<string, Option<string>>, task: string, env: Env)
    requires Run(ss, steps) && i < j < |ss| && steps[i].AppendStep? && steps[i].key != "" && ss[i + 1] != ss[i]
    requires forall k | i < k < j :: steps[k].PurgeStep? ==> steps[k].x != steps[i].ep
    requires drafts != []
    requires task != "" ==>
      var row := Id(Tasks, task);
      && row in ss[j].p.db && ss[j].p.db[row].episode == steps[i].ep
      && "state" in ss[j].p.db[row].cols && ss[j].p.db[row].cols["state"] == Text("open")
    ensures var f := Given(steps[i].correlation, "idempotency_fingerprint");
      var g := Given(correlation, "idempotency_fingerprint");
      var first := ss[i + 1].log[|ss[i].log|..];
      && |first| == |steps[i].drafts|
      && Append(ss[j], steps[i].ep, drafts, correlation, steps[i].key, task, env)
         == if f != "" && g != "" && f != g then Err(KeyReused) else Ok(Appended(ss[j], first))
  {
    hide AppendEach, Linked, Ascending, Fold, Append, LogOk, Regrouped, KeyedEvents;
    var a := steps[i];
    RunInv(ss, steps, i);
    AppendAddsBatch(ss[i], a.ep, a.drafts, a.correlation, a.key, a.task, a.env);
    KeyedAppendStartsBatch(ss[i], a.ep, a.drafts, a.correlation, a.key, a.task, a.env);
    AppendRecordsDrafts(ss[i], a.ep, a.drafts, a.correlation, a.key, a.task, a.env, 0);
    ExactlyOnce(ss, steps, i + 1, j, a.ep, a.key, drafts, correlation, task, env);
    var first := KeyedEvents(ss[i + 1].log, a.ep, a.key);
    assert ss[i + 1].log[|ss[i].log|..] == first;
    FingerprintsGiven(first, a.correlation, a.key, correlation);
  }

  lemma FingerprintsGiven(first: seq<Event>, given: map<string, Option<string>>, key: string,
                          correlation: map<string, Option<string>>)
    requires first != [] && Carries(first[0].body.correlation, given, key)
    ensures var f, g := Given(given, "idempotency_fingerprint"), Given(correlation, "idempotency_fingerprint");
      FingerprintClash(first, Clean(correlation, key)) <==> f != "" && g != "" && f != g
  {
    CleanCarries(correlation, key);
  }

  // A successful keyed append is what starts such a batch.
  lemma KeyedAppendStartsBatch(s: State, ep: string, drafts: seq<Draft>, correlation: map<string, Option<string>>,
                               key: string, task: string, env: Env)
    requires Inv(s) && key != "" && Append(s, ep, drafts, correlation, key, task, env).Ok?
    requires Append(s, ep, drafts, correlation, key, task, env).value.state != s
    ensures var r := Append(s, ep, drafts, correlation, key, task, env).value;
      KeyedEvents(r.state.log, ep, key) == r.events && |r.events| == |drafts| && r.state.log == s.log + r.events
  {
    hide Append, LogOk;
    AppendAddsBatch(s, ep, drafts, correlation, key, task, env);
    var r := Append(s, ep, drafts, correlation, key, task, env).value;
    UntakenKeyIsUnused(s, ep, key);
    KeyedGrows(s, r.state, r.events, ep, Clean(correlation, key), ep, key);
  }

  // Tamper evidence: two ledgers reached by runs whose verified heads, and so whose chain
  // roots, agree are the same ledger down to every projection row.
  lemma ChainRootDeterminesLedger(ss: seq<State>, steps: seq<Step>, i: nat, tt: seq<State>, more: seq<Step>, j: nat)
    requires Run(ss, steps) && i < |ss| && Run(tt, more) && j < |tt|
    requires Heads(ss[i].log) == Heads(tt[j].log)
    ensures ss[i] == tt[j]
  {
    RunInv(ss, steps, i);
    RunInv(tt, more, j);
    EqualRootsSameLog(ss[i].log, tt[j].log);
    RegroupedIsUnique(ss[i].idem, tt[j].idem, ss[i].log);
  }
}
