/**
 What one append comes to, for every ledger: the batch is built first and folded then, and it is
 the ledger's if and only if every event of it is accepted in turn.
 */
module AppendOutcomes {
  import opened Wrappers
  import opened Sql
  import opened Projections
  import opened LedgerChain
  import opened Ledger

  // The events of a batch, numbered on from the log and each hashed onto the one before, the first
  // onto the head of the episode.
  function Built(s: State, ep: string, drafts: seq<Draft>, stored: map<string, string>, env: Env): (events: seq<Event>)
    ensures |events| == |drafts|
  {
    if drafts == [] then []
    else
      var before := Built(s, ep, drafts[..|drafts| - 1], stored, env);
      var n, last := LastSeq(s.log) + |drafts|, drafts[|drafts| - 1];
      var previous := if before != [] then before[|before| - 1].hash
                      else if ep in s.p.heads then s.p.heads[ep].hash else Zero;
      var body := Body(n, env.ids(n), ep, env.stamps(n), last.aggregateId, stored, last.causal, last.payload);
      before + [Event(body, previous, Link(previous, body))]
  }

  // The identifier that the event at this place of the batch gets.
  function IdAt(s: State, env: Env, k: nat): string {
    env.ids(LastSeq(s.log) + 1 + k)
  }

  // The identifiers of the batch are new, and no two are the same.
  ghost predicate FreshIds(s: State, count: nat, env: Env) {
    forall k: nat | k < count :: FreshId(s, k, env)
  }

  ghost predicate FreshId(s: State, k: nat, env: Env) {
    && (forall i | 0 <= i < |s.log| :: s.log[i].body.id != IdAt(s, env, k))
    && (forall j: nat | j < k :: IdAt(s, env, j) != IdAt(s, env, k))
  }

  lemma {:induction false} BuiltIs(s: State, ep: string, drafts: seq<Draft>, stored: map<string, string>, env: Env, k: nat)
    requires k < |drafts|
    ensures var events, n := Built(s, ep, drafts, stored, env), LastSeq(s.log) + 1 + k;
      events[k].body == Body(n, env.ids(n), ep, env.stamps(n), drafts[k].aggregateId, stored, drafts[k].causal, drafts[k].payload)
    decreases |drafts|
  {
    if k < |drafts| - 1 { BuiltIs(s, ep, drafts[..|drafts| - 1], stored, env, k); }
  }

  // Where a batch leaves the number and the head.
  lemma {:induction false} AfterBatch(s: State, ep: string, drafts: seq<Draft>, stored: map<string, string>, env: Env)
    requires FoldFrom(s.p, Built(s, ep, drafts, stored, env)).Some?
    ensures var events, q := Built(s, ep, drafts, stored, env), FoldFrom(s.p, Built(s, ep, drafts, stored, env)).value;
      && LastSeq(s.log + events) == LastSeq(s.log) + |drafts|
      && HeadHash(q.heads, ep) == if events != [] then events[|events| - 1].hash else HeadHash(s.p.heads, ep)
  {
    hide ExecAll, Statements;
    if drafts == [] {
      assert s.log + [] == s.log;
    } else {
      var events := Built(s, ep, drafts, stored, env);
      assert events[..|events| - 1] == Built(s, ep, drafts[..|drafts| - 1], stored, env);
      BuiltIs(s, ep, drafts, stored, env, |drafts| - 1);
    }
  }

  // Appending one by one is building the batch and folding it.
  lemma {:induction false} EachIsBuilt(s: State, ep: string, drafts: seq<Draft>, stored: map<string, string>, env: Env)
    ensures var events := Built(s, ep, drafts, stored, env);
      AppendEach(s, ep, drafts, stored, env)
      == if FreshIds(s, |drafts|, env) && FoldFrom(s.p, events).Some?
         then Some(State(s.log + events, FoldFrom(s.p, events).value, s.idem)) else None
    decreases |drafts|
  {
    hide Apply, FreshId, LastSeq, HeadHash, AppendOne;
    var events := Built(s, ep, drafts, stored, env);
    if drafts == [] {
      assert s.log + [] == s.log;
    } else {
      var n := |drafts| - 1;
      var init := Built(s, ep, drafts[..n], stored, env);
      EachIsBuilt(s, ep, drafts[..n], stored, env);
      assert events[..n] == init;
      if FoldFrom(s.p, init).Some? && FreshIds(s, n, env) {
        var mid := State(s.log + init, FoldFrom(s.p, init).value, s.idem);
        AfterBatch(s, ep, drafts[..n], stored, env);
        OneMore(s, mid, ep, drafts, stored, env);
        assert mid.log + [events[n]] == s.log + events;
      }
      assert FreshIds(s, n + 1, env) <==> FreshIds(s, n, env) && FreshId(s, n, env);
    }
  }

  lemma OneMore(s: State, mid: State, ep: string, drafts: seq<Draft>, stored: map<string, string>, env: Env)
    requires drafts != []
    requires var init := Built(s, ep, drafts[..|drafts| - 1], stored, env);
      && mid.log == s.log + init && LastSeq(mid.log) == LastSeq(s.log) + |drafts| - 1
      && HeadHash(mid.p.heads, ep) == if init != [] then init[|init| - 1].hash else HeadHash(s.p.heads, ep)
    ensures var e := Built(s, ep, drafts, stored, env)[|drafts| - 1];
      AppendOne(mid, ep, drafts[|drafts| - 1], stored, env)
      == if FreshId(s, |drafts| - 1, env) && Apply(mid.p, e).Some?
         then Some(State(mid.log + [e], Apply(mid.p, e).value, mid.idem)) else None
  {
    hide Apply, LastSeq;
    var n := |drafts| - 1;
    var init := Built(s, ep, drafts[..n], stored, env);
    var e := Built(s, ep, drafts, stored, env)[n];
    assert e == NextEvent(mid.log, mid.p.heads, ep, drafts[n], stored, env);
    IdTaken(s, ep, drafts[..n], stored, env);
  }

  lemma IdTaken(s: State, ep: string, drafts: seq<Draft>, stored: map<string, string>, env: Env)
    ensures HasId(s.log + Built(s, ep, drafts, stored, env), IdAt(s, env, |drafts|)) <==> !FreshId(s, |drafts|, env)
  {
    hide LastSeq, Built;
    var events := Built(s, ep, drafts, stored, env);
    forall k: nat | k < |drafts| ensures events[k].body.id == IdAt(s, env, k) {
      BuiltIs(s, ep, drafts, stored, env, k);
    }
    var all := s.log + events;
    forall i | 0 <= i < |all|
      ensures all[i].body.id == if i < |s.log| then s.log[i].body.id else IdAt(s, env, i - |s.log|)
    {
    }
    if j: nat :| j < |drafts| && IdAt(s, env, j) == IdAt(s, env, |drafts|) {
      assert all[|s.log| + j].body.id == IdAt(s, env, j);
    }
    if i :| 0 <= i < |s.log| && s.log[i].body.id == IdAt(s, env, |drafts|) {
      assert all[i].body.id == s.log[i].body.id;
    }
  }

  // There is something to append, and the task asked for, if any, is open.
  predicate HasWork(s: State, ep: string, drafts: seq<Draft>, task: string) {
    && drafts != []
    && (task == "" || (
         var k := Key(Tasks, [Text(task)]);
         && k in s.p.db && s.p.db[k].episode == ep
         && "state" in s.p.db[k].cols && s.p.db[k].cols["state"] == Text("open")))
  }

  // Without work nothing happens. An append whose key, if it has one, is not recorded is refused
  // whole if an identifier repeats, an event is not accepted, or its row's key is another's;
  // otherwise the log has the batch, the tables its fold, and a key its row.
  lemma AppendOutcome(s: State, ep: string, drafts: seq<Draft>, correlation: map<string, Option<string>>, key: string,
                      task: string, env: Env, stored: map<string, string>)
    requires Carries(stored, correlation, key)
    ensures !HasWork(s, ep, drafts, task) ==>
      Append(s, ep, drafts, correlation, key, task, env) == Ok(Appended(s, []))
    ensures var events, id := Built(s, ep, drafts, stored, env), ep + ":" + key;
      HasWork(s, ep, drafts, task) && (key == "" || id !in s.idem || s.idem[id].episodeId != ep) ==>
        Append(s, ep, drafts, correlation, key, task, env)
        == if FreshIds(s, |drafts|, env) && FoldFrom(s.p, events).Some? && (key == "" || id !in s.idem)
           then Ok(Appended(State(s.log + events, FoldFrom(s.p, events).value,
                                  if key == "" then s.idem
                                  else s.idem[id := IdemRow(ep, seq(|events|, i requires 0 <= i < |events| => events[i].body.id),
                                                            events[0].body.timestamp)]), events))
           else Err(Aborted)
  {
    hide AppendEach, FreshIds, FoldFrom, Built;
    StoredIsClean(stored, correlation, key);
    EachIsBuilt(s, ep, drafts, stored, env);
    var events := Built(s, ep, drafts, stored, env);
    assert (s.log + events)[|s.log|..] == events;
    assert Ids(events) == seq(|events|, i requires 0 <= i < |events| => events[i].body.id);
  }

  lemma StoredIsClean(stored: map<string, string>, correlation: map<string, Option<string>>, key: string)
    requires Carries(stored, correlation, key)
    ensures stored == Clean(correlation, key)
  {
    hide Clean, Carries;
    CleanCarries(correlation, key);
    var clean := Clean(correlation, key);
    forall c: string ensures c in stored <==> c in clean
                     ensures c in stored && c in clean ==> stored[c] == clean[c]
    {
      SameEntry(stored, clean, correlation, key, c);
    }
  }

  lemma SameEntry(a: map<string, string>, b: map<string, string>, correlation: map<string, Option<string>>, key: string, c: string)
    requires Carries(a, correlation, key) && Carries(b, correlation, key)
    ensures c in a <==> c in b
    ensures c in a && c in b ==> a[c] == b[c]
  {
  }
}
