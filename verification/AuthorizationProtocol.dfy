/**
 The permit protocol over whole runs. A world holds the ledger tables the database carries, the
 authorization store and the clients that are between the two transactions of
 `finalize_episode` or `retract_evidence`. Every step is one committed transaction, a crash of
 a client, or an arbitrary ledger commit, so a run is any interleaving with a crash allowed
 between any two transactions.
 */
module AuthorizationProtocol {
  import opened Wrappers
  import opened Authorization

  // A client that has committed its ledger transaction and still owes the revocation.
  datatype Owed = OwesFinalize(episodeId: string) | OwesRetract(belief: string)

  datatype World = World(ledger: LedgerView, store: Store, owed: multiset<Owed>)

  datatype Step =
    | LedgerCommit(next: LedgerView)
    | Approve(approval: ApprovalBinding, id: string, ttl: nat, approved: bool, env: Env)
    | RevokeReceipt(receipt: ReceiptDigest, reason: string, env: Env)
    | Issue(action: ActionBinding, raw: string, ttl: nat, env: Env)
    // `at` is what the consuming store recorded as present when it was opened.
    | Consume(raw: string, presented: ActionBinding, at: Colocated, cb: Callbacks, env: Env)
    | BeginFinalize(episodeId: string)
    | EndFinalize(episodeId: string, rows: seq<TokenDigest>, env: Env)
    | BeginRetract(episodeId: string, belief: string)
    | EndRetract(belief: string, rows: seq<TokenDigest>, env: Env)
    | Crash(client: Owed)

  // One transaction: committed, or rolled back on a constraint violation.
  function Transact(s: Store, events: seq<AuthEvent>, env: Env): Store {
    if ApplyAll(s.tables, events).Some? then Commit(s, events, env) else s
  }

  // The events a step appends to the authorization log.
  function StepEvents(w: World, step: Step): seq<AuthEvent> {
    var t := w.store.tables;
    match step
    case Approve(b, id, ttl, approved, env) => IssueApprovalEvents(t, b, id, ttl, approved, env.now)
    case RevokeReceipt(r, reason, _) => RevokeApprovalEvents(t, r, reason)
    case Issue(b, raw, ttl, env) => IssueActionEvents(t, b, raw, ttl, env.now)
    case Consume(raw, presented, at, cb, env) =>
      ConsumeVerdict(t, at, w.ledger, cb, raw, presented, env.now).events
    case EndFinalize(_, rows, _) => RevocationEvents(rows, "EPISODE_FINALIZED")
    case EndRetract(_, rows, _) => RevocationEvents(rows, "SUPPORT_RETRACTED")
    case _ => []
  }

  ghost predicate Enabled(w: World, step: Step) {
    match step
    case Approve(_, _, ttl, _, _) => ttl > 0
    case Issue(_, _, ttl, _) => ttl > 0
    case BeginFinalize(ep) => w.ledger.episodes.Some? && ep in w.ledger.episodes.value
    case EndFinalize(ep, rows, _) =>
      OwesFinalize(ep) in w.owed && Enumerates(rows, EpisodeDependents(w.store.tables, ep))
    case BeginRetract(ep, b) =>
      && w.ledger.episodes.Some? && EpisodeActive(w.ledger.episodes.value, ep)
      && w.ledger.beliefs.Some? && b in w.ledger.beliefs.value && w.ledger.beliefs.value[b].episodeId == ep
    case EndRetract(b, rows, _) =>
      OwesRetract(b) in w.owed && Enumerates(rows, SupportDependents(w.store.tables, b))
    case Crash(client) => client in w.owed
    case _ => true
  }

  function Next(w: World, step: Step): World
    requires Enabled(w, step)
  {
    match step
    case LedgerCommit(next) => w.(ledger := next)
    case BeginFinalize(ep) =>
      w.(ledger := w.ledger.(episodes := Some(w.ledger.episodes.value[ep := "finalized"])),
         owed := w.owed + multiset{OwesFinalize(ep)})
    case BeginRetract(ep, b) =>
      w.(ledger := w.ledger.(beliefs := Some(w.ledger.beliefs.value[b := BeliefRow(ep, "out")])),
         owed := w.owed + multiset{OwesRetract(b)})
    case Crash(client) => w.(owed := w.owed - multiset{client})
    case EndFinalize(ep, _, env) =>
      w.(store := Transact(w.store, StepEvents(w, step), env), owed := w.owed - multiset{OwesFinalize(ep)})
    case EndRetract(b, _, env) =>
      w.(store := Transact(w.store, StepEvents(w, step), env), owed := w.owed - multiset{OwesRetract(b)})
    case Approve(_, _, _, _, env) => w.(store := Transact(w.store, StepEvents(w, step), env))
    case RevokeReceipt(_, _, env) => w.(store := Transact(w.store, StepEvents(w, step), env))
    case Issue(_, _, _, env) => w.(store := Transact(w.store, StepEvents(w, step), env))
    case Consume(_, _, _, _, env) => w.(store := Transact(w.store, StepEvents(w, step), env))
  }

  // A run from an empty authorization store over any ledger.
  ghost predicate Run(ws: seq<World>, steps: seq<Step>) {
    && |ws| == |steps| + 1
    && ws[0].store == EmptyStore && ws[0].owed == multiset{}
    && forall i :: 0 <= i < |steps| ==> Enabled(ws[i], steps[i]) && ws[i + 1] == Next(ws[i], steps[i])
  }

  /******* When a permit may be consumed *******/

  // Every field but the schema version, which the comparison leaves out.
  predicate SameAction(a: ActionBinding, b: ActionBinding) {
    a == b.(schemaVersion := a.schemaVersion)
  }

  // The receipt was given for this action, field by field.
  predicate GivenFor(a: ApprovalBinding, b: ActionBinding) {
    && a.schemaVersion == 1 && a.episodeId == b.episodeId && a.turnId == b.turnId
    && a.toolNamespace == b.toolNamespace && a.toolName == b.toolName && a.argumentsHash == b.argumentsHash
    && a.target == b.target && a.policyId == b.policyId && a.policyRevision == b.policyRevision
  }

  // A receipt the binding names is there, unused or used up, in time, and given for this action.
  predicate ReceiptGood(t: Tables, b: ActionBinding, now: nat) {
    b.approvalReceipt.None? || b.approvalReceipt.value == OtherText("") || (
      var r := b.approvalReceipt.value;
      && r in t.receipts && t.receipts[r].state in {Issued, Consumed} && now < t.receipts[r].expiresAt
      && GivenFor(t.receipts[r].binding, b))
  }

  predicate SupportsIn(beliefs: map<string, BeliefRow>, b: ActionBinding) {
    forall s <- b.supports :: s in beliefs && beliefs[s].episodeId == b.episodeId && beliefs[s].status == "in"
  }

  predicate NoOpenConflict(conflicts: map<string, ConflictRow>, ep: string) {
    forall c <- conflicts :: conflicts[c].episodeId == ep ==> conflicts[c].state != "open"
  }

  // Every table that can be read agrees, and none has gone missing since the store was opened.
  predicate PremisesHold(v: LedgerView, at: Colocated, b: ActionBinding) {
    && (match v.episodes case Some(episodes) => EpisodeActive(episodes, b.episodeId) case None => !at.episodes)
    && (b.supports != [] ==> match v.beliefs case Some(beliefs) => SupportsIn(beliefs, b) case None => !at.beliefs)
    && (match v.conflicts case Some(conflicts) => NoOpenConflict(conflicts, b.episodeId) case None => !at.conflicts)
  }

  // A table that can be read says no.
  predicate Broken(v: LedgerView, b: ActionBinding) {
    || (v.episodes.Some? && !EpisodeActive(v.episodes.value, b.episodeId))
    || (v.beliefs.Some? && !SupportsIn(v.beliefs.value, b))
    || (v.conflicts.Some? && !NoOpenConflict(v.conflicts.value, b.episodeId))
  }

  predicate Justified(w: World, step: Step)
    requires step.Consume?
  {
    var t, d := w.store.tables, Sha256(step.raw);
    && d in t.decisions
    && t.decisions[d].state == Issued
    && step.env.now < t.decisions[d].expiresAt
    && SameAction(step.presented, t.decisions[d].binding)
    && ReceiptGood(t, t.decisions[d].binding, step.env.now)
    && PremisesHold(w.ledger, step.at, t.decisions[d].binding)
    && step.cb.supports != Some(false) && step.cb.conflicts != Some(false)
  }

  lemma MismatchIffDifferent(expected: ActionBinding, actual: ActionBinding)
    ensures BindingMismatch(expected, actual).None? <==> SameAction(actual, expected)
  {
  }

  function Elements(s: seq<string>): set<string> {
    set x | x in s
  }

  lemma {:induction false} DistinctCount(s: seq<string>)
    requires NoDuplicates(s)
    ensures |Elements(s)| == |s|
  {
    if s != [] {
      var n := |s| - 1;
      DistinctCount(s[..n]);
      assert s == s[..n] + [s[n]];
      assert Elements(s) == Elements(s[..n]) + {s[n]};
      assert s[n] !in s[..n];
    }
  }

  // COUNT(*) == len(ids) says that every support is in, because a stored permit repeats none.
  lemma CountIsEverySupport(beliefs: map<string, BeliefRow>, b: ActionBinding)
    requires NoDuplicates(b.supports)
    ensures |ActiveSupports(beliefs, b)| == |b.supports| <==> SupportsIn(beliefs, b)
  {
    DistinctCount(b.supports);
    var active, all := ActiveSupports(beliefs, b), Elements(b.supports);
    assert active <= all && forall s <- b.supports :: s in all;
    if SupportsIn(beliefs, b) {
      assert active == all;
    } else if |active| == |b.supports| {
      SubsetOfEqualSize(active, all);
    }
  }

  lemma SubsetOfEqualSize(a: set<string>, b: set<string>)
    requires a <= b && |a| == |b|
    ensures a == b
  {
    assert |b - a| == |b| - |a|;
  }

  // The scoped backstop adds nothing to the episode-wide check.
  lemma ClosedIffNoneOpen(conflicts: map<string, ConflictRow>, b: ActionBinding)
    ensures ConflictsClosed(conflicts, b) <==> NoOpenConflict(conflicts, b.episodeId)
  {
    var open := OpenConflicts(conflicts, b.episodeId);
    assert open == {} ==> (set c | c in open && c in b.conflicts) == {};
    assert forall c <- conflicts :: conflicts[c].episodeId == b.episodeId && conflicts[c].state == "open" <==> c in open;
  }

  lemma PremiseVerdictIff(d: TokenDigest, b: ActionBinding, at: Colocated, v: LedgerView, cb: Callbacks)
    requires NoDuplicates(b.supports)
    ensures var verdict := PremiseVerdict(d, b, at, v, cb);
      && (verdict.reason == "CONSUMED" <==>
            PremisesHold(v, at, b) && cb.supports != Some(false) && cb.conflicts != Some(false))
      && (verdict.reason == "CONSUMED" <==> verdict.events == [DecisionConsumed(d, b)])
      && (verdict.reason != "CONSUMED" ==> verdict.events == [DecisionRevoked(d, verdict.reason)])
  {
    hide ActiveSupports, SupportsIn, ConflictsClosed, NoOpenConflict, EpisodeActive;
    if v.beliefs.Some? { CountIsEverySupport(v.beliefs.value, b); }
    if v.conflicts.Some? { ClosedIffNoneOpen(v.conflicts.value, b); }
  }

  lemma ApprovalCheckIff(t: Tables, b: ActionBinding, now: nat)
    ensures ApprovalCheck(t, b, now, true).reason.None? <==> ReceiptGood(t, b, now)
    ensures forall e <- ApprovalCheck(t, b, now, true).events :: e.ReceiptExpired?
    ensures ApprovalCheck(t, b, now, true).reason.Some? ==>
              ApprovalCheck(t, b, now, true).reason.value != "CONSUMED"
  {
    var reason := ApprovalCheck(t, b, now, true).reason;
    assert reason.Some? ==> reason.value[0] == 'A';
  }

  // One Consume transaction: it succeeds exactly when the permit is justified, and only then
  // does it append a CONSUMED event.
  lemma ConsumeIffJustified(w: World, step: Step)
    requires step.Consume? && TablesOk(w.store.tables)
    ensures var verdict := ConsumeVerdict(w.store.tables, step.at, w.ledger, step.cb,
                                          step.raw, step.presented, step.env.now);
      && (verdict.reason == "CONSUMED" <==> Justified(w, step))
      && (Justified(w, step) ==>
            verdict.events == [DecisionConsumed(Sha256(step.raw), w.store.tables.decisions[Sha256(step.raw)].binding)])
      && (!Justified(w, step) ==> forall e <- verdict.events :: Quiet(e))
  {
    hide BindingMismatch, PremiseVerdict, ApprovalCheck, PremisesHold, ReceiptGood;
    var t, d := w.store.tables, Sha256(step.raw);
    if d in t.decisions {
      var b := t.decisions[d].binding;
      MismatchIffDifferent(b, step.presented);
      MismatchIsNotConsumed(b, step.presented);
      ApprovalCheckIff(t, b, step.env.now);
      PremiseVerdictIff(d, b, step.at, w.ledger, step.cb);
    }
  }

  // A table that was there when the store was opened and is missing now fails closed: the permit
  // is not consumed, whatever the callbacks say.
  lemma VanishedTableFailsClosed(w: World, step: Step)
    requires step.Consume? && TablesOk(w.store.tables) && Sha256(step.raw) in w.store.tables.decisions
    requires var b := w.store.tables.decisions[Sha256(step.raw)].binding;
      || (step.at.episodes && w.ledger.episodes.None?)
      || (step.at.beliefs && w.ledger.beliefs.None? && b.supports != [])
      || (step.at.conflicts && w.ledger.conflicts.None?)
    ensures ConsumeVerdict(w.store.tables, step.at, w.ledger, step.cb, step.raw, step.presented, step.env.now).reason
         != "CONSUMED"
  {
    hide ConsumeVerdict, BindingMismatch, ReceiptGood;
    ConsumeIffJustified(w, step);
  }

  // A check that cannot be determined and that no callback answers counts as passed: with a
  // database that never carried the tables, any unexpired permit presented as it was issued,
  // with a good receipt, is consumed.
  lemma UnansweredCheckPasses(w: World, step: Step)
    requires step.Consume? && TablesOk(w.store.tables) && Sha256(step.raw) in w.store.tables.decisions
    requires var decision := w.store.tables.decisions[Sha256(step.raw)];
      && decision.state == Issued && step.env.now < decision.expiresAt
      && SameAction(step.presented, decision.binding) && ReceiptGood(w.store.tables, decision.binding, step.env.now)
    requires w.ledger == LedgerView(None, None, None) && step.at == Colocated(false, false, false)
    requires step.cb == Callbacks(None, None)
    ensures ConsumeVerdict(w.store.tables, step.at, w.ledger, step.cb, step.raw, step.presented, step.env.now).reason
         == "CONSUMED"
  {
    hide ConsumeVerdict, BindingMismatch, ReceiptGood;
    ConsumeIffJustified(w, step);
  }

  lemma MismatchIsNotConsumed(expected: ActionBinding, actual: ActionBinding)
    ensures BindingMismatch(expected, actual) != Some("CONSUMED")
  {
    var reason := BindingMismatch(expected, actual);
    assert reason.Some? ==> |reason.value| > 8;
  }

  /******* The store invariant *******/

  ghost predicate TablesOk(t: Tables) {
    && t.episodes.Keys == t.decisions.Keys
    && (forall d <- t.decisions ::
          && NoDuplicates(t.decisions[d].binding.supports)
          && t.episodes[d] == t.decisions[d].binding.episodeId)
    && (forall d, b :: (d, b) in t.supports <==> d in t.decisions && b in t.decisions[d].binding.supports)
  }

  predicate Cites(t: Tables, d: TokenDigest, r: ReceiptDigest) {
    d in t.decisions && t.decisions[d].binding.NamesReceipt() && t.decisions[d].binding.approvalReceipt.value == r
  }

  // A cited receipt exists, and one that is single use is spent and backs no other permit.
  ghost predicate ReceiptsOk(t: Tables) {
    && (forall d <- t.decisions :: t.decisions[d].binding.NamesReceipt() ==>
          var r := t.decisions[d].binding.approvalReceipt.value;
          r in t.receipts && (SingleUse(t.receipts[r].binding.scope) ==> t.receipts[r].state != Issued))
    && (forall d <- t.decisions, e <- t.decisions :: t.decisions[d].binding.NamesReceipt() ==>
          var r := t.decisions[d].binding.approvalReceipt.value;
          Cites(t, e, r) && SingleUse(t.receipts[r].binding.scope) ==> d == e)
  }

  function ConsumedCount(events: seq<AuthEvent>, d: TokenDigest): nat {
    if events == [] then 0
    else ConsumedCount(events[..|events| - 1], d)
         + (if events[|events| - 1].DecisionConsumed? && events[|events| - 1].token == d then 1 else 0)
  }

  lemma {:induction false} ConsumedCountConcat(a: seq<AuthEvent>, b: seq<AuthEvent>, d: TokenDigest)
    ensures ConsumedCount(a + b, d) == ConsumedCount(a, d) + ConsumedCount(b, d)
  {
    if b == [] {
      assert a + b == a;
    } else {
      assert (a + b)[..|a + b| - 1] == a + b[..|b| - 1];
      ConsumedCountConcat(a, b[..|b| - 1], d);
    }
  }

  function Spent(t: Tables, d: TokenDigest): nat {
    if d in t.decisions && t.decisions[d].state == Consumed then 1 else 0
  }

  ghost predicate CountsOk(s: Store) {
    forall d :: ConsumedCount(Events(s.log), d) == Spent(s.tables, d)
  }

  ghost predicate Inv(s: Store) {
    Mirrors(s) && TablesOk(s.tables) && ReceiptsOk(s.tables) && CountsOk(s)
  }

  // Rows are never deleted or rebound, and a state other than issued is final.
  ghost predicate Advances(t: Tables, u: Tables) {
    && (forall r <- t.receipts ::
          && r in u.receipts
          && u.receipts[r].(state := t.receipts[r].state) == t.receipts[r]
          && (t.receipts[r].state != Issued ==> u.receipts[r] == t.receipts[r]))
    && (forall d <- t.decisions ::
          && d in u.decisions
          && u.decisions[d].(state := t.decisions[d].state) == t.decisions[d]
          && (t.decisions[d].state != Issued ==> u.decisions[d] == t.decisions[d]))
  }

  lemma AdvancesCompose(t: Tables, u: Tables, v: Tables)
    requires Advances(t, u) && Advances(u, v)
    ensures Advances(t, v)
  {
  }

  lemma ApplyAdvances(t: Tables, e: AuthEvent)
    requires Apply(t, e).Some?
    ensures Advances(t, Apply(t, e).value)
  {
  }

  lemma {:induction false} ApplyAllAdvances(t: Tables, events: seq<AuthEvent>)
    requires ApplyAll(t, events).Some?
    ensures Advances(t, ApplyAll(t, events).value)
  {
    hide Apply, Advances;
    if events != [] {
      var init := events[..|events| - 1];
      ApplyAllAdvances(t, init);
      ApplyAdvances(ApplyAll(t, init).value, events[|events| - 1]);
      AdvancesCompose(t, ApplyAll(t, init).value, ApplyAll(t, events).value);
    } else {
      AdvancesRefl(t);
    }
  }

  lemma AdvancesRefl(t: Tables)
    ensures Advances(t, t)
  {
  }

  // No permit was issued: only states moved forward.
  ghost predicate NoNewPermit(t: Tables, u: Tables) {
    && Advances(t, u)
    && u.decisions.Keys == t.decisions.Keys && u.supports == t.supports && u.episodes == t.episodes
  }

  lemma NoNewPermitKeepsTables(t: Tables, u: Tables)
    requires TablesOk(t) && NoNewPermit(t, u)
    ensures TablesOk(u)
  {
    assert forall d <- u.decisions :: u.decisions[d].binding == t.decisions[d].binding;
  }

  lemma NoNewPermitKeeps(t: Tables, u: Tables)
    requires TablesOk(t) && ReceiptsOk(t) && NoNewPermit(t, u)
    ensures TablesOk(u) && ReceiptsOk(u)
  {
    NoNewPermitKeepsTables(t, u);
    assert forall d <- u.decisions :: u.decisions[d].binding == t.decisions[d].binding;
    assert forall r <- t.receipts :: u.receipts[r].binding == t.receipts[r].binding;
    forall d, e | d in u.decisions && e in u.decisions && u.decisions[d].binding.NamesReceipt()
      ensures var r := u.decisions[d].binding.approvalReceipt.value;
              Cites(u, e, r) ==> Cites(t, e, r)
    {
    }
  }

  lemma OnlyIssuesAddPermits(t: Tables, e: AuthEvent)
    requires !e.DecisionIssued? && Apply(t, e).Some?
    ensures NoNewPermit(t, Apply(t, e).value)
  {
    hide Advances;
    ApplyAdvances(t, e);
  }

  // Events that neither issue nor consume.
  predicate Quiet(e: AuthEvent) {
    !e.ReceiptIssued? && !e.DecisionIssued? && !e.DecisionConsumed?
  }

  ghost predicate SameConsumed(t: Tables, u: Tables) {
    forall d <- u.decisions :: u.decisions[d].state == Consumed <==> d in t.decisions && t.decisions[d].state == Consumed
  }

  lemma QuietApply(t: Tables, e: AuthEvent)
    requires Quiet(e)
    ensures Apply(t, e).Some? && NoNewPermit(t, Apply(t, e).value) && SameConsumed(t, Apply(t, e).value)
  {
    ApplyAdvances(t, e);
  }

  lemma {:induction false} QuietFold(t: Tables, events: seq<AuthEvent>)
    requires forall e <- events :: Quiet(e)
    ensures ApplyAll(t, events).Some?
    ensures NoNewPermit(t, ApplyAll(t, events).value) && SameConsumed(t, ApplyAll(t, events).value)
    ensures forall d :: ConsumedCount(events, d) == 0
  {
    hide Apply;
    if events != [] {
      var n := |events| - 1;
      assert forall e <- events[..n] :: e in events;
      QuietFold(t, events[..n]);
      assert events[n] in events;
      QuietApply(ApplyAll(t, events[..n]).value, events[n]);
    }
  }

  // A commit keeps the invariant when it keeps the tables well formed and counts what it spends.
  lemma CommitKeepsInv(s: Store, events: seq<AuthEvent>, env: Env)
    requires Inv(s) && ApplyAll(s.tables, events).Some?
    requires TablesOk(ApplyAll(s.tables, events).value) && ReceiptsOk(ApplyAll(s.tables, events).value)
    requires forall d :: Spent(ApplyAll(s.tables, events).value, d) == Spent(s.tables, d) + ConsumedCount(events, d)
    ensures Inv(Commit(s, events, env))
  {
    hide ApplyAll, Mirrors, TablesOk, ReceiptsOk, ConsumedCount, Spent;
    CommitMirrors(s, events, env);
    forall d ensures ConsumedCount(Events(s.log) + events, d) == Spent(ApplyAll(s.tables, events).value, d) {
      ConsumedCountConcat(Events(s.log), events, d);
    }
  }

  lemma QuietKeepsInv(s: Store, events: seq<AuthEvent>, env: Env)
    requires Inv(s) && forall e <- events :: Quiet(e)
    ensures Inv(Transact(s, events, env))
    ensures ApplyAll(s.tables, events).Some?
    ensures forall d :: ConsumedCount(events, d) == 0
  {
    hide Apply, ApplyAll, Mirrors, Advances, ConsumedCount, CountsOk;
    QuietFold(s.tables, events);
    NoNewPermitKeeps(s.tables, ApplyAll(s.tables, events).value);
    CommitKeepsInv(s, events, env);
  }

  lemma {:induction false} SingleEvent(t: Tables, e: AuthEvent)
    ensures ApplyAll(t, [e]) == Apply(t, e)
    ensures forall d :: ConsumedCount([e], d) == if e.DecisionConsumed? && e.token == d then 1 else 0
  {
    assert [e][..0] == [];
  }

  lemma ApproveKeepsInv(s: Store, e: AuthEvent, env: Env)
    requires Inv(s) && e.ReceiptIssued?
    ensures Inv(Transact(s, [e], env))
    ensures forall d :: ConsumedCount([e], d) == 0
  {
    hide ApplyAll, Mirrors, ConsumedCount, CountsOk;
    SingleEvent(s.tables, e);
    if Apply(s.tables, e).Some? {
      ApplyAdvances(s.tables, e);
      NoNewPermitKeeps(s.tables, Apply(s.tables, e).value);
      CommitKeepsInv(s, [e], env);
    }
  }

  lemma ConsumeKeepsInv(s: Store, e: AuthEvent, env: Env)
    requires Inv(s) && e.DecisionConsumed?
    requires e.token in s.tables.decisions && s.tables.decisions[e.token].state == Issued
    ensures Inv(Transact(s, [e], env))
  {
    hide ApplyAll, Mirrors, ConsumedCount, CountsOk, TablesOk, ReceiptsOk;
    SingleEvent(s.tables, e);
    ApplyAdvances(s.tables, e);
    NoNewPermitKeeps(s.tables, Apply(s.tables, e).value);
    CommitKeepsInv(s, [e], env);
  }

  lemma IssuedTables(t: Tables, e: AuthEvent)
    requires TablesOk(t) && e.DecisionIssued? && Apply(t, e).Some?
    ensures TablesOk(Apply(t, e).value)
  {
    var u := Apply(t, e).value;
    forall d, b ensures (d, b) in u.supports <==> d in u.decisions && b in u.decisions[d].binding.supports {
      assert (d, b) in SupportRows(e.token, e.action.supports) <==> d == e.token && b in e.action.supports;
    }
  }

  lemma IssuedKeepsOthers(t: Tables, e: AuthEvent)
    requires TablesOk(t) && e.DecisionIssued? && Apply(t, e).Some?
    ensures var mid := Apply(t, e).value;
      && mid.receipts == t.receipts && e.token !in t.decisions
      && mid.decisions == t.decisions[e.token := Decision(e.action, e.issuedAt, e.expiresAt, Issued)]
  {
  }

  // The check behind an issue demands a live receipt, so a single-use one had backed nothing.
  lemma IssuedReceipts(t: Tables, d: TokenDigest, decision: Decision, mid: Tables)
    requires ReceiptsOk(t) && d !in t.decisions
    requires mid.receipts == t.receipts && mid.decisions == t.decisions[d := decision]
    requires var b := decision.binding; b.NamesReceipt() ==>
               b.approvalReceipt.value in t.receipts && t.receipts[b.approvalReceipt.value].state == Issued
    ensures ReceiptsOk(AfterUse(t, decision.binding, mid))
  {
    hide Apply, AfterUse, SingleUse;
    var b, u := decision.binding, AfterUse(t, decision.binding, mid);
    AfterUseSpends(t, d, decision, mid);
    forall x, y | x in u.decisions && y in u.decisions && u.decisions[x].binding.NamesReceipt()
      ensures var r := u.decisions[x].binding.approvalReceipt.value;
              Cites(u, y, r) && SingleUse(u.receipts[r].binding.scope) ==> x == y
    {
      var r := u.decisions[x].binding.approvalReceipt.value;
      assert x != d && y != d && Cites(u, y, r) ==> Cites(t, y, r);
    }
  }

  lemma AfterUseSpends(t: Tables, d: TokenDigest, decision: Decision, mid: Tables)
    requires mid.receipts == t.receipts && mid.decisions == t.decisions[d := decision]
    requires var b := decision.binding; b.NamesReceipt() ==>
               b.approvalReceipt.value in t.receipts && t.receipts[b.approvalReceipt.value].state == Issued
    ensures var u := AfterUse(t, decision.binding, mid);
      && u.decisions == mid.decisions && u.receipts.Keys == t.receipts.Keys
      && (forall r <- t.receipts :: u.receipts[r].binding == t.receipts[r].binding)
      && (forall r <- t.receipts :: t.receipts[r].state != Issued ==> u.receipts[r].state != Issued)
      && (decision.binding.NamesReceipt() ==>
            var r := decision.binding.approvalReceipt.value;
            SingleUse(u.receipts[r].binding.scope) ==> u.receipts[r].state != Issued)
  {
  }

  function AfterUse(t: Tables, b: ActionBinding, mid: Tables): Tables {
    if UsesUpReceipt(t, b) then SetReceipt(mid, b.approvalReceipt.value, Consumed) else mid
  }

  // The events of an issue that passes its check, applied.
  lemma IssueApplies(t: Tables, b: ActionBinding, raw: string, ttl: nat, now: nat)
    requires ApprovalCheck(t, b, now, false).reason.None?
    ensures var issued := DecisionIssued(Sha256(raw), b, now, now + ttl * MICROSECONDS);
            ApplyAll(t, IssueActionEvents(t, b, raw, ttl, now))
            == if Apply(t, issued).None? then None else Some(AfterUse(t, b, Apply(t, issued).value))
    ensures forall d :: ConsumedCount(IssueActionEvents(t, b, raw, ttl, now), d) == 0
  {
    var events := IssueActionEvents(t, b, raw, ttl, now);
    SingleEvent(t, events[0]);
    ApplyAllConcat(t, events[..1], events[1..]);
    assert events[..1] == [events[0]] && events == events[..1] + events[1..];
    if UsesUpReceipt(t, b) {
      SingleEvent(Apply(t, events[0]).GetOr(t), events[1]);
      assert events[1..] == [events[1]];
    }
    forall d ensures ConsumedCount(events, d) == 0 {
      ConsumedCountConcat(events[..1], events[1..], d);
    }
  }

  lemma IssueKeepsTables(t: Tables, b: ActionBinding, raw: string, ttl: nat, now: nat)
    requires TablesOk(t) && ReceiptsOk(t) && ApprovalCheck(t, b, now, false).reason.None?
    requires ApplyAll(t, IssueActionEvents(t, b, raw, ttl, now)).Some?
    ensures var u := ApplyAll(t, IssueActionEvents(t, b, raw, ttl, now)).value;
      && TablesOk(u) && ReceiptsOk(u) && SameConsumed(t, u) && t.decisions.Keys <= u.decisions.Keys
  {
    hide Apply, ApplyAll, ReceiptsOk, IssueActionEvents;
    var issued := DecisionIssued(Sha256(raw), b, now, now + ttl * MICROSECONDS);
    IssueApplies(t, b, raw, ttl, now);
    IssuedTables(t, issued);
    IssuedKeepsOthers(t, issued);
    var mid := Apply(t, issued).value;
    IssuedReceipts(t, issued.token, mid.decisions[issued.token], mid);
  }

  lemma IssueKeepsInv(s: Store, b: ActionBinding, raw: string, ttl: nat, env: Env)
    requires Inv(s)
    ensures Inv(Transact(s, IssueActionEvents(s.tables, b, raw, ttl, env.now), env))
    ensures forall d :: ConsumedCount(IssueActionEvents(s.tables, b, raw, ttl, env.now), d) == 0
  {
    hide Apply, ApplyAll, Mirrors, TablesOk, ReceiptsOk, ConsumedCount, CountsOk;
    var t, events := s.tables, IssueActionEvents(s.tables, b, raw, ttl, env.now);
    if ApprovalCheck(t, b, env.now, false).reason.Some? {
      RejectedIssueIsQuiet(t, b, raw, ttl, env.now);
      QuietKeepsInv(s, events, env);
    } else {
      hide IssueActionEvents, ApprovalCheck;
      IssueApplies(t, b, raw, ttl, env.now);
      if ApplyAll(t, events).Some? {
        IssueKeepsTables(t, b, raw, ttl, env.now);
        CommitKeepsInv(s, events, env);
      }
    }
  }

  lemma RejectedIssueIsQuiet(t: Tables, b: ActionBinding, raw: string, ttl: nat, now: nat)
    requires ApprovalCheck(t, b, now, false).reason.Some?
    ensures forall e <- IssueActionEvents(t, b, raw, ttl, now) :: Quiet(e)
  {
  }

  lemma StepKeepsInv(w: World, step: Step)
    requires Inv(w.store) && Enabled(w, step)
    ensures Inv(Next(w, step).store)
    ensures Advances(w.store.tables, Next(w, step).store.tables)
  {
    hide Inv;
    var events := StepEvents(w, step);
    if ApplyAll(w.store.tables, events).Some? {
      ApplyAllAdvances(w.store.tables, events);
    }
    match step
    case Approve(b, id, ttl, approved, env) =>
      if approved { ApproveKeepsInv(w.store, events[0], env); } else { QuietKeepsInv(w.store, events, env); }
    case RevokeReceipt(_, _, env) => QuietKeepsInv(w.store, events, env);
    case Issue(b, raw, ttl, env) => IssueKeepsInv(w.store, b, raw, ttl, env);
    case Consume(_, _, _, _, env) =>
      assert TablesOk(w.store.tables) by { InvTables(w.store); }
      ConsumeIffJustified(w, step);
      if Justified(w, step) { ConsumeKeepsInv(w.store, events[0], env); } else { QuietKeepsInv(w.store, events, env); }
    case EndFinalize(_, _, env) => QuietKeepsInv(w.store, events, env);
    case EndRetract(_, _, env) => QuietKeepsInv(w.store, events, env);
    case _ =>
  }

  lemma InvTables(s: Store)
    requires Inv(s)
    ensures TablesOk(s.tables)
  {
  }

  /******* Theorems over runs *******/

  lemma {:induction false} RunInv(ws: seq<World>, steps: seq<Step>, i: nat)
    requires Run(ws, steps) && i < |ws|
    ensures Inv(ws[i].store)
    decreases i
  {
    if i == 0 {
      assert Events(EmptyStore.log) == [];
    } else {
      RunInv(ws, steps, i - 1);
      StepKeepsInv(ws[i - 1], steps[i - 1]);
    }
  }

  // The live tables always equal the fold of the log, and the log always verifies.
  lemma LiveTablesEqualRebuild(ws: seq<World>, steps: seq<Step>, i: nat)
    requires Run(ws, steps) && i < |ws|
    ensures ApplyAll(EmptyTables, Events(ws[i].store.log)) == Some(ws[i].store.tables)
    ensures Chained(ws[i].store.log)
  {
    RunInv(ws, steps, i);
  }

  lemma {:induction false} TerminalStatesNeverChange(ws: seq<World>, steps: seq<Step>, i: nat, j: nat)
    requires Run(ws, steps) && i <= j < |ws|
    ensures Advances(ws[i].store.tables, ws[j].store.tables)
    decreases j
  {
    hide Inv, Advances, Enabled, Next;
    if i == j {
      AdvancesRefl(ws[i].store.tables);
    } else {
      TerminalStatesNeverChange(ws, steps, i, j - 1);
      RunInv(ws, steps, j - 1);
      StepKeepsInv(ws[j - 1], steps[j - 1]);
      AdvancesCompose(ws[i].store.tables, ws[j - 1].store.tables, ws[j].store.tables);
    }
  }

  lemma ConsumedAtMostOnce(ws: seq<World>, steps: seq<Step>, i: nat, d: TokenDigest)
    requires Run(ws, steps) && i < |ws|
    ensures ConsumedCount(Events(ws[i].store.log), d) <= 1
    ensures ConsumedCount(Events(ws[i].store.log), d) == 1 <==>
            d in ws[i].store.tables.decisions && ws[i].store.tables.decisions[d].state == Consumed
  {
    RunInv(ws, steps, i);
  }

  ghost predicate NewlyConsumed(w: World, v: World, d: TokenDigest) {
    ConsumedCount(Events(v.store.log), d) > ConsumedCount(Events(w.store.log), d)
  }

  lemma StepConsumes(w: World, step: Step, d: TokenDigest)
    requires Inv(w.store) && Enabled(w, step)
    ensures NewlyConsumed(w, Next(w, step), d) <==>
            step.Consume? && Sha256(step.raw) == d && Justified(w, step)
  {
    hide Inv, Justified, ConsumedCount, ApplyAll, AppendAll, Events, ConsumeVerdict, IssueActionEvents;
    var events := StepEvents(w, step);
    match step
    case Approve(_, _, _, approved, env) =>
      if approved { ApproveKeepsInv(w.store, events[0], env); } else { QuietKeepsInv(w.store, events, env); }
      TransactCounts(w.store, events, env, d);
    case RevokeReceipt(_, _, env) => QuietKeepsInv(w.store, events, env); TransactCounts(w.store, events, env, d);
    case Issue(b, raw, ttl, env) => IssueKeepsInv(w.store, b, raw, ttl, env); TransactCounts(w.store, events, env, d);
    case Consume(_, _, _, _, env) =>
      InvTables(w.store);
      ConsumeIffJustified(w, step);
      TransactCounts(w.store, events, env, d);
      if Justified(w, step) {
        SingleEvent(w.store.tables, events[0]);
        assert ApplyAll(w.store.tables, events).Some?;
      } else {
        QuietKeepsInv(w.store, events, env);
      }
    case EndFinalize(_, _, env) => QuietKeepsInv(w.store, events, env); TransactCounts(w.store, events, env, d);
    case EndRetract(_, _, env) => QuietKeepsInv(w.store, events, env); TransactCounts(w.store, events, env, d);
    case _ =>
  }

  lemma TransactCounts(s: Store, events: seq<AuthEvent>, env: Env, d: TokenDigest)
    ensures ConsumedCount(Events(Transact(s, events, env).log), d)
         == ConsumedCount(Events(s.log), d) + if ApplyAll(s.tables, events).Some? then ConsumedCount(events, d) else 0
  {
    AppendAllFacts(s.log, events, env);
    ConsumedCountConcat(Events(s.log), events, d);
  }

  // A CONSUMED event is appended exactly by a Consume transaction that is justified in the
  // state it runs in, and every justified Consume appends one.
  lemma ConsumedExactlyWhenJustified(ws: seq<World>, steps: seq<Step>, i: nat, d: TokenDigest)
    requires Run(ws, steps) && i < |steps|
    ensures NewlyConsumed(ws[i], ws[i + 1], d) <==>
            steps[i].Consume? && Sha256(steps[i].raw) == d && Justified(ws[i], steps[i])
  {
    RunInv(ws, steps, i);
    StepConsumes(ws[i], steps[i], d);
  }

  ghost predicate BlockedBetween(ws: seq<World>, b: ActionBinding, i: nat, j: nat) {
    j <= |ws| && forall k :: i <= k < j ==> Broken(ws[k].ledger, b)
  }

  lemma BlockedLast(ws: seq<World>, b: ActionBinding, i: nat, j: nat)
    requires BlockedBetween(ws, b, i, j) && i < j
    ensures BlockedBetween(ws, b, i, j - 1) && Broken(ws[j - 1].ledger, b)
  {
  }

  // While an episode is finalized, a support is out or a conflict is open, no permit that
  // depends on it is consumed, whether or not the owed revocation ever runs.
  lemma {:induction false} BlockedPermitIsNotConsumed(
    ws: seq<World>, steps: seq<Step>, i: nat, j: nat, d: TokenDigest, b: ActionBinding)
    requires Run(ws, steps) && i <= j < |ws|
    requires d in ws[j].store.tables.decisions && ws[j].store.tables.decisions[d].binding == b
    requires BlockedBetween(ws, b, i, j)
    ensures ConsumedCount(Events(ws[j].store.log), d) == ConsumedCount(Events(ws[i].store.log), d)
    decreases j
  {
    hide Run, BlockedBetween, Broken, ConsumedCount, Events;
    if i < j {
      BlockedLast(ws, b, i, j);
      LastStepBlocked(ws, steps, j, d, b);
      if d in ws[j - 1].store.tables.decisions {
        PermitKeepsBinding(ws, steps, j - 1, j, d);
        BlockedPermitIsNotConsumed(ws, steps, i, j - 1, d, b);
      } else {
        NotYetIssued(ws, steps, i, j - 1, d);
      }
    }
  }

  lemma PermitKeepsBinding(ws: seq<World>, steps: seq<Step>, i: nat, j: nat, d: TokenDigest)
    requires Run(ws, steps) && i <= j < |ws| && d in ws[i].store.tables.decisions
    ensures d in ws[j].store.tables.decisions
    ensures ws[j].store.tables.decisions[d].binding == ws[i].store.tables.decisions[d].binding
  {
    TerminalStatesNeverChange(ws, steps, i, j);
    var was := ws[i].store.tables.decisions[d];
    assert ws[j].store.tables.decisions[d].(state := was.state) == was;
  }

  lemma NotYetIssued(ws: seq<World>, steps: seq<Step>, i: nat, j: nat, d: TokenDigest)
    requires Run(ws, steps) && i <= j < |ws| && d !in ws[j].store.tables.decisions
    ensures ConsumedCount(Events(ws[i].store.log), d) == ConsumedCount(Events(ws[j].store.log), d) == 0
  {
    if d in ws[i].store.tables.decisions {
      PermitKeepsBinding(ws, steps, i, j, d);
    }
    ConsumedAtMostOnce(ws, steps, i, d);
    ConsumedAtMostOnce(ws, steps, j, d);
  }

  lemma LastStepBlocked(ws: seq<World>, steps: seq<Step>, j: nat, d: TokenDigest, b: ActionBinding)
    requires Run(ws, steps) && 0 < j < |ws|
    requires d in ws[j].store.tables.decisions && ws[j].store.tables.decisions[d].binding == b
    requires Broken(ws[j - 1].ledger, b)
    ensures ConsumedCount(Events(ws[j].store.log), d) == ConsumedCount(Events(ws[j - 1].store.log), d)
  {
    hide Broken, ConsumedCount, Events, Justified, Next, Enabled;
    ConsumedExactlyWhenJustified(ws, steps, j - 1, d);
    CountGrows(ws, steps, j - 1, d);
    if d in ws[j - 1].store.tables.decisions {
      PermitKeepsBinding(ws, steps, j - 1, j, d);
    }
    if steps[j - 1].Consume? && Justified(ws[j - 1], steps[j - 1]) {
      JustifiedPremises(ws[j - 1], steps[j - 1]);
    }
  }

  lemma JustifiedPremises(w: World, step: Step)
    requires step.Consume? && Justified(w, step)
    ensures var d := Sha256(step.raw);
            d in w.store.tables.decisions && !Broken(w.ledger, w.store.tables.decisions[d].binding)
  {
    hide ReceiptGood, SupportsIn, NoOpenConflict, EpisodeActive;
    var b := w.store.tables.decisions[Sha256(step.raw)].binding;
    if b.supports == [] && w.ledger.beliefs.Some? { NothingToSupport(w.ledger.beliefs.value, b); }
  }

  lemma NothingToSupport(beliefs: map<string, BeliefRow>, b: ActionBinding)
    requires b.supports == []
    ensures SupportsIn(beliefs, b)
  {
  }

  lemma CountGrows(ws: seq<World>, steps: seq<Step>, i: nat, d: TokenDigest)
    requires Run(ws, steps) && i < |steps|
    ensures ConsumedCount(Events(ws[i].store.log), d) <= ConsumedCount(Events(ws[i + 1].store.log), d)
  {
    ConsumedAtMostOnce(ws, steps, i, d);
    ConsumedAtMostOnce(ws, steps, i + 1, d);
    TerminalStatesNeverChange(ws, steps, i, i + 1);
  }

  // Once the second transaction of finalize or retract has run, every dependent permit it
  // found is dead for the rest of the run, even if the ledger later readmits the premise.
  lemma RevokedDependentsStayDead(ws: seq<World>, steps: seq<Step>, i: nat, j: nat, d: TokenDigest)
    requires Run(ws, steps) && i < j < |ws| && d in ws[i].store.tables.decisions
    requires (steps[i].EndFinalize? && ws[i].store.tables.decisions[d].binding.episodeId == steps[i].episodeId)
          || (steps[i].EndRetract? && steps[i].belief in ws[i].store.tables.decisions[d].binding.supports)
    ensures d in ws[j].store.tables.decisions && ws[j].store.tables.decisions[d].state != Issued
    ensures ConsumedCount(Events(ws[j].store.log), d) == ConsumedCount(Events(ws[i].store.log), d)
  {
    hide Next, Enabled, Advances, Inv, ConsumedCount, Events;
    RunInv(ws, steps, i);
    InvTables(ws[i].store);
    EndSettles(ws[i], steps[i], d);
    ConsumedExactlyWhenJustified(ws, steps, i, d);
    CountGrows(ws, steps, i, d);
    SettledStays(ws, steps, i + 1, j, d);
  }

  lemma EndSettles(w: World, step: Step, d: TokenDigest)
    requires Enabled(w, step) && TablesOk(w.store.tables) && d in w.store.tables.decisions
    requires (step.EndFinalize? && w.store.tables.decisions[d].binding.episodeId == step.episodeId)
          || (step.EndRetract? && step.belief in w.store.tables.decisions[d].binding.supports)
    ensures d in Next(w, step).store.tables.decisions
    ensures Next(w, step).store.tables.decisions[d].state != Issued
  {
    hide ApplyAll;
    var t, reason := w.store.tables, if step.EndFinalize? then "EPISODE_FINALIZED" else "SUPPORT_RETRACTED";
    RevocationsApply(t, step.rows, reason);
    if t.decisions[d].state == Issued {
      assert step.EndFinalize? ==> d in EpisodeDependents(t, step.episodeId);
      assert step.EndRetract? ==> (d, step.belief) in t.supports && d in SupportDependents(t, step.belief);
    }
  }

  lemma SettledStays(ws: seq<World>, steps: seq<Step>, i: nat, j: nat, d: TokenDigest)
    requires Run(ws, steps) && i <= j < |ws| && d in ws[i].store.tables.decisions
    requires ws[i].store.tables.decisions[d].state != Issued
    ensures d in ws[j].store.tables.decisions
    ensures ws[j].store.tables.decisions[d] == ws[i].store.tables.decisions[d]
    ensures ConsumedCount(Events(ws[j].store.log), d) == ConsumedCount(Events(ws[i].store.log), d)
  {
    hide Run;
    TerminalStatesNeverChange(ws, steps, i, j);
    ConsumedAtMostOnce(ws, steps, i, d);
    ConsumedAtMostOnce(ws, steps, j, d);
  }

  // A single-use or exact-action receipt backs at most one issued permit.
  lemma ReceiptBacksOnePermit(ws: seq<World>, steps: seq<Step>, i: nat, d: TokenDigest, e: TokenDigest,
                              r: ReceiptDigest)
    requires Run(ws, steps) && i < |ws|
    requires d in ws[i].store.tables.decisions && e in ws[i].store.tables.decisions
    requires Cites(ws[i].store.tables, d, r) && Cites(ws[i].store.tables, e, r)
    ensures r in ws[i].store.tables.receipts
    ensures SingleUse(ws[i].store.tables.receipts[r].binding.scope) ==> d == e
  {
    RunInv(ws, steps, i);
  }

  /******* Finalized for good *******/

  // What the projection handlers can do to the episode table outside a purge: a row stays, and
  // none that has ended becomes active again.
  predicate HandlersOnly(before: LedgerView, after: LedgerView) {
    before.episodes.Some? ==>
      && after.episodes.Some?
      && forall ep <- before.episodes.value ::
           ep in after.episodes.value
           && (EpisodeActive(after.episodes.value, ep) ==> EpisodeActive(before.episodes.value, ep))
  }

  predicate Ended(v: LedgerView, ep: string) {
    v.episodes.Some? && ep in v.episodes.value && !EpisodeActive(v.episodes.value, ep)
  }

  lemma {:induction false} StaysEnded(ws: seq<World>, steps: seq<Step>, i: nat, j: nat, ep: string)
    requires Run(ws, steps) && i <= j < |ws| && Ended(ws[i].ledger, ep)
    requires forall k | i <= k < j && steps[k].LedgerCommit? :: HandlersOnly(ws[k].ledger, ws[k + 1].ledger)
    ensures Ended(ws[j].ledger, ep)
    decreases j
  {
    if i < j {
      StaysEnded(ws, steps, i, j - 1, ep);
    }
  }

  // Once the first transaction of finalize has committed, no permit of the episode is ever
  // consumed, whether it was issued before or is issued later, and whether or not the second
  // transaction ever runs.
  lemma NothingConsumedAfterFinalize(ws: seq<World>, steps: seq<Step>, i: nat, j: nat, d: TokenDigest)
    requires Run(ws, steps) && i < j < |ws| && steps[i].BeginFinalize?
    requires forall k | i < k < j && steps[k].LedgerCommit? :: HandlersOnly(ws[k].ledger, ws[k + 1].ledger)
    requires d in ws[j].store.tables.decisions
    requires ws[j].store.tables.decisions[d].binding.episodeId == steps[i].episodeId
    ensures ConsumedCount(Events(ws[j].store.log), d) == ConsumedCount(Events(ws[i + 1].store.log), d)
  {
    hide Run, ConsumedCount, Events;
    var b := ws[j].store.tables.decisions[d].binding;
    FinalizeEnds(ws, steps, i);
    forall k | i + 1 <= k < j ensures Broken(ws[k].ledger, b) { StaysEnded(ws, steps, i + 1, k, b.episodeId); }
    BlockedPermitIsNotConsumed(ws, steps, i + 1, j, d, b);
  }

  lemma FinalizeEnds(ws: seq<World>, steps: seq<Step>, i: nat)
    requires Run(ws, steps) && i + 1 < |ws| && steps[i].BeginFinalize?
    ensures Ended(ws[i + 1].ledger, steps[i].episodeId)
  {
  }

  /******* The comment and the code *******/

  function SampleAction(): ActionBinding {
    ActionBinding(1, "ep", "turn", "", "tool", "args", "", "policy", "1", 1, "", "", "low", ["belief"], [], None)
  }

  function SampleSteps(env: Env): seq<Step> {
    [Issue(SampleAction(), "token", 10, env),
     Consume("token", SampleAction(), Colocated(false, false, false), Callbacks(None, None), env)]
  }

  function SampleStart(): World {
    World(LedgerView(None, None, None), EmptyStore, multiset{})
  }

  // A run in which a permit with a support is consumed although no table could be read and no
  // callback was given: nobody verified the support.
  lemma UnverifiedSupportIsConsumed(env: Env)
    ensures var steps := SampleSteps(env);
      && Enabled(SampleStart(), steps[0])
      && var issued := Next(SampleStart(), steps[0]);
        && Enabled(issued, steps[1])
        && var w := Next(issued, steps[1]);
          && Run([SampleStart(), issued, w], steps)
          && ConsumedCount(Events(w.store.log), Sha256("token")) == 1
  {
    hide ConsumeVerdict, ConsumedCount, Events, SameAction, ReceiptGood;
    var steps, d := SampleSteps(env), Sha256("token");
    var issued := Next(SampleStart(), steps[0]);
    var ws := [SampleStart(), issued, Next(issued, steps[1])];
    assert Run(ws, steps);
    SampleIsIssued(env);
    RunInv(ws, steps, 1);
    InvTables(issued.store);
    ConsumedExactlyWhenJustified(ws, steps, 1, d);
    SampleIsGood(issued, env);
    ConsumedAtMostOnce(ws, steps, 2, d);
  }

  lemma SampleIsGood(w: World, env: Env)
    ensures SameAction(SampleAction(), SampleAction()) && ReceiptGood(w.store.tables, SampleAction(), env.now)
  {
  }

  lemma SampleIsIssued(env: Env)
    ensures Enabled(SampleStart(), SampleSteps(env)[0])
    ensures var t := Next(SampleStart(), SampleSteps(env)[0]).store.tables;
      && Sha256("token") in t.decisions
      && t.decisions[Sha256("token")] == Decision(SampleAction(), env.now, env.now + 10 * MICROSECONDS, Issued)
  {
    var events := IssueActionEvents(EmptyTables, SampleAction(), "token", 10, env.now);
    SingleEvent(EmptyTables, events[0]);
    assert events == [events[0]];
  }
}
