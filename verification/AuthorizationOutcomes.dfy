/**
 What each authorization transaction leaves behind: which events it appends and which rows, with
 which states and times, said of the request and of the tables before it.
 */
module AuthorizationOutcomes {
  import opened Wrappers
  import opened Authorization
  import opened AuthorizationProtocol
  import C = AuthorizationCompaction
  import U = AuthorizationPurge

  // What a step appended to the authorization log.
  function Appended(w: World, v: World): seq<AuthEvent>
    requires |w.store.log| <= |v.store.log|
  {
    Events(v.store.log)[|w.store.log|..]
  }

  // A binding that names a receipt names one that is there, unused, unexpired and given for it.
  predicate ReceiptUsable(t: Tables, b: ActionBinding, now: nat) {
    b.approvalReceipt.None? || b.approvalReceipt.value == OtherText("") || (
      var r := b.approvalReceipt.value;
      && r in t.receipts && t.receipts[r].state == Issued && now < t.receipts[r].expiresAt
      && GivenFor(t.receipts[r].binding, b))
  }

  // No decision, support or episode row for the token yet, and no support named twice.
  predicate NoRowRepeats(t: Tables, b: ActionBinding, d: TokenDigest) {
    && d !in t.decisions && d !in t.episodes
    && (forall i, j | 0 <= i < j < |b.supports| :: b.supports[i] != b.supports[j])
    && (forall s <- b.supports :: (d, s) !in t.supports)
  }

  // The named receipt is good for one permit only.
  predicate SpendsReceipt(t: Tables, b: ActionBinding) {
    && b.approvalReceipt.Some? && b.approvalReceipt.value in t.receipts
    && b.approvalReceipt.value != OtherText("")
    && t.receipts[b.approvalReceipt.value].binding.scope in {"single_use", "exact_action"}
  }

  // The named receipt is there, unused, and past its time.
  predicate ReceiptLapsed(t: Tables, b: ActionBinding, now: nat) {
    && b.approvalReceipt.Some? && b.approvalReceipt.value in t.receipts
    && b.approvalReceipt.value != OtherText("")
    && t.receipts[b.approvalReceipt.value].state == Issued && now >= t.receipts[b.approvalReceipt.value].expiresAt
  }

  // Why a receipt cannot be used.
  function ReceiptRefusal(t: Tables, b: ActionBinding, now: nat): string
    requires !ReceiptUsable(t, b, now)
  {
    var r := b.approvalReceipt.value;
    if r !in t.receipts then "APPROVAL_NOT_FOUND"
    else match t.receipts[r].state
         case Consumed => "APPROVAL_CONSUMED"
         case Expired => "APPROVAL_EXPIRED"
         case Revoked => "APPROVAL_REVOKED"
         case Issued => if now >= t.receipts[r].expiresAt then "APPROVAL_EXPIRED" else "APPROVAL_BINDING_MISMATCH"
  }

  /******* Issue *******/

  lemma CheckForIssue(t: Tables, b: ActionBinding, now: nat)
    ensures ApprovalCheck(t, b, now, false).reason.None? <==> ReceiptUsable(t, b, now)
    ensures !ReceiptUsable(t, b, now) ==>
      && ApprovalCheck(t, b, now, false).reason == Some(ReceiptRefusal(t, b, now))
      && ApprovalCheck(t, b, now, false).events
         == if ReceiptLapsed(t, b, now) then [ReceiptExpired(b.approvalReceipt.value)] else []
  {
    Spelled();
  }

  lemma Spelled()
    ensures "APPROVAL_" + "CONSUMED" == "APPROVAL_CONSUMED" && "APPROVAL_" + "EXPIRED" == "APPROVAL_EXPIRED"
    ensures "APPROVAL_" + "REVOKED" == "APPROVAL_REVOKED"
    ensures "TOKEN_" + "CONSUMED" == "TOKEN_CONSUMED" && "TOKEN_" + "EXPIRED" == "TOKEN_EXPIRED"
    ensures "TOKEN_" + "REVOKED" == "TOKEN_REVOKED"
  {
  }

  // An issue that is granted: the new row is issued, carries the binding and runs for the time
  // asked; its supports and episode are listed, and a single-use receipt is spent.
  lemma GrantedIssue(w: World, step: Step)
    requires step.Issue? && Enabled(w, step)
    requires ReceiptUsable(w.store.tables, step.action, step.env.now)
    requires NoRowRepeats(w.store.tables, step.action, Sha256(step.raw))
    ensures var t, u, b := w.store.tables, Next(w, step).store.tables, step.action;
      && |w.store.log| <= |Next(w, step).store.log|
      && Appended(w, Next(w, step))
         == [DecisionIssued(Sha256(step.raw), b, step.env.now, step.env.now + step.ttl * 1_000_000)]
            + (if SpendsReceipt(t, b) then [ReceiptConsumed(b.approvalReceipt.value)] else [])
      && u.decisions == t.decisions[Sha256(step.raw) :=
           Decision(b, step.env.now, step.env.now + step.ttl * 1_000_000, Issued)]
      && (forall d, s :: (d, s) in u.supports <==> (d, s) in t.supports || (d == Sha256(step.raw) && s in b.supports))
      && u.episodes == t.episodes[Sha256(step.raw) := b.episodeId]
      && u.receipts == (if SpendsReceipt(t, b)
                        then t.receipts[b.approvalReceipt.value := t.receipts[b.approvalReceipt.value].(state := Consumed)]
                        else t.receipts)
  {
    hide ApprovalCheck, AppendAll, Events;
    var t, b, events := w.store.tables, step.action, StepEvents(w, step);
    CheckForIssue(t, b, step.env.now);
    IssueApplies(t, b, step.raw, step.ttl, step.env.now);
    AppendAllFacts(w.store.log, events, step.env);
    AppendedIs(w, Next(w, step), events);
  }

  lemma AppendedIs(w: World, v: World, events: seq<AuthEvent>)
    requires Events(v.store.log) == Events(w.store.log) + events
    ensures |w.store.log| <= |v.store.log| && Appended(w, v) == events
  {
  }

  // One whose row would repeat is rolled back whole.
  lemma RepeatedIssue(w: World, step: Step)
    requires step.Issue? && Enabled(w, step)
    requires ReceiptUsable(w.store.tables, step.action, step.env.now)
    requires !NoRowRepeats(w.store.tables, step.action, Sha256(step.raw))
    ensures Next(w, step).store == w.store
  {
    hide ApprovalCheck, AppendAll, Events;
    CheckForIssue(w.store.tables, step.action, step.env.now);
    IssueApplies(w.store.tables, step.action, step.raw, step.ttl, step.env.now);
  }

  // One whose receipt is no good leaves the rejection, and expires the receipt exactly when it
  // is past its time.
  lemma RefusedIssue(w: World, step: Step)
    requires step.Issue? && Enabled(w, step)
    requires !ReceiptUsable(w.store.tables, step.action, step.env.now)
    ensures var t, u, b := w.store.tables, Next(w, step).store.tables, step.action;
      && |w.store.log| <= |Next(w, step).store.log|
      && Appended(w, Next(w, step))
         == (if ReceiptLapsed(t, b, step.env.now) then [ReceiptExpired(b.approvalReceipt.value)] else [])
            + [DecisionRejected(Sha256(step.raw), ReceiptRefusal(t, b, step.env.now), Some(b))]
      && u == if ReceiptLapsed(t, b, step.env.now)
              then t.(receipts := t.receipts[b.approvalReceipt.value := t.receipts[b.approvalReceipt.value].(state := Expired)])
              else t
  {
    hide ApprovalCheck, AppendAll, Events;
    var t, b, events := w.store.tables, step.action, StepEvents(w, step);
    CheckForIssue(t, b, step.env.now);
    var rejected := DecisionRejected(Sha256(step.raw), ReceiptRefusal(t, b, step.env.now), Some(b));
    if ReceiptLapsed(t, b, step.env.now) {
      TwoEvents(t, ReceiptExpired(b.approvalReceipt.value), rejected);
    } else {
      SingleEvent(t, rejected);
      assert events == [rejected];
    }
    AppendAllFacts(w.store.log, events, step.env);
    AppendedIs(w, Next(w, step), events);
  }

  lemma TwoEvents(t: Tables, e: AuthEvent, f: AuthEvent)
    requires Apply(t, e).Some?
    ensures ApplyAll(t, [e] + [f]) == Apply(Apply(t, e).value, f)
  {
    ApplyAllConcat(t, [e], [f]);
    SingleEvent(t, e);
    SingleEvent(Apply(t, e).value, f);
  }

  // A permit comes into being by an issue that is granted, and by nothing else.
  ghost predicate NewlyIssued(w: World, v: World, d: TokenDigest) {
    |w.store.log| <= |v.store.log| && exists e <- Appended(w, v) :: e.DecisionIssued? && e.token == d
  }

  lemma IssuedExactlyWhenGranted(ws: seq<World>, steps: seq<Step>, i: nat, d: TokenDigest)
    requires Run(ws, steps) && i < |steps|
    ensures NewlyIssued(ws[i], ws[i + 1], d) <==>
      && steps[i].Issue? && Sha256(steps[i].raw) == d
      && ReceiptUsable(ws[i].store.tables, steps[i].action, steps[i].env.now)
      && NoRowRepeats(ws[i].store.tables, steps[i].action, d)
    ensures NewlyIssued(ws[i], ws[i + 1], d) <==>
      d !in ws[i].store.tables.decisions && d in ws[i + 1].store.tables.decisions
  {
    hide Next, Enabled, ReceiptUsable, NoRowRepeats, StepEvents, Events, Appended;
    RunStep(ws, steps, i);
    var w, step := ws[i], steps[i];
    if step.Issue? {
      if !ReceiptUsable(w.store.tables, step.action, step.env.now) {
        RefusedIssue(w, step);
      } else if NoRowRepeats(w.store.tables, step.action, Sha256(step.raw)) {
        GrantedIssue(w, step);
        NotThereYet(w.store.tables, step.action, Sha256(step.raw));
      } else {
        RepeatedIssue(w, step);
        NothingAppended(w);
        Unmoved(w, ws[i + 1]);
      }
    } else {
      OthersIssueNone(w, step);
    }
  }

  lemma RunStep(ws: seq<World>, steps: seq<Step>, i: nat)
    requires Run(ws, steps) && i < |steps|
    ensures Enabled(ws[i], steps[i]) && ws[i + 1] == Next(ws[i], steps[i])
  {
    hide Enabled, Next;
  }

  lemma NotThereYet(t: Tables, b: ActionBinding, d: TokenDigest)
    ensures NoRowRepeats(t, b, d) ==> d !in t.decisions
  {
  }

  lemma NothingAppended(w: World)
    ensures Appended(w, w) == []
  {
  }

  lemma Unmoved(w: World, v: World)
    requires v.store == w.store
    ensures |w.store.log| <= |v.store.log| && Appended(w, v) == []
  {
  }

  lemma OthersIssueNone(w: World, step: Step)
    requires Enabled(w, step) && !step.Issue?
    ensures forall d :: !NewlyIssued(w, Next(w, step), d)
    ensures Next(w, step).store.tables.decisions.Keys == w.store.tables.decisions.Keys
  {
    hide Next, Enabled, ApplyAll, StepEvents, Events, Appended;
    U.NextTables(w, step);
    U.OnlyIssueIssues(w, step);
    if Next(w, step).store == w.store {
      Unmoved(w, Next(w, step));
    } else {
      U.NoIssueNoPermit(w.store.tables, StepEvents(w, step));
      AppendedIs(w, Next(w, step), StepEvents(w, step));
    }
  }

  /******* Receipts *******/

  // An approval adds one live receipt for its binding, running for the time asked.
  lemma ApprovalGranted(w: World, step: Step)
    requires step.Approve? && step.approved && Enabled(w, step)
    ensures var t, v, r := w.store.tables, Next(w, step), ReceiptHash(step.id, step.approval);
      && (r in t.receipts ==> v.store == w.store)
      && (r !in t.receipts ==>
            && |w.store.log| <= |v.store.log|
            && Appended(w, v) == [ReceiptIssued(r, step.approval, step.env.now, step.env.now + step.ttl * 1_000_000)]
            && v.store.tables == t.(receipts := t.receipts[r :=
                 Receipt(step.approval, step.env.now, step.env.now + step.ttl * 1_000_000, Issued)]))
  {
    hide AppendAll, Events;
    SingleEvent(w.store.tables, StepEvents(w, step)[0]);
    AppendAllFacts(w.store.log, StepEvents(w, step), step.env);
    assert StepEvents(w, step) == [StepEvents(w, step)[0]];
    if ReceiptHash(step.id, step.approval) !in w.store.tables.receipts {
      AppendedIs(w, Next(w, step), StepEvents(w, step));
    }
  }

  // A denial kills every live receipt of its binding, no other, and says how many.
  lemma ApprovalDenied(w: World, step: Step)
    requires step.Approve? && !step.approved && Enabled(w, step)
    ensures var t, u := w.store.tables, Next(w, step).store.tables;
      && u == t.(receipts := u.receipts) && u.receipts.Keys == t.receipts.Keys
      && (forall r <- t.receipts :: u.receipts[r] ==
            if t.receipts[r].binding == step.approval && t.receipts[r].state == Issued
            then t.receipts[r].(state := Revoked) else t.receipts[r])
      && |w.store.log| <= |Next(w, step).store.log|
      && Appended(w, Next(w, step)) == [ReceiptDenied(ReceiptHash(step.id, step.approval), step.approval,
           |set r | r in t.receipts && u.receipts[r] != t.receipts[r]|)]
  {
    hide AppendAll, Events;
    var t := w.store.tables;
    SingleEvent(t, StepEvents(w, step)[0]);
    AppendAllFacts(w.store.log, StepEvents(w, step), step.env);
    assert StepEvents(w, step) == [StepEvents(w, step)[0]];
    AppendedIs(w, Next(w, step), StepEvents(w, step));
    var u := Next(w, step).store.tables;
    assert (set r | r in t.receipts && u.receipts[r] != t.receipts[r]) == LiveReceipts(t, step.approval);
  }

  lemma ReceiptWithdrawn(w: World, step: Step)
    requires step.RevokeReceipt? && Enabled(w, step)
    ensures var t, v, r := w.store.tables, Next(w, step), step.receipt;
      if r in t.receipts && t.receipts[r].state == Issued then
        && |w.store.log| <= |v.store.log| && Appended(w, v) == [ReceiptRevoked(r, step.reason)]
        && v.store.tables == t.(receipts := t.receipts[r := t.receipts[r].(state := Revoked)])
      else v.store == w.store
  {
    hide AppendAll, Events;
    var t, events := w.store.tables, StepEvents(w, step);
    if events != [] {
      SingleEvent(t, events[0]);
      assert events == [events[0]];
      AppendAllFacts(w.store.log, events, step.env);
      AppendedIs(w, Next(w, step), events);
    } else {
      NothingCommitted(w.store, step.env);
    }
  }

  lemma NothingCommitted(s: Store, env: Env)
    ensures ApplyAll(s.tables, []) == Some(s.tables) && AppendAll(s.log, [], env) == s.log
  {
  }

  /******* Bulk revocation *******/

  // The permits that die: those issued and meant.
  ghost predicate Dies(t: Tables, step: Step, d: TokenDigest)
    requires d in t.decisions
  {
    && t.decisions[d].state == Issued
    && (step.EndFinalize? ==> t.decisions[d].binding.episodeId == step.episodeId)
    && (step.EndRetract? ==> step.belief in t.decisions[d].binding.supports)
  }

  // The second transaction of finalize or retract revokes exactly the issued permits of the
  // episode, or those naming the belief, each with one event that says why.
  lemma DependentsRevoked(w: World, step: Step)
    requires (step.EndFinalize? || step.EndRetract?) && Enabled(w, step) && Inv(w.store)
    ensures var t, v := w.store.tables, Next(w, step);
      && v.store.tables == t.(decisions := v.store.tables.decisions)
      && v.store.tables.decisions.Keys == t.decisions.Keys
      && (forall d <- t.decisions :: v.store.tables.decisions[d]
            == if Dies(t, step, d) then t.decisions[d].(state := Revoked) else t.decisions[d])
      && |w.store.log| <= |v.store.log|
      && (forall i | 0 <= i < |Appended(w, v)| ::
            Appended(w, v)[i].DecisionRevoked?
            && Appended(w, v)[i].reason == if step.EndFinalize? then "EPISODE_FINALIZED" else "SUPPORT_RETRACTED")
      && (forall i, j | 0 <= i < j < |Appended(w, v)| :: Appended(w, v)[i] != Appended(w, v)[j])
      && (forall d <- t.decisions :: Dies(t, step, d) <==>
            exists i | 0 <= i < |Appended(w, v)| :: Appended(w, v)[i].token == d)
  {
    hide ApplyAll, AppendAll, Events, Mirrors, ReceiptsOk, CountsOk;
    var t, reason := w.store.tables, if step.EndFinalize? then "EPISODE_FINALIZED" else "SUPPORT_RETRACTED";
    RevocationsApply(t, step.rows, reason);
    AppendAllFacts(w.store.log, StepEvents(w, step), step.env);
    AppendedIs(w, Next(w, step), StepEvents(w, step));
    forall d | d in t.decisions ensures d in step.rows <==> Dies(t, step, d) {
      assert step.EndFinalize? ==> t.episodes[d] == t.decisions[d].binding.episodeId;
      assert step.EndRetract? ==> ((d, step.belief) in t.supports <==> step.belief in t.decisions[d].binding.supports);
    }
    var added := StepEvents(w, step);
    forall d | d in t.decisions ensures d in step.rows <==> exists i | 0 <= i < |added| :: added[i].token == d {
      if d in step.rows {
        var i :| 0 <= i < |step.rows| && step.rows[i] == d;
        assert added[i].token == d;
      }
    }
  }

  /******* Consume *******/

  // The fields a presented binding is compared in, in order, and what a difference is called.
  const MISMATCHES: seq<string> := [
    "EPISODE_MISMATCH", "TURN_MISMATCH", "TOOL_NAMESPACE_MISMATCH", "TOOL_NAME_MISMATCH", "ARGUMENTS_MISMATCH",
    "TARGET_MISMATCH", "POLICY_MISMATCH", "POLICY_REVISION_MISMATCH", "CANONICALIZATION_MISMATCH",
    "POLICY_CONTENT_DRIFT", "CONFIG_CONTENT_DRIFT", "STAKES_MISMATCH", "SUPPORT_BINDING_MISMATCH",
    "CONFLICT_BINDING_MISMATCH", "APPROVAL_RECEIPT_MISMATCH"]

  predicate DiffersIn(a: ActionBinding, b: ActionBinding, field: nat) {
    || (field == 0 && a.episodeId != b.episodeId)
    || (field == 1 && a.turnId != b.turnId)
    || (field == 2 && a.toolNamespace != b.toolNamespace)
    || (field == 3 && a.toolName != b.toolName)
    || (field == 4 && a.argumentsHash != b.argumentsHash)
    || (field == 5 && a.target != b.target)
    || (field == 6 && a.policyId != b.policyId)
    || (field == 7 && a.policyRevision != b.policyRevision)
    || (field == 8 && a.canonicalizationVersion != b.canonicalizationVersion)
    || (field == 9 && a.policyContentDigest != b.policyContentDigest)
    || (field == 10 && a.configContentDigest != b.configContentDigest)
    || (field == 11 && a.stakes != b.stakes)
    || (field == 12 && a.supports != b.supports)
    || (field == 13 && a.conflicts != b.conflicts)
    || (field == 14 && a.approvalReceipt != b.approvalReceipt)
  }

  // The first field that differs names the mismatch.
  lemma FirstDifference(a: ActionBinding, b: ActionBinding, field: nat)
    requires DiffersIn(a, b, field) && forall g: nat | g < field :: !DiffersIn(a, b, g)
    ensures field < |MISMATCHES| && BindingMismatch(a, b) == Some(MISMATCHES[field])
  {
    assert forall g: nat {:trigger DiffersIn(a, b, g)} | g < field :: !DiffersIn(a, b, g);
    assert 0 < field ==> !DiffersIn(a, b, 0);
    assert 1 < field ==> !DiffersIn(a, b, 1);
    assert 2 < field ==> !DiffersIn(a, b, 2);
    assert 3 < field ==> !DiffersIn(a, b, 3);
    assert 4 < field ==> !DiffersIn(a, b, 4);
    assert 5 < field ==> !DiffersIn(a, b, 5);
    assert 6 < field ==> !DiffersIn(a, b, 6);
    assert 7 < field ==> !DiffersIn(a, b, 7);
    assert 8 < field ==> !DiffersIn(a, b, 8);
    assert 9 < field ==> !DiffersIn(a, b, 9);
    assert 10 < field ==> !DiffersIn(a, b, 10);
    assert 11 < field ==> !DiffersIn(a, b, 11);
    assert 12 < field ==> !DiffersIn(a, b, 12);
    assert 13 < field ==> !DiffersIn(a, b, 13);
  }

  // What stands in the way of consuming a permit before its premises are looked at.
  datatype Obstacle = Unknown | Settled | TooLate | OtherAction | BadReceipt | None_

  function ObstacleOf(w: World, step: Step): Obstacle
    requires step.Consume?
  {
    var t, d := w.store.tables, Sha256(step.raw);
    if d !in t.decisions then Unknown
    else if t.decisions[d].state != Issued then Settled
    else if step.env.now >= t.decisions[d].expiresAt then TooLate
    else if exists field: nat | field < 15 :: DiffersIn(t.decisions[d].binding, step.presented, field) then OtherAction
    else if !ReceiptGood(t, t.decisions[d].binding, step.env.now) then BadReceipt
    else None_
  }

  // A settled, unknown or late token, and one presented for another action: one event, and only
  // a late permit changes, to expired.
  lemma ConsumeTurnedAway(w: World, step: Step)
    requires step.Consume? && Enabled(w, step)
    requires ObstacleOf(w, step) in {Unknown, Settled, TooLate, OtherAction}
    ensures |w.store.log| <= |Next(w, step).store.log|
    ensures ObstacleOf(w, step) == Unknown ==>
      && Appended(w, Next(w, step)) == [DecisionRejected(Sha256(step.raw), "TOKEN_NOT_FOUND", None)]
      && Next(w, step).store.tables == w.store.tables
    ensures ObstacleOf(w, step) == Settled ==>
      && Appended(w, Next(w, step)) == [DecisionRejected(Sha256(step.raw),
           match w.store.tables.decisions[Sha256(step.raw)].state
           case Consumed => "TOKEN_CONSUMED"
           case Expired => "TOKEN_EXPIRED"
           case _ => "TOKEN_REVOKED", None)]
      && Next(w, step).store.tables == w.store.tables
    ensures ObstacleOf(w, step) == TooLate ==>
      && Appended(w, Next(w, step)) == [DecisionExpired(Sha256(step.raw), "TOKEN_EXPIRED")]
      && Next(w, step).store.tables == w.store.tables.(decisions := w.store.tables.decisions[Sha256(step.raw) :=
           w.store.tables.decisions[Sha256(step.raw)].(state := Expired)])
    ensures ObstacleOf(w, step) == OtherAction ==>
      && Next(w, step).store.tables == w.store.tables
      && exists field: nat | field < 15 ::
           && DiffersIn(w.store.tables.decisions[Sha256(step.raw)].binding, step.presented, field)
           && (forall g: nat | g < field :: !DiffersIn(w.store.tables.decisions[Sha256(step.raw)].binding, step.presented, g))
           && Appended(w, Next(w, step)) == [DecisionRejected(Sha256(step.raw), MISMATCHES[field], None)]
  {
    hide AppendAll, Events, ApprovalCheck, PremiseVerdict, BindingMismatch, DiffersIn;
    var t, d, events := w.store.tables, Sha256(step.raw), StepEvents(w, step);
    Spelled();
    if ObstacleOf(w, step) == OtherAction {
      var field := LeastDifference(t.decisions[d].binding, step.presented);
      FirstDifference(t.decisions[d].binding, step.presented, field);
    }
    assert |events| == 1;
    SingleEvent(t, events[0]);
    assert events == [events[0]];
    AppendAllFacts(w.store.log, events, step.env);
    AppendedIs(w, Next(w, step), events);
  }

  // The named receipt is there, not withdrawn or expired yet, and past its time.
  predicate Overdue(t: Tables, r: ReceiptDigest, now: nat) {
    r in t.receipts && t.receipts[r].state in {Issued, Consumed} && now >= t.receipts[r].expiresAt
  }

  function StandRefusal(t: Tables, r: ReceiptDigest, now: nat): string {
    if r !in t.receipts then "APPROVAL_NOT_FOUND"
    else if t.receipts[r].state == Revoked then "APPROVAL_REVOKED"
    else if t.receipts[r].state == Expired || Overdue(t, r, now) then "APPROVAL_EXPIRED"
    else "APPROVAL_BINDING_MISMATCH"
  }

  lemma CheckForConsume(t: Tables, b: ActionBinding, now: nat)
    requires !ReceiptGood(t, b, now)
    ensures ApprovalCheck(t, b, now, true)
         == Check(Some(StandRefusal(t, b.approvalReceipt.value, now)),
                  if Overdue(t, b.approvalReceipt.value, now) then [ReceiptExpired(b.approvalReceipt.value)] else [])
  {
    Spelled();
  }

  // A permit whose receipt no longer stands is turned away with it; a receipt that is past its
  // time is logged as expired, and changes state unless a permit has used it up.
  lemma ConsumeWithBadReceipt(w: World, step: Step)
    requires step.Consume? && Enabled(w, step) && ObstacleOf(w, step) == BadReceipt
    ensures |w.store.log| <= |Next(w, step).store.log|
    ensures var t, d := w.store.tables, Sha256(step.raw);
      var r := t.decisions[d].binding.approvalReceipt.value;
      && Appended(w, Next(w, step))
         == (if Overdue(t, r, step.env.now) then [ReceiptExpired(r)] else [])
            + [DecisionRejected(d, StandRefusal(t, r, step.env.now), None)]
      && Next(w, step).store.tables == if Overdue(t, r, step.env.now) && t.receipts[r].state == Issued
           then t.(receipts := t.receipts[r := t.receipts[r].(state := Expired)]) else t
  {
    hide AppendAll, Events, PremiseVerdict, BindingMismatch, DiffersIn, ApprovalCheck, StandRefusal;
    var t, d, events := w.store.tables, Sha256(step.raw), StepEvents(w, step);
    var b := t.decisions[d].binding;
    var r := b.approvalReceipt.value;
    NoDifference(b, step.presented);
    CheckForConsume(t, b, step.env.now);
    var rejected := DecisionRejected(d, StandRefusal(t, r, step.env.now), None);
    if Overdue(t, r, step.env.now) {
      TwoEvents(t, ReceiptExpired(r), rejected);
    } else {
      SingleEvent(t, rejected);
      assert events == [rejected];
    }
    AppendAllFacts(w.store.log, events, step.env);
    AppendedIs(w, Next(w, step), events);
  }

  lemma NoDifference(a: ActionBinding, b: ActionBinding)
    ensures (exists f: nat | f < 15 :: DiffersIn(a, b, f)) <==> BindingMismatch(a, b).Some?
  {
    if exists f: nat | f < 15 :: DiffersIn(a, b, f) {
      var field := LeastDifference(a, b);
      FirstDifference(a, b, field);
    } else {
      forall f: nat | f < 15 ensures !DiffersIn(a, b, f) {
      }
      EveryFieldEqual(a, b);
    }
  }

  lemma EveryFieldEqual(a: ActionBinding, b: ActionBinding)
    requires forall f: nat | f < 15 :: !DiffersIn(a, b, f)
    ensures BindingMismatch(a, b).None?
  {
    assert !DiffersIn(a, b, 0) && !DiffersIn(a, b, 1) && !DiffersIn(a, b, 2) && !DiffersIn(a, b, 3) && !DiffersIn(a, b, 4);
    assert !DiffersIn(a, b, 5) && !DiffersIn(a, b, 6) && !DiffersIn(a, b, 7) && !DiffersIn(a, b, 8) && !DiffersIn(a, b, 9);
    assert !DiffersIn(a, b, 10) && !DiffersIn(a, b, 11) && !DiffersIn(a, b, 12) && !DiffersIn(a, b, 13) && !DiffersIn(a, b, 14);
  }

  // The premises in the order they are settled. A table that was there when the store was opened
  // and is gone counts against the permit; one never there leaves the callback, if any.
  predicate EpisodeStands(v: LedgerView, at: Colocated, ep: string) {
    match v.episodes
    case Some(episodes) => ep in episodes && episodes[ep] == "active"
    case None => !at.episodes
  }

  predicate SupportsStand(v: LedgerView, at: Colocated, cb: Callbacks, b: ActionBinding) {
    && cb.supports != Some(false)
    && (b.supports != [] ==> match v.beliefs
          case Some(beliefs) => forall s <- b.supports :: s in beliefs && beliefs[s] == BeliefRow(b.episodeId, "in")
          case None => !at.beliefs)
  }

  predicate ConflictsStand(v: LedgerView, at: Colocated, cb: Callbacks, ep: string) {
    && cb.conflicts != Some(false)
    && match v.conflicts
       case Some(conflicts) => forall c <- conflicts :: conflicts[c] != ConflictRow(ep, "open")
       case None => !at.conflicts
  }

  // The first premise that fails names itself.
  function DecidedBy(v: LedgerView, at: Colocated, cb: Callbacks, d: TokenDigest, b: ActionBinding): AuthEvent {
    if !EpisodeStands(v, at, b.episodeId) then DecisionRevoked(d, "EPISODE_FINALIZED")
    else if !SupportsStand(v, at, cb, b) then DecisionRevoked(d, "SUPPORT_RETRACTED")
    else if !ConflictsStand(v, at, cb, b.episodeId) then DecisionRevoked(d, "OPEN_CONFLICT")
    else DecisionConsumed(d, b)
  }

  lemma PremisesDecide(v: LedgerView, at: Colocated, cb: Callbacks, d: TokenDigest, b: ActionBinding)
    requires NoDuplicates(b.supports)
    ensures PremiseVerdict(d, b, at, v, cb).events == [DecidedBy(v, at, cb, d, b)]
  {
    hide ActiveSupports, ConflictsClosed;
    if v.beliefs.Some? { CountIsEverySupport(v.beliefs.value, b); }
    if v.conflicts.Some? { ClosedIffNoneOpen(v.conflicts.value, b); }
  }

  // With nothing in the way, the premises decide: the first that fails revokes the permit and
  // names itself, and if none fails the permit is consumed.
  lemma ConsumeByPremises(w: World, step: Step)
    requires step.Consume? && Enabled(w, step) && TablesOk(w.store.tables) && ObstacleOf(w, step) == None_
    ensures var t, d, v := w.store.tables, Sha256(step.raw), Next(w, step);
      var b := t.decisions[d].binding;
      var e := DecidedBy(w.ledger, step.at, step.cb, d, b);
      && |w.store.log| <= |v.store.log| && Appended(w, v) == [e]
      && v.store.tables == t.(decisions := t.decisions[d :=
           t.decisions[d].(state := if e.DecisionConsumed? then Consumed else Revoked)])
  {
    hide AppendAll, Events, BindingMismatch, DiffersIn, ApprovalCheck, PremiseVerdict;
    var t, d, events := w.store.tables, Sha256(step.raw), StepEvents(w, step);
    var b := t.decisions[d].binding;
    NoDifference(b, step.presented);
    ApprovalCheckIff(t, b, step.env.now);
    PremisesDecide(w.ledger, step.at, step.cb, d, b);
    SingleEvent(t, events[0]);
    assert events == [events[0]];
    AppendAllFacts(w.store.log, events, step.env);
    AppendedIs(w, Next(w, step), events);
  }

  lemma LeastDifference(a: ActionBinding, b: ActionBinding) returns (field: nat)
    requires exists f: nat | f < 15 :: DiffersIn(a, b, f)
    ensures field < 15 && DiffersIn(a, b, field) && forall g: nat | g < field :: !DiffersIn(a, b, g)
  {
    hide DiffersIn;
    field := 0;
    while !DiffersIn(a, b, field)
      invariant field < 15 && forall g: nat | g < field :: !DiffersIn(a, b, g)
      decreases 15 - field
    {
      var f: nat :| f < 15 && DiffersIn(a, b, f);
      field := field + 1;
    }
  }

  // What a consume answers is what it has logged last.
  lemma AnswerIsLogged(t: Tables, at: Colocated, v: LedgerView, cb: Callbacks, raw: string, presented: ActionBinding, now: nat)
    ensures var verdict := ConsumeVerdict(t, at, v, cb, raw, presented, now);
      verdict.events != [] &&
      match verdict.events[|verdict.events| - 1]
      case DecisionConsumed(_, _) => verdict.reason == "CONSUMED"
      case DecisionRejected(_, reason, _) => verdict.reason == reason != "CONSUMED"
      case DecisionExpired(_, reason) => verdict.reason == reason != "CONSUMED"
      case DecisionRevoked(_, reason) => verdict.reason == reason != "CONSUMED"
      case _ => false
  {
    hide ApprovalCheck, BindingMismatch;
    var d := Sha256(raw);
    if d in t.decisions {
      var b := t.decisions[d].binding;
      MismatchIsNotConsumed(b, presented);
      ApprovalCheckIff(t, b, now);
      assert t.decisions[d].state != Issued ==> ("TOKEN_" + Upper(t.decisions[d].state))[0] == 'T';
    }
  }
}
