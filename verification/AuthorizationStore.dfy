/**
 `EnforcementStore`: the live authorization tables and the method of each transaction.
 Every method updates the tables row by row and is proved to reach exactly the state that
 committing its events describes, on the reject, expire and deny paths too.
 */
module AuthorizationStore {
  import opened Wrappers
  import opened Authorization

  datatype Failure = Refused(reason: string) | ConstraintViolation

  class EnforcementStore {
    const colocated: Colocated
    var receipts: map<ReceiptDigest, Receipt>
    var decisions: map<TokenDigest, Decision>
    var supports: set<(TokenDigest, string)>
    var episodes: map<TokenDigest, string>
    var log: seq<Row>

    ghost function Contents(): Store
      reads this
    {
      Store(Tables(receipts, decisions, supports, episodes), log)
    }

    ghost predicate Valid()
      reads this
    {
      Mirrors(Contents())
    }

    constructor (colocated: Colocated)
      ensures Contents() == EmptyStore && this.colocated == colocated && Valid()
    {
      this.colocated := colocated;
      receipts, decisions, supports, episodes, log := map[], map[], {}, map[], [];
    }

    // `_append_event`
    method AppendEvent(e: AuthEvent, env: Env)
      modifies this`log
      ensures log == old(log) + [NextRow(old(log), e, env)]
    {
      var seq_ := 1;
      var previous := Zero;
      if log != [] {
        seq_ := log[|log| - 1].seq_ + 1;
        previous := log[|log| - 1].hash;
      }
      var body := Body(seq_, env.ids(seq_), env.now, e);
      log := log + [Row(seq_, body.id, body.at, e, previous, Link(previous, body))];
    }

    /******* One row and its event *******/

    // Inserts or updates that the caller has made, logged as one event.
    method Log(ghost before: Store, e: AuthEvent, env: Env)
      requires Mirrors(before) && log == before.log
      requires Apply(before.tables, e) == Some(Contents().tables)
      modifies this`log
      ensures Valid()
      ensures ApplyAll(before.tables, [e]).Some? && Contents() == Commit(before, [e], env)
    {
      CommitOne(before, e, env);
      AppendEvent(e, env);
      CommitMirrors(before, [e], env);
    }

    // `_reject` with its default event: logged, no table changes.
    method Reject(e: AuthEvent, env: Env)
      requires Valid() && e.DecisionRejected?
      modifies this
      ensures Valid()
      ensures ApplyAll(old(Contents()).tables, [e]).Some?
      ensures Contents() == Commit(old(Contents()), [e], env)
    {
      Log(Contents(), e, env);
    }

    // UPDATE action_decisions SET state=? WHERE token_digest=? AND state='issued'
    method SettleDecision(d: TokenDigest, e: AuthEvent, env: Env)
      requires Valid() && d in decisions && decisions[d].state == Issued
      requires (e.DecisionConsumed? || e.DecisionExpired? || e.DecisionRevoked?) && e.token == d
      modifies this
      ensures Valid()
      ensures ApplyAll(old(Contents()).tables, [e]).Some?
      ensures Contents() == Commit(old(Contents()), [e], env)
      ensures decisions.Keys == old(decisions).Keys
      ensures forall x <- decisions :: x != d ==> decisions[x] == old(decisions)[x]
    {
      ghost var before := Contents();
      var to := if e.DecisionConsumed? then Consumed else if e.DecisionExpired? then Expired else Revoked;
      decisions := decisions[d := decisions[d].(state := to)];
      Log(before, e, env);
    }

    // UPDATE approval_receipts SET state=? WHERE digest=? AND state='issued'
    method SettleReceipt(r: ReceiptDigest, e: AuthEvent, env: Env)
      requires Valid() && r in receipts
      requires (e.ReceiptConsumed? || e.ReceiptExpired? || e.ReceiptRevoked?) && e.receipt == r
      modifies this
      ensures Valid()
      ensures ApplyAll(old(Contents()).tables, [e]).Some?
      ensures Contents() == Commit(old(Contents()), [e], env)
    {
      ghost var before := Contents();
      var to := if e.ReceiptConsumed? then Consumed else if e.ReceiptExpired? then Expired else Revoked;
      if receipts[r].state == Issued {
        receipts := receipts[r := receipts[r].(state := to)];
      }
      Log(before, e, env);
    }

    /******* Transactions *******/

    method IssueApproval(b: ApprovalBinding, id: string, ttl: int, approved: bool, env: Env)
      returns (r: Result<Option<ReceiptDigest>, Failure>)
      requires Valid()
      modifies this
      ensures Valid()
      ensures ttl <= 0 ==> r.Err? && Contents() == old(Contents())
      ensures ttl > 0 ==>
        var events := IssueApprovalEvents(old(Contents()).tables, b, id, ttl, approved, env.now);
        var after := ApplyAll(old(Contents()).tables, events);
        && (after.None? <==> r == Err(ConstraintViolation))
        && (after.Some? ==> r == Ok(if approved then Some(ReceiptHash(id, b)) else None))
        && Contents() == (if after.None? then old(Contents()) else Commit(old(Contents()), events, env))
    {
      hide AppendAll, Mirrors;
      if ttl <= 0 {
        return Err(Refused("approval ttl_seconds must be positive"));
      }
      ghost var before := Contents();
      var digest := ReceiptHash(id, b);
      if !approved {
        var revoked := set x | x in receipts && receipts[x].binding == b && receipts[x].state == Issued;
        receipts := map x | x in receipts ::
          if x in revoked then receipts[x].(state := Revoked) else receipts[x];
        assert revoked == LiveReceipts(before.tables, b);
        assert receipts == RevokeBinding(before.tables, b).receipts;
        Log(before, ReceiptDenied(digest, b, |revoked|), env);
        return Ok(None);
      }
      var issued := ReceiptIssued(digest, b, env.now, env.now + ttl * MICROSECONDS);
      if digest in receipts {
        CommitOne(before, issued, env);
        return Err(ConstraintViolation);
      }
      receipts := receipts[digest := Receipt(b, env.now, env.now + ttl * MICROSECONDS, Issued)];
      Log(before, issued, env);
      return Ok(Some(digest));
    }

    method RevokeApproval(digest: ReceiptDigest, reason: string, env: Env) returns (updated: bool)
      requires Valid()
      modifies this
      ensures Valid()
      ensures updated <==> digest in old(receipts) && old(receipts)[digest].state == Issued
      ensures var events := RevokeApprovalEvents(old(Contents()).tables, digest, reason);
              ApplyAll(old(Contents()).tables, events).Some?
              && Contents() == Commit(old(Contents()), events, env)
    {
      updated := digest in receipts && receipts[digest].state == Issued;
      if updated {
        SettleReceipt(digest, ReceiptRevoked(digest, reason), env);
      }
    }

    // `_approval_reason`: may expire the receipt and log that, inside the caller's transaction.
    method ApprovalReason(b: ActionBinding, allowConsumed: bool, env: Env) returns (reason: Option<string>)
      requires Valid()
      modifies this
      ensures Valid()
      ensures var check := ApprovalCheck(old(Contents()).tables, b, env.now, allowConsumed);
              && reason == check.reason
              && (reason.None? ==> unchanged(this))
              && ApplyAll(old(Contents()).tables, check.events).Some?
              && Contents() == Commit(old(Contents()), check.events, env)
      ensures decisions == old(decisions)
    {
      hide Mirrors;
      if !b.NamesReceipt() {
        return None;
      }
      var digest := b.approvalReceipt.value;
      if digest !in receipts {
        return Some("APPROVAL_NOT_FOUND");
      }
      var state := receipts[digest].state;
      if state == Consumed && allowConsumed {
        state := Issued;
      }
      if state != Issued {
        return Some("APPROVAL_" + Upper(state));
      }
      if env.now >= receipts[digest].expiresAt {
        CommitOne(Contents(), ReceiptExpired(digest), env);
        SettleReceipt(digest, ReceiptExpired(digest), env);
        return Some("APPROVAL_EXPIRED");
      }
      var approval := receipts[digest].binding;
      if approval != ExpectedApproval(b, approval.scope) {
        return Some("APPROVAL_BINDING_MISMATCH");
      }
      return None;
    }

    // The insertions of an approved permit; a constraint violation leaves nothing behind.
    method InsertDecision(digest: TokenDigest, b: ActionBinding, ttl: nat, env: Env) returns (ok: bool)
      requires Valid()
      modifies this
      ensures Valid()
      ensures var events := [DecisionIssued(digest, b, env.now, env.now + ttl * MICROSECONDS)];
              && (ok <==> ApplyAll(old(Contents()).tables, events).Some?)
              && Contents() == (if ok then Commit(old(Contents()), events, env) else old(Contents()))
      ensures receipts == old(receipts)
    {
      hide AppendAll, Mirrors;
      ghost var before := Contents();
      var issued := DecisionIssued(digest, b, env.now, env.now + ttl * MICROSECONDS);
      CommitOne(before, issued, env);
      if digest in decisions || digest in episodes || !NoDuplicates(b.supports)
         || exists s <- b.supports :: (digest, s) in supports {
        return false;
      }
      decisions := decisions[digest := Decision(b, env.now, env.now + ttl * MICROSECONDS, Issued)];
      supports := supports + SupportRows(digest, b.supports);
      episodes := episodes[digest := b.episodeId];
      Log(before, issued, env);
      return true;
    }

    method IssueAction(b: ActionBinding, raw: string, ttl: int, env: Env) returns (r: Result<TokenDigest, Failure>)
      requires Valid()
      modifies this
      ensures Valid()
      ensures ttl <= 0 ==> r.Err? && Contents() == old(Contents())
      ensures ttl > 0 ==>
        var events := IssueActionEvents(old(Contents()).tables, b, raw, ttl, env.now);
        var after := ApplyAll(old(Contents()).tables, events);
        // A constraint violation rolls everything back; otherwise the events are committed.
        && (after.None? <==> r == Err(ConstraintViolation))
        && Contents() == (if after.None? then old(Contents()) else Commit(old(Contents()), events, env))
        && (r.Ok? ==> r.value == Sha256(raw)
                      && ApprovalCheck(old(Contents()).tables, b, env.now, false).reason.None?)
        && (ApprovalCheck(old(Contents()).tables, b, env.now, false).reason.Some? ==>
              r == Err(Refused(ApprovalCheck(old(Contents()).tables, b, env.now, false).reason.value)))
    {
      hide Apply, ApplyAll, AppendAll, Mirrors;
      if ttl <= 0 {
        return Err(Refused("action ttl_seconds must be positive"));
      }
      ghost var before := Contents();
      var digest := Sha256(raw);
      var reason := ApprovalReason(b, false, env);
      if reason.Some? {
        var rejected := DecisionRejected(digest, reason.value, Some(b));
        CommitTwice(before, ApprovalCheck(before.tables, b, env.now, false).events, [rejected], env);
        Reject(rejected, env);
        return Err(Refused(reason.value));
      }
      ghost var issued := [DecisionIssued(digest, b, env.now, env.now + ttl * MICROSECONDS)];
      var inserted := InsertDecision(digest, b, ttl, env);
      if !inserted {
        ApplyAllConcat(before.tables, issued, IssueActionEvents(before.tables, b, raw, ttl, env.now)[1..]);
        assert IssueActionEvents(before.tables, b, raw, ttl, env.now)
            == issued + IssueActionEvents(before.tables, b, raw, ttl, env.now)[1..];
        return Err(ConstraintViolation);
      }
      if b.NamesReceipt() && b.approvalReceipt.value in receipts
         && SingleUse(receipts[b.approvalReceipt.value].binding.scope) {
        var used := b.approvalReceipt.value;
        CommitTwice(before, issued, [ReceiptConsumed(used)], env);
        SettleReceipt(used, ReceiptConsumed(used), env);
      } else {
        assert IssueActionEvents(before.tables, b, raw, ttl, env.now) == issued;
      }
      return Ok(digest);
    }

    method SettlePremises(d: TokenDigest, v: LedgerView, cb: Callbacks, env: Env) returns (reason: string)
      requires Valid() && d in decisions && decisions[d].state == Issued
      modifies this
      ensures Valid()
      ensures var verdict := PremiseVerdict(d, old(decisions)[d].binding, colocated, v, cb);
              && reason == verdict.reason
              && ApplyAll(old(Contents()).tables, verdict.events).Some?
              && Contents() == Commit(old(Contents()), verdict.events, env)
    {
      hide Mirrors;
      var stored := decisions[d].binding;
      if !Resolve(StoredEpisode(v, colocated, stored), None) {
        reason := "EPISODE_FINALIZED";
        SettleDecision(d, DecisionRevoked(d, reason), env);
      } else if !Resolve(StoredSupports(v, colocated, stored), cb.supports) {
        reason := "SUPPORT_RETRACTED";
        SettleDecision(d, DecisionRevoked(d, reason), env);
      } else if !Resolve(StoredConflicts(v, colocated, stored), cb.conflicts) {
        reason := "OPEN_CONFLICT";
        SettleDecision(d, DecisionRevoked(d, reason), env);
      } else {
        reason := "CONSUMED";
        SettleDecision(d, DecisionConsumed(d, stored), env);
      }
    }

    method ConsumeAction(raw: string, presented: ActionBinding, v: LedgerView, cb: Callbacks, env: Env)
      returns (consumed: bool, reason: string)
      requires Valid()
      modifies this
      ensures Valid()
      ensures var verdict := ConsumeVerdict(old(Contents()).tables, colocated, v, cb, raw, presented, env.now);
              && reason == verdict.reason
              && (consumed <==> verdict.reason == "CONSUMED")
              && ApplyAll(old(Contents()).tables, verdict.events).Some?
              && Contents() == Commit(old(Contents()), verdict.events, env)
    {
      hide Apply, ApplyAll, AppendAll, Mirrors, BindingMismatch, PremiseVerdict, ApprovalCheck;
      ghost var before := Contents();
      var digest := Sha256(raw);
      if digest !in decisions {
        reason := "TOKEN_NOT_FOUND";
        Reject(DecisionRejected(digest, reason, None), env);
      } else if decisions[digest].state != Issued {
        reason := "TOKEN_" + Upper(decisions[digest].state);
        Reject(DecisionRejected(digest, reason, None), env);
      } else if env.now >= decisions[digest].expiresAt {
        reason := "TOKEN_EXPIRED";
        SettleDecision(digest, DecisionExpired(digest, reason), env);
      } else {
        var mismatch := BindingMismatch(decisions[digest].binding, presented);
        if mismatch.Some? {
          reason := mismatch.value;
          Reject(DecisionRejected(digest, reason, None), env);
        } else {
          var stored := decisions[digest].binding;
          var approval := ApprovalReason(stored, true, env);
          if approval.Some? {
            reason := approval.value;
            var rejected := DecisionRejected(digest, reason, None);
            CommitTwice(before, ApprovalCheck(before.tables, stored, env.now, true).events, [rejected], env);
            Reject(rejected, env);
          } else {
            reason := SettlePremises(digest, v, cb, env);
          }
        }
      }
      consumed := reason == "CONSUMED";
    }

    // The loop shared by `revoke_for_support` and `revoke_for_episode`.
    method RevokeRows(rows: seq<TokenDigest>, reason: string, env: Env)
      requires Valid()
      requires forall d <- rows :: d in decisions && decisions[d].state == Issued
      requires NoDuplicates(rows)
      modifies this
      ensures Valid()
      ensures ApplyAll(old(Contents()).tables, RevocationEvents(rows, reason)).Some?
      ensures Contents() == Commit(old(Contents()), RevocationEvents(rows, reason), env)
    {
      hide Mirrors, Apply;
      ghost var before := Contents();
      for i := 0 to |rows|
        invariant Valid()
        invariant ApplyAll(before.tables, RevocationEvents(rows[..i], reason)).Some?
        invariant Contents() == Commit(before, RevocationEvents(rows[..i], reason), env)
        invariant forall j :: i <= j < |rows| ==> rows[j] in decisions && decisions[rows[j]].state == Issued
      {
        var revoked := DecisionRevoked(rows[i], reason);
        CommitTwice(before, RevocationEvents(rows[..i], reason), [revoked], env);
        assert RevocationEvents(rows[..i + 1], reason) == RevocationEvents(rows[..i], reason) + [revoked];
        SettleDecision(rows[i], revoked, env);
      }
      assert rows[..|rows|] == rows;
    }

    method RevokeForSupport(belief: string, env: Env) returns (rows: seq<TokenDigest>)
      requires Valid()
      modifies this
      ensures Valid()
      ensures Enumerates(rows, SupportDependents(old(Contents()).tables, belief))
      ensures ApplyAll(old(Contents()).tables, RevocationEvents(rows, "SUPPORT_RETRACTED")).Some?
      ensures Contents() == Commit(old(Contents()), RevocationEvents(rows, "SUPPORT_RETRACTED"), env)
    {
      rows := Select(set d | d in decisions && decisions[d].state == Issued && (d, belief) in supports);
      RevokeRows(rows, "SUPPORT_RETRACTED", env);
    }

    method RevokeForEpisode(ep: string, env: Env) returns (rows: seq<TokenDigest>)
      requires Valid()
      modifies this
      ensures Valid()
      ensures Enumerates(rows, EpisodeDependents(old(Contents()).tables, ep))
      ensures ApplyAll(old(Contents()).tables, RevocationEvents(rows, "EPISODE_FINALIZED")).Some?
      ensures Contents() == Commit(old(Contents()), RevocationEvents(rows, "EPISODE_FINALIZED"), env)
    {
      rows := Select(set d | d in decisions && decisions[d].state == Issued
                             && d in episodes && episodes[d] == ep);
      RevokeRows(rows, "EPISODE_FINALIZED", env);
    }

    method VerifyHashChain() returns (r: Result<Hash, string>)
      ensures r.Ok? <==> Chained(log)
      ensures r.Ok? ==> r.value == LastHash(log)
    {
      var previous := Zero;
      for i := 0 to |log|
        invariant Chained(log[..i]) && previous == LastHash(log[..i])
      {
        ChainedStep(log, i);
        if log[i].seq_ != i + 1 || log[i].previous != previous {
          return Err("authorization event chain sequence mismatch");
        }
        var calculated := Link(previous, Body(log[i].seq_, log[i].id, log[i].at, log[i].event));
        if calculated != log[i].hash {
          return Err("authorization event hash mismatch");
        }
        previous := calculated;
      }
      assert log[..|log|] == log;
      return Ok(previous);
    }

    // `rebuild` and `rebuild_enforcement_projection`: delete, refold, compare.
    method Rebuild() returns (ok: bool)
      modifies this
      ensures Contents() == old(Contents())
      ensures ok <==> ApplyAll(EmptyTables, Events(log)) == Some(old(Contents()).tables)
    {
      ghost var events := Events(log);
      var before := Tables(receipts, decisions, supports, episodes);
      var tables := EmptyTables;
      var i := 0;
      while i < |log|
        invariant 0 <= i <= |log| && unchanged(this)
        invariant ApplyAll(EmptyTables, events[..i]) == Some(tables)
      {
        assert events[..i + 1] == events[..i] + [log[i].event];
        ApplyAllConcat(EmptyTables, events[..i], [log[i].event]);
        var next := Apply(tables, log[i].event);
        ApplyAllConcat(EmptyTables, events[..i + 1], events[i + 1..]);
        assert events == events[..i + 1] + events[i + 1..];
        if next.None? {
          return false;
        }
        tables := next.value;
        i := i + 1;
      }
      assert events[..|log|] == events;
      if tables != before {
        return false;
      }
      receipts, decisions := tables.receipts, tables.decisions;
      supports, episodes := tables.supports, tables.episodes;
      return true;
    }
  }

  // Lists a finite set, in some order.
  method Select<T(==, !new)>(selected: set<T>) returns (rows: seq<T>)
    ensures Enumerates(rows, selected)
  {
    rows := [];
    var rest := selected;
    while rest != {}
      invariant rest <= selected
      invariant Enumerates(rows, selected - rest)
      decreases rest
    {
      var x :| x in rest;
      rows, rest := rows + [x], rest - {x};
    }
  }

  lemma ChainedStep(log: seq<Row>, i: nat)
    requires i < |log| && Chained(log[..i])
    ensures Chained(log) ==> Chained(log[..i + 1])
    ensures Chained(log[..i + 1]) <==> Continues(log[i], i + 1, LastHash(log[..i]))
  {
    hide Chained;
    if Chained(log) {
      ChainedPrefix(log, i + 1);
    }
    assert log[..i + 1] == log[..i] + [log[i]];
    ChainedExtends(log[..i], log[i]);
  }
}
