/**
 The authorization store of `enforcement.py` as values: bindings, receipts, permits, the
 append-only event log and the projection that `rebuild_enforcement_projection` folds from it.

 Every transaction of the store is described here by the events it appends; the class in
 AuthorizationStore.dfy performs the row-by-row updates and is proved to stay equal to that
 description.
 */
module Authorization {
  import opened Wrappers

  datatype ApprovalBinding = ApprovalBinding(
    schemaVersion: int, episodeId: string, turnId: string, toolNamespace: string, toolName: string,
    argumentsHash: string, target: string, policyId: string, policyRevision: string, scope: string)

  // A receipt digest is the content hash of an identifier and a binding; a caller may also
  // present any other text.
  datatype ReceiptDigest = ReceiptHash(id: string, binding: ApprovalBinding) | OtherText(text: string)

  datatype ActionBinding = ActionBinding(
    schemaVersion: int, episodeId: string, turnId: string, toolNamespace: string, toolName: string,
    argumentsHash: string, target: string, policyId: string, policyRevision: string,
    canonicalizationVersion: int, policyContentDigest: string, configContentDigest: string,
    stakes: string, supports: seq<string>, conflicts: seq<string>,
    approvalReceipt: Option<ReceiptDigest>)
  {
    // Python's truthiness: neither None nor the empty string names a receipt.
    predicate NamesReceipt() {
      approvalReceipt.Some? && approvalReceipt.value != OtherText("")
    }
  }

  datatype TokenDigest = Sha256(raw: string)

  datatype State = Issued | Consumed | Expired | Revoked

  datatype Receipt = Receipt(binding: ApprovalBinding, issuedAt: nat, expiresAt: nat, state: State)

  datatype Decision = Decision(binding: ActionBinding, issuedAt: nat, expiresAt: nat, state: State)

  datatype AuthEvent =
    | ReceiptIssued(receipt: ReceiptDigest, approval: ApprovalBinding, issuedAt: nat, expiresAt: nat)
    | ReceiptDenied(receipt: ReceiptDigest, approval: ApprovalBinding, revokedPrior: nat)
    | ReceiptConsumed(receipt: ReceiptDigest)
    | ReceiptExpired(receipt: ReceiptDigest)
    | ReceiptRevoked(receipt: ReceiptDigest, reason: string)
    | DecisionIssued(token: TokenDigest, action: ActionBinding, issuedAt: nat, expiresAt: nat)
    | DecisionRejected(token: TokenDigest, reason: string, rejected: Option<ActionBinding>)
    | DecisionConsumed(token: TokenDigest, action: ActionBinding)
    | DecisionExpired(token: TokenDigest, reason: string)
    | DecisionRevoked(token: TokenDigest, reason: string)

  datatype Tables = Tables(
    receipts: map<ReceiptDigest, Receipt>,
    decisions: map<TokenDigest, Decision>,
    supports: set<(TokenDigest, string)>,
    episodes: map<TokenDigest, string>)

  const EmptyTables := Tables(map[], map[], {}, map[])

  /******* The projection fold *******/

  // UPDATE approval_receipts SET state=? WHERE digest=? AND state='issued'
  function SetReceipt(t: Tables, r: ReceiptDigest, to: State): Tables {
    if r in t.receipts && t.receipts[r].state == Issued
    then t.(receipts := t.receipts[r := t.receipts[r].(state := to)]) else t
  }

  // UPDATE action_decisions SET state=? WHERE token_digest=? AND state='issued'
  function SetDecision(t: Tables, d: TokenDigest, to: State): Tables {
    if d in t.decisions && t.decisions[d].state == Issued
    then t.(decisions := t.decisions[d := t.decisions[d].(state := to)]) else t
  }

  // UPDATE approval_receipts SET state='revoked' WHERE binding_digest=? AND state='issued'
  function RevokeBinding(t: Tables, b: ApprovalBinding): Tables {
    t.(receipts := map r | r in t.receipts ::
         if t.receipts[r].binding == b && t.receipts[r].state == Issued
         then t.receipts[r].(state := Revoked) else t.receipts[r])
  }

  predicate NoDuplicates<T(==)>(s: seq<T>) {
    forall i, j :: 0 <= i < j < |s| ==> s[i] != s[j]
  }

  function SupportRows(d: TokenDigest, beliefs: seq<string>): set<(TokenDigest, string)> {
    set b | b in beliefs :: (d, b)
  }

  // None is a primary-key violation: the surrounding transaction is rolled back.
  function Apply(t: Tables, e: AuthEvent): Option<Tables> {
    match e
    case ReceiptIssued(r, b, issued, expires) =>
      if r in t.receipts then None
      else Some(t.(receipts := t.receipts[r := Receipt(b, issued, expires, Issued)]))
    case ReceiptDenied(_, b, _) => Some(RevokeBinding(t, b))
    case ReceiptConsumed(r) => Some(SetReceipt(t, r, Consumed))
    case ReceiptExpired(r) => Some(SetReceipt(t, r, Expired))
    case ReceiptRevoked(r, _) => Some(SetReceipt(t, r, Revoked))
    case DecisionIssued(d, b, issued, expires) =>
      if d in t.decisions || d in t.episodes || !NoDuplicates(b.supports)
         || (exists s <- b.supports :: (d, s) in t.supports) then None
      else Some(t.(decisions := t.decisions[d := Decision(b, issued, expires, Issued)],
                   supports := t.supports + SupportRows(d, b.supports),
                   episodes := t.episodes[d := b.episodeId]))
    case DecisionRejected(_, _, _) => Some(t)
    case DecisionConsumed(d, _) => Some(SetDecision(t, d, Consumed))
    case DecisionExpired(d, _) => Some(SetDecision(t, d, Expired))
    case DecisionRevoked(d, _) => Some(SetDecision(t, d, Revoked))
  }

  function ApplyAll(t: Tables, events: seq<AuthEvent>): Option<Tables> {
    if events == [] then Some(t)
    else match ApplyAll(t, events[..|events| - 1])
         case None => None
         case Some(u) => Apply(u, events[|events| - 1])
  }

  lemma {:induction false} ApplyAllConcat(t: Tables, a: seq<AuthEvent>, b: seq<AuthEvent>)
    ensures ApplyAll(t, a + b) == match ApplyAll(t, a) case None => None case Some(u) => ApplyAll(u, b)
  {
    if b == [] {
      assert a + b == a;
    } else {
      var n := |b| - 1;
      assert (a + b)[..|a + b| - 1] == a + b[..n];
      ApplyAllConcat(t, a, b[..n]);
    }
  }

  /******* The hash-chained log *******/

  datatype Body = Body(seq_: nat, id: string, at: nat, event: AuthEvent)

  // SHA-256 over the previous hash and the canonical body, as a free constructor.
  datatype Hash = Zero | Link(previous: Hash, body: Body)

  datatype Row = Row(seq_: nat, id: string, at: nat, event: AuthEvent, previous: Hash, hash: Hash)

  // Clock reading and identifier source of one transaction, indexed by log position.
  datatype Env = Env(now: nat, ids: nat -> string)

  function LastHash(log: seq<Row>): Hash {
    if log == [] then Zero else log[|log| - 1].hash
  }

  function LastSeq(log: seq<Row>): nat {
    if log == [] then 0 else log[|log| - 1].seq_
  }

  function NextRow(log: seq<Row>, e: AuthEvent, env: Env): Row {
    var n := LastSeq(log) + 1;
    Row(n, env.ids(n), env.now, e, LastHash(log), Link(LastHash(log), Body(n, env.ids(n), env.now, e)))
  }

  function AppendAll(log: seq<Row>, events: seq<AuthEvent>, env: Env): seq<Row> {
    if events == [] then log
    else
      var shorter := AppendAll(log, events[..|events| - 1], env);
      shorter + [NextRow(shorter, events[|events| - 1], env)]
  }

  function Events(log: seq<Row>): seq<AuthEvent> {
    seq(|log|, i requires 0 <= i < |log| => log[i].event)
  }

  // A row continues a chain of n - 1 rows that ends in `previous`.
  predicate Continues(row: Row, n: nat, previous: Hash) {
    row.seq_ == n && row.previous == previous && row.hash == Link(previous, Body(n, row.id, row.at, row.event))
  }

  // What `verify_hash_chain` accepts.
  ghost predicate Chained(log: seq<Row>) {
    forall i :: 0 <= i < |log| ==> Continues(log[i], i + 1, LastHash(log[..i]))
  }

  lemma ChainedExtends(log: seq<Row>, row: Row)
    ensures Chained(log + [row]) <==> Chained(log) && Continues(row, |log| + 1, LastHash(log))
  {
    var longer := log + [row];
    assert longer[..|log|] == log && longer[|log|] == row;
    assert forall i | 0 <= i < |log| :: longer[..i] == log[..i] && longer[i] == log[i];
  }

  lemma ChainedPrefix(log: seq<Row>, n: nat)
    requires Chained(log) && n <= |log|
    ensures Chained(log[..n])
  {
    assert forall i | 0 <= i < n :: log[..n][..i] == log[..i] && log[..n][i] == log[i];
  }

  lemma ChainedSnoc(log: seq<Row>, e: AuthEvent, env: Env)
    requires Chained(log)
    ensures Chained(log + [NextRow(log, e, env)])
  {
    ChainedExtends(log, NextRow(log, e, env));
    assert log != [] ==> Continues(log[|log| - 1], |log|, LastHash(log[..|log| - 1]));
  }

  lemma {:induction false} AppendAllFacts(log: seq<Row>, events: seq<AuthEvent>, env: Env)
    ensures Events(AppendAll(log, events, env)) == Events(log) + events
    ensures log <= AppendAll(log, events, env)
    ensures Chained(log) ==> Chained(AppendAll(log, events, env))
  {
    if events != [] {
      var init := events[..|events| - 1];
      AppendAllFacts(log, init, env);
      var shorter, last := AppendAll(log, init, env), events[|events| - 1];
      assert events == init + [last];
      assert Events(shorter + [NextRow(shorter, last, env)]) == Events(shorter) + [last];
      if Chained(log) {
        ChainedSnoc(shorter, last, env);
      }
    }
  }

  /******* Store state and commit *******/

  datatype Store = Store(tables: Tables, log: seq<Row>)

  const EmptyStore := Store(EmptyTables, [])

  // A committed transaction appends its events and leaves the tables they fold to.
  function Commit(s: Store, events: seq<AuthEvent>, env: Env): Store
    requires ApplyAll(s.tables, events).Some?
  {
    Store(ApplyAll(s.tables, events).value, AppendAll(s.log, events, env))
  }

  // Live tables mirror the log, and the log is a verified chain.
  ghost predicate Mirrors(s: Store) {
    Chained(s.log) && ApplyAll(EmptyTables, Events(s.log)) == Some(s.tables)
  }

  // "rebuild() finds before == after": every committed transaction keeps the live tables
  // equal to the fold of the log, and the chain verifiable.
  lemma CommitMirrors(s: Store, events: seq<AuthEvent>, env: Env)
    requires Mirrors(s) && ApplyAll(s.tables, events).Some?
    ensures Mirrors(Commit(s, events, env))
    ensures Events(Commit(s, events, env).log) == Events(s.log) + events
  {
    AppendAllFacts(s.log, events, env);
    ApplyAllConcat(EmptyTables, Events(s.log), events);
  }

  lemma {:induction false} AppendAllConcat(log: seq<Row>, a: seq<AuthEvent>, b: seq<AuthEvent>, env: Env)
    ensures AppendAll(log, a + b, env) == AppendAll(AppendAll(log, a, env), b, env)
  {
    if b == [] {
      assert a + b == a;
    } else {
      var n := |b| - 1;
      assert (a + b)[..|a + b| - 1] == a + b[..n];
      AppendAllConcat(log, a, b[..n], env);
    }
  }

  // Committing in two instalments is committing once.
  lemma CommitTwice(s: Store, a: seq<AuthEvent>, b: seq<AuthEvent>, env: Env)
    requires ApplyAll(s.tables, a).Some?
    ensures ApplyAll(s.tables, a + b) == ApplyAll(Commit(s, a, env).tables, b)
    ensures ApplyAll(s.tables, a + b).Some? ==>
      Commit(s, a + b, env) == Commit(Commit(s, a, env), b, env)
  {
    ApplyAllConcat(s.tables, a, b);
    AppendAllConcat(s.log, a, b, env);
  }

  lemma CommitOne(s: Store, e: AuthEvent, env: Env)
    ensures ApplyAll(s.tables, [e]) == Apply(s.tables, e)
    ensures AppendAll(s.log, [e], env) == s.log + [NextRow(s.log, e, env)]
  {
    assert [e][..0] == [];
  }

  /******* What each transaction appends *******/

  const MICROSECONDS: nat := 1_000_000

  // Rows the denial of an approval revokes.
  function LiveReceipts(t: Tables, b: ApprovalBinding): set<ReceiptDigest> {
    set r | r in t.receipts && t.receipts[r].binding == b && t.receipts[r].state == Issued
  }

  function IssueApprovalEvents(t: Tables, b: ApprovalBinding, id: string, ttl: nat, approved: bool, now: nat)
    : seq<AuthEvent>
  {
    if approved then [ReceiptIssued(ReceiptHash(id, b), b, now, now + ttl * MICROSECONDS)]
    else [ReceiptDenied(ReceiptHash(id, b), b, |LiveReceipts(t, b)|)]
  }

  function RevokeApprovalEvents(t: Tables, r: ReceiptDigest, reason: string): seq<AuthEvent> {
    if r in t.receipts && t.receipts[r].state == Issued then [ReceiptRevoked(r, reason)] else []
  }

  function Upper(s: State): string {
    match s
    case Issued => "ISSUED"
    case Consumed => "CONSUMED"
    case Expired => "EXPIRED"
    case Revoked => "REVOKED"
  }

  function ExpectedApproval(b: ActionBinding, scope: string): ApprovalBinding {
    ApprovalBinding(1, b.episodeId, b.turnId, b.toolNamespace, b.toolName, b.argumentsHash, b.target,
                    b.policyId, b.policyRevision, scope)
  }

  // The verdict on the receipt a binding names, with the events the check itself appends.
  datatype Check = Check(reason: Option<string>, events: seq<AuthEvent>)

  function ApprovalCheck(t: Tables, b: ActionBinding, now: nat, allowConsumed: bool): Check {
    if !b.NamesReceipt() then Check(None, [])
    else
      var r := b.approvalReceipt.value;
      if r !in t.receipts then Check(Some("APPROVAL_NOT_FOUND"), [])
      else
        var receipt := t.receipts[r];
        var state := if receipt.state == Consumed && allowConsumed then Issued else receipt.state;
        if state != Issued then Check(Some("APPROVAL_" + Upper(state)), [])
        else if now >= receipt.expiresAt then Check(Some("APPROVAL_EXPIRED"), [ReceiptExpired(r)])
        else if receipt.binding == ExpectedApproval(b, receipt.binding.scope) then Check(None, [])
        else Check(Some("APPROVAL_BINDING_MISMATCH"), [])
  }

  predicate SingleUse(scope: string) {
    scope == "single_use" || scope == "exact_action"
  }

  // True when issuing against `b` uses up the receipt it names.
  predicate UsesUpReceipt(t: Tables, b: ActionBinding) {
    && b.NamesReceipt()
    && b.approvalReceipt.value in t.receipts
    && SingleUse(t.receipts[b.approvalReceipt.value].binding.scope)
  }

  function IssueActionEvents(t: Tables, b: ActionBinding, raw: string, ttl: nat, now: nat): seq<AuthEvent> {
    var check := ApprovalCheck(t, b, now, false);
    if check.reason.Some?
    then check.events + [DecisionRejected(Sha256(raw), check.reason.value, Some(b))]
    else [DecisionIssued(Sha256(raw), b, now, now + ttl * MICROSECONDS)]
         + (if UsesUpReceipt(t, b) then [ReceiptConsumed(b.approvalReceipt.value)] else [])
  }

  // `_binding_mismatch`: the first differing field, in the order the code checks them.
  function BindingMismatch(expected: ActionBinding, actual: ActionBinding): Option<string> {
    if expected.episodeId != actual.episodeId then Some("EPISODE_MISMATCH")
    else if expected.turnId != actual.turnId then Some("TURN_MISMATCH")
    else if expected.toolNamespace != actual.toolNamespace then Some("TOOL_NAMESPACE_MISMATCH")
    else if expected.toolName != actual.toolName then Some("TOOL_NAME_MISMATCH")
    else if expected.argumentsHash != actual.argumentsHash then Some("ARGUMENTS_MISMATCH")
    else if expected.target != actual.target then Some("TARGET_MISMATCH")
    else if expected.policyId != actual.policyId then Some("POLICY_MISMATCH")
    else if expected.policyRevision != actual.policyRevision then Some("POLICY_REVISION_MISMATCH")
    else if expected.canonicalizationVersion != actual.canonicalizationVersion
    then Some("CANONICALIZATION_MISMATCH")
    else if expected.policyContentDigest != actual.policyContentDigest then Some("POLICY_CONTENT_DRIFT")
    else if expected.configContentDigest != actual.configContentDigest then Some("CONFIG_CONTENT_DRIFT")
    else if expected.stakes != actual.stakes then Some("STAKES_MISMATCH")
    else if expected.supports != actual.supports then Some("SUPPORT_BINDING_MISMATCH")
    else if expected.conflicts != actual.conflicts then Some("CONFLICT_BINDING_MISMATCH")
    else if expected.approvalReceipt != actual.approvalReceipt then Some("APPROVAL_RECEIPT_MISMATCH")
    else None
  }

  /******* The co-located ledger as consumption reads it *******/

  datatype BeliefRow = BeliefRow(episodeId: string, status: string)

  datatype ConflictRow = ConflictRow(episodeId: string, state: string)

  // A table the database does not hold is None.
  datatype LedgerView = LedgerView(
    beliefs: Option<map<string, BeliefRow>>,
    episodes: Option<map<string, string>>,
    conflicts: Option<map<string, ConflictRow>>)

  // Which of those tables were present when the store was opened.
  datatype Colocated = Colocated(beliefs: bool, episodes: bool, conflicts: bool)

  // `_projection_readable` followed by the stored check; None is "this store cannot judge".
  function Stored(present: bool, atOpen: bool, verdict: bool): Option<bool> {
    if present then Some(verdict) else if atOpen then Some(false) else None
  }

  // `_resolve`: a stored False is final, otherwise the callback decides, otherwise True.
  function Resolve(stored: Option<bool>, callback: Option<bool>): bool {
    if stored == Some(false) then false else callback.GetOr(true)
  }

  function ActiveSupports(beliefs: map<string, BeliefRow>, b: ActionBinding): set<string> {
    set s | s in beliefs && s in b.supports && beliefs[s].episodeId == b.episodeId && beliefs[s].status == "in"
  }

  function StoredSupports(v: LedgerView, at: Colocated, b: ActionBinding): Option<bool> {
    if b.supports == [] then Some(true)
    else Stored(v.beliefs.Some?, at.beliefs,
                v.beliefs.Some? && |ActiveSupports(v.beliefs.value, b)| == |b.supports|)
  }

  predicate EpisodeActive(episodes: map<string, string>, ep: string) {
    ep in episodes && episodes[ep] == "active"
  }

  function StoredEpisode(v: LedgerView, at: Colocated, b: ActionBinding): Option<bool> {
    Stored(v.episodes.Some?, at.episodes, v.episodes.Some? && EpisodeActive(v.episodes.value, b.episodeId))
  }

  function OpenConflicts(conflicts: map<string, ConflictRow>, ep: string): set<string> {
    set c | c in conflicts && conflicts[c].episodeId == ep && conflicts[c].state == "open"
  }

  // The episode-wide check, then the scoped backstop on the conflicts the permit names.
  predicate ConflictsClosed(conflicts: map<string, ConflictRow>, b: ActionBinding) {
    if OpenConflicts(conflicts, b.episodeId) != {} then false
    else if b.conflicts == [] then true
    else |set c | c in OpenConflicts(conflicts, b.episodeId) && c in b.conflicts| == 0
  }

  function StoredConflicts(v: LedgerView, at: Colocated, b: ActionBinding): Option<bool> {
    Stored(v.conflicts.Some?, at.conflicts, v.conflicts.Some? && ConflictsClosed(v.conflicts.value, b))
  }

  // Results of the two callbacks the caller may supply.
  datatype Callbacks = Callbacks(supports: Option<bool>, conflicts: Option<bool>)

  /******* Consumption *******/

  datatype Verdict = Verdict(reason: string, events: seq<AuthEvent>)

  function Reject(d: TokenDigest, reason: string): Verdict {
    Verdict(reason, [DecisionRejected(d, reason, None)])
  }

  // The last checks: episode, supports and conflicts, each revoking the permit when it fails.
  function PremiseVerdict(d: TokenDigest, b: ActionBinding, at: Colocated, v: LedgerView, cb: Callbacks): Verdict {
    if !Resolve(StoredEpisode(v, at, b), None)
    then Verdict("EPISODE_FINALIZED", [DecisionRevoked(d, "EPISODE_FINALIZED")])
    else if !Resolve(StoredSupports(v, at, b), cb.supports)
    then Verdict("SUPPORT_RETRACTED", [DecisionRevoked(d, "SUPPORT_RETRACTED")])
    else if !Resolve(StoredConflicts(v, at, b), cb.conflicts)
    then Verdict("OPEN_CONFLICT", [DecisionRevoked(d, "OPEN_CONFLICT")])
    else Verdict("CONSUMED", [DecisionConsumed(d, b)])
  }

  function ConsumeVerdict(t: Tables, at: Colocated, v: LedgerView, cb: Callbacks, raw: string,
                          presented: ActionBinding, now: nat): Verdict
  {
    var d := Sha256(raw);
    if d !in t.decisions then Reject(d, "TOKEN_NOT_FOUND")
    else if t.decisions[d].state != Issued then Reject(d, "TOKEN_" + Upper(t.decisions[d].state))
    else if now >= t.decisions[d].expiresAt
    then Verdict("TOKEN_EXPIRED", [DecisionExpired(d, "TOKEN_EXPIRED")])
    else
      var b := t.decisions[d].binding;
      var mismatch := BindingMismatch(b, presented);
      if mismatch.Some? then Reject(d, mismatch.value)
      else
        var check := ApprovalCheck(t, b, now, true);
        if check.reason.Some?
        then Verdict(check.reason.value, check.events + Reject(d, check.reason.value).events)
        else PremiseVerdict(d, b, at, v, cb)
  }

  /******* Bulk revocation *******/

  function SupportDependents(t: Tables, belief: string): set<TokenDigest> {
    set d | d in t.decisions && t.decisions[d].state == Issued && (d, belief) in t.supports
  }

  function EpisodeDependents(t: Tables, ep: string): set<TokenDigest> {
    set d | d in t.decisions && t.decisions[d].state == Issued && d in t.episodes && t.episodes[d] == ep
  }

  // The rows a SELECT returns: each selected row once, in an order SQL leaves open.
  ghost predicate Enumerates<T(!new)>(rows: seq<T>, selected: set<T>) {
    NoDuplicates(rows) && forall x :: x in rows <==> x in selected
  }

  function RevocationEvents(rows: seq<TokenDigest>, reason: string): seq<AuthEvent> {
    seq(|rows|, i requires 0 <= i < |rows| => DecisionRevoked(rows[i], reason))
  }

  function RevokeTokens(t: Tables, rows: seq<TokenDigest>): Tables {
    t.(decisions := map d | d in t.decisions ::
         if d in rows && t.decisions[d].state == Issued then t.decisions[d].(state := Revoked)
         else t.decisions[d])
  }

  lemma {:induction false} RevocationsApply(t: Tables, rows: seq<TokenDigest>, reason: string)
    ensures ApplyAll(t, RevocationEvents(rows, reason)) == Some(RevokeTokens(t, rows))
  {
    hide RevokeTokens;
    var events := RevocationEvents(rows, reason);
    if rows == [] {
      NoTokens(t);
    } else {
      var n := |rows| - 1;
      RevocationsApply(t, rows[..n], reason);
      assert events[..n] == RevocationEvents(rows[..n], reason);
      assert rows == rows[..n] + [rows[n]];
      OneMoreToken(t, rows[..n], rows[n]);
    }
  }

  lemma NoTokens(t: Tables)
    ensures RevokeTokens(t, []) == t
  {
    assert RevokeTokens(t, []).decisions == t.decisions;
  }

  lemma OneMoreToken(t: Tables, rows: seq<TokenDigest>, d: TokenDigest)
    ensures RevokeTokens(t, rows + [d]) == SetDecision(RevokeTokens(t, rows), d, Revoked)
  {
    assert RevokeTokens(t, rows + [d]).decisions == SetDecision(RevokeTokens(t, rows), d, Revoked).decisions;
  }
}
