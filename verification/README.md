# Belief ledger verification

Dafny proofs about a model of the belief ledger: the authorization store that issues and
consumes single-use action permits, the hash-chained event ledger with its projections and
snapshots, the reservation of LLM budget, the relabelling of beliefs after a defeat, and the
smaller state machines around them. `dafny verify dfyconfig.toml` checks everything.

## How it is modelled

- **Transactions.** One SQLite transaction is one atomic step: it commits, or a constraint
  violation or a raised error rolls it back and nothing happened. Classes hold the tables as
  fields and their methods are the transactions; each is proved equal to a specification
  function on the whole state, and the theorems are about runs of those functions.
- **Hashes and tokens.** SHA-256 over a previous hash and a body is a free constructor, so
  equal hashes mean equal content. Strings stand for identifiers, integers for times.
- **Outcomes.** What a specification function computes is stated once more without naming it,
  in terms of the request and the rows before and after: `AuthorizationOutcomes`,
  `AuthorizationTraces`, `ProjectionAccepts`, `ProjectionRows`, `AppendOutcomes`,
  `RelabelOutcomes` and the last sections of the other files.
- **Concurrency.** Clients that need two transactions (finalize, retract) or leave the lock
  (the maintenance worker, an LLM call) are state machines whose steps interleave freely, with
  a crash possible between any two.
- **Projections.** `Sql.dfy` gives the statements, with primary keys and UNIQUE keys,
  `Projections.dfy` every event handler as the statements it executes. `Relabel.dfy` works on
  a view of one episode, and `RelabelProjection.dfy` shows that the handlers do to the tables
  what the view says.
- **Outside inputs.** Clocks, fresh identifiers, callback answers, linter verdicts, sink
  failures, provider replies, thread-start failures and the outcome of the defeat engine are
  parameters, arbitrary except for what the code relies on.

| files | subject |
|---|---|
| Authorization, AuthorizationStore, AuthorizationProtocol, AuthorizationOutcomes, AuthorizationCompaction, AuthorizationPurge, AuthorizationTraces | receipts, permits, their log, finalize and retract, purge |
| Sql, Projections, ProjectionRows, ProjectionAccepts, LedgerViews | statements and event handlers, when they accept, the rows they leave, episode non-interference, the ledger that consume reads |
| LedgerChain, Ledger, AppendOutcomes, LedgerStore, Reapplication, Snapshots | hash chains, append, replay, idempotency, purge, snapshots |
| LlmBudget | reserve, call, record, release |
| Relabel, RelabelOutcomes, RelabelProjection, SourceLearning, VerificationTables, Descendants, Ordering | relabel, verification, source statistics |
| Schema | canonical form of tool schemas |
| Framing, GatewayCache, OrderedDict | the gateway's lines and idempotency cache |
| ResponseGate, Utf8, Maintenance, Render | response gate, maintenance worker, context budget |

## What came out false

- A caller can put the reserved `idempotency_key` into the correlation without passing the
  argument. Such an append is what breaks replay of the idempotency table:
  `Ledger.AppendKeepsInv` has the exact condition, `LedgerStore.SmuggledKeyRun` an input.
- Accelerated replay reproduces the projections from a prompt capture, but not the idempotency
  rows of keyed batches above it (`Snapshots.PromptCapture`, with a run in
  `Snapshots.KeyedBatchAboveRun`). `create_snapshot` reads the height before the transaction
  that captures: what falls in between is applied twice, which aborts, changes nothing or
  counts twice (`Snapshots.LateCaptureAborts`, `Snapshots.LateCaptureRestates`,
  `Snapshots.LateCaptureCountsTwice`, with a run in `Snapshots.LateCaptureRun`).
- A text chunk with a lone surrogate raises after the index has advanced. A caller that goes on
  can have an answer accepted that lacks the chunk: `ResponseGate.LostChunkIsAccepted` is the
  input, `ResponseGate.AllOrReport` the exact condition.
- A call that outlives the stale window breaks the LLM limits:
  `LlmBudget.StaleDropBreaksTheLimit`.
- A conflict pair, or a task of one belief and method, can be closed once only:
  `Relabel.Relabel` and `SourceLearning.CompleteVerification` have the exact condition,
  `Relabel.SecondResolutionAborts` and `SourceLearning.SecondCompletionRun` runs that meet it.
- The canonical form of a schema can depend on the order of a `required`, `enum` or `type`
  array when a pointer picks that array out of its place
  (`Schema.PickedFormsAgreeOnlyIfEqual`), canonicalizing twice can fail on the dialect
  (`Schema.CanonicalizeTwice`, with the schemas of `Schema.FormIsRefused`), and properties
  named like annotations vanish (`Schema.PropertyNamedLikeAnnotationVanishes`).
- A comment at packages/core/src/belief_ledger_core/enforcement.py:435-438 says that an
  undeterminable premise check counts as failed; the code at 886-890 and its docstring count
  it as passed. The model follows the code: `AuthorizationProtocol.UnansweredCheckPasses`, with
  a run in `AuthorizationProtocol.UnverifiedSupportIsConsumed`.

## Model

| member | source | states |
|---|---|---|
| AuthorizationProtocol.ConsumedAtMostOnce | packages/core/src/belief_ledger_core/enforcement.py:391-505 | Over every interleaving of approve, issue, consume, finalize, retract and revoke transactions, with crashes between the two halves of finalize and retract, a token has at most one CONSUMED event, and has one exactly when its decision row says consumed. |
| AuthorizationProtocol.ConsumedExactlyWhenJustified | packages/core/src/belief_ledger_core/enforcement.py:391-505 | A step appends a CONSUMED event for a token if and only if it is a consume of that token which is justified in the state it runs in, whatever tables the database carries: permit issued and unexpired, presented binding equal, receipt good, every premise table that can be read agreeing, none gone missing since the store was opened, no callback objecting. |
| AuthorizationProtocol.ConsumeIffJustified | packages/core/src/belief_ledger_core/enforcement.py:391-505 | One consume transaction, on any database, answers CONSUMED if and only if the permit is justified, with exactly that one event; otherwise it neither issues nor consumes anything. |
| AuthorizationProtocol.MismatchIffDifferent | packages/core/src/belief_ledger_core/enforcement.py:902-923 | The field-by-field comparison finds nothing if and only if presented and stored binding agree on every field but the schema version. |
| AuthorizationProtocol.CountIsEverySupport | packages/core/src/belief_ledger_core/enforcement.py:713-727 | Comparing COUNT(*) with the number of supports says that every support belongs to the episode and is in, because a stored permit repeats none. |
| AuthorizationProtocol.PremiseVerdictIff | packages/core/src/belief_ledger_core/enforcement.py:447-505 | The premise checks pass if and only if every readable table agrees, none has vanished since open, and no callback says no; the one event appended is consumed or revoked accordingly. |
| AuthorizationProtocol.ApprovalCheckIff | packages/core/src/belief_ledger_core/enforcement.py:659-699 | The receipt check passes, spent receipts allowed, if and only if a named receipt exists, is issued or consumed, is unexpired and was given for this action. |
| AuthorizationProtocol.BlockedPermitIsNotConsumed | packages/core/src/belief_ledger_core/api.py:253-275 | While a readable table says that the episode is finalized, a support is out or a conflict is open, no permit depending on it is consumed, whether or not the second transaction of finalize or retract ever runs and even if the permit is issued in between. |
| AuthorizationProtocol.NothingConsumedAfterFinalize | packages/core/src/belief_ledger_core/api.py:253-275 | Once the first transaction of finalize has committed, no permit of the episode is ever consumed, whether issued before or after, and whether or not the second transaction runs, as long as the other ledger commits do what event handlers do. |
| AuthorizationProtocol.VanishedTableFailsClosed | packages/core/src/belief_ledger_core/enforcement.py:701-711 | If a premise table that was there when the store was opened is missing now, the permit is not consumed, whatever the callbacks say. |
| AuthorizationProtocol.UnansweredCheckPasses | packages/core/src/belief_ledger_core/enforcement.py:886-890 | With no premise table, then or now, and no callback, an unexpired permit presented as issued with a good receipt is consumed. |
| AuthorizationProtocol.UnverifiedSupportIsConsumed | packages/core/src/belief_ledger_core/enforcement.py:435-438 | A run in which a permit naming a support is consumed although nothing could be asked about it. |
| AuthorizationProtocol.ClosedIffNoneOpen | packages/core/src/belief_ledger_core/enforcement.py:740-770 | The scoped conflict check adds nothing to the episode-wide one. |
| AuthorizationProtocol.RevokedDependentsStayDead | packages/core/src/belief_ledger_core/api.py:536-563 | After the second transaction of finalize or retract, every dependent permit stays dead for the rest of the run, even if its premise is readmitted. |
| AuthorizationProtocol.LiveTablesEqualRebuild | packages/core/src/belief_ledger_core/enforcement.py:926-1005 | At every point of every run the live tables are the fold of the authorization log from nothing, and the log's hash chain verifies. |
| AuthorizationProtocol.TerminalStatesNeverChange | packages/core/src/belief_ledger_core/enforcement.py:190-565 | Between any two points of a run rows are neither deleted nor rebound, and a state other than issued is final. |
| AuthorizationProtocol.ReceiptBacksOnePermit | packages/core/src/belief_ledger_core/enforcement.py:305-389 | Two permits that cite the same single-use or exact-action receipt are the same permit. |
| AuthorizationProtocol.StepKeepsInv | packages/core/src/belief_ledger_core/enforcement.py:190-565 | Every step keeps the store invariant: tables mirror the log, the log is chained, keys and receipts are consistent, CONSUMED events match spent decisions. |
| Authorization.CommitMirrors | packages/core/src/belief_ledger_core/enforcement.py:786-819 | Appending the events of a transaction keeps the tables equal to the fold of the log and the chain intact, or the transaction is rolled back whole. |
| Authorization.CommitTwice | packages/core/src/belief_ledger_core/enforcement.py:786-819 | Committing two lists of events is committing their concatenation. |
| Authorization.RevocationsApply | packages/core/src/belief_ledger_core/enforcement.py:507-565 | Revoking the listed dependents row by row ends in the tables with exactly those decisions revoked. |
| AuthorizationStore.EnforcementStore.IssueApproval | packages/core/src/belief_ledger_core/enforcement.py:190-253 | The method's updates to receipts and log are the commit of its events: an approval inserts one receipt, a denial revokes the issued ones of the same binding. |
| AuthorizationStore.EnforcementStore.RevokeApproval | packages/core/src/belief_ledger_core/enforcement.py:255-277 | Revokes a live receipt with one event, or changes nothing and says so. |
| AuthorizationStore.EnforcementStore.ApprovalReason | packages/core/src/belief_ledger_core/enforcement.py:659-699 | Reads the named receipt's row, gives the reason of the receipt check, with or without spent receipts allowed, and commits the expiry event it may cause. |
| AuthorizationStore.EnforcementStore.IssueAction | packages/core/src/belief_ledger_core/enforcement.py:305-389 | Checks the receipt, inserts decision, supports and episode row by row, spends a single-use receipt: state and log are the commit of those events, a failed insert leaves both as they were, and a refusal raises the reason it logged. |
| AuthorizationStore.EnforcementStore.SettlePremises | packages/core/src/belief_ledger_core/enforcement.py:447-505 | Settles an issued permit as consumed or revoked by its premises, with exactly the one event for it. |
| AuthorizationStore.EnforcementStore.ConsumeAction | packages/core/src/belief_ledger_core/enforcement.py:391-505 | The method, branch by branch, is the commit of the verdict on the presented token: unknown, wrong state, expired, mismatched, bad receipt, bad premise or consumed. |
| AuthorizationStore.EnforcementStore.RevokeForSupport | packages/core/src/belief_ledger_core/enforcement.py:507-539 | Revokes exactly the issued permits that cite a belief, one event each, in one transaction. |
| AuthorizationStore.EnforcementStore.RevokeForEpisode | packages/core/src/belief_ledger_core/enforcement.py:541-565 | Revokes exactly the issued permits of an episode, one event each, in one transaction. |
| AuthorizationStore.EnforcementStore.VerifyHashChain | packages/core/src/belief_ledger_core/enforcement.py:840-862 | Accepts if and only if every row's sequence number, previous hash and own hash continue the row before, and returns the last hash. |
| AuthorizationStore.EnforcementStore.Rebuild | packages/core/src/belief_ledger_core/enforcement.py:634-657 | Succeeds if and only if the log folds, and then leaves the tables at that fold. |
| AuthorizationCompaction.CompactEnforcementEvents | packages/core/src/belief_ledger_core/enforcement.py:1025-1092 | For any rows the result is a verifying chain over exactly the rows not attributed to the excluded episode, in their order. |
| AuthorizationCompaction.AttributeIsOwner | packages/core/src/belief_ledger_core/enforcement.py:1040-1075 | The running dictionaries attribute a row, one that carries only a receipt or token digest included, to the episode of the latest earlier row naming that digest. |
| AuthorizationCompaction.RestrictedRow | packages/core/src/belief_ledger_core/enforcement.py:926-1005 | Folding one row and then restricting to the other episodes is restricting first and folding the row only if it is theirs. |
| AuthorizationCompaction.CompactedLogRebuilds | packages/core/src/belief_ledger_core/enforcement.py:1025-1092 | The compacted rows of any well-formed log rebuild to the original tables restricted to the other episodes. |
| AuthorizationCompaction.RunLogsAreWellFormed | packages/core/src/belief_ledger_core/enforcement.py:190-565 | Every log a run can build is well formed, as long as the token generator repeats no token. |
| AuthorizationCompaction.PurgeKeepsTheOthers | packages/core/src/belief_ledger_core/store.py:1107-1183 | After any run, purging an episode leaves authorization rows that rebuild to the live tables without that episode. |
| AuthorizationPurge.AtMostOnceWithPurges | packages/core/src/belief_ledger_core/store.py:1107-1183 | Over runs that also purge episodes: the live tables are the fold of the log, its chain verifies, and a token has at most one CONSUMED event, and one exactly when its row says so. |
| AuthorizationPurge.ReceiptBacksOneWithPurges | packages/core/src/belief_ledger_core/enforcement.py:305-389 | Over such runs too, two permits that cite one single-use receipt are one, and a receipt backs permits of its own episode only. |
| AuthorizationPurge.ConsumedWhenJustifiedWithPurges | packages/core/src/belief_ledger_core/enforcement.py:391-505 | Over such runs too, a CONSUMED event is appended exactly by a justified consume. |
| AuthorizationPurge.PurgeMoveRestricts | packages/core/src/belief_ledger_core/store.py:1107-1183 | At any point of such a run a purge leaves exactly the rows of the other episodes, and as many CONSUMED events as these rows say. |
| AuthorizationTraces.PurgeLeavesNoTrace | packages/core/src/belief_ledger_core/enforcement.py:1025-1092 | At any point of such a run a purge takes out exactly the rows whose own binding is of the episode, or that carry none and are about a receipt or permit for which an earlier row carries one; the others stay, in order, with their ids and times. |
| AuthorizationPurge.PurgeKeepsDurable | packages/core/src/belief_ledger_core/enforcement.py:1025-1092 | Compaction keeps everything a log must have for the next purge to work: agreeing tokens, consumption after issue, receipts within their episode. |
| AuthorizationOutcomes.IssuedExactlyWhenGranted | packages/core/src/belief_ledger_core/enforcement.py:305-389 | At any point of any run a step appends a DECISION_ISSUED event for a token, and gives the token a row, if and only if it is an issue of that token whose named receipt, if any, exists, is issued, is unexpired and was given for this action, and no decision, episode or support row repeats. |
| AuthorizationOutcomes.GrantedIssue | packages/core/src/belief_ledger_core/enforcement.py:328-376 | A granted issue adds one row: issued, with the binding, expiring ttl seconds after now; lists its supports and episode; and spends a single-use or exact-action receipt, with exactly those events. |
| AuthorizationOutcomes.RefusedIssue | packages/core/src/belief_ledger_core/enforcement.py:315-327 | An issue with a receipt that is missing, used, withdrawn, expired or given for something else appends the rejection with that reason, expires the receipt exactly when it is past its time, and changes nothing else. |
| AuthorizationOutcomes.RepeatedIssue | packages/core/src/belief_ledger_core/enforcement.py:377-379 | An issue whose row would repeat one is rolled back whole. |
| AuthorizationOutcomes.ApprovalGranted | packages/core/src/belief_ledger_core/enforcement.py:224-253 | An approval adds one issued receipt for the binding that expires ttl seconds after now, with one event; a repeated digest is rolled back. |
| AuthorizationOutcomes.ApprovalDenied | packages/core/src/belief_ledger_core/enforcement.py:206-223 | A denial revokes every issued receipt of its binding and no other, adds none, and logs how many it revoked. |
| AuthorizationOutcomes.ReceiptWithdrawn | packages/core/src/belief_ledger_core/enforcement.py:255-277 | Withdrawing an issued receipt revokes it and logs why; any other receipt, known or not, is left as it is. |
| AuthorizationOutcomes.DependentsRevoked | packages/core/src/belief_ledger_core/enforcement.py:507-565 | The second transaction of finalize or retract revokes exactly the issued permits of the episode, or those naming the belief, with one event each that says why. |
| AuthorizationOutcomes.FirstDifference | packages/core/src/belief_ledger_core/enforcement.py:902-923 | The first of the fifteen compared fields that differs gives its own reason. |
| AuthorizationOutcomes.ConsumeTurnedAway | packages/core/src/belief_ledger_core/enforcement.py:412-431 | An unknown, settled, late or differing presentation appends one event with its reason; only a late permit changes, to expired. |
| AuthorizationOutcomes.ConsumeWithBadReceipt | packages/core/src/belief_ledger_core/enforcement.py:432-434 | A permit whose receipt no longer stands is rejected with that reason; the receipt is logged as expired exactly when it is past its time. |
| AuthorizationOutcomes.ConsumeByPremises | packages/core/src/belief_ledger_core/enforcement.py:435-500 | With nothing else in the way the first premise that fails, episode, supports, conflicts in this order, revokes the permit and names itself; if none fails the permit is consumed. |
| AuthorizationOutcomes.AnswerIsLogged | packages/core/src/belief_ledger_core/enforcement.py:391-505 | The reason a consume answers is that of the last event it logs, and CONSUMED only for a CONSUMED event. |
| Sql.ExecOutside | packages/core/src/belief_ledger_core/projections.py:705-723 | One statement run for an episode leaves the rows of the others untouched, and does the same with another episode's rows absent. |
| Sql.ExecAllOutside | packages/core/src/belief_ledger_core/projections.py:705-723 | A whole guarded list of statements changes nothing outside its episode, and acts the same when another episode's rows are absent. |
| Projections.HandlerGuarded | packages/core/src/belief_ledger_core/projections.py:35-314 | Every event handler checks the ownership of whatever it updates or copies from before it does so. |
| Projections.ApplyOutside | packages/core/src/belief_ledger_core/projections.py:16-32 | Applying one event of an episode leaves the projection of the others as it is, and commutes with removing any other episode. |
| Projections.ReplayOfOthers | packages/core/src/belief_ledger_core/store.py:1107-1183 | For any accepted log, replaying only the other episodes' events succeeds and gives exactly the full projection without the purged one, heads included. |
| ProjectionRows.EpisodeMade | packages/core/src/belief_ledger_core/projections.py:357-380 | The event adds exactly the episode's row, with the columns of the payload. |
| ProjectionRows.TurnSets | packages/core/src/belief_ledger_core/projections.py:42-48 | The event sets the episode's turn and update time and nothing else. |
| ProjectionRows.StakesSet | packages/core/src/belief_ledger_core/projections.py:49-58 | The event sets the episode's default stakes and update time and nothing else. |
| ProjectionRows.StateSets | packages/core/src/belief_ledger_core/projections.py:59-71 | The event sets the episode's state and update time, the key only if it gives one, and nothing else. |
| ProjectionRows.AggregateAmended | packages/core/src/belief_ledger_core/projections.py:76-235 | For the eleven events that set columns of one row, statuses, activity, audits, statistics, corroboration, task, conflict and notice states: the row is of the episode, those columns are the payload's, and everything else is as before. |
| ProjectionRows.StatsCounted | packages/core/src/belief_ledger_core/projections.py:89-104 | Each of the three counters of the source moves by its delta but never below zero, and nothing else changes. |
| ProjectionRows.SourceMade | packages/core/src/belief_ledger_core/projections.py:381-396 | The event adds exactly the source's row. |
| ProjectionRows.EvidenceMade | packages/core/src/belief_ledger_core/projections.py:397-416 | The event adds exactly the evidence row; its source is of the episode. |
| ProjectionRows.BeliefMade | packages/core/src/belief_ledger_core/projections.py:417-477 | The event adds the belief, its evidence links, its justifications with their premises in order, and its source-root and fingerprint rows, and nothing else; source and evidence are of the episode. |
| ProjectionRows.JustificationMade | packages/core/src/belief_ledger_core/projections.py:495-518 | The event adds the justification with one row per premise, in order, and nothing else; all its beliefs are of the episode. |
| ProjectionRows.SupportMade | packages/core/src/belief_ledger_core/projections.py:478-494 | The event adds exactly the support row; belief and evidence are of the episode. |
| ProjectionRows.DefeatMade | packages/core/src/belief_ledger_core/projections.py:519-540 | The event adds exactly the edge; attacker and target are of the episode. |
| ProjectionRows.TaskMade | packages/core/src/belief_ledger_core/projections.py:550-571 | The event adds exactly the task row; its belief is of the episode. |
| ProjectionRows.ConflictMade | packages/core/src/belief_ledger_core/projections.py:572-595 | The event adds exactly the conflict row; both beliefs and the task are of the episode. |
| ProjectionRows.NoticeMade | packages/core/src/belief_ledger_core/projections.py:596-615 | The event adds exactly the notice row; the belief and all descendants are of the episode. |
| ProjectionRows.ContextMade | packages/core/src/belief_ledger_core/projections.py:616-630 | The event adds rows for rendered beliefs of the episode only, leaving those already there. |
| ProjectionRows.ObservationSet | packages/core/src/belief_ledger_core/projections.py:164-191 | The event sets the belief's observation time and links the evidence once. |
| ProjectionRows.VerdictMade | packages/core/src/belief_ledger_core/projections.py:631-653 | The event adds exactly the verdict row; a belief it is about is of the episode. |
| ProjectionRows.UsageCounted | packages/core/src/belief_ledger_core/projections.py:654-676 | The event adds the usage row and moves the episode's three totals by one call and the tokens given. |
| ProjectionRows.UnpromotedOpened | packages/core/src/belief_ledger_core/projections.py:249-263 | The event leaves one open row for the evidence, in place of any there was. |
| ProjectionRows.UnpromotedClosed | packages/core/src/belief_ledger_core/projections.py:264-272 | The event sets state and reason of that row if there is one. |
| ProjectionRows.RecordMade | packages/core/src/belief_ledger_core/projections.py:273-314 | Lint reports, gate decisions and responses add one row under the event's id. |
| ProjectionAccepts.CreationAccepted | packages/core/src/belief_ledger_core/projections.py:357-380 | An episode is created if and only if the event is its own and its id and key are free. |
| ProjectionAccepts.EpisodeChangeAccepted | packages/core/src/belief_ledger_core/projections.py:42-71 | A turn, stakes or state is taken if and only if the episode is there and a new key, if one is given, is free. |
| ProjectionAccepts.BeliefAccepted | packages/core/src/belief_ledger_core/projections.py:417-477 | A belief is admitted if and only if source and evidence are of its episode, its id and its links with a span are new and not repeated, its justifications have new ids and speak of beliefs of the episode or of the belief itself, and its other rows are new. |
| ProjectionAccepts.JustificationAccepted | packages/core/src/belief_ledger_core/projections.py:495-518 | A justification is added if and only if its belief and premises are of the episode and its keys are free. |
| ProjectionAccepts.SourceAccepted | packages/core/src/belief_ledger_core/projections.py:381-396 | A source is registered if and only if the record is of the episode, the id is free and no source of the episode has its root and kind. |
| ProjectionAccepts.EvidenceAccepted | packages/core/src/belief_ledger_core/projections.py:397-416 | Evidence is ingested if and only if its source is of the episode and its id is free. |
| ProjectionAccepts.SupportAccepted | packages/core/src/belief_ledger_core/projections.py:478-494 | A support is added if and only if belief and evidence are of the episode and its id is free. |
| ProjectionAccepts.DefeatAccepted | packages/core/src/belief_ledger_core/projections.py:519-540 | An edge is added if and only if the attacker is a belief and the target a belief or justification of the episode and its id is free. |
| ProjectionAccepts.TaskAccepted | packages/core/src/belief_ledger_core/projections.py:550-571 | A task is created if and only if its belief is of the episode, its id is free and no task of that belief, method and state exists. |
| ProjectionAccepts.ConflictAccepted | packages/core/src/belief_ledger_core/projections.py:572-595 | A conflict is opened if and only if beliefs and task are of the episode, its id is free and no conflict of that pair and state exists. |
| ProjectionAccepts.NoticeAccepted | packages/core/src/belief_ledger_core/projections.py:596-615 | A notice is made if and only if the belief and all descendants are of the episode and its id is free. |
| ProjectionAccepts.FreeAmendmentAccepted | packages/core/src/belief_ledger_core/projections.py:119-235 | An event that sets columns outside every unique key is accepted if and only if the row is of its episode. |
| ProjectionAccepts.TaskCompletionAccepted | packages/core/src/belief_ledger_core/projections.py:204-215 | A task is completed if and only if it is of the episode and no other of its belief and method has the new state. |
| ProjectionAccepts.ResolutionAccepted | packages/core/src/belief_ledger_core/projections.py:220-224 | A conflict is resolved if and only if it is of the episode and none of its pair was resolved before. |
| ProjectionAccepts.ContextAccepted | packages/core/src/belief_ledger_core/projections.py:616-630 | A context is recorded if and only if every belief it shows is of the episode. |
| ProjectionAccepts.UsageAccepted | packages/core/src/belief_ledger_core/projections.py:654-676 | Usage is recorded if and only if the record is of the episode and its id is free. |
| ProjectionAccepts.FoldedIsSound | packages/core/src/belief_ledger_core/projections.py:16-32 | The tables that a log folds to never repeat a unique key. |
| LedgerViews.FinalizeIsBegin | packages/core/src/belief_ledger_core/api.py:253-271 | Applying the event of finalize to the tables is the ledger part of the first transaction of finalize, as consume reads those tables. |
| LedgerViews.RetractIsBegin | packages/core/src/belief_ledger_core/api.py:536-563 | Applying the events of retract is the ledger part of the first transaction of retract. |
| LedgerViews.EventKeepsEnded | packages/core/src/belief_ledger_core/projections.py:16-32 | No event but one that sets the state to active removes an episode or makes an ended one active. |
| LedgerViews.AppendKeepsEnded | packages/core/src/belief_ledger_core/store.py:198-296 | So every append of other drafts is a ledger commit of the kind after which a finalized episode stays finalized. |
| LedgerChain.VerifiedHeads | packages/core/src/belief_ledger_core/store.py:824-858 | Reading in batches, up to a height or to the end: succeeds if and only if the part of the log up to the cut is linked and every fetched event is authentic, and returns the head of each episode there. |
| LedgerChain.EqualRootsSameLog | packages/core/src/belief_ledger_core/events.py:97-101 | Two verifying logs with the same heads, and so the same chain root, are the same log event for event. |
| LedgerChain.AnchorIsStable | packages/core/src/belief_ledger_core/store.py:807-822 | The state reported for a recorded height on any extension of the log, the empty one included, is the state recorded when the log ended there. |
| LedgerChain.HeightIsMaximum | packages/core/src/belief_ledger_core/store.py:807-822 | The height taken as a maximum over the heads is the last sequence number. |
| LedgerChain.OthersStayLinked | packages/core/src/belief_ledger_core/store.py:1107-1183 | Dropping an episode's events leaves a verifying log with the other heads unchanged and no new height. |
| LedgerChain.FoldHeads | packages/core/src/belief_ledger_core/projections.py:27-32 | The heads that the projection keeps are the heads that verification computes. |
| Ledger.AppendKeepsInv | packages/core/src/belief_ledger_core/store.py:198-296 | An accepted append keeps log, projections, heads and idempotency table in step if and only if it has no drafts, asks for a task that is not open, or does not put the reserved idempotency key into the correlation without passing it. |
| Ledger.ExactlyOnce | packages/core/src/belief_ledger_core/store.py:230-254 | After a keyed append, until its episode is purged, every later append under the key changes nothing: it returns the first batch, is refused for its fingerprint, or returns no events if it has no drafts or asks for a task that is not open. |
| Ledger.RetryAnswer | packages/core/src/belief_ledger_core/store.py:230-254 | From the arguments of the two calls: a later request under the key, with drafts and with its task open, is refused if and only if both calls gave a fingerprint that is not empty and they differ; otherwise it gets exactly the first batch back. |
| Ledger.AppendRecordsDrafts | packages/core/src/belief_ledger_core/store.py:212-283 | An append that changes the ledger records its drafts in order, one event each, numbered on from the log; the stored correlation is, entry by entry, what the caller gave and is not empty, plus the key. |
| AppendOutcomes.AppendOutcome | packages/core/src/belief_ledger_core/store.py:198-296 | For every ledger: without drafts or with a task that is not open nothing happens; an append whose key is not recorded is the batch built first and folded then, accepted whole if and only if its identifiers are new and distinct, every event is accepted in turn and its row's key is free, and refused whole otherwise. |
| AppendOutcomes.EachIsBuilt | packages/core/src/belief_ledger_core/store.py:264-283 | Appending drafts one by one is building the hashed batch and folding it. |
| Ledger.KeyedAppendLeavesRow | packages/core/src/belief_ledger_core/store.py:283-294 | It leaves one row under episode and key that lists the ids of its events in order. |
| Ledger.KeyedAppendStartsBatch | packages/core/src/belief_ledger_core/store.py:256-294 | A keyed append that changes the ledger puts all its drafts, and only them, under the key. |
| Ledger.BatchIsForever | packages/core/src/belief_ledger_core/store.py:198-296 | The batch of a key never grows or changes while its episode is not purged. |
| Ledger.ReplayRebuildsEverything | packages/core/src/belief_ledger_core/store.py:943-1012 | After any run, replay from origin rebuilds the projections, and regrouping the log by correlation key rebuilds the idempotency table exactly. |
| Ledger.RegroupedIsUnique | packages/core/src/belief_ledger_core/store.py:1573-1601 | A log has one idempotency table: regrouping by correlation key leaves no choice. |
| Ledger.StorageKeyInjective | packages/core/src/belief_ledger_core/store.py:1573-1576 | Within an episode different idempotency keys have different storage keys. |
| Ledger.PurgeKeepsInv | packages/core/src/belief_ledger_core/store.py:1107-1183 | Purging an episode keeps the whole ledger invariant. |
| Ledger.ChainRootDeterminesLedger | packages/core/src/belief_ledger_core/store.py:807-822 | Two ledgers reached by runs whose heads agree are equal down to every projection and idempotency row. |
| LedgerStore.Store.ApplyEvent | packages/core/src/belief_ledger_core/projections.py:16-32 | Executes the handler's statements one after another and advances the episode's head; fails if and only if the fold of that event fails. When that is and what rows are left is said for each event in `ProjectionAccepts` and `ProjectionRows`. |
| LedgerStore.Store.AppendDraft | packages/core/src/belief_ledger_core/store.py:264-283 | Builds, links and inserts one event and applies it, as the append specification says. |
| LedgerStore.Store.AppendEvents | packages/core/src/belief_ledger_core/store.py:198-296 | The method, with its early returns, key lookup, fingerprint test and rollback, is the append specification on any database with a sound log, and says exactly when the idempotency table stays in step too. |
| LedgerStore.SmuggledKeyRun | packages/core/src/belief_ledger_core/store.py:212-219 | The append that smuggles a key into an empty ledger is accepted and writes no idempotency row, while every table regrouped from its log has one. |
| LedgerStore.Store.VerifyHashChain | packages/core/src/belief_ledger_core/store.py:796-805 | Says yes on every database a run can leave. |
| LedgerStore.Store.ChainStateAt | packages/core/src/belief_ledger_core/store.py:807-822 | Returns the state of the log cut at the height. |
| LedgerStore.Store.Replay | packages/core/src/belief_ledger_core/store.py:943-1012 | Verifies the chain, clears reservations, empties and refills the tables from the log: succeeds if and only if the chain verifies and the log folds and regroups to what was live. On failure everything is as before; on success only the reservations are gone. |
| LedgerStore.Store.PurgeEpisode | packages/core/src/belief_ledger_core/store.py:1107-1183 | Leaves exactly the ledger without the episode, and reports how many events went. |
| LedgerStore.RestoreIdempotency | packages/core/src/belief_ledger_core/store.py:1579-1601 | Groups the events by episode and key and inserts a row for each batch: it succeeds if and only if the log has an idempotency table, and returns that table. |
| Snapshots.SnapshotCache.Create | packages/core/src/belief_ledger_core/snapshots.py:131-163 | Writes one row for every manifest table at the height, over what was there, and leaves every other row alone: the capture step of the runs. |
| Snapshots.SnapshotCache.Prune | packages/core/src/belief_ledger_core/snapshots.py:192-205 | Keeps as many heights of the scope as asked for, or all, the newest ones and each whole; other scopes are untouched, and the number of deleted rows is returned: the prune step of the runs. A negative count is refused. |
| Snapshots.SnapshotCache.LoadNewestValid | packages/core/src/belief_ledger_core/snapshots.py:208-254 | Finds the greatest height with a complete, intact set of rows of the current fingerprint, whatever else the cache holds, or nothing if there is none. |
| Snapshots.Restore | packages/core/src/belief_ledger_core/snapshots.py:257-275 | Restoring the captured tables gives back the projection and idempotency table they were captured from. |
| Snapshots.CacheStaysHonest | packages/core/src/belief_ledger_core/store.py:1014-1049 | Over every run of appends, purges, height reads, later captures by any number of clients, prunes, damage and upgrades, the rows of one height that current code trusts come from one capture, made when the log ended at that height or later. |
| Snapshots.AcceleratedReplay | packages/core/src/belief_ledger_core/store.py:943-1012 | Restores the newest usable capture and folds the events above its height: what comes out is the fold of those events on the tables of the capture, and the comparison succeeds if and only if that is the live projection and no later event than the capture carries a key. |
| Snapshots.PromptCapture | packages/core/src/belief_ledger_core/store.py:1014-1038 | A capture in which nothing was appended between height and capture replays to the live projections and heads; the comparison fails exactly when a keyed event lies above the height. |
| Snapshots.LateCaptureAborts | packages/core/src/belief_ledger_core/store.py:1026-1036 | If an event that makes a row (a creation, an admission, a usage record, and so on) was appended between height and capture, every later replay from it aborts. |
| Snapshots.LateCaptureRestates | packages/core/src/belief_ledger_core/store.py:1026-1036 | If all events in between only restate and give no UNIQUE column two values, the replay still comes out right. |
| Snapshots.LateCaptureCountsTwice | packages/core/src/belief_ledger_core/store.py:1026-1036 | If a source counter was raised in between, and nothing above the height sets or lowers it, the replay counts twice and the comparison fails. |
| Snapshots.LateCaptureRun | packages/core/src/belief_ledger_core/store.py:1026-1036 | A run of two creations with the height read between them, whose one snapshot makes the replay abort. |
| Snapshots.KeyedBatchAboveRun | packages/core/src/belief_ledger_core/store.py:985-999 | A run with one keyed batch above a prompt snapshot, from which the replay gives the right projections and reports a mismatch. |
| Snapshots.PrefixTableIff | packages/core/src/belief_ledger_core/store.py:985-999 | The idempotency table of a log prefix is that of the whole log if and only if no later event carries a key. |
| Reapplication.AppliedTwiceAborts | packages/core/src/belief_ledger_core/projections.py:35-314 | Applying a list of events to their own outcome aborts as soon as one of them makes a row. |
| Reapplication.AppliedTwiceIsOnce | packages/core/src/belief_ledger_core/projections.py:35-314 | Applying events that only restate to their own outcome changes nothing, heads included, if no UNIQUE column is given two values. |
| Reapplication.AppliedTwiceCountsTwice | packages/core/src/belief_ledger_core/projections.py:89-104 | Events that raise a source counter leave it too high for good when applied twice, whatever follows that does not set or lower it. |
| LlmBudget.BudgetStore.ReserveLlmBudget | packages/core/src/belief_ledger_core/store.py:651-722 | Clears stale rows, sums what is used and reserved, and inserts the row or refuses with the first exhausted budget; a refusal leaves every table as it was. |
| LlmBudget.BudgetStore.CompleteStructured | belief_ledger_pramana/llm/client.py:58-220 | Run without interleaving: once reserved, usage is recorded exactly once, reported or reserved amounts as the case may be, whether or not the call succeeds, and the reservation is gone afterwards. |
| LlmBudget.BudgetStore.ReleaseLlmReservation | packages/core/src/belief_ledger_core/store.py:724-726 | Removes exactly the rows with that id. |
| LlmBudget.BudgetsHold | packages/core/src/belief_ledger_core/store.py:651-722 | Over every interleaving of reserve, call, record, release, crash and replay that forgets no call in flight, recorded calls stay within the turn and episode limits, and recorded tokens within theirs when no report exceeds its reservation. |
| LlmBudget.ReserveAdmitsIff | packages/core/src/belief_ledger_core/store.py:651-722 | Reserving is refused if and only if a budget is negative, the episode is missing, the turn or episode calls or the input or output tokens, counted over recorded usage and the reservations of the window, would exceed their limit, or the id is taken; the reason is the first that applies. Otherwise the table holds the new row and the recent ones. |
| LlmBudget.FinishRecords | belief_ledger_pramana/llm/client.py:160-238 | Exactly one usage row is recorded: the reported input if positive, the reported output if not negative, else what was reserved; the episode's totals move by it and one call. |
| LlmBudget.RecordedCallsWithinLimits | packages/core/src/belief_ledger_core/store.py:651-722 | At every point of such a run the recorded rows of a turn, counted, and the episode's totals are within their limits. |
| LlmBudget.RunBounded | belief_ledger_pramana/llm/client.py:58-220 | What is recorded plus what reservations still unrecorded stand for never exceeds a limit. |
| LlmBudget.StaleDropBreaksTheLimit | packages/core/src/belief_ledger_core/store.py:672-676 | With one call allowed, a call that outlives the stale window is forgotten, a second is admitted, and both are recorded: the proviso is needed. |
| LlmBudget.DropLast | packages/core/src/belief_ledger_core/store.py:724-726 | Releasing the row just reserved gives back the table before it. |
| Relabel.EdgeActivityDrafts | belief_ledger_pramana/runtime/episode_service.py:1138-1145 | The drafts set every edge to the outcome's activity, each flips an edge of the episode, and there are none if and only if all agree already. |
| Relabel.OneBelief | belief_ledger_pramana/runtime/episode_service.py:1180-1206 | For one belief: a status draft if and only if the status differs, and a notice with exactly its transitive dependents if and only if it was rendered, leaves IN and has no active notice. |
| Relabel.BeliefTransitionDrafts | belief_ledger_pramana/runtime/episode_service.py:1147-1207 | The drafts set every belief to its outcome status, add the notices due and no others, and the beliefs reported as defeated are exactly those going from in to out that were not sampled as defeated. |
| Relabel.OpenDrafts | belief_ledger_pramana/runtime/episode_service.py:1221-1243 | Opens exactly the new pairs, each on the one open cross-source task of its first belief, making a task only where there is none. |
| Relabel.ResolveDrafts | belief_ledger_pramana/runtime/episode_service.py:1244-1253 | Resolves exactly the open pairs the outcome no longer has; accepted if and only if none of them was resolved before. |
| Relabel.ConflictTransitionDrafts | belief_ledger_pramana/runtime/episode_service.py:1209-1254 | Both together, as one diff between the open pairs and the outcome. |
| Relabel.OpenPairsMatch | belief_ledger_pramana/runtime/episode_service.py:1209-1254 | After that diff the open pairs are the outcome's pairs. |
| Relabel.RelabelSummaryDrafts | belief_ledger_pramana/runtime/episode_service.py:1256-1281 | Reports every newly defeated belief once against its own source, and the oscillation if there was one. |
| Relabel.Relabel | belief_ledger_pramana/runtime/episode_service.py:1104-1135 | One pass: the batch is accepted if and only if no pair is resolved a second time, and then leaves the state the outcome describes; it is empty if and only if the state matched and nothing oscillated. |
| Relabel.StateMatchesOutcome | belief_ledger_pramana/runtime/episode_service.py:1104-1135 | After an accepted pass statuses, edge activity and open pairs are the outcome's, so an immediate second pass with it has nothing to say. |
| Relabel.NoticesPromise | belief_ledger_pramana/runtime/episode_service.py:1186-1206 | A pass keeps at most one active notice per belief; every rendered belief that leaves IN has one, and a new one lists exactly what was derived from its belief. |
| Relabel.TablesStayUnique | packages/core/src/belief_ledger_core/migrations.py:168-188 | An accepted pass keeps the unique keys of tasks and conflicts, conflict pairs in order, and every belief on a source of its episode. |
| Relabel.SecondResolutionAborts | packages/core/src/belief_ledger_core/migrations.py:179-188 | A pair that was resolved, opened again and then dropped by the outcome makes that pass abort: the first resolved row is in the way. |
| RelabelOutcomes.StatusesLeft | belief_ledger_pramana/runtime/episode_service.py:1138-1184 | After a pass every belief has the outcome's status and all else as before, and an edge is active exactly if the outcome says so. |
| RelabelOutcomes.NoticesLeft | belief_ledger_pramana/runtime/episode_service.py:1186-1206 | A new notice is made for exactly the beliefs that were rendered, were IN, are not any more and had no active notice, one each, listing what was derived from it. |
| RelabelOutcomes.SamplesLeft | belief_ledger_pramana/runtime/episode_service.py:1180-1190 | Exactly the beliefs that were IN, are OUT and were not sampled as defeated are counted, once each, against their own source. |
| RelabelOutcomes.ConflictsLeft | belief_ledger_pramana/runtime/episode_service.py:1209-1254 | Each pair of the outcome without an open row gets one, on an open cross-source task of its first belief; open rows whose pair is gone are closed; nothing else about the rows changes. |
| RelabelOutcomes.TasksLeft | belief_ledger_pramana/runtime/episode_service.py:1221-1236 | A task is made only for the first belief of a new pair that has no open cross-source task, one each. |
| RelabelProjection.EventRefines | packages/core/src/belief_ledger_core/projections.py:16-32 | Each draft's event handler is refused by the projection tables exactly when the view refuses the draft, and otherwise leaves tables that show the view's next state, with the other episodes' rows untouched. |
| RelabelProjection.BatchRefines | belief_ledger_pramana/runtime/episode_service.py:1104-1135 | A whole batch folded into the projection tables is accepted exactly when the view accepts it and leaves tables that show the resulting view. |
| RelabelProjection.TablesMatchOutcome | belief_ledger_pramana/runtime/episode_service.py:1104-1135 | So the rows match: each belief's status column, each edge's active column, and the open conflict rows are those of the outcome. |
| RelabelProjection.TaskUniqueIff | packages/core/src/belief_ledger_core/migrations.py:168-177 | The unique key of the task table is violated in the database exactly when the view says so. |
| RelabelProjection.ConflictUniqueIff | packages/core/src/belief_ledger_core/migrations.py:179-188 | The same for the conflict table. |
| SourceLearning.CompleteVerification | belief_ledger_pramana/runtime/episode_service.py:928-991 | A closed or missing task yields nothing, a missing belief an error; otherwise the batch closes that task, sets the admission only where the verdict changes it, and samples the source unless that outcome was sampled already; it is accepted if and only if no other task of the belief and method was completed. |
| SourceLearning.CompletedLeaves | belief_ledger_pramana/runtime/episode_service.py:950-982 | A completion closes exactly that task, makes the admission IN after CONFIRMED and OUT after DISCONFIRMED, keeps it after INCONCLUSIVE, leaves every other belief and field alone, and adds one sample of the verdict's counter exactly when it counts. |
| SourceLearning.CanCompleteIff | packages/core/src/belief_ledger_core/migrations.py:168-177 | It is accepted if and only if no other task of the same belief and method is completed. |
| VerificationTables.CompletionInTables | belief_ledger_pramana/runtime/episode_service.py:928-991 | Folded into the projection tables: refused exactly then; otherwise the task row is completed, the belief's admission column is what the verdict says, every other admission and every status is as before, and the source's counters are one sample on if the verdict counts. |
| SourceLearning.SecondCompletionAborts | belief_ledger_pramana/runtime/episode_service.py:936-944 | Once a task of a belief and method has been completed, no other such task can be, at any later point of the run. |
| SourceLearning.SecondCompletionRun | belief_ledger_pramana/runtime/episode_service.py:936-944 | A run that reaches an open task which cannot be completed. |
| SourceLearning.LearningIsConserved | packages/core/src/belief_ledger_core/store.py:928-941 | At every point of every run of relabel and verification steps, a source's samples are its confirmed plus its defeated, and each counter is the number of distinct beliefs of that source sampled with that outcome. |
| SourceLearning.LearnOne | packages/core/src/belief_ledger_core/projections.py:89-104 | One delta for a belief not yet sampled with that outcome keeps the counters conserved. |
| SourceLearning.LearnReports | belief_ledger_pramana/runtime/episode_service.py:1185-1190 | So does a batch of defeat reports on distinct unsampled beliefs. |
| SourceLearning.StepKeeps | belief_ledger_pramana/runtime/episode_service.py:950-982 | Every kind of step keeps them conserved. |
| Descendants.DescendantIds | belief_ledger_pramana/runtime/helpers.py:44-55 | On any graph, cyclic or not, the worklist ends with the sorted, duplicate-free list of the beliefs reachable in one or more steps. |
| Descendants.ReachableIsLeastClosed | packages/core/src/belief_ledger_core/store.py:751-762 | That set is the least one that holds the direct dependents and is closed under dependents, which is what the recursive query denotes. |
| Descendants.BuildDependents | belief_ledger_pramana/runtime/episode_service.py:1163-1166 | The dictionary holds exactly the pairs of a premise and a belief justified by it. |
| Ordering.LessIsStrictOrder | belief_ledger_pramana/runtime/helpers.py:55-55 | The ordering behind sorted() of ids is a strict total order. |
| Ordering.PairLessIsStrictOrder | belief_ledger_pramana/runtime/episode_service.py:1221-1221 | So is the ordering of pairs. |
| Ordering.Sort | belief_ledger_pramana/runtime/episode_service.py:1171-1171 | Sorting a set gives its elements once each, ascending. |
| Ordering.SortedUnique | belief_ledger_pramana/runtime/helpers.py:55-55 | A set has one sorted listing. |
| Schema.Visit | packages/core/src/belief_ledger_core/manifest.py:299-339 | Defined on every finite value: the references of the root not on the stack, then the value, decrease. |
| Schema.SiblingsCount | packages/core/src/belief_ledger_core/manifest.py:317-326 | Under the 2020-12 dialect a resolvable reference with siblings gives the object whose allOf lists its target and the siblings, or is refused if either is. |
| Schema.SiblingsDoNotCount | packages/core/src/belief_ledger_core/manifest.py:317-326 | Under draft-07 or no dialect it gives its target alone. |
| Schema.ConstraintIsKept | packages/core/src/belief_ledger_core/manifest.py:317-326 | A 2020-12 schema with a constraint beside a reference: its whole form. |
| Schema.ConstraintCounts | packages/core/src/belief_ledger_core/manifest.py:317-326 | Two such schemas that differ in the constraint have different forms. |
| Schema.ConstraintIsIgnored | packages/core/src/belief_ledger_core/manifest.py:317-326 | Under draft-07 the constraint is not in the form. |
| Schema.KeysKept | packages/core/src/belief_ledger_core/manifest.py:327-331 | An object loses exactly title, description, examples, $comment, default, deprecated, readOnly, $defs and definitions, and each other field is visited in its place. |
| Schema.ItemsKept | packages/core/src/belief_ledger_core/manifest.py:332-337 | An array is visited item by item in order, and sorted exactly if it is a required, enum or type array. |
| Schema.WholeFloat | packages/core/src/belief_ledger_core/manifest.py:338-339 | A float without a fraction becomes the integer. |
| Schema.ScalarsKept | packages/core/src/belief_ledger_core/manifest.py:338-339 | Any other scalar stays. |
| Schema.Refusals | packages/core/src/belief_ledger_core/manifest.py:291-298 | Canonicalizing is refused for a version other than 1, a dialect other than 2020-12, draft-07 or none, or a reference it cannot follow, in this order and for nothing else. |
| Schema.VisitIsCanonical | packages/core/src/belief_ledger_core/manifest.py:299-339 | A result holds no reference, no informational field or definitions block, no integral float, and every required, enum or type array in canonical order. |
| Schema.FixedIffCanonical | packages/core/src/belief_ledger_core/manifest.py:299-339 | The values that visit leaves alone are exactly the canonical forms. |
| Schema.VisitTwice | packages/core/src/belief_ledger_core/manifest.py:299-339 | visit is idempotent, also when the second visit is in another document. |
| Schema.ReferenceMeansTarget | packages/core/src/belief_ledger_core/manifest.py:304-327 | A reference to an existing value that is not being resolved is interchangeable with that value: both are refused or both give the same. |
| Schema.StackShrinks | packages/core/src/belief_ledger_core/manifest.py:304-327 | A smaller stack of references never changes a result. |
| Schema.StackGrows | packages/core/src/belief_ledger_core/manifest.py:304-327 | A larger one refuses only what leads back to the added reference. |
| Schema.ResultIffClear | packages/core/src/belief_ledger_core/manifest.py:304-327 | visit gives a result if and only if every reference it can come upon, through any trail of references, is a local pointer to something that is there and is not met again on the way from itself. |
| Schema.CycleIsRefused | packages/core/src/belief_ledger_core/manifest.py:308-309 | A value from which some reference leads back to itself is refused, however long the way and whatever stands around it. |
| Schema.VisitIgnoresOrder | packages/core/src/belief_ledger_core/manifest.py:328-337 | The result does not depend on the order of any required, enum or type array or of object keys, as long as no pointer picks such an array out of its place. |
| Schema.SpellingsAgree | packages/core/src/belief_ledger_core/manifest.py:291-341 | Two spellings of a schema have one canonical form, and so one digest, under that proviso. |
| Schema.PickedListKeepsOrder | packages/core/src/belief_ledger_core/manifest.py:304-327 | The form of a schema that does pick such a list out of its place: sorted in its own place, in written order where it is picked to. |
| Schema.PickedFormsAgreeOnlyIfEqual | packages/core/src/belief_ledger_core/manifest.py:304-327 | For such schemas the forms of two spellings agree if and only if the lists were written in the same order, so the proviso is needed. |
| Schema.CanonicalizeTwice | packages/core/src/belief_ledger_core/manifest.py:291-341 | Canonicalizing a form again gives the same form if and only if the object where the schema's own references end names no dialect or, outright or by reference, a supported one; a schema that is no reference itself passes. |
| Schema.FormIsRefused | packages/core/src/belief_ledger_core/manifest.py:291-297 | A schema that refers to a part with a dialect of its own is accepted, and its form is refused. |
| Schema.PropertyNamedLikeAnnotationVanishes | packages/core/src/belief_ledger_core/manifest.py:327-331 | A property that bears the name of an annotation is dropped with the annotations: equal forms do not mean equivalent schemas. |
| Schema.UnescapeIsDecode | packages/core/src/belief_ledger_core/manifest.py:312-312 | The two successive replacements decode each escape of a pointer token on its own, as section 4 of RFC 6901 asks. |
| Schema.TokenRoundTrip | packages/core/src/belief_ledger_core/manifest.py:312-312 | Every token survives escaping and unescaping. |
| Schema.PointerReachesPath | packages/core/src/belief_ledger_core/manifest.py:310-316 | A pointer written by the rules of section 4 of RFC 6901 reaches exactly the value at its path. |
| Schema.SortIgnoresOrder | packages/core/src/belief_ledger_core/manifest.py:332-336 | Sorting by canonical JSON gives equal lists if and only if the items are the same, counted. |
| Framing.BoundedLines | packages/gateway/src/belief_ledger_gateway/protocol.py:196-235 | For any stream, limit and piece size: one item per line, in order, and nothing else. |
| Framing.BoundedLine | packages/gateway/src/belief_ledger_gateway/protocol.py:204-235 | One line is read whole; it is flagged if and only if it is longer than the limit with its terminator, comes verbatim otherwise, and at most the limit is held of it. |
| Framing.ItemOf | packages/gateway/src/belief_ledger_gateway/protocol.py:204-235 | What is handed out for a line: never more than the limit, always a prefix, the whole line unless flagged. |
| Framing.LinesCutTheStream | packages/gateway/src/belief_ledger_gateway/protocol.py:196-235 | The lines cut the stream up without loss; each ends at its first terminator and only the last may have none, so no tail of a flagged line is a line. |
| Framing.PiecesDoNotShow | packages/gateway/src/belief_ledger_gateway/protocol.py:213-213 | The read size changes neither the number of items, nor which are flagged, nor the content of the others. |
| GatewayCache.GatewayService.Handle | packages/gateway/src/belief_ledger_gateway/protocol.py:48-84 | The method is the specification of one request: envelope errors first, then cache hit, reuse error or dispatch, then bounded caching. |
| GatewayCache.CacheIsMostRecent | packages/gateway/src/belief_ledger_gateway/protocol.py:65-83 | After any requests the cached keys are exactly the 1024 most recently used, in that order. |
| GatewayCache.RemembersLastAnswer | packages/gateway/src/belief_ledger_gateway/protocol.py:65-83 | What is cached under a key is the answer given at its last use. |
| GatewayCache.RepeatIsServedOnce | packages/gateway/src/belief_ledger_gateway/protocol.py:65-83 | A well-formed repeat under one of those keys is answered as before, or refused if the request differs, without a dispatch; under any other key, or none, it is dispatched and answered with its own request id and what comes of it. |
| GatewayCache.MalformedIsRefused | packages/gateway/src/belief_ledger_gateway/protocol.py:49-61 | A request of another version, without an operation, or with an identifier that is no string, or an empty key, is refused for the first of these and changes nothing. |
| GatewayCache.DispatchesCounted | packages/gateway/src/belief_ledger_gateway/protocol.py:65-73 | After any requests exactly the well-formed ones whose key was not remembered have been dispatched. |
| OrderedDict.TrimmedPut | packages/gateway/src/belief_ledger_gateway/protocol.py:79-83 | A bounded dictionary is the newest part of the unbounded one. |
| ResponseGate.Gate.Append | packages/core/src/belief_ledger_core/buffering.py:37-49 | Each way a chunk can be refused, the text that cannot be encoded included, and what it leaves behind. |
| ResponseGate.Gate.Finalize | packages/core/src/belief_ledger_core/buffering.py:54-89 | The method, with every lint and sink failure, is the specification of finalize. |
| ResponseGate.AllOrReport | packages/core/src/belief_ledger_core/buffering.py:54-89 | For every sequence of calls the sink gets at most one payload: the encodable chunks taken in order if the answer is fit and the sink took it, the block report or nothing otherwise. That is the whole text if and only if no chunk taken raised while it was encoded; accepted is said exactly when the payload was delivered. |
| ResponseGate.AcceptedIsWhole | packages/core/src/belief_ledger_core/buffering.py:54-89 | What goes out for an accepted answer is the encodable chunks in order, and that is every chunk taken if and only if all of them could be encoded. |
| ResponseGate.LostChunkIsAccepted | packages/core/src/belief_ledger_core/buffering.py:42-43 | Three calls, the first with a lone surrogate, after which an answer without the first chunk is accepted. |
| ResponseGate.NothingBeforeFinal | packages/core/src/belief_ledger_core/buffering.py:37-52 | Nothing goes out before finalize, whatever is appended. |
| ResponseGate.BufferIsText | packages/core/src/belief_ledger_core/buffering.py:37-52 | No reason has been recorded if and only if the chunks came as 0, 1, 2, ... with nothing else and fitted, and then the buffer is the concatenation of those that could be encoded. |
| ResponseGate.FirstReasonStays | packages/core/src/belief_ledger_core/buffering.py:37-52 | The first thing that goes wrong, a chunk out of turn, one that does not fit, or a cancel, gives the reason, whatever follows. |
| ResponseGate.FinalizeResult | packages/core/src/belief_ledger_core/buffering.py:54-89 | The result of the first finalize in every case: whether accepted, for which reason not, and how many bytes went out. |
| ResponseGate.LateCalls | packages/core/src/belief_ledger_core/buffering.py:37-57 | After a finalize every further one is refused as a repeat, and a chunk records that reason if there is none. |
| ResponseGate.NothingAfterFinal | packages/core/src/belief_ledger_core/buffering.py:55-57 | Nothing goes out after the first finalize. |
| ResponseGate.TextChunksDecode | packages/core/src/belief_ledger_core/buffering.py:43-43 | Chunks that are texts never make the whole undecodable. |
| Utf8.DecodeEncode | packages/core/src/belief_ledger_core/buffering.py:60-63 | Every text survives encoding and strict decoding as in section 3 of RFC 3629. |
| Utf8.EncodeDecode | packages/core/src/belief_ledger_core/buffering.py:60-63 | Whatever decodes is the encoding of what it decodes to and of nothing else. |
| Utf8.DecodeConcat | packages/core/src/belief_ledger_core/buffering.py:60-63 | Decoding a concatenation whose first part is valid decodes the parts. |
| Maintenance.Runtime.Enqueue | belief_ledger_pramana/runtime/plugin_runtime.py:423-431 | The caller's critical section. |
| Maintenance.Runtime.Take | belief_ledger_pramana/runtime/plugin_runtime.py:450-456 | The worker's critical section. |
| Maintenance.OneWorkerNoLostWakeup | belief_ledger_pramana/runtime/plugin_runtime.py:420-463 | At every point of every interleaving there is at most one worker, idle is set if and only if there is none, the queue has at most 64 entries, one an episode with its latest query, and waiting work has a worker unless a thread failed to start and nobody has called since. |
| Maintenance.RequestIsNotLost | belief_ledger_pramana/runtime/plugin_runtime.py:420-463 | A request stays queued until the worker takes it as long as fewer than 64 requests for other episodes follow it. |
| Maintenance.OnlyLastStay | belief_ledger_pramana/runtime/plugin_runtime.py:423-428 | The 64 is sharp: of any number of episodes asked for before the worker takes one, the queue holds the last 64, oldest first. |
| Maintenance.WorkerGetsThrough | belief_ledger_pramana/runtime/plugin_runtime.py:446-463 | From every point of every run with a worker, started or about to be, the worker alone can empty the queue, one take an entry, and end. |
| Render.RenderContext | packages/core/src/belief_ledger_core/context/render.py:40-93 | The method writes the entries that fit, in order, and returns their ids, whether any was left out, and the text. With a permitted configuration nothing is left out if and only if everything fits together with the contract and room for the sentinel, and then the text is all of it and the ids are all ids. |
| Render.CharacterBudget.Add | packages/core/src/belief_ledger_core/context/budget.py:15-30 | An entry is written whole with its separator if and only if it fits what is left. |
| Render.ContextFits | packages/core/src/belief_ledger_core/context/render.py:49-93 | For every selection and permitted configuration the text fits the maximum, the final slice cuts nothing, the whole contract is its end, and the sentinel stands before it whenever an entry was left out. |
| Render.ContractLength | packages/core/src/belief_ledger_core/context/render.py:159-168 | Contract, separator and sentinel take at most 506 characters, within the smallest permitted maximum of 512. |
| Render.WrittenAreEntries | packages/core/src/belief_ledger_core/context/budget.py:15-30 | What is written is one subsequence of the entries, each whole: an ascending list of positions for all of them at once. |
| Render.EntriesInOrder | packages/core/src/belief_ledger_core/context/render.py:60-85 | What is offered: retractions under their heading, conflicts under theirs, the headline, the beliefs. |

## Left out

- SQLite itself: journaling, busy retries, file permissions, temporary files; only atomicity, rollback, keys and cascades are kept.
- SHA-256 and HMAC internals and JSON byte encoding; hashes and encodings are injective by construction.
- The defeat, priority, trust and validity engine, the action gate, the linter and prompts: their results are inputs.
- The full-text index `beliefs_fts`, which accelerated replay clears without refilling below the snapshot.
- Host plugin registration, hooks, the command line, the MCP server and provider calls.
- Malformed payloads: events are typed, so a handler fails only on the checks and constraints it makes itself.
- Tool policy matching and classification (`ToolPolicyManifest.match`, `classify_inventory`): finite field checks.
- Policy evaluation in `_evaluate_with_policy` beyond the issue step it ends in.
- AuthorizationStore.EnforcementStore.IssueAction: one clock reading serves a whole transaction, and a clash of two authorization event identifiers is not modelled.
- AuthorizationStore.EnforcementStore.ConsumeAction: callbacks answer yes, no or nothing; one that raises is not modelled, it rolls the transaction back.
- AuthorizationCompaction.PurgeKeepsTheOthers: needs that the token generator never repeats a token; a repeated one would tie rows of two episodes to one digest.
- Snapshots.AcceleratedReplay: approval and decision tables are not captured, because a rebuild from the authorization log overwrites them; it verifies the chain and clears reservations as `LedgerStore.Store.Replay` does.
- Snapshots.CacheStaysHonest: a purge stops every client, as its documentation demands, so no height read before it labels a capture after it.
- Snapshots.LateCaptureRestates: one direction; events in between that give a UNIQUE column of one row two values can clash or not, and a counter that is lowered or set above the height can come out right by accident.
- AuthorizationProtocol.NothingConsumedAfterFinalize: for ledger commits that keep the episode's row, as every event handler does; a purge of that episode removes its permits with it.
- LedgerStore.Store.Replay: the authorization tables and their rebuild are in `AuthorizationStore.EnforcementStore.Rebuild`, the projection seal is left out.
- Projections.HandlerGuarded: repeated `belief_evidence` rows without a span, which SQLite admits, are kept once.
- ProjectionRows.BeliefMade: the column of `content_fingerprints` that holds the source's root is called `root` here, as in `source_roots`.
- Schema.Canonicalize: the order that canonical JSON induces on values is any strict total order; NaN and infinity, which JSON does not have, are left out, and all reference errors are one error.
- Schema.VisitIgnoresOrder: the proviso on picked arrays is sufficient; that it is needed is shown for the schemas of `Schema.PickedFormsAgreeOnlyIfEqual`, not for every schema that breaks it, since a picked list may sit in a part that is dropped.
- Framing.BoundedLines: the generator is run to its end; a consumer that stops early sees a prefix of the items.
- Render.RenderContext: the line of a belief is an input; `render_belief_line` and its metadata are string formatting.
- RelabelProjection.EventRefines: the JSON column with a notice's descendants and the deltas read back from the log are not compared with a table.
- SourceLearning.CompleteVerification: the three verdicts are a datatype, so the error for any other string is not modelled.
- LlmBudget.BudgetStore.CompleteStructured: prompts, timeouts, health flags and cost accounting of the client.
