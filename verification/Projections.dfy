/**
 Ledger events and the projection handlers of `projections.py`. Each handler is given as the
 statements it executes, with its episode-ownership checks in place.
 */
module Projections {
  import opened Wrappers
  import opened Sql

  datatype EvidenceRef = EvidenceRef(evidenceId: string, span: Value)

  datatype JustificationRecord = JustificationRecord(id: string, belief: string, premises: seq<string>, cols: Columns)

  datatype RenderedRef = RenderedRef(belief: string, requestId: string, cols: Columns)

  // `owner` is the episode_id inside a record, which must repeat the event's own episode.
  // Columns no handler inspects are carried in `cols`.
  datatype Payload =
    | EpisodeCreated(id: string, key: string, cols: Columns)
    | TurnStarted(turn: int, at: string)
    | StakesChanged(to: string, at: string)
    | EpisodeStateChanged(state: string, at: string, newKey: Option<string>)
    | SourceRegistered(id: string, owner: string, root: string, kind: string, cols: Columns)
    | SourceStatsUpdated(cols: Columns)
    | SourceStatsDelta(belief: string, confirmed: int, defeated: int, samples: int)
    | EvidenceIngested(id: string, owner: string, source: string, cols: Columns)
    | BeliefAdmitted(id: string, owner: string, source: string, evidence: seq<EvidenceRef>,
                     justifications: seq<JustificationRecord>, status: string, transport: Value, cols: Columns)
    | SupportAdded(id: string, owner: string, belief: string, evidenceId: string, cols: Columns)
    | SupportActivityChanged(active: bool)
    | JustificationAdded(record: JustificationRecord)
    | JustificationAudited(audit: Value)
    | DefeatAdded(id: string, owner: string, attacker: string, target: string, active: bool, cols: Columns)
    | DefeatActivityChanged(active: bool)
    | BeliefStatusChanged(to: string)
    | BeliefAdmissionChanged(to: string)
    | ObservationRefreshed(evidenceId: string, at: string, span: Value)
    | CorroborationChanged(level: int)
    | TaskCreated(id: string, owner: string, belief: string, method_: string, state: string, cols: Columns)
    | TaskCompleted(result: Value, state: string)
    | ConflictOpened(id: string, owner: string, left: string, right: string, task: string, state: string, cols: Columns)
    | ConflictResolved
    | RetractionCreated(id: string, owner: string, belief: string, descendants: seq<string>, state: string, cols: Columns)
    | RetractionStateChanged(acknowledged: bool)
    | ContextCompiled(rendered: seq<RenderedRef>)
    | VerdictRecorded(id: string, owner: string, about: Option<string>, cols: Columns)
    | UsageRecorded(id: string, owner: string, inputTokens: int, outputTokens: int, cols: Columns)
    | UnpromotedAdded(evidenceId: string, cols: Columns)
    | UnpromotedFinished(evidenceId: string, resolved: bool, reason: string)
    | LintRecorded(cols: Columns)
    | GateDecided(cols: Columns)
    | ResponseRecorded(cols: Columns)
    // Kinds without a handler, such as HOST_CAPABILITIES_RECORDED, only advance the head.
    | Unprojected(kind: string)

  datatype Body = Body(seq_: nat, id: string, episodeId: string, timestamp: string, aggregateId: string,
                       correlation: map<string, string>, causal: Option<string>, payload: Payload)

  // SHA-256 over the previous hash and the canonical body, as a free constructor.
  datatype Hash = Zero | Link(previous: Hash, body: Body)

  datatype Event = Event(body: Body, previous: Hash, hash: Hash)

  datatype Head = Head(seq_: nat, hash: Hash)

  // Projection tables and event_heads.
  datatype Projection = Projection(db: Db, heads: map<string, Head>)

  const EmptyProjection := Projection(map[], map[])

  /******* Handlers *******/

  function Id(t: Table, id: string): Key {
    Key(t, [Text(id)])
  }

  function In(t: Table, ep: string, rest: seq<Value>): Key {
    Key(t, [Text(ep)] + rest)
  }

  function Own(t: Table, id: string, ep: string): Stmt {
    Owned([Id(t, id)], ep)
  }

  function OwnEach(ids: seq<string>, ep: string): seq<Stmt> {
    seq(|ids|, i requires 0 <= i < |ids| => Own(Beliefs, ids[i], ep))
  }

  function JustificationStmts(j: JustificationRecord, ep: string): seq<Stmt> {
    [Own(Beliefs, j.belief, ep)] + OwnEach(j.premises, ep)
    + [Insert(Id(Justifications, j.id), Row(ep, j.cols["belief_id" := Text(j.belief)]))]
    + seq(|j.premises|, i requires 0 <= i < |j.premises| =>
        Insert(In(Premises, ep, [Text(j.id), Num(i)]), Row(ep, map["premise_belief_id" := Text(j.premises[i])])))
  }

  function AllJustifications(js: seq<JustificationRecord>, ep: string): seq<Stmt> {
    if js == [] then [] else AllJustifications(js[..|js| - 1], ep) + JustificationStmts(js[|js| - 1], ep)
  }

  // SQLite lets a NULL repeat in a primary key; the repeated row says nothing new.
  function EvidenceLink(belief: string, r: EvidenceRef, ep: string): Stmt {
    var key, row := In(BeliefEvidence, ep, [Text(belief), Text(r.evidenceId), r.span]), Row(ep, map["span_json" := r.span]);
    if r.span == Null then InsertIgnore(key, row) else Insert(key, row)
  }

  // The content hash that the belief's own row holds.
  function Fingerprint(cols: Columns): Value {
    if "content_fingerprint" in cols then cols["content_fingerprint"] else Null
  }

  function BeliefStmts(b: Payload, ep: string): seq<Stmt>
    requires b.BeliefAdmitted?
  {
    [Check(b.owner == ep), Own(Sources, b.source, ep)]
    + seq(|b.evidence|, i requires 0 <= i < |b.evidence| => Own(Evidence, b.evidence[i].evidenceId, ep))
    + [Insert(Id(Beliefs, b.id), Row(ep, b.cols["status" := Text(b.status)]["source_id" := Text(b.source)]))]
    + seq(|b.evidence|, i requires 0 <= i < |b.evidence| => EvidenceLink(b.id, b.evidence[i], ep))
    + AllJustifications(b.justifications, ep)
    // A belief is admitted once, so its root and fingerprint rows are keyed by it alone.
    + [InsertCopying(In(SourceRoots, ep, [Text(b.id)]), Row(ep, map["transport" := b.transport]),
                     Id(Sources, b.source), "root", Text("unknown")),
       InsertCopying(In(Fingerprints, ep, [Text(b.id)]), Row(ep, map["fingerprint" := Fingerprint(b.cols)]),
                     Id(Sources, b.source), "root", Text("unknown"))]
  }

  function RenderedStmts(rs: seq<RenderedRef>, ep: string): seq<Stmt> {
    if rs == [] then []
    else
      var r := rs[|rs| - 1];
      RenderedStmts(rs[..|rs| - 1], ep)
      + [Own(Beliefs, r.belief, ep),
         InsertIgnore(In(Rendered, ep, [Text(r.belief), Text(r.requestId)]), Row(ep, r.cols))]
  }

  // _require_entity_episode on the aggregate, then one UPDATE of it.
  function Amend(t: Table, id: string, ep: string, sets: Columns): seq<Stmt> {
    [Own(t, id, ep), Update(Id(t, id), sets)]
  }

  function Handler(e: Body): seq<Stmt> {
    var ep, agg := e.episodeId, e.aggregateId;
    match e.payload
    case EpisodeCreated(id, key, cols) =>
      [Check(id == ep), Insert(Id(Episodes, ep), Row(ep, cols["episode_key" := Text(key)]))]
    case TurnStarted(turn, at) =>
      [Update(Id(Episodes, ep), map["current_turn" := Num(turn), "updated_at" := Text(at)])]
    case StakesChanged(to, at) =>
      [Update(Id(Episodes, ep), map["default_stakes" := Text(to), "updated_at" := Text(at)])]
    case EpisodeStateChanged(state, at, newKey) =>
      var sets: Columns := map["state" := Text(state), "updated_at" := Text(at)];
      [Update(Id(Episodes, ep), if newKey.Some? then sets["episode_key" := Text(newKey.value)] else sets)]
    case SourceRegistered(id, owner, root, kind, cols) =>
      [Check(owner == ep), Insert(Id(Sources, id), Row(ep, cols["root" := Text(root)]["kind" := Text(kind)]))]
    case SourceStatsUpdated(cols) => Amend(Sources, agg, ep, cols)
    case SourceStatsDelta(_, c, d, s) =>
      [Own(Sources, agg, ep), Bump(Id(Sources, agg), map["confirmed" := c, "defeated" := d, "samples" := s], true)]
    case EvidenceIngested(id, owner, source, cols) =>
      [Check(owner == ep), Own(Sources, source, ep), Insert(Id(Evidence, id), Row(ep, cols["source_id" := Text(source)]))]
    case BeliefAdmitted(_, _, _, _, _, _, _, _) => BeliefStmts(e.payload, ep)
    case SupportAdded(id, owner, belief, evidence, cols) =>
      [Check(owner == ep), Own(Beliefs, belief, ep), Own(Evidence, evidence, ep),
       Insert(Id(Supports, id), Row(ep, cols["belief_id" := Text(belief)]["evidence_id" := Text(evidence)]))]
    case SupportActivityChanged(active) => Amend(Supports, agg, ep, map["active" := Flag(active)])
    case JustificationAdded(j) => JustificationStmts(j, ep)
    case JustificationAudited(audit) => Amend(Justifications, agg, ep, map["audit_json" := audit])
    case DefeatAdded(id, owner, attacker, target, active, cols) =>
      [Check(owner == ep), Own(Beliefs, attacker, ep),
       Owned([Id(Beliefs, target), Id(Justifications, target)], ep),
       Insert(Id(Defeats, id), Row(ep, cols["attacker" := Text(attacker)]["target" := Text(target)]["active" := Flag(active)]))]
    case DefeatActivityChanged(active) => Amend(Defeats, agg, ep, map["active" := Flag(active)])
    case BeliefStatusChanged(to) => Amend(Beliefs, agg, ep, map["status" := Text(to)])
    case BeliefAdmissionChanged(to) => Amend(Beliefs, agg, ep, map["admission_status" := Text(to)])
    case ObservationRefreshed(evidence, at, span) =>
      [Own(Beliefs, agg, ep), Own(Evidence, evidence, ep), Update(Id(Beliefs, agg), map["observed_at" := Text(at)]),
       InsertIgnore(In(BeliefEvidence, ep, [Text(agg), Text(evidence), span]), Row(ep, map["span_json" := span]))]
    case CorroborationChanged(level) => Amend(Beliefs, agg, ep, map["corroboration" := Num(level)])
    case TaskCreated(id, owner, belief, method_, state, cols) =>
      [Check(owner == ep), Own(Beliefs, belief, ep),
       Insert(Id(Tasks, id), Row(ep, cols["belief_id" := Text(belief)]["method" := Text(method_)]["state" := Text(state)]))]
    case TaskCompleted(result, state) => Amend(Tasks, agg, ep, map["result" := result, "state" := Text(state)])
    case ConflictOpened(id, owner, left, right, task, state, cols) =>
      [Check(owner == ep), Own(Beliefs, left, ep), Own(Beliefs, right, ep), Own(Tasks, task, ep),
       Insert(Id(Conflicts, id), Row(ep, cols["left_belief_id" := Text(left)]["right_belief_id" := Text(right)]["state" := Text(state)]))]
    case ConflictResolved => Amend(Conflicts, agg, ep, map["state" := Text("resolved")])
    case RetractionCreated(id, owner, belief, descendants, state, cols) =>
      [Check(owner == ep), Own(Beliefs, belief, ep)] + OwnEach(descendants, ep)
      + [Insert(Id(Notices, id), Row(ep, cols["defeated_belief_id" := Text(belief)]["state" := Text(state)]))]
    case RetractionStateChanged(acknowledged) =>
      Amend(Notices, agg, ep, map["state" := Text(if acknowledged then "acknowledged" else "expired")])
    case ContextCompiled(rendered) => RenderedStmts(rendered, ep)
    case VerdictRecorded(id, owner, about, cols) =>
      [Check(owner == ep)] + (if about.Some? then [Own(Beliefs, about.value, ep)] else [])
      + [Insert(Id(Verdicts, id), Row(ep, cols))]
    case UsageRecorded(id, owner, input, output, cols) =>
      [Check(owner == ep), Insert(Id(Usage, id), Row(ep, cols["input_tokens" := Num(input)]["output_tokens" := Num(output)])),
       Bump(Id(Episodes, ep), map["llm_calls_used" := 1, "input_tokens_used" := input, "output_tokens_used" := output], false)]
    case UnpromotedAdded(evidence, cols) =>
      [Own(Evidence, evidence, ep),
       Replace(In(Unpromoted, ep, [Text(evidence)]), Row(ep, cols["state" := Text("open")]))]
    case UnpromotedFinished(evidence, resolved, reason) =>
      [Update(In(Unpromoted, ep, [Text(evidence)]),
              map["state" := Text(if resolved then "resolved" else "failed"), "reason" := Text(reason)])]
    case LintRecorded(cols) => [Insert(Id(LintReports, e.id), Row(ep, cols))]
    case GateDecided(cols) => [Insert(Id(GateDecisions, e.id), Row(ep, cols))]
    case ResponseRecorded(cols) => [Insert(Id(Responses, e.id), Row(ep, cols))]
    case Unprojected(_) => []
  }

  function Statements(e: Body): seq<Stmt> {
    (if e.payload.EpisodeCreated? then [] else [Exists(Id(Episodes, e.episodeId))]) + Handler(e)
  }

  function Apply(p: Projection, e: Event): Option<Projection> {
    match ExecAll(p.db, Statements(e.body))
    case None => None
    case Some(db) => Some(Projection(db, p.heads[e.body.episodeId := Head(e.body.seq_, e.hash)]))
  }

  // Replay from origin.
  function Fold(events: seq<Event>): Option<Projection> {
    if events == [] then Some(EmptyProjection)
    else match Fold(events[..|events| - 1])
         case None => None
         case Some(p) => Apply(p, events[|events| - 1])
  }

  function FoldFrom(p: Projection, events: seq<Event>): Option<Projection> {
    if events == [] then Some(p)
    else match FoldFrom(p, events[..|events| - 1])
         case None => None
         case Some(q) => Apply(q, events[|events| - 1])
  }

  lemma {:induction false} FoldConcat(a: seq<Event>, b: seq<Event>)
    ensures Fold(a + b) == match Fold(a) case None => None case Some(p) => FoldFrom(p, b)
  {
    if b == [] {
      assert a + b == a;
    } else {
      var n := |b| - 1;
      assert (a + b)[..|a + b| - 1] == a + b[..n];
      FoldConcat(a, b[..n]);
    }
  }

  /******* Every handler stays within its own episode *******/

  // Statements that overwrite nothing.
  predicate Plain(stmts: seq<Stmt>, ep: string) {
    forall i | 0 <= i < |stmts| ::
      Local(stmts[i], ep) && !stmts[i].Update? && !stmts[i].Bump? && !stmts[i].InsertCopying?
  }

  lemma PlainIsGuarded(stmts: seq<Stmt>, ep: string)
    requires Plain(stmts, ep)
    ensures Guarded(stmts, ep)
  {
  }

  lemma {:induction false} JustificationsPlain(js: seq<JustificationRecord>, ep: string)
    ensures Plain(AllJustifications(js, ep), ep)
  {
    if js != [] {
      JustificationsPlain(js[..|js| - 1], ep);
      JustificationPlain(js[|js| - 1], ep);
    }
  }

  lemma JustificationPlain(j: JustificationRecord, ep: string)
    ensures Plain(JustificationStmts(j, ep), ep)
  {
  }

  lemma {:induction false} RenderedPlain(rs: seq<RenderedRef>, ep: string)
    ensures Plain(RenderedStmts(rs, ep), ep)
  {
    if rs != [] {
      RenderedPlain(rs[..|rs| - 1], ep);
    }
  }

  // Copying statements may follow once the row they copy from has been checked.
  lemma GuardedCopies(first: seq<Stmt>, copies: seq<Stmt>, source: Key, ep: string)
    requires Plain(first, ep) && exists j | 0 <= j < |first| :: first[j] == Owned([source], ep)
    requires forall i | 0 <= i < |copies| :: Local(copies[i], ep) && copies[i].InsertCopying? && copies[i].source == source
    ensures Guarded(first + copies, ep)
  {
    var all := first + copies;
    var j :| 0 <= j < |first| && first[j] == Owned([source], ep);
    assert all[j] == Owned([source], ep);
  }

  lemma BeliefStmtsGuarded(b: Payload, ep: string)
    requires b.BeliefAdmitted?
    ensures Guarded(BeliefStmts(b, ep), ep)
  {
    JustificationsPlain(b.justifications, ep);
    var copies := BeliefStmts(b, ep)[|BeliefStmts(b, ep)| - 2..];
    var first := BeliefStmts(b, ep)[..|BeliefStmts(b, ep)| - 2];
    assert first == [Check(b.owner == ep), Own(Sources, b.source, ep)]
      + seq(|b.evidence|, i requires 0 <= i < |b.evidence| => Own(Evidence, b.evidence[i].evidenceId, ep))
      + [Insert(Id(Beliefs, b.id), Row(ep, b.cols["status" := Text(b.status)]["source_id" := Text(b.source)]))]
      + seq(|b.evidence|, i requires 0 <= i < |b.evidence| => EvidenceLink(b.id, b.evidence[i], ep))
      + AllJustifications(b.justifications, ep);
    assert first[1] == Owned([Id(Sources, b.source)], ep);
    GuardedCopies(first, copies, Id(Sources, b.source), ep);
    assert BeliefStmts(b, ep) == first + copies;
  }

  lemma AmendGuarded(t: Table, id: string, ep: string, sets: Columns)
    ensures Guarded(Amend(t, id, ep, sets), ep)
  {
    assert Amend(t, id, ep, sets)[0] == Owned([Id(t, id)], ep);
  }

  lemma UpdateGuarded(k: Key, sets: Columns, ep: string)
    requires InEpisode(k, ep)
    ensures Guarded([Update(k, sets)], ep)
  {
  }

  // Events that only insert.
  predicate AddsEntity(p: Payload) {
    || p.EpisodeCreated? || p.SourceRegistered? || p.EvidenceIngested? || p.SupportAdded? || p.DefeatAdded?
    || p.TaskCreated? || p.ConflictOpened?
  }

  predicate AddsRecord(p: Payload) {
    || p.VerdictRecorded? || p.UnpromotedAdded?
    || p.LintRecorded? || p.GateDecided? || p.ResponseRecorded? || p.Unprojected?
  }

  lemma AddsEntityPlain(e: Body)
    requires AddsEntity(e.payload)
    ensures Plain(Handler(e), e.episodeId)
  {
  }

  lemma AddsRecordPlain(e: Body)
    requires AddsRecord(e.payload)
    ensures Plain(Handler(e), e.episodeId)
  {
  }

  lemma RetractionPlain(e: Body)
    requires e.payload.RetractionCreated?
    ensures Plain(Handler(e), e.episodeId)
  {
  }

  lemma HandlerGuarded(e: Body)
    ensures Guarded(Handler(e), e.episodeId)
  {
    var ep, agg, stmts := e.episodeId, e.aggregateId, Handler(e);
    if AddsEntity(e.payload) {
      AddsEntityPlain(e);
      PlainIsGuarded(stmts, ep);
    } else if AddsRecord(e.payload) {
      AddsRecordPlain(e);
      PlainIsGuarded(stmts, ep);
    } else if e.payload.UsageRecorded? || e.payload.SourceStatsDelta? || e.payload.ObservationRefreshed? {
      BumpsGuarded(e);
    } else {
      hide Guarded;
      match e.payload
      case TurnStarted(_, _) => UpdateGuarded(stmts[0].key, stmts[0].sets, ep);
      case StakesChanged(_, _) => UpdateGuarded(stmts[0].key, stmts[0].sets, ep);
      case EpisodeStateChanged(_, _, _) => UpdateGuarded(stmts[0].key, stmts[0].sets, ep);
      case UnpromotedFinished(_, _, _) => UpdateGuarded(stmts[0].key, stmts[0].sets, ep);
      case BeliefAdmitted(_, _, _, _, _, _, _, _) => BeliefStmtsGuarded(e.payload, ep);
      case JustificationAdded(j) => JustificationPlain(j, ep); PlainIsGuarded(stmts, ep);
      case RetractionCreated(_, _, _, _, _, _) => RetractionPlain(e); PlainIsGuarded(stmts, ep);
      case ContextCompiled(rendered) => RenderedPlain(rendered, ep); PlainIsGuarded(stmts, ep);
      case SourceStatsUpdated(_) => AmendGuarded(Sources, agg, ep, stmts[1].sets);
      case SupportActivityChanged(_) => AmendGuarded(Supports, agg, ep, stmts[1].sets);
      case JustificationAudited(_) => AmendGuarded(Justifications, agg, ep, stmts[1].sets);
      case DefeatActivityChanged(_) => AmendGuarded(Defeats, agg, ep, stmts[1].sets);
      case BeliefStatusChanged(_) => AmendGuarded(Beliefs, agg, ep, stmts[1].sets);
      case BeliefAdmissionChanged(_) => AmendGuarded(Beliefs, agg, ep, stmts[1].sets);
      case CorroborationChanged(_) => AmendGuarded(Beliefs, agg, ep, stmts[1].sets);
      case TaskCompleted(_, _) => AmendGuarded(Tasks, agg, ep, stmts[1].sets);
      case ConflictResolved => AmendGuarded(Conflicts, agg, ep, stmts[1].sets);
      case RetractionStateChanged(_) => AmendGuarded(Notices, agg, ep, stmts[1].sets);
    }
  }

  lemma BumpsGuarded(e: Body)
    requires e.payload.UsageRecorded? || e.payload.SourceStatsDelta? || e.payload.ObservationRefreshed?
    ensures Guarded(Handler(e), e.episodeId)
  {
    var stmts := Handler(e);
    assert e.payload.SourceStatsDelta? ==> stmts[0] == Owned([Id(Sources, e.aggregateId)], e.episodeId);
    assert e.payload.ObservationRefreshed? ==> stmts[0] == Owned([Id(Beliefs, e.aggregateId)], e.episodeId);
  }

  lemma StatementsGuarded(e: Body)
    ensures Guarded(Statements(e), e.episodeId)
  {
    hide Handler, Guarded;
    HandlerGuarded(e);
    if e.payload.EpisodeCreated? {
      assert Statements(e) == Handler(e);
    } else {
      GuardedCons(Exists(Id(Episodes, e.episodeId)), Handler(e), e.episodeId);
    }
  }

  /******* Episode non-interference *******/

  function Others(events: seq<Event>, x: string): seq<Event> {
    if events == [] then []
    else
      var init, last := events[..|events| - 1], events[|events| - 1];
      Others(init, x) + (if last.body.episodeId != x then [last] else [])
  }

  function Without(p: Projection, x: string): Projection {
    Projection(Outside(p.db, x), p.heads - {x})
  }

  lemma ApplyOutside(p: Projection, e: Event, x: string)
    requires WellKeyed(p.db) && Apply(p, e).Some?
    ensures WellKeyed(Apply(p, e).value.db)
    ensures e.body.episodeId == x ==> Without(Apply(p, e).value, x) == Without(p, x)
    ensures e.body.episodeId != x ==> Apply(Without(p, x), e) == Some(Without(Apply(p, e).value, x))
  {
    hide Statements, Outside;
    StatementsGuarded(e.body);
    ExecAllOutside(p.db, Statements(e.body), e.body.episodeId, x);
    var head := Head(e.body.seq_, e.hash);
    if e.body.episodeId == x {
      assert p.heads[x := head] - {x} == p.heads - {x};
    } else {
      assert (p.heads - {x})[e.body.episodeId := head] == p.heads[e.body.episodeId := head] - {x};
    }
  }

  // Replaying only the other episodes' events succeeds and gives exactly the restriction of
  // the full projection, heads included.
  lemma {:induction false} ReplayOfOthers(events: seq<Event>, x: string)
    requires Fold(events).Some?
    ensures WellKeyed(Fold(events).value.db)
    ensures Fold(Others(events, x)) == Some(Without(Fold(events).value, x))
  {
    hide Apply, Without;
    if events == [] {
      WithoutEmpty(x);
    } else {
      var init, last := events[..|events| - 1], events[|events| - 1];
      ReplayOfOthers(init, x);
      ApplyOutside(Fold(init).value, last, x);
      assert last.body.episodeId == x ==> Others(events, x) == Others(init, x);
      assert (Others(init, x) + [last])[..|Others(init, x)|] == Others(init, x);
    }
  }

  lemma WithoutEmpty(x: string)
    ensures Without(EmptyProjection, x) == EmptyProjection
  {
  }
}
