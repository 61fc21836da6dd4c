/**
 The ledger that consuming a permit reads is the projection that the event handlers keep: what
 finalize and retract write there, and why nothing else reopens an episode.
 */
module LedgerViews {
  import opened Wrappers
  import opened Sql
  import opened Projections
  import opened RP = RelabelProjection
  import opened Reapplication
  import opened ProjectionRows
  import L = Ledger
  import A = Authorization
  import AP = AuthorizationProtocol

  // The text identifiers in one table.
  function Ids(db: Db, t: Table): set<string> {
    set k | k in db && k.table == t && |k.pk| == 1 && k.pk[0].Text? :: k.pk[0].text
  }

  lemma IdsAre(db: Db, t: Table, id: string)
    ensures id in Ids(db, t) <==> Id(t, id) in db
  {
    if Id(t, id) in db {
      IdInTable(db, t, Id(t, id));
    }
    if id in Ids(db, t) {
      var k :| k in db && k.table == t && |k.pk| == 1 && k.pk[0].Text? && k.pk[0].text == id;
      assert k.pk == [Text(id)];
    }
  }

  lemma IdInTable(db: Db, t: Table, k: Key)
    requires k in db && k.table == t && |k.pk| == 1 && k.pk[0].Text?
    ensures k.pk[0].text in Ids(db, t)
  {
  }

  function ReadText(db: Db, k: Key, c: string): string {
    if k in db && Column(db[k], c).Text? then Column(db[k], c).text else ""
  }

  function EpisodeAt(db: Db, k: Key): string {
    if k in db then db[k].episode else ""
  }

  function BeliefsOf(db: Db): map<string, A.BeliefRow> {
    map id | id in Ids(db, Beliefs) :: A.BeliefRow(EpisodeAt(db, Id(Beliefs, id)), ReadText(db, Id(Beliefs, id), "status"))
  }

  function EpisodesOf(db: Db): map<string, string> {
    map id | id in Ids(db, Episodes) :: ReadText(db, Id(Episodes, id), "state")
  }

  function ConflictsOf(db: Db): map<string, A.ConflictRow> {
    map id | id in Ids(db, Conflicts) :: A.ConflictRow(EpisodeAt(db, Id(Conflicts, id)), ReadText(db, Id(Conflicts, id), "state"))
  }

  // The three tables as `consume_action` reads them.
  function ViewOf(db: Db): A.LedgerView {
    A.LedgerView(Some(BeliefsOf(db)), Some(EpisodesOf(db)), Some(ConflictsOf(db)))
  }

  lemma AmendedIds(db: Db, after: Db, k: Key, sets: Columns, t: Table)
    requires Edited(db, after, k, sets)
    ensures Ids(after, t) == Ids(db, t)
    ensures forall id | Id(t, id) != k :: forall c :: ReadText(after, Id(t, id), c) == ReadText(db, Id(t, id), c)
    ensures forall id :: EpisodeAt(after, Id(t, id)) == EpisodeAt(db, Id(t, id))
    ensures forall c :: ReadText(after, k, c) ==
              if c in sets then (if sets[c].Text? then sets[c].text else "") else ReadText(db, k, c)
  {
    forall id ensures id in Ids(after, t) <==> id in Ids(db, t) {
      IdsAre(db, t, id);
      IdsAre(after, t, id);
    }
  }

  lemma TextIn(sets: Columns, c: string, text: string)
    requires c in sets && sets[c] == Text(text)
    ensures (if sets[c].Text? then sets[c].text else "") == text
  {
  }

  // A row of another table does not show.
  lemma OtherTableUnseen(db: Db, after: Db, k: Key, sets: Columns)
    requires Edited(db, after, k, sets)
    ensures k.table != Beliefs ==> BeliefsOf(after) == BeliefsOf(db)
    ensures k.table != Episodes ==> EpisodesOf(after) == EpisodesOf(db)
    ensures k.table != Conflicts ==> ConflictsOf(after) == ConflictsOf(db)
  {
    hide Edited, Ids, ReadText, EpisodeAt;
    if k.table != Beliefs { AmendedIds(db, after, k, sets, Beliefs); }
    if k.table != Episodes { AmendedIds(db, after, k, sets, Episodes); }
    if k.table != Conflicts { AmendedIds(db, after, k, sets, Conflicts); }
  }

  lemma StateSeen(db: Db, after: Db, ep: string, sets: Columns, state: string)
    requires Edited(db, after, Id(Episodes, ep), sets) && "state" in sets && sets["state"] == Text(state)
    ensures EpisodesOf(after) == EpisodesOf(db)[ep := state]
  {
    hide ReadText, EpisodeAt, Ids;
    AmendedIds(db, after, Id(Episodes, ep), sets, Episodes);
    IdsAre(db, Episodes, ep);
    TextIn(sets, "state", state);
  }

  lemma StatusSeen(db: Db, after: Db, belief: string, sets: Columns, status: string)
    requires Edited(db, after, Id(Beliefs, belief), sets) && "status" in sets && sets["status"] == Text(status)
    ensures BeliefsOf(after) == BeliefsOf(db)[belief := A.BeliefRow(EpisodeAt(db, Id(Beliefs, belief)), status)]
  {
    hide ReadText, EpisodeAt, Ids;
    AmendedIds(db, after, Id(Beliefs, belief), sets, Beliefs);
    IdsAre(db, Beliefs, belief);
    TextIn(sets, "status", status);
  }

  /******* Finalize *******/

  // The event of `finalize_episode` leaves the ledger as the first transaction of finalize does.
  lemma FinalizeIsBegin(w: AP.World, p: Projection, e: Event)
    requires Apply(p, e).Some? && e.body.payload.EpisodeStateChanged? && e.body.payload.state == "finalized"
    requires w.ledger == ViewOf(p.db)
    ensures AP.Enabled(w, AP.BeginFinalize(e.body.episodeId))
    ensures AP.Next(w, AP.BeginFinalize(e.body.episodeId)).ledger == ViewOf(Apply(p, e).value.db)
  {
    hide Apply, Edited, StateColumns, BeliefsOf, EpisodesOf, ConflictsOf;
    var ep, after := e.body.episodeId, Apply(p, e).value.db;
    StateSets(p, e);
    var sets := StateColumns(e.body.payload);
    StateAmongColumns(e.body.payload);
    OtherTableUnseen(p.db, after, Id(Episodes, ep), sets);
    StateSeen(p.db, after, ep, sets, "finalized");
    EpisodeListed(p, e);
  }

  lemma EpisodeListed(p: Projection, e: Event)
    requires Apply(p, e).Some? && !e.body.payload.EpisodeCreated?
    ensures e.body.episodeId in EpisodesOf(p.db)
  {
    hide Apply, Ids;
    AppliedEvent(p, e);
    IdsAre(p.db, Episodes, e.body.episodeId);
  }

  /******* Retract *******/

  // The events of `retract_evidence`: the belief goes out, and its supports become inactive.
  ghost predicate Retraction(events: seq<Event>, ep: string, belief: string) {
    && events != []
    && events[0].body.episodeId == ep && events[0].body.aggregateId == belief
    && events[0].body.payload == BeliefStatusChanged("out")
    && forall i | 0 < i < |events| :: events[i].body.episodeId == ep && events[i].body.payload == SupportActivityChanged(false)
  }

  lemma RetractIsBegin(w: AP.World, p: Projection, events: seq<Event>, ep: string, belief: string)
    requires Retraction(events, ep, belief) && FoldFrom(p, events).Some?
    requires w.ledger == ViewOf(p.db) && A.EpisodeActive(w.ledger.episodes.value, ep)
    ensures AP.Enabled(w, AP.BeginRetract(ep, belief))
    ensures AP.Next(w, AP.BeginRetract(ep, belief)).ledger == ViewOf(FoldFrom(p, events).value.db)
  {
    hide Apply, Edited, BeliefsOf, EpisodesOf, ConflictsOf, FoldFrom;
    assert events == [events[0]] + events[1..];
    FoldFromConcat(p, [events[0]], events[1..]);
    OneFolded(p, events[0]);
    var mid := Apply(p, events[0]).value;
    AggregateAmended(p, events[0]);
    var sets: Columns := map["status" := Text("out")];
    OtherTableUnseen(p.db, mid.db, Id(Beliefs, belief), sets);
    StatusSeen(p.db, mid.db, belief, sets, "out");
    OwnBelief(p.db, belief, ep);
    SupportsUnseen(mid, events[1..]);
  }

  lemma OneFolded(p: Projection, e: Event)
    ensures FoldFrom(p, [e]) == Apply(p, e)
  {
    hide Apply;
    assert [e][..0] == [];
  }

  lemma OwnBelief(db: Db, belief: string, ep: string)
    requires Entity(db, Beliefs, belief, ep)
    ensures EpisodeAt(db, Id(Beliefs, belief)) == ep && belief in BeliefsOf(db) && BeliefsOf(db)[belief].episodeId == ep
  {
    hide Ids;
    IdsAre(db, Beliefs, belief);
  }

  lemma {:induction false} SupportsUnseen(p: Projection, events: seq<Event>)
    requires FoldFrom(p, events).Some?
    requires forall i | 0 <= i < |events| :: events[i].body.payload.SupportActivityChanged?
    ensures ViewOf(FoldFrom(p, events).value.db) == ViewOf(p.db)
  {
    hide Apply, Edited, BeliefsOf, EpisodesOf, ConflictsOf;
    if events != [] {
      var n := |events| - 1;
      SupportsUnseen(p, events[..n]);
      var mid := FoldFrom(p, events[..n]).value;
      AggregateAmended(mid, events[n]);
      var (t, sets) := Amendment(events[n].body.payload).value;
      OtherTableUnseen(mid.db, FoldFrom(p, events).value.db, Id(Supports, events[n].body.aggregateId), sets);
    }
  }

  /******* Nothing else reopens an episode *******/

  predicate Reopens(d: Payload) {
    d.EpisodeStateChanged? && d.state == "active"
  }

  // No other event makes an ended episode active or removes one.
  lemma EventKeepsEnded(p: Projection, e: Event)
    requires Apply(p, e).Some? && !Reopens(e.body.payload)
    ensures AP.HandlersOnly(ViewOf(p.db), ViewOf(Apply(p, e).value.db))
  {
    hide Apply, Ids, ReadText, EpisodeAt;
    var after := Apply(p, e).value.db;
    EpisodesKept(p, e);
    forall ep | ep in ViewOf(p.db).episodes.value
      ensures ep in ViewOf(after).episodes.value
      ensures ReadText(after, Id(Episodes, ep), "state") == "active" ==> ReadText(p.db, Id(Episodes, ep), "state") == "active"
    {
      IdsAre(p.db, Episodes, ep);
      IdsAre(after, Episodes, ep);
      StateKept(p, e, ep);
    }
  }

  lemma EpisodesKept(p: Projection, e: Event)
    requires Apply(p, e).Some?
    ensures p.db.Keys <= Apply(p, e).value.db.Keys
  {
    hide Statements, ExecAll;
    KeysStay(p.db, Statements(e.body));
  }

  lemma StateKept(p: Projection, e: Event, ep: string)
    requires Apply(p, e).Some? && !Reopens(e.body.payload) && Id(Episodes, ep) in p.db
    ensures Id(Episodes, ep) in Apply(p, e).value.db
    ensures ReadText(Apply(p, e).value.db, Id(Episodes, ep), "state") == "active"
        ==> ReadText(p.db, Id(Episodes, ep), "state") == "active"
  {
    hide Statements, ExecAll, StateColumns;
    var k := Id(Episodes, ep);
    if e.body.payload.EpisodeStateChanged? {
      StateSets(p, e);
      var sets := StateColumns(e.body.payload);
      AmendedIds(p.db, Apply(p, e).value.db, Id(Episodes, e.body.episodeId), sets, Episodes);
      StateAmongColumns(e.body.payload);
    } else {
      StatementsLeave(e.body, k, "state");
      LeftAlone(p.db, Statements(e.body), k, "state");
    }
  }

  lemma StateAmongColumns(d: Payload)
    requires d.EpisodeStateChanged?
    ensures "state" in StateColumns(d) && StateColumns(d)["state"] == Text(d.state)
  {
  }

  lemma {:induction false} EventsKeepEnded(p: Projection, events: seq<Event>)
    requires FoldFrom(p, events).Some? && forall i | 0 <= i < |events| :: !Reopens(events[i].body.payload)
    ensures AP.HandlersOnly(ViewOf(p.db), ViewOf(FoldFrom(p, events).value.db))
  {
    hide Apply, ViewOf, Reopens;
    if events == [] {
      KeptItself(ViewOf(p.db));
    } else {
      var n := |events| - 1;
      EventsKeepEnded(p, events[..n]);
      EventKeepsEnded(FoldFrom(p, events[..n]).value, events[n]);
      KeptTwice(ViewOf(p.db), ViewOf(FoldFrom(p, events[..n]).value.db), ViewOf(FoldFrom(p, events).value.db));
    }
  }

  lemma KeptItself(v: A.LedgerView)
    ensures AP.HandlersOnly(v, v)
  {
  }

  lemma KeptTwice(u: A.LedgerView, v: A.LedgerView, w: A.LedgerView)
    requires AP.HandlersOnly(u, v) && AP.HandlersOnly(v, w)
    ensures AP.HandlersOnly(u, w)
  {
  }

  // So every append of drafts that reopen nothing is a ledger commit of the kind under which a
  // finalized episode stays finalized.
  lemma AppendKeepsEnded(s: L.State, ep: string, drafts: seq<L.Draft>, correlation: map<string, Option<string>>,
                         key: string, task: string, env: L.Env)
    requires L.LogOk(s) && L.Append(s, ep, drafts, correlation, key, task, env).Ok?
    requires forall i | 0 <= i < |drafts| :: !Reopens(drafts[i].payload)
    ensures AP.HandlersOnly(ViewOf(s.p.db), ViewOf(L.Append(s, ep, drafts, correlation, key, task, env).value.state.p.db))
  {
    hide L.Append, ViewOf, Apply, Reopens;
    var r := L.Append(s, ep, drafts, correlation, key, task, env).value;
    L.AppendAddsBatch(s, ep, drafts, correlation, key, task, env);
    if r.state == s {
      KeptItself(ViewOf(s.p.db));
    } else {
      forall i | 0 <= i < |r.events| ensures !Reopens(r.events[i].body.payload) {
        L.AppendRecordsDrafts(s, ep, drafts, correlation, key, task, env, i);
      }
      FoldConcat(s.log, r.events);
      EventsKeepEnded(s.p, r.events);
    }
  }
}
