/**
 `compact_enforcement_events`: removing one episode from the authorization audit and
 rebuilding the chain of what remains, as a purge does.
 */
module AuthorizationCompaction {
  import opened Wrappers
  import opened Authorization
  import opened AuthorizationProtocol

  /******* What a payload says about itself *******/

  predicate IsApproval(e: AuthEvent) {
    e.ReceiptIssued? || e.ReceiptDenied? || e.ReceiptConsumed? || e.ReceiptExpired? || e.ReceiptRevoked?
  }

  // payload["binding"]: a CONSUMED payload holds a binding digest but no binding.
  predicate CarriesBinding(e: AuthEvent) {
    e.ReceiptIssued? || e.ReceiptDenied? || e.DecisionIssued? || (e.DecisionRejected? && e.rejected.Some?)
  }

  // The episode of the binding a payload carries, or the empty string.
  function EpisodeOf(e: AuthEvent): string {
    match e
    case ReceiptIssued(_, b, _, _) => b.episodeId
    case ReceiptDenied(_, b, _) => b.episodeId
    case DecisionIssued(_, b, _, _) => b.episodeId
    case DecisionRejected(_, _, Some(b)) => b.episodeId
    case _ => ""
  }

  /******* The code: dictionaries filled in log order *******/

  datatype Attribution = Attribution(
    approvals: map<ReceiptDigest, string>,
    bindings: map<ApprovalBinding, string>,
    actions: map<TokenDigest, string>)

  function Get<K(==)>(m: map<K, string>, k: K): string {
    if k in m then m[k] else ""
  }

  // One pass of the first loop: the episode a row is attributed to.
  function Attribute(a: Attribution, e: AuthEvent): string {
    if EpisodeOf(e) != "" then EpisodeOf(e)
    else if !IsApproval(e) then Get(a.actions, e.token)
    else if Get(a.approvals, e.receipt) != "" then Get(a.approvals, e.receipt)
    else if CarriesBinding(e) then Get(a.bindings, e.approval)
    else ""
  }

  method CompactEnforcementEvents(rows: seq<Row>, excluded: string) returns (compacted: seq<Row>)
    ensures Chained(compacted)
    ensures Unchained(compacted) == Kept(Unchained(rows), excluded)
  {
    var approvals: map<ReceiptDigest, string> := map[];
    var bindings: map<ApprovalBinding, string> := map[];
    var actions: map<TokenDigest, string> := map[];
    var retained: seq<Row> := [];
    for i := 0 to |rows|
      invariant Knows(Attribution(approvals, bindings, actions), Events(rows[..i]))
      invariant Unchained(retained) == Kept(Unchained(rows[..i]), excluded)
    {
      hide Kept, Unchained, Events, Owner;
      var e := rows[i].event;
      var episodeId := Attribute(Attribution(approvals, bindings, actions), e);
      AttributeIsOwner(Attribution(approvals, bindings, actions), Events(rows[..i]), e);
      assert rows[..i + 1] == rows[..i] + [rows[i]];
      UnchainedSnoc(rows[..i], rows[i]);
      UnchainedSnoc(retained, rows[i]);
      KeptSnoc(Unchained(rows[..i]), (rows[i].id, rows[i].at, e), excluded);
      hide Knows, Attribute;
      if EpisodeOf(e) != "" {
        if IsApproval(e) {
          approvals := approvals[e.receipt := EpisodeOf(e)];
          bindings := bindings[e.approval := EpisodeOf(e)];
        } else {
          actions := actions[e.token := EpisodeOf(e)];
        }
      }
      if episodeId != excluded {
        retained := retained + [rows[i]];
      }
    }
    assert rows[..|rows|] == rows;
    compacted := Relink(retained);
  }

  // The second loop: renumber and rehash.
  method Relink(retained: seq<Row>) returns (compacted: seq<Row>)
    ensures Chained(compacted) && Unchained(compacted) == Unchained(retained)
  {
    hide Chained, Unchained;
    RelinkEmpty();
    compacted := [];
    var previous := Zero;
    for i := 0 to |retained|
      invariant Chained(compacted) && Unchained(compacted) == Unchained(retained[..i])
      invariant |compacted| == i && previous == LastHash(compacted)
    {
      var row := retained[i];
      var hash := Link(previous, Body(i + 1, row.id, row.at, row.event));
      RelinkStep(compacted, row);
      assert retained[..i + 1] == retained[..i] + [row];
      UnchainedSnoc(retained[..i], row);
      compacted := compacted + [Row(i + 1, row.id, row.at, row.event, previous, hash)];
      previous := hash;
    }
    assert retained[..|retained|] == retained;
  }

  lemma RelinkEmpty()
    ensures Chained([]) && Unchained([]) == []
  {
  }

  lemma RelinkStep(compacted: seq<Row>, row: Row)
    requires Chained(compacted)
    ensures var previous, n := LastHash(compacted), |compacted| + 1;
            var next := Row(n, row.id, row.at, row.event, previous, Link(previous, Body(n, row.id, row.at, row.event)));
            Chained(compacted + [next])
            && Unchained(compacted + [next]) == Unchained(compacted) + [(row.id, row.at, row.event)]
  {
    ChainedSnoc(compacted, row.event, Env(row.at, n => row.id));
    assert compacted != [] ==> LastSeq(compacted) == |compacted|;
  }

  lemma UnchainedSnoc(rows: seq<Row>, row: Row)
    ensures Unchained(rows + [row]) == Unchained(rows) + [(row.id, row.at, row.event)]
    ensures Events(rows + [row]) == Events(rows) + [row.event]
    ensures EventsOf(Unchained(rows)) == Events(rows)
  {
  }

  /******* The specification: looking back for the latest row that carries a binding *******/

  type Entry = (string, nat, AuthEvent)

  // A log without its sequence numbers and hashes.
  function Unchained(rows: seq<Row>): seq<Entry> {
    seq(|rows|, i requires 0 <= i < |rows| => (rows[i].id, rows[i].at, rows[i].event))
  }

  function EventsOf(entries: seq<Entry>): seq<AuthEvent> {
    seq(|entries|, i requires 0 <= i < |entries| => entries[i].2)
  }

  function LatestForReceipt(events: seq<AuthEvent>, r: ReceiptDigest): string {
    if events == [] then ""
    else
      var e := events[|events| - 1];
      if IsApproval(e) && e.receipt == r && EpisodeOf(e) != "" then EpisodeOf(e)
      else LatestForReceipt(events[..|events| - 1], r)
  }

  function LatestForToken(events: seq<AuthEvent>, d: TokenDigest): string {
    if events == [] then ""
    else
      var e := events[|events| - 1];
      if !IsApproval(e) && e.token == d && EpisodeOf(e) != "" then EpisodeOf(e)
      else LatestForToken(events[..|events| - 1], d)
  }

  // The episode a row belongs to: its own binding's, or else that of the receipt or token it names.
  function Owner(earlier: seq<AuthEvent>, e: AuthEvent): string {
    if EpisodeOf(e) != "" then EpisodeOf(e)
    else if IsApproval(e) then LatestForReceipt(earlier, e.receipt)
    else LatestForToken(earlier, e.token)
  }

  // The order-preserving subsequence of rows that do not belong to the excluded episode.
  function Kept(entries: seq<Entry>, excluded: string): seq<Entry> {
    if entries == [] then []
    else
      var init, last := entries[..|entries| - 1], entries[|entries| - 1];
      Kept(init, excluded) + (if Owner(EventsOf(init), last.2) != excluded then [last] else [])
  }

  lemma KeptSnoc(entries: seq<Entry>, last: Entry, excluded: string)
    ensures Kept(entries + [last], excluded)
         == Kept(entries, excluded) + (if Owner(EventsOf(entries), last.2) != excluded then [last] else [])
  {
    assert (entries + [last])[..|entries + [last]| - 1] == entries;
  }

  // The dictionaries hold exactly what looking back finds.
  ghost predicate Knows(a: Attribution, events: seq<AuthEvent>) {
    && (forall r :: Get(a.approvals, r) == LatestForReceipt(events, r))
    && (forall d :: Get(a.actions, d) == LatestForToken(events, d))
    && (forall b <- a.bindings :: a.bindings[b] == b.episodeId != "")
  }

  lemma AttributeIsOwner(a: Attribution, events: seq<AuthEvent>, e: AuthEvent)
    requires Knows(a, events)
    ensures Attribute(a, e) == Owner(events, e)
    ensures EpisodeOf(e) == "" ==> Knows(a, events + [e])
    ensures EpisodeOf(e) != "" && IsApproval(e) ==>
      Knows(a.(approvals := a.approvals[e.receipt := EpisodeOf(e)], bindings := a.bindings[e.approval := EpisodeOf(e)]),
            events + [e])
    ensures EpisodeOf(e) != "" && !IsApproval(e) ==>
      Knows(a.(actions := a.actions[e.token := EpisodeOf(e)]), events + [e])
  {
    var longer := events + [e];
    assert longer[..|longer| - 1] == events;
    forall r ensures LatestForReceipt(longer, r)
                  == if IsApproval(e) && e.receipt == r && EpisodeOf(e) != "" then EpisodeOf(e)
                     else LatestForReceipt(events, r) {}
    forall d ensures LatestForToken(longer, d)
                  == if !IsApproval(e) && e.token == d && EpisodeOf(e) != "" then EpisodeOf(e)
                     else LatestForToken(events, d) {}
  }

  /******* Rebuilding from the compacted log *******/

  function Filter<K, V>(m: map<K, V>, keep: V -> bool): map<K, V> {
    map k | k in m && keep(m[k]) :: m[k]
  }

  lemma FilterUpdate<K, V>(m: map<K, V>, k: K, v: V, keep: V -> bool)
    requires k in m ==> keep(m[k]) == keep(v)
    ensures Filter(m[k := v], keep) == if keep(v) then Filter(m, keep)[k := v] else Filter(m, keep)
  {
  }

  function MapValues<K, V>(m: map<K, V>, f: V -> V): map<K, V> {
    map k | k in m :: f(m[k])
  }

  lemma FilterMap<K, V>(m: map<K, V>, f: V -> V, keep: V -> bool)
    requires forall k <- m :: keep(f(m[k])) == keep(m[k])
    ensures Filter(MapValues(m, f), keep) == MapValues(Filter(m, keep), f)
  {
  }

  function ReceiptOutside(x: string): Receipt -> bool {
    (r: Receipt) => r.binding.episodeId != x
  }

  function DecisionOutside(x: string): Decision -> bool {
    (d: Decision) => d.binding.episodeId != x
  }

  function EpisodeOutside(x: string): string -> bool {
    (ep: string) => ep != x
  }

  function Restrict(t: Tables, x: string): Tables {
    Tables(Filter(t.receipts, ReceiptOutside(x)),
           Filter(t.decisions, DecisionOutside(x)),
           (set row | row in t.supports && row.0 in t.decisions && t.decisions[row.0].binding.episodeId != x),
           Filter(t.episodes, EpisodeOutside(x)))
  }

  // Receipt digests name their own binding, and all the rows that carry a binding for one
  // token carry the same episode.
  ghost predicate WellFormed(events: seq<AuthEvent>) {
    && (forall i | 0 <= i < |events| :: DigestNamesBinding(events[i]))
    && (forall i, j | 0 <= i < j < |events| :: SameTokenSameEpisode(events[i], events[j]))
  }

  predicate DigestNamesBinding(e: AuthEvent) {
    e.ReceiptIssued? || e.ReceiptDenied? ==> e.receipt.ReceiptHash? && e.receipt.binding == e.approval
  }

  predicate SameTokenSameEpisode(e: AuthEvent, f: AuthEvent) {
    !IsApproval(e) && !IsApproval(f) && CarriesBinding(e) && CarriesBinding(f) && e.token == f.token
    ==> EpisodeOf(e) == EpisodeOf(f)
  }

  // What the rows so far determine about owners.
  ghost predicate OwnersKnown(t: Tables, events: seq<AuthEvent>) {
    && TablesOk(t)
    && (forall r <- t.receipts :: r.ReceiptHash? && t.receipts[r].binding == r.binding
                                  && LatestForReceipt(events, r) == r.binding.episodeId)
    && (forall d <- t.decisions :: LatestForToken(events, d) == t.decisions[d].binding.episodeId)
    && (forall d <- t.decisions :: TokenEpisode(events, d, t.decisions[d].binding.episodeId) && HasIssued(events, d))
  }

  ghost predicate TokenEpisode(events: seq<AuthEvent>, d: TokenDigest, ep: string) {
    forall i | 0 <= i < |events| ::
      !IsApproval(events[i]) && CarriesBinding(events[i]) && events[i].token == d ==> EpisodeOf(events[i]) == ep
  }

  ghost predicate HasIssued(events: seq<AuthEvent>, d: TokenDigest) {
    exists i :: 0 <= i < |events| && events[i].DecisionIssued? && events[i].token == d
  }

  lemma TablesOkStep(t: Tables, e: AuthEvent)
    requires TablesOk(t) && Apply(t, e).Some?
    ensures TablesOk(Apply(t, e).value)
  {
    hide TablesOk, Apply;
    if e.DecisionIssued? {
      IssuedTables(t, e);
    } else {
      OnlyIssuesAddPermits(t, e);
      NoNewPermitKeepsTables(t, Apply(t, e).value);
    }
  }

  // A token's rows agree, so the latest one speaks for all of them.
  lemma {:induction false} LatestIsTokenEpisode(events: seq<AuthEvent>, d: TokenDigest, ep: string)
    requires TokenEpisode(events, d, ep)
    ensures LatestForToken(events, d) in {ep, ""}
    ensures HasIssued(events, d) ==> LatestForToken(events, d) == ep
  {
    if events != [] {
      var init := events[..|events| - 1];
      assert forall i | 0 <= i < |init| :: init[i] == events[i];
      LatestIsTokenEpisode(init, d, ep);
      if HasIssued(events, d) && !HasIssued(init, d) {
        assert forall i | 0 <= i < |init| :: !(init[i].DecisionIssued? && init[i].token == d);
      }
    }
  }

  lemma OwnersKnownStep(t: Tables, events: seq<AuthEvent>, e: AuthEvent)
    requires OwnersKnown(t, events) && Apply(t, e).Some? && WellFormed(events + [e])
    ensures OwnersKnown(Apply(t, e).value, events + [e])
  {
    var u, longer := Apply(t, e).value, events + [e];
    TablesOkStep(t, e);
    ApplyAdvances(t, e);
    assert longer[..|longer| - 1] == events && longer[|events|] == e;
    assert DigestNamesBinding(longer[|events|]);
    forall d <- u.decisions ensures TokenEpisode(longer, d, u.decisions[d].binding.episodeId)
                            ensures LatestForToken(longer, d) == u.decisions[d].binding.episodeId
                            ensures HasIssued(longer, d)
    {
      TokenEpisodeStep(t, events, e, d);
    }
    forall r <- u.receipts ensures r.ReceiptHash? && u.receipts[r].binding == r.binding
                           ensures LatestForReceipt(longer, r) == r.binding.episodeId
    {
      if r in t.receipts {
        assert u.receipts[r].binding == t.receipts[r].binding;
      } else {
        FreshReceipt(events, r);
      }
    }
  }

  lemma TokenEpisodeStep(t: Tables, events: seq<AuthEvent>, e: AuthEvent, d: TokenDigest)
    requires OwnersKnown(t, events) && Apply(t, e).Some? && WellFormed(events + [e])
    requires d in Apply(t, e).value.decisions
    ensures var ep := Apply(t, e).value.decisions[d].binding.episodeId;
      TokenEpisode(events + [e], d, ep) && LatestForToken(events + [e], d) == ep && HasIssued(events + [e], d)
  {
    hide LatestForToken, WellFormed, TokenEpisode, HasIssued, TablesOk;
    ApplyAdvances(t, e);
    if d in t.decisions {
      var ep := t.decisions[d].binding.episodeId;
      assert Apply(t, e).value.decisions[d].binding == t.decisions[d].binding;
      if !IsApproval(e) && CarriesBinding(e) && e.token == d {
        RejectedAgrees(t, events, e, d);
      }
      OldToken(events, e, d, ep);
    } else {
      NewToken(events, e);
    }
  }

  lemma OldToken(events: seq<AuthEvent>, e: AuthEvent, d: TokenDigest, ep: string)
    requires TokenEpisode(events, d, ep) && HasIssued(events, d) && LatestForToken(events, d) == ep
    requires !IsApproval(e) && CarriesBinding(e) && e.token == d ==> EpisodeOf(e) == ep
    ensures TokenEpisode(events + [e], d, ep) && LatestForToken(events + [e], d) == ep && HasIssued(events + [e], d)
  {
    var longer := events + [e];
    assert longer[..|events|] == events;
    var i :| 0 <= i < |events| && events[i].DecisionIssued? && events[i].token == d;
    assert longer[i] == events[i];
    assert EpisodeOf(e) != "" ==> CarriesBinding(e);
  }

  lemma NewToken(events: seq<AuthEvent>, e: AuthEvent)
    requires WellFormed(events + [e]) && e.DecisionIssued?
    ensures var ep := e.action.episodeId;
      TokenEpisode(events + [e], e.token, ep) && LatestForToken(events + [e], e.token) == ep
      && HasIssued(events + [e], e.token)
  {
    var longer := events + [e];
    assert longer[|events|] == e;
    forall i | 0 <= i < |longer| && !IsApproval(longer[i]) && CarriesBinding(longer[i]) && longer[i].token == e.token
      ensures EpisodeOf(longer[i]) == e.action.episodeId
    {
      if i < |events| { assert SameTokenSameEpisode(longer[i], longer[|events|]); }
    }
    LatestIsTokenEpisode(longer, e.token, e.action.episodeId);
  }

  // A decision's own ISSUED row is in the log, so a later rejected row for it agrees.
  lemma RejectedAgrees(t: Tables, events: seq<AuthEvent>, e: AuthEvent, d: TokenDigest)
    requires OwnersKnown(t, events) && Apply(t, e).Some? && WellFormed(events + [e])
    requires d in t.decisions && !IsApproval(e) && CarriesBinding(e) && e.token == d
    ensures EpisodeOf(e) == t.decisions[d].binding.episodeId
  {
    var i :| 0 <= i < |events| && events[i].DecisionIssued? && events[i].token == d;
    var longer := events + [e];
    assert longer[i] == events[i] && longer[|events|] == e;
    assert SameTokenSameEpisode(longer[i], longer[|events|]);
  }

  lemma {:induction false} FreshReceipt(events: seq<AuthEvent>, r: ReceiptDigest)
    requires r.ReceiptHash? && forall i | 0 <= i < |events| :: DigestNamesBinding(events[i])
    ensures LatestForReceipt(events, r) in {r.binding.episodeId, ""}
  {
    if events != [] {
      assert forall i | 0 <= i < |events| - 1 :: events[..|events| - 1][i] == events[i];
      assert DigestNamesBinding(events[|events| - 1]);
      FreshReceipt(events[..|events| - 1], r);
    }
  }

  // The owner agrees with every row of the tables that the event can touch.
  ghost predicate OwnerFits(t: Tables, e: AuthEvent, o: string) {
    && (e.ReceiptIssued? || e.ReceiptDenied? || e.DecisionIssued? ==> o == EpisodeOf(e))
    && (!CarriesBinding(e) && IsApproval(e) && e.receipt in t.receipts ==> o == t.receipts[e.receipt].binding.episodeId)
    && (!CarriesBinding(e) && !IsApproval(e) && e.token in t.decisions ==> o == t.decisions[e.token].binding.episodeId)
  }

  lemma OwnerFitsHere(t: Tables, events: seq<AuthEvent>, e: AuthEvent)
    requires OwnersKnown(t, events) && Apply(t, e).Some? && WellFormed(events + [e])
    ensures OwnerFits(t, e, Owner(events, e))
  {
    var longer := events + [e];
    assert longer[|events|] == e && DigestNamesBinding(longer[|events|]);
    if IsApproval(e) && CarriesBinding(e) {
      assert forall i | 0 <= i < |events| :: events[i] == longer[i];
      FreshReceipt(events, e.receipt);
    } else if e.DecisionIssued? {
      TokenEpisodeStep(t, events, e, e.token);
      assert forall i | 0 <= i < |events| :: events[i] == longer[i];
      LatestIsTokenEpisode(events, e.token, e.action.episodeId);
      NoBindingNoOwner(events, e.token, e.action.episodeId);
    }
  }

  lemma {:induction false} NoBindingNoOwner(events: seq<AuthEvent>, d: TokenDigest, ep: string)
    requires TokenEpisode(events, d, ep)
    ensures LatestForToken(events, d) in {ep, ""}
  {
    if events != [] {
      assert forall i | 0 <= i < |events| - 1 :: events[..|events| - 1][i] == events[i];
      assert events[|events| - 1] in events;
      NoBindingNoOwner(events[..|events| - 1], d, ep);
    }
  }

  // What each row does to the restricted tables: nothing when it is the excluded episode's,
  // and otherwise what it does to the full ones.
  lemma RestrictSetReceipt(t: Tables, r: ReceiptDigest, to: State, x: string)
    ensures Restrict(SetReceipt(t, r, to), x)
         == if r in t.receipts && t.receipts[r].binding.episodeId == x then Restrict(t, x)
            else SetReceipt(Restrict(t, x), r, to)
  {
    if r in t.receipts && t.receipts[r].state == Issued {
      FilterUpdate(t.receipts, r, t.receipts[r].(state := to), ReceiptOutside(x));
    }
  }

  lemma RestrictSetDecision(t: Tables, d: TokenDigest, to: State, x: string)
    ensures Restrict(SetDecision(t, d, to), x)
         == if d in t.decisions && t.decisions[d].binding.episodeId == x then Restrict(t, x)
            else SetDecision(Restrict(t, x), d, to)
  {
    if d in t.decisions && t.decisions[d].state == Issued {
      FilterUpdate(t.decisions, d, t.decisions[d].(state := to), DecisionOutside(x));
      assert Restrict(SetDecision(t, d, to), x).supports == Restrict(t, x).supports;
    }
  }

  lemma RestrictRevokeBinding(t: Tables, b: ApprovalBinding, x: string)
    ensures Restrict(RevokeBinding(t, b), x)
         == if b.episodeId == x then Restrict(t, x) else RevokeBinding(Restrict(t, x), b)
  {
    hide Filter, MapValues, RevokeBinding;
    FilterMap(t.receipts, Revoking(b), ReceiptOutside(x));
    RevokeIsMap(t, b);
    RevokeIsMap(Restrict(t, x), b);
    if b.episodeId == x { NothingToRevoke(t.receipts, b, x); }
  }

  function Revoking(b: ApprovalBinding): Receipt -> Receipt {
    (q: Receipt) => if q.binding == b && q.state == Issued then q.(state := Revoked) else q
  }

  lemma RevokeIsMap(t: Tables, b: ApprovalBinding)
    ensures RevokeBinding(t, b) == t.(receipts := MapValues(t.receipts, Revoking(b)))
  {
    assert RevokeBinding(t, b).receipts == MapValues(t.receipts, Revoking(b));
  }

  lemma NothingToRevoke(m: map<ReceiptDigest, Receipt>, b: ApprovalBinding, x: string)
    requires b.episodeId == x
    ensures MapValues(Filter(m, ReceiptOutside(x)), Revoking(b)) == Filter(m, ReceiptOutside(x))
  {
  }

  lemma RestrictIssueReceipt(t: Tables, e: AuthEvent, x: string)
    requires e.ReceiptIssued? && Apply(t, e).Some?
    ensures Restrict(Apply(t, e).value, x)
         == if e.approval.episodeId == x then Restrict(t, x) else Apply(Restrict(t, x), e).GetOr(t)
    ensures Apply(Restrict(t, x), e).Some?
  {
    assert Restrict(Apply(t, e).value, x).receipts
        == if e.approval.episodeId == x then Restrict(t, x).receipts
           else Apply(Restrict(t, x), e).value.receipts;
  }

  lemma RestrictIssueDecision(t: Tables, e: AuthEvent, x: string)
    requires TablesOk(t) && e.DecisionIssued? && Apply(t, e).Some?
    ensures Apply(Restrict(t, x), e).Some?
    ensures Restrict(Apply(t, e).value, x)
         == if e.action.episodeId == x then Restrict(t, x) else Apply(Restrict(t, x), e).value
  {
    var u, a, d := Apply(t, e).value, Restrict(t, x), e.token;
    FilterUpdate(t.decisions, d, Decision(e.action, e.issuedAt, e.expiresAt, Issued), DecisionOutside(x));
    FilterUpdate(t.episodes, d, e.action.episodeId, EpisodeOutside(x));
    IssuedSupports(t, e, x);
  }

  lemma IssuedSupports(t: Tables, e: AuthEvent, x: string)
    requires TablesOk(t) && e.DecisionIssued? && Apply(t, e).Some?
    ensures Restrict(Apply(t, e).value, x).supports
         == Restrict(t, x).supports
            + if e.action.episodeId == x then {} else SupportRows(e.token, e.action.supports)
  {
    var u := Apply(t, e).value;
    forall row ensures row in Restrict(u, x).supports
      <==> row in Restrict(t, x).supports
           || (e.action.episodeId != x && row in SupportRows(e.token, e.action.supports))
    {
      assert row == (row.0, row.1);
      assert row in t.supports ==> row.0 in t.decisions && row.0 != e.token;
      assert row in SupportRows(e.token, e.action.supports) ==> row.0 == e.token;
    }
  }

  lemma RestrictedRow(t: Tables, e: AuthEvent, o: string, x: string)
    requires TablesOk(t) && Apply(t, e).Some? && OwnerFits(t, e, o)
    ensures o == x ==> Restrict(Apply(t, e).value, x) == Restrict(t, x)
    ensures o != x ==> Apply(Restrict(t, x), e) == Some(Restrict(Apply(t, e).value, x))
  {
    hide Restrict, TablesOk;
    match e
    case ReceiptIssued(_, _, _, _) => RestrictIssueReceipt(t, e, x);
    case ReceiptDenied(_, b, _) => RestrictRevokeBinding(t, b, x);
    case ReceiptConsumed(r) => RestrictReceiptEvent(t, r, Consumed, o, x);
    case ReceiptExpired(r) => RestrictReceiptEvent(t, r, Expired, o, x);
    case ReceiptRevoked(r, _) => RestrictReceiptEvent(t, r, Revoked, o, x);
    case DecisionIssued(_, _, _, _) => RestrictIssueDecision(t, e, x);
    case DecisionRejected(_, _, _) =>
    case DecisionConsumed(d, _) => RestrictDecisionEvent(t, d, Consumed, o, x);
    case DecisionExpired(d, _) => RestrictDecisionEvent(t, d, Expired, o, x);
    case DecisionRevoked(d, _) => RestrictDecisionEvent(t, d, Revoked, o, x);
  }

  lemma RestrictReceiptEvent(t: Tables, r: ReceiptDigest, to: State, o: string, x: string)
    requires r in t.receipts ==> o == t.receipts[r].binding.episodeId
    ensures Restrict(SetReceipt(t, r, to), x)
         == if o == x then Restrict(t, x) else SetReceipt(Restrict(t, x), r, to)
  {
    RestrictSetReceipt(t, r, to, x);
  }

  lemma RestrictDecisionEvent(t: Tables, d: TokenDigest, to: State, o: string, x: string)
    requires d in t.decisions ==> o == t.decisions[d].binding.episodeId
    ensures Restrict(SetDecision(t, d, to), x)
         == if o == x then Restrict(t, x) else SetDecision(Restrict(t, x), d, to)
  {
    RestrictSetDecision(t, d, to, x);
  }

  lemma WellFormedPrefix(events: seq<AuthEvent>, n: nat)
    requires WellFormed(events) && n <= |events|
    ensures WellFormed(events[..n])
  {
  }

  lemma {:induction false} FoldKnowsOwners(events: seq<AuthEvent>)
    requires WellFormed(events) && ApplyAll(EmptyTables, events).Some?
    ensures OwnersKnown(ApplyAll(EmptyTables, events).value, events)
  {
    if events != [] {
      var init := events[..|events| - 1];
      WellFormedPrefix(events, |init|);
      FoldKnowsOwners(init);
      assert events == init + [events[|init|]];
      OwnersKnownStep(ApplyAll(EmptyTables, init).value, init, events[|init|]);
    }
  }

  // The compacted log rebuilds to the original tables without the excluded episode.
  lemma {:induction false} CompactedLogRebuilds(entries: seq<Entry>, x: string)
    requires WellFormed(EventsOf(entries)) && ApplyAll(EmptyTables, EventsOf(entries)).Some?
    ensures ApplyAll(EmptyTables, EventsOf(Kept(entries, x)))
         == Some(Restrict(ApplyAll(EmptyTables, EventsOf(entries)).value, x))
  {
    hide Apply, Restrict, Owner;
    if entries == [] {
      RestrictEmpty(x);
    } else {
      var n := |entries| - 1;
      var init, e := entries[..n], entries[n].2;
      var events := EventsOf(entries);
      assert events[..n] == EventsOf(init) && events[n] == e && events == EventsOf(init) + [e];
      WellFormedPrefix(events, n);
      CompactedLogRebuilds(init, x);
      FoldKnowsOwners(EventsOf(init));
      var t := ApplyAll(EmptyTables, EventsOf(init)).value;
      OwnerFitsHere(t, EventsOf(init), e);
      RestrictedRow(t, e, Owner(EventsOf(init), e), x);
      var kept := EventsOf(Kept(init, x));
      if Owner(EventsOf(init), e) == x {
        assert Kept(entries, x) == Kept(init, x);
      } else {
        assert EventsOf(Kept(entries, x)) == kept + [e];
        assert (kept + [e])[..|kept + [e]| - 1] == kept;
      }
    }
  }

  lemma RestrictEmpty(x: string)
    ensures Restrict(EmptyTables, x) == EmptyTables
  {
  }

  /******* The logs that runs build *******/

  // The token generator never repeats a token that a binding row already names.
  ghost predicate FreshTokens(ws: seq<World>, steps: seq<Step>) {
    |ws| == |steps| + 1 &&
    forall i | 0 <= i < |steps| :: steps[i].Issue? ==>
      NeverNamed(Events(ws[i].store.log), Sha256(steps[i].raw))
  }

  ghost predicate NeverNamed(events: seq<AuthEvent>, d: TokenDigest) {
    forall i | 0 <= i < |events| :: !IsApproval(events[i]) && CarriesBinding(events[i]) ==> events[i].token != d
  }

  // At most one of the appended events carries a binding, and its token or digest is its own.
  ghost predicate Appends(events: seq<AuthEvent>, more: seq<AuthEvent>) {
    && (forall i | 0 <= i < |more| :: DigestNamesBinding(more[i]))
    && (forall i | 0 <= i < |more| :: !IsApproval(more[i]) && CarriesBinding(more[i]) ==> NeverNamed(events, more[i].token))
    && (forall i, j | 0 <= i < j < |more| :: SameTokenSameEpisode(more[i], more[j]))
  }

  lemma WellFormedGrows(events: seq<AuthEvent>, more: seq<AuthEvent>)
    requires WellFormed(events) && Appends(events, more)
    ensures WellFormed(events + more)
  {
    var all := events + more;
    forall i, j | 0 <= i < j < |all| ensures SameTokenSameEpisode(all[i], all[j]) {
      if i < |events| {
        if j < |events| { assert SameTokenSameEpisode(events[i], events[j]); }
        else { assert all[j] == more[j - |events|]; }
      } else {
        assert SameTokenSameEpisode(more[i - |events|], more[j - |events|]);
      }
    }
  }

  lemma StepAppends(w: World, step: Step)
    requires step.Issue? ==> NeverNamed(Events(w.store.log), Sha256(step.raw))
    ensures Appends(Events(w.store.log), StepEvents(w, step))
  {
    hide ApprovalCheck, PremiseVerdict, BindingMismatch, NeverNamed, LiveReceipts;
    match step
    case Issue(b, raw, ttl, env) => CheckCarriesNone(w.store.tables, b, env.now, false);
    case Consume(_, _, _, _, _) => ConsumeCarriesNone(w, step);
    case _ =>
  }

  lemma CheckCarriesNone(t: Tables, b: ActionBinding, now: nat, allowConsumed: bool)
    ensures var events := ApprovalCheck(t, b, now, allowConsumed).events;
            events == [] || (|events| == 1 && events[0].ReceiptExpired?)
  {
  }

  lemma ConsumeCarriesNone(w: World, step: Step)
    requires step.Consume?
    ensures forall i | 0 <= i < |StepEvents(w, step)| :: !CarriesBinding(StepEvents(w, step)[i])
  {
    hide ApprovalCheck, BindingMismatch;
    if Sha256(step.raw) in w.store.tables.decisions {
      CheckCarriesNone(w.store.tables, w.store.tables.decisions[Sha256(step.raw)].binding, step.env.now, true);
    }
  }

  lemma {:induction false} RunLogsAreWellFormed(ws: seq<World>, steps: seq<Step>, i: nat)
    requires Run(ws, steps) && FreshTokens(ws, steps) && i < |ws|
    ensures WellFormed(Events(ws[i].store.log))
    decreases i
  {
    if i > 0 {
      hide Inv, Appends, WellFormed, StepEvents, Enabled, NeverNamed;
      RunLogsAreWellFormed(ws, steps, i - 1);
      RunInv(ws, steps, i - 1);
      var w, step := ws[i - 1], steps[i - 1];
      StepAppends(w, step);
      WellFormedGrows(Events(w.store.log), StepEvents(w, step));
      if ws[i].store != w.store {
        AppendAllFacts(w.store.log, StepEvents(w, step), step.env);
      }
    } else {
      assert Events(ws[0].store.log) == [];
    }
  }

  // Purging episode x after any run: the compacted rows rebuild to the live tables without x.
  lemma PurgeKeepsTheOthers(ws: seq<World>, steps: seq<Step>, i: nat, x: string)
    requires Run(ws, steps) && FreshTokens(ws, steps) && i < |ws|
    ensures ApplyAll(EmptyTables, EventsOf(Kept(Unchained(ws[i].store.log), x)))
         == Some(Restrict(ws[i].store.tables, x))
  {
    RunLogsAreWellFormed(ws, steps, i);
    LiveTablesEqualRebuild(ws, steps, i);
    assert EventsOf(Unchained(ws[i].store.log)) == Events(ws[i].store.log);
    CompactedLogRebuilds(Unchained(ws[i].store.log), x);
  }
}
