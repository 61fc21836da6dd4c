/**
 Snapshots: captures of every projection table at a chain height, kept as a cache that may be
 pruned, go stale or be damaged, and the replay that starts from the newest usable one.
 */
module Snapshots {
  import opened Wrappers
  import opened Sql
  import opened Projections
  import opened LedgerChain
  import Ordering
  import opened Ledger
  import LedgerStore
  import opened Reapplication

  /******* Captures *******/

  datatype Name = Projected(table: Table) | EventHeads | Idempotency

  datatype Content = Rows(db: Db) | HeadRows(heads: map<string, Head>) | IdemRows(idem: map<string, IdemRow>)

  // The projection manifest.
  function AllTables(): set<Table> {
    {Episodes, Sources, Evidence, Beliefs, BeliefEvidence, Supports, Justifications, Premises, Defeats, Tasks,
     Conflicts, Notices, Rendered, SourceRoots, Fingerprints, Verdicts, Usage, Unpromoted, LintReports,
     GateDecisions, Responses}
  }

  function Manifest(): set<Name> {
    (set t | t in AllTables() :: Projected(t)) + {EventHeads, Idempotency}
  }

  function OfTable(db: Db, t: Table): Db {
    map k | k in db && k.table == t :: db[k]
  }

  function Capture(p: Projection, idem: map<string, IdemRow>, n: Name): Content {
    match n
    case Projected(t) => Rows(OfTable(p.db, t))
    case EventHeads => HeadRows(p.heads)
    case Idempotency => IdemRows(idem)
  }

  // Compressed, serialized rows, or bytes that do not decompress or decode.
  datatype Blob = Compressed(content: Content) | Garbage

  // A content hash of serialized rows, or a digest of nothing that was captured.
  datatype Digest = DigestOf(content: Content) | OtherDigest

  datatype SnapshotRow = SnapshotRow(payload: Blob, digest: Digest, fingerprint: string)

  datatype Slot = Slot(scope: string, height: nat, name: Name)

  type Cache = map<Slot, SnapshotRow>

  predicate Intact(r: SnapshotRow) {
    r.payload.Compressed? && r.digest == DigestOf(r.payload.content)
  }

  function NamesAt(c: Cache, scope: string, h: nat): set<Name> {
    set slot | slot in c && slot.scope == scope && slot.height == h :: slot.name
  }

  // What `load_newest_valid` accepts at one height.
  predicate Usable(c: Cache, scope: string, h: nat, fingerprint: string) {
    && NamesAt(c, scope, h) == Manifest()
    && forall n <- Manifest() ::
         Slot(scope, h, n) in c && c[Slot(scope, h, n)].fingerprint == fingerprint && Intact(c[Slot(scope, h, n)])
  }

  function HeightsOf(c: Cache, scope: string): set<nat> {
    set slot | slot in c && slot.scope == scope :: slot.height
  }

  datatype SnapshotSet = SnapshotSet(height: nat, tables: map<Name, Content>)

  function TablesAt(c: Cache, scope: string, h: nat): map<Name, Content> {
    map n | n in NamesAt(c, scope, h) && Slot(scope, h, n) in c && c[Slot(scope, h, n)].payload.Compressed? ::
      c[Slot(scope, h, n)].payload.content
  }

  // The answer of a search: the greatest usable height, or none.
  ghost predicate IsNewest(c: Cache, scope: string, fingerprint: string, r: Option<SnapshotSet>) {
    match r
    case None => forall h <- HeightsOf(c, scope) :: !Usable(c, scope, h, fingerprint)
    case Some(s) =>
      && Usable(c, scope, s.height, fingerprint) && s.tables == TablesAt(c, scope, s.height)
      && forall h <- HeightsOf(c, scope) :: h > s.height ==> !Usable(c, scope, h, fingerprint)
  }

  // The rows of other scopes, and those of the kept heights, whole and unchanged.
  ghost predicate Pruned(before: Cache, scope: string, kept: set<nat>, after: Cache) {
    after == map slot | slot in before && (slot.scope != scope || slot.height in kept) :: before[slot]
  }

  // All heights, or as many as asked for, and none left out is above one of them.
  ghost predicate AreNewest(kept: set<nat>, all: set<nat>, keep: nat) {
    && kept <= all && |kept| == (if keep < |all| then keep else |all|)
    && forall g <- kept, h <- all - kept :: g > h
  }

  lemma NewestRetained(c: Cache, scope: string, hs: seq<nat>, keep: nat)
    requires forall i, j | 0 <= i < j < |hs| :: hs[i] > hs[j]
    requires forall h :: h in hs <==> h in HeightsOf(c, scope)
    ensures AreNewest(Ordering.Members(hs[..if keep < |hs| then keep else |hs|]), HeightsOf(c, scope), keep)
  {
    hide HeightsOf;
    var n := if keep < |hs| then keep else |hs|;
    DescendingSize(hs, |hs|);
    DescendingSize(hs, n);
    assert hs[..|hs|] == hs;
    assert Ordering.Members(hs) == HeightsOf(c, scope);
    forall j | 0 <= j < n ensures hs[j] in Ordering.Members(hs[..n]) { assert hs[..n][j] == hs[j]; }
    forall g, h | g in Ordering.Members(hs[..n]) && h in HeightsOf(c, scope) && h !in Ordering.Members(hs[..n]) ensures g > h {
      var i :| 0 <= i < n && hs[i] == g;
      var j :| 0 <= j < |hs| && hs[j] == h;
    }
  }

  lemma {:induction false} DescendingSize(hs: seq<nat>, n: nat)
    requires n <= |hs| && forall i, j | 0 <= i < j < |hs| :: hs[i] > hs[j]
    ensures |Ordering.Members(hs[..n])| == n
    decreases n
  {
    hide Ordering.Members;
    if n > 0 {
      DescendingSize(hs, n - 1);
      Ordering.MembersStep(hs, n - 1);
    } else {
      Ordering.NoMembers(hs);
    }
  }

  lemma PrunedRows(before: Cache, scope: string, retained: seq<nat>, after: Cache)
    requires forall h <- retained :: h in HeightsOf(before, scope)
    requires after == map slot | slot in before && !(slot.scope == scope && slot.height !in retained) :: before[slot]
    ensures HeightsOf(after, scope) == Ordering.Members(retained)
    ensures Pruned(before, scope, HeightsOf(after, scope), after)
  {
    forall h | h in retained ensures h in HeightsOf(after, scope) {
      var slot :| slot in before && slot.scope == scope && slot.height == h;
      assert slot in after;
    }
  }

  class SnapshotCache {
    var rows: Cache

    constructor ()
      ensures rows == map[]
    {
      rows := map[];
    }

    // `create`: capture every manifest table, overwriting what the height held.
    method Create(scope: string, height: nat, p: Projection, idem: map<string, IdemRow>, fingerprint: string)
      modifies this
      ensures rows == Created(old(rows), scope, height, p, idem, fingerprint)
    {
      var rest := Manifest();
      while rest != {}
        invariant rest <= Manifest()
        invariant forall slot :: slot in rows <==> slot in old(rows) || slot in SlotsAt(scope, height, Manifest() - rest)
        invariant forall slot <- rows ::
          rows[slot] == (if slot in SlotsAt(scope, height, Manifest() - rest)
                         then Captured(p, idem, slot.name, fingerprint) else old(rows)[slot])
        decreases rest
      {
        var n :| n in rest;
        rows := rows[Slot(scope, height, n) := Captured(p, idem, n, fingerprint)];
        rest := rest - {n};
      }
      assert Manifest() - rest == Manifest();
    }

    // `heights`: distinct, newest first.
    method Heights(scope: string) returns (hs: seq<nat>)
      ensures forall i, j | 0 <= i < j < |hs| :: hs[i] > hs[j]
      ensures forall h :: h in hs <==> h in HeightsOf(rows, scope)
    {
      hs := [];
      var rest := HeightsOf(rows, scope);
      while rest != {}
        invariant rest <= HeightsOf(rows, scope)
        invariant forall i, j | 0 <= i < j < |hs| :: hs[i] > hs[j]
        invariant forall h :: h in hs <==> h in HeightsOf(rows, scope) - rest
        invariant forall h <- rest, g <- hs :: h < g
        decreases rest
      {
        var top := Greatest(rest);
        assert forall i | 0 <= i < |hs| :: hs[i] in hs;
        hs := hs + [top];
        rest := rest - {top};
      }
    }

    // `prune`: keep the newest heights of a scope. None is the ValueError.
    method Prune(scope: string, keep: int) returns (removed: Option<nat>)
      modifies this
      ensures keep < 0 ==> removed == None && rows == old(rows)
      ensures keep >= 0 ==>
        && Pruned(old(rows), scope, HeightsOf(rows, scope), rows)
        && AreNewest(HeightsOf(rows, scope), HeightsOf(old(rows), scope), keep)
        && removed == Some(|old(rows)| - |rows|)
    {
      hide HeightsOf, Pruned, AreNewest, Ordering.Members;
      if keep < 0 {
        return None;
      }
      var hs := Heights(scope);
      var retained := hs[..if keep < |hs| then keep else |hs|];
      var gone := set slot | slot in rows && slot.scope == scope && slot.height !in retained;
      ghost var before := rows;
      rows := map slot | slot in rows && slot !in gone :: rows[slot];
      removed := Some(|gone|);
      NewestRetained(before, scope, hs, keep);
      PrunedRows(before, scope, retained, rows);
      assert rows.Keys == before.Keys - gone;
    }

    method LoadNewestValid(scope: string, fingerprint: string) returns (r: Option<SnapshotSet>)
      ensures IsNewest(rows, scope, fingerprint, r)
    {
      hide Usable, TablesAt, HeightsOf;
      var hs := Heights(scope);
      for i := 0 to |hs|
        invariant forall j | 0 <= j < i :: !Usable(rows, scope, hs[j], fingerprint)
      {
        var h := hs[i];
        if Usable(rows, scope, h, fingerprint) {
          forall g | g in HeightsOf(rows, scope) && g > h ensures !Usable(rows, scope, g, fingerprint) {
            var j :| 0 <= j < |hs| && hs[j] == g;
            assert j < i;
          }
          return Some(SnapshotSet(h, TablesAt(rows, scope, h)));
        }
      }
      return None;
    }
  }

  method Greatest(s: set<nat>) returns (m: nat)
    requires s != {}
    ensures m in s && forall x <- s :: x <= m
  {
    m :| m in s;
    var rest := s - {m};
    while rest != {}
      invariant rest <= s && m in s
      invariant forall x <- s :: x in rest || x <= m
      decreases rest
    {
      var x :| x in rest;
      if x > m {
        m := x;
      }
      rest := rest - {x};
    }
  }

  function Captured(p: Projection, idem: map<string, IdemRow>, n: Name, fingerprint: string): SnapshotRow {
    SnapshotRow(Compressed(Capture(p, idem, n)), DigestOf(Capture(p, idem, n)), fingerprint)
  }

  function SlotsAt(scope: string, h: nat, names: set<Name>): set<Slot> {
    set n | n in names :: Slot(scope, h, n)
  }

  // The cache after a capture.
  function Created(c: Cache, scope: string, h: nat, p: Projection, idem: map<string, IdemRow>, fingerprint: string): Cache {
    map slot | slot in c.Keys + SlotsAt(scope, h, Manifest()) ::
      if slot in SlotsAt(scope, h, Manifest()) then Captured(p, idem, slot.name, fingerprint) else c[slot]
  }

  // Every table as captured at one moment.
  function Captures(p: Projection, idem: map<string, IdemRow>): map<Name, Content> {
    map n | n in Manifest() :: Capture(p, idem, n)
  }

  // A capture is usable at once, and holds the tables it was made from.
  lemma CreatedIsUsable(c: Cache, scope: string, h: nat, p: Projection, idem: map<string, IdemRow>, fingerprint: string)
    ensures var d := Created(c, scope, h, p, idem, fingerprint);
            Usable(d, scope, h, fingerprint) && TablesAt(d, scope, h) == Captures(p, idem)
  {
    hide Manifest, Capture;
    var d := Created(c, scope, h, p, idem, fingerprint);
    CreatedHolds(c, scope, h, p, idem, fingerprint);
    EveryName();
    forall n | n in Manifest() ensures n in NamesAt(d, scope, h) {
      assert Slot(scope, h, n) in d;
    }
  }

  /******* Restoring *******/

  // `restore`: put the rows of every table back into cleared tables.
  method Restore(tables: map<Name, Content>, ghost p: Projection, ghost idem: map<string, IdemRow>)
    returns (q: Projection, restored: map<string, IdemRow>)
    requires tables == Captures(p, idem)
    ensures q == p && restored == idem
  {
    hide AllTables, Manifest;
    EveryTableListed();
    var db := RestoreTables(AllTables(), tables, p, idem);
    assert OfTables(p.db, AllTables()) == p.db;
    return Projection(db, tables[EventHeads].heads), tables[Idempotency].idem;
  }

  method RestoreTables(listed: set<Table>, tables: map<Name, Content>, ghost p: Projection,
                       ghost idem: map<string, IdemRow>) returns (db: Db)
    requires forall t <- listed :: Projected(t) in tables && tables[Projected(t)] == Capture(p, idem, Projected(t))
    ensures db == OfTables(p.db, listed)
  {
    hide OfTables, OfTable;
    db := map[];
    var rest := listed;
    NoTables(p.db);
    assert listed - rest == {};
    while rest != {}
      invariant rest <= listed
      invariant db == OfTables(p.db, listed - rest)
      decreases rest
    {
      var t :| t in rest;
      assert tables[Projected(t)] == Rows(OfTable(p.db, t));
      OneMoreTable(p.db, listed - rest, t);
      assert listed - (rest - {t}) == listed - rest + {t};
      db := db + tables[Projected(t)].db;
      rest := rest - {t};
    }
    assert listed - rest == listed;
  }

  function OfTables(db: Db, ts: set<Table>): Db {
    map k | k in db && k.table in ts :: db[k]
  }

  lemma NoTables(db: Db)
    ensures OfTables(db, {}) == map[]
  {
  }

  lemma OneMoreTable(db: Db, ts: set<Table>, t: Table)
    ensures OfTables(db, ts) + OfTable(db, t) == OfTables(db, ts + {t})
  {
  }

  lemma EveryTableListed()
    ensures EventHeads in Manifest() && Idempotency in Manifest()
    ensures forall t: Table :: t in AllTables() && Projected(t) in Manifest()
  {
    forall t: Table ensures t in AllTables() && Projected(t) in Manifest() {
      match t
      case Episodes => case Sources => case Evidence => case Beliefs => case BeliefEvidence => case Supports =>
      case Justifications => case Premises => case Defeats => case Tasks => case Conflicts => case Notices =>
      case Rendered => case SourceRoots => case Fingerprints => case Verdicts => case Usage => case Unpromoted =>
      case LintReports => case GateDecisions => case Responses =>
    }
  }

  /******* Honest caches *******/

  // A row that current code would read.
  predicate Trusted(r: SnapshotRow, fingerprint: string) {
    r.fingerprint == fingerprint && Intact(r)
  }

  // `create_snapshot` reads the height in one transaction and captures the tables in a later
  // one: the rows labelled with the height of the first n events hold the tables of the first
  // m, with n <= m. All trusted rows of one height come from one capture. Rows with another
  // fingerprint and rows whose payload no longer matches its digest may hold anything.
  ghost predicate Honest(c: Cache, log: seq<Event>, fingerprint: string) {
    forall slot <- c :: Trusted(c[slot], fingerprint) ==> OneCapture(c, log, fingerprint, slot.scope, slot.height)
  }

  ghost predicate OneCapture(c: Cache, log: seq<Event>, fingerprint: string, scope: string, h: nat) {
    exists n: nat, m: nat, idem :: IsCapture(c, log, fingerprint, scope, h, n, m, idem)
  }

  ghost predicate IsCapture(c: Cache, log: seq<Event>, fingerprint: string, scope: string, h: nat, n: nat, m: nat,
                            idem: map<string, IdemRow>)
  {
    && n <= m <= |log| && h == LastSeq(log[..n]) && Regrouped(idem, log[..m]) && Fold(log[..m]).Some?
    && forall name :: Slot(scope, h, name) in c && Trusted(c[Slot(scope, h, name)], fingerprint) ==>
         c[Slot(scope, h, name)].payload.content == Capture(Fold(log[..m]).value, idem, name)
  }

  // Heights that clients have read and not used yet.
  ghost predicate HeightsRead(heights: map<string, nat>, log: seq<Event>) {
    forall client <- heights :: WasHeight(heights[client], log)
  }

  ghost predicate WasHeight(h: nat, log: seq<Event>) {
    exists n: nat :: n <= |log| && h == LastSeq(log[..n])
  }

  lemma AppendKeepsHonest(c: Cache, log: seq<Event>, more: seq<Event>, fingerprint: string)
    requires Honest(c, log, fingerprint)
    ensures Honest(c, log + more, fingerprint)
  {
    hide Trusted;
    forall slot | slot in c && Trusted(c[slot], fingerprint)
      ensures OneCapture(c, log + more, fingerprint, slot.scope, slot.height)
    {
      var n: nat, m: nat, idem :| IsCapture(c, log, fingerprint, slot.scope, slot.height, n, m, idem);
      assert (log + more)[..n] == log[..n] && (log + more)[..m] == log[..m];
      assert IsCapture(c, log + more, fingerprint, slot.scope, slot.height, n, m, idem);
    }
  }

  lemma AppendKeepsHeights(heights: map<string, nat>, log: seq<Event>, more: seq<Event>)
    requires HeightsRead(heights, log)
    ensures HeightsRead(heights, log + more)
  {
    forall client | client in heights ensures WasHeight(heights[client], log + more) {
      var n: nat :| n <= |log| && heights[client] == LastSeq(log[..n]);
      assert (log + more)[..n] == log[..n];
    }
  }

  // Rows may vanish, and may be damaged or go stale; nothing else happens to them.
  ghost predicate Decayed(c: Cache, d: Cache, fingerprint: string) {
    forall slot <- d :: (slot in c && d[slot] == c[slot]) || !Trusted(d[slot], fingerprint)
  }

  lemma DecayStaysHonest(c: Cache, d: Cache, log: seq<Event>, fingerprint: string)
    requires Honest(c, log, fingerprint) && Decayed(c, d, fingerprint)
    ensures Honest(d, log, fingerprint)
  {
    hide Trusted;
    forall slot | slot in d && Trusted(d[slot], fingerprint)
      ensures OneCapture(d, log, fingerprint, slot.scope, slot.height)
    {
      var n: nat, m: nat, idem :| IsCapture(c, log, fingerprint, slot.scope, slot.height, n, m, idem);
      assert IsCapture(d, log, fingerprint, slot.scope, slot.height, n, m, idem);
    }
  }

  lemma CreateStaysHonest(c: Cache, s: State, scope: string, h: nat, fingerprint: string)
    requires Honest(c, s.log, fingerprint) && Inv(s) && WasHeight(h, s.log)
    ensures Honest(Created(c, scope, h, s.p, s.idem, fingerprint), s.log, fingerprint)
  {
    hide Trusted, Fold, Regrouped, LogOk, Capture;
    var d := Created(c, scope, h, s.p, s.idem, fingerprint);
    InvOrder(s);
    EveryName();
    assert s.log[..|s.log|] == s.log;
    forall slot | slot in d && Trusted(d[slot], fingerprint)
      ensures OneCapture(d, s.log, fingerprint, slot.scope, slot.height)
    {
      if slot.scope == scope && slot.height == h {
        var n: nat :| n <= |s.log| && h == LastSeq(s.log[..n]);
        CreatedHolds(c, scope, h, s.p, s.idem, fingerprint);
        assert IsCapture(d, s.log, fingerprint, scope, h, n, |s.log|, s.idem);
      } else {
        CreatedElsewhere(c, scope, h, s.p, s.idem, fingerprint, slot.scope, slot.height);
        assert slot == Slot(slot.scope, slot.height, slot.name);
        var n: nat, m: nat, idem :| IsCapture(c, s.log, fingerprint, slot.scope, slot.height, n, m, idem);
        assert IsCapture(d, s.log, fingerprint, slot.scope, slot.height, n, m, idem);
      }
    }
  }

  lemma EveryName()
    ensures forall n: Name :: n in Manifest()
  {
    EveryTableListed();
    forall n: Name ensures n in Manifest() {
      assert n.Projected? ==> Projected(n.table) in Manifest();
    }
  }

  lemma CreatedHolds(c: Cache, scope: string, h: nat, p: Projection, idem: map<string, IdemRow>, fingerprint: string)
    ensures forall n <- Manifest() ::
              && Slot(scope, h, n) in Created(c, scope, h, p, idem, fingerprint)
              && Created(c, scope, h, p, idem, fingerprint)[Slot(scope, h, n)] == Captured(p, idem, n, fingerprint)
  {
    hide Manifest, Captured;
    forall n | n in Manifest() ensures Slot(scope, h, n) in SlotsAt(scope, h, Manifest()) {
    }
  }

  lemma CreatedElsewhere(c: Cache, scope: string, h: nat, p: Projection, idem: map<string, IdemRow>, fingerprint: string,
                         scope': string, h': nat)
    requires scope' != scope || h' != h
    ensures forall n :: var d := Created(c, scope, h, p, idem, fingerprint);
      (Slot(scope', h', n) in d <==> Slot(scope', h', n) in c)
      && (Slot(scope', h', n) in c ==> d[Slot(scope', h', n)] == c[Slot(scope', h', n)])
  {
    hide Manifest, Captured;
  }

  /******* Runs *******/

  datatype System = System(s: State, cache: Cache, fingerprint: string, heights: map<string, nat>)

  datatype CacheStep =
    | LedgerStep(step: Step)
    // The two transactions of `create_snapshot`, by client.
    | ReadHeight(client: string)
    | CaptureStep(client: string, scope: string)
    | PruneStep(scope: string, keep: nat, left: Cache)
    | DecayStep(left: Cache)
    // New code: its fingerprint is on no row yet.
    | Upgrade(fingerprint: string)

  ghost predicate Allowed(w: System, c: CacheStep) {
    match c
    case LedgerStep(step) => step.AppendStep? ==> !SmugglesKey(step.correlation, step.key)
    case ReadHeight(_) => true
    case CaptureStep(client, _) => client in w.heights
    case PruneStep(scope, keep, left) =>
      Pruned(w.cache, scope, HeightsOf(left, scope), left) && AreNewest(HeightsOf(left, scope), HeightsOf(w.cache, scope), keep)
    case DecayStep(left) => Decayed(w.cache, left, w.fingerprint)
    case Upgrade(f) => forall slot <- w.cache :: w.cache[slot].fingerprint != f
  }

  // A purge writes a new database, which holds no snapshots, while every client is stopped.
  function After(w: System, c: CacheStep): System {
    match c
    case LedgerStep(step) =>
      if step.PurgeStep? then w.(s := Next(w.s, step), cache := map[], heights := map[]) else w.(s := Next(w.s, step))
    case ReadHeight(client) => w.(heights := w.heights[client := LastSeq(w.s.log)])
    case CaptureStep(client, scope) =>
      if client in w.heights then
        w.(cache := Created(w.cache, scope, w.heights[client], w.s.p, w.s.idem, w.fingerprint),
           heights := w.heights - {client})
      else w
    case PruneStep(_, _, left) => w.(cache := left)
    case DecayStep(left) => w.(cache := left)
    case Upgrade(f) => w.(fingerprint := f)
  }

  ghost predicate CacheRun(ws: seq<System>, steps: seq<CacheStep>) {
    && |ws| == |steps| + 1 && ws[0].s == EmptyState && ws[0].cache == map[] && ws[0].heights == map[]
    && forall i | 0 <= i < |steps| :: Allowed(ws[i], steps[i]) && ws[i + 1] == After(ws[i], steps[i])
  }

  ghost predicate SystemOk(w: System) {
    Inv(w.s) && Honest(w.cache, w.s.log, w.fingerprint) && HeightsRead(w.heights, w.s.log)
  }

  // Over every run the ledger is valid and the cache is honest, which is all that the replay
  // from a snapshot relies on.
  lemma {:induction false} CacheStaysHonest(ws: seq<System>, steps: seq<CacheStep>, i: nat)
    requires CacheRun(ws, steps) && i < |ws|
    ensures Inv(ws[i].s) && Honest(ws[i].cache, ws[i].s.log, ws[i].fingerprint) && HeightsRead(ws[i].heights, ws[i].s.log)
    decreases i
  {
    hide Inv, After, Honest, HeightsRead;
    if i == 0 {
      StartOk(ws[0]);
    } else {
      CacheStaysHonest(ws, steps, i - 1);
      AfterKeeps(ws[i - 1], steps[i - 1]);
    }
  }

  lemma StartOk(w: System)
    requires w.s == EmptyState && w.cache == map[] && w.heights == map[]
    ensures SystemOk(w)
  {
  }

  lemma AfterKeeps(w: System, c: CacheStep)
    requires SystemOk(w) && Allowed(w, c)
    ensures SystemOk(After(w, c))
  {
    hide Inv, Honest, WasHeight, Next, Created, Pruned, AreNewest, Decayed;
    match c
    case LedgerStep(step) => LedgerStepKeeps(w, step);
    case ReadHeight(_) => NowWasHeight(w.s.log);
    case CaptureStep(client, scope) => CreateStaysHonest(w.cache, w.s, scope, w.heights[client], w.fingerprint);
    case PruneStep(scope, keep, left) =>
      PruneDecays(w.cache, scope, left, w.fingerprint);
      DecayStaysHonest(w.cache, left, w.s.log, w.fingerprint);
    case DecayStep(left) => DecayStaysHonest(w.cache, left, w.s.log, w.fingerprint);
    case Upgrade(f) => NothingTrusted(w.cache, w.s.log, f);
  }

  lemma LedgerStepKeeps(w: System, step: Step)
    requires SystemOk(w) && Allowed(w, LedgerStep(step))
    ensures SystemOk(After(w, LedgerStep(step)))
  {
    hide Inv, Honest, HeightsRead, Append, Purge;
    match step
    case AppendStep(ep, drafts, correlation, key, task, env) =>
      if Append(w.s, ep, drafts, correlation, key, task, env).Ok? {
        AppendKeepsInv(w.s, ep, drafts, correlation, key, task, env);
        AppendAddsBatch(w.s, ep, drafts, correlation, key, task, env);
        var events := Append(w.s, ep, drafts, correlation, key, task, env).value.events;
        AppendKeepsHonest(w.cache, w.s.log, events, w.fingerprint);
        AppendKeepsHeights(w.heights, w.s.log, events);
      }
    case PurgeStep(x) =>
      PurgeKeepsInv(w.s, x);
      NothingTrusted(map[], Next(w.s, step).log, w.fingerprint);
      NoHeights(Next(w.s, step).log);
  }

  lemma NoHeights(log: seq<Event>)
    ensures HeightsRead(map[], log)
  {
  }

  lemma NowWasHeight(log: seq<Event>)
    ensures WasHeight(LastSeq(log), log)
  {
    assert log[..|log|] == log;
  }

  lemma NothingTrusted(c: Cache, log: seq<Event>, fingerprint: string)
    requires forall slot <- c :: c[slot].fingerprint != fingerprint
    ensures Honest(c, log, fingerprint)
  {
  }

  lemma PruneDecays(c: Cache, scope: string, left: Cache, fingerprint: string)
    requires Pruned(c, scope, HeightsOf(left, scope), left)
    ensures Decayed(c, left, fingerprint)
  {
    hide HeightsOf;
  }

  /******* Accelerated replay *******/

  // The tables are those of the first m events.
  ghost predicate CapturedAt(tables: map<Name, Content>, log: seq<Event>, m: nat) {
    && m <= |log| && Fold(log[..m]).Some?
    && exists idem :: Regrouped(idem, log[..m]) && tables == Captures(Fold(log[..m]).value, idem)
  }

  // A usable snapshot holds exactly the tables of one log prefix, which is at least as long as
  // the one its height names.
  lemma UsableIsPrefix(c: Cache, s: State, scope: string, h: nat, fingerprint: string)
    returns (n: nat, m: nat)
    requires Honest(c, s.log, fingerprint) && Usable(c, scope, h, fingerprint)
    ensures n <= m <= |s.log| && h == LastSeq(s.log[..n]) && CapturedAt(TablesAt(c, scope, h), s.log, m)
  {
    hide Fold, Regrouped, Capture, AllTables;
    var slot := Slot(scope, h, EventHeads);
    assert slot in c && Trusted(c[slot], fingerprint);
    var idem;
    n, m, idem :| IsCapture(c, s.log, fingerprint, scope, h, n, m, idem);
    var p := Fold(s.log[..m]).value;
    forall name | name in Manifest()
      ensures Slot(scope, h, name) in c && c[Slot(scope, h, name)].payload == Compressed(Capture(p, idem, name))
    {
      assert Trusted(c[Slot(scope, h, name)], fingerprint);
    }
    assert NamesAt(c, scope, h) == Manifest();
    assert TablesAt(c, scope, h) == Captures(p, idem);
  }

  lemma InvOrder(s: State)
    requires Inv(s)
    ensures Ascending(s.log) && Fold(s.log) == Some(s.p) && Regrouped(s.idem, s.log)
  {
  }

  predicate NoKeys(events: seq<Event>) {
    forall i | 0 <= i < |events| :: Lookup(events[i].body.correlation, KEY) == ""
  }

  lemma {:induction false} NoKeysKeyed(events: seq<Event>, ep: string, key: string)
    requires NoKeys(events) && key != ""
    ensures KeyedEvents(events, ep, key) == []
  {
    if events != [] {
      NoKeysKeyed(events[..|events| - 1], ep, key);
    }
  }

  // The idempotency table of a prefix is that of the whole log exactly when no later event
  // carries a key.
  lemma PrefixTableIff(log: seq<Event>, n: nat, early: map<string, IdemRow>, whole: map<string, IdemRow>)
    requires n <= |log| && Regrouped(early, log[..n]) && Regrouped(whole, log)
    ensures early == whole <==> NoKeys(log[n..])
  {
    assert log == log[..n] + log[n..];
    if NoKeys(log[n..]) {
      forall ep, key {:trigger KeyedEvents(log, ep, key)} | key != ""
        ensures KeyedEvents(log, ep, key) == KeyedEvents(log[..n], ep, key)
      {
        KeyedConcat(log[..n], log[n..], ep, key);
        NoKeysKeyed(log[n..], ep, key);
      }
      SameKeyedRegroups(log[..n], log, early);
      RegroupedIsUnique(early, whole, log);
    } else {
      var i :| 0 <= i < |log[n..]| && Lookup(log[n..][i].body.correlation, KEY) != "";
      var e := log[n..][i];
      var ep, key := e.body.episodeId, Lookup(e.body.correlation, KEY);
      KeyedConcat(log[..n], log[n..], ep, key);
      KeyedHolds(log[n..], ep, key, i);
      var t, was, now := StorageKey(ep, key), KeyedEvents(log[..n], ep, key), KeyedEvents(log, ep, key);
      assert |now| > |was| && whole[t].ids == Ids(now);
      if was != [] {
        assert early[t].ids == Ids(was);
      } else if t in early && early[t].episodeId == ep {
        var k :| k != "" && t == StorageKey(ep, k) && KeyedEvents(log[..n], ep, k) != [];
        StorageKeyInjective(ep, k, key);
      }
    }
  }

  lemma SameKeyedRegroups(a: seq<Event>, b: seq<Event>, table: map<string, IdemRow>)
    requires Regrouped(table, a)
    requires forall ep, key {:trigger KeyedEvents(b, ep, key)} :: key != "" ==>
               KeyedEvents(b, ep, key) == KeyedEvents(a, ep, key)
    ensures Regrouped(table, b)
  {
    forall s | s in table ensures Backed(s, table[s].episodeId, b) {
      var ep := table[s].episodeId;
      var key :| key != "" && s == StorageKey(ep, key) && KeyedEvents(a, ep, key) != [];
      assert KeyedEvents(b, ep, key) == KeyedEvents(a, ep, key);
    }
  }

  // What the replay makes of the tables of the first m events when it goes on above the first n.
  function Resumed(log: seq<Event>, n: nat, m: nat): Option<Projection>
    requires n <= |log| && m <= |log| && Fold(log[..m]).Some?
  {
    FoldFrom(Fold(log[..m]).value, log[n..])
  }

  // That replay ends where it should, projections, heads and idempotency rows.
  ghost predicate Reproduces(s: State, n: nat, m: nat)
    requires n <= |s.log| && m <= |s.log| && Fold(s.log[..m]).Some?
  {
    Resumed(s.log, n, m) == Some(s.p) && NoKeys(s.log[m..])
  }

  // `replay(from_snapshot=True)` after any search result: restore, apply the events above the
  // height, and compare with the live tables. None says that an event could not be applied.
  method AcceleratedReplay(s: State, found: Option<SnapshotSet>, ghost cache: Cache, ghost scope: string,
                           ghost fingerprint: string)
    returns (ok: bool, p: Option<Projection>, count: nat, ghost n: nat, ghost m: nat)
    requires Inv(s) && Honest(cache, s.log, fingerprint) && IsNewest(cache, scope, fingerprint, found)
    ensures found.None? ==> ok && p == Some(s.p) && count == |s.log|
    ensures found.Some? ==>
      && n <= m <= |s.log| && found.value.height == LastSeq(s.log[..n]) && CapturedAt(found.value.tables, s.log, m)
      && p == Resumed(s.log, n, m) && (ok <==> Reproduces(s, n, m)) && count == |s.log| - n
  {
    hide Inv, Honest, Regrouped, Apply, Usable, TablesAt, Cut, FoldFrom, NoKeys;
    InvOrder(s);
    n, m := 0, 0;
    if found.None? {
      assert s.log[..0] == [];
      FoldFromEmpty(s.log);
      p := ApplyAbove(EmptyProjection, s.log, 0);
      var regrouped := LedgerStore.RestoreIdempotency(s.log);
      if regrouped.Some? {
        RegroupedIsUnique(regrouped.value, s.idem, s.log);
      }
      return p == Some(s.p) && regrouped == Some(s.idem), p, |s.log|, n, m;
    }
    n, m := UsableIsPrefix(cache, s, scope, found.value.height, fingerprint);
    ghost var early :| Regrouped(early, s.log[..m]) && found.value.tables == Captures(Fold(s.log[..m]).value, early);
    HeightCut(s.log, n);
    var q, restored := Restore(found.value.tables, Fold(s.log[..m]).value, early);
    var start := Cut(s.log, Some(found.value.height));
    p := ApplyAbove(q, s.log, start);
    PrefixTableIff(s.log, m, early, s.idem);
    return p == Some(s.p) && restored == s.idem, p, |s.log| - start, n, m;
  }

  // Fold the events from one position on.
  method ApplyAbove(p: Projection, log: seq<Event>, start: nat) returns (q: Option<Projection>)
    requires start <= |log|
    ensures q == FoldFrom(p, log[start..])
  {
    hide Apply;
    var r := p;
    for i := start to |log|
      invariant FoldFrom(p, log[start..i]) == Some(r)
    {
      FoldFromStep(p, log, start, i);
      var next := Apply(r, log[i]);
      if next.None? {
        return None;
      }
      r := next.value;
    }
    assert log[start..|log|] == log[start..];
    return Some(r);
  }

  lemma FoldFromStep(p: Projection, log: seq<Event>, start: nat, i: nat)
    requires start <= i < |log|
    ensures FoldFrom(p, log[start..i + 1])
         == match FoldFrom(p, log[start..i]) case None => None case Some(q) => Apply(q, log[i])
    ensures FoldFrom(p, log[start..i + 1]).None? ==> FoldFrom(p, log[start..]).None?
  {
    hide Apply;
    assert log[start..i + 1][..i - start] == log[start..i];
    assert log[start..] == log[start..i + 1] + log[i + 1..];
    FoldFromConcat(p, log[start..i + 1], log[i + 1..]);
  }

  lemma FoldFromEmpty(log: seq<Event>)
    ensures FoldFrom(EmptyProjection, log[0..]) == Fold(log)
  {
    FoldConcat([], log);
    assert [] + log == log && log[0..] == log;
  }

  lemma HeightCut(log: seq<Event>, n: nat)
    requires Ascending(log) && n <= |log|
    ensures Cut(log, Some(LastSeq(log[..n]))) == n
  {
    if 0 < n { assert log[..n][n - 1] == log[n - 1]; }
    CutAt(log, Some(LastSeq(log[..n])), n);
  }

  lemma AboveIsSuffix(log: seq<Event>, n: nat)
    requires Ascending(log) && n <= |log|
    ensures NoKeys(log[n..]) <==> forall e <- log ::
              e.body.seq_ > LastSeq(log[..n]) ==> Lookup(e.body.correlation, KEY) == ""
  {
    if 0 < n { assert log[..n][n - 1] == log[n - 1]; }
    forall e | e in log && e.body.seq_ > LastSeq(log[..n]) ensures e in log[n..] {
      var i :| 0 <= i < |log| && log[i] == e;
      assert i >= n && log[n..][i - n] == e;
    }
    forall i | 0 <= i < |log[n..]| ensures log[n..][i] in log && log[n..][i].body.seq_ > LastSeq(log[..n]) {
      assert log[n..][i] == log[n + i];
    }
  }

  /******* What a late capture does *******/

  // The two halves of a log, and what lies between a height and a capture.
  lemma Between(s: State, n: nat, m: nat)
    requires Inv(s) && n <= m <= |s.log|
    ensures Fold(s.log[..n]).Some? && Fold(s.log[..m]).Some? && Unique(Fold(s.log[..n]).value.db)
    ensures FoldFrom(Fold(s.log[..n]).value, s.log[n..m]) == Fold(s.log[..m])
    ensures FoldFrom(Fold(s.log[..m]).value, s.log[m..]) == Some(s.p)
    ensures Resumed(s.log, n, m) == match FoldFrom(Fold(s.log[..m]).value, s.log[n..m])
                                    case None => None case Some(q) => FoldFrom(q, s.log[m..])
  {
    hide FoldFrom, Fold, Unique, Regrouped, Linked, DistinctIds;
    assert s.log == s.log[..n] + s.log[n..] && s.log == s.log[..m] + s.log[m..];
    assert s.log[..m] == s.log[..n] + s.log[n..m] && s.log[n..] == s.log[n..m] + s.log[m..];
    FoldConcat(s.log[..n], s.log[n..]);
    FoldConcat(s.log[..m], s.log[m..]);
    FoldConcat(s.log[..n], s.log[n..m]);
    FoldFromConcat(Fold(s.log[..m]).value, s.log[n..m], s.log[m..]);
    FoldUnique(s.log[..n]);
  }

  lemma FoldUnique(log: seq<Event>)
    requires Fold(log).Some?
    ensures Unique(Fold(log).value.db)
  {
    hide FoldFrom, Fold, ExecAll, Flat;
    FoldFromEmpty(log);
    assert log[0..] == log;
    FoldFromIsExec(EmptyProjection, log);
    AllUnique(map[], Flat(log));
  }

  // Nothing was appended between height and capture: the projections come out right, and the
  // comparison fails exactly when a keyed batch lies above the height.
  lemma PromptCapture(s: State, n: nat)
    requires Inv(s) && n <= |s.log|
    ensures Fold(s.log[..n]).Some? && Resumed(s.log, n, n) == Some(s.p)
    ensures Reproduces(s, n, n) <==> forall e <- s.log ::
              e.body.seq_ > LastSeq(s.log[..n]) ==> Lookup(e.body.correlation, KEY) == ""
  {
    hide NoKeys, Inv;
    Between(s, n, n);
    InvOrder(s);
    assert s.log[n..n] == [];
    AboveIsSuffix(s.log, n);
  }

  // An event that makes a row was appended in between: the replay meets it a second time and
  // aborts, whatever else is in the log.
  lemma LateCaptureAborts(s: State, n: nat, m: nat, i: nat)
    requires Inv(s) && n <= i < m <= |s.log| && MakesRow(s.log[i].body.payload)
    ensures Fold(s.log[..m]).Some? && Resumed(s.log, n, m) == None
  {
    hide FoldFrom, Fold, Inv, MakesRow;
    Between(s, n, m);
    assert s.log[n..m][i - n] == s.log[i];
    AppliedTwiceAborts(Fold(s.log[..n]).value, s.log[n..m], i - n);
  }

  // Only events that restate were appended in between, and no UNIQUE column was given two
  // values: the projections come out right all the same.
  lemma LateCaptureRestates(s: State, n: nat, m: nat)
    requires Inv(s) && n <= m <= |s.log| && Settled(Flat(s.log[n..m]))
    requires forall i | n <= i < m :: Restates(s.log[i].body.payload)
    ensures Fold(s.log[..m]).Some? && Resumed(s.log, n, m) == Some(s.p)
    ensures Reproduces(s, n, m) <==> NoKeys(s.log[m..])
  {
    hide FoldFrom, Fold, Inv, Restates, Flat, Settled, NoKeys;
    Between(s, n, m);
    AppliedTwiceIsOnce(Fold(s.log[..n]).value, s.log[n..m]);
  }

  // A source counter was raised in between, and is nowhere above the height set or lowered:
  // the replay counts twice, and the comparison fails.
  lemma LateCaptureCountsTwice(s: State, n: nat, m: nat, i: nat, source: string, c: string)
    requires Inv(s) && n <= i < m <= |s.log| && Delta(s.log[i].body, source, c) > 0
    requires forall j | n <= j < |s.log| :: CountsUp(s.log[j].body, source, c)
    ensures Fold(s.log[..m]).Some? && Resumed(s.log, n, m) != Some(s.p) && !Reproduces(s, n, m)
  {
    hide FoldFrom, Fold, Inv, Delta, CountsUp, NoKeys;
    Between(s, n, m);
    assert s.log[n..m][i - n] == s.log[i] && s.log[n..] == s.log[n..m] + s.log[m..];
    AppliedTwiceCountsTwice(Fold(s.log[..n]).value, s.log[n..m], s.log[m..], i - n, source, c);
  }

  /******* Two runs *******/

  function CreateEpisode(ep: string, key: string): CacheStep {
    LedgerStep(AppendStep(ep, [LedgerStore.Creation(ep)], map[], key, "", LedgerStore.SAMPLE))
  }

  const Start := System(EmptyState, map[], "code", map[])

  // Every state of a run of four steps.
  function FourSteps(w: System, a: CacheStep, b: CacheStep, c: CacheStep, d: CacheStep): seq<System> {
    [w, After(w, a), After(After(w, a), b), After(After(After(w, a), b), c), After(After(After(After(w, a), b), c), d)]
  }

  lemma FourStepsRun(a: CacheStep, b: CacheStep, c: CacheStep, d: CacheStep)
    requires var ws := FourSteps(Start, a, b, c, d);
             Allowed(ws[0], a) && Allowed(ws[1], b) && Allowed(ws[2], c) && Allowed(ws[3], d)
    ensures CacheRun(FourSteps(Start, a, b, c, d), [a, b, c, d])
  {
    hide After, Allowed;
  }

  // The state after the first creation.
  lemma FirstCreation() returns (e: Event)
    ensures var s := Next(EmptyState, CreateEpisode("a", "").step);
      && s.log == [e] && e.body.seq_ == 1 && e.body.id == "event 1" && e.body.payload == EpisodeCreated("a", "a", map[])
      && s.p.db == map[Id(Episodes, "a") := Row("a", map["episode_key" := Text("a")])] && s.idem == map[]
  {
    hide Append, Apply;
    LedgerStore.CreationIsAccepted(EmptyState, "a", map[], "");
    e := NextEvent([], map[], "a", LedgerStore.Creation("a"), Clean(map[], ""), LedgerStore.SAMPLE);
  }

  // The state after the second, which may carry a key.
  lemma SecondCreation(s: State, key: string) returns (e: Event)
    requires s == Next(EmptyState, CreateEpisode("a", "").step)
    ensures var u := Next(s, CreateEpisode("b", key).step);
      && u.log == s.log + [e] && |s.log| == 1 && LastSeq(s.log) == 1 && e.body.payload == EpisodeCreated("b", "b", map[])
      && Lookup(e.body.correlation, KEY) == key
  {
    hide Append, Apply;
    var first := FirstCreation();
    assert !HasId(s.log, "event 2");
    LedgerStore.CreationIsAccepted(s, "b", map[], key);
    e := NextEvent(s.log, s.p.heads, "b", LedgerStore.Creation("b"), Clean(map[], key), LedgerStore.SAMPLE);
  }

  lemma OnlyHeight(scope: string, h: nat, p: Projection, idem: map<string, IdemRow>, fingerprint: string)
    ensures var c := Created(map[], scope, h, p, idem, fingerprint);
            IsNewest(c, scope, fingerprint, Some(SnapshotSet(h, Captures(p, idem))))
  {
    hide Manifest, Captured, Usable, TablesAt, Captures;
    CreatedIsUsable(map[], scope, h, p, idem, fingerprint);
  }

  const LATE := [CreateEpisode("a", ""), ReadHeight("client"), CreateEpisode("b", ""), CaptureStep("client", "global")]

  const KEYED := [CreateEpisode("a", ""), ReadHeight("client"), CaptureStep("client", "global"), CreateEpisode("b", "key")]

  // A second episode is created between the two transactions of `create_snapshot`: the one
  // snapshot there is has height 1 and holds both, and the replay from it aborts.
  lemma LateCaptureRun() returns (ws: seq<System>, tables: map<Name, Content>)
    ensures CacheRun(ws, LATE)
    ensures Inv(ws[4].s) && |ws[4].s.log| == 2 && LastSeq(ws[4].s.log[..1]) == 1
    ensures IsNewest(ws[4].cache, "global", ws[4].fingerprint, Some(SnapshotSet(1, tables)))
    ensures CapturedAt(tables, ws[4].s.log, 2) && Resumed(ws[4].s.log, 1, 2) == None
  {
    hide Append, Inv, Regrouped, Fold, Resumed, Created, Captures, IsNewest, CacheRun, Next;
    ws := FourSteps(Start, LATE[0], LATE[1], LATE[2], LATE[3]);
    FourStepsRun(LATE[0], LATE[1], LATE[2], LATE[3]);
    CacheStaysHonest(ws, LATE, 4);
    var s := ws[4].s;
    var e := SecondCreation(ws[2].s, "");
    InvOrder(s);
    assert s.log[..2] == s.log && s.log[..1] == ws[2].s.log;
    tables := Captures(s.p, s.idem);
    OnlyHeight("global", 1, s.p, s.idem, "code");
    LateCaptureAborts(s, 1, 2, 1);
  }

  // A keyed batch is appended above a snapshot taken in good time: the replay from it ends with
  // the right projections and without the batch's idempotency row, and the comparison fails.
  lemma KeyedBatchAboveRun() returns (ws: seq<System>, tables: map<Name, Content>)
    ensures CacheRun(ws, KEYED)
    ensures Inv(ws[4].s) && |ws[4].s.log| == 2 && LastSeq(ws[4].s.log[..1]) == 1
    ensures IsNewest(ws[4].cache, "global", ws[4].fingerprint, Some(SnapshotSet(1, tables)))
    ensures CapturedAt(tables, ws[4].s.log, 1) && Resumed(ws[4].s.log, 1, 1) == Some(ws[4].s.p)
    ensures !Reproduces(ws[4].s, 1, 1)
  {
    hide Append, Inv, Regrouped, Fold, Resumed, Created, Captures, IsNewest, CacheRun, Next;
    ws := FourSteps(Start, KEYED[0], KEYED[1], KEYED[2], KEYED[3]);
    FourStepsRun(KEYED[0], KEYED[1], KEYED[2], KEYED[3]);
    CacheStaysHonest(ws, KEYED, 3);
    CacheStaysHonest(ws, KEYED, 4);
    var s, u := ws[2].s, ws[4].s;
    var e := SecondCreation(s, "key");
    InvOrder(s);
    assert u.log[..1] == s.log && u.log[1..] == [e];
    tables := Captures(s.p, s.idem);
    OnlyHeight("global", 1, s.p, s.idem, "code");
    PromptCapture(u, 1);
    assert [e][0] == e;
  }
}
