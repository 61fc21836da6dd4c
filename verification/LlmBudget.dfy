/**
 LLM budget reservations: the atomic reserve of `store.py`, the reserve / call / record /
 release client of `llm/client.py`, and the bounds they keep when many clients interleave,
 crash and retry.
 */
module LlmBudget {
  import opened Wrappers

  datatype Reservation = Reservation(id: string, episodeId: string, turn: int, input: int, output: int, createdAt: int)

  datatype UsageRow = UsageRow(episodeId: string, turn: int, input: int, output: int)

  datatype Totals = Totals(calls: int, input: int, output: int)

  datatype Limits = Limits(callsTurn: int, callsEpisode: int, inputEpisode: int, outputEpisode: int)

  datatype Tables = Tables(episodes: map<string, Totals>, usage: seq<UsageRow>, reservations: seq<Reservation>)

  // The four budgets a reservation counts against.
  datatype Measure = TurnCalls(ep: string, turn: int) | Calls(ep: string) | Input(ep: string) | Output(ep: string)

  function Amount(m: Measure, r: Reservation): int {
    match m
    case TurnCalls(ep, turn) => if r.episodeId == ep && r.turn == turn then 1 else 0
    case Calls(ep) => if r.episodeId == ep then 1 else 0
    case Input(ep) => if r.episodeId == ep then r.input else 0
    case Output(ep) => if r.episodeId == ep then r.output else 0
  }

  function Sum(rows: seq<Reservation>, f: Reservation -> int): int {
    if rows == [] then 0 else Sum(rows[..|rows| - 1], f) + f(rows[|rows| - 1])
  }

  // COUNT(*) and SUM(...) over the reservation table.
  function Reserved(rows: seq<Reservation>, m: Measure): int {
    Sum(rows, (r: Reservation) => Amount(m, r))
  }

  function TurnUsage(usage: seq<UsageRow>, ep: string, turn: int): int {
    if usage == [] then 0
    else
      var last := usage[|usage| - 1];
      TurnUsage(usage[..|usage| - 1], ep, turn) + (if last.episodeId == ep && last.turn == turn then 1 else 0)
  }

  function TotalsOf(t: Tables, ep: string): Totals {
    if ep in t.episodes then t.episodes[ep] else Totals(0, 0, 0)
  }

  function Used(t: Tables, m: Measure): int {
    match m
    case TurnCalls(ep, turn) => TurnUsage(t.usage, ep, turn)
    case Calls(ep) => TotalsOf(t, ep).calls
    case Input(ep) => TotalsOf(t, ep).input
    case Output(ep) => TotalsOf(t, ep).output
  }

  function Limit(l: Limits, m: Measure): int {
    match m
    case TurnCalls(_, _) => l.callsTurn
    case Calls(_) => l.callsEpisode
    case Input(_) => l.inputEpisode
    case Output(_) => l.outputEpisode
  }

  // DELETE FROM llm_reservations WHERE created_at < cutoff
  function Live(rows: seq<Reservation>, cutoff: int): seq<Reservation> {
    if rows == [] then []
    else Live(rows[..|rows| - 1], cutoff)
         + (if rows[|rows| - 1].createdAt >= cutoff then [rows[|rows| - 1]] else [])
  }

  // DELETE FROM llm_reservations WHERE id = ?
  function Drop(rows: seq<Reservation>, id: string): seq<Reservation> {
    if rows == [] then []
    else Drop(rows[..|rows| - 1], id) + (if rows[|rows| - 1].id != id then [rows[|rows| - 1]] else [])
  }

  predicate HasId(rows: seq<Reservation>, id: string) {
    exists i | 0 <= i < |rows| :: rows[i].id == id
  }

  function Cutoff(now: int, staleAfter: int): int {
    now - if staleAfter > 1 then staleAfter else 1
  }

  // A refusal rolls the whole transaction back, the clearing of stale rows included.
  function Reserve(t: Tables, r: Reservation, l: Limits, staleAfter: int): Result<Tables, string> {
    if r.input < 0 || r.output < 0 || l.callsTurn < 0 || l.callsEpisode < 0
    then Err("LLM budget values must be non-negative")
    else
      var rows := Live(t.reservations, Cutoff(r.createdAt, staleAfter));
      var ep := r.episodeId;
      if ep !in t.episodes then Err("episode does not exist")
      else if Used(t, TurnCalls(ep, r.turn)) + Reserved(rows, TurnCalls(ep, r.turn)) >= l.callsTurn
      then Err("turn LLM call budget exhausted")
      else if Used(t, Calls(ep)) + Reserved(rows, Calls(ep)) >= l.callsEpisode
      then Err("episode LLM call budget exhausted")
      else if Used(t, Input(ep)) + Reserved(rows, Input(ep)) + r.input > l.inputEpisode
      then Err("episode input-token budget exhausted")
      else if Used(t, Output(ep)) + Reserved(rows, Output(ep)) + r.output > l.outputEpisode
      then Err("episode output-token budget exhausted")
      else if HasId(rows, r.id) then Err("reservation id is not unique")
      else Ok(t.(reservations := rows + [r]))
  }

  // The LLM_USAGE_RECORDED handler.
  function Record(t: Tables, u: UsageRow): Tables {
    var was := TotalsOf(t, u.episodeId);
    t.(usage := t.usage + [u],
       episodes := t.episodes[u.episodeId := Totals(was.calls + 1, was.input + u.input, was.output + u.output)])
  }

  function InputTokensOrReservation(reported: Option<int>, reservation: int): int {
    if reported.None? || reported.value <= 0 then reservation else reported.value
  }

  function OutputTokensOrReservation(reported: Option<int>, reservation: int): int {
    if reported.None? || reported.value < 0 then reservation else reported.value
  }

  /******* The live tables *******/

  // What the host model call came back with; a failed call has no usable usage.
  datatype Reply = Reply(input: Option<int>, output: Option<int>) | CallFailed

  class BudgetStore {
    var episodes: map<string, Totals>
    var usage: seq<UsageRow>
    var reservations: seq<Reservation>

    ghost function Contents(): Tables
      reads this
    {
      Tables(episodes, usage, reservations)
    }

    constructor (episodes: map<string, Totals>)
      ensures Contents() == Tables(episodes, [], [])
    {
      this.episodes, usage, reservations := episodes, [], [];
    }

    method ReserveLlmBudget(r: Reservation, l: Limits, staleAfter: int) returns (refusal: Option<string>)
      modifies this`reservations
      ensures match Reserve(old(Contents()), r, l, staleAfter)
              case Ok(t) => refusal == None && Contents() == t
              case Err(reason) => refusal == Some(reason) && Contents() == old(Contents())
    {
      hide HasId, Reserved, TurnUsage, Cutoff;
      NoId(r.id);
      if r.input < 0 || r.output < 0 || l.callsTurn < 0 || l.callsEpisode < 0 {
        return Some("LLM budget values must be non-negative");
      }
      var saved := reservations;
      var cutoff := Cutoff(r.createdAt, staleAfter);
      var rows := [];
      var taken := false;
      for i := 0 to |reservations|
        invariant unchanged(this)
        invariant rows == Live(reservations[..i], cutoff)
        invariant taken <==> HasId(rows, r.id)
      {
        assert reservations[..i + 1][..i] == reservations[..i];
        if reservations[i].createdAt >= cutoff {
          HasIdSnoc(rows, reservations[i], r.id);
          rows := rows + [reservations[i]];
          taken := taken || reservations[i].id == r.id;
        }
      }
      assert reservations[..|reservations|] == reservations;
      reservations := rows;
      var reserved := SumFor(rows, r.episodeId);
      var turnReserved := CountTurn(rows, r.episodeId, r.turn);
      var turnUsed := CountUsage(r.episodeId, r.turn);
      if r.episodeId !in episodes {
        refusal := Some("episode does not exist");
      } else if turnUsed + turnReserved >= l.callsTurn {
        refusal := Some("turn LLM call budget exhausted");
      } else if episodes[r.episodeId].calls + reserved.calls >= l.callsEpisode {
        refusal := Some("episode LLM call budget exhausted");
      } else if episodes[r.episodeId].input + reserved.input + r.input > l.inputEpisode {
        refusal := Some("episode input-token budget exhausted");
      } else if episodes[r.episodeId].output + reserved.output + r.output > l.outputEpisode {
        refusal := Some("episode output-token budget exhausted");
      } else if taken {
        refusal := Some("reservation id is not unique");
      } else {
        reservations := rows + [r];
        return None;
      }
      reservations := saved;
    }

    method SumFor(rows: seq<Reservation>, ep: string) returns (t: Totals)
      ensures t == Totals(Reserved(rows, Calls(ep)), Reserved(rows, Input(ep)), Reserved(rows, Output(ep)))
    {
      t := Totals(0, 0, 0);
      for i := 0 to |rows|
        invariant t == Totals(Reserved(rows[..i], Calls(ep)), Reserved(rows[..i], Input(ep)), Reserved(rows[..i], Output(ep)))
      {
        assert rows[..i + 1][..i] == rows[..i];
        if rows[i].episodeId == ep {
          t := Totals(t.calls + 1, t.input + rows[i].input, t.output + rows[i].output);
        }
      }
      assert rows[..|rows|] == rows;
    }

    method CountTurn(rows: seq<Reservation>, ep: string, turn: int) returns (n: int)
      ensures n == Reserved(rows, TurnCalls(ep, turn))
    {
      n := 0;
      for i := 0 to |rows|
        invariant n == Reserved(rows[..i], TurnCalls(ep, turn))
      {
        assert rows[..i + 1][..i] == rows[..i];
        if rows[i].episodeId == ep && rows[i].turn == turn {
          n := n + 1;
        }
      }
      assert rows[..|rows|] == rows;
    }

    method CountUsage(ep: string, turn: int) returns (n: int)
      ensures n == TurnUsage(usage, ep, turn)
    {
      n := 0;
      for i := 0 to |usage|
        invariant n == TurnUsage(usage[..i], ep, turn)
      {
        assert usage[..i + 1][..i] == usage[..i];
        if usage[i].episodeId == ep && usage[i].turn == turn {
          n := n + 1;
        }
      }
      assert usage[..|usage|] == usage;
    }

    method ReleaseLlmReservation(id: string)
      modifies this`reservations
      ensures reservations == Drop(old(reservations), id)
    {
      var rows := [];
      for i := 0 to |reservations|
        invariant rows == Drop(reservations[..i], id)
      {
        assert reservations[..i + 1][..i] == reservations[..i];
        if reservations[i].id != id {
          rows := rows + [reservations[i]];
        }
      }
      assert reservations[..|reservations|] == reservations;
      reservations := rows;
    }

    // `complete_structured` run without interleaving: once reserved, usage is recorded exactly
    // once whether the call succeeds or fails, and the reservation never outlives the call.
    // `appended` is whether the usage append itself succeeds.
    method CompleteStructured(r: Reservation, l: Limits, staleAfter: int, reply: Reply, appended: bool)
      returns (refusal: Option<string>)
      modifies this
      ensures match Reserve(old(Contents()), r, l, staleAfter)
              case Err(reason) => refusal == Some(reason) && Contents() == old(Contents())
              case Ok(_) =>
                && refusal == None
                && var live := old(Contents()).(reservations := Live(old(reservations), Cutoff(r.createdAt, staleAfter)));
                   var tokensIn := if reply.CallFailed? then r.input else InputTokensOrReservation(reply.input, r.input);
                   var tokensOut := if reply.CallFailed? then r.output else OutputTokensOrReservation(reply.output, r.output);
                   Contents() == if appended then Record(live, UsageRow(r.episodeId, r.turn, tokensIn, tokensOut)) else live
    {
      hide Live, Drop, Reserved, HasId, TurnUsage, Cutoff, InputTokensOrReservation, OutputTokensOrReservation;
      refusal := ReserveLlmBudget(r, l, staleAfter);
      if refusal.Some? {
        return;
      }
      var tokensIn, tokensOut := r.input, r.output;
      if reply.Reply? {
        tokensIn := InputTokensOrReservation(reply.input, r.input);
        tokensOut := OutputTokensOrReservation(reply.output, r.output);
      }
      if appended {
        var was := if r.episodeId in episodes then episodes[r.episodeId] else Totals(0, 0, 0);
        usage := usage + [UsageRow(r.episodeId, r.turn, tokensIn, tokensOut)];
        episodes := episodes[r.episodeId := Totals(was.calls + 1, was.input + tokensIn, was.output + tokensOut)];
      }
      ReleaseLlmReservation(r.id);
      NoSuchId(old(Contents()), r, l, staleAfter);
      DropLast(Live(old(reservations), Cutoff(r.createdAt, staleAfter)), r);
    }
  }

  lemma NoSuchId(t: Tables, r: Reservation, l: Limits, staleAfter: int)
    requires Reserve(t, r, l, staleAfter).Ok?
    ensures !HasId(Live(t.reservations, Cutoff(r.createdAt, staleAfter)), r.id)
    ensures Reserve(t, r, l, staleAfter).value ==
            t.(reservations := Live(t.reservations, Cutoff(r.createdAt, staleAfter)) + [r])
  {
    hide Live, Reserved, HasId, TurnUsage, Cutoff;
  }

  lemma NoId(id: string)
    ensures !HasId([], id)
  {
  }

  lemma HasIdSnoc(rows: seq<Reservation>, r: Reservation, id: string)
    ensures HasId(rows + [r], id) <==> HasId(rows, id) || r.id == id
  {
    assert (rows + [r])[|rows|] == r;
    assert forall i | 0 <= i < |rows| :: (rows + [r])[i] == rows[i];
  }

  lemma {:induction false} DropNone(rows: seq<Reservation>, id: string)
    requires !HasId(rows, id)
    ensures Drop(rows, id) == rows
    decreases |rows|
  {
    hide HasId;
    if rows != [] {
      var init, last := rows[..|rows| - 1], rows[|rows| - 1];
      assert rows == init + [last];
      HasIdSnoc(init, last, id);
      DropNone(init, id);
    }
  }

  lemma DropLast(rows: seq<Reservation>, r: Reservation)
    requires !HasId(rows, r.id)
    ensures Drop(rows + [r], r.id) == rows
  {
    DropNone(rows, r.id);
    assert (rows + [r])[..|rows|] == rows;
  }

  /******* Interleaved clients *******/

  datatype Client = Client(row: Reservation, recorded: bool)

  datatype World = World(t: Tables, clients: map<string, Client>)

  datatype Step =
    | Begin(row: Reservation)
    | Finish(id: string, reply: Reply)
    // The usage append raised; the client goes on to release.
    | FinishUnrecorded(id: string)
    | Release(id: string)
    | Crash(id: string)
    // A ledger replay empties the reservation table.
    | Replay

  predicate InFlight(clients: map<string, Client>, id: string) {
    id in clients && !clients[id].recorded
  }

  predicate Enabled(w: World, step: Step, l: Limits, staleAfter: int) {
    match step
    case Begin(row) => row.id !in w.clients && Reserve(w.t, row, l, staleAfter).Ok?
    case Finish(id, _) => InFlight(w.clients, id)
    case FinishUnrecorded(id) => InFlight(w.clients, id)
    case Release(id) => id in w.clients && w.clients[id].recorded
    case Crash(id) => id in w.clients
    case Replay => true
  }

  function TokensIn(c: Client, reply: Reply): int {
    if reply.CallFailed? then c.row.input else InputTokensOrReservation(reply.input, c.row.input)
  }

  function TokensOut(c: Client, reply: Reply): int {
    if reply.CallFailed? then c.row.output else OutputTokensOrReservation(reply.output, c.row.output)
  }

  function Next(w: World, step: Step, l: Limits, staleAfter: int): World
    requires Enabled(w, step, l, staleAfter)
  {
    match step
    case Begin(row) => World(Reserve(w.t, row, l, staleAfter).value, w.clients[row.id := Client(row, false)])
    case Finish(id, reply) =>
      var c := w.clients[id];
      World(Record(w.t, UsageRow(c.row.episodeId, c.row.turn, TokensIn(c, reply), TokensOut(c, reply))),
            w.clients[id := c.(recorded := true)])
    case FinishUnrecorded(id) => w.(clients := w.clients[id := w.clients[id].(recorded := true)])
    case Release(id) => World(w.t.(reservations := Drop(w.t.reservations, id)), w.clients - {id})
    case Crash(id) => w.(clients := w.clients - {id})
    case Replay => w.(t := w.t.(reservations := []))
  }

  // No reservation of a call still in flight is dropped: calls finish within the stale window,
  // and no replay runs under them.
  predicate Punctual(w: World, step: Step, staleAfter: int) {
    match step
    case Begin(row) =>
      forall i | 0 <= i < |w.t.reservations| ::
        InFlight(w.clients, w.t.reservations[i].id) ==> w.t.reservations[i].createdAt >= Cutoff(row.createdAt, staleAfter)
    case Replay => forall id <- w.clients :: w.clients[id].recorded
    case _ => true
  }

  // A provider that reports no more than was reserved.
  predicate WithinReservation(w: World, step: Step) {
    step.Finish? && step.id in w.clients ==>
      TokensIn(w.clients[step.id], step.reply) <= w.clients[step.id].row.input
      && TokensOut(w.clients[step.id], step.reply) <= w.clients[step.id].row.output
  }

  ghost predicate Run(ws: seq<World>, steps: seq<Step>, l: Limits, staleAfter: int, boundedReports: bool) {
    && |ws| == |steps| + 1
    && l.callsTurn >= 0 && l.callsEpisode >= 0 && l.inputEpisode >= 0 && l.outputEpisode >= 0
    && ws[0].t.usage == [] && ws[0].t.reservations == [] && ws[0].clients == map[]
    && (forall ep <- ws[0].t.episodes :: ws[0].t.episodes[ep] == Totals(0, 0, 0))
    && forall i | 0 <= i < |steps| ::
         && Enabled(ws[i], steps[i], l, staleAfter)
         && ws[i + 1] == Next(ws[i], steps[i], l, staleAfter)
         && Punctual(ws[i], steps[i], staleAfter)
         && (boundedReports ==> WithinReservation(ws[i], steps[i]))
  }

  /******* The invariant *******/

  // What a reservation still stands for: nothing once its usage is recorded or its client is gone.
  function Pending(clients: map<string, Client>, m: Measure): Reservation -> int {
    (r: Reservation) => if InFlight(clients, r.id) then Amount(m, r) else 0
  }

  predicate Counts(m: Measure, boundedReports: bool) {
    m.TurnCalls? || m.Calls? || boundedReports
  }

  ghost predicate RowsOk(w: World) {
    && (forall i, j | 0 <= i < j < |w.t.reservations| :: w.t.reservations[i].id != w.t.reservations[j].id)
    && (forall i | 0 <= i < |w.t.reservations| :: w.t.reservations[i].input >= 0 && w.t.reservations[i].output >= 0)
    && (forall id <- w.clients :: w.clients[id].row.id == id)
    && (forall id <- w.clients :: !w.clients[id].recorded ==> w.clients[id].row in w.t.reservations)
  }

  ghost predicate Bounded(w: World, l: Limits, boundedReports: bool) {
    forall m: Measure :: Counts(m, boundedReports) ==>
      Used(w.t, m) + Sum(w.t.reservations, Pending(w.clients, m)) <= Limit(l, m)
  }

  lemma {:induction false} SumMonotone(rows: seq<Reservation>, f: Reservation -> int, g: Reservation -> int)
    requires forall i | 0 <= i < |rows| :: f(rows[i]) <= g(rows[i])
    ensures Sum(rows, f) <= Sum(rows, g)
  {
    if rows != [] {
      assert forall i | 0 <= i < |rows| - 1 :: rows[..|rows| - 1][i] == rows[i];
      SumMonotone(rows[..|rows| - 1], f, g);
    }
  }

  lemma SumSame(rows: seq<Reservation>, f: Reservation -> int, g: Reservation -> int)
    requires forall i | 0 <= i < |rows| :: f(rows[i]) == g(rows[i])
    ensures Sum(rows, f) == Sum(rows, g)
  {
    SumMonotone(rows, f, g);
    SumMonotone(rows, g, f);
  }

  // Two weights that differ at one row only.
  lemma {:induction false} SumOneRow(rows: seq<Reservation>, f: Reservation -> int, g: Reservation -> int, k: nat)
    requires k < |rows| && forall i | 0 <= i < |rows| && i != k :: f(rows[i]) == g(rows[i])
    ensures Sum(rows, f) - f(rows[k]) == Sum(rows, g) - g(rows[k])
  {
    var init := rows[..|rows| - 1];
    assert forall i | 0 <= i < |init| :: init[i] == rows[i];
    if k < |init| {
      SumOneRow(init, f, g, k);
    } else {
      SumSame(init, f, g);
    }
  }

  // Dropping rows that weigh nothing changes no sum.
  lemma {:induction false} SumLive(rows: seq<Reservation>, cutoff: int, f: Reservation -> int)
    requires forall i | 0 <= i < |rows| :: rows[i].createdAt < cutoff ==> f(rows[i]) == 0
    ensures Sum(Live(rows, cutoff), f) == Sum(rows, f)
  {
    if rows != [] {
      var init, last := rows[..|rows| - 1], rows[|rows| - 1];
      assert forall i | 0 <= i < |init| :: init[i] == rows[i];
      SumLive(init, cutoff, f);
      assert last.createdAt < cutoff ==> Live(rows, cutoff) == Live(init, cutoff);
      assert (Live(init, cutoff) + [last])[..|Live(init, cutoff)|] == Live(init, cutoff);
    }
  }

  lemma {:induction false} SumDrop(rows: seq<Reservation>, id: string, f: Reservation -> int)
    requires forall i | 0 <= i < |rows| :: rows[i].id == id ==> f(rows[i]) == 0
    ensures Sum(Drop(rows, id), f) == Sum(rows, f)
  {
    if rows != [] {
      var init, last := rows[..|rows| - 1], rows[|rows| - 1];
      assert forall i | 0 <= i < |init| :: init[i] == rows[i];
      SumDrop(init, id, f);
      assert last.id == id ==> Drop(rows, id) == Drop(init, id);
      assert (Drop(init, id) + [last])[..|Drop(init, id)|] == Drop(init, id);
    }
  }

  // Surviving rows are old rows, in their order.
  ghost predicate Thinned(rows: seq<Reservation>, kept: seq<Reservation>) {
    && (forall r :: r in kept ==> r in rows)
    && ((forall i, j | 0 <= i < j < |rows| :: rows[i].id != rows[j].id) ==>
        (forall i, j | 0 <= i < j < |kept| :: kept[i].id != kept[j].id))
  }

  lemma {:induction false} LiveThins(rows: seq<Reservation>, cutoff: int)
    ensures Thinned(rows, Live(rows, cutoff))
    decreases |rows|
  {
    hide Thinned;
    if rows == [] {
      NothingThins();
    } else {
      var init, last := rows[..|rows| - 1], rows[|rows| - 1];
      LiveThins(init, cutoff);
      ThinnedStep(init, last, Live(init, cutoff));
      FrontAndLast(rows);
      PlusNothing(Live(init, cutoff));
    }
  }

  lemma {:induction false} LiveKeeps(rows: seq<Reservation>, cutoff: int, r: Reservation)
    requires r in rows && r.createdAt >= cutoff
    ensures r in Live(rows, cutoff)
    decreases |rows|
  {
    var init, last := rows[..|rows| - 1], rows[|rows| - 1];
    assert rows == init + [last];
    if r in init { LiveKeeps(init, cutoff, r); }
  }

  lemma {:induction false} DropThins(rows: seq<Reservation>, id: string)
    ensures Thinned(rows, Drop(rows, id))
    decreases |rows|
  {
    hide Thinned;
    if rows == [] {
      NothingThins();
    } else {
      var init, last := rows[..|rows| - 1], rows[|rows| - 1];
      DropThins(init, id);
      ThinnedStep(init, last, Drop(init, id));
      FrontAndLast(rows);
      PlusNothing(Drop(init, id));
    }
  }

  lemma FrontAndLast(rows: seq<Reservation>)
    requires rows != []
    ensures rows == rows[..|rows| - 1] + [rows[|rows| - 1]]
  {
  }

  lemma PlusNothing(rows: seq<Reservation>)
    ensures rows + [] == rows
  {
  }

  lemma {:induction false} DropKeeps(rows: seq<Reservation>, id: string, r: Reservation)
    requires r in rows && r.id != id
    ensures r in Drop(rows, id)
    decreases |rows|
  {
    var init, last := rows[..|rows| - 1], rows[|rows| - 1];
    assert rows == init + [last];
    if r in init { DropKeeps(init, id, r); }
  }

  lemma NothingThins()
    ensures Thinned([], [])
  {
  }

  lemma ThinnedStep(init: seq<Reservation>, last: Reservation, kept: seq<Reservation>)
    requires Thinned(init, kept)
    ensures Thinned(init + [last], kept) && Thinned(init + [last], kept + [last])
  {
    var rows := init + [last];
    assert rows[|init|] == last && forall i | 0 <= i < |init| :: rows[i] == init[i];
    if forall i, j | 0 <= i < j < |rows| :: rows[i].id != rows[j].id {
      assert forall i, j | 0 <= i < j < |init| :: init[i].id != init[j].id by {
        assert forall i, j | 0 <= i < j < |init| :: rows[i].id != rows[j].id;
      }
      forall i | 0 <= i < |kept| ensures kept[i].id != last.id {
        assert kept[i] in init;
        var k :| 0 <= k < |init| && init[k] == kept[i];
        assert rows[k].id != rows[|init|].id;
      }
    }
  }

  lemma BeginKeepsRows(w: World, row: Reservation, l: Limits, staleAfter: int)
    requires Enabled(w, Begin(row), l, staleAfter) && Punctual(w, Begin(row), staleAfter) && RowsOk(w)
    ensures RowsOk(Next(w, Begin(row), l, staleAfter))
  {
    hide Live, Reserve, Reserved, TurnUsage, Cutoff;
    var v, cutoff := Next(w, Begin(row), l, staleAfter), Cutoff(row.createdAt, staleAfter);
    var rows := Live(w.t.reservations, cutoff);
    LiveThins(w.t.reservations, cutoff);
    NoSuchId(w.t, row, l, staleAfter);
    NotNegative(w.t, row, l, staleAfter);
    assert forall i | 0 <= i < |rows| :: rows[i] in rows;
    forall id <- w.clients | !w.clients[id].recorded ensures w.clients[id].row in rows {
      var k :| 0 <= k < |w.t.reservations| && w.t.reservations[k] == w.clients[id].row;
      LiveKeeps(w.t.reservations, cutoff, w.clients[id].row);
    }
  }

  lemma NotNegative(t: Tables, r: Reservation, l: Limits, staleAfter: int)
    requires Reserve(t, r, l, staleAfter).Ok?
    ensures r.input >= 0 && r.output >= 0
  {
    hide Live, Reserved, HasId, TurnUsage, Cutoff;
  }

  // What is asked for is checked against every live reservation, pending ones among them.
  lemma BeginFits(w: World, row: Reservation, l: Limits, staleAfter: int, m: Measure)
    requires Enabled(w, Begin(row), l, staleAfter)
    ensures Used(w.t, m) + Reserved(Live(w.t.reservations, Cutoff(row.createdAt, staleAfter)), m) + Amount(m, row)
         <= Limit(l, m) || Amount(m, row) == 0
    ensures Next(w, Begin(row), l, staleAfter).t
         == w.t.(reservations := Live(w.t.reservations, Cutoff(row.createdAt, staleAfter)) + [row])
    ensures !HasId(Live(w.t.reservations, Cutoff(row.createdAt, staleAfter)), row.id)
  {
  }

  // Admitting one row adds its amount to the pending sum, which the live rows bound.
  lemma PendingAfterBegin(old_: seq<Reservation>, clients: map<string, Client>, row: Reservation, cutoff: int, m: Measure)
    requires forall i | 0 <= i < |old_| :: old_[i].input >= 0 && old_[i].output >= 0
    requires forall i | 0 <= i < |old_| :: InFlight(clients, old_[i].id) ==> old_[i].createdAt >= cutoff
    requires !HasId(Live(old_, cutoff), row.id)
    ensures Sum(Live(old_, cutoff) + [row], Pending(clients[row.id := Client(row, false)], m))
         == Sum(old_, Pending(clients, m)) + Amount(m, row)
    ensures Sum(old_, Pending(clients, m)) <= Reserved(Live(old_, cutoff), m)
  {
    var rows := Live(old_, cutoff);
    LiveThins(old_, cutoff);
    var f, g := Pending(clients, m), Pending(clients[row.id := Client(row, false)], m);
    forall i | 0 <= i < |rows| ensures rows[i].input >= 0 && rows[i].output >= 0 && rows[i].id != row.id {
      assert rows[i] in rows;
    }
    assert (rows + [row])[..|rows|] == rows;
    SumSame(rows, f, g);
    SumLive(old_, cutoff, f);
    SumMonotone(rows, f, (r: Reservation) => Amount(m, r));
  }

  lemma BeginKeepsMeasure(w: World, row: Reservation, l: Limits, staleAfter: int, m: Measure)
    requires Enabled(w, Begin(row), l, staleAfter) && Punctual(w, Begin(row), staleAfter) && RowsOk(w)
    requires Used(w.t, m) + Sum(w.t.reservations, Pending(w.clients, m)) <= Limit(l, m)
    ensures var v := Next(w, Begin(row), l, staleAfter);
            Used(v.t, m) + Sum(v.t.reservations, Pending(v.clients, m)) <= Limit(l, m)
  {
    hide Sum, Live, Amount, Limit, Reserve, Reserved;
    BeginFits(w, row, l, staleAfter, m);
    PendingAfterBegin(w.t.reservations, w.clients, row, Cutoff(row.createdAt, staleAfter), m);
    assert Used(Next(w, Begin(row), l, staleAfter).t, m) == Used(w.t, m);
  }

  lemma BeginKeeps(w: World, row: Reservation, l: Limits, staleAfter: int, boundedReports: bool)
    requires Enabled(w, Begin(row), l, staleAfter) && Punctual(w, Begin(row), staleAfter)
    requires RowsOk(w) && Bounded(w, l, boundedReports)
    ensures RowsOk(Next(w, Begin(row), l, staleAfter)) && Bounded(Next(w, Begin(row), l, staleAfter), l, boundedReports)
  {
    hide Next, Enabled, Punctual, RowsOk;
    BeginKeepsRows(w, row, l, staleAfter);
    forall m: Measure | Counts(m, boundedReports)
      ensures var v := Next(w, Begin(row), l, staleAfter);
              Used(v.t, m) + Sum(v.t.reservations, Pending(v.clients, m)) <= Limit(l, m)
    {
      BeginKeepsMeasure(w, row, l, staleAfter, m);
    }
  }

  // Recording a call, or giving up on recording it, takes its row out of what is pending.
  lemma FinishTakes(rows: seq<Reservation>, clients: map<string, Client>, id: string, m: Measure)
    requires InFlight(clients, id) && clients[id].row in rows && clients[id].row.id == id
    requires forall i, j | 0 <= i < j < |rows| :: rows[i].id != rows[j].id
    ensures Sum(rows, Pending(clients[id := clients[id].(recorded := true)], m))
         == Sum(rows, Pending(clients, m)) - Amount(m, clients[id].row)
  {
    hide Sum, Amount;
    var k :| 0 <= k < |rows| && rows[k] == clients[id].row;
    SumOneRow(rows, Pending(clients, m), Pending(clients[id := clients[id].(recorded := true)], m), k);
  }

  lemma FinishKeepsMeasure(w: World, step: Step, l: Limits, staleAfter: int, boundedReports: bool, m: Measure)
    requires step.Finish? || step.FinishUnrecorded?
    requires Enabled(w, step, l, staleAfter) && (boundedReports ==> WithinReservation(w, step)) && RowsOk(w)
    requires Counts(m, boundedReports) && Used(w.t, m) + Sum(w.t.reservations, Pending(w.clients, m)) <= Limit(l, m)
    ensures var v := Next(w, step, l, staleAfter);
            Used(v.t, m) + Sum(v.t.reservations, Pending(v.clients, m)) <= Limit(l, m)
  {
    hide Sum, Pending, Limit, Record, Used, Reserve, InputTokensOrReservation, OutputTokensOrReservation;
    var c := w.clients[step.id];
    FinishTakes(w.t.reservations, w.clients, step.id, m);
    assert c.row.input >= 0 && c.row.output >= 0;
    RecordKeepsRows(w.t);
    if step.Finish? {
      RecordAdds(w.t, UsageRow(c.row.episodeId, c.row.turn, TokensIn(c, step.reply), TokensOut(c, step.reply)), m);
    }
  }

  lemma FinishKeeps(w: World, step: Step, l: Limits, staleAfter: int, boundedReports: bool)
    requires step.Finish? || step.FinishUnrecorded?
    requires Enabled(w, step, l, staleAfter) && (boundedReports ==> WithinReservation(w, step))
    requires RowsOk(w) && Bounded(w, l, boundedReports)
    ensures RowsOk(Next(w, step, l, staleAfter)) && Bounded(Next(w, step, l, staleAfter), l, boundedReports)
  {
    hide Sum, Pending, Limit, Used, Reserve, WithinReservation, Counts, Record;
    RecordKeepsRows(w.t);
    forall m: Measure | Counts(m, boundedReports)
      ensures var v := Next(w, step, l, staleAfter);
              Used(v.t, m) + Sum(v.t.reservations, Pending(v.clients, m)) <= Limit(l, m)
    {
      FinishKeepsMeasure(w, step, l, staleAfter, boundedReports, m);
    }
  }

  lemma RecordKeepsRows(t: Tables)
    ensures forall u :: Record(t, u).reservations == t.reservations
  {
  }

  lemma RecordAdds(t: Tables, u: UsageRow, m: Measure)
    ensures Used(Record(t, u), m) == Used(t, m) + Amount(m, Reservation("", u.episodeId, u.turn, u.input, u.output, 0))
  {
    assert (t.usage + [u])[..|t.usage|] == t.usage;
  }

  lemma OthersKeepRows(w: World, step: Step, l: Limits, staleAfter: int)
    requires step.Release? || step.Crash? || step.Replay?
    requires Enabled(w, step, l, staleAfter) && Punctual(w, step, staleAfter) && RowsOk(w)
    ensures RowsOk(Next(w, step, l, staleAfter))
  {
    hide Drop, Reserve;
    if step.Release? {
      DropThins(w.t.reservations, step.id);
      var kept := Drop(w.t.reservations, step.id);
      assert forall i | 0 <= i < |kept| :: kept[i] in kept;
      forall id <- w.clients | id != step.id && !w.clients[id].recorded ensures w.clients[id].row in kept {
        DropKeeps(w.t.reservations, step.id, w.clients[id].row);
      }
    }
  }

  // Forgetting a client only takes from what is pending.
  lemma ForgetTakes(rows: seq<Reservation>, clients: map<string, Client>, gone: set<string>, m: Measure)
    requires forall i | 0 <= i < |rows| :: rows[i].input >= 0 && rows[i].output >= 0
    ensures Sum(rows, Pending(clients - gone, m)) <= Sum(rows, Pending(clients, m))
  {
    hide Sum;
    SumMonotone(rows, Pending(clients - gone, m), Pending(clients, m));
  }

  lemma DropTakesNothing(rows: seq<Reservation>, clients: map<string, Client>, id: string, m: Measure)
    requires id !in clients
    ensures Sum(Drop(rows, id), Pending(clients, m)) == Sum(rows, Pending(clients, m))
  {
    hide Sum, Drop;
    SumDrop(rows, id, Pending(clients, m));
  }

  lemma PendingIsNotNegative(rows: seq<Reservation>, clients: map<string, Client>, m: Measure)
    requires forall i | 0 <= i < |rows| :: rows[i].input >= 0 && rows[i].output >= 0
    ensures Sum(rows, Pending(clients, m)) >= 0
  {
    hide Sum;
    SumMonotone(rows, (r: Reservation) => 0, Pending(clients, m));
    SumZero(rows);
  }

  lemma OthersKeepMeasure(w: World, step: Step, l: Limits, staleAfter: int, m: Measure)
    requires step.Release? || step.Crash? || step.Replay?
    requires Enabled(w, step, l, staleAfter) && Punctual(w, step, staleAfter) && RowsOk(w)
    requires Used(w.t, m) + Sum(w.t.reservations, Pending(w.clients, m)) <= Limit(l, m)
    ensures var v := Next(w, step, l, staleAfter);
            Used(v.t, m) + Sum(v.t.reservations, Pending(v.clients, m)) <= Limit(l, m)
  {
    hide Drop, Pending, Limit, Punctual, Reserve, TurnUsage;
    var v := Next(w, step, l, staleAfter);
    if step.Replay? {
      PendingIsNotNegative(w.t.reservations, w.clients, m);
      assert Sum([], Pending(v.clients, m)) == 0;
    } else {
      ForgetTakes(w.t.reservations, w.clients, {step.id}, m);
      if step.Release? { DropTakesNothing(w.t.reservations, v.clients, step.id, m); }
    }
    assert Used(v.t, m) == Used(w.t, m);
  }

  lemma OthersKeep(w: World, step: Step, l: Limits, staleAfter: int, boundedReports: bool)
    requires step.Release? || step.Crash? || step.Replay?
    requires Enabled(w, step, l, staleAfter) && Punctual(w, step, staleAfter)
    requires RowsOk(w) && Bounded(w, l, boundedReports)
    ensures RowsOk(Next(w, step, l, staleAfter)) && Bounded(Next(w, step, l, staleAfter), l, boundedReports)
  {
    hide Next, Enabled, Punctual, RowsOk;
    OthersKeepRows(w, step, l, staleAfter);
    forall m: Measure | Counts(m, boundedReports)
      ensures var v := Next(w, step, l, staleAfter);
              Used(v.t, m) + Sum(v.t.reservations, Pending(v.clients, m)) <= Limit(l, m)
    {
      OthersKeepMeasure(w, step, l, staleAfter, m);
    }
  }

  lemma {:induction false} SumZero(rows: seq<Reservation>)
    ensures Sum(rows, (r: Reservation) => 0) == 0
  {
    if rows != [] {
      SumZero(rows[..|rows| - 1]);
    }
  }

  lemma {:induction false} RunBounded(ws: seq<World>, steps: seq<Step>, l: Limits, staleAfter: int, boundedReports: bool, i: nat)
    requires Run(ws, steps, l, staleAfter, boundedReports) && i < |ws|
    ensures RowsOk(ws[i]) && Bounded(ws[i], l, boundedReports)
    decreases i
  {
    hide RowsOk, Bounded;
    if i == 0 {
      StartBounded(ws[0], l, boundedReports);
    } else {
      RunBounded(ws, steps, l, staleAfter, boundedReports, i - 1);
      var w, step := ws[i - 1], steps[i - 1];
      if step.Begin? {
        BeginKeeps(w, step.row, l, staleAfter, boundedReports);
      } else if step.Finish? || step.FinishUnrecorded? {
        FinishKeeps(w, step, l, staleAfter, boundedReports);
      } else {
        OthersKeep(w, step, l, staleAfter, boundedReports);
      }
    }
  }

  lemma StartBounded(w: World, l: Limits, boundedReports: bool)
    requires l.callsTurn >= 0 && l.callsEpisode >= 0 && l.inputEpisode >= 0 && l.outputEpisode >= 0
    requires w.t.usage == [] && w.t.reservations == [] && w.clients == map[]
    requires forall ep <- w.t.episodes :: w.t.episodes[ep] == Totals(0, 0, 0)
    ensures RowsOk(w) && Bounded(w, l, boundedReports)
  {
  }

  // Over every interleaving, crashes included, recorded calls stay within the turn and episode
  // limits; recorded tokens stay within theirs when no report exceeds its reservation.
  lemma BudgetsHold(ws: seq<World>, steps: seq<Step>, l: Limits, staleAfter: int, boundedReports: bool, i: nat, m: Measure)
    requires Run(ws, steps, l, staleAfter, boundedReports) && i < |ws| && Counts(m, boundedReports)
    ensures Used(ws[i].t, m) <= Limit(l, m)
  {
    RunBounded(ws, steps, l, staleAfter, boundedReports, i);
    var w := ws[i];
    assert forall k | 0 <= k < |w.t.reservations| :: Pending(w.clients, m)(w.t.reservations[k]) >= 0;
    SumMonotone(w.t.reservations, (r: Reservation) => 0, Pending(w.clients, m));
    SumZero(w.t.reservations);
  }

  /******* What is counted *******/

  // Recorded calls of one turn.
  function CallsRecorded(usage: seq<UsageRow>, ep: string, turn: int): set<nat> {
    set i: nat | i < |usage| && usage[i].episodeId == ep && usage[i].turn == turn
  }

  // Reservations of an episode, or of one of its turns, no older than a moment.
  function CallsHeld(rows: seq<Reservation>, ep: string, turn: Option<int>, since: int): set<nat> {
    set i: nat | i < |rows| && IsHeld(rows[i], ep, turn, since)
  }

  predicate IsHeld(r: Reservation, ep: string, turn: Option<int>, since: int) {
    r.episodeId == ep && r.createdAt >= since && (turn == None || turn == Some(r.turn))
  }

  // The tokens that those reservations hold.
  function TokensHeld(rows: seq<Reservation>, ep: string, since: int): (int, int) {
    if rows == [] then (0, 0)
    else
      var rest := TokensHeld(rows[1..], ep, since);
      if rows[0].episodeId == ep && rows[0].createdAt >= since
      then (rows[0].input + rest.0, rows[0].output + rest.1) else rest
  }

  lemma {:induction false} UsageIsCounted(usage: seq<UsageRow>, ep: string, turn: int)
    ensures TurnUsage(usage, ep, turn) == |CallsRecorded(usage, ep, turn)|
  {
    if usage != [] {
      var n := |usage| - 1;
      UsageIsCounted(usage[..n], ep, turn);
      var before := CallsRecorded(usage[..n], ep, turn);
      assert n !in before;
      assert CallsRecorded(usage, ep, turn) == before + if usage[n].episodeId == ep && usage[n].turn == turn then {n} else {};
    }
  }

  lemma {:induction false} CallsAreCounted(rows: seq<Reservation>, ep: string, turn: int, since: int)
    ensures Reserved(Live(rows, since), Calls(ep)) == |CallsHeld(rows, ep, None, since)|
    ensures Reserved(Live(rows, since), TurnCalls(ep, turn)) == |CallsHeld(rows, ep, Some(turn), since)|
  {
    if rows != [] {
      var n := |rows| - 1;
      var init, last := rows[..n], rows[n];
      CallsAreCounted(init, ep, turn, since);
      HeldSnoc(rows, ep, None, since);
      HeldSnoc(rows, ep, Some(turn), since);
      LiveSnocSums(rows, since, Calls(ep));
      LiveSnocSums(rows, since, TurnCalls(ep, turn));
    }
  }

  lemma HeldSnoc(rows: seq<Reservation>, ep: string, turn: Option<int>, since: int)
    requires rows != []
    ensures var n := |rows| - 1;
      |CallsHeld(rows, ep, turn, since)| == |CallsHeld(rows[..n], ep, turn, since)|
        + if IsHeld(rows[n], ep, turn, since) then 1 else 0
  {
    hide IsHeld;
    var n := |rows| - 1;
    var before := CallsHeld(rows[..n], ep, turn, since);
    assert n !in before;
    assert CallsHeld(rows, ep, turn, since) == before + if IsHeld(rows[n], ep, turn, since) then {n} else {};
  }

  lemma LiveSnocSums(rows: seq<Reservation>, since: int, m: Measure)
    requires rows != []
    ensures var n := |rows| - 1;
      Reserved(Live(rows, since), m) == Reserved(Live(rows[..n], since), m) + if rows[n].createdAt >= since then Amount(m, rows[n]) else 0
  {
    hide Amount;
    var n := |rows| - 1;
    var before := Live(rows[..n], since);
    if rows[n].createdAt >= since {
      assert Live(rows, since) == before + [rows[n]];
      assert (before + [rows[n]])[..|before|] == before;
    } else {
      assert Live(rows, since) == before;
    }
  }

  lemma {:induction false} TokensSnoc(rows: seq<Reservation>, last: Reservation, ep: string, since: int)
    ensures TokensHeld(rows + [last], ep, since) ==
      if last.episodeId == ep && last.createdAt >= since
      then (TokensHeld(rows, ep, since).0 + last.input, TokensHeld(rows, ep, since).1 + last.output)
      else TokensHeld(rows, ep, since)
    decreases |rows|
  {
    if rows == [] {
      assert [last][1..] == [];
      assert rows + [last] == [last];
    } else {
      assert (rows + [last])[1..] == rows[1..] + [last];
      TokensSnoc(rows[1..], last, ep, since);
    }
  }

  lemma {:induction false} TokensAreSummed(rows: seq<Reservation>, ep: string, since: int)
    ensures TokensHeld(rows, ep, since) == (Reserved(Live(rows, since), Input(ep)), Reserved(Live(rows, since), Output(ep)))
  {
    if rows != [] {
      var n := |rows| - 1;
      assert rows == rows[..n] + [rows[n]];
      TokensAreSummed(rows[..n], ep, since);
      TokensSnoc(rows[..n], rows[n], ep, since);
      LiveSnocSums(rows, since, Input(ep));
      LiveSnocSums(rows, since, Output(ep));
    }
  }

  // The rows kept are those no older than the moment, in their order.
  lemma {:induction false} LiveAreRecent(rows: seq<Reservation>, since: int)
    ensures forall x :: x in Live(rows, since) <==> x in rows && x.createdAt >= since
    ensures forall i | 0 <= i < |rows| :: rows[i].createdAt >= since ==> rows[i] in Live(rows, since)
    ensures (forall i | 0 <= i < |rows| :: rows[i].createdAt >= since) ==> Live(rows, since) == rows
  {
    if rows != [] {
      var n := |rows| - 1;
      assert rows == rows[..n] + [rows[n]];
      LiveAreRecent(rows[..n], since);
    }
  }

  // What stands in the way of a reservation, in the order it is found.
  function Refusal(t: Tables, r: Reservation, l: Limits, staleAfter: int): Option<string> {
    var since := r.createdAt - if staleAfter < 1 then 1 else staleAfter;
    var ep, rows := r.episodeId, t.reservations;
    if r.input < 0 || r.output < 0 || l.callsTurn < 0 || l.callsEpisode < 0 then Some("LLM budget values must be non-negative")
    else if ep !in t.episodes then Some("episode does not exist")
    else if |CallsRecorded(t.usage, ep, r.turn)| + |CallsHeld(rows, ep, Some(r.turn), since)| + 1 > l.callsTurn
    then Some("turn LLM call budget exhausted")
    else if t.episodes[ep].calls + |CallsHeld(rows, ep, None, since)| + 1 > l.callsEpisode
    then Some("episode LLM call budget exhausted")
    else if t.episodes[ep].input + TokensHeld(rows, ep, since).0 + r.input > l.inputEpisode
    then Some("episode input-token budget exhausted")
    else if t.episodes[ep].output + TokensHeld(rows, ep, since).1 + r.output > l.outputEpisode
    then Some("episode output-token budget exhausted")
    else if exists x <- rows :: x.id == r.id && x.createdAt >= since then Some("reservation id is not unique")
    else None
  }

  // A reservation is admitted exactly when nothing stands in its way, and refused with the first
  // thing that does. Admitted, it joins the rows that are not stale, and nothing else changes.
  lemma ReserveAdmitsIff(t: Tables, r: Reservation, l: Limits, staleAfter: int)
    ensures match Refusal(t, r, l, staleAfter)
            case Some(reason) => Reserve(t, r, l, staleAfter) == Err(reason)
            case None =>
              && Reserve(t, r, l, staleAfter).Ok?
              && var u := Reserve(t, r, l, staleAfter).value;
                 && u.episodes == t.episodes && u.usage == t.usage
                 && u.reservations != [] && u.reservations[|u.reservations| - 1] == r
                 && forall x :: x in u.reservations <==>
                      x == r || (x in t.reservations && x.createdAt >= r.createdAt - if staleAfter < 1 then 1 else staleAfter)
  {
    hide Reserved, Live, TurnUsage, CallsRecorded, CallsHeld, HasId;
    var since := Cutoff(r.createdAt, staleAfter);
    var ep := r.episodeId;
    UsageIsCounted(t.usage, ep, r.turn);
    CallsAreCounted(t.reservations, ep, r.turn, since);
    TokensAreSummed(t.reservations, ep, since);
    LiveAreRecent(t.reservations, since);
    RecentId(t.reservations, since, r.id);
  }

  lemma RecentId(rows: seq<Reservation>, since: int, id: string)
    ensures HasId(Live(rows, since), id) <==> exists x <- rows :: x.id == id && x.createdAt >= since
  {
    hide Live;
    LiveAreRecent(rows, since);
    var live := Live(rows, since);
    if HasId(live, id) {
      var i :| 0 <= i < |live| && live[i].id == id;
      assert live[i] in live;
    }
    if exists x <- rows :: x.id == id && x.createdAt >= since {
      var x :| x in rows && x.id == id && x.createdAt >= since;
      assert x in live;
      var i :| 0 <= i < |live| && live[i] == x;
    }
  }

  // A finished call is recorded once, with the tokens that were reported if the report can be
  // believed: some input, no negative output. Otherwise, and for a failed call, with what was
  // reserved. The episode's totals move by that row.
  lemma FinishRecords(w: World, id: string, reply: Reply, l: Limits, staleAfter: int)
    requires Enabled(w, Finish(id, reply), l, staleAfter)
    ensures var v, row := Next(w, Finish(id, reply), l, staleAfter), w.clients[id].row;
      && v.t.reservations == w.t.reservations
      && |v.t.usage| == |w.t.usage| + 1 && v.t.usage[..|w.t.usage|] == w.t.usage
      && var u := v.t.usage[|w.t.usage|];
         && u.episodeId == row.episodeId && u.turn == row.turn
         && (match reply
             case CallFailed => u.input == row.input && u.output == row.output
             case Reply(input, output) =>
               && (match input case Some(n) => u.input == (if n > 0 then n else row.input) case None => u.input == row.input)
               && (match output case Some(n) => u.output == (if n >= 0 then n else row.output) case None => u.output == row.output))
         && var was := if row.episodeId in w.t.episodes then w.t.episodes[row.episodeId] else Totals(0, 0, 0);
            v.t.episodes == w.t.episodes[row.episodeId := Totals(was.calls + 1, was.input + u.input, was.output + u.output)]
  {
  }

  // A release takes the row of that id, and only it.
  lemma {:induction false} ReleaseTakes(rows: seq<Reservation>, id: string)
    ensures forall x :: x in Drop(rows, id) <==> x in rows && x.id != id
  {
    if rows != [] {
      var n := |rows| - 1;
      assert rows == rows[..n] + [rows[n]];
      ReleaseTakes(rows[..n], id);
    }
  }

  // The limits said of the recorded calls themselves.
  lemma RecordedCallsWithinLimits(ws: seq<World>, steps: seq<Step>, l: Limits, staleAfter: int, boundedReports: bool,
                                  i: nat, ep: string, turn: int)
    requires Run(ws, steps, l, staleAfter, boundedReports) && i < |ws|
    ensures |CallsRecorded(ws[i].t.usage, ep, turn)| <= l.callsTurn
    ensures ep in ws[i].t.episodes ==> ws[i].t.episodes[ep].calls <= l.callsEpisode
    ensures boundedReports && ep in ws[i].t.episodes ==>
      ws[i].t.episodes[ep].input <= l.inputEpisode && ws[i].t.episodes[ep].output <= l.outputEpisode
  {
    hide Run;
    UsageIsCounted(ws[i].t.usage, ep, turn);
    BudgetsHold(ws, steps, l, staleAfter, boundedReports, i, TurnCalls(ep, turn));
    BudgetsHold(ws, steps, l, staleAfter, boundedReports, i, Calls(ep));
    if boundedReports {
      BudgetsHold(ws, steps, l, staleAfter, boundedReports, i, Input(ep));
      BudgetsHold(ws, steps, l, staleAfter, boundedReports, i, Output(ep));
    }
  }

  function OneCall(): Limits {
    Limits(1, 1, 100, 100)
  }

  function Start(): Tables {
    Tables(map["ep" := Totals(0, 0, 0)], [], [])
  }

  function CallA(): Reservation {
    Reservation("a", "ep", 1, 10, 10, 0)
  }

  function CallB(): Reservation {
    Reservation("b", "ep", 1, 10, 10, 1000)
  }

  function AfterA(): Tables {
    Start().(reservations := [CallA()])
  }

  function AfterB(): Tables {
    Start().(reservations := [CallB()])
  }

  lemma AdmitsA()
    ensures Reserve(Start(), CallA(), OneCall(), 300) == Ok(AfterA())
  {
    assert Live([], Cutoff(0, 300)) == [];
    assert [] + [CallA()] == [CallA()];
  }

  lemma AdmitsB()
    ensures Reserve(AfterA(), CallB(), OneCall(), 300) == Ok(AfterB())
  {
    assert [CallA()][..0] == [];
    assert Live([CallA()], Cutoff(1000, 300)) == [];
    assert [] + [CallB()] == [CallB()];
  }

  // Without the proviso the bound fails: with one call allowed, a call that outlives the stale
  // window is forgotten, a second is admitted, and both are recorded.
  lemma StaleDropBreaksTheLimit()
    ensures Reserve(Start(), CallA(), OneCall(), 300).Ok?
    ensures var afterA := Reserve(Start(), CallA(), OneCall(), 300).value;
      && Reserve(afterA, CallB(), OneCall(), 300).Ok?
      && var afterB := Reserve(afterA, CallB(), OneCall(), 300).value;
        Used(Record(Record(afterB, UsageRow("ep", 1, 10, 10)), UsageRow("ep", 1, 10, 10)), Calls("ep"))
          > OneCall().callsEpisode
  {
    hide Reserve;
    AdmitsA();
    AdmitsB();
  }
}
