/**
 The rendered context: retractions, conflicts and beliefs written into a character budget, with
 a generation contract that is always whole and a sentinel whenever something was left out.
 */
module Render {

  datatype Health = Healthy | Degraded | Unavailable

  function HealthText(h: Health): (r: string)
    ensures |r| <= 11
  {
    match h
    case Healthy => "healthy"
    case Degraded => "degraded"
    case Unavailable => "unavailable"
  }

  datatype Notice = Notice(belief: string, cause: string, descendants: seq<string>)

  datatype Conflict = Conflict(left: string, right: string, task: string)

  // `line` is what render_belief_line makes of the belief and its source.
  datatype Belief = Belief(id: string, line: string)

  datatype Selection = Selection(retractions: seq<Notice>, conflicts: seq<Conflict>, beliefs: seq<Belief>)

  function Joined(parts: seq<string>, separator: string): string {
    if parts == [] then ""
    else if |parts| == 1 then parts[0]
    else parts[0] + separator + Joined(parts[1..], separator)
  }

  function RetractionLine(n: Notice): string {
    n.belief + " DEFEATED (" + n.cause + "); descendants retracted: "
    + (if Joined(n.descendants, ",") == "" then "none" else Joined(n.descendants, ",")) + "."
  }

  function ConflictLine(c: Conflict): string {
    c.left + " <-> " + c.right + " \U{2014} verification " + c.task + " open; assume neither."
  }

  const SAFETY := "SAFETY_CONTEXT_INCOMPLETE: assume omitted conflicts and retractions remain open."

  function HealthLine(h: Health): (r: string)
    ensures |r| == 53 + |HealthText(h)|
  {
    "### GENERATION CONTRACT\n" + "- Ledger component health: " + HealthText(h) + ".\n"
  }

  function CiteLine(): (r: string)
    ensures |r| == 77
  {
    "- Cite [b_...] for every factual assertion or prefix it with \"speculation:\".\n"
  }

  function NeverLine(): (r: string)
    ensures |r| == 41
  {
    "- Never cite OUT or QUARANTINED beliefs.\n"
  }

  function PendingLine(marker: string): (r: string)
    ensures |r| == 35 + |marker|
  {
    "- Cite PENDING beliefs only with " + marker + ".\n"
  }

  function AbsentLine(): (r: string)
    ensures |r| == 78
  {
    "- If a needed fact is absent, say so and propose a safe observation or search."
  }

  function Contract(h: Health, marker: string): string {
    HealthLine(h) + CiteLine() + NeverLine() + PendingLine(marker) + AbsentLine()
  }

  // With a marker of at most 128 characters the contract, a separator and the sentinel fit into
  // the smallest permitted budget: 423 + 2 + 81 = 506.
  lemma ContractLength(h: Health, marker: string)
    ensures |Contract(h, marker)| == 284 + |HealthText(h)| + |marker|
    ensures |SAFETY| == 80
    ensures |marker| <= 128 ==> |Contract(h, marker)| + 2 + |SAFETY| + 1 <= 506
  {
    hide HealthText, HealthLine, CiteLine, NeverLine, PendingLine, AbsentLine;
  }

  /******* The budget *******/

  // An entry to be written, and whether it names a belief.
  datatype Entry = Entry(text: string, belief: seq<string>)

  function Headline(s: Selection, h: Health): string {
    (if s.retractions != [] || s.conflicts != [] then "\n" else "")
    + "### LEDGER \U{2014} active relevant beliefs [" + HealthText(h) + "]"
  }

  function RetractionEntries(ns: seq<Notice>): seq<Entry> {
    if ns == [] then []
    else [Entry("### RETRACTIONS", [])] + seq(|ns|, i requires 0 <= i < |ns| => Entry(RetractionLine(ns[i]), []))
  }

  // The heading and the first conflicts.
  function ConflictsTo(cs: seq<Conflict>, i: nat): seq<Entry>
    requires i <= |cs|
  {
    [Entry("\n### OPEN CONFLICTS (samsaya)", [])] + seq(i, k requires 0 <= k < i => Entry(ConflictLine(cs[k]), []))
  }

  function ConflictEntries(cs: seq<Conflict>): seq<Entry> {
    if cs == [] then [] else ConflictsTo(cs, |cs|)
  }

  function BeliefEntries(bs: seq<Belief>): seq<Entry> {
    seq(|bs|, i requires 0 <= i < |bs| => Entry(bs[i].line, [bs[i].id]))
  }

  // Everything there is to say, in order.
  function Entries(s: Selection, h: Health): seq<Entry> {
    RetractionEntries(s.retractions) + ConflictEntries(s.conflicts) + [Entry(Headline(s, h), [])] + BeliefEntries(s.beliefs)
  }

  // What has been written: the entries that fitted, in order.
  function Written(es: seq<Entry>, maximum: nat): seq<Entry> {
    if es == [] then []
    else
      var kept, last := Written(es[..|es| - 1], maximum), es[|es| - 1];
      if Length(kept) + (if kept == [] then 0 else 1) + |last.text| <= maximum then kept + [last] else kept
  }

  // The length of entries joined by newlines.
  function Length(es: seq<Entry>): nat {
    if es == [] then 0
    else Length(es[..|es| - 1]) + (if |es| == 1 then 0 else 1) + |es[|es| - 1].text|
  }

  function Body(es: seq<Entry>): string {
    if es == [] then ""
    else Body(es[..|es| - 1]) + (if |es| == 1 then "" else "\n") + es[|es| - 1].text
  }

  function Ids(es: seq<Entry>): seq<string> {
    if es == [] then [] else Ids(es[..|es| - 1]) + es[|es| - 1].belief
  }

  class CharacterBudget {
    const maximum: nat
    var parts: seq<string>
    var used: nat
    var truncated: bool
    ghost var entries: seq<Entry>

    constructor (maximum: nat)
      ensures Valid([]) && this.maximum == maximum
    {
      this.maximum := maximum;
      parts, used, truncated, entries := [], 0, false, [];
    }

    // The state after the entries `all` were offered.
    ghost predicate Valid(all: seq<Entry>)
      reads this
    {
      && entries == Written(all, maximum)
      && used == Length(entries)
      && Joined(parts, "") == Body(entries)
      && (parts == [] <==> entries == [])
      && truncated == (|entries| < |all|)
    }

    method Add(text: string, ghost e: Entry, ghost all: seq<Entry>) returns (written: bool)
      requires Valid(all) && e.text == text
      modifies this
      ensures Valid(all + [e])
      ensures written <==> |Joined(old(parts), "")| + (if old(parts) == [] then 0 else 1) + |text| <= maximum
      ensures written <==> Written(all + [e], maximum) == Written(all, maximum) + [e]
      ensures !written ==> Written(all + [e], maximum) == Written(all, maximum)
    {
      var separator := if parts != [] then "\n" else "";
      var needed := |separator| + |text|;
      assert (all + [e])[..|all + [e]| - 1] == all;
      WrittenIsNoLonger(all, maximum);
      BodyLength(entries);
      if used + needed <= maximum {
        Appended(parts, separator, text, entries, e);
        parts := parts + (if separator != "" then [separator] else []) + [text];
        used := used + needed;
        entries := entries + [e];
        return true;
      }
      truncated := true;
      written := false;
    }
  }

  lemma {:induction false} WrittenIsNoLonger(es: seq<Entry>, maximum: nat)
    ensures |Written(es, maximum)| <= |es|
    decreases |es|
  {
    if es != [] { WrittenIsNoLonger(es[..|es| - 1], maximum); }
  }

  lemma {:induction false} JoinedConcat(a: seq<string>, b: seq<string>)
    ensures Joined(a + b, "") == Joined(a, "") + Joined(b, "")
    decreases |a|
  {
    if a == [] {
      assert a + b == b;
    } else if |a| == 1 {
      assert (a + b)[1..] == b;
    } else {
      assert (a + b)[1..] == a[1..] + b;
      JoinedConcat(a[1..], b);
    }
  }

  lemma Appended(parts: seq<string>, separator: string, text: string, entries: seq<Entry>, e: Entry)
    requires Joined(parts, "") == Body(entries) && (parts == [] <==> entries == []) && e.text == text
    requires separator == if parts != [] then "\n" else ""
    ensures Joined(parts + (if separator != "" then [separator] else []) + [text], "") == Body(entries + [e])
    ensures Length(entries + [e]) == Length(entries) + |separator| + |text|
  {
    assert (entries + [e])[..|entries|] == entries;
    var more := (if separator != "" then [separator] else []) + [text];
    assert parts + (if separator != "" then [separator] else []) + [text] == parts + more;
    JoinedConcat(parts, more);
  }

  /******* render_context *******/

  function Least(a: int, b: int): int {
    if a < b then a else b
  }

  function AtLeastZero(n: int): nat {
    if n < 0 then 0 else n
  }

  // What is left for entries once the contract and the sentinel are set aside.
  function EntryBudget(maximum: int, contract: string): nat {
    AtLeastZero(AtLeastZero(maximum - |contract| - 2) - (|SAFETY| + 1))
  }

  function WithSentinel(body: string, truncated: bool): string {
    if !truncated then body else if body == "" then SAFETY else body + "\n" + SAFETY
  }

  function WithContract(body: string, contract: string): string {
    if body == "" then contract else body + "\n\n" + contract
  }

  // The text before the final slice, and the slice.
  function Whole(s: Selection, maximum: int, h: Health, marker: string): string {
    var contract := Contract(h, marker);
    var kept := Written(Entries(s, h), EntryBudget(maximum, contract));
    WithContract(WithSentinel(Body(kept), |kept| < |Entries(s, h)|), contract)
  }

  lemma IdsSnoc(es: seq<Entry>, e: Entry)
    ensures Ids(es + [e]) == Ids(es) + e.belief
  {
    assert (es + [e])[..|es|] == es;
  }

  lemma NoIds(maximum: nat)
    ensures Ids(Written([], maximum)) == []
  {
  }

  method AddPlain(writer: CharacterBudget, text: string, ghost all: seq<Entry>) returns (written: bool)
    requires writer.Valid(all) && Ids(Written(all, writer.maximum)) == []
    modifies writer
    ensures writer.Valid(all + [Entry(text, [])]) && Ids(Written(all + [Entry(text, [])], writer.maximum)) == []
  {
    hide Ids, Written;
    IdsSnoc(Written(all, writer.maximum), Entry(text, []));
    written := writer.Add(text, Entry(text, []), all);
  }

  method WriteRetractions(writer: CharacterBudget, ns: seq<Notice>)
    requires writer.Valid([])
    modifies writer
    ensures writer.Valid(RetractionEntries(ns)) && Ids(Written(RetractionEntries(ns), writer.maximum)) == []
  {
    hide Written, RetractionLine, Ids, Body, Joined, Length;
    ghost var all: seq<Entry> := [];
    NoIds(writer.maximum);
    if ns != [] {
      var _ := AddPlain(writer, "### RETRACTIONS", all);
      all := all + [Entry("### RETRACTIONS", [])];
      for i := 0 to |ns|
        invariant writer.Valid(all) && Ids(Written(all, writer.maximum)) == []
        invariant all == [Entry("### RETRACTIONS", [])] + seq(i, k requires 0 <= k < i => Entry(RetractionLine(ns[k]), []))
      {
        var _ := AddPlain(writer, RetractionLine(ns[i]), all);
        all := all + [Entry(RetractionLine(ns[i]), [])];
      }
    }
    assert all == RetractionEntries(ns);
  }

  lemma ConflictsGrow(before: seq<Entry>, cs: seq<Conflict>, i: nat)
    requires i < |cs|
    ensures before + ConflictsTo(cs, i + 1) == before + ConflictsTo(cs, i) + [Entry(ConflictLine(cs[i]), [])]
  {
    hide ConflictLine;
  }

  lemma ConflictsStart(before: seq<Entry>, cs: seq<Conflict>)
    ensures before + ConflictsTo(cs, 0) == before + [Entry("\n### OPEN CONFLICTS (samsaya)", [])]
    ensures cs != [] ==> ConflictsTo(cs, |cs|) == ConflictEntries(cs)
    ensures cs == [] ==> before + ConflictEntries(cs) == before
  {
    hide ConflictLine;
  }

  method WriteConflicts(writer: CharacterBudget, cs: seq<Conflict>, ghost before: seq<Entry>)
    requires writer.Valid(before) && Ids(Written(before, writer.maximum)) == []
    modifies writer
    ensures writer.Valid(before + ConflictEntries(cs)) && Ids(Written(before + ConflictEntries(cs), writer.maximum)) == []
  {
    hide Written, ConflictLine, ConflictsTo, ConflictEntries, Ids, Body, Joined, Length;
    ConflictsStart(before, cs);
    if cs != [] {
      var _ := AddPlain(writer, "\n### OPEN CONFLICTS (samsaya)", before);
      for i := 0 to |cs|
        invariant writer.Valid(before + ConflictsTo(cs, i))
        invariant Ids(Written(before + ConflictsTo(cs, i), writer.maximum)) == []
      {
        var _ := AddPlain(writer, ConflictLine(cs[i]), before + ConflictsTo(cs, i));
        ConflictsGrow(before, cs, i);
      }
    }
  }

  method WriteBeliefs(writer: CharacterBudget, bs: seq<Belief>, ghost before: seq<Entry>) returns (ids: seq<string>)
    requires writer.Valid(before) && Ids(Written(before, writer.maximum)) == []
    modifies writer
    ensures writer.Valid(before + BeliefEntries(bs)) && ids == Ids(Written(before + BeliefEntries(bs), writer.maximum))
  {
    hide Written, Ids, Body, Joined, Length;
    ids := [];
    ghost var all := before;
    for i := 0 to |bs|
      invariant writer.Valid(all) && ids == Ids(Written(all, writer.maximum))
      invariant all == before + seq(i, k requires 0 <= k < i => Entry(bs[k].line, [bs[k].id]))
    {
      ghost var e := Entry(bs[i].line, [bs[i].id]);
      IdsSnoc(Written(all, writer.maximum), e);
      var written := writer.Add(bs[i].line, e, all);
      if written {
        ids := ids + [bs[i].id];
      }
      all := all + [e];
    }
    assert all == before + BeliefEntries(bs);
  }

  method RenderContext(s: Selection, maxChars: nat, h: Health, marker: string)
    returns (text: string, ids: seq<string>, truncated: bool)
    ensures var maximum := Least(8000, maxChars);
      var kept := Written(Entries(s, h), EntryBudget(maximum, Contract(h, marker)));
      var whole := Whole(s, maximum, h, marker);
      && ids == Ids(kept) && (truncated <==> |kept| < |Entries(s, h)|)
      && text == if |whole| > maximum then whole[..maximum] else whole
    ensures |text| <= maxChars && |text| <= 8000
    ensures 512 <= maxChars && |marker| <= 128 ==>
      var room := if maxChars > 8000 then 8000 else maxChars;
      && (truncated <==> |Body(Entries(s, h))| + 2 + |Contract(h, marker)| + 1 + 80 > room)
      && (!truncated ==> text == Body(Entries(s, h)) + "\n\n" + Contract(h, marker))
      && (!truncated ==> ids == seq(|s.beliefs|, i requires 0 <= i < |s.beliefs| => s.beliefs[i].id))
  {
    hide Written, RetractionEntries, ConflictEntries, BeliefEntries, Headline, Contract, Ids, Body, EntryBudget, Joined, Length;
    var maximum, contract := Least(8000, maxChars), Contract(h, marker);
    var writer := new CharacterBudget(EntryBudget(maximum, contract));
    WriteRetractions(writer, s.retractions);
    ghost var all := RetractionEntries(s.retractions);
    WriteConflicts(writer, s.conflicts, all);
    all := all + ConflictEntries(s.conflicts);
    var _ := AddPlain(writer, Headline(s, h), all);
    all := all + [Entry(Headline(s, h), [])];
    ids := WriteBeliefs(writer, s.beliefs, all);
    truncated := writer.truncated;
    text := WithContract(WithSentinel(Joined(writer.parts, ""), truncated), contract);
    if 512 <= maxChars && |marker| <= 128 {
      NothingLeftOutIff(s, maximum, h, marker);
      WrittenIsNoLonger(Entries(s, h), EntryBudget(maximum, contract));
      if !truncated { AllOfIt(s, maximum, h, marker); }
    }
    if |text| > maximum {
      text := text[..maximum];
    }
  }

  lemma {:induction false} WrittenFits(es: seq<Entry>, maximum: nat)
    ensures Length(Written(es, maximum)) <= maximum
    decreases |es|
  {
    if es != [] {
      WrittenFits(es[..|es| - 1], maximum);
      var kept, last := Written(es[..|es| - 1], maximum), es[|es| - 1];
      assert (kept + [last])[..|kept|] == kept;
    }
  }

  lemma {:induction false} BodyLength(es: seq<Entry>)
    ensures |Body(es)| == Length(es)
    decreases |es|
  {
    if es != [] { BodyLength(es[..|es| - 1]); }
  }

  predicate EndsWith(s: string, tail: string) {
    |tail| <= |s| && s[|s| - |tail|..] == tail
  }

  // For every selection and every permitted configuration: the slice cuts nothing, the contract
  // stands whole at the end, and when any entry was left out the sentinel stands before it.
  lemma ContextFits(s: Selection, maxChars: nat, h: Health, marker: string)
    requires 512 <= maxChars <= 8000 && |marker| <= 128
    ensures var contract := Contract(h, marker);
      var kept := Written(Entries(s, h), EntryBudget(maxChars, contract));
      var whole := Whole(s, maxChars, h, marker);
      && |whole| <= maxChars
      && EndsWith(whole, contract)
      && (|kept| < |Entries(s, h)| ==> EndsWith(whole, SAFETY + "\n\n" + contract))
      && (|kept| == |Entries(s, h)| ==> whole == WithContract(Body(Entries(s, h)), contract))
  {
    hide Written, Contract, Body, Length, Entries, HealthText;
    var contract := Contract(h, marker);
    var es, budget := Entries(s, h), EntryBudget(maxChars, contract);
    var kept := Written(es, budget);
    ContractLength(h, marker);
    ShortHealth(h);
    WrittenFits(es, budget);
    BodyLength(kept);
    WrittenIsNoLonger(es, budget);
    if |kept| == |es| { AllWritten(es, budget); }
    var body := Body(kept);
    if |kept| < |es| {
      var marked := WithSentinel(body, true);
      assert marked == (if body == "" then "" else body + "\n") + SAFETY;
      assert marked + "\n\n" + contract == (if body == "" then "" else body + "\n") + (SAFETY + "\n\n" + contract);
    }
  }

  lemma ShortHealth(h: Health)
    ensures |HealthText(h)| <= 11
  {
  }

  lemma {:induction false} AllWritten(es: seq<Entry>, maximum: nat)
    requires |Written(es, maximum)| == |es|
    ensures Written(es, maximum) == es
    decreases |es|
  {
    if es != [] {
      WrittenIsNoLonger(es[..|es| - 1], maximum);
      AllWritten(es[..|es| - 1], maximum);
    }
  }

  // The entries at these positions, each after the one before, are those given.
  predicate Selects(at: seq<nat>, es: seq<Entry>, chosen: seq<Entry>) {
    && |at| == |chosen|
    && (forall i | 0 <= i < |at| :: at[i] < |es| && es[at[i]] == chosen[i])
    && (forall i, j | 0 <= i < j < |at| :: at[i] < at[j])
  }

  lemma SelectsMore(at: seq<nat>, es: seq<Entry>, chosen: seq<Entry>, last: Entry)
    requires Selects(at, es, chosen)
    ensures Selects(at, es + [last], chosen) && Selects(at + [|es|], es + [last], chosen + [last])
  {
  }

  // Entries are whole or absent: what is written is a selection of the entries in their order.
  lemma {:induction false} WrittenAreEntries(es: seq<Entry>, maximum: nat) returns (at: seq<nat>)
    ensures Selects(at, es, Written(es, maximum))
    decreases |es|
  {
    hide Length, Selects;
    if es == [] {
      at := [];
      NoneSelected();
    } else {
      var init, last := es[..|es| - 1], es[|es| - 1];
      at := WrittenAreEntries(init, maximum);
      assert es == init + [last];
      SelectsMore(at, init, Written(init, maximum), last);
      if Written(es, maximum) != Written(init, maximum) {
        at := at + [|init|];
      }
    }
  }

  lemma NoneSelected()
    ensures Selects([], [], [])
  {
  }

  // Nothing is left out if and only if all the entries, one to a line, fit with the contract, a
  // blank line and room for the sentinel.
  lemma NothingLeftOutIff(s: Selection, maximum: nat, h: Health, marker: string)
    requires 512 <= maximum && |marker| <= 128
    ensures var es := Entries(s, h);
      |Written(es, EntryBudget(maximum, Contract(h, marker)))| < |es|
      <==> |Body(es)| + 2 + |Contract(h, marker)| + 1 + 80 > maximum
  {
    hide Written, Contract, Body, Length, Entries, HealthText;
    var es, budget := Entries(s, h), EntryBudget(maximum, Contract(h, marker));
    ContractLength(h, marker);
    ShortHealth(h);
    BodyLength(es);
    AllWrittenIff(es, budget);
    WrittenIsNoLonger(es, budget);
    if |Written(es, budget)| == |es| { AllWritten(es, budget); }
  }

  lemma {:induction false} AllWrittenIff(es: seq<Entry>, maximum: nat)
    ensures Written(es, maximum) == es <==> Length(es) <= maximum
    decreases |es|
  {
    if es != [] {
      var init, last := es[..|es| - 1], es[|es| - 1];
      AllWrittenIff(init, maximum);
      WrittenIsNoLonger(init, maximum);
      assert es == init + [last];
    }
  }

  lemma AllOfIt(s: Selection, maximum: nat, h: Health, marker: string)
    requires 512 <= maximum <= 8000 && |marker| <= 128
    requires |Written(Entries(s, h), EntryBudget(maximum, Contract(h, marker)))| == |Entries(s, h)|
    ensures Whole(s, maximum, h, marker) == Body(Entries(s, h)) + "\n\n" + Contract(h, marker)
    ensures |Whole(s, maximum, h, marker)| <= maximum
    ensures Written(Entries(s, h), EntryBudget(maximum, Contract(h, marker))) == Entries(s, h)
    ensures Ids(Entries(s, h)) == seq(|s.beliefs|, i requires 0 <= i < |s.beliefs| => s.beliefs[i].id)
  {
    hide Written, Contract, Body, Length, RetractionEntries, ConflictEntries, BeliefEntries, Headline, Ids;
    ContextFits(s, maximum, h, marker);
    AllWritten(Entries(s, h), EntryBudget(maximum, Contract(h, marker)));
    SomethingToSay(s, h);
    IdsOfAll(s, h);
  }

  lemma SomethingToSay(s: Selection, h: Health)
    ensures Body(Entries(s, h)) != ""
  {
    BodyLength(Entries(s, h));
    LengthHolds(Entries(s, h), |RetractionEntries(s.retractions) + ConflictEntries(s.conflicts)|);
  }

  lemma {:induction false} LengthHolds(es: seq<Entry>, i: nat)
    requires i < |es|
    ensures Length(es) >= |es[i].text|
    decreases |es|
  {
    if i < |es| - 1 { LengthHolds(es[..|es| - 1], i); }
  }

  lemma {:induction false} IdsConcat(a: seq<Entry>, b: seq<Entry>)
    ensures Ids(a + b) == Ids(a) + Ids(b)
    decreases |b|
  {
    if b == [] {
      assert a + b == a;
    } else {
      assert (a + b)[..|a + b| - 1] == a + b[..|b| - 1];
      IdsConcat(a, b[..|b| - 1]);
    }
  }

  lemma {:induction false} NoIdsIn(es: seq<Entry>)
    requires forall e <- es :: e.belief == []
    ensures Ids(es) == []
    decreases |es|
  {
    if es != [] { NoIdsIn(es[..|es| - 1]); }
  }

  lemma {:induction false} BeliefIds(bs: seq<Belief>)
    ensures Ids(BeliefEntries(bs)) == seq(|bs|, i requires 0 <= i < |bs| => bs[i].id)
    decreases |bs|
  {
    if bs != [] {
      BeliefIds(bs[..|bs| - 1]);
      assert BeliefEntries(bs)[..|bs| - 1] == BeliefEntries(bs[..|bs| - 1]);
    }
  }

  lemma IdsOfAll(s: Selection, h: Health)
    ensures Ids(Entries(s, h)) == seq(|s.beliefs|, i requires 0 <= i < |s.beliefs| => s.beliefs[i].id)
  {
    hide Ids, Headline, RetractionLine, ConflictLine;
    var plain := RetractionEntries(s.retractions) + ConflictEntries(s.conflicts) + [Entry(Headline(s, h), [])];
    NoIdsIn(plain);
    BeliefIds(s.beliefs);
    IdsConcat(plain, BeliefEntries(s.beliefs));
  }

  // What the lines look like.
  lemma RetractionReads(n: Notice, a: string, b: string)
    ensures n.descendants == [] ==>
      RetractionLine(n) == n.belief + " DEFEATED (" + n.cause + "); descendants retracted: none."
    ensures n.descendants == [a, b] ==>
      RetractionLine(n) == n.belief + " DEFEATED (" + n.cause + "); descendants retracted: " + a + "," + b + "."
  {
    var start := n.belief + " DEFEATED (" + n.cause;
    if n.descendants == [] {
      assert start + "); descendants retracted: " + "none" + "." == start + "); descendants retracted: none.";
    }
    if n.descendants == [a, b] {
      assert n.descendants[1..] == [b];
      assert Joined(n.descendants, ",") == a + "," + b != "";
      assert start + "); descendants retracted: " + (a + "," + b) == start + "); descendants retracted: " + a + "," + b;
    }
  }

  lemma ConflictReads(c: Conflict)
    requires c == Conflict("b_1", "b_2", "t_1")
    ensures ConflictLine(c) == "b_1 <-> b_2 \U{2014} verification t_1 open; assume neither."
  {
    assert c.left + " <-> " + c.right == "b_1 <-> b_2";
    assert c.left + " <-> " + c.right + " \U{2014} verification " + c.task == "b_1 <-> b_2 \U{2014} verification t_1";
  }

  lemma HeadlineReads(s: Selection, h: Health)
    ensures s.retractions == [] && s.conflicts == [] ==>
      Headline(s, h) == "### LEDGER \U{2014} active relevant beliefs [" + HealthText(h) + "]"
    ensures s.retractions != [] || s.conflicts != [] ==>
      Headline(s, h) == "\n" + ("### LEDGER \U{2014} active relevant beliefs [" + HealthText(h) + "]")
  {
    hide HealthText;
  }

  lemma HealthReads(h: Health)
    ensures HealthText(h) == match h case Healthy => "healthy" case Degraded => "degraded" case Unavailable => "unavailable"
  {
  }

  // Retractions under their heading, conflicts under theirs, the headline, the beliefs.
  lemma EntriesInOrder(s: Selection, h: Health)
    ensures var es, r, c, b := Entries(s, h), |s.retractions|, |s.conflicts|, |s.beliefs|;
      var cs := if r == 0 then 0 else 1 + r;
      var head := cs + if c == 0 then 0 else 1 + c;
      && |es| == head + 1 + b
      && (r > 0 ==> es[0] == Entry("### RETRACTIONS", []))
      && (forall i | 0 <= i < r :: es[1 + i] == Entry(RetractionLine(s.retractions[i]), []))
      && (c > 0 ==> es[cs] == Entry("\n### OPEN CONFLICTS (samsaya)", []))
      && (forall i | 0 <= i < c :: es[cs + 1 + i] == Entry(ConflictLine(s.conflicts[i]), []))
      && es[head] == Entry(Headline(s, h), [])
      && forall i | 0 <= i < b :: es[head + 1 + i] == Entry(s.beliefs[i].line, [s.beliefs[i].id])
  {
    hide RetractionLine, ConflictLine, Headline;
  }
}
