/**
 The response gate: a high-stakes answer is buffered whole, and what reaches the sink is either
 all of it or a fixed report.
 */
module ResponseGate {
  import opened Wrappers
  import opened Utf8

  datatype Reason =
    | MultipleFinal | InvalidChunkOrder | BufferOverflow | Cancelled
    | InvalidUtf8 | LintBlocked | LinterError | SinkPrepareFailed | SinkDeliveryFailed

  // `reason` None is "ACCEPTED".
  datatype BufferResult = BufferResult(accepted: bool, reason: Option<Reason>, deliveredBytes: nat)

  // A Python string is a sequence of code points, and may hold surrogates on their own.
  type CodePoint = c: int | 0 <= c < 0x110000

  datatype Chunk = TextChunk(text: seq<CodePoint>) | BytesChunk(bytes: seq<Byte>)

  // chunk.encode("utf-8") succeeds; otherwise it raises UnicodeEncodeError.
  predicate Encodable(chunk: Chunk) {
    chunk.TextChunk? ==> forall c <- chunk.text :: Scalar(c)
  }

  function Payload(chunk: Chunk): seq<Byte>
    requires Encodable(chunk)
  {
    match chunk
    case TextChunk(text) => Encode(text)
    case BytesChunk(bytes) => bytes
  }

  datatype Lint = Passes | Fails | Raises

  // Whether the first prepare, the second prepare and the delivery go through.
  datatype Sink = Sink(prepares: bool, preparesAgain: bool, delivers: bool)

  class Gate {
    const maxBytes: int
    const blockReport: seq<Byte>
    var buffer: seq<Byte>
    var nextIndex: nat
    var failed: Option<Reason>
    var finalized: bool
    // The payloads handed to sink.deliver.
    var deliveries: seq<seq<Byte>>

    // None is the ValueError of a bound that is not positive or a report over 4096 bytes.
    static method Open(maxBytes: int, blockReport: seq<Byte>) returns (gate: Option<Gate>)
      ensures gate.Some? <==> maxBytes > 0 && |blockReport| <= 4096
      ensures gate.Some? ==> fresh(gate.value) && gate.value.State() == Start(maxBytes, blockReport)
    {
      if maxBytes <= 0 || |blockReport| > 4096 {
        return None;
      }
      var g := new Gate(maxBytes, blockReport);
      gate := Some(g);
    }

    constructor (maxBytes: int, blockReport: seq<Byte>)
      ensures State() == Start(maxBytes, blockReport)
    {
      this.maxBytes, this.blockReport := maxBytes, blockReport;
      buffer, nextIndex, failed, finalized, deliveries := [], 0, None, false, [];
    }

    ghost function State(): GateState
      reads this
    {
      GateState(maxBytes, blockReport, buffer, nextIndex, failed, finalized, deliveries)
    }

    // `raised` is the UnicodeEncodeError that leaves the method after the index has advanced.
    method Append(index: int, chunk: Chunk) returns (raised: bool)
      modifies this
      ensures State() == Appended(old(State()), index, chunk)
      ensures raised <==> !old(finalized) && index == old(nextIndex) && !Encodable(chunk)
    {
      raised := false;
      if finalized {
        failed := Some(failed.GetOr(MultipleFinal));
        return;
      }
      if index != nextIndex {
        failed := Some(failed.GetOr(InvalidChunkOrder));
        return;
      }
      nextIndex := nextIndex + 1;
      if !Encodable(chunk) {
        return true;
      }
      var payload := Payload(chunk);
      if |buffer| + |payload| > maxBytes {
        failed := Some(failed.GetOr(BufferOverflow));
        return;
      }
      buffer := buffer + payload;
    }

    method Cancel()
      modifies this
      ensures State() == old(State()).(failed := Some(old(failed).GetOr(Cancelled)))
    {
      failed := Some(failed.GetOr(Cancelled));
    }

    method Finalize(lint: seq<int> -> Lint, sink: Sink) returns (result: BufferResult)
      modifies this
      ensures (State(), result) == Finalized(old(State()), lint, sink)
    {
      if finalized {
        return BufferResult(false, Some(MultipleFinal), 0);
      }
      finalized := true;
      var reason := failed;
      var text: seq<int> := [];
      if reason == None {
        var decoded := Decode(buffer);
        if decoded.Some? {
          text := decoded.value;
        } else {
          reason := Some(InvalidUtf8);
        }
      }
      if reason == None {
        var verdict := lint(text);
        if verdict == Raises {
          reason := Some(LinterError);
        } else if verdict == Fails {
          reason := Some(LintBlocked);
        }
      }
      var payload := if reason.Some? then blockReport else buffer;
      var accepted := reason == None;
      if !sink.prepares {
        if !accepted {
          return BufferResult(false, Some(SinkPrepareFailed), 0);
        }
        reason := Some(SinkPrepareFailed);
        accepted := false;
        payload := blockReport;
        if !sink.preparesAgain {
          return BufferResult(false, reason, 0);
        }
      }
      deliveries := deliveries + [payload];
      if !sink.delivers {
        return BufferResult(false, Some(SinkDeliveryFailed), 0);
      }
      result := BufferResult(accepted, reason, |payload|);
    }
  }

  datatype GateState = GateState(
    maxBytes: int, blockReport: seq<Byte>, buffer: seq<Byte>, nextIndex: nat, failed: Option<Reason>, finalized: bool,
    deliveries: seq<seq<Byte>>)

  function Start(maxBytes: int, blockReport: seq<Byte>): GateState {
    GateState(maxBytes, blockReport, [], 0, None, false, [])
  }

  function Appended(s: GateState, index: int, chunk: Chunk): GateState {
    if s.finalized then s.(failed := Some(s.failed.GetOr(MultipleFinal)))
    else if index != s.nextIndex then s.(failed := Some(s.failed.GetOr(InvalidChunkOrder)))
    else if !Encodable(chunk) then s.(nextIndex := s.nextIndex + 1)
    else if |s.buffer| + |Payload(chunk)| > s.maxBytes
    then s.(nextIndex := s.nextIndex + 1, failed := Some(s.failed.GetOr(BufferOverflow)))
    else s.(nextIndex := s.nextIndex + 1, buffer := s.buffer + Payload(chunk))
  }

  // Why the answer may not go out, before the sink is asked.
  function Verdict(s: GateState, lint: seq<int> -> Lint): Option<Reason> {
    if s.failed.Some? then s.failed
    else match Decode(s.buffer)
         case None => Some(InvalidUtf8)
         case Some(text) =>
           match lint(text)
           case Passes => None
           case Fails => Some(LintBlocked)
           case Raises => Some(LinterError)
  }

  function Finalized(s: GateState, lint: seq<int> -> Lint, sink: Sink): (GateState, BufferResult) {
    if s.finalized then (s, BufferResult(false, Some(MultipleFinal), 0))
    else
      var reason := Verdict(s, lint);
      var done := s.(finalized := true);
      if !sink.prepares && (reason.Some? || !sink.preparesAgain)
      then (done, BufferResult(false, Some(SinkPrepareFailed), 0))
      else
        var why := if sink.prepares then reason else Some(SinkPrepareFailed);
        var payload := if why.Some? then s.blockReport else s.buffer;
        (done.(deliveries := s.deliveries + [payload]),
         if sink.delivers then BufferResult(why == None, why, |payload|)
         else BufferResult(false, Some(SinkDeliveryFailed), 0))
  }

  /******* Every sequence of calls *******/

  datatype Call = DoAppend(index: int, chunk: Chunk) | DoCancel | DoFinalize(lint: seq<int> -> Lint, sink: Sink)

  function Do(s: GateState, call: Call): GateState {
    match call
    case DoAppend(index, chunk) => Appended(s, index, chunk)
    case DoCancel => s.(failed := Some(s.failed.GetOr(Cancelled)))
    case DoFinalize(lint, sink) => Finalized(s, lint, sink).0
  }

  function DoAll(s: GateState, calls: seq<Call>): GateState {
    if calls == [] then s else Do(DoAll(s, calls[..|calls| - 1]), calls[|calls| - 1])
  }

  // The chunks that can be encoded, one after another.
  function Text(calls: seq<Call>): seq<Byte> {
    if calls == [] then []
    else
      var last := calls[|calls| - 1];
      Text(calls[..|calls| - 1]) + if last.DoAppend? && Encodable(last.chunk) then Payload(last.chunk) else []
  }

  // Every chunk can be encoded: what the caller can see before the first append.
  predicate AllEncodable(calls: seq<Call>) {
    forall i | 0 <= i < |calls| :: calls[i].DoAppend? ==> Encodable(calls[i].chunk)
  }

  // Chunks 0, 1, 2, ... in that order, nothing else, and no more than fits.
  predicate Clean(calls: seq<Call>, maxBytes: int) {
    && (forall i | 0 <= i < |calls| :: calls[i].DoAppend? && calls[i].index == i)
    && |Text(calls)| <= maxBytes
  }

  predicate NotFinal(calls: seq<Call>) {
    forall i | 0 <= i < |calls| :: !calls[i].DoFinalize?
  }

  lemma {:induction false} BufferIsText(maxBytes: int, report: seq<Byte>, calls: seq<Call>)
    requires maxBytes > 0 && NotFinal(calls)
    ensures var s := DoAll(Start(maxBytes, report), calls);
      && (s.failed == None <==> Clean(calls, maxBytes))
      && (Clean(calls, maxBytes) ==> s.buffer == Text(calls) && s.nextIndex == |calls|)
      && s.deliveries == [] && !s.finalized && s.maxBytes == maxBytes && s.blockReport == report
    decreases |calls|
  {
    hide Payload, Encodable;
    if calls != [] {
      var init := calls[..|calls| - 1];
      BufferIsText(maxBytes, report, init);
      assert forall i | 0 <= i < |init| :: init[i] == calls[i];
    }
  }

  // Without a finalize the sink gets nothing.
  lemma NothingBeforeFinal(maxBytes: int, report: seq<Byte>, calls: seq<Call>)
    requires maxBytes > 0 && NotFinal(calls)
    ensures DoAll(Start(maxBytes, report), calls).deliveries == []
  {
    BufferIsText(maxBytes, report, calls);
  }

  // Once finalized, nothing goes out any more.
  lemma {:induction false} NothingAfterFinal(s: GateState, calls: seq<Call>)
    requires s.finalized
    ensures var t := DoAll(s, calls); t.finalized && t.deliveries == s.deliveries
    decreases |calls|
  {
    if calls != [] {
      NothingAfterFinal(s, calls[..|calls| - 1]);
    }
  }

  lemma {:induction false} DoAllConcat(s: GateState, a: seq<Call>, b: seq<Call>)
    ensures DoAll(s, a + b) == DoAll(DoAll(s, a), b)
    decreases |b|
  {
    if b == [] {
      assert a + b == a;
    } else {
      assert (a + b)[..|a + b| - 1] == a + b[..|b| - 1];
      DoAllConcat(s, a, b[..|b| - 1]);
    }
  }

  // How many chunks came in turn.
  function Turn(calls: seq<Call>): nat {
    if calls == [] then 0
    else
      var before, last := Turn(calls[..|calls| - 1]), calls[|calls| - 1];
      before + if last.DoAppend? && last.index == before then 1 else 0
  }

  lemma {:induction false} IndexCountsTurns(maxBytes: int, report: seq<Byte>, calls: seq<Call>)
    requires maxBytes > 0 && NotFinal(calls)
    ensures DoAll(Start(maxBytes, report), calls).nextIndex == Turn(calls)
    decreases |calls|
  {
    hide Payload, Encodable;
    if calls != [] {
      var init := calls[..|calls| - 1];
      BufferIsText(maxBytes, report, init);
      IndexCountsTurns(maxBytes, report, init);
    }
  }

  // The first thing that goes wrong gives the reason, and nothing that follows changes it.
  lemma FirstReasonStays(maxBytes: int, report: seq<Byte>, before: seq<Call>, bad: Call, after: seq<Call>)
    requires maxBytes > 0 && NotFinal(before + [bad])
    requires Clean(before, maxBytes) && !Clean(before + [bad], maxBytes)
    ensures DoAll(Start(maxBytes, report), before + [bad] + after).failed
         == Some(if bad.DoCancel? then Cancelled
                 else if bad.index != |before| then InvalidChunkOrder
                 else BufferOverflow)
  {
    hide Payload, Encodable;
    var start := Start(maxBytes, report);
    assert (before + [bad])[..|before|] == before && (before + [bad])[|before|] == bad;
    assert forall i | 0 <= i < |before| :: (before + [bad])[i] == before[i];
    BufferIsText(maxBytes, report, before);
    DoAllConcat(start, before + [bad], after);
    ReasonStays(DoAll(start, before + [bad]), after);
  }

  lemma {:induction false} ReasonStays(s: GateState, calls: seq<Call>)
    requires s.failed.Some?
    ensures DoAll(s, calls).failed == s.failed
    decreases |calls|
  {
    hide Payload, Encodable, Decode;
    if calls != [] {
      ReasonStays(s, calls[..|calls| - 1]);
    }
  }

  // The result of the first finalize, in every case: why, and how many bytes went out.
  lemma FinalizeResult(maxBytes: int, report: seq<Byte>, before: seq<Call>, lint: seq<int> -> Lint, sink: Sink)
    requires maxBytes > 0 && NotFinal(before)
    ensures var s, fit := DoAll(Start(maxBytes, report), before), Fit(before, maxBytes, lint);
      var why := if !Clean(before, maxBytes) then s.failed
                 else if Decode(Text(before)).None? then Some(InvalidUtf8)
                 else if lint(Decode(Text(before)).value) == Raises then Some(LinterError)
                 else if lint(Decode(Text(before)).value) == Fails then Some(LintBlocked)
                 else None;
      var r := Finalized(s, lint, sink).1;
      && (fit <==> why == None)
      && (fit && sink == Sink(true, sink.preparesAgain, true) ==> r == BufferResult(true, None, |Text(before)|))
      && (!fit && sink == Sink(true, sink.preparesAgain, true) ==> r == BufferResult(false, why, |report|))
      && (fit && sink == Sink(false, true, true) ==> r == BufferResult(false, Some(SinkPrepareFailed), |report|))
      && (!sink.prepares && (!fit || !sink.preparesAgain) ==> r == BufferResult(false, Some(SinkPrepareFailed), 0))
      && ((sink.prepares || (fit && sink.preparesAgain)) && !sink.delivers ==>
            r == BufferResult(false, Some(SinkDeliveryFailed), 0))
  {
    hide Clean, Decode, DoAll;
    BufferIsText(maxBytes, report, before);
  }

  // After a finalize, every call is told that there was one already.
  lemma {:induction false} LateCalls(s: GateState, calls: seq<Call>)
    requires s.finalized
    ensures forall lint, sink :: Finalized(DoAll(s, calls), lint, sink).1 == BufferResult(false, Some(MultipleFinal), 0)
    ensures s.failed == None && calls != [] && calls[0].DoAppend? ==> DoAll(s, calls).failed == Some(MultipleFinal)
    decreases |calls|
  {
    NothingAfterFinal(s, calls);
    if calls != [] && calls[0].DoAppend? && s.failed == None {
      assert calls == [calls[0]] + calls[1..] && [calls[0]][..0] == [];
      DoAllConcat(s, [calls[0]], calls[1..]);
      ReasonStays(DoAll(s, [calls[0]]), calls[1..]);
    }
  }

  // What is buffered is fit to go out.
  predicate Fit(calls: seq<Call>, maxBytes: int, lint: seq<int> -> Lint) {
    Clean(calls, maxBytes) && Decode(Text(calls)).Some? && lint(Decode(Text(calls)).value) == Passes
  }

  // The answer the caller meant: every chunk in order. There is none if a chunk has no encoding.
  function Whole(calls: seq<Call>): Option<seq<Byte>> {
    if calls == [] then Some([])
    else
      var last := calls[|calls| - 1];
      match Whole(calls[..|calls| - 1])
      case None => None
      case Some(bytes) =>
        if !last.DoAppend? then Some(bytes)
        else if Encodable(last.chunk) then Some(bytes + Payload(last.chunk)) else None
  }

  lemma {:induction false} WholeIffEncodable(calls: seq<Call>)
    ensures Whole(calls) == if AllEncodable(calls) then Some(Text(calls)) else None
    decreases |calls|
  {
    hide Payload, Encodable;
    if calls != [] {
      var init := calls[..|calls| - 1];
      WholeIffEncodable(init);
      assert forall i | 0 <= i < |init| :: init[i] == calls[i];
      assert Text(init) + [] == Text(init);
    }
  }

  // For every sequence of calls, raising appends included: the sink gets at most one payload, at
  // the first finalize; that payload is the encodable chunks in order if they are fit and the
  // sink was ready for them, and the block report otherwise; `accepted` is said exactly when the
  // chunks were delivered. They are the whole answer exactly when every chunk can be encoded.
  lemma AllOrReport(maxBytes: int, report: seq<Byte>, before: seq<Call>, lint: seq<int> -> Lint, sink: Sink, after: seq<Call>)
    requires maxBytes > 0 && NotFinal(before)
    ensures var fit := Fit(before, maxBytes, lint);
      && DoAll(Start(maxBytes, report), before + [DoFinalize(lint, sink)] + after).deliveries
         == (if fit && sink.prepares then [Text(before)]
             else if sink.prepares || (fit && sink.preparesAgain) then [report] else [])
      && (Finalized(DoAll(Start(maxBytes, report), before), lint, sink).1.accepted <==> fit && sink.prepares && sink.delivers)
    ensures AllEncodable(before) <==> Whole(before) == Some(Text(before))
  {
    WholeIffEncodable(before);
    var s, last := DoAll(Start(maxBytes, report), before), DoFinalize(lint, sink);
    BufferIsText(maxBytes, report, before);
    assert (before + [last])[..|before|] == before;
    NothingAfterFinal(DoAll(Start(maxBytes, report), before + [last]), after);
    DoAllConcat(Start(maxBytes, report), before + [last], after);
  }

  // All or nothing: an accepted answer is the exact concatenation of every chunk if and only if
  // every chunk could be encoded.
  lemma AcceptedIsWhole(maxBytes: int, report: seq<Byte>, before: seq<Call>, lint: seq<int> -> Lint, sink: Sink, after: seq<Call>)
    requires maxBytes > 0 && NotFinal(before)
    requires Finalized(DoAll(Start(maxBytes, report), before), lint, sink).1.accepted
    ensures DoAll(Start(maxBytes, report), before + [DoFinalize(lint, sink)] + after).deliveries == [Text(before)]
    ensures Whole(before) == Some(Text(before)) <==> AllEncodable(before)
  {
    AllOrReport(maxBytes, report, before, lint, sink, after);
  }

  function LoneSurrogate(): seq<Call> {
    [DoAppend(0, TextChunk([0xD800])), DoAppend(1, BytesChunk([0x6F, 0x6B]))]
  }

  function AlwaysPasses(): seq<int> -> Lint {
    (text: seq<int>) => Passes
  }

  // The input at which it fails: the append of a lone surrogate raises, the next chunk is taken
  // in order, and the answer is accepted and delivered without the first.
  lemma LostChunkIsAccepted(report: seq<Byte>)
    ensures var s, sink := Start(100, report), Sink(true, true, true);
      && !Encodable(LoneSurrogate()[0].chunk) && Whole(LoneSurrogate()) == None
      && Finalized(DoAll(s, LoneSurrogate()), AlwaysPasses(), sink).1.accepted
      && DoAll(s, LoneSurrogate() + [DoFinalize(AlwaysPasses(), sink)]).deliveries == [[0x6F, 0x6B]]
  {
    hide LoneSurrogate, Text, Clean, Decode, Finalized, DoAll, Whole;
    var calls, sink := LoneSurrogate(), Sink(true, true, true);
    LostText();
    AllOrReport(100, report, calls, AlwaysPasses(), sink, []);
    WholeIffEncodable(calls);
    assert calls + [DoFinalize(AlwaysPasses(), sink)] + [] == calls + [DoFinalize(AlwaysPasses(), sink)];
  }

  lemma LostText()
    ensures var calls := LoneSurrogate();
      && NotFinal(calls) && !Encodable(calls[0].chunk) && !AllEncodable(calls)
      && Text(calls) == [0x6F, 0x6B] && Clean(calls, 100) && Decode(Text(calls)).Some?
  {
    hide Decode, Clean, Text, Encode, Payload;
    LostShape();
    LostPieces();
    OkIsText();
    LostIsClean();
    DecodeEncode([0x6F, 0x6B]);
  }

  lemma LostShape()
    ensures var calls := LoneSurrogate(); NotFinal(calls) && !Encodable(calls[0].chunk) && !AllEncodable(calls)
  {
    assert !Scalar(LoneSurrogate()[0].chunk.text[0]);
  }

  lemma LostPieces()
    ensures Text(LoneSurrogate()) == [0x6F, 0x6B]
  {
    var calls := LoneSurrogate();
    assert calls[..1] == [calls[0]] && [calls[0]][..0] == [];
    assert !Scalar(calls[0].chunk.text[0]);
    assert Text([calls[0]]) == [];
  }

  lemma LostIsClean()
    ensures Clean(LoneSurrogate(), 100)
  {
    hide Text;
    LostPieces();
  }

  lemma OkIsText()
    ensures Encode([0x6F, 0x6B]) == [0x6F, 0x6B]
  {
    assert Encode([0x6B]) == [0x6B];
  }

  // Chunks that are texts themselves never make the whole undecodable.
  lemma {:induction false} TextChunksDecode(calls: seq<Call>)
    requires forall i | 0 <= i < |calls| && calls[i].DoAppend? :: calls[i].chunk.TextChunk?
    ensures Decode(Text(calls)).Some?
    decreases |calls|
  {
    if calls != [] {
      var init, last := calls[..|calls| - 1], calls[|calls| - 1];
      assert forall i | 0 <= i < |init| :: init[i] == calls[i];
      TextChunksDecode(init);
      if last.DoAppend? && Encodable(last.chunk) {
        DecodeEncode(last.chunk.text);
        DecodeConcat(Text(init), Payload(last.chunk));
      } else {
        assert Text(calls) == Text(init);
      }
    }
  }
}
