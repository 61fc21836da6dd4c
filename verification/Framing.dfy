/**
 JSONL framing: `_bounded_lines` reads a stream in pieces of bounded size and hands out one item
 per line, discarding what does not fit. The units are bytes for a binary stream and characters
 for a text stream; the code is the same.
 */
module Framing {

  // What a stream's readline(n) returns: at most n units, ending early only after a newline.
  function Piece<T(==)>(s: seq<T>, n: nat, newline: T): (r: seq<T>)
    ensures r <= s && |r| <= n
  {
    if s == [] || n == 0 then []
    else if s[0] == newline then [s[0]]
    else [s[0]] + Piece(s[1..], n - 1, newline)
  }

  class Source<T(==)> {
    const data: seq<T>
    var position: nat

    constructor (data: seq<T>)
      ensures this.data == data && position == 0
    {
      this.data, position := data, 0;
    }

    ghost predicate Valid()
      reads this
    {
      position <= |data|
    }

    function Rest(): seq<T>
      reads this
      requires Valid()
    {
      data[position..]
    }

    method ReadLine(n: nat, newline: T) returns (r: seq<T>)
      requires Valid()
      modifies this`position
      ensures Valid() && r == Piece(old(Rest()), n, newline) && old(Rest()) == r + Rest()
    {
      r := Piece(Rest(), n, newline);
      position := position + |r|;
    }
  }

  /******* What the lines of a stream are *******/

  // The first line with its terminator; the last line may have none.
  function FirstLine<T(==)>(s: seq<T>, newline: T): (r: seq<T>)
    ensures r <= s && (s != [] ==> r != [])
  {
    if s == [] then [] else if s[0] == newline then [newline] else [s[0]] + FirstLine(s[1..], newline)
  }

  function Lines<T(==)>(s: seq<T>, newline: T): seq<seq<T>>
    decreases |s|
  {
    if s == [] then []
    else
      var line := FirstLine(s, newline);
      [line] + Lines(s[|line|..], newline)
  }

  function Flatten<T>(lines: seq<seq<T>>): seq<T> {
    if lines == [] then [] else lines[0] + Flatten(lines[1..])
  }

  predicate IsLine<T(==)>(line: seq<T>, newline: T, last: bool) {
    && line != []
    && (forall i | 0 <= i < |line| - 1 :: line[i] != newline)
    && (line[|line| - 1] == newline || last)
  }

  lemma {:induction false} FirstLineIsLine<T>(s: seq<T>, newline: T)
    requires s != []
    ensures IsLine(FirstLine(s, newline), newline, |FirstLine(s, newline)| == |s|)
    decreases |s|
  {
    if s[0] != newline && |s| > 1 {
      FirstLineIsLine(s[1..], newline);
      var rest := FirstLine(s[1..], newline);
      assert FirstLine(s, newline) == [s[0]] + rest;
    }
  }

  // The lines cut the stream up: nothing is lost, each is a line, and only the last may lack its
  // terminator.
  lemma {:induction false} LinesCutTheStream<T>(s: seq<T>, newline: T)
    ensures Flatten(Lines(s, newline)) == s
    ensures forall i | 0 <= i < |Lines(s, newline)| :: IsLine(Lines(s, newline)[i], newline, i == |Lines(s, newline)| - 1)
    decreases |s|
  {
    hide IsLine;
    if s != [] {
      var line := FirstLine(s, newline);
      FirstLineIsLine(s, newline);
      LinesCutTheStream(s[|line|..], newline);
      var lines, more := Lines(s, newline), Lines(s[|line|..], newline);
      assert lines[1..] == more && s == line + s[|line|..];
      forall i | 0 <= i < |lines| ensures IsLine(lines[i], newline, i == |lines| - 1) {
        if i > 0 {
          assert lines[i] == more[i - 1];
        } else if |more| > 0 {
          assert s[|line|..] != [];
        } else {
          LastLine(s[|line|..], newline);
        }
      }
    }
  }

  lemma LastLine<T>(s: seq<T>, newline: T)
    requires Lines(s, newline) == []
    ensures s == []
  {
  }

  /******* _bounded_lines *******/

  datatype Item<T> = Item(kept: seq<T>, oversized: bool)

  // The total size of the pieces of a line that fit, when every piece but its last is full.
  function WholePieces(limit: nat, piece: nat): (r: nat)
    requires piece > 0
    ensures r <= limit < r + piece
  {
    if limit < piece then 0 else piece + WholePieces(limit - piece, piece)
  }

  // A line that fits comes verbatim; of an oversized one only whole pieces within the limit.
  function ItemOf<T>(line: seq<T>, limit: nat, piece: nat): (r: Item<T>)
    requires piece > 0
    ensures |r.kept| <= limit && r.kept <= line
    ensures r.oversized <==> |line| > limit
    ensures !r.oversized ==> r.kept == line
  {
    if |line| <= limit then Item(line, false) else Item(line[..WholePieces(limit, piece)], true)
  }

  lemma {:induction false} PieceOfLine<T>(s: seq<T>, n: nat, newline: T)
    ensures Piece(s, n, newline) == FirstLine(s, newline)[..if |FirstLine(s, newline)| < n then |FirstLine(s, newline)| else n]
    decreases |s|
  {
    if s != [] && n > 0 && s[0] != newline {
      PieceOfLine(s[1..], n - 1, newline);
    }
  }

  // Reading on inside a line: a piece without a newline leaves the rest of the same line.
  lemma {:induction false} RestOfLine<T>(s: seq<T>, k: nat, newline: T)
    requires k < |FirstLine(s, newline)|
    ensures FirstLine(s[k..], newline) == FirstLine(s, newline)[k..]
    decreases k
  {
    if k == 0 {
      assert s[0..] == s;
    } else {
      RestOfLine(s[1..], k - 1, newline);
      assert s[1..][k - 1..] == s[k..];
      assert FirstLine(s, newline)[1..] == FirstLine(s[1..], newline);
    }
  }

  // Sizes reachable by full pieces alone.
  predicate Whole(size: nat, piece: nat)
    requires piece > 0
  {
    size == 0 || (size >= piece && Whole(size - piece, piece))
  }

  lemma {:induction false} WholeIsUnique(size: nat, limit: nat, piece: nat)
    requires piece > 0 && Whole(size, piece) && size <= limit < size + piece
    ensures size == WholePieces(limit, piece)
    decreases size
  {
    if size > 0 { WholeIsUnique(size - piece, limit - piece, piece); }
  }

  // One piece read somewhere inside a line: it is the next stretch of that line.
  lemma NextPiece<T>(s: seq<T>, total: nat, piece: nat, newline: T)
    requires piece > 0 && total < |FirstLine(s, newline)|
    ensures var line, chunk := FirstLine(s, newline), Piece(s[total..], piece, newline);
      && chunk != [] && total + |chunk| <= |line| && chunk == line[total..total + |chunk|]
      && (|chunk| < piece ==> total + |chunk| == |line|)
      && (chunk[|chunk| - 1] == newline ==> total + |chunk| == |line|)
      && (total + |chunk| == |line| && chunk[|chunk| - 1] != newline ==> |line| == |s|)
  {
    hide FirstLine, Piece;
    PieceOfLine(s[total..], piece, newline);
    RestOfLine(s, total, newline);
    FirstLineIsLine(s, newline);
  }

  // What has been kept of a line after `total` units of it.
  predicate Keeping<T(==)>(kept: seq<T>, line: seq<T>, total: nat, limit: nat, piece: nat)
    requires piece > 0 && total <= |line|
  {
    kept == if total <= limit then line[..total] else line[..WholePieces(limit, piece)]
  }

  lemma KeepsNext<T>(kept: seq<T>, line: seq<T>, total: nat, chunk: seq<T>, limit: nat, piece: nat)
    requires piece > 0 && total + |chunk| <= |line| && chunk == line[total..total + |chunk|] && |chunk| <= piece
    requires Keeping(kept, line, total, limit, piece) && Whole(total, piece)
    ensures Keeping(if total + |chunk| <= limit then kept + chunk else kept, line, total + |chunk|, limit, piece)
  {
    if total <= limit < total + |chunk| { WholeIsUnique(total, limit, piece); }
    if total + |chunk| <= limit { assert line[..total] + chunk == line[..total + |chunk|]; }
  }

  // The state of the inner loop: `total` units of the line read, and whether to read on.
  ghost predicate Reading<T>(s: seq<T>, kept: seq<T>, total: nat, more: bool, limit: nat, piece: nat, newline: T)
    requires piece > 0
  {
    var line := FirstLine(s, newline);
    && total <= |line| && Keeping(kept, line, total, limit, piece)
    && (if more then total == |line| == |s| || (total < |line| && Whole(total, piece)) else total == |line|)
  }

  lemma ReadingStarts<T>(s: seq<T>, limit: nat, piece: nat, newline: T)
    requires piece > 0
    ensures Reading(s, [], 0, true, limit, piece, newline)
  {
    hide FirstLine, Keeping, Whole;
    KeptNothing(FirstLine(s, newline), limit, piece);
    EmptyLine(s, newline);
  }

  lemma ReadingStep<T>(s: seq<T>, kept: seq<T>, total: nat, chunk: seq<T>, limit: nat, piece: nat, newline: T)
    requires piece > 0 && Reading(s, kept, total, true, limit, piece, newline)
    requires total <= |s| && chunk == Piece(s[total..], piece, newline)
    ensures chunk == [] ==> total == |s| && Reading(s, kept, total, false, limit, piece, newline)
    ensures chunk != [] ==>
      && total + |chunk| <= |s| && s[total..][|chunk|..] == s[total + |chunk|..]
      && Reading(s, if total + |chunk| <= limit then kept + chunk else kept, total + |chunk|,
                 chunk[|chunk| - 1] != newline, limit, piece, newline)
  {
    hide FirstLine, Piece, Keeping, Whole;
    var line := FirstLine(s, newline);
    if total == |line| {
      NoPiece(s, total, piece, newline);
    } else {
      NextPiece(s, total, piece, newline);
      KeepsNext(kept, line, total, chunk, limit, piece);
      WholeStep(total, piece);
    }
  }

  lemma ReadingEnds<T>(s: seq<T>, kept: seq<T>, total: nat, limit: nat, piece: nat, newline: T)
    requires piece > 0 && Reading(s, kept, total, false, limit, piece, newline)
    ensures total == |FirstLine(s, newline)| && (total == 0 <==> s == [])
    ensures Item(kept, total > limit) == ItemOf(FirstLine(s, newline), limit, piece)
  {
    hide FirstLine, Keeping, ItemOf;
    KeptLine(kept, FirstLine(s, newline), limit, piece);
    EmptyLine(s, newline);
  }

  // The inner loop: one line is read whole, and at most `limit` units of it are held.
  method BoundedLine<T(==)>(source: Source<T>, limit: nat, piece: nat, newline: T) returns (item: Item<T>, sawData: bool)
    requires piece > 0 && source.Valid()
    modifies source`position
    ensures source.Valid() && (sawData <==> old(source.Rest()) != []) && (!sawData ==> source.Rest() == [])
    ensures sawData ==>
      var line := FirstLine(old(source.Rest()), newline);
      item == ItemOf(line, limit, piece) && source.Rest() == old(source.Rest())[|line|..]
  {
    hide FirstLine, Piece, Reading, ItemOf;
    ghost var s := source.Rest();
    var kept: seq<T> := [];
    var total: nat, oversized, more := 0, false, true;
    sawData := false;
    ReadingStarts(s, limit, piece, newline);
    while more
      invariant source.Valid() && total <= |s| && source.Rest() == s[total..]
      invariant sawData <==> total > 0
      invariant oversized <==> total > limit
      invariant Reading(s, kept, total, more, limit, piece, newline)
      decreases more, |s| - total
    {
      var chunk := source.ReadLine(piece, newline);
      ReadingStep(s, kept, total, chunk, limit, piece, newline);
      if chunk == [] {
        more := false;
      } else {
        sawData := true;
        total := total + |chunk|;
        if total <= limit {
          kept := kept + chunk;
        } else {
          oversized := true;
        }
        if chunk[|chunk| - 1] == newline {
          more := false;
        }
      }
    }
    ReadingEnds(s, kept, total, limit, piece, newline);
    item := Item(kept, oversized);
  }

  lemma KeptNothing<T>(line: seq<T>, limit: nat, piece: nat)
    requires piece > 0
    ensures Keeping([], line, 0, limit, piece) && Whole(0, piece)
  {
  }

  lemma WholeStep(total: nat, piece: nat)
    requires piece > 0 && Whole(total, piece)
    ensures Whole(total + piece, piece)
  {
  }

  lemma NoPiece<T>(s: seq<T>, total: nat, piece: nat, newline: T)
    requires total == |s|
    ensures Piece(s[total..], piece, newline) == []
  {
  }

  lemma EmptyLine<T>(s: seq<T>, newline: T)
    ensures FirstLine(s, newline) == [] <==> s == []
  {
  }

  lemma KeptLine<T>(kept: seq<T>, line: seq<T>, limit: nat, piece: nat)
    requires piece > 0 && Keeping(kept, line, |line|, limit, piece)
    ensures Item(kept, |line| > limit) == ItemOf(line, limit, piece)
  {
  }

  function ItemsOf<T>(lines: seq<seq<T>>, limit: nat, piece: nat): seq<Item<T>>
    requires piece > 0
  {
    if lines == [] then [] else [ItemOf(lines[0], limit, piece)] + ItemsOf(lines[1..], limit, piece)
  }

  // The generator, run to its end: one item per line, in order, and nothing else. The tail of an
  // oversized line is gone with it.
  method BoundedLines<T(==)>(source: Source<T>, limit: nat, piece: nat, newline: T) returns (items: seq<Item<T>>)
    requires piece > 0 && source.Valid()
    modifies source`position
    ensures items == ItemsOf(Lines(old(source.Rest()), newline), limit, piece)
    ensures source.Valid() && source.Rest() == []
  {
    hide FirstLine, ItemOf;
    items := [];
    ghost var s := source.Rest();
    while true
      invariant source.Valid()
      invariant ItemsOf(Lines(s, newline), limit, piece) == items + ItemsOf(Lines(source.Rest(), newline), limit, piece)
      decreases |source.Rest()|
    {
      ghost var rest := source.Rest();
      var item, sawData := BoundedLine(source, limit, piece, newline);
      if !sawData {
        return;
      }
      FirstItem(rest, limit, piece, newline);
      items := items + [item];
    }
  }

  lemma FirstItem<T>(s: seq<T>, limit: nat, piece: nat, newline: T)
    requires piece > 0 && s != []
    ensures var line := FirstLine(s, newline);
      line != [] && ItemsOf(Lines(s, newline), limit, piece)
                 == [ItemOf(line, limit, piece)] + ItemsOf(Lines(s[|line|..], newline), limit, piece)
  {
    var line := FirstLine(s, newline);
    assert Lines(s, newline)[1..] == Lines(s[|line|..], newline);
  }

  // The size of the pieces never shows in what fits, nor in what is flagged.
  lemma {:induction false} PiecesDoNotShow<T>(lines: seq<seq<T>>, limit: nat, p: nat, q: nat, i: nat)
    requires p > 0 && q > 0 && i < |lines|
    ensures |ItemsOf(lines, limit, p)| == |lines| == |ItemsOf(lines, limit, q)|
    ensures var x, y := ItemsOf(lines, limit, p)[i], ItemsOf(lines, limit, q)[i];
      && x == ItemOf(lines[i], limit, p)
      && x.oversized == y.oversized && (!x.oversized ==> x == y && x.kept == lines[i])
    decreases |lines|
  {
    if |lines| > 1 { PiecesDoNotShow(lines[1..], limit, p, q, if i > 0 then i - 1 else 0); }
  }
}
