/** UTF-8 as in sections 3 and 4 of RFC 3629, as far as strict decoding needs it. */
module Utf8 {
  import opened Wrappers

  type Byte = b: int | 0 <= b < 256

  // A Unicode scalar value: no surrogate.
  predicate Scalar(c: int) {
    0 <= c < 0xD800 || 0xE000 <= c < 0x110000
  }

  predicate Tail(b: Byte) {
    0x80 <= b < 0xC0
  }

  function EncodeOne(c: int): seq<Byte>
    requires Scalar(c)
  {
    if c < 0x80 then [c]
    else if c < 0x800 then [0xC0 + c / 64, 0x80 + c % 64]
    else if c < 0x10000 then [0xE0 + c / 4096, 0x80 + c / 64 % 64, 0x80 + c % 64]
    else [0xF0 + c / 262144, 0x80 + c / 4096 % 64, 0x80 + c / 64 % 64, 0x80 + c % 64]
  }

  function Encode(cs: seq<int>): seq<Byte>
    requires forall c <- cs :: Scalar(c)
  {
    if cs == [] then [] else EncodeOne(cs[0]) + Encode(cs[1..])
  }

  // The bits of two, three and four bytes, markers taken off.
  function Two(a: int, b: int): int {
    (a - 0xC0) * 64 + (b - 0x80)
  }

  function Three(a: int, b: int, c: int): int {
    (a - 0xE0) * 4096 + (b - 0x80) * 64 + (c - 0x80)
  }

  function Four(a: int, b: int, c: int, d: int): int {
    (a - 0xF0) * 262144 + (b - 0x80) * 4096 + (c - 0x80) * 64 + (d - 0x80)
  }

  // The first character and its length, by the table of section 4: over-long forms, surrogates
  // and values past 10FFFF are not in it.
  function First(s: seq<Byte>): (r: Option<(int, nat)>)
    ensures r.Some? ==> Scalar(r.value.0) && 1 <= r.value.1 <= |s|
  {
    if s == [] then None
    else if s[0] < 0x80 then Some((s[0], 1))
    else if 0xC2 <= s[0] < 0xE0 && |s| >= 2 && Tail(s[1]) then Some((Two(s[0], s[1]), 2))
    else if 0xE0 <= s[0] < 0xF0 && |s| >= 3 && Tail(s[1]) && Tail(s[2])
         && (s[0] == 0xE0 ==> s[1] >= 0xA0) && (s[0] == 0xED ==> s[1] < 0xA0) then
      Some((Three(s[0], s[1], s[2]), 3))
    else if 0xF0 <= s[0] < 0xF5 && |s| >= 4 && Tail(s[1]) && Tail(s[2]) && Tail(s[3])
         && (s[0] == 0xF0 ==> s[1] >= 0x90) && (s[0] == 0xF4 ==> s[1] < 0x90) then
      Some((Four(s[0], s[1], s[2], s[3]), 4))
    else None
  }

  // bytes.decode("utf-8", errors="strict"); None is UnicodeDecodeError.
  function Decode(s: seq<Byte>): (r: Option<seq<int>>)
    ensures r.Some? ==> forall c <- r.value :: Scalar(c)
    decreases |s|
  {
    if s == [] then Some([])
    else match First(s)
         case None => None
         case Some((c, n)) =>
           match Decode(s[n..])
           case None => None
           case Some(cs) => Some([c] + cs)
  }

  lemma FirstStays(a: seq<Byte>, b: seq<Byte>)
    requires First(a).Some?
    ensures First(a + b) == First(a)
  {
    hide Two, Three, Four;
  }

  lemma EncodedAlone(c: int)
    requires Scalar(c)
    ensures First(EncodeOne(c)) == Some((c, |EncodeOne(c)|))
  {
    if 0x800 <= c < 0x10000 {
      assert c / 4096 * 64 + c / 64 % 64 == c / 64;
    }
    if c >= 0x10000 {
      assert c / 262144 * 64 + c / 4096 % 64 == c / 4096;
      assert c / 4096 * 64 + c / 64 % 64 == c / 64;
    }
  }

  lemma FirstOfEncoded(c: int, rest: seq<Byte>)
    requires Scalar(c)
    ensures First(EncodeOne(c) + rest) == Some((c, |EncodeOne(c)|))
  {
    hide EncodeOne, First;
    EncodedAlone(c);
    FirstStays(EncodeOne(c), rest);
  }

  lemma TwoDigits(a: int, b: int)
    requires 0xC2 <= a < 0xE0 && 0x80 <= b < 0xC0
    ensures var c := Two(a, b); 0x80 <= c < 0x800 && c / 64 == a - 0xC0 && c % 64 == b - 0x80
  {
  }

  lemma ThreeDigits(a: int, b: int, c: int)
    requires 0xE0 <= a < 0xF0 && 0x80 <= b < 0xC0 && 0x80 <= c < 0xC0
    ensures var n := Three(a, b, c);
      n / 4096 == a - 0xE0 && n / 64 % 64 == b - 0x80 && n % 64 == c - 0x80 && n / 64 == (a - 0xE0) * 64 + (b - 0x80)
  {
  }

  lemma FourDigits(a: int, b: int, c: int, d: int)
    requires 0xF0 <= a < 0xF5 && 0x80 <= b < 0xC0 && 0x80 <= c < 0xC0 && 0x80 <= d < 0xC0
    ensures var n := Four(a, b, c, d);
      n / 262144 == a - 0xF0 && n / 4096 % 64 == b - 0x80 && n / 64 % 64 == c - 0x80 && n % 64 == d - 0x80
  {
    var n := Four(a, b, c, d);
    assert n / 64 == (a - 0xF0) * 4096 + (b - 0x80) * 64 + (c - 0x80);
    assert n / 4096 == (a - 0xF0) * 64 + (b - 0x80);
  }

  lemma EncodedFirst(s: seq<Byte>)
    requires First(s).Some?
    ensures EncodeOne(First(s).value.0) == s[..First(s).value.1]
  {
    var n := First(s).value.1;
    if n == 2 {
      TwoDigits(s[0], s[1]);
      assert s[..2] == [s[0], s[1]];
    }
    if n == 3 {
      ThreeDigits(s[0], s[1], s[2]);
      assert s[..3] == [s[0], s[1], s[2]];
    }
    if n == 4 {
      FourDigits(s[0], s[1], s[2], s[3]);
      assert s[..4] == [s[0], s[1], s[2], s[3]];
    }
  }

  // Every text survives encoding and decoding.
  lemma {:induction false} DecodeEncode(cs: seq<int>)
    requires forall c <- cs :: Scalar(c)
    ensures Decode(Encode(cs)) == Some(cs)
    decreases |cs|
  {
    hide First, EncodeOne;
    if cs != [] {
      FirstOfEncoded(cs[0], Encode(cs[1..]));
      DecodeEncode(cs[1..]);
      assert cs == [cs[0]] + cs[1..];
      assert (EncodeOne(cs[0]) + Encode(cs[1..]))[|EncodeOne(cs[0])|..] == Encode(cs[1..]);
    }
  }

  // Whatever decodes is the encoding of what it decodes to, and of nothing else.
  lemma {:induction false} EncodeDecode(s: seq<Byte>)
    requires Decode(s).Some?
    ensures Encode(Decode(s).value) == s
    decreases |s|
  {
    if s != [] {
      EncodedFirst(s);
      EncodeDecode(s[First(s).value.1..]);
      assert s == s[..First(s).value.1] + s[First(s).value.1..];
    }
  }

  function Before(c: int, rest: Option<seq<int>>): Option<seq<int>> {
    match rest case None => None case Some(cs) => Some([c] + cs)
  }

  function After(cs: seq<int>, rest: Option<seq<int>>): Option<seq<int>> {
    match rest case None => None case Some(more) => Some(cs + more)
  }

  lemma DecodeStep(s: seq<Byte>)
    requires First(s).Some?
    ensures Decode(s) == Before(First(s).value.0, Decode(s[First(s).value.1..]))
  {
    hide First;
  }

  lemma BeforeAfter(c: int, cs: seq<int>, rest: Option<seq<int>>)
    ensures Before(c, After(cs, rest)) == After([c] + cs, rest)
    ensures After([], rest) == rest
  {
    if rest.Some? {
      assert [c] + (cs + rest.value) == [c] + cs + rest.value;
      assert [] + rest.value == rest.value;
    }
  }

  // Valid pieces concatenate.
  lemma {:induction false} DecodeConcat(a: seq<Byte>, b: seq<Byte>)
    requires Decode(a).Some?
    ensures Decode(a + b) == After(Decode(a).value, Decode(b))
    decreases |a|
  {
    hide First, Before, After;
    if a == [] {
      assert a + b == b;
      BeforeAfter(0, [], Decode(b));
    } else {
      var (c, n) := First(a).value;
      FirstStays(a, b);
      DecodeConcat(a[n..], b);
      DecodeStep(a + b);
      assert (a + b)[n..] == a[n..] + b;
      BeforeAfter(c, Decode(a[n..]).value, Decode(b));
    }
  }
}
