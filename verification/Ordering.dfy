/** Python's ordering of strings and of pairs of strings, and sorted() of a set. */
module Ordering {

  // Lexicographic by code point.
  predicate Less(a: string, b: string) {
    b != [] && (a == [] || a[0] < b[0] || (a[0] == b[0] && Less(a[1..], b[1..])))
  }

  predicate PairLess(p: (string, string), q: (string, string)) {
    Less(p.0, q.0) || (p.0 == q.0 && Less(p.1, q.1))
  }

  ghost predicate StrictOrder<T(!new)>(less: (T, T) -> bool) {
    && (forall x :: !less(x, x))
    && (forall x, y, z :: less(x, y) && less(y, z) ==> less(x, z))
    && (forall x, y :: x != y ==> less(x, y) || less(y, x))
  }

  lemma {:induction false} LessIrreflexive(a: string)
    ensures !Less(a, a)
  {
    if a != [] { LessIrreflexive(a[1..]); }
  }

  lemma {:induction false} LessTransitive(a: string, b: string, c: string)
    requires Less(a, b) && Less(b, c)
    ensures Less(a, c)
  {
    if a != [] && a[0] == b[0] == c[0] { LessTransitive(a[1..], b[1..], c[1..]); }
  }

  lemma {:induction false} LessTotal(a: string, b: string)
    requires a != b
    ensures Less(a, b) || Less(b, a)
  {
    if a != [] && b != [] && a[0] == b[0] {
      assert a == [a[0]] + a[1..] && b == [b[0]] + b[1..];
      LessTotal(a[1..], b[1..]);
    }
  }

  lemma LessIsStrictOrder()
    ensures StrictOrder(Less)
  {
    forall a ensures !Less(a, a) { LessIrreflexive(a); }
    forall a, b, c | Less(a, b) && Less(b, c) ensures Less(a, c) { LessTransitive(a, b, c); }
    forall a, b | a != b ensures Less(a, b) || Less(b, a) { LessTotal(a, b); }
  }

  lemma PairLessIsStrictOrder()
    ensures StrictOrder(PairLess)
  {
    LessIsStrictOrder();
    forall p, q, r | PairLess(p, q) && PairLess(q, r) ensures PairLess(p, r) {
      if Less(p.0, q.0) && Less(q.0, r.0) { LessTransitive(p.0, q.0, r.0); }
      if Less(p.1, q.1) && Less(q.1, r.1) { LessTransitive(p.1, q.1, r.1); }
    }
    forall p: (string, string), q | p != q ensures PairLess(p, q) || PairLess(q, p) {
      if p.0 != q.0 { LessTotal(p.0, q.0); } else { LessTotal(p.1, q.1); }
    }
    forall p ensures !PairLess(p, p) { LessIrreflexive(p.0); LessIrreflexive(p.1); }
  }

  ghost predicate Sorted<T>(s: seq<T>, less: (T, T) -> bool) {
    forall i, j :: 0 <= i < j < |s| ==> less(s[i], s[j])
  }

  // sorted() of a set: strictly ascending, with exactly its elements.
  method Sort<T(==, !new)>(s: set<T>, less: (T, T) -> bool) returns (r: seq<T>)
    requires StrictOrder(less)
    ensures Sorted(r, less) && (forall x :: x in r <==> x in s)
  {
    r := [];
    var rest := s;
    while rest != {}
      invariant rest <= s
      invariant Sorted(r, less) && (forall x :: x in r <==> x in s - rest)
      invariant forall x <- r, y <- rest :: less(x, y)
      decreases rest
    {
      var least := Least(rest, less);
      assert forall i | 0 <= i < |r| :: r[i] in r;
      r, rest := r + [least], rest - {least};
    }
  }

  method SortStrings(s: set<string>) returns (r: seq<string>)
    ensures Sorted(r, Less) && (forall x :: x in r <==> x in s)
    ensures forall i, j | 0 <= i < j < |r| :: r[i] != r[j]
  {
    LessIsStrictOrder();
    r := Sort(s, Less);
  }

  method SortPairs(s: set<(string, string)>) returns (r: seq<(string, string)>)
    ensures Sorted(r, PairLess) && (forall x :: x in r <==> x in s)
    ensures forall i, j | 0 <= i < j < |r| :: r[i] != r[j]
  {
    PairLessIsStrictOrder();
    r := Sort(s, PairLess);
  }

  method Least<T(==, !new)>(s: set<T>, less: (T, T) -> bool) returns (m: T)
    requires s != {} && StrictOrder(less)
    ensures m in s && forall x <- s :: x != m ==> less(m, x)
  {
    m :| m in s;
    var rest := s - {m};
    while rest != {}
      invariant rest <= s && m in s && m !in rest
      invariant forall x <- s :: x in rest || x == m || less(m, x)
      decreases rest
    {
      var x :| x in rest;
      if less(x, m) {
        m := x;
      }
      rest := rest - {x};
    }
  }

  // A sorted listing of a set is unique.
  lemma {:induction false} SortedUnique<T(!new)>(a: seq<T>, b: seq<T>, less: (T, T) -> bool)
    requires StrictOrder(less) && Sorted(a, less) && Sorted(b, less)
    requires forall x :: x in a <==> x in b
    ensures a == b
  {
    assert b != [] ==> b[0] in b;
    if a != [] {
      assert a[0] in b;
      assert b[0] in a;
      assert a[0] == b[0];
      forall x ensures x in a[1..] <==> x in b[1..] {
        if x in a[1..] {
          var i :| 0 <= i < |a[1..]| && a[1..][i] == x;
          assert less(a[0], a[i + 1]) && x in a;
        }
        if x in b[1..] {
          var i :| 0 <= i < |b[1..]| && b[1..][i] == x;
          assert less(b[0], b[i + 1]) && x in b;
        }
      }
      SortedUnique(a[1..], b[1..], less);
      assert a == [a[0]] + a[1..] && b == [b[0]] + b[1..];
    }
  }

  function Members<T>(s: seq<T>): set<T> {
    set x | x in s
  }

  lemma NoMembers<T>(s: seq<T>)
    ensures Members(s[..0]) == {}
  {
  }

  lemma MembersStep<T>(s: seq<T>, i: nat)
    requires i < |s| && forall j, k | 0 <= j < k < |s| :: s[j] != s[k]
    ensures s[i] in s && s[i] !in Members(s[..i])
    ensures Members(s[..i + 1]) == Members(s[..i]) + {s[i]}
  {
    assert s[..i + 1] == s[..i] + [s[i]];
  }

  lemma AllMembers<T>(s: seq<T>, all: set<T>)
    requires forall x :: x in s <==> x in all
    ensures Members(s[..|s|]) == all
  {
    assert s[..|s|] == s;
  }
}
