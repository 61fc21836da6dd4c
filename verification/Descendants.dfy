/**
 Transitive dependents of a belief: the worklist of `helpers.py` and the recursive query of
 `LedgerStore.descendants`, which define the same set.
 */
module Descendants {
  import opened Ordering

  datatype Justification = Justification(belief: string, premises: seq<string>)

  type Dependents = map<string, set<string>>

  function Of(d: Dependents, b: string): set<string> {
    if b in d then d[b] else {}
  }

  // A non-empty walk along dependents.
  ghost predicate Walk(d: Dependents, p: seq<string>) {
    |p| >= 2 && forall i | 0 <= i < |p| - 1 :: p[i + 1] in Of(d, p[i])
  }

  // Reachable in one or more steps.
  ghost predicate Reaches(d: Dependents, from: string, to: string) {
    exists p :: Walk(d, p) && p[0] == from && p[|p| - 1] == to
  }

  lemma ReachesOne(d: Dependents, a: string, b: string)
    requires b in Of(d, a)
    ensures Reaches(d, a, b)
  {
    assert Walk(d, [a, b]);
  }

  lemma ReachesMore(d: Dependents, a: string, b: string, c: string)
    requires Reaches(d, a, b) && c in Of(d, b)
    ensures Reaches(d, a, c)
  {
    var p :| Walk(d, p) && p[0] == a && p[|p| - 1] == b;
    var q := p + [c];
    forall i | 0 <= i < |q| - 1 ensures q[i + 1] in Of(d, q[i]) {
      if i < |p| - 1 { assert q[i] == p[i] && q[i + 1] == p[i + 1]; }
    }
    assert Walk(d, q);
  }

  // What the recursive query denotes: the least set that holds the direct dependents and is
  // closed under dependents.
  ghost predicate Closed(d: Dependents, root: string, s: set<string>) {
    Of(d, root) <= s && forall b <- s :: Of(d, b) <= s
  }

  lemma {:induction false} WalkStaysInside(d: Dependents, root: string, s: set<string>, p: seq<string>)
    requires Closed(d, root, s) && Walk(d, p) && p[0] == root
    ensures p[|p| - 1] in s
  {
    if |p| > 2 {
      var q := p[..|p| - 1];
      assert forall i | 0 <= i < |q| :: q[i] == p[i];
      WalkStaysInside(d, root, s, q);
      assert p[|p| - 1] in Of(d, p[|p| - 2]);
    } else {
      assert p[1] in Of(d, p[0]);
    }
  }

  // The reachable set is the least closed set.
  lemma ReachableIsLeastClosed(d: Dependents, root: string, r: set<string>)
    requires forall x :: x in r <==> Reaches(d, root, x)
    ensures Closed(d, root, r)
    ensures forall s: set<string> :: Closed(d, root, s) ==> r <= s
  {
    forall x | x in Of(d, root) ensures x in r { ReachesOne(d, root, x); }
    forall b, x | b in r && x in Of(d, b) ensures x in r { ReachesMore(d, root, b, x); }
    forall s: set<string>, x | Closed(d, root, s) && x in r ensures x in s {
      var p :| Walk(d, p) && p[0] == root && p[|p| - 1] == x;
      WalkStaysInside(d, root, s, p);
    }
  }

  // dependents[premise].add(justification.belief_id)
  method BuildDependents(js: seq<Justification>) returns (d: Dependents)
    ensures forall a, b :: b in Of(d, a) <==> exists i | 0 <= i < |js| :: a in js[i].premises && js[i].belief == b
  {
    d := map[];
    for i := 0 to |js|
      invariant forall a, b :: b in Of(d, a) <==> exists k | 0 <= k < i :: a in js[k].premises && js[k].belief == b
    {
      ghost var before := d;
      for j := 0 to |js[i].premises|
        invariant forall a, b :: b in Of(d, a) <==>
          b in Of(before, a) || (b == js[i].belief && a in js[i].premises[..j])
      {
        var a := js[i].premises[j];
        d := d[a := Of(d, a) + {js[i].belief}];
        assert js[i].premises[..j + 1] == js[i].premises[..j] + [a];
      }
      assert js[i].premises[..|js[i].premises|] == js[i].premises;
    }
  }

  function Everything(d: Dependents): set<string> {
    set a, b | a in d && b in d[a] :: b
  }

  // `_descendant_ids`, on any graph, cyclic ones included.
  method DescendantIds(root: string, d: Dependents) returns (ids: seq<string>)
    ensures Sorted(ids, Less)
    ensures forall x :: x in ids <==> Reaches(d, root, x)
  {
    hide Sorted, Less;
    var descendants: set<string> := {};
    var pending := SortedReverse(Of(d, root));
    forall x | x in pending ensures Reaches(d, root, x) { ReachesOne(d, root, x); }
    while pending != []
      invariant forall x :: x in descendants || x in pending ==> Reaches(d, root, x)
      invariant forall x :: x in Of(d, root) ==> x in descendants || x in pending
      invariant forall b, x :: b in descendants && x in Of(d, b) ==> x in descendants || x in pending
      invariant descendants <= Everything(d) && (forall x <- pending :: x in Everything(d))
      decreases Everything(d) - descendants, |pending|
    {
      var belief := pending[|pending| - 1];
      assert belief in pending;
      ghost var before := pending;
      pending := pending[..|pending| - 1];
      assert forall x :: x in before <==> x in pending || x == belief;
      if belief !in descendants {
        var next := SortedReverse(Of(d, belief));
        forall x | x in next ensures Reaches(d, root, x) { ReachesMore(d, root, belief, x); }
        descendants := descendants + {belief};
        pending := pending + next;
      }
    }
    forall x | Reaches(d, root, x) ensures x in descendants {
      var p :| Walk(d, p) && p[0] == root && p[|p| - 1] == x;
      WalkStaysInside(d, root, descendants, p);
    }
    ids := SortStrings(descendants);
  }

  // sorted(..., reverse=True)
  method SortedReverse(s: set<string>) returns (r: seq<string>)
    ensures forall x :: x in r <==> x in s
  {
    var up := SortStrings(s);
    r := seq(|up|, i requires 0 <= i < |up| => up[|up| - 1 - i]);
    forall x | x in up ensures x in r {
      var i :| 0 <= i < |up| && up[i] == x;
      assert r[|up| - 1 - i] == x;
    }
  }
}
