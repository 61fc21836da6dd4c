/**
 Schema canonicalization: local `$ref` resolution, dropping of informational fields and sorting
 of order-insensitive arrays, on every finite JSON value.

 The order that canonical_json induces on values is a parameter: an injective encoding makes it
 a strict total order, and that is all the results need.
 */
module Schema {
  import opened Wrappers
  import opened Ordering

  datatype Json =
    | Null
    | Bool(b: bool)
    | Int(i: int)
    | Real(r: real)
    | Str(s: string)
    | Arr(items: seq<Json>)
    | Obj(fields: map<string, Json>)

  const REF := "$ref"
  const DIALECT_2020 := "https://json-schema.org/draft/2020-12/schema"
  const DIALECT_07 := "http://json-schema.org/draft-07/schema#"
  const ORDER_INSENSITIVE := {"required", "enum", "type"}
  const DROPPED := {"title", "description", "examples", "$comment", "default", "deprecated", "readOnly", "$defs", "definitions"}

  /******* JSON Pointer, section 4 of RFC 6901 *******/

  // str.replace of a two-character pattern, left to right.
  function Replace(s: string, x: char, y: char, into: char): string {
    if |s| < 2 then s
    else if s[0] == x && s[1] == y then [into] + Replace(s[2..], x, y, into)
    else [s[0]] + Replace(s[1..], x, y, into)
  }

  // token.replace("~1", "/").replace("~0", "~")
  function Unescape(token: string): string {
    Replace(Replace(token, '~', '1', '/'), '~', '0', '~')
  }

  // One pass, each escape on its own.
  function Decode(s: string): string {
    if |s| < 2 then s
    else if s[0] == '~' && s[1] == '1' then ['/'] + Decode(s[2..])
    else if s[0] == '~' && s[1] == '0' then ['~'] + Decode(s[2..])
    else [s[0]] + Decode(s[1..])
  }

  function Encode(s: string): string {
    if s == [] then []
    else (if s[0] == '~' then "~0" else if s[0] == '/' then "~1" else [s[0]]) + Encode(s[1..])
  }

  function Split(s: string): (r: seq<string>)
    ensures |r| >= 1
  {
    if s == [] then [[]]
    else
      var rest := Split(s[1..]);
      if s[0] == '/' then [[]] + rest else [[s[0]] + rest[0]] + rest[1..]
  }

  predicate Local(reference: string) {
    |reference| >= 2 && reference[0] == '#' && reference[1] == '/'
  }

  function Tokens(reference: string): (r: seq<string>)
    requires Local(reference)
    ensures |r| >= 1
  {
    Split(reference[2..])
  }

  function Resolve(v: Json, tokens: seq<string>): Option<Json> {
    if tokens == [] then Some(v)
    else if v.Obj? && Unescape(tokens[0]) in v.fields then Resolve(v.fields[Unescape(tokens[0])], tokens[1..])
    else None
  }

  // Two sequential replacements decode each escape on its own, as the RFC asks.
  lemma {:induction false} UnescapeIsDecode(s: string)
    ensures Unescape(s) == Decode(s)
    decreases |s|
  {
    if |s| >= 2 {
      var one := Replace(s, '~', '1', '/');
      if s[0] == '~' && s[1] == '1' {
        UnescapeIsDecode(s[2..]);
        var rest := Replace(s[2..], '~', '1', '/');
        assert one[1..] == rest;
      } else {
        UnescapeIsDecode(s[1..]);
        var rest := Replace(s[1..], '~', '1', '/');
        assert one[1..] == rest && one[0] == s[0];
        if s[0] == '~' && s[1] == '0' {
          UnescapeIsDecode(s[2..]);
          ReplaceHead(s[1..]);
          assert rest[0] == '0';
          assert one[2..] == Replace(s[2..], '~', '1', '/');
        } else if s[0] == '~' {
          ReplaceHeadIsNotZero(s[1..]);
        }
      }
    }
  }

  lemma ReplaceHead(s: string)
    requires |s| >= 1 && s[0] == '0'
    ensures Replace(s, '~', '1', '/') == ['0'] + Replace(s[1..], '~', '1', '/')
  {
  }

  lemma ReplaceHeadIsNotZero(s: string)
    requires |s| >= 1 && s[0] != '0'
    ensures |Replace(s, '~', '1', '/')| >= 1 && Replace(s, '~', '1', '/')[0] != '0'
  {
  }

  lemma {:induction false} DecodeEncode(s: string)
    ensures Decode(Encode(s)) == s
    ensures '/' !in Encode(s)
    decreases |s|
  {
    if s != [] {
      DecodeEncode(s[1..]);
      var e := Encode(s);
      assert s == [s[0]] + s[1..];
      if s[0] == '~' || s[0] == '/' {
        assert e[2..] == Encode(s[1..]);
      } else {
        assert e[1..] == Encode(s[1..]);
      }
    }
  }

  // Every token survives escaping and unescaping.
  lemma TokenRoundTrip(s: string)
    ensures Unescape(Encode(s)) == s
  {
    UnescapeIsDecode(Encode(s));
    DecodeEncode(s);
  }

  // The pointer that names a path of keys.
  function Path(keys: seq<string>): string {
    if keys == [] then [] else ['/'] + (Encode(keys[0]) + Path(keys[1..]))
  }

  function At(v: Json, keys: seq<string>): Option<Json> {
    if keys == [] then Some(v)
    else if v.Obj? && keys[0] in v.fields then At(v.fields[keys[0]], keys[1..]) else None
  }

  lemma {:induction false} SplitPath(token: string, keys: seq<string>)
    requires '/' !in token
    ensures Split(token + Path(keys)) == [token] + if keys == [] then [] else Split(Path(keys)[1..])
    decreases |token|
  {
    if token == [] {
      assert token + Path(keys) == Path(keys);
    } else {
      SplitPath(token[1..], keys);
      assert (token + Path(keys))[1..] == token[1..] + Path(keys);
      assert token[0] in token;
      assert token == [token[0]] + token[1..];
    }
  }

  lemma {:induction false} ResolvePath(v: Json, keys: seq<string>)
    requires keys != []
    ensures Resolve(v, Split(Path(keys)[1..])) == At(v, keys)
    decreases |keys|
  {
    hide Encode, Unescape, Split, Path;
    PathTokens(keys);
    var tokens := Split(Path(keys)[1..]);
    TokenRoundTrip(keys[0]);
    if |keys| > 1 && v.Obj? && keys[0] in v.fields {
      ResolvePath(v.fields[keys[0]], keys[1..]);
    }
  }

  lemma PathTokens(keys: seq<string>)
    requires keys != []
    ensures Path(keys) != [] && |Split(Path(keys)[1..])| >= 1
    ensures var tokens := Split(Path(keys)[1..]);
      tokens[0] == Encode(keys[0]) && tokens[1..] == if |keys| == 1 then [] else Split(Path(keys[1..])[1..])
  {
    hide Encode, Decode, Split;
    DecodeEncode(keys[0]);
    SplitPath(Encode(keys[0]), keys[1..]);
    DropFirst('/', Encode(keys[0]) + Path(keys[1..]));
    if |keys| > 1 {
      DropFirst(Encode(keys[0]), Split(Path(keys[1..])[1..]));
    }
  }

  lemma DropFirst<T>(x: T, s: seq<T>)
    ensures ([x] + s)[0] == x && ([x] + s)[1..] == s
  {
  }

  // A pointer written by the RFC's rules reaches exactly the value at its path, whatever
  // characters the keys hold.
  lemma PointerReachesPath(v: Json, keys: seq<string>)
    requires keys != []
    ensures Local("#" + Path(keys)) && Resolve(v, Tokens("#" + Path(keys))) == At(v, keys)
  {
    ResolvePath(v, keys);
    assert ("#" + Path(keys))[2..] == Path(keys)[1..];
  }

  /******* Canonical order *******/

  predicate SortedItems(s: seq<Json>, less: (Json, Json) -> bool) {
    forall i, j | 0 <= i < j < |s| :: !less(s[j], s[i])
  }

  function Insert(x: Json, s: seq<Json>, less: (Json, Json) -> bool): seq<Json> {
    if s == [] then [x] else if less(s[0], x) then [s[0]] + Insert(x, s[1..], less) else [x] + s
  }

  // sorted(items, key=canonical_json)
  function SortItems(s: seq<Json>, less: (Json, Json) -> bool): seq<Json> {
    if s == [] then [] else Insert(s[0], SortItems(s[1..], less), less)
  }

  lemma {:induction false} InsertItems(x: Json, s: seq<Json>, less: (Json, Json) -> bool)
    ensures multiset(Insert(x, s, less)) == multiset(s) + multiset{x}
    decreases |s|
  {
    if s != [] {
      assert s == [s[0]] + s[1..];
      if less(s[0], x) { InsertItems(x, s[1..], less); }
    }
  }

  // Not below is transitive in a total order.
  lemma NotBelow(x: Json, y: Json, z: Json, less: (Json, Json) -> bool)
    requires StrictOrder(less) && !less(y, x) && !less(z, y)
    ensures !less(z, x)
  {
  }

  lemma NotBothBelow(x: Json, y: Json, less: (Json, Json) -> bool)
    requires StrictOrder(less) && less(x, y)
    ensures !less(y, x)
  {
  }

  lemma PrependSorts(x: Json, s: seq<Json>, less: (Json, Json) -> bool)
    requires SortedItems(s, less) && forall y <- s :: !less(y, x)
    ensures SortedItems([x] + s, less)
  {
  }

  lemma {:induction false} InsertSorts(x: Json, s: seq<Json>, less: (Json, Json) -> bool)
    requires StrictOrder(less) && SortedItems(s, less)
    ensures SortedItems(Insert(x, s, less), less)
    decreases |s|
  {
    hide StrictOrder;
    if s == [] {
    } else if less(s[0], x) {
      InsertSorts(x, s[1..], less);
      InsertItems(x, s[1..], less);
      var rest := Insert(x, s[1..], less);
      NotBothBelow(s[0], x, less);
      forall y <- rest ensures !less(y, s[0]) {
        assert y in multiset(rest);
        assert y in s[1..] || y == x;
      }
      PrependSorts(s[0], rest, less);
    } else {
      forall y <- s ensures !less(y, x) {
        var j :| 0 <= j < |s| && s[j] == y;
        if j > 0 { NotBelow(x, s[0], y, less); }
      }
      PrependSorts(x, s, less);
    }
  }

  lemma SortedNothing(less: (Json, Json) -> bool)
    ensures SortedItems([], less)
  {
  }

  lemma {:induction false} SortItemsSorts(s: seq<Json>, less: (Json, Json) -> bool)
    requires StrictOrder(less)
    ensures SortedItems(SortItems(s, less), less) && multiset(SortItems(s, less)) == multiset(s)
    decreases |s|
  {
    hide StrictOrder, SortedItems;
    if s == [] {
      SortedNothing(less);
    } else {
      SortItemsSorts(s[1..], less);
      InsertSorts(s[0], SortItems(s[1..], less), less);
      InsertItems(s[0], SortItems(s[1..], less), less);
      assert s == [s[0]] + s[1..];
    }
  }

  lemma SmallestFirst(a: seq<Json>, b: seq<Json>, less: (Json, Json) -> bool)
    requires StrictOrder(less) && SortedItems(a, less) && SortedItems(b, less) && multiset(a) == multiset(b) && a != []
    ensures b != [] && a[0] == b[0]
  {
    assert |multiset(a)| == |a| && |multiset(b)| == |b|;
    assert a[0] in multiset(b) && b[0] in multiset(a);
    var i :| 0 <= i < |b| && b[i] == a[0];
    var j :| 0 <= j < |a| && a[j] == b[0];
  }

  lemma RemoveAt(zs: seq<Json>, j: nat)
    requires j < |zs|
    ensures multiset(zs) == multiset(zs[..j] + zs[j + 1..]) + multiset{zs[j]}
    ensures multiset(zs[..j] + zs[j + 1..]) == multiset(zs) - multiset{zs[j]}
  {
    assert zs == zs[..j] + [zs[j]] + zs[j + 1..];
  }

  function Without(zs: seq<Json>, j: nat): seq<Json>
    requires j < |zs|
  {
    zs[..j] + zs[j + 1..]
  }

  lemma WithoutSame(xs: seq<Json>, i: nat, zs: seq<Json>, j: nat)
    requires multiset(xs) == multiset(zs) && i < |xs| && j < |zs| && xs[i] == zs[j]
    ensures multiset(Without(xs, i)) == multiset(Without(zs, j))
  {
    RemoveAt(xs, i);
    RemoveAt(zs, j);
  }

  lemma SameLength(xs: seq<Json>, zs: seq<Json>)
    requires multiset(xs) == multiset(zs)
    ensures |xs| == |zs|
  {
    assert |multiset(xs)| == |xs| && |multiset(zs)| == |zs|;
  }

  lemma SortedRest(a: seq<Json>, less: (Json, Json) -> bool)
    requires a != [] && SortedItems(a, less)
    ensures SortedItems(a[1..], less)
  {
    forall i, j | 0 <= i < j < |a[1..]| ensures !less(a[1..][j], a[1..][i]) {
      assert !less(a[j + 1], a[i + 1]);
    }
  }

  lemma FirstAndRest(a: seq<Json>)
    requires a != []
    ensures Without(a, 0) == a[1..] && a == [a[0]] + a[1..]
  {
  }

  // Two sorted lists of the same items are the same list.
  lemma {:induction false} SortedListsAgree(a: seq<Json>, b: seq<Json>, less: (Json, Json) -> bool)
    requires StrictOrder(less) && SortedItems(a, less) && SortedItems(b, less) && multiset(a) == multiset(b)
    ensures a == b
    decreases |a|
  {
    hide StrictOrder, SortedItems, Without;
    SameLength(a, b);
    if a != [] {
      SmallestFirst(a, b, less);
      WithoutSame(a, 0, b, 0);
      SortedRest(a, less);
      SortedRest(b, less);
      FirstAndRest(a);
      FirstAndRest(b);
      SortedListsAgree(a[1..], b[1..], less);
    }
  }

  // Sorting forgets the order, and nothing else.
  lemma SortIgnoresOrder(a: seq<Json>, b: seq<Json>, less: (Json, Json) -> bool)
    requires StrictOrder(less)
    ensures SortItems(a, less) == SortItems(b, less) <==> multiset(a) == multiset(b)
  {
    SortItemsSorts(a, less);
    SortItemsSorts(b, less);
    if multiset(a) == multiset(b) {
      SortedListsAgree(SortItems(a, less), SortItems(b, less), less);
    }
  }

  /******* visit *******/

  // The strings a value's own `$ref` fields hold, at any depth.
  function Refs(v: Json): set<string> {
    match v
    case Arr(xs) => set i, r | 0 <= i < |xs| && r in Refs(xs[i]) :: r
    case Obj(f) =>
      (set k, r | k in f && r in Refs(f[k]) :: r) + if REF in f && f[REF].Str? then {f[REF].s} else {}
    case _ => {}
  }

  // What stays fixed during one canonicalization.
  datatype Context = Context(root: Json, ignoreSiblings: bool, less: (Json, Json) -> bool)

  function Merged(target: Json, siblings: map<string, Json>): Json {
    Obj(map["allOf" := Arr([target, Obj(siblings)])])
  }

  // What a reference visits: draft-07 ignores what stands beside it, 2020-12 adds it on.
  function Next(c: Context, f: map<string, Json>, target: Json): Json {
    if f.Keys == {REF} || c.ignoreSiblings then target else Merged(target, f - {REF})
  }

  lemma {:induction false} ResolvedRefs(v: Json, tokens: seq<string>)
    requires Resolve(v, tokens).Some?
    ensures Refs(Resolve(v, tokens).value) <= Refs(v)
    decreases |tokens|
  {
    if tokens != [] {
      var k := Unescape(tokens[0]);
      ResolvedRefs(v.fields[k], tokens[1..]);
      FieldRefs(v.fields, k);
    }
  }

  lemma FieldRefs(f: map<string, Json>, k: string)
    requires k in f
    ensures Refs(f[k]) <= Refs(Obj(f))
  {
  }

  lemma MergedRefs(target: Json, f: map<string, Json>)
    ensures Refs(Merged(target, f - {REF})) <= Refs(target) + Refs(Obj(f))
  {
    var pair := [target, Obj(f - {REF})];
    var m := map["allOf" := Arr(pair)];
    assert Refs(Obj(m)) == Refs(m["allOf"]);
    forall r | r in Refs(Obj(f - {REF})) ensures r in Refs(Obj(f)) {
      var k :| k in f - {REF} && r in Refs((f - {REF})[k]);
      FieldRefs(f, k);
    }
    forall r | r in Refs(Arr(pair)) ensures r in Refs(target) + Refs(Obj(f)) {
      var i :| 0 <= i < |pair| && r in Refs(pair[i]);
    }
  }

  // A value with a reference visits what it names; the measure is the references of the root
  // not yet on the stack, then the value. None is a ManifestError.
  function Visit(c: Context, v: Json, stack: set<string>, field: string): Option<Json>
    requires Refs(v) <= Refs(c.root)
    decreases Refs(c.root) - stack, v
  {
    match v
    case Obj(f) =>
      if REF in f && f[REF] != Null then VisitReference(c, f, stack, field)
      else
        var kept := f.Keys - DROPPED;
        if forall k <- kept :: (FieldRefs(f, k); Visit(c, f[k], stack, k)).Some?
        then Some(Obj(map k | k in kept :: (FieldRefs(f, k); Visit(c, f[k], stack, k)).value))
        else None
    case Arr(xs) =>
      if forall i | 0 <= i < |xs| :: Visit(c, xs[i], stack, "").Some?
      then
        var items := seq(|xs|, i requires 0 <= i < |xs| => Visit(c, xs[i], stack, "").value);
        Some(Arr(if field in ORDER_INSENSITIVE then SortItems(items, c.less) else items))
      else None
    case Real(r) => Some(if r.Floor as real == r then Int(r.Floor) else v)
    case _ => Some(v)
  }

  function VisitReference(c: Context, f: map<string, Json>, stack: set<string>, field: string): Option<Json>
    requires REF in f && f[REF] != Null && Refs(Obj(f)) <= Refs(c.root)
    decreases Refs(c.root) - stack, Obj(f), 0
  {
    if !f[REF].Str? || !Local(f[REF].s) || f[REF].s in stack then None
    else
      var reference := f[REF].s;
      match Resolve(c.root, Tokens(reference))
      case None => None
      case Some(target) =>
        ResolvedRefs(c.root, Tokens(reference));
        MergedRefs(target, f);
        Visit(c, Next(c, f, target), stack + {reference}, field)
  }

  // A reference that is no local pointer, cyclic or unresolved is refused.
  lemma NotFollowed(c: Context, f: map<string, Json>, stack: set<string>, field: string)
    requires REF in f && f[REF] != Null && Refs(Obj(f)) <= Refs(c.root)
    requires !(f[REF].Str? && Local(f[REF].s) && f[REF].s !in stack && Resolve(c.root, Tokens(f[REF].s)).Some?)
    ensures Visit(c, Obj(f), stack, field) == None
  {
    hide Tokens, Local, Resolve;
  }

  // One that is followed visits what it names.
  lemma Follow(c: Context, f: map<string, Json>, stack: set<string>, field: string, target: Json)
    requires REF in f && f[REF].Str? && Refs(Obj(f)) <= Refs(c.root)
    requires Local(f[REF].s) && f[REF].s !in stack && Resolve(c.root, Tokens(f[REF].s)) == Some(target)
    ensures Refs(Next(c, f, target)) <= Refs(c.root)
    ensures Visit(c, Obj(f), stack, field) == Visit(c, Next(c, f, target), stack + {f[REF].s}, field)
  {
    hide Tokens, Local, Resolve, SortItems;
    ResolvedRefs(c.root, Tokens(f[REF].s));
    MergedRefs(target, f);
  }

  lemma Followed(c: Context, f: map<string, Json>, stack: set<string>, field: string) returns (r: string, next: Json)
    requires REF in f && f[REF] != Null && Refs(Obj(f)) <= Refs(c.root) && Visit(c, Obj(f), stack, field).Some?
    ensures f[REF] == Str(r) && r in Refs(c.root) && r !in stack && Local(r) && Resolve(c.root, Tokens(r)).Some?
    ensures next == Next(c, f, Resolve(c.root, Tokens(r)).value)
    ensures Refs(next) <= Refs(c.root) && Visit(c, Obj(f), stack, field) == Visit(c, next, stack + {r}, field)
  {
    hide Tokens, Local, Resolve, SortItems, Next;
    r := f[REF].s;
    Follow(c, f, stack, field, Resolve(c.root, Tokens(r)).value);
    next := Next(c, f, Resolve(c.root, Tokens(r)).value);
  }

  /******* Canonical forms *******/

  ghost predicate Canonical(v: Json, field: string, less: (Json, Json) -> bool) {
    match v
    case Obj(f) =>
      (REF in f ==> f[REF] == Null) && (forall k <- f :: k !in DROPPED && Canonical(f[k], k, less))
    case Arr(xs) =>
      (forall i | 0 <= i < |xs| :: Canonical(xs[i], "", less)) && (field in ORDER_INSENSITIVE ==> SortedItems(xs, less))
    case Real(r) => r.Floor as real != r
    case _ => true
  }

  lemma SortKeepsCanonical(items: seq<Json>, less: (Json, Json) -> bool)
    requires StrictOrder(less) && forall i | 0 <= i < |items| :: Canonical(items[i], "", less)
    ensures var s := SortItems(items, less); SortedItems(s, less) && forall i | 0 <= i < |s| :: Canonical(s[i], "", less)
  {
    hide Canonical;
    SortItemsSorts(items, less);
    var s := SortItems(items, less);
    forall i | 0 <= i < |s| ensures Canonical(s[i], "", less) {
      assert s[i] in multiset(s);
      assert s[i] in items;
    }
  }

  // What visit returns has no reference left, no informational field, no integral float, and
  // every order-insensitive array in order.
  lemma {:induction false} VisitIsCanonical(c: Context, v: Json, stack: set<string>, field: string)
    requires Refs(v) <= Refs(c.root) && StrictOrder(c.less)
    ensures var r := Visit(c, v, stack, field); r.Some? ==> Canonical(r.value, field, c.less)
    decreases Refs(c.root) - stack, v
  {
    hide StrictOrder, Tokens, SortedItems, Local;
    if Visit(c, v, stack, field).Some? {
      match v
      case Obj(f) =>
        if REF in f && f[REF] != Null {
          var reference, next := Followed(c, f, stack, field);
          VisitIsCanonical(c, next, stack + {reference}, field);
        } else {
          forall k <- f | k !in DROPPED
            ensures Refs(f[k]) <= Refs(c.root) && Canonical(Visit(c, f[k], stack, k).value, k, c.less)
          {
            FieldRefs(f, k);
            VisitIsCanonical(c, f[k], stack, k);
          }
        }
      case Arr(xs) =>
        forall i | 0 <= i < |xs| ensures Canonical(Visit(c, xs[i], stack, "").value, "", c.less) {
          VisitIsCanonical(c, xs[i], stack, "");
        }
        var items := seq(|xs|, i requires 0 <= i < |xs| => Visit(c, xs[i], stack, "").value);
        if field in ORDER_INSENSITIVE { SortKeepsCanonical(items, c.less); }
      case _ =>
    }
  }

  lemma {:induction false} CanonicalHasNoRefs(v: Json, field: string, less: (Json, Json) -> bool)
    requires Canonical(v, field, less)
    ensures Refs(v) == {}
  {
    match v
    case Obj(f) => forall k <- f ensures Refs(f[k]) == {} { CanonicalHasNoRefs(f[k], k, less); }
    case Arr(xs) => forall i | 0 <= i < |xs| ensures Refs(xs[i]) == {} { CanonicalHasNoRefs(xs[i], "", less); }
    case _ =>
  }

  lemma SortedIsFixed(items: seq<Json>, less: (Json, Json) -> bool)
    requires StrictOrder(less) && SortedItems(items, less)
    ensures SortItems(items, less) == items
  {
    SortItemsSorts(items, less);
    SortedListsAgree(SortItems(items, less), items, less);
  }

  // A canonical form is left alone, whatever document it is visited in.
  lemma {:induction false} CanonicalIsFixed(c: Context, v: Json, stack: set<string>, field: string)
    requires Refs(v) <= Refs(c.root) && StrictOrder(c.less) && Canonical(v, field, c.less)
    ensures Visit(c, v, stack, field) == Some(v)
    decreases v
  {
    hide StrictOrder, SortedItems, VisitReference;
    match v
    case Obj(f) =>
      forall k <- f ensures Refs(f[k]) <= Refs(c.root) && Visit(c, f[k], stack, k) == Some(f[k]) {
        FieldRefs(f, k);
        CanonicalIsFixed(c, f[k], stack, k);
      }
      assert f.Keys - DROPPED == f.Keys;
      assert Visit(c, v, stack, field).Some?;
      assert Visit(c, v, stack, field).value.fields == f;
    case Arr(xs) =>
      forall i | 0 <= i < |xs| ensures Visit(c, xs[i], stack, "") == Some(xs[i]) {
        CanonicalIsFixed(c, xs[i], stack, "");
      }
      var items := seq(|xs|, i requires 0 <= i < |xs| => Visit(c, xs[i], stack, "").value);
      assert items == xs;
      if field in ORDER_INSENSITIVE { SortedIsFixed(xs, c.less); }
    case _ =>
  }

  // The canonical forms are exactly the values visit leaves alone.
  lemma FixedIffCanonical(c: Context, v: Json, stack: set<string>, field: string)
    requires Refs(v) <= Refs(c.root) && StrictOrder(c.less)
    ensures Visit(c, v, stack, field) == Some(v) <==> Canonical(v, field, c.less)
  {
    VisitIsCanonical(c, v, stack, field);
    if Canonical(v, field, c.less) { CanonicalIsFixed(c, v, stack, field); }
  }

  // visit is idempotent, and the second visit may be in any document.
  lemma VisitTwice(c: Context, v: Json, stack: set<string>, field: string, d: Context, stack': set<string>)
    requires Refs(v) <= Refs(c.root) && StrictOrder(c.less) && d.less == c.less
    requires Visit(c, v, stack, field).Some?
    ensures var r := Visit(c, v, stack, field).value; Refs(r) == {} && Visit(d, r, stack', field) == Some(r)
  {
    hide Visit, Refs;
    VisitIsCanonical(c, v, stack, field);
    CanonicalHasNoRefs(Visit(c, v, stack, field).value, field, c.less);
    CanonicalIsFixed(d, Visit(c, v, stack, field).value, stack', field);
  }

  /******* A reference means its target *******/

  // With a smaller stack the visit meets no new cycle and returns the same.
  lemma {:induction false} StackShrinks(c: Context, v: Json, big: set<string>, small: set<string>, field: string)
    requires Refs(v) <= Refs(c.root) && small <= big && Visit(c, v, big, field).Some?
    ensures Visit(c, v, small, field) == Visit(c, v, big, field)
    decreases Refs(c.root) - big, v
  {
    hide Tokens, Local, SortItems;
    match v
    case Obj(f) =>
      if REF in f && f[REF] != Null {
        var reference, next := Followed(c, f, big, field);
        StackShrinks(c, next, big + {reference}, small + {reference}, field);
        Follow(c, f, small, field, Resolve(c.root, Tokens(reference)).value);
      } else {
        forall k <- f | k !in DROPPED
          ensures Refs(f[k]) <= Refs(c.root) && Visit(c, f[k], small, k) == Visit(c, f[k], big, k)
        {
          FieldRefs(f, k);
          StackShrinks(c, f[k], big, small, k);
        }
        assert Visit(c, v, small, field).value.fields == Visit(c, v, big, field).value.fields;
      }
    case Arr(xs) =>
      forall i | 0 <= i < |xs| ensures Visit(c, xs[i], small, "") == Visit(c, xs[i], big, "") {
        StackShrinks(c, xs[i], big, small, "");
      }
      assert seq(|xs|, i requires 0 <= i < |xs| => Visit(c, xs[i], small, "").value)
          == seq(|xs|, i requires 0 <= i < |xs| => Visit(c, xs[i], big, "").value);
    case _ =>
  }

  // The field name decides the order of an array only, never whether there is a result.
  lemma {:induction false} FieldIsOnlyOrder(c: Context, v: Json, stack: set<string>, field: string, other: string)
    requires Refs(v) <= Refs(c.root) && Visit(c, v, stack, field).Some?
    ensures Visit(c, v, stack, other).Some?
    decreases Refs(c.root) - stack, v
  {
    hide Tokens, Local, SortItems;
    match v
    case Obj(f) =>
      if REF in f && f[REF] != Null {
        var reference, next := Followed(c, f, stack, field);
        FieldIsOnlyOrder(c, next, stack + {reference}, field, other);
        Follow(c, f, stack, other, Resolve(c.root, Tokens(reference)).value);
      }
    case _ =>
  }

  lemma MergedVisitsTarget(c: Context, target: Json, siblings: map<string, Json>, stack: set<string>, field: string)
    requires Refs(Merged(target, siblings)) <= Refs(c.root) && Visit(c, Merged(target, siblings), stack, field).Some?
    ensures Refs(target) <= Refs(c.root) && Visit(c, target, stack, "").Some?
  {
    hide Visit, SortItems;
    var m, pair := Merged(target, siblings), [target, Obj(siblings)];
    assert m.fields["allOf"] == Arr(pair);
    FieldRefs(m.fields, "allOf");
    forall x | x in Refs(target) ensures x in Refs(Arr(pair)) { assert x in Refs(pair[0]); }
    MergedFields(c, m.fields, stack, field);
    ListItems(c, pair, stack, "allOf");
    assert pair[0] == target;
  }

  lemma MergedFields(c: Context, f: map<string, Json>, stack: set<string>, field: string)
    requires Refs(Obj(f)) <= Refs(c.root) && f.Keys == {"allOf"} && Visit(c, Obj(f), stack, field).Some?
    ensures Refs(f["allOf"]) <= Refs(c.root) && Visit(c, f["allOf"], stack, "allOf").Some?
  {
    FieldRefs(f, "allOf");
    assert "allOf" in f.Keys - DROPPED;
  }

  lemma ListItems(c: Context, xs: seq<Json>, stack: set<string>, field: string)
    requires Refs(Arr(xs)) <= Refs(c.root) && Visit(c, Arr(xs), stack, field).Some?
    ensures forall i | 0 <= i < |xs| :: Refs(xs[i]) <= Refs(c.root) && Visit(c, xs[i], stack, "").Some?
  {
    hide SortItems;
  }

  // Putting one more reference on the stack hurts only if the visit comes upon it; but then its
  // target has been visited with it on the stack.
  lemma {:induction false} StackGrows(c: Context, v: Json, stack: set<string>, field: string, r: string, t: Json)
    requires Refs(v) <= Refs(c.root) && Visit(c, v, stack, field).Some?
    requires Local(r) && Resolve(c.root, Tokens(r)) == Some(t) && Refs(t) <= Refs(c.root)
    ensures Visit(c, v, stack + {r}, field).Some? || Visit(c, t, stack + {r}, "").Some?
    decreases Refs(c.root) - stack, v
  {
    hide Tokens, Local, SortItems, Merged;
    if !Visit(c, t, stack + {r}, "").Some? {
      match v
      case Obj(f) =>
        if REF in f && f[REF] != Null {
          var reference, next := Followed(c, f, stack, field);
          if reference != r {
            StackGrows(c, next, stack + {reference}, field, r, t);
            Follow(c, f, stack + {r}, field, Resolve(c.root, Tokens(reference)).value);
            assert stack + {reference} + {r} == stack + {r} + {reference};
            if Visit(c, t, stack + {reference} + {r}, "").Some? {
              StackShrinks(c, t, stack + {reference} + {r}, stack + {r}, "");
            }
          } else if next == t {
            FieldIsOnlyOrder(c, t, stack + {r}, field, "");
          } else {
            MergedVisitsTarget(c, t, f - {REF}, stack + {r}, field);
          }
        } else {
          forall k <- f | k !in DROPPED ensures Refs(f[k]) <= Refs(c.root) && Visit(c, f[k], stack + {r}, k).Some? {
            FieldRefs(f, k);
            StackGrows(c, f[k], stack, k, r, t);
          }
        }
      case Arr(xs) =>
        forall i | 0 <= i < |xs| ensures Visit(c, xs[i], stack + {r}, "").Some? { StackGrows(c, xs[i], stack, "", r, t); }
      case _ =>
    }
  }

  // A reference to an existing value, not already being resolved, is interchangeable with the
  // value: both are refused, or both give the same.
  lemma ReferenceMeansTarget(c: Context, r: string, stack: set<string>, field: string)
    requires Local(r) && r !in stack && r in Refs(c.root) && Resolve(c.root, Tokens(r)).Some?
    ensures var t := Resolve(c.root, Tokens(r)).value;
      && Refs(t) <= Refs(c.root) && Refs(Obj(map[REF := Str(r)])) <= Refs(c.root)
      && Visit(c, Obj(map[REF := Str(r)]), stack, field) == Visit(c, t, stack, field)
  {
    hide Tokens, Local, Resolve;
    var t := Resolve(c.root, Tokens(r)).value;
    ResolvedRefs(c.root, Tokens(r));
    OneReference(c, r, stack, field);
    if Visit(c, t, stack, field).Some? {
      FieldIsOnlyOrder(c, t, stack, field, "");
      StackGrows(c, t, stack, "", r, t);
      FieldIsOnlyOrder(c, t, stack + {r}, "", field);
    }
    if Visit(c, t, stack + {r}, field).Some? {
      StackShrinks(c, t, stack + {r}, stack, field);
    }
  }

  lemma OneReference(c: Context, r: string, stack: set<string>, field: string)
    requires Local(r) && r !in stack && r in Refs(c.root) && Resolve(c.root, Tokens(r)).Some?
    ensures var t := Resolve(c.root, Tokens(r)).value;
      && Refs(t) <= Refs(c.root) && Refs(Obj(map[REF := Str(r)])) <= Refs(c.root)
      && Visit(c, Obj(map[REF := Str(r)]), stack, field) == Visit(c, t, stack + {r}, field)
  {
    hide Tokens, Local, Resolve, SortItems;
    ResolvedRefs(c.root, Tokens(r));
    var f: map<string, Json> := map[REF := Str(r)];
    assert Refs(f[REF]) == {};
    assert Refs(Obj(f)) == {r};
  }

  /******* Exactly which values are refused *******/

  predicate IsReference(v: Json) {
    v.Obj? && REF in v.fields && v.fields[REF] != Null
  }

  // A local pointer to something that is there.
  predicate Leads(c: Context, v: Json) {
    IsReference(v) && v.fields[REF].Str? && Local(v.fields[REF].s) && Resolve(c.root, Tokens(v.fields[REF].s)).Some?
  }

  function Name(v: Json): string {
    if IsReference(v) && v.fields[REF].Str? then v.fields[REF].s else ""
  }

  function Led(c: Context, v: Json): Json
    requires Leads(c, v)
  {
    Next(c, v.fields, Resolve(c.root, Tokens(Name(v))).value)
  }

  // The references in the parts of a value that are not dropped.
  function Nodes(v: Json): set<Json> {
    match v
    case Obj(f) => if IsReference(v) then {v} else set k, n | k in f && k !in DROPPED && n in Nodes(f[k]) :: n
    case Arr(xs) => set i, n | 0 <= i < |xs| && n in Nodes(xs[i]) :: n
    case _ => {}
  }

  // References each found in what the one before leads to, the first in the value.
  predicate Trail(c: Context, v: Json, t: seq<Json>)
    decreases |t|
  {
    t == [] || (t[0] in Nodes(v) && (|t| == 1 || (Leads(c, t[0]) && Trail(c, Led(c, t[0]), t[1..]))))
  }

  // Every reference of the trail leads somewhere and is not being resolved already.
  predicate Clear(c: Context, t: seq<Json>, stack: set<string>)
    decreases |t|
  {
    t == [] || (Leads(c, t[0]) && Name(t[0]) !in stack && Clear(c, t[1..], stack + {Name(t[0])}))
  }

  ghost predicate AllClear(c: Context, v: Json, stack: set<string>) {
    forall t :: Trail(c, v, t) ==> Clear(c, t, stack)
  }

  // There is a result exactly when every reference that can be reached is a local pointer to
  // something that is there and is not met again on the way from itself.
  lemma {:induction false} ResultIffClear(c: Context, v: Json, stack: set<string>, field: string)
    requires Refs(v) <= Refs(c.root)
    ensures Visit(c, v, stack, field).Some? <==> AllClear(c, v, stack)
    decreases Refs(c.root) - stack, v
  {
    hide Visit, Trail, Clear, Leads, Led, Next, Refs, Nodes, AllClear;
    match v
    case Obj(f) =>
      if IsReference(v) {
        if Leads(c, v) && Name(v) !in stack {
          LedVisits(c, v, stack, field);
          ResultIffClear(c, Led(c, v), stack + {Name(v)}, field);
          ReferenceTrails(c, v, stack);
        } else {
          RefusedReference(c, v, stack, field);
        }
      } else {
        forall k <- f | k !in DROPPED
          ensures Refs(f[k]) <= Refs(c.root)
          ensures Visit(c, f[k], stack, k).Some? <==> AllClear(c, f[k], stack)
        {
          FieldRefs(f, k);
          ResultIffClear(c, f[k], stack, k);
        }
        ObjectTrails(c, f, stack);
        VisitsFields(c, f, stack, field);
      }
    case Arr(xs) =>
      forall i | 0 <= i < |xs|
        ensures Refs(xs[i]) <= Refs(c.root)
        ensures Visit(c, xs[i], stack, "").Some? <==> AllClear(c, xs[i], stack)
      {
        ItemRefsOf(xs, i);
        ResultIffClear(c, xs[i], stack, "");
      }
      ArrayTrails(c, xs, stack);
      VisitsItems(c, xs, stack, field);
    case _ => LeafTrails(c, v, stack, field);
  }

  lemma ItemRefsOf(xs: seq<Json>, i: nat)
    requires i < |xs|
    ensures Refs(xs[i]) <= Refs(Arr(xs))
  {
  }

  lemma LedVisits(c: Context, v: Json, stack: set<string>, field: string)
    requires Leads(c, v) && Name(v) !in stack && Refs(v) <= Refs(c.root)
    ensures Refs(Led(c, v)) <= Refs(c.root) && Name(v) in Refs(c.root)
    ensures Visit(c, v, stack, field) == Visit(c, Led(c, v), stack + {Name(v)}, field)
  {
    hide Tokens, Local, Resolve, Visit, Next;
    Follow(c, v.fields, stack, field, Resolve(c.root, Tokens(Name(v))).value);
    HasReference(v.fields);
  }

  lemma RefusedReference(c: Context, v: Json, stack: set<string>, field: string)
    requires IsReference(v) && !(Leads(c, v) && Name(v) !in stack) && Refs(v) <= Refs(c.root)
    ensures Visit(c, v, stack, field) == None && !AllClear(c, v, stack)
  {
    hide Tokens, Local, Resolve, Visit;
    NotFollowed(c, v.fields, stack, field);
    assert Trail(c, v, [v]) && !Clear(c, [v], stack);
  }

  lemma ReferenceTrails(c: Context, v: Json, stack: set<string>)
    requires Leads(c, v) && Name(v) !in stack
    ensures AllClear(c, v, stack) <==> AllClear(c, Led(c, v), stack + {Name(v)})
  {
    hide Leads, Led, Refs, Trail, Clear;
    var w, more := Led(c, v), stack + {Name(v)};
    if AllClear(c, v, stack) {
      forall t | Trail(c, w, t) ensures Clear(c, t, more) {
        LongerTrail(c, v, t, stack);
      }
    }
    if AllClear(c, w, more) {
      forall t | Trail(c, v, t) ensures Clear(c, t, stack) {
        if t == [] {
          ClearNothing(c, stack);
        } else {
          NodeOf(c, v, t);
          assert t[0] == v by { LeadsIsReference(c, v); }
          RestOfTrail(c, v, t);
          assert t == [v] + t[1..];
          LongerTrail(c, v, t[1..], stack);
        }
      }
    }
  }

  lemma LeadsIsReference(c: Context, v: Json)
    requires Leads(c, v)
    ensures Nodes(v) == {v}
  {
  }

  lemma LongerTrail(c: Context, v: Json, t: seq<Json>, stack: set<string>)
    requires Leads(c, v) && Name(v) !in stack && Trail(c, Led(c, v), t)
    ensures Trail(c, v, [v] + t)
    ensures Clear(c, [v] + t, stack) <==> Clear(c, t, stack + {Name(v)})
  {
    LeadsIsReference(c, v);
    hide Leads, Led, Nodes, Name;
    assert ([v] + t)[1..] == t && ([v] + t)[0] == v;
  }

  lemma RestOfTrail(c: Context, v: Json, t: seq<Json>)
    requires Leads(c, v) && Trail(c, v, t) && t != [] && t[0] == v
    ensures Trail(c, Led(c, v), t[1..])
  {
    hide Leads, Led, Nodes;
  }

  lemma SameStart(c: Context, v: Json, w: Json, t: seq<Json>)
    requires Trail(c, v, t) && (t != [] ==> t[0] in Nodes(w))
    ensures Trail(c, w, t)
  {
  }

  lemma ObjectTrails(c: Context, f: map<string, Json>, stack: set<string>)
    requires !IsReference(Obj(f))
    ensures AllClear(c, Obj(f), stack) <==> forall k <- f | k !in DROPPED :: AllClear(c, f[k], stack)
  {
    hide Leads, Led, Clear, Trail, IsReference;
    if AllClear(c, Obj(f), stack) {
      forall k | k in f && k !in DROPPED ensures AllClear(c, f[k], stack) {
        forall t | Trail(c, f[k], t) ensures Clear(c, t, stack) {
          NodeOf(c, f[k], t);
          SameStart(c, f[k], Obj(f), t);
        }
      }
    }
    if forall k <- f | k !in DROPPED :: AllClear(c, f[k], stack) {
      forall t | Trail(c, Obj(f), t) ensures Clear(c, t, stack) {
        if t == [] {
          ClearNothing(c, stack);
        } else {
          NodeOf(c, Obj(f), t);
          var k :| k in f && k !in DROPPED && t[0] in Nodes(f[k]);
          SameStart(c, Obj(f), f[k], t);
          assert AllClear(c, f[k], stack);
        }
      }
    }
  }

  lemma ArrayTrails(c: Context, xs: seq<Json>, stack: set<string>)
    ensures AllClear(c, Arr(xs), stack) <==> forall i | 0 <= i < |xs| :: AllClear(c, xs[i], stack)
  {
    hide Leads, Led, Clear, Trail;
    if AllClear(c, Arr(xs), stack) {
      forall i | 0 <= i < |xs| ensures AllClear(c, xs[i], stack) {
        forall t | Trail(c, xs[i], t) ensures Clear(c, t, stack) {
          NodeOf(c, xs[i], t);
          SameStart(c, xs[i], Arr(xs), t);
        }
      }
    }
    if forall i | 0 <= i < |xs| :: AllClear(c, xs[i], stack) {
      forall t | Trail(c, Arr(xs), t) ensures Clear(c, t, stack) {
        if t == [] {
          ClearNothing(c, stack);
        } else {
          NodeOf(c, Arr(xs), t);
          var i :| 0 <= i < |xs| && t[0] in Nodes(xs[i]);
          SameStart(c, Arr(xs), xs[i], t);
          assert AllClear(c, xs[i], stack);
        }
      }
    }
  }

  lemma NodeOf(c: Context, v: Json, t: seq<Json>)
    requires Trail(c, v, t)
    ensures t != [] ==> t[0] in Nodes(v)
  {
  }

  lemma ClearNothing(c: Context, stack: set<string>)
    ensures Clear(c, [], stack)
  {
  }

  lemma LeafTrails(c: Context, v: Json, stack: set<string>, field: string)
    requires !v.Obj? && !v.Arr? && Refs(v) <= Refs(c.root)
    ensures Visit(c, v, stack, field).Some? && AllClear(c, v, stack)
  {
  }

  lemma VisitsFields(c: Context, f: map<string, Json>, stack: set<string>, field: string)
    requires !IsReference(Obj(f)) && Refs(Obj(f)) <= Refs(c.root)
    requires forall k <- f | k !in DROPPED :: Refs(f[k]) <= Refs(c.root)
    ensures Visit(c, Obj(f), stack, field).Some? <==> forall k <- f | k !in DROPPED :: Visit(c, f[k], stack, k).Some?
  {
    hide VisitReference, SortItems;
    assert forall k <- f | k !in DROPPED :: k in f.Keys - DROPPED;
  }

  lemma VisitsItems(c: Context, xs: seq<Json>, stack: set<string>, field: string)
    requires Refs(Arr(xs)) <= Refs(c.root) && forall i | 0 <= i < |xs| :: Refs(xs[i]) <= Refs(c.root)
    ensures Visit(c, Arr(xs), stack, field).Some? <==> forall i | 0 <= i < |xs| :: Visit(c, xs[i], stack, "").Some?
  {
    hide VisitReference, SortItems;
  }

  // So a value from which some reference leads back to itself is refused, however long the way
  // and whatever stands around it.
  lemma CycleIsRefused(c: Context, v: Json, t: seq<Json>, i: nat, j: nat, stack: set<string>, field: string)
    requires Refs(v) <= Refs(c.root) && Trail(c, v, t) && i < j < |t| && Name(t[i]) == Name(t[j])
    ensures Visit(c, v, stack, field) == None
  {
    hide Visit, Trail, Clear, Refs;
    ResultIffClear(c, v, stack, field);
    if Clear(c, t, stack) {
      ClearIsFresh(c, t, stack, i, j);
    }
  }

  lemma {:induction false} ClearIsFresh(c: Context, t: seq<Json>, stack: set<string>, i: nat, j: nat)
    requires Clear(c, t, stack) && i < j < |t|
    ensures Name(t[i]) != Name(t[j])
    decreases |t|
  {
    hide Leads, Name;
    if i == 0 {
      ClearAvoids(c, t[1..], stack + {Name(t[0])}, j - 1);
    } else {
      ClearIsFresh(c, t[1..], stack + {Name(t[0])}, i - 1, j - 1);
    }
  }

  lemma {:induction false} ClearAvoids(c: Context, t: seq<Json>, stack: set<string>, j: nat)
    requires Clear(c, t, stack) && j < |t|
    ensures Name(t[j]) !in stack
    decreases |t|
  {
    hide Leads, Name;
    if j > 0 {
      ClearAvoids(c, t[1..], stack + {Name(t[0])}, j - 1);
    }
  }

  lemma RefOfReference(r: string)
    ensures Refs(Obj(map[REF := Str(r)])) == {r}
  {
    var f: map<string, Json> := map[REF := Str(r)];
    assert Refs(f[REF]) == {};
  }

  /******* Order does not matter *******/

  // The same up to the order of order-insensitive arrays. Object keys have no order to begin with.
  ghost predicate Alike(a: Json, b: Json, field: string)
    decreases a, 1
  {
    match (a, b)
    case (Obj(f), Obj(g)) => f.Keys == g.Keys && forall k <- f :: Alike(f[k], g[k], k)
    case (Arr(xs), Arr(ys)) =>
      if field in ORDER_INSENSITIVE
      then exists zs: seq<Json> :: multiset(zs) == multiset(xs) && Pairwise(xs, zs, ys)
      else Pairwise(xs, xs, ys)
    case _ => a == b
  }

  // `zs` holds items of `xs`, and is like `ys` item by item.
  ghost predicate Pairwise(xs: seq<Json>, zs: seq<Json>, ys: seq<Json>)
    decreases Arr(xs), 0
  {
    |zs| == |ys| && forall i | 0 <= i < |zs| :: zs[i] in xs && Alike(zs[i], ys[i], "")
  }

  // The items of `xs` in the order of the items of `ys` they are like.
  lemma Lined(xs: seq<Json>, ys: seq<Json>, field: string) returns (zs: seq<Json>)
    requires Alike(Arr(xs), Arr(ys), field)
    ensures multiset(zs) == multiset(xs) && Pairwise(xs, zs, ys)
    ensures field !in ORDER_INSENSITIVE ==> zs == xs
  {
    hide Pairwise;
    zs := xs;
    if field in ORDER_INSENSITIVE {
      zs :| multiset(zs) == multiset(xs) && Pairwise(xs, zs, ys);
    }
  }

  lemma ItemRefs(xs: seq<Json>, x: Json)
    requires x in xs
    ensures Refs(x) <= Refs(Arr(xs))
  {
    var i :| 0 <= i < |xs| && xs[i] == x;
  }

  lemma SameItems(xs: seq<Json>, zs: seq<Json>)
    requires multiset(zs) == multiset(xs)
    ensures Refs(Arr(zs)) == Refs(Arr(xs))
  {
    forall x | x in xs ensures x in zs { assert x in multiset(xs); }
    forall x | x in zs ensures x in xs { assert x in multiset(zs); }
    forall i | 0 <= i < |xs| ensures Refs(xs[i]) <= Refs(Arr(zs)) { ItemRefs(zs, xs[i]); }
    forall i | 0 <= i < |zs| ensures Refs(zs[i]) <= Refs(Arr(xs)) { ItemRefs(xs, zs[i]); }
  }

  lemma PairRefs(zs: seq<Json>, ys: seq<Json>)
    requires |zs| == |ys| && forall i | 0 <= i < |zs| :: Refs(zs[i]) == Refs(ys[i])
    ensures Refs(Arr(zs)) == Refs(Arr(ys))
  {
  }

  lemma {:induction false} AlikeRefs(a: Json, b: Json, field: string)
    requires Alike(a, b, field)
    ensures Refs(a) == Refs(b)
    decreases a
  {
    if a.Obj? && b.Obj? {
      var f, g := a.fields, b.fields;
      forall k <- f ensures Refs(f[k]) == Refs(g[k]) { AlikeRefs(f[k], g[k], k); }
      assert REF in f && (f[REF].Str? || g[REF].Str?) ==> f[REF] == g[REF];
    }
    if a.Arr? && b.Arr? {
      AlikeItemRefs(a.items, b.items, field);
    }
  }

  lemma {:induction false} AlikeItemRefs(xs: seq<Json>, ys: seq<Json>, field: string)
    requires Alike(Arr(xs), Arr(ys), field)
    ensures Refs(Arr(xs)) == Refs(Arr(ys))
    decreases Arr(xs), 0
  {
    hide Alike, Refs;
    var zs := Lined(xs, ys, field);
    SameItems(xs, zs);
    forall i | 0 <= i < |zs| ensures Refs(zs[i]) == Refs(ys[i]) { AlikeRefs(zs[i], ys[i], ""); }
    PairRefs(zs, ys);
  }

  function Map(f: Json -> Json, xs: seq<Json>): seq<Json> {
    seq(|xs|, i requires 0 <= i < |xs| => f(xs[i]))
  }

  lemma {:induction false} MapMultiset(f: Json -> Json, xs: seq<Json>, zs: seq<Json>)
    requires multiset(xs) == multiset(zs)
    ensures multiset(Map(f, xs)) == multiset(Map(f, zs))
    decreases |xs|
  {
    hide Without, Map;
    SameLength(xs, zs);
    if xs == [] {
      assert xs == zs;
    } else {
      assert xs[0] in multiset(zs);
      var j :| 0 <= j < |zs| && zs[j] == xs[0];
      MapRemove(f, xs, 0);
      MapRemove(f, zs, j);
      WithoutSame(xs, 0, zs, j);
      MapMultiset(f, Without(xs, 0), Without(zs, j));
    }
  }

  lemma MapRemove(f: Json -> Json, zs: seq<Json>, j: nat)
    requires j < |zs|
    ensures |Without(zs, j)| == |zs| - 1
    ensures multiset(Map(f, zs)) == multiset(Map(f, Without(zs, j))) + multiset{f(zs[j])}
  {
    RemoveAt(Map(f, zs), j);
    assert Map(f, zs)[..j] + Map(f, zs)[j + 1..] == Map(f, Without(zs, j));
  }

  // What an item visits to, made total.
  function ValueOf(c: Context, stack: set<string>): Json -> Json {
    x => if Refs(x) <= Refs(c.root) && Visit(c, x, stack, "").Some? then Visit(c, x, stack, "").value else Null
  }

  lemma VisitList(c: Context, xs: seq<Json>, stack: set<string>, field: string)
    requires Refs(Arr(xs)) <= Refs(c.root)
    ensures forall x <- xs :: Refs(x) <= Refs(c.root)
    ensures Visit(c, Arr(xs), stack, field) ==
            if forall x <- xs :: Visit(c, x, stack, "").Some?
            then Some(Arr(if field in ORDER_INSENSITIVE then SortItems(Map(ValueOf(c, stack), xs), c.less) else Map(ValueOf(c, stack), xs)))
            else None
  {
    hide VisitReference, SortItems;
    forall x <- xs ensures Refs(x) <= Refs(c.root) { ItemRefs(xs, x); }
    if forall x <- xs :: Visit(c, x, stack, "").Some? {
      assert forall i | 0 <= i < |xs| :: xs[i] in xs && Visit(c, xs[i], stack, "").Some?;
      assert seq(|xs|, i requires 0 <= i < |xs| => Visit(c, xs[i], stack, "").value) == Map(ValueOf(c, stack), xs);
    } else {
      var x :| x in xs && Visit(c, x, stack, "").None?;
      var i :| 0 <= i < |xs| && xs[i] == x;
    }
  }

  // A pointer that picks a list out of an order-insensitive position can take its order elsewhere.
  predicate CarriesOrder(root: Json, r: string) {
    Local(r) && Resolve(root, Tokens(r)).Some? && Resolve(root, Tokens(r)).value.Arr?
    && Unescape(Tokens(r)[|Tokens(r)| - 1]) in ORDER_INSENSITIVE
  }

  lemma {:induction false} ResolveAlike(a: Json, b: Json, tokens: seq<string>, field: string)
    requires tokens != [] && Alike(a, b, field)
    ensures Resolve(a, tokens).Some? <==> Resolve(b, tokens).Some?
    ensures Resolve(a, tokens).Some? ==>
      Alike(Resolve(a, tokens).value, Resolve(b, tokens).value, Unescape(tokens[|tokens| - 1]))
    decreases |tokens|
  {
    hide Unescape, Pairwise;
    var k := Unescape(tokens[0]);
    if a.Obj? && b.Obj? && k in a.fields {
      if |tokens| > 1 { ResolveAlike(a.fields[k], b.fields[k], tokens[1..], k); }
    }
  }

  lemma AlikeElsewhere(a: Json, b: Json, field: string, other: string)
    requires Alike(a, b, field) && (a.Arr? ==> field !in ORDER_INSENSITIVE)
    ensures Alike(a, b, other)
  {
    hide Pairwise;
    if a.Arr? && b.Arr? { assert multiset(a.items) == multiset(a.items); }
  }

  lemma MergedAlike(a: Json, b: Json, f: map<string, Json>, g: map<string, Json>, field: string)
    requires Alike(a, b, "") && Alike(Obj(f), Obj(g), "")
    ensures Alike(Merged(a, f - {REF}), Merged(b, g - {REF}), field)
  {
    WithoutKeyAlike(f, g);
    PairAlike(a, b, Obj(f - {REF}), Obj(g - {REF}));
    var m: map<string, Json>, n: map<string, Json> :=
      map["allOf" := Arr([a, Obj(f - {REF})])], map["allOf" := Arr([b, Obj(g - {REF})])];
    FieldAlike(m, n, "allOf", field);
  }

  lemma WithoutKeyAlike(f: map<string, Json>, g: map<string, Json>)
    requires Alike(Obj(f), Obj(g), "")
    ensures Alike(Obj(f - {REF}), Obj(g - {REF}), "")
  {
    hide Pairwise;
  }

  lemma PairAlike(a: Json, b: Json, x: Json, y: Json)
    requires Alike(a, b, "") && Alike(x, y, "")
    ensures Alike(Arr([a, x]), Arr([b, y]), "allOf")
  {
    var xs, ys := [a, x], [b, y];
    assert xs[0] in xs && xs[1] in xs;
    assert Pairwise(xs, xs, ys);
    assert multiset(xs) == multiset(xs);
  }

  lemma FieldAlike(m: map<string, Json>, n: map<string, Json>, k: string, field: string)
    requires m.Keys == {k} == n.Keys && Alike(m[k], n[k], k)
    ensures Alike(Obj(m), Obj(n), field)
  {
    hide Pairwise;
  }

  // The result does not depend on the order of any `required`, `enum` or `type` array, nor on
  // that of object keys, unless a reference picks such an array out of its place.
  lemma {:induction false} VisitIgnoresOrder(c: Context, d: Context, a: Json, b: Json, stack: set<string>, field: string)
    requires StrictOrder(c.less) && d.less == c.less && d.ignoreSiblings == c.ignoreSiblings
    requires Alike(c.root, d.root, "") && forall r <- Refs(c.root) :: !CarriesOrder(c.root, r)
    requires Alike(a, b, field) && Refs(a) <= Refs(c.root) && Refs(b) <= Refs(d.root)
    ensures Visit(c, a, stack, field) == Visit(d, b, stack, field)
    decreases Refs(c.root) - stack, a
  {
    hide StrictOrder, Tokens, Local, SortItems, CarriesOrder, Pairwise, VisitReference;
    if a.Obj? && b.Obj? {
      var f, g := a.fields, b.fields;
      if REF in f && f[REF] != Null {
        ReferenceIgnoresOrder(c, d, f, g, stack, field);
      } else {
        forall k <- f
          ensures Refs(f[k]) <= Refs(c.root) && Refs(g[k]) <= Refs(d.root) && Visit(c, f[k], stack, k) == Visit(d, g[k], stack, k)
        {
          FieldRefs(f, k);
          FieldRefs(g, k);
          VisitIgnoresOrder(c, d, f[k], g[k], stack, k);
        }
        assert REF in g ==> g[REF] == Null;
        assert f.Keys - DROPPED == g.Keys - DROPPED;
        var u, w := Visit(c, a, stack, field), Visit(d, b, stack, field);
        assert u.Some? <==> w.Some?;
        if u.Some? { assert u.value.fields == w.value.fields; }
      }
    }
    if a.Arr? && b.Arr? {
      ListIgnoresOrder(c, d, a.items, b.items, stack, field);
    }
  }

  lemma {:induction false} ListIgnoresOrder(c: Context, d: Context, xs: seq<Json>, ys: seq<Json>, stack: set<string>, field: string)
    requires StrictOrder(c.less) && d.less == c.less && d.ignoreSiblings == c.ignoreSiblings
    requires Alike(c.root, d.root, "") && forall r <- Refs(c.root) :: !CarriesOrder(c.root, r)
    requires Alike(Arr(xs), Arr(ys), field) && Refs(Arr(xs)) <= Refs(c.root) && Refs(Arr(ys)) <= Refs(d.root)
    ensures Visit(c, Arr(xs), stack, field) == Visit(d, Arr(ys), stack, field)
    decreases Refs(c.root) - stack, Arr(xs), 0
  {
    hide StrictOrder, SortItems, CarriesOrder, Visit, Alike, Refs;
    var zs := Lined(xs, ys, field);
    SameItems(xs, zs);
    VisitList(c, xs, stack, field);
    VisitList(c, zs, stack, field);
    VisitList(d, ys, stack, field);
    forall i | 0 <= i < |zs| ensures Visit(c, zs[i], stack, "") == Visit(d, ys[i], stack, "") {
      VisitIgnoresOrder(c, d, zs[i], ys[i], stack, "");
    }
    SameVisits(c, d, xs, zs, ys, stack);
    if field in ORDER_INSENSITIVE {
      MapMultiset(ValueOf(c, stack), xs, zs);
      SortIgnoresOrder(Map(ValueOf(c, stack), xs), Map(ValueOf(c, stack), zs), c.less);
    }
  }

  lemma SameMembers(xs: seq<Json>, zs: seq<Json>)
    requires multiset(xs) == multiset(zs)
    ensures forall x :: x in xs <==> x in zs
  {
    forall x ensures x in xs <==> x in zs {
      assert x in xs <==> x in multiset(xs);
      assert x in zs <==> x in multiset(zs);
    }
  }

  lemma SameVisits(c: Context, d: Context, xs: seq<Json>, zs: seq<Json>, ys: seq<Json>, stack: set<string>)
    requires multiset(xs) == multiset(zs) && |zs| == |ys|
    requires forall x <- xs :: Refs(x) <= Refs(c.root)
    requires forall i | 0 <= i < |zs| ::
      Refs(zs[i]) <= Refs(c.root) && Refs(ys[i]) <= Refs(d.root) && Visit(c, zs[i], stack, "") == Visit(d, ys[i], stack, "")
    ensures forall y <- ys :: Refs(y) <= Refs(d.root)
    ensures (forall x <- xs :: Visit(c, x, stack, "").Some?) <==> (forall y <- ys :: Visit(d, y, stack, "").Some?)
    ensures Map(ValueOf(c, stack), zs) == Map(ValueOf(d, stack), ys)
  {
    hide Visit, Refs;
    SameMembers(xs, zs);
    var f, g := ValueOf(c, stack), ValueOf(d, stack);
    forall i | 0 <= i < |zs| ensures f(zs[i]) == g(ys[i]) {}
    assert Map(f, zs) == Map(g, ys);
    if forall x <- xs :: Visit(c, x, stack, "").Some? {
      forall y <- ys ensures Refs(y) <= Refs(d.root) && Visit(d, y, stack, "").Some? {
        var i :| 0 <= i < |ys| && ys[i] == y;
        assert zs[i] in zs;
      }
    }
    if !forall x <- xs :: Visit(c, x, stack, "").Some? {
      var x :| x in xs && Visit(c, x, stack, "").None?;
      var i :| 0 <= i < |zs| && zs[i] == x;
      assert ys[i] in ys;
    }
  }

  lemma {:induction false} ReferenceIgnoresOrder(c: Context, d: Context, f: map<string, Json>, g: map<string, Json>,
                                                 stack: set<string>, field: string)
    requires StrictOrder(c.less) && d.less == c.less && d.ignoreSiblings == c.ignoreSiblings
    requires Alike(c.root, d.root, "") && forall r <- Refs(c.root) :: !CarriesOrder(c.root, r)
    requires Alike(Obj(f), Obj(g), field) && Refs(Obj(f)) <= Refs(c.root) && Refs(Obj(g)) <= Refs(d.root)
    requires REF in f && f[REF] != Null
    ensures Visit(c, Obj(f), stack, field) == Visit(d, Obj(g), stack, field)
    decreases Refs(c.root) - stack, Obj(f), 0
  {
    hide StrictOrder, Tokens, Local, Pairwise, Visit, Alike, Refs, Merged, CarriesOrder, Next;
    SameReference(f, g, field);
    if f[REF].Str? && Local(f[REF].s) && f[REF].s !in stack {
      var r := f[REF].s;
      HasReference(f);
      HasReference(g);
      ResolveAlike(c.root, d.root, Tokens(r), "");
      if Resolve(c.root, Tokens(r)).Some? {
        var ta, tb := Resolve(c.root, Tokens(r)).value, Resolve(d.root, Tokens(r)).value;
        Follow(c, f, stack, field, ta);
        Follow(d, g, stack, field, tb);
        NextAlike(c, d, f, g, r, field, ta, tb);
        VisitIgnoresOrder(c, d, Next(c, f, ta), Next(d, g, tb), stack + {r}, field);
      } else {
        NotFollowed(c, f, stack, field);
        NotFollowed(d, g, stack, field);
      }
    } else {
      NotFollowed(c, f, stack, field);
      NotFollowed(d, g, stack, field);
    }
  }

  lemma SameReference(f: map<string, Json>, g: map<string, Json>, field: string)
    requires Alike(Obj(f), Obj(g), field) && REF in f && f[REF] != Null
    ensures f.Keys == g.Keys && g[REF] != Null && (f[REF].Str? || g[REF].Str? ==> f[REF] == g[REF])
  {
    hide Pairwise;
    assert Alike(f[REF], g[REF], REF);
  }

  lemma HasReference(f: map<string, Json>)
    requires REF in f && f[REF].Str?
    ensures f[REF].s in Refs(Obj(f))
  {
  }

  lemma NextAlike(c: Context, d: Context, f: map<string, Json>, g: map<string, Json>, r: string, field: string, ta: Json, tb: Json)
    requires d.ignoreSiblings == c.ignoreSiblings && Alike(Obj(f), Obj(g), field)
    requires Local(r) && Resolve(c.root, Tokens(r)) == Some(ta) && !CarriesOrder(c.root, r)
    requires Alike(ta, tb, Unescape(Tokens(r)[|Tokens(r)| - 1]))
    ensures Alike(Next(c, f, ta), Next(d, g, tb), field)
  {
    hide Tokens, Local, Resolve, Alike, Merged;
    var last := Unescape(Tokens(r)[|Tokens(r)| - 1]);
    ObjectAlike(f, g, field);
    AlikeElsewhere(ta, tb, last, field);
    AlikeElsewhere(ta, tb, last, "");
    MergedAlike(ta, tb, f, g, field);
  }

  lemma ObjectAlike(f: map<string, Json>, g: map<string, Json>, field: string)
    requires Alike(Obj(f), Obj(g), field)
    ensures f.Keys == g.Keys && Alike(Obj(f), Obj(g), "")
  {
    hide Pairwise;
  }

  /******* canonicalize_schema *******/

  datatype ManifestError = UnsupportedVersion | UnsupportedDialect | BadReference

  // str(root.get("$schema", "")); the text of a value that is no string is no known dialect.
  function Dialect(schema: map<string, Json>): Option<string> {
    if "$schema" !in schema then Some("")
    else if schema["$schema"].Str? then Some(schema["$schema"].s) else None
  }

  predicate Supported(schema: map<string, Json>) {
    Dialect(schema).Some? && Dialect(schema).value in {DIALECT_2020, DIALECT_07, ""}
  }

  function ContextOf(schema: map<string, Json>, less: (Json, Json) -> bool): Context {
    Context(Obj(schema), Dialect(schema) != Some(DIALECT_2020), less)
  }

  function Canonicalize(schema: map<string, Json>, version: int, less: (Json, Json) -> bool): Result<Json, ManifestError> {
    if version != 1 then Err(UnsupportedVersion)
    else if !Supported(schema) then Err(UnsupportedDialect)
    else match Visit(ContextOf(schema, less), Obj(schema), {}, "")
         case None => Err(BadReference)
         case Some(r) => Ok(r)
  }

  // Two spellings of a schema have one canonical form, and so one digest.
  lemma SpellingsAgree(a: map<string, Json>, b: map<string, Json>, version: int, less: (Json, Json) -> bool)
    requires StrictOrder(less) && Alike(Obj(a), Obj(b), "")
    requires forall r <- Refs(Obj(a)) :: !CarriesOrder(Obj(a), r)
    ensures Canonicalize(a, version, less) == Canonicalize(b, version, less)
  {
    hide Visit, StrictOrder, CarriesOrder, Pairwise, Refs;
    assert "$schema" in a ==> Alike(a["$schema"], b["$schema"], "$schema");
    assert Supported(a) == Supported(b);
    if Supported(a) {
      VisitIgnoresOrder(ContextOf(a, less), ContextOf(b, less), Obj(a), Obj(b), {}, "");
    }
  }

  // Where the references that a value consists of end, and those met on the way.
  function Landing(c: Context, v: Json, stack: set<string>): (r: (Json, set<string>))
    requires Refs(v) <= Refs(c.root)
    ensures Refs(r.0) <= Refs(c.root)
    decreases Refs(c.root) - stack
  {
    if Leads(c, v) && Name(v) !in stack then
      LedRefs(c, v);
      Landing(c, Led(c, v), stack + {Name(v)})
    else (v, stack)
  }

  lemma LedRefs(c: Context, v: Json)
    requires Leads(c, v) && Refs(v) <= Refs(c.root)
    ensures Refs(Led(c, v)) <= Refs(c.root) && Name(v) in Refs(c.root)
  {
    hide Tokens, Local, Resolve;
    ResolvedRefs(c.root, Tokens(Name(v)));
    MergedRefs(Resolve(c.root, Tokens(Name(v))).value, v.fields);
    HasReference(v.fields);
  }

  lemma {:induction false} LandingVisits(c: Context, v: Json, stack: set<string>, field: string)
    requires Refs(v) <= Refs(c.root)
    ensures var (w, more) := Landing(c, v, stack);
            Visit(c, v, stack, field) == Visit(c, w, more, field)
            && (IsReference(w) ==> Visit(c, w, more, field) == None)
    decreases Refs(c.root) - stack
  {
    hide Visit, Leads, Led, Refs;
    if Leads(c, v) && Name(v) !in stack {
      LedRefs(c, v);
      LedVisits(c, v, stack, field);
      LandingVisits(c, Led(c, v), stack + {Name(v)}, field);
    } else if IsReference(v) {
      RefusedReference(c, v, stack, field);
    }
  }

  // The object where a schema lands names no dialect, or by reference or outright a supported one.
  predicate LandsSupported(c: Context, w: Json, stack: set<string>)
    requires w.Obj? && Refs(w) <= Refs(c.root)
  {
    "$schema" !in w.fields || (
      FieldRefs(w.fields, "$schema");
      var (name, _) := Landing(c, w.fields["$schema"], stack);
      name.Str? && name.s in {DIALECT_2020, DIALECT_07, ""})
  }

  // Canonicalizing twice is canonicalizing once exactly when the schema lands at an object that
  // names a supported dialect or none. One that is no reference itself lands at itself.
  lemma CanonicalizeTwice(schema: map<string, Json>, less: (Json, Json) -> bool)
    requires StrictOrder(less) && Canonicalize(schema, 1, less).Ok?
    ensures var r := Canonicalize(schema, 1, less).value;
            var (w, stack) := Landing(ContextOf(schema, less), Obj(schema), {});
      && (r.Obj? <==> w.Obj?)
      && (r.Obj? ==> (Canonicalize(r.fields, 1, less) == Ok(r) <==> LandsSupported(ContextOf(schema, less), w, stack)))
      && (!IsReference(Obj(schema)) ==> w == Obj(schema) && r.Obj? && Canonicalize(r.fields, 1, less) == Ok(r))
  {
    hide Visit, StrictOrder, Refs, Landing, LandsSupported, Leads, IsReference;
    var c := ContextOf(schema, less);
    var r := Canonicalize(schema, 1, less).value;
    var (w, stack) := Landing(c, Obj(schema), {});
    LandingVisits(c, Obj(schema), {}, "");
    VisitKeepsKind(c, w, stack, "");
    if r.Obj? {
      VisitTwice(c, Obj(schema), {}, "", ContextOf(r.fields, less), {});
      DialectLands(c, w, stack);
    }
    if !IsReference(Obj(schema)) {
      NoReferenceLands(c, schema);
    }
  }

  lemma VisitKeepsKind(c: Context, w: Json, stack: set<string>, field: string)
    requires Refs(w) <= Refs(c.root) && !IsReference(w) && Visit(c, w, stack, field).Some?
    ensures var r := Visit(c, w, stack, field).value; (r.Obj? <==> w.Obj?) && (r.Str? <==> w.Str?) && (r.Str? ==> r == w)
  {
    hide VisitReference, SortItems;
  }

  lemma VisitedField(c: Context, f: map<string, Json>, k: string, stack: set<string>, field: string)
    requires !IsReference(Obj(f)) && Refs(Obj(f)) <= Refs(c.root) && Visit(c, Obj(f), stack, field).Some? && k !in DROPPED
    ensures var g := Visit(c, Obj(f), stack, field).value; g.Obj? && (k in g.fields <==> k in f)
    ensures k in f ==> Refs(f[k]) <= Refs(c.root)
                       && Visit(c, f[k], stack, k) == Some(Visit(c, Obj(f), stack, field).value.fields[k])
  {
    hide VisitReference, SortItems;
    if k in f {
      FieldRefs(f, k);
      assert k in f.Keys - DROPPED;
    }
  }

  lemma DialectLands(c: Context, w: Json, stack: set<string>)
    requires w.Obj? && !IsReference(w) && Refs(w) <= Refs(c.root) && Visit(c, w, stack, "").Some?
    ensures var r := Visit(c, w, stack, "").value; r.Obj? && (Supported(r.fields) <==> LandsSupported(c, w, stack))
  {
    hide Visit, Refs, Landing, Leads, IsReference;
    VisitedField(c, w.fields, "$schema", stack, "");
    if "$schema" in w.fields {
      var (name, more) := Landing(c, w.fields["$schema"], stack);
      LandingVisits(c, w.fields["$schema"], stack, "$schema");
      VisitKeepsKind(c, name, more, "$schema");
    }
  }

  lemma NoReferenceLands(c: Context, f: map<string, Json>)
    requires !IsReference(Obj(f)) && Refs(Obj(f)) <= Refs(c.root) && Supported(f)
    ensures Landing(c, Obj(f), {}) == (Obj(f), {}) && LandsSupported(c, Obj(f), {})
  {
  }

  // A schema that is a reference to a part with a dialect of its own: accepted, and its form
  // refused.
  lemma FormIsRefused(name: string, dialect: string, less: (Json, Json) -> bool)
    requires Plain(name) && dialect !in {DIALECT_2020, DIALECT_07, ""}
    ensures var part: map<string, Json> := map["$schema" := Str(dialect)];
            var schema := map[REF := Str("#" + Path([name])), name := Obj(part)];
      && Canonicalize(schema, 1, less) == Ok(Obj(part))
      && Canonicalize(part, 1, less) == Err(UnsupportedDialect)
  {
    hide Path, Local, Tokens, Resolve, Visit, Refs;
    var part: map<string, Json> := map["$schema" := Str(dialect)];
    var r := "#" + Path([name]);
    var schema := map[REF := Str(r), name := Obj(part)];
    var c := ContextOf(schema, less);
    PointerReachesPath(Obj(schema), [name]);
    assert At(Obj(schema), [name]) == At(Obj(part), [name][1..]) == Some(Obj(part));
    Follow(c, schema, {}, "", Obj(part));
    NoRefsIn(dialect);
    assert part.Keys - DROPPED == part.Keys;
    assert Visit(c, Str(dialect), {} + {r}, "$schema") == Some(Str(dialect)) by { VisitText(c, dialect, {} + {r}, "$schema"); }
    VisitFields(c, part, part, {} + {r}, "");
  }

  lemma NoRefsIn(s: string)
    ensures Refs(Str(s)) == {}
  {
  }

  lemma VisitText(c: Context, s: string, stack: set<string>, field: string)
    requires Refs(Str(s)) <= Refs(c.root)
    ensures Visit(c, Str(s), stack, field) == Some(Str(s))
  {
  }

  /******* What stands beside a reference *******/

  // A reference, to something that is there and not being resolved, with something beside it.
  predicate WithSiblings(c: Context, f: map<string, Json>, stack: set<string>, target: Json) {
    && "$ref" in f && f["$ref"].Str? && f.Keys != {"$ref"}
    && Local(f["$ref"].s) && f["$ref"].s !in stack && Resolve(c.root, Tokens(f["$ref"].s)) == Some(target)
  }

  function Beside(f: map<string, Json>): map<string, Json> {
    map k | k in f && k != "$ref" :: f[k]
  }

  // Under the 2020-12 dialect such a reference stands for the schema that demands both its target
  // and what is beside it.
  lemma SiblingsCount(schema: map<string, Json>, less: (Json, Json) -> bool, f: map<string, Json>, stack: set<string>,
                      field: string, target: Json)
    requires "$schema" in schema && schema["$schema"] == Str("https://json-schema.org/draft/2020-12/schema")
    requires Refs(Obj(f)) <= Refs(Obj(schema)) && WithSiblings(ContextOf(schema, less), f, stack, target)
    ensures var c, both, more := ContextOf(schema, less), [target, Obj(Beside(f))], stack + {f["$ref"].s};
      && Refs(Obj(map["allOf" := Arr(both)])) <= Refs(c.root)
      && Visit(c, Obj(f), stack, field) == Visit(c, Obj(map["allOf" := Arr(both)]), more, field)
      && Refs(target) <= Refs(c.root) && Refs(Obj(Beside(f))) <= Refs(c.root)
      && Visit(c, Obj(f), stack, field)
         == match (Visit(c, target, more, ""), Visit(c, Obj(Beside(f)), more, ""))
            case (Some(t), Some(s)) => Some(Obj(map["allOf" := Arr([t, s])]))
            case _ => None
  {
    hide Tokens, Local, Resolve, Visit, Refs;
    var c := ContextOf(schema, less);
    assert Beside(f) == f - {REF};
    Follow(c, f, stack, field, target);
    MergedVisits(c, target, Beside(f), stack + {f["$ref"].s}, field);
  }

  lemma MergedVisits(c: Context, target: Json, siblings: map<string, Json>, stack: set<string>, field: string)
    requires Refs(Merged(target, siblings)) <= Refs(c.root)
    ensures Refs(target) <= Refs(c.root) && Refs(Obj(siblings)) <= Refs(c.root)
    ensures Visit(c, Merged(target, siblings), stack, field)
         == match (Visit(c, target, stack, ""), Visit(c, Obj(siblings), stack, ""))
            case (Some(t), Some(s)) => Some(Obj(map["allOf" := Arr([t, s])]))
            case _ => None
  {
    hide Visit, SortItems, Refs;
    var m, pair := Merged(target, siblings).fields, [target, Obj(siblings)];
    assert m["allOf"] == Arr(pair);
    FieldRefs(m, "allOf");
    ItemRefsOf(pair, 0);
    ItemRefsOf(pair, 1);
    PairVisits(c, pair, stack);
    NotDropped();
    OneField(c, "allOf", Arr(pair), stack, field);
  }

  lemma NotDropped()
    ensures "allOf" !in DROPPED && "allOf" != REF && "allOf" !in ORDER_INSENSITIVE
  {
  }

  lemma PairVisits(c: Context, pair: seq<Json>, stack: set<string>)
    requires |pair| == 2 && Refs(Arr(pair)) <= Refs(c.root) && Refs(pair[0]) <= Refs(c.root) && Refs(pair[1]) <= Refs(c.root)
    ensures Visit(c, Arr(pair), stack, "allOf")
         == match (Visit(c, pair[0], stack, ""), Visit(c, pair[1], stack, ""))
            case (Some(t), Some(s)) => Some(Arr([t, s]))
            case _ => None
  {
    hide SortItems, VisitReference;
    if Visit(c, pair[0], stack, "").Some? && Visit(c, pair[1], stack, "").Some? {
      assert forall i | 0 <= i < |pair| :: Visit(c, pair[i], stack, "").Some?;
      assert seq(|pair|, i requires 0 <= i < |pair| => Visit(c, pair[i], stack, "").value)
          == [Visit(c, pair[0], stack, "").value, Visit(c, pair[1], stack, "").value];
    }
  }

  lemma OneField(c: Context, k: string, x: Json, stack: set<string>, field: string)
    requires k !in DROPPED && k != REF && Refs(Obj(map[k := x])) <= Refs(c.root) && Refs(x) <= Refs(c.root)
    ensures Visit(c, Obj(map[k := x]), stack, field)
         == match Visit(c, x, stack, k) case Some(y) => Some(Obj(map[k := y])) case None => None
  {
    hide SortItems, VisitReference;
    var f: map<string, Json> := map[k := x];
    assert f.Keys - DROPPED == {k} && f[k] == x;
    if Visit(c, x, stack, k).Some? {
      assert Visit(c, Obj(f), stack, field).value.fields == map[k := Visit(c, x, stack, k).value];
    }
  }

  // Under draft-07, or with no dialect named, it stands for its target and nothing else.
  lemma SiblingsDoNotCount(schema: map<string, Json>, less: (Json, Json) -> bool, f: map<string, Json>, stack: set<string>,
                           field: string, target: Json)
    requires "$schema" !in schema || schema["$schema"] == Str("http://json-schema.org/draft-07/schema#") || schema["$schema"] == Str("")
    requires Refs(Obj(f)) <= Refs(Obj(schema)) && WithSiblings(ContextOf(schema, less), f, stack, target)
    ensures var c := ContextOf(schema, less);
      && Refs(target) <= Refs(c.root)
      && Visit(c, Obj(f), stack, field) == Visit(c, target, stack + {f["$ref"].s}, field)
  {
    hide Tokens, Local, Resolve, Visit, Refs;
    OtherDialects();
    Follow(ContextOf(schema, less), f, stack, field, target);
  }

  lemma OtherDialects()
    ensures "http://json-schema.org/draft-07/schema#" != DIALECT_2020 && "" != DIALECT_2020
  {
    assert DIALECT_2020[4] == 's';
  }

  // A schema with one constraint beside a reference.
  function Constrained(dialect: string, user: string, name: string, base: Json, k: string, x: Json): map<string, Json> {
    map["$schema" := Str(dialect), user := Obj(map["$ref" := Str("#" + Path([name])), k := x]), name := base]
  }

  predicate Apart(user: string, name: string, k: string) {
    Plain(user) && Plain(name) && user != name && Plain(k)
  }

  lemma ConstrainedResolves(dialect: string, user: string, name: string, base: Json, k: string, x: Json)
    requires Apart(user, name, k)
    ensures var r := "#" + Path([name]);
      Local(r) && Resolve(Obj(Constrained(dialect, user, name, base, k, x)), Tokens(r)) == Some(base)
  {
    hide Path, Local, Tokens, Resolve;
    var v := Obj(Constrained(dialect, user, name, base, k, x));
    PointerReachesPath(v, [name]);
    assert [name][1..] == [];
    assert At(v, [name]) == At(base, []) == Some(base);
  }

  lemma KeptThree(user: string, name: string, k: string)
    requires Apart(user, name, k)
    ensures {"$schema", user, name} - DROPPED == {"$schema", user, name} && REF !in {"$schema", user, name}
    ensures k !in DROPPED && k != REF && user != "$schema" && name != "$schema"
  {
  }

  // Its form under 2020-12: both what the reference leads to and the constraint are there.
  lemma ConstraintIsKept(user: string, name: string, base: Json, k: string, x: Json, less: (Json, Json) -> bool)
    requires Apart(user, name, k) && Canonical(base, "", less) && Canonical(base, name, less) && Canonical(x, k, less)
    requires StrictOrder(less)
    ensures Canonicalize(Constrained("https://json-schema.org/draft/2020-12/schema", user, name, base, k, x), 1, less)
         == Ok(Obj(map["$schema" := Str("https://json-schema.org/draft/2020-12/schema"),
                       user := Obj(map["allOf" := Arr([base, Obj(map[k := x])])]), name := base]))
  {
    hide Path, SortItems, Local, Tokens, Visit, Refs, Plain, Resolve, Canonical, StrictOrder;
    var dialect := "https://json-schema.org/draft/2020-12/schema";
    var schema := Constrained(dialect, user, name, base, k, x);
    var c, r := ContextOf(schema, less), "#" + Path([name]);
    var f: map<string, Json> := map["$ref" := Str(r), k := x];
    ConstrainedResolves(dialect, user, name, base, k, x);
    KeptThree(user, name, k);
    assert schema[user] == Obj(f);
    FieldRefs(schema, user);
    assert f["$ref"] == Str(r) && k in f.Keys;
    SiblingsCount(schema, less, f, {}, user, base);
    assert Beside(f) == map[k := x];
    CanonicalIsFixed(c, base, {} + {r}, "");
    CanonicalHasNoRefs(x, k, less);
    AloneRefs(k, x);
    OneField(c, k, x, {} + {r}, "");
    CanonicalIsFixed(c, x, {} + {r}, k);
    CanonicalHasNoRefs(base, name, less);
    CanonicalIsFixed(c, base, {}, name);
    NoRefsIn(dialect);
    VisitText(c, dialect, {}, "$schema");
    var g := map["$schema" := Str(dialect), user := Obj(map["allOf" := Arr([base, Obj(map[k := x])])]), name := base];
    VisitFields(c, schema, g, {}, "");
  }

  // So under 2020-12 two schemas that differ in such a constraint have different forms.
  lemma ConstraintCounts(user: string, name: string, base: Json, k: string, x: Json, y: Json, less: (Json, Json) -> bool)
    requires Apart(user, name, k) && StrictOrder(less)
    requires Canonical(base, "", less) && Canonical(base, name, less) && Canonical(x, k, less) && Canonical(y, k, less)
    ensures var d := "https://json-schema.org/draft/2020-12/schema";
      Canonicalize(Constrained(d, user, name, base, k, x), 1, less) == Canonicalize(Constrained(d, user, name, base, k, y), 1, less)
      <==> x == y
  {
    hide Canonicalize, Canonical, StrictOrder, Constrained, Plain;
    var d := "https://json-schema.org/draft/2020-12/schema";
    ConstraintIsKept(user, name, base, k, x, less);
    ConstraintIsKept(user, name, base, k, y, less);
    KeptThree(user, name, k);
    var g: map<string, Json> := map["$schema" := Str(d), user := Obj(map["allOf" := Arr([base, Obj(map[k := x])])]), name := base];
    var h: map<string, Json> := map["$schema" := Str(d), user := Obj(map["allOf" := Arr([base, Obj(map[k := y])])]), name := base];
    assert g[user] == Obj(map["allOf" := Arr([base, Obj(map[k := x])])]);
    assert h[user] == Obj(map["allOf" := Arr([base, Obj(map[k := y])])]);
    var a, b := [base, Obj(map[k := x])], [base, Obj(map[k := y])];
    if g == h {
      assert map["allOf" := Arr(a)]["allOf"] == map["allOf" := Arr(b)]["allOf"];
      assert a[1] == b[1];
      assert map[k := x][k] == map[k := y][k];
    }
  }

  // Under draft-07 the constraint is not there, whatever it says.
  lemma ConstraintIsIgnored(user: string, name: string, base: Json, k: string, x: Json, less: (Json, Json) -> bool)
    requires Apart(user, name, k) && StrictOrder(less)
    requires Canonical(base, user, less) && Canonical(base, name, less) && Refs(x) == {}
    ensures Canonicalize(Constrained("http://json-schema.org/draft-07/schema#", user, name, base, k, x), 1, less)
         == Ok(Obj(map["$schema" := Str("http://json-schema.org/draft-07/schema#"), user := base, name := base]))
  {
    hide Path, SortItems, Local, Tokens, Visit, Refs, Plain, Resolve, Canonical, StrictOrder;
    var dialect := "http://json-schema.org/draft-07/schema#";
    var schema := Constrained(dialect, user, name, base, k, x);
    var c, r := ContextOf(schema, less), "#" + Path([name]);
    var f: map<string, Json> := map["$ref" := Str(r), k := x];
    ConstrainedResolves(dialect, user, name, base, k, x);
    KeptThree(user, name, k);
    assert schema[user] == Obj(f) && schema["$schema"] == Str(dialect);
    FieldRefs(schema, user);
    assert f["$ref"] == Str(r) && k in f.Keys;
    SiblingsDoNotCount(schema, less, f, {}, user, base);
    CanonicalHasNoRefs(base, name, less);
    CanonicalIsFixed(c, base, {} + {r}, user);
    CanonicalIsFixed(c, base, {}, name);
    NoRefsIn(dialect);
    VisitText(c, dialect, {}, "$schema");
    VisitFields(c, schema, map["$schema" := Str(dialect), user := base, name := base], {}, "");
  }

  /******* What visit does to a part *******/

  // Of an object that is no reference exactly these nine keys vanish; every other is visited.
  lemma KeysKept(c: Context, f: map<string, Json>, stack: set<string>, field: string)
    requires ("$ref" in f ==> f["$ref"] == Null) && Refs(Obj(f)) <= Refs(c.root) && Visit(c, Obj(f), stack, field).Some?
    ensures var r := Visit(c, Obj(f), stack, field).value;
      && r.Obj?
      && r.fields.Keys == f.Keys
           - {"title", "description", "examples", "$comment", "default", "deprecated", "readOnly", "$defs", "definitions"}
      && forall k <- r.fields :: Refs(f[k]) <= Refs(c.root) && Visit(c, f[k], stack, k) == Some(r.fields[k])
  {
    hide VisitReference, SortItems;
    var r := Visit(c, Obj(f), stack, field).value;
    forall k | k in r.fields ensures Refs(f[k]) <= Refs(c.root) && Visit(c, f[k], stack, k) == Some(r.fields[k]) {
      FieldRefs(f, k);
    }
  }

  // An array keeps its order, except in the three fields where it is sorted; its items are visited.
  lemma ItemsKept(c: Context, xs: seq<Json>, stack: set<string>, field: string)
    requires Refs(Arr(xs)) <= Refs(c.root) && Visit(c, Arr(xs), stack, field).Some? && StrictOrder(c.less)
    ensures forall i | 0 <= i < |xs| :: Refs(xs[i]) <= Refs(c.root) && Visit(c, xs[i], stack, "").Some?
    ensures var r, visited := Visit(c, Arr(xs), stack, field).value,
                              seq(|xs|, i requires 0 <= i < |xs| && Refs(xs[i]) <= Refs(c.root) && Visit(c, xs[i], stack, "").Some?
                                        => Visit(c, xs[i], stack, "").value);
      && r.Arr?
      && (field !in {"required", "enum", "type"} ==> r.items == visited)
      && (field in {"required", "enum", "type"} ==> multiset(r.items) == multiset(visited) && SortedItems(r.items, c.less))
  {
    hide SortItems, SortedItems, StrictOrder;
    ListItems(c, xs, stack, field);
    var visited := seq(|xs|, i requires 0 <= i < |xs| && Refs(xs[i]) <= Refs(c.root) && Visit(c, xs[i], stack, "").Some?
                             => Visit(c, xs[i], stack, "").value);
    var items := seq(|xs|, i requires 0 <= i < |xs| => Visit(c, xs[i], stack, "").value);
    assert visited == items;
    SortItemsSorts(items, c.less);
  }

  // A float that is a whole number becomes that integer.
  lemma WholeFloat(c: Context, n: int, stack: set<string>, field: string)
    ensures Refs(Real(n as real)) <= Refs(c.root) && Visit(c, Real(n as real), stack, field) == Some(Int(n))
  {
  }

  // Every other scalar stays what it is.
  lemma ScalarsKept(c: Context, v: Json, stack: set<string>, field: string)
    requires !v.Obj? && !v.Arr? && (v.Real? ==> v.r != v.r.Floor as real)
    ensures Refs(v) <= Refs(c.root) && Visit(c, v, stack, field) == Some(v)
  {
  }

  // The three ways to be refused, in their order.
  lemma Refusals(schema: map<string, Json>, version: int, less: (Json, Json) -> bool)
    ensures var dialects := {"https://json-schema.org/draft/2020-12/schema", "http://json-schema.org/draft-07/schema#", ""};
      var known := "$schema" !in schema || (schema["$schema"].Str? && schema["$schema"].s in dialects);
      var r := Canonicalize(schema, version, less);
      && (r == Err(UnsupportedVersion) <==> version != 1)
      && (r == Err(UnsupportedDialect) <==> version == 1 && !known)
      && (r == Err(BadReference) <==> version == 1 && known && !AllClear(ContextOf(schema, less), Obj(schema), {}))
  {
    hide Visit, AllClear;
    ResultIffClear(ContextOf(schema, less), Obj(schema), {}, "");
  }

  /******* Where canonical forms say less or more than the schema *******/

  lemma VisitStrings(c: Context, xs: seq<Json>, stack: set<string>, field: string)
    requires Refs(Arr(xs)) <= Refs(c.root) && forall x <- xs :: x.Str?
    ensures Visit(c, Arr(xs), stack, field) == Some(Arr(if field in ORDER_INSENSITIVE then SortItems(xs, c.less) else xs))
  {
    hide SortItems;
    VisitList(c, xs, stack, field);
    forall i | 0 <= i < |xs| ensures Map(ValueOf(c, stack), xs)[i] == xs[i] { assert xs[i] in xs; }
    assert Map(ValueOf(c, stack), xs) == xs;
  }

  // An ordinary key of a schema.
  predicate Plain(k: string) {
    k !in DROPPED && k != REF && k != "$schema"
  }

  lemma VisitFields(c: Context, f: map<string, Json>, g: map<string, Json>, stack: set<string>, field: string)
    requires REF !in f && Refs(Obj(f)) <= Refs(c.root) && g.Keys == f.Keys - DROPPED
    requires forall k <- g :: Refs(f[k]) <= Refs(c.root) && Visit(c, f[k], stack, k) == Some(g[k])
    ensures Visit(c, Obj(f), stack, field) == Some(Obj(g))
  {
    hide SortItems, VisitReference;
    assert Visit(c, Obj(f), stack, field).Some?;
    assert Visit(c, Obj(f), stack, field).value.fields == g;
  }

  lemma VisitField(c: Context, k: string, x: Json, y: Json, stack: set<string>, field: string)
    requires Plain(k) && Refs(x) <= Refs(c.root) && Visit(c, x, stack, k) == Some(y)
    ensures Refs(Obj(map[k := x])) <= Refs(c.root)
    ensures Visit(c, Obj(map[k := x]), stack, field) == Some(Obj(map[k := y]))
  {
    hide Visit;
    var f: map<string, Json>, g: map<string, Json> := map[k := x], map[k := y];
    assert f[k] == x && f.Keys == {k} && g.Keys == f.Keys - DROPPED;
    assert Refs(Obj(f)) == Refs(f[k]);
    VisitFields(c, f, g, stack, field);
  }

  function Listing(list: string, xs: seq<Json>): Json {
    Obj(map[list := Arr(xs)])
  }

  // The list `xs` under `owner`, and a reference that picks it out under `user`.
  function Picked(owner: string, list: string, user: string, xs: seq<Json>): map<string, Json> {
    map[owner := Listing(list, xs), user := Obj(map[REF := Str("#" + Path([owner, list]))])]
  }

  predicate Pickable(owner: string, list: string, user: string, xs: seq<Json>) {
    && Plain(owner) && Plain(list) && Plain(user) && owner != user
    && list in ORDER_INSENSITIVE && user !in ORDER_INSENSITIVE && forall x <- xs :: x.Str?
  }

  lemma PickedResolves(owner: string, list: string, user: string, xs: seq<Json>)
    requires owner != user
    ensures var r := "#" + Path([owner, list]);
      Local(r) && Resolve(Obj(Picked(owner, list, user, xs)), Tokens(r)) == Some(Arr(xs))
  {
    hide Path, Local, Tokens, Resolve;
    var v, keys := Obj(Picked(owner, list, user, xs)), [owner, list];
    PointerReachesPath(v, keys);
    assert keys[1..] == [list] && keys[1..][1..] == [];
    assert At(v, keys) == At(Listing(list, xs), [list]);
    assert At(Listing(list, xs), [list]) == At(Arr(xs), []);
  }

  lemma StringsHaveNoRefs(xs: seq<Json>)
    requires forall x <- xs :: x.Str?
    ensures Refs(Arr(xs)) == {}
  {
  }

  // The form of such a schema: in its own place the list is sorted, where it is picked to it
  // keeps the order it was written in.
  lemma PickedListKeepsOrder(owner: string, list: string, user: string, xs: seq<Json>, less: (Json, Json) -> bool)
    requires Pickable(owner, list, user, xs)
    ensures Canonicalize(Picked(owner, list, user, xs), 1, less)
         == Ok(Obj(map[owner := Listing(list, SortItems(xs, less)), user := Arr(xs)]))
  {
    hide Path, SortItems, Local, Tokens, Visit, Refs, Plain, Listing, Resolve;
    var f := Picked(owner, list, user, xs);
    var c, r := ContextOf(f, less), "#" + Path([owner, list]);
    PickedResolves(owner, list, user, xs);
    StringsHaveNoRefs(xs);
    RefOfReference(r);
    FieldRefs(f, user);
    OneReference(c, r, {}, user);
    VisitStrings(c, xs, {r}, user);
    VisitStrings(c, xs, {}, list);
    VisitListing(c, list, xs, SortItems(xs, less), owner);
    var g := map[owner := Listing(list, SortItems(xs, less)), user := Arr(xs)];
    PlainKeys(owner, user);
    assert {r} == {} + {r};
    VisitFields(c, f, g, {}, "");
  }

  lemma PlainKeys(owner: string, user: string)
    requires Plain(owner) && Plain(user)
    ensures {owner, user} - DROPPED == {owner, user} && REF !in {owner, user} && "$schema" !in {owner, user}
  {
  }

  lemma VisitListing(c: Context, list: string, xs: seq<Json>, ys: seq<Json>, field: string)
    requires Plain(list) && Refs(Arr(xs)) <= Refs(c.root) && Visit(c, Arr(xs), {}, list) == Some(Arr(ys))
    ensures Refs(Listing(list, xs)) <= Refs(c.root) && Visit(c, Listing(list, xs), {}, field) == Some(Listing(list, ys))
  {
    hide Visit, Refs, Plain;
    VisitField(c, list, Arr(xs), Arr(ys), {}, field);
  }

  // So for a picked list the proviso is exact: two orders of it are two spellings of one schema,
  // and their forms agree only if the orders do.
  lemma PickedFormsAgreeOnlyIfEqual(owner: string, list: string, user: string, xs: seq<Json>, ys: seq<Json>,
                                    less: (Json, Json) -> bool)
    requires Pickable(owner, list, user, xs) && Pickable(owner, list, user, ys) && multiset(xs) == multiset(ys)
    ensures Alike(Listing(list, xs), Listing(list, ys), owner)
    ensures CarriesOrder(Obj(Picked(owner, list, user, xs)), "#" + Path([owner, list]))
    ensures Canonicalize(Picked(owner, list, user, xs), 1, less) == Canonicalize(Picked(owner, list, user, ys), 1, less)
       <==> xs == ys
  {
    hide Canonicalize, Path, SortItems, Plain, Local, Resolve, Split, Unescape;
    PickedListKeepsOrder(owner, list, user, xs, less);
    PickedListKeepsOrder(owner, list, user, ys, less);
    var f: map<string, Json> := map[owner := Listing(list, SortItems(xs, less)), user := Arr(xs)];
    var g: map<string, Json> := map[owner := Listing(list, SortItems(ys, less)), user := Arr(ys)];
    assert f[user] == Arr(xs) && g[user] == Arr(ys);
    ListingsAlike(owner, list, xs, ys);
    PickedResolves(owner, list, user, xs);
    LastToken(owner, list);
  }

  lemma ListingsAlike(owner: string, list: string, xs: seq<Json>, ys: seq<Json>)
    requires multiset(xs) == multiset(ys) && list in ORDER_INSENSITIVE && forall y <- ys :: y.Str?
    ensures Alike(Listing(list, xs), Listing(list, ys), owner)
  {
    forall i | 0 <= i < |ys| ensures ys[i] in xs { assert ys[i] in multiset(xs); }
    assert Pairwise(xs, ys, ys);
    assert Alike(Arr(xs), Arr(ys), list);
  }

  lemma LastToken(owner: string, list: string)
    ensures var r := "#" + Path([owner, list]); Local(r) && Unescape(Tokens(r)[|Tokens(r)| - 1]) == list
  {
    hide Encode, Unescape, Split;
    var keys := [owner, list];
    PathTokens(keys);
    assert keys[1..] == [list];
    PathTokens([list]);
    TokenRoundTrip(list);
    assert ("#" + Path(keys))[2..] == Path(keys)[1..];
  }

  // A property that happens to bear the name of an annotation ("title", say) is dropped with the
  // annotations: equal forms do not mean equivalent schemas.
  lemma PropertyNamedLikeAnnotationVanishes(holder: string, name: string, x: Json, less: (Json, Json) -> bool)
    requires Plain(holder) && name in DROPPED && name != REF && Refs(x) == {}
    ensures Canonicalize(map[holder := Obj(map[name := x])], 1, less) == Ok(Obj(map[holder := Obj(map[])]))
  {
    hide Visit, Refs, Plain;
    var inner: map<string, Json> := map[name := x];
    var f: map<string, Json> := map[holder := Obj(inner)];
    var c := ContextOf(f, less);
    PlainKeys(holder, holder);
    AloneRefs(name, x);
    AloneRefs(holder, Obj(inner));
    VisitFields(c, inner, map[], {}, holder);
    VisitField(c, holder, Obj(inner), Obj(map[]), {}, "");
  }

  lemma AloneRefs(k: string, x: Json)
    requires k != REF
    ensures Refs(Obj(map[k := x])) == Refs(x)
  {
    var f: map<string, Json> := map[k := x];
    assert f[k] == x;
  }
}
