/** JavaScript values as the client handles them, and the two object
    operations it relies on: reading a property and the shallow spread
    `{...a, ...b}`.

    An object is an ordered list of (key, value) pairs, the order being the
    insertion order that object spread preserves. A list with a repeated key
    denotes the object the literal `{k: 1, k: 2}` would build: the key keeps
    its first position and takes its last value. `Prop` therefore reads the
    last occurrence and `Assign` rewrites every occurrence. */
module JsValues {

  datatype Option<+T> = None | Some(value: T)

  /** The JavaScript values the client inspects. Numbers are integers here. */
  datatype Value =
    | Undefined
    | Null
    | Bool(b: bool)
    | Num(n: int)
    | Str(s: string)
    | Obj(props: seq<(string, Value)>)

  type Props = seq<(string, Value)>

  /** JavaScript truthiness (`if (v)`). */
  predicate Truthy(v: Value) {
    match v
    case Undefined => false
    case Null => false
    case Bool(b) => b
    case Num(n) => n != 0
    case Str(s) => s != ""
    case Obj(_) => true
  }

  /** The keys of an object, in order. */
  function KeySeq(p: Props): (ks: seq<string>)
    ensures |ks| == |p|
  {
    if p == [] then [] else KeySeq(p[..|p| - 1]) + [p[|p| - 1].0]
  }

  /** No key occurs twice: the object is written without repetitions. */
  predicate Distinct(ks: seq<string>) {
    forall i, j :: 0 <= i < j < |ks| ==> ks[i] != ks[j]
  }

  /** `p[k]`: the value of key k, or None when p has no such key. */
  function Prop(p: Props, k: string): (r: Option<Value>)
    ensures r.Some? <==> k in KeySeq(p)
    ensures r.Some? ==> (k, r.value) in p
  {
    if p == [] then None
    else if p[|p| - 1].0 == k then Some(p[|p| - 1].1)
    else Prop(p[..|p| - 1], k)
  }

  /** Reading a property: a missing key reads as `undefined`. */
  function Lookup(p: Props, k: string): Value {
    match Prop(p, k)
    case None => Undefined
    case Some(v) => v
  }

  /** The properties that spreading v contributes. Only objects contribute
      keys in this model; spreading a string, which would contribute its
      characters under index keys, is not modelled. */
  function OwnProps(v: Value): Props {
    if v.Obj? then v.props else []
  }

  /** Every occurrence of key k takes the value v. */
  function ReplaceAll(p: Props, k: string, v: Value): (r: Props)
    ensures KeySeq(r) == KeySeq(p)
  {
    if p == [] then []
    else
      var last := p[|p| - 1];
      var r := ReplaceAll(p[..|p| - 1], k, v) + [if last.0 == k then (k, v) else last];
      assert r[..|r| - 1] == ReplaceAll(p[..|p| - 1], k, v);
      r
  }

  lemma {:induction false} ReplaceAllProp(p: Props, k: string, v: Value, k': string)
    ensures Prop(ReplaceAll(p, k, v), k') == if k' == k && k in KeySeq(p) then Some(v) else Prop(p, k')
  {
    if p != [] {
      var r := ReplaceAll(p, k, v);
      assert r[..|r| - 1] == ReplaceAll(p[..|p| - 1], k, v);
      assert KeySeq(p) == KeySeq(p[..|p| - 1]) + [p[|p| - 1].0];
      ReplaceAllProp(p[..|p| - 1], k, v, k');
    }
  }

  /** `o[k] = v`: an existing key keeps its position, a new key goes last. */
  function Assign(p: Props, k: string, v: Value): (r: Props)
    ensures KeySeq(r) == if k in KeySeq(p) then KeySeq(p) else KeySeq(p) + [k]
    ensures Distinct(KeySeq(p)) ==> Distinct(KeySeq(r))
  {
    if k in KeySeq(p) then ReplaceAll(p, k, v)
    else
      var r := p + [(k, v)];
      assert r[..|r| - 1] == p;
      r
  }

  /** After `o[k] = v`, k reads v and every other key reads as before. */
  lemma {:induction false} AssignProp(p: Props, k: string, v: Value, k': string)
    ensures Prop(Assign(p, k, v), k') == if k' == k then Some(v) else Prop(p, k')
  {
    if k in KeySeq(p) {
      ReplaceAllProp(p, k, v, k');
    } else {
      var r := p + [(k, v)];
      assert r[..|r| - 1] == p;
    }
  }

  /** `{...a, ...b}`: the keys of a in their order, then the keys of b that a
      lacks, in b's order. */
  function Spread(a: Props, b: Props): (r: Props)
    ensures KeySeq(a) <= KeySeq(r)
    ensures Distinct(KeySeq(a)) ==> Distinct(KeySeq(r))
  {
    if b == [] then a
    else Assign(Spread(a, b[..|b| - 1]), b[|b| - 1].0, b[|b| - 1].1)
  }

  /** Last writer wins: a key of b reads as in b, any other key as in a; and
      the keys of the spread are those of a and those of b. */
  lemma {:induction false} SpreadProp(a: Props, b: Props, k: string)
    ensures Prop(Spread(a, b), k) == if k in KeySeq(b) then Prop(b, k) else Prop(a, k)
    ensures k in KeySeq(Spread(a, b)) <==> k in KeySeq(a) || k in KeySeq(b)
  {
    if b != [] {
      var init, last := b[..|b| - 1], b[|b| - 1];
      assert KeySeq(b) == KeySeq(init) + [last.0];
      SpreadProp(a, init, k);
      AssignProp(Spread(a, init), last.0, last.1, k);
    }
  }

  /** `const { k1, ..., kn, ...rest } = p`: the properties of p whose keys are
      not among the destructured ones, in their order. */
  function Omit(p: Props, ks: set<string>): (r: Props)
  {
    if p == [] then []
    else if p[|p| - 1].0 in ks then Omit(p[..|p| - 1], ks)
    else Omit(p[..|p| - 1], ks) + [p[|p| - 1]]
  }

  /** The rest lacks exactly the destructured keys; any other key reads as in p. */
  lemma {:induction false} OmitProp(p: Props, ks: set<string>, k: string)
    ensures Prop(Omit(p, ks), k) == if k in ks then None else Prop(p, k)
  {
    if p != [] {
      var init, last := p[..|p| - 1], p[|p| - 1];
      OmitProp(init, ks, k);
      if last.0 !in ks {
        var r := Omit(init, ks) + [last];
        assert r[..|r| - 1] == Omit(init, ks);
      }
    }
  }

  /** `sub` occurs in `s` starting at index i. */
  ghost predicate OccursAt(s: string, sub: string, i: int) {
    0 <= i && i + |sub| <= |s| && s[i..i + |sub|] == sub
  }

  /** `s.includes(sub)`. */
  function Includes(s: string, sub: string): bool
    decreases |s|
  {
    |sub| <= |s| && (s[..|sub|] == sub || Includes(s[1..], sub))
  }

  /** Includes decides whether sub is a substring of s. */
  lemma {:induction false} IncludesIsSubstring(s: string, sub: string)
    ensures Includes(s, sub) <==> exists i :: OccursAt(s, sub, i)
    decreases |s|
  {
    if |sub| <= |s| {
      if s[..|sub|] == sub {
        assert OccursAt(s, sub, 0);
      } else {
        IncludesIsSubstring(s[1..], sub);
        if Includes(s[1..], sub) {
          var i :| OccursAt(s[1..], sub, i);
          assert s[1..][i..i + |sub|] == s[i + 1..i + 1 + |sub|];
          assert OccursAt(s, sub, i + 1);
        }
        if exists i :: OccursAt(s, sub, i) {
          var i :| OccursAt(s, sub, i);
          assert i != 0;
          assert s[1..][i - 1..i - 1 + |sub|] == s[i..i + |sub|];
          assert OccursAt(s[1..], sub, i - 1);
        }
      }
    }
  }

  /** The number of occurrences of character c in s. */
  function Count(s: string, c: char): nat {
    if s == [] then 0 else (if s[0] == c then 1 else 0) + Count(s[1..], c)
  }

  lemma {:induction false} CountAppend(a: string, b: string, c: char)
    ensures Count(a + b, c) == Count(a, c) + Count(b, c)
  {
    if a == [] {
      assert a + b == b;
    } else {
      assert (a + b)[1..] == a[1..] + b;
      CountAppend(a[1..], b, c);
    }
  }
}
