/** The JavaScript array methods the client relies on: `map`, `findIndex`, `find`, `some` and `filter`. */
module Listes {
  import opened Wrappers

  /** `s.map(f)`: one image per element, in order. */
  function Map<T, U>(s: seq<T>, f: T -> U): (r: seq<U>)
    ensures |r| == |s| && forall i :: 0 <= i < |s| ==> r[i] == f(s[i])
  {
    seq(|s|, i requires 0 <= i < |s| => f(s[i]))
  }

  /** `s.findIndex(p)`: the first index whose element satisfies `p`, or -1. */
  function FindIndex<T>(s: seq<T>, p: T -> bool): (k: int)
    ensures -1 <= k < |s|
    ensures k >= 0 ==> p(s[k]) && forall j :: 0 <= j < k ==> !p(s[j])
    ensures k == -1 ==> forall j :: 0 <= j < |s| ==> !p(s[j])
  {
    if s == [] then -1
    else if p(s[0]) then 0
    else
      var k := FindIndex(s[1..], p);
      if k == -1 then -1 else k + 1
  }

  /** `s.find(p)`: the first element satisfying `p`, or `undefined`. */
  function Find<T>(s: seq<T>, p: T -> bool): (r: Option<T>)
    ensures r.Some? ==> r.value in s && p(r.value)
    ensures r.None? <==> forall j :: 0 <= j < |s| ==> !p(s[j])
  {
    var k := FindIndex(s, p);
    if k < 0 then None else Some(s[k])
  }

  /** `s.some(p)`. */
  function Exists<T>(s: seq<T>, p: T -> bool): (b: bool)
    ensures b <==> exists j :: 0 <= j < |s| && p(s[j])
  {
    if s == [] then false
    else
      assert forall j :: 1 <= j < |s| ==> s[j] == s[1..][j - 1];
      p(s[0]) || Exists(s[1..], p)
  }

  /**
   * `s.filter(p)`: the elements satisfying `p`, each as often as in `s`, in
   * their original order (a subsequence: `Filter(s, p)` of a suffix is a
   * suffix of the result).
   */
  function Filter<T(==,!new)>(s: seq<T>, p: T -> bool): (r: seq<T>)
    ensures |r| <= |s|
    ensures forall x :: multiset(r)[x] == if p(x) then multiset(s)[x] else 0
    ensures forall x :: x in r <==> x in s && p(x)
  {
    if s == [] then []
    else
      assert s == [s[0]] + s[1..];
      var rest := Filter(s[1..], p);
      if p(s[0]) then [s[0]] + rest else rest
  }

  /** `filter` keeps order: filtering a concatenation concatenates the filtered parts. */
  lemma {:induction false} FilterConcat<T(!new)>(a: seq<T>, b: seq<T>, p: T -> bool)
    ensures Filter(a + b, p) == Filter(a, p) + Filter(b, p)
  {
    if a == [] {
      assert a + b == b;
    } else {
      FilterConcat(a[1..], b, p);
      FilterConcatTete(a[0], a[1..], a, b, p);
    }
  }

  /** The step of `FilterConcat`: from the tail `q` of `a` to `a` itself. */
  lemma FilterConcatTete<T(!new)>(x: T, q: seq<T>, a: seq<T>, b: seq<T>, p: T -> bool)
    requires a == [x] + q
    requires Filter(q + b, p) == Filter(q, p) + Filter(b, p)
    ensures Filter(a + b, p) == Filter(a, p) + Filter(b, p)
  {
    var c := q + b;
    Associe([x], q, b);
    if p(x) {
      ConcatGarde(x, c, q, Filter(c, p), Filter(q, p), Filter(b, p), p);
    } else {
      FilterRejet(x, c, p);
      FilterRejet(x, q, p);
    }
  }

  /** The step when the head is kept: it stays in front on both sides. */
  lemma ConcatGarde<T(!new)>(x: T, c: seq<T>, q: seq<T>, fc: seq<T>, fq: seq<T>, fb: seq<T>, p: T -> bool)
    requires p(x) && fc == Filter(c, p) && fq == Filter(q, p) && fc == fq + fb
    ensures Filter([x] + c, p) == Filter([x] + q, p) + fb
  {
    FilterGarde(x, c, p);
    FilterGarde(x, q, p);
    Associe([x], fq, fb);
  }

  /** Concatenation is associative (kept apart so the step lemmas stay cheap). */
  lemma Associe<T>(u: seq<T>, v: seq<T>, w: seq<T>)
    ensures u + (v + w) == (u + v) + w
  {
  }

  /** `filter` keeps a satisfying head in front. */
  lemma FilterGarde<T(!new)>(x: T, s: seq<T>, p: T -> bool)
    requires p(x)
    ensures Filter([x] + s, p) == [x] + Filter(s, p)
  {
    assert ([x] + s)[0] == x && ([x] + s)[1..] == s;
  }

  /** `filter` drops a head that fails `p`. */
  lemma FilterRejet<T(!new)>(x: T, s: seq<T>, p: T -> bool)
    requires !p(x)
    ensures Filter([x] + s, p) == Filter(s, p)
  {
    assert ([x] + s)[0] == x && ([x] + s)[1..] == s;
  }

  /** On one element `filter` keeps it exactly when it satisfies `p`. */
  lemma FilterUn<T(!new)>(x: T, p: T -> bool)
    ensures Filter([x], p) == if p(x) then [x] else []
  {
    assert [x][1..] == [];
  }

  /** The first element `filter` keeps is the one `find` returns. */
  lemma {:induction false} FilterHeadIsFind<T(!new)>(s: seq<T>, p: T -> bool)
    ensures Filter(s, p) != [] <==> Find(s, p).Some?
    ensures Filter(s, p) != [] ==> Filter(s, p)[0] == Find(s, p).value
  {
    if s != [] && !p(s[0]) {
      FilterHeadIsFind(s[1..], p);
      assert FindIndex(s, p) == (if FindIndex(s[1..], p) == -1 then -1 else FindIndex(s[1..], p) + 1);
    }
  }
}
