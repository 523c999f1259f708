/** Generic sequence helpers standing for the JavaScript array methods the
    pages use: `map`, `filter` and `join`. */
module Collections {

  /** A value that may be absent (`undefined` in the source). */
  datatype Option<+T> = None | Some(value: T) {
    /** `x ?? default` and `x || default` for a value that is never falsy. */
    function GetOr(default: T): T {
      match this
      case Some(v) => v
      case None => default
    }
  }

  /** `s.map(f)`: one result per element, in the same order. */
  function Map<T, U>(s: seq<T>, f: T -> U): (r: seq<U>)
    ensures |r| == |s|
    ensures forall i :: 0 <= i < |s| ==> r[i] == f(s[i])
  {
    seq(|s|, i requires 0 <= i < |s| => f(s[i]))
  }

  /** `r` is `s` with some elements left out and the rest kept in order. */
  predicate IsSubsequence<T(==)>(r: seq<T>, s: seq<T>)
    decreases |s|
  {
    if r == [] then true
    else if s == [] then false
    else if r[0] == s[0] then IsSubsequence(r[1..], s[1..])
    else IsSubsequence(r, s[1..])
  }

  /** `s.filter(keep)`; `FilterSpec` states what it keeps. */
  function Filter<T(==, !new)>(s: seq<T>, keep: T -> bool): (r: seq<T>)
    ensures |r| <= |s|
  {
    if s == [] then []
    else
      var rest := Filter(s[1..], keep);
      if keep(s[0]) then [s[0]] + rest else rest
  }

  /** Filtering keeps exactly the elements that satisfy `keep`, each as
      often as in `s`, in their original relative order. */
  lemma {:induction false} FilterSpec<T(!new)>(s: seq<T>, keep: T -> bool)
    ensures forall x :: x in Filter(s, keep) <==> x in s && keep(x)
    ensures forall x :: multiset(Filter(s, keep))[x] == if keep(x) then multiset(s)[x] else 0
    ensures IsSubsequence(Filter(s, keep), s)
  {
    if s != [] {
      var rest := Filter(s[1..], keep);
      FilterSpec(s[1..], keep);
      assert s == [s[0]] + s[1..];
      if keep(s[0]) {
        assert ([s[0]] + rest)[1..] == rest;
      } else if rest != [] {
        assert rest[0] in rest;
      }
    }
  }

  /** When every element is kept, filtering changes nothing. */
  lemma {:induction false} FilterKeepsAll<T(!new)>(s: seq<T>, keep: T -> bool)
    requires forall i :: 0 <= i < |s| ==> keep(s[i])
    ensures Filter(s, keep) == s
  {
    if s != [] {
      FilterKeepsAll(s[1..], keep);
    }
  }

  /** Two tests that agree on every element filter alike. */
  lemma {:induction false} FilterSamePredicate<T(!new)>(s: seq<T>, p: T -> bool, q: T -> bool)
    requires forall x :: p(x) == q(x)
    ensures Filter(s, p) == Filter(s, q)
  {
    if s != [] {
      FilterSamePredicate(s[1..], p, q);
    }
  }

  lemma ConcatAssoc<T>(a: seq<T>, b: seq<T>, c: seq<T>)
    ensures a + (b + c) == (a + b) + c
  {
  }

  /** Filtering a non-empty list, one element at a time. */
  lemma FilterCons<T(!new)>(s: seq<T>, keep: T -> bool)
    requires s != []
    ensures Filter(s, keep) == (if keep(s[0]) then [s[0]] else []) + Filter(s[1..], keep)
  {
    if !keep(s[0]) {
      assert [] + Filter(s[1..], keep) == Filter(s[1..], keep);
    }
  }

  /** Filtering a list with one more element at the end. */
  lemma {:induction false} FilterAppend<T(!new)>(s: seq<T>, x: T, keep: T -> bool)
    ensures Filter(s + [x], keep) == Filter(s, keep) + (if keep(x) then [x] else [])
  {
    var t := s + [x];
    if s == [] {
      assert t == [x];
      FilterCons(t, keep);
      assert t[1..] == [];
    } else {
      assert t[0] == s[0] && t[1..] == s[1..] + [x];
      FilterAppend(s[1..], x, keep);
      FilterCons(t, keep);
      FilterCons(s, keep);
      ConcatAssoc(if keep(s[0]) then [s[0]] else [], Filter(s[1..], keep), if keep(x) then [x] else []);
    }
  }

  /** Mapping a concatenation maps each part. */
  lemma MapConcat<T, U>(a: seq<T>, b: seq<T>, f: T -> U)
    ensures Map(a + b, f) == Map(a, f) + Map(b, f)
  {
    assert forall i :: 0 <= i < |a + b| ==> Map(a + b, f)[i] == (Map(a, f) + Map(b, f))[i];
  }

  /** Filtering commutes with a map that never changes whether an element is kept. */
  lemma {:induction false} FilterMapCommute<T(!new)>(s: seq<T>, keep: T -> bool, f: T -> T)
    requires forall x :: keep(f(x)) == keep(x)
    ensures Filter(Map(s, f), keep) == Map(Filter(s, keep), f)
  {
    if s == [] {
      assert Map(s, f) == [];
    } else {
      var m := Map(s, f);
      assert m[0] == f(s[0]) && m[1..] == Map(s[1..], f);
      FilterCons(m, keep);
      FilterCons(s, keep);
      FilterMapCommute(s[1..], keep, f);
      var head := if keep(s[0]) then [s[0]] else [];
      MapConcat(head, Filter(s[1..], keep), f);
      assert Map(head, f) == if keep(s[0]) then [f(s[0])] else [];
    }
  }

  /** The sum of the weights `f` gives the elements of `s`. */
  function Sum<T>(s: seq<T>, f: T -> nat): nat
    decreases |s|
  {
    if s == [] then 0 else Sum(s[..|s| - 1], f) + f(s[|s| - 1])
  }

  /** The sum over a concatenation is the sum of the two sums. */
  lemma {:induction false} SumAppend<T>(a: seq<T>, b: seq<T>, f: T -> nat)
    ensures Sum(a + b, f) == Sum(a, f) + Sum(b, f)
    decreases |b|
  {
    if b == [] {
      assert a + b == a;
    } else {
      var init := b[..|b| - 1];
      assert (a + b)[..|a + b| - 1] == a + init;
      SumAppend(a, init, f);
    }
  }

  /** One more element adds exactly its own weight, and a longer prefix
      weighs at least as much. */
  lemma {:induction false} SumPrefix<T>(s: seq<T>, f: T -> nat, j: nat, k: nat)
    requires j < k <= |s|
    ensures Sum(s[..j + 1], f) == Sum(s[..j], f) + f(s[j])
    ensures Sum(s[..j + 1], f) <= Sum(s[..k], f)
  {
    assert s[..j + 1][..j] == s[..j];
    assert s[..k] == s[..j + 1] + s[j + 1..k];
    SumAppend(s[..j + 1], s[j + 1..k], f);
  }

  /** Elements that all weigh nothing sum to nothing. */
  lemma {:induction false} SumZero<T>(s: seq<T>, f: T -> nat)
    requires forall i :: 0 <= i < |s| ==> f(s[i]) == 0
    ensures Sum(s, f) == 0
    decreases |s|
  {
    if s != [] {
      SumZero(s[..|s| - 1], f);
    }
  }

  /** `parts.join(sep)`. */
  function Join(parts: seq<string>, sep: string): string
    decreases |parts|
  {
    if parts == [] then ""
    else if |parts| == 1 then parts[0]
    else parts[0] + sep + Join(parts[1..], sep)
  }
}
