/** Sequence helpers shared by the stages. */
module Seqs {

  /** The concatenation of a sequence of sequences, in order. */
  function Flatten<T>(cs: seq<seq<T>>): seq<T>
  {
    if cs == [] then [] else Flatten(cs[..|cs| - 1]) + cs[|cs| - 1]
  }

  lemma {:induction false} FlattenCons<T>(c: seq<T>, cs: seq<seq<T>>)
    ensures Flatten([c] + cs) == c + Flatten(cs)
    decreases |cs|
  {
    if cs != [] {
      var last := cs[|cs| - 1];
      assert ([c] + cs)[..|cs|] == [c] + cs[..|cs| - 1];
      FlattenCons(c, cs[..|cs| - 1]);
    }
  }

  lemma {:induction false} FlattenAppend<T>(a: seq<seq<T>>, b: seq<seq<T>>)
    ensures Flatten(a + b) == Flatten(a) + Flatten(b)
    decreases |b|
  {
    if b == [] {
      assert a + b == a;
    } else {
      var init, last := b[..|b| - 1], b[|b| - 1];
      assert (a + b)[..|a + b| - 1] == a + init;
      assert (a + b)[|a + b| - 1] == last;
      assert Flatten(a + b) == Flatten(a + init) + last;
      FlattenAppend(a, init);
      assert Flatten(b) == Flatten(init) + last;
    }
  }

  /** Sequences of length `size` flatten to `size` items apiece. */
  lemma {:induction false} FlattenLength<T>(cs: seq<seq<T>>, size: nat)
    requires forall i :: 0 <= i < |cs| ==> |cs[i]| == size
    ensures |Flatten(cs)| == |cs| * size
  {
    if cs != [] {
      FlattenLength(cs[..|cs| - 1], size);
      assert (|cs| - 1) * size + size == |cs| * size;
    }
  }

  /** The position of the first occurrence of `x` in `s`. */
  function IndexOf<T(==)>(s: seq<T>, x: T): (k: nat)
    requires x in s
    ensures k < |s| && s[k] == x
    ensures forall i :: 0 <= i < k ==> s[i] != x
  {
    if s[0] == x then 0
    else
      assert x in s[1..] by { var i :| 0 <= i < |s| && s[i] == x; assert s[1..][i - 1] == x; }
      1 + IndexOf(s[1..], x)
  }

  /** Cutting `s` keeps the first occurrence of what the cut still holds. */
  lemma IndexOfPrefix<T>(s: seq<T>, n: nat, x: T)
    requires n <= |s| && x in s[..n]
    ensures IndexOf(s, x) == IndexOf(s[..n], x)
  {
    var b := IndexOf(s[..n], x);
    assert s[b] == x;
  }

  /** The distinct elements of `s`, each at its first occurrence. */
  function Distinct<T(==)>(s: seq<T>): (r: seq<T>)
    ensures forall i :: 0 <= i < |s| ==> s[i] in r
    ensures forall i :: 0 <= i < |r| ==> r[i] in s
    ensures forall i, j :: 0 <= i < j < |r| ==> r[i] != r[j]
  {
    if s == [] then []
    else
      var init := Distinct(s[..|s| - 1]);
      assert forall i :: 0 <= i < |s| - 1 ==> s[i] == s[..|s| - 1][i];
      if s[|s| - 1] in init then init else init + [s[|s| - 1]]
  }

  /** Every element of `r` occurs in `s`, and `r` lists them in the order
      of their first occurrences in `s`. */
  ghost predicate InFirstOrder<T>(s: seq<T>, r: seq<T>)
  {
    && (forall i :: 0 <= i < |r| ==> r[i] in s)
    && forall i, j :: 0 <= i < j < |r| ==> IndexOf(s, r[i]) < IndexOf(s, r[j])
  }

  /** An order of first occurrences in a prefix is one in the whole. */
  lemma InFirstOrderPrefix<T>(s: seq<T>, n: nat, r: seq<T>)
    requires n <= |s| && InFirstOrder(s[..n], r)
    ensures InFirstOrder(s, r)
  {
    forall i | 0 <= i < |r| ensures r[i] in s && IndexOf(s, r[i]) == IndexOf(s[..n], r[i]) {
      IndexOfPrefix(s, n, r[i]);
    }
  }

  /** An element first occurring after all of `r` may follow it. */
  lemma InFirstOrderSnoc<T>(s: seq<T>, r: seq<T>, x: T)
    requires InFirstOrder(s, r) && x in s
    requires forall i :: 0 <= i < |r| ==> IndexOf(s, r[i]) < IndexOf(s, x)
    ensures InFirstOrder(s, r + [x])
  {
    var t := r + [x];
    forall i, j | 0 <= i < j < |t| ensures IndexOf(s, t[i]) < IndexOf(s, t[j]) {
      assert t[i] == r[i];
    }
  }

  /** `Distinct` keeps the order of first occurrences. */
  lemma {:induction false} DistinctOrdered<T>(s: seq<T>)
    ensures InFirstOrder(s, Distinct(s))
  {
    if s != [] {
      var n := |s| - 1;
      var init := Distinct(s[..n]);
      DistinctOrdered(s[..n]);
      InFirstOrderPrefix(s, n, init);
      if s[n] !in init {
        assert forall i :: 0 <= i < n ==> s[i] == s[..n][i];
        assert IndexOf(s, s[n]) == n;
        InFirstOrderSnoc(s, init, s[n]);
      }
    }
  }
}
