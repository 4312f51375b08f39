/** Generic sequence utilities shared by the controls: Ruby's `Array#uniq` and `Array#flatten`,
    and element-wise and block-wise maps with their concatenation laws. */
module Seqs {

  /** No element occurs twice. */
  predicate Distinct<T(==)>(s: seq<T>)
  {
    forall i, j :: 0 <= i < j < |s| ==> s[i] != s[j]
  }

  /** The position of the first occurrence of `x` in `s`. */
  function FirstIndex<T(==)>(s: seq<T>, x: T): (k: nat)
    requires x in s
    ensures k < |s| && s[k] == x && x !in s[..k]
  {
    if s[0] == x then 0
    else
      assert s == [s[0]] + s[1..];
      1 + FirstIndex(s[1..], x)
  }

  /** The first occurrence is the only position holding `x` with no earlier `x`. */
  lemma FirstIndexUnique<T>(s: seq<T>, x: T, i: nat)
    requires i < |s| && s[i] == x && x !in s[..i]
    ensures FirstIndex(s, x) == i
  {
    var k := FirstIndex(s, x);
    forall j | 0 <= j < k
      ensures s[j] != x
    {
      assert s[j] == s[..k][j];
    }
    forall j | 0 <= j < i
      ensures s[j] != x
    {
      assert s[j] == s[..i][j];
    }
  }

  /** Extending a sequence does not move the first occurrence of an element it already holds. */
  lemma FirstIndexOfPrefix<T>(s: seq<T>, n: nat, x: T)
    requires n <= |s| && x in s[..n]
    ensures FirstIndex(s, x) == FirstIndex(s[..n], x)
  {
    var k := FirstIndex(s[..n], x);
    assert s[..k] == s[..n][..k];
    FirstIndexUnique(s, x, k);
  }

  /** `Array#uniq`: the first occurrence of every element, in order of first occurrence. */
  function Uniq<T(==,!new)>(s: seq<T>): (r: seq<T>)
    ensures forall x :: x in r <==> x in s
    ensures Distinct(r)
    ensures |r| <= |s|
    ensures forall i, j :: 0 <= i < j < |r| ==> FirstIndex(s, r[i]) < FirstIndex(s, r[j])
  {
    if s == [] then []
    else
      var init := s[..|s| - 1];
      var u := Uniq(init);
      var last := s[|s| - 1];
      assert s == init + [last];
      UniqOrderStep(s, u);
      if last in u then u else u + [last]
  }

  /** The step of `Uniq`'s order: the elements kept from the prefix keep their first
      positions, and a new last element comes after all of them. */
  lemma UniqOrderStep<T>(s: seq<T>, u: seq<T>)
    requires |s| > 0
    requires forall x :: x in u <==> x in s[..|s| - 1]
    requires forall i :: 0 <= i < |u| ==> u[i] in s[..|s| - 1] && u[i] in s
    requires forall i, j :: 0 <= i < j < |u| ==> FirstIndex(s[..|s| - 1], u[i]) < FirstIndex(s[..|s| - 1], u[j])
    ensures forall i, j :: 0 <= i < j < |u| ==> FirstIndex(s, u[i]) < FirstIndex(s, u[j])
    ensures s[|s| - 1] !in u ==>
      forall i :: 0 <= i < |u| ==> FirstIndex(s, u[i]) < FirstIndex(s, s[|s| - 1])
  {
    var n := |s| - 1;
    forall i | 0 <= i < |u|
      ensures FirstIndex(s, u[i]) == FirstIndex(s[..n], u[i])
    {
      FirstIndexOfPrefix(s, n, u[i]);
    }
    if s[n] !in u {
      assert s[n] !in s[..n];
      FirstIndexUnique(s, s[n], n);
    }
  }

  /** Elements already present change nothing when they appear again. */
  lemma {:induction false} UniqIgnoresRepeats<T(!new)>(s: seq<T>, t: seq<T>)
    requires forall x :: x in t ==> x in s
    ensures Uniq(s + t) == Uniq(s)
    decreases |t|
  {
    if t == [] {
      assert s + t == s;
    } else {
      var shorter := t[..|t| - 1];
      assert (s + t)[..|s + t| - 1] == s + shorter;
      assert (s + t)[|s + t| - 1] == t[|t| - 1];
      UniqIgnoresRepeats(s, shorter);
    }
  }

  /** `Array#flatten` of a list of lists. */
  function Flatten<T>(lists: seq<seq<T>>): seq<T>
  {
    if lists == [] then [] else Flatten(lists[..|lists| - 1]) + lists[|lists| - 1]
  }

  /** `f` applied to each element of `xs`, in order. */
  function MapSeq<T, U>(f: T -> U, xs: seq<T>): seq<U>
  {
    if xs == [] then [] else MapSeq(f, xs[..|xs| - 1]) + [f(xs[|xs| - 1])]
  }

  lemma {:induction false} MapSeqShape<T, U>(f: T -> U, xs: seq<T>)
    ensures |MapSeq(f, xs)| == |xs|
    ensures forall i :: 0 <= i < |xs| ==> MapSeq(f, xs)[i] == f(xs[i])
  {
    if xs != [] {
      var init := xs[..|xs| - 1];
      MapSeqShape(f, init);
      assert forall i :: 0 <= i < |init| ==> init[i] == xs[i];
    }
  }

  lemma {:induction false} MapSeqAppend<T, U>(f: T -> U, first: seq<T>, second: seq<T>)
    ensures MapSeq(f, first + second) == MapSeq(f, first) + MapSeq(f, second)
    decreases |second|
  {
    if second == [] {
      assert first + second == first;
    } else {
      var shorter := second[..|second| - 1];
      assert (first + second)[..|first + second| - 1] == first + shorter;
      MapSeqAppend(f, first, shorter);
    }
  }

  /** The blocks `f` yields for each element of `xs`, one after the other. */
  function ConcatMap<T, U>(f: T -> seq<U>, xs: seq<T>): seq<U>
  {
    if xs == [] then [] else ConcatMap(f, xs[..|xs| - 1]) + f(xs[|xs| - 1])
  }

  lemma {:induction false} ConcatMapAppend<T, U>(f: T -> seq<U>, first: seq<T>, second: seq<T>)
    ensures ConcatMap(f, first + second) == ConcatMap(f, first) + ConcatMap(f, second)
    decreases |second|
  {
    if second == [] {
      assert first + second == first;
    } else {
      var shorter := second[..|second| - 1];
      assert (first + second)[..|first + second| - 1] == first + shorter;
      ConcatMapAppend(f, first, shorter);
    }
  }
}
