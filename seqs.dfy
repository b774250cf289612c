/** Sequence operations the orchestrator relies on: element-wise mapping,
    Python's `list.remove` (first occurrence), and selecting the entries of a
    recorded list by a per-entry success flag. */
module Seqs {

  /** `[f(x) for x in s]`, built by appending one element at a time. */
  function MapSeq<A, B>(f: A -> B, s: seq<A>): (r: seq<B>)
    ensures |r| == |s|
    ensures forall i :: 0 <= i < |s| ==> r[i] == f(s[i])
  {
    if s == [] then [] else MapSeq(f, s[..|s| - 1]) + [f(s[|s| - 1])]
  }

  /** Appending one element to the input appends its image to the output. */
  lemma MapSeqSnoc<A, B>(f: A -> B, s: seq<A>, x: A)
    ensures MapSeq(f, s + [x]) == MapSeq(f, s) + [f(x)]
  {
    assert (s + [x])[..|s|] == s;
  }

  predicate NoDuplicates<T(==)>(s: seq<T>) {
    forall i, j :: 0 <= i < j < |s| ==> s[i] != s[j]
  }

  /** The position `list.index(e)` returns: the first occurrence of `e`. */
  function FirstIndex<T(==)>(s: seq<T>, e: T): (i: nat)
    requires e in s
    ensures i < |s| && s[i] == e
    ensures e !in s[..i]
  {
    if s[0] == e then 0
    else
      var j := FirstIndex(s[1..], e);
      assert s[..j + 1] == [s[0]] + s[1..][..j];
      j + 1
  }

  /** `list.remove(e)`: drops the first occurrence of `e`; Python raises
      `ValueError` when `e` is absent, hence the precondition. */
  function RemoveFirst<T(==)>(s: seq<T>, e: T): (r: seq<T>)
    requires e in s
    ensures |r| == |s| - 1
    ensures multiset(r) == multiset(s) - multiset{e}
  {
    var i := FirstIndex(s, e);
    assert s == s[..i] + [e] + s[i + 1..];
    s[..i] + s[i + 1..]
  }

  /** Removing `x` from a list whose prefix `a` does not hold `x` removes
      exactly the `x` that follows `a`. */
  lemma RemoveFirstAfterPrefix<T>(a: seq<T>, x: T, b: seq<T>)
    requires x !in a
    ensures RemoveFirst(a + [x] + b, x) == a + b
  {
    var s := a + [x] + b;
    var i := FirstIndex(s, x);
    assert s[|a|] == x;
    assert s[..i] == a;
    assert s[i + 1..] == b;
  }

  /** Appending an id that is not yet recorded and then removing it
      restores the original list. */
  lemma AppendThenRemove<T>(s: seq<T>, e: T)
    requires e !in s
    ensures RemoveFirst(s + [e], e) == s
  {
    RemoveFirstAfterPrefix(s, e, []);
    assert s + [e] + [] == s + [e];
  }

  /** The entries of `s` whose flag is false, in order. */
  function Kept<T>(s: seq<T>, flags: seq<bool>): (r: seq<T>)
    requires |flags| == |s|
    ensures |r| <= |s|
    ensures forall x :: x in r ==> x in s
  {
    if s == [] then []
    else
      var n := |s| - 1;
      Kept(s[..n], flags[..n]) + (if flags[n] then [] else [s[n]])
  }

  /** The entries of `s` whose flag is true, in order. */
  function Removed<T>(s: seq<T>, flags: seq<bool>): (r: seq<T>)
    requires |flags| == |s|
    ensures |r| <= |s|
    ensures forall x :: x in r ==> x in s
  {
    if s == [] then []
    else
      var n := |s| - 1;
      Removed(s[..n], flags[..n]) + (if flags[n] then [s[n]] else [])
  }

  /** The flags split every list into what is kept and what is removed. */
  lemma {:induction false} KeptAndRemoved<T>(s: seq<T>, flags: seq<bool>)
    requires |flags| == |s|
    ensures multiset(Kept(s, flags)) + multiset(Removed(s, flags)) == multiset(s)
  {
    if s != [] {
      var n := |s| - 1;
      KeptAndRemoved(s[..n], flags[..n]);
      assert s == s[..n] + [s[n]];
    }
  }

  /** Every flag is set. */
  predicate AllSet(flags: seq<bool>) {
    forall i :: 0 <= i < |flags| ==> flags[i]
  }

  /** When every flag is set nothing is kept. */
  lemma {:induction false} AllRemoved<T>(s: seq<T>, flags: seq<bool>)
    requires |flags| == |s|
    requires AllSet(flags)
    ensures Kept(s, flags) == []
    ensures Removed(s, flags) == s
  {
    if s != [] {
      var n := |s| - 1;
      AllRemoved(s[..n], flags[..n]);
      assert s == s[..n] + [s[n]];
    }
  }

  /** Extending a prefix by one entry extends `Kept` and `Removed` by at
      most that entry. */
  lemma SelectStep<T>(s: seq<T>, flags: seq<bool>, i: nat)
    requires |flags| == |s| && i < |s|
    ensures Kept(s[..i + 1], flags[..i + 1])
         == Kept(s[..i], flags[..i]) + (if flags[i] then [] else [s[i]])
    ensures Removed(s[..i + 1], flags[..i + 1])
         == Removed(s[..i], flags[..i]) + (if flags[i] then [s[i]] else [])
  {
    assert s[..i + 1][..i] == s[..i];
    assert flags[..i + 1][..i] == flags[..i];
  }
}
