/** Counting and de-duplication over sequences, as the scripts' loops and `new Set(...)` use them. */
module Seqs {

  /** How many elements of `s` satisfy `p`. */
  function CountIf<T>(s: seq<T>, p: T -> bool): (n: nat)
    ensures n <= |s|
  {
    if |s| == 0 then 0 else CountIf(s[..|s| - 1], p) + (if p(s[|s| - 1]) then 1 else 0)
  }

  lemma CountIfAppend<T>(s: seq<T>, x: T, p: T -> bool)
    ensures CountIf(s + [x], p) == CountIf(s, p) + (if p(x) then 1 else 0)
  {
    assert (s + [x])[..|s + [x]| - 1] == s;
  }

  /** The first index of `x` in `s`. */
  function FirstIndex<T(==)>(s: seq<T>, x: T): (i: nat)
    requires x in s
    ensures i < |s| && s[i] == x && forall j :: 0 <= j < i ==> s[j] != x
  {
    if s[0] == x then 0 else 1 + FirstIndex(s[1..], x)
  }

  /** No element occurs twice. */
  predicate Distinct<T(==)>(s: seq<T>) {
    forall i, j :: 0 <= i < j < |s| ==> s[i] != s[j]
  }

  /** `[...new Set(s)]`: the elements of `s`, each once, in the order of their first occurrence. */
  function Dedup<T(==)>(s: seq<T>): seq<T> {
    if |s| == 0 then []
    else
      var r := Dedup(s[..|s| - 1]);
      if s[|s| - 1] in r then r else r + [s[|s| - 1]]
  }

  /** De-duplication keeps exactly the elements of the input, each once. */
  lemma {:induction false} DedupElements<T>(s: seq<T>)
    ensures Distinct(Dedup(s))
    ensures forall x :: x in Dedup(s) ==> x in s
    ensures forall x :: x in s ==> x in Dedup(s)
  {
    if |s| > 0 {
      var init := s[..|s| - 1];
      DedupElements(init);
      forall x ensures x in s <==> x in init || x == s[|s| - 1] {
        assert s == init + [s[|s| - 1]];
      }
    }
  }

  /** De-duplication orders the elements by their first occurrence in the input. */
  lemma {:induction false} DedupFirstOccurrenceOrder<T>(s: seq<T>, i: nat, j: nat)
    requires i < j < |Dedup(s)|
    ensures Dedup(s)[i] in s && Dedup(s)[j] in s
    ensures FirstIndex(s, Dedup(s)[i]) < FirstIndex(s, Dedup(s)[j])
  {
    DedupElements(s);
    assert Dedup(s)[i] in Dedup(s) && Dedup(s)[j] in Dedup(s);
    var init := s[..|s| - 1];
    var last := s[|s| - 1];
    var r := Dedup(init);
    DedupElements(init);
    assert s == init + [last];
    assert Dedup(s)[i] == r[i] && r[i] in r;
    assert r[i] in init;
    FirstIndexOfPrefix(init, last, r[i]);
    if j < |r| {
      assert Dedup(s)[i] == r[i] && Dedup(s)[j] == r[j];
      DedupFirstOccurrenceOrder(init, i, j);
      assert r[i] in init && r[j] in init;
      FirstIndexOfPrefix(init, last, r[j]);
    } else {
      // the last element was new: it first occurs at the end of s
      assert last !in r && Dedup(s) == r + [last];
      assert Dedup(s)[j] == last && last !in init;
      assert Dedup(s)[i] == r[i] && r[i] in r;
      assert forall k :: 0 <= k < |s| - 1 ==> s[k] == init[k];
      assert FirstIndex(s, last) == |s| - 1;
    }
  }

  /** A value found in a prefix keeps its first index in the extended sequence. */
  lemma FirstIndexOfPrefix<T>(s: seq<T>, y: T, x: T)
    requires x in s
    ensures x in s + [y] && FirstIndex(s + [y], x) == FirstIndex(s, x)
  {
    assert (s + [y])[FirstIndex(s, x)] == x;
  }
}
