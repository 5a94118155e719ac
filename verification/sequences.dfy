/** Sequence operations behind the JavaScript Array methods the model layer
    uses: `includes` (Dafny's `in`), `indexOf` and `splice(i, 1)`. Element
    equality is Dafny's `==`, which for class references is identity, as
    strict equality is for JavaScript objects. */
module Sequences {

  /** No element occurs twice. */
  predicate NoDuplicates<T(==)>(s: seq<T>) {
    forall i, j | 0 <= i < j < |s| :: s[i] != s[j]
  }

  /** `Array.prototype.indexOf`: the first index holding `x`, or -1 when
      there is none. */
  function IndexOf<T(==)>(s: seq<T>, x: T): (r: int)
    ensures -1 <= r < |s|
    ensures r == -1 <==> x !in s
    ensures 0 <= r ==> s[r] == x && x !in s[..r]
  {
    if |s| == 0 then -1
    else if s[0] == x then 0
    else
      var k := IndexOf(s[1..], x);
      if k == -1 then -1
      else
        assert s[..k + 1] == [s[0]] + s[1..][..k];
        k + 1
  }

  /** `Array.prototype.splice(i, 1)`: the sequence without the element at
      index `i`, everything else in its original order. */
  function RemoveAt<T>(s: seq<T>, i: nat): (r: seq<T>)
    requires i < |s|
    ensures |r| == |s| - 1
    ensures forall j | 0 <= j < i :: r[j] == s[j]
    ensures forall j | i <= j < |r| :: r[j] == s[j + 1]
    ensures multiset(r) == multiset(s) - multiset{s[i]}
  {
    assert s == s[..i] + [s[i]] + s[i + 1..];
    s[..i] + s[i + 1..]
  }

  /** Removing one element keeps a duplicate-free sequence duplicate-free,
      and the removed element no longer occurs in it. */
  lemma RemoveAtNoDuplicates<T>(s: seq<T>, i: nat)
    requires i < |s|
    ensures NoDuplicates(s) ==> NoDuplicates(RemoveAt(s, i)) && s[i] !in RemoveAt(s, i)
  {
    if !NoDuplicates(s) {
      return;
    }
    var r := RemoveAt(s, i);
    forall a, b | 0 <= a < b < |r|
      ensures r[a] != r[b]
    {
      var a' := if a < i then a else a + 1;
      var b' := if b < i then b else b + 1;
      assert r[a] == s[a'] && r[b] == s[b'] && a' < b';
    }
    forall j | 0 <= j < |r|
      ensures r[j] != s[i]
    {
      var j' := if j < i then j else j + 1;
      assert r[j] == s[j'] && j' != i;
    }
  }

  /** In a sequence without duplicates, the number of distinct elements is
      its length. */
  lemma {:induction false} DistinctCount<T>(s: seq<T>)
    ensures NoDuplicates(s) ==> |set x | x in s| == |s|
  {
    if |s| > 0 && NoDuplicates(s) {
      var t := s[..|s| - 1];
      var last := s[|s| - 1];
      assert NoDuplicates(t);
      DistinctCount(t);
      assert last !in t;
      assert (set x | x in s) == (set x | x in t) + {last};
    }
  }
}
