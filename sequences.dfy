/** Sequence helpers shared by the modules of this model: `List.Reverse` and `Array.Reverse`
    on values. */
module Sequences {

  /** The elements of s in the opposite order. */
  function Reversed<T>(s: seq<T>): (r: seq<T>)
    ensures |r| == |s|
    ensures forall i :: 0 <= i < |s| ==> r[i] == s[|s| - 1 - i]
  {
    seq(|s|, i requires 0 <= i < |s| => s[|s| - 1 - i])
  }

  lemma ReversedTwice<T>(s: seq<T>)
    ensures Reversed(Reversed(s)) == s
  {
    var r := Reversed(Reversed(s));
    forall i | 0 <= i < |s| ensures r[i] == s[i] {
      assert Reversed(s)[|s| - 1 - i] == s[i];
    }
  }

  /** Reversing keeps every element with its multiplicity. */
  lemma {:induction false} ReversedMultiset<T>(s: seq<T>)
    ensures multiset(Reversed(s)) == multiset(s)
    decreases |s|
  {
    if |s| > 0 {
      var t := s[1..];
      ReversedMultiset(t);
      assert Reversed(s) == Reversed(t) + [s[0]];
      assert s == [s[0]] + t;
    }
  }
}
