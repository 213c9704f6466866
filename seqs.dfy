/** Array operations the components use: indexOf and removing one element. */
module Seqs {

  /** Array.prototype.indexOf: the first position of x, or -1. */
  function IndexOf<T(==)>(s: seq<T>, x: T): (i: int)
    ensures i == -1 <==> x !in s
    ensures i != -1 ==> 0 <= i < |s| && s[i] == x && x !in s[..i]
  {
    if s == [] then -1
    else if s[0] == x then 0
    else
      var k := IndexOf(s[1..], x);
      if k == -1 then -1
      else
        assert s[1..][..k] == s[1..k + 1];
        assert s[..k + 1] == [s[0]] + s[1..k + 1];
        k + 1
  }

  /**
   * Removes the first occurrence of x (the DOM's removeChild of a node that
   * is present): one fewer x, every other element kept, in the same order.
   */
  function Remove<T(==)>(s: seq<T>, x: T): (r: seq<T>)
    requires x in s
    ensures |r| == |s| - 1
    ensures forall j :: 0 <= j < |r| ==> r[j] == if j < IndexOf(s, x) then s[j] else s[j + 1]
  {
    var i := IndexOf(s, x);
    s[..i] + s[i + 1..]
  }

  /** Removing x takes away exactly one x and keeps every other element. */
  lemma RemoveMultiset<T>(s: seq<T>, x: T)
    requires x in s
    ensures multiset(Remove(s, x)) == multiset(s) - multiset{x}
  {
    var i := IndexOf(s, x);
    var before, after := s[..i], s[i + 1..];
    assert s == before + [x] + after;
    assert Remove(s, x) == before + after;
    assert multiset(s) == multiset(before) + multiset{x} + multiset(after);
  }
}
