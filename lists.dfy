/** Python's list.remove on sequences: drop the first element equal to x. */
module Lists {

  /** list.remove(x): removes the first occurrence of x; the caller must ensure x is present. */
  function RemoveFirst<T(==)>(s: seq<T>, x: T): (r: seq<T>)
    requires x in s
    ensures |r| == |s| - 1
    ensures multiset(r) + multiset{x} == multiset(s)
  {
    assert s == [s[0]] + s[1..];
    if s[0] == x then s[1..] else [s[0]] + RemoveFirst(s[1..], x)
  }

  /** When i is the first index holding x, list.remove(x) removes exactly position i. */
  lemma {:induction false} RemoveFirstAt<T>(s: seq<T>, x: T, i: nat)
    requires i < |s| && s[i] == x
    requires forall j :: 0 <= j < i ==> s[j] != x
    ensures RemoveFirst(s, x) == s[..i] + s[i + 1..]
  {
    if i > 0 {
      RemoveFirstAt(s[1..], x, i - 1);
      assert s[1..][..i - 1] + s[1..][i..] == s[1..i] + s[i + 1..];
      assert [s[0]] + s[1..i] == s[..i];
    }
  }

  /** Removing either of the first two entries leaves the other one in front of the rest. */
  lemma {:induction false} RemoveOneOfFirstTwo<T>(s: seq<T>, k: nat)
    requires |s| >= 2 && k < 2
    ensures RemoveFirst(s, s[k]) == [s[1 - k]] + s[2..]
  {
    var x := s[k];
    if k == 0 || s[0] == s[1] {
      RemoveFirstAt(s, x, 0);
      assert s[..0] + s[1..] == s[1..];
      assert s[1..] == [s[1]] + s[2..];
    } else {
      RemoveFirstAt(s, x, 1);
      assert s[..1] == [s[0]];
    }
  }
}
