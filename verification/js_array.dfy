/** The two JavaScript array operations the game relies on when it removes a
    falling object: `Array.prototype.indexOf` (identity search, -1 when absent)
    and `Array.prototype.splice(start, 1)` (a negative start counts from the end). */
module JsArray {

  /** No element occurs twice (each falling object is a distinct JS object). */
  predicate Distinct<T(==)>(s: seq<T>) {
    forall i, j | 0 <= i < j < |s| :: s[i] != s[j]
  }

  /** `s.indexOf(x)`: the first position holding x, or -1. */
  function IndexOf<T(==)>(s: seq<T>, x: T): (r: int)
    ensures -1 <= r < |s|
    ensures r == -1 <==> x !in s
    ensures 0 <= r ==> s[r] == x && x !in s[..r]
  {
    if s == [] then -1
    else if s[0] == x then 0
    else
      var i := IndexOf(s[1..], x);
      if i == -1 then -1
      else
        assert s[..i + 1] == [s[0]] + s[1..][..i];
        i + 1
  }

  /** The position `splice` actually starts at for an array of length len. */
  function SpliceStart(len: nat, start: int): (a: nat)
    ensures a <= len
    ensures 0 <= start ==> a == (if start < len then start else len)
    ensures start < 0 && 0 <= len + start ==> a == len + start
  {
    if start < 0 then (if len + start < 0 then 0 else len + start)
    else if start < len then start
    else len
  }

  /** `s.splice(start, 1)`: the array left after deleting (at most) one element. */
  function Splice1<T>(s: seq<T>, start: int): (r: seq<T>)
    // a valid index: exactly that element goes, the rest keep their order
    ensures 0 <= start < |s| ==> r == s[..start] + s[start + 1..]
    // -1 (what indexOf returns for a missing element): the last element goes
    ensures start == -1 && s != [] ==> r == s[..|s| - 1]
    // never more than one element goes
    ensures |s| - 1 <= |r| <= |s|
  {
    var a := SpliceStart(|s|, start);
    if a < |s| then s[..a] + s[a + 1..] else s
  }

  /** Splicing keeps the elements before the start position where they were. */
  lemma SpliceKeepsPrefix<T>(s: seq<T>, start: int, m: nat)
    requires m <= SpliceStart(|s|, start)
    ensures m <= |Splice1(s, start)| && Splice1(s, start)[..m] == s[..m]
  {
    var a := SpliceStart(|s|, start);
    if a < |s| {
      assert Splice1(s, start)[..m] == (s[..a] + s[a + 1..])[..m] == s[..a][..m];
    }
  }

  /** Removing one element adds nothing and keeps a sequence free of repeats. */
  lemma SpliceKeepsDistinct<T>(s: seq<T>, start: int)
    requires Distinct(s)
    ensures Distinct(Splice1(s, start))
    ensures forall x | x in Splice1(s, start) :: x in s
  {
    var a := SpliceStart(|s|, start);
    var r := Splice1(s, start);
    if a < |s| {
      assert r == s[..a] + s[a + 1..];
      assert forall j | 0 <= j < |r| :: r[j] == s[if j < a then j else j + 1];
    }
  }

  /** In a sequence without repeats, indexOf finds an element exactly where it is. */
  lemma IndexOfDistinct<T>(s: seq<T>, k: nat)
    requires Distinct(s) && k < |s|
    ensures IndexOf(s, s[k]) == k
  {
  }
}
