// Bounded-wildcard helpers: a producer read in a loop (sum), a consumer
// written in a loop (addNumbers), a count over two sets, and in-place swap and
// reverse on a list whose length they do not change (modelled as an array).

module WildcardExamples {
  import opened Wrappers
  import opened Exceptions
  import opened Text
  import Sequences

  // ------------------------------------------------------------------------ sum

  /** sum: the numbers' doubleValue()s added left to right. */
  method Sum(numbers: seq<real>) returns (sum: real)
    ensures sum == Sequences.Sum(numbers)
  {
    sum := 0.0;
    for i := 0 to |numbers|
      invariant sum == Sequences.Sum(numbers[..i])
    {
      assert numbers[..i + 1][..i] == numbers[..i];
      sum := sum + numbers[i];
    }
    assert numbers[..|numbers|] == numbers;
  }

  /** The test's lists: 1..5 sums to 15, and 1.1, 2.2, 3.3 to 6.6. */
  method SumRun() returns (integers: real, doubles: real)
    ensures integers == 15.0 && doubles == 6.6
  {
    var ints := [1.0, 2.0, 3.0, 4.0, 5.0];
    assert ints[..4] == [1.0, 2.0, 3.0, 4.0] && ints[..4][..3] == [1.0, 2.0, 3.0];
    assert [1.0, 2.0, 3.0][..2] == [1.0, 2.0] && [1.0, 2.0][..1] == [1.0];
    integers := Sum(ints);
    var ds := [1.1, 2.2, 3.3];
    assert ds[..2] == [1.1, 2.2] && [1.1, 2.2][..1] == [1.1];
    doubles := Sum(ds);
  }

  // ----------------------------------------------------------------- addNumbers

  /** The integers 1..n in increasing order. */
  function OneTo(n: nat): (r: seq<int>)
    ensures |r| == n
    ensures forall i :: 0 <= i < n ==> r[i] == i + 1
  {
    if n == 0 then [] else OneTo(n - 1) + [n]
  }

  /** addNumbers: the list's contents followed by 1, 2, 3, 4, 5 appended one at a time. */
  method AddNumbers(list: seq<int>) returns (added: seq<int>)
    ensures added == list + [1, 2, 3, 4, 5]
  {
    added := list;
    for i := 1 to 6
      invariant added == list + OneTo(i - 1)
    {
      added := added + [i];
    }
    assert OneTo(5) == [1, 2, 3, 4, 5];
  }

  // -------------------------------------------------------- numElementsInCommon

  /** numElementsInCommon: one per element of s1 that s2 contains. */
  method NumElementsInCommon<T>(s1: set<T>, s2: set<T>) returns (result: nat)
    ensures result == |s1 * s2|
  {
    result := 0;
    var remaining := s1;
    while remaining != {}
      invariant remaining <= s1
      invariant result == |(s1 - remaining) * s2|
      decreases |remaining|
    {
      var o :| o in remaining;
      var seen := (s1 - remaining) * s2;
      assert o !in seen;
      if o in s2 {
        assert (s1 - (remaining - {o})) * s2 == seen + {o};
        result := result + 1;
      } else {
        assert (s1 - (remaining - {o})) * s2 == seen;
      }
      remaining := remaining - {o};
    }
    assert s1 - remaining == s1;
  }

  /** The count does not depend on which set is iterated. */
  lemma CommonCountSymmetric<T>(s1: set<T>, s2: set<T>)
    ensures |s1 * s2| == |s2 * s1|
    ensures |s1 * s2| <= |s1| && |s1 * s2| <= |s2|
  {
    assert s1 * s2 == s2 * s1;
    assert s1 == s1 * s2 + (s1 - s2);
    assert s2 == s1 * s2 + (s2 - s1);
  }

  /** {"a", "b", "c"} and {"b", "c", "d"} share two elements. */
  method CommonRun() returns (common: nat)
    ensures common == 2
  {
    common := NumElementsInCommon({"a", "b", "c"}, {"b", "c", "d"});
    assert {"a", "b", "c"} * {"b", "c", "d"} == {"b", "c"};
  }

  // ----------------------------------------------------------------------- swap

  /** The list with the elements at i and j exchanged. */
  function Swapped<T>(s: seq<T>, i: int, j: int): seq<T>
    requires 0 <= i < |s| && 0 <= j < |s|
  {
    s[i := s[j]][j := s[i]]
  }

  /** Swapping exchanges i and j, keeps every other position and every element. */
  lemma SwappedExchanges<T>(s: seq<T>, i: int, j: int)
    requires 0 <= i < |s| && 0 <= j < |s|
    ensures |Swapped(s, i, j)| == |s|
    ensures Swapped(s, i, j)[i] == s[j] && Swapped(s, i, j)[j] == s[i]
    ensures forall k :: 0 <= k < |s| && k != i && k != j ==> Swapped(s, i, j)[k] == s[k]
    ensures multiset(Swapped(s, i, j)) == multiset(s)
  {
  }

  /** Swapping twice restores the list, and swapping a position with itself changes nothing. */
  lemma SwapTwiceRestores<T>(s: seq<T>, i: int, j: int)
    requires 0 <= i < |s| && 0 <= j < |s|
    ensures Swapped(Swapped(s, i, j), i, j) == s
    ensures Swapped(s, i, i) == s
  {
  }

  /** The message of the IndexOutOfBoundsException an ArrayList access throws. */
  function OutOfBounds(index: int, length: int): Exception {
    IndexOutOfBounds("Index " + IntToString(index) + " out of bounds for length " + IntToString(length))
  }

  /**
   * swap: get(i) is evaluated first, then set(j, ...), then set(i, ...); an
   * index outside the list throws before anything is written.
   */
  method Swap<T>(list: array<T>, i: int, j: int) returns (r: Outcome<Exception>)
    modifies list
    ensures !(0 <= i < list.Length) ==> r == Fail(OutOfBounds(i, list.Length))
    ensures 0 <= i < list.Length && !(0 <= j < list.Length) ==> r == Fail(OutOfBounds(j, list.Length))
    ensures r.Fail? ==> list[..] == old(list[..])
    ensures 0 <= i < list.Length && 0 <= j < list.Length ==>
      r == Pass && list[..] == Swapped(old(list[..]), i, j)
  {
    if !(0 <= i < list.Length) {
      return Fail(OutOfBounds(i, list.Length));
    }
    var atI := list[i];
    if !(0 <= j < list.Length) {
      return Fail(OutOfBounds(j, list.Length));
    }
    var atJ := list[j];
    list[j] := atI;
    list[i] := atJ;
    r := Pass;
  }

  // -------------------------------------------------------------------- reverse

  /** The list back to front. */
  function Reversed<T>(s: seq<T>): seq<T> {
    if s == [] then [] else [s[|s| - 1]] + Reversed(s[..|s| - 1])
  }

  /** Position i of the reversed list holds the old element n-1-i. */
  lemma {:induction false} ReversedAt<T>(s: seq<T>)
    ensures |Reversed(s)| == |s|
    ensures forall i :: 0 <= i < |s| ==> Reversed(s)[i] == s[|s| - 1 - i]
  {
    if s != [] {
      var front := s[..|s| - 1];
      ReversedAt(front);
      var r := Reversed(s);
      assert r == [s[|s| - 1]] + Reversed(front);
      forall i | 0 < i < |s| ensures r[i] == s[|s| - 1 - i] {
        assert r[i] == Reversed(front)[i - 1];
        assert front[|front| - 1 - (i - 1)] == s[|s| - 1 - i];
      }
    }
  }

  /** Reversing twice restores the list. */
  lemma ReverseTwiceRestores<T>(s: seq<T>)
    ensures Reversed(Reversed(s)) == s
  {
    ReversedAt(s);
    ReversedAt(Reversed(s));
  }

  /** reverse: a copy is taken, then position i is set to the copy's element n-1-i. */
  method Reverse<T>(list: array<T>)
    modifies list
    ensures list[..] == Reversed(old(list[..]))
  {
    var tmp := list[..];
    var n := list.Length;
    for i := 0 to n
      invariant forall k :: 0 <= k < i ==> list[k] == tmp[n - k - 1]
      invariant forall k :: i <= k < n ==> list[k] == tmp[k]
    {
      list[i] := tmp[n - i - 1];
    }
    ReversedAt(tmp);
  }

  /** The demonstration: swap the ends of [first, second, third], then reverse it back. */
  method SwapReverseRun() returns (swapped: seq<string>, reversed: seq<string>, refused: Outcome<Exception>)
    ensures swapped == ["third", "second", "first"]
    ensures reversed == ["first", "second", "third"]
    ensures refused == Fail(OutOfBounds(3, 3))
  {
    var strings := new string[3];
    strings[0], strings[1], strings[2] := "first", "second", "third";
    var ok := Swap(strings, 0, 2);
    swapped := strings[..];
    Reverse(strings);
    reversed := strings[..];
    assert reversed == Reversed(swapped);
    ReversedAt(swapped);
    refused := Swap(strings, 0, 3);
  }
}
