// Generic static helpers: set union, the maximum of a collection under its
// natural ordering, a sorted copy of a list, and a self-typed fluent builder.
// A Comparable<T> ordering is modelled as a compareTo function whose sign is
// what matters; Java's Comparable contract becomes the predicate IsComparator.

module GenericMethods {
  import opened Wrappers
  import opened Exceptions
  import opened Text

  // ------------------------------------------------------------------ orderings

  /** compareTo's sign flips when the arguments are swapped. */
  ghost predicate SignFlips<T(!new)>(cmp: (T, T) -> int) {
    forall a, b :: cmp(a, b) < 0 <==> cmp(b, a) > 0
  }

  /** "Not greater than" is transitive. */
  ghost predicate Transitive<T(!new)>(cmp: (T, T) -> int) {
    forall a, b, c :: cmp(a, b) <= 0 && cmp(b, c) <= 0 ==> cmp(a, c) <= 0
  }

  /** The Comparable contract, both laws. */
  ghost predicate IsComparator<T(!new)>(cmp: (T, T) -> int) {
    SignFlips(cmp) && Transitive(cmp)
  }

  /** Below-or-equal followed by strictly below is strictly below. */
  lemma StrictAfterWeak<T(!new)>(cmp: (T, T) -> int, a: T, b: T, c: T)
    requires IsComparator(cmp)
    requires cmp(a, b) <= 0 && cmp(b, c) < 0
    ensures cmp(a, c) < 0
  {
  }

  /** Integer.compareTo. */
  function CompareInts(a: int, b: int): int {
    if a < b then -1 else if a > b then 1 else 0
  }

  /** String.compareTo: the first differing character decides, else the length. */
  function CompareStrings(a: string, b: string): int {
    if a == [] || b == [] then |a| - |b|
    else if a[0] != b[0] then a[0] as int - b[0] as int
    else CompareStrings(a[1..], b[1..])
  }

  lemma IntsAreComparator()
    ensures IsComparator(CompareInts)
  {
    assert SignFlips(CompareInts);
    assert Transitive(CompareInts);
  }

  lemma {:induction false} StringsAntisymmetric(a: string, b: string)
    ensures CompareStrings(a, b) == -CompareStrings(b, a)
  {
    if a != [] && b != [] && a[0] == b[0] {
      StringsAntisymmetric(a[1..], b[1..]);
    }
  }

  lemma {:induction false} StringsTransitive(a: string, b: string, c: string)
    requires CompareStrings(a, b) <= 0 && CompareStrings(b, c) <= 0
    ensures CompareStrings(a, c) <= 0
  {
    if a != [] && b != [] && c != [] && a[0] == b[0] && b[0] == c[0] {
      StringsTransitive(a[1..], b[1..], c[1..]);
    }
  }

  lemma StringsAreComparator()
    ensures IsComparator(CompareStrings)
  {
    forall a, b ensures CompareStrings(a, b) < 0 <==> CompareStrings(b, a) > 0 {
      StringsAntisymmetric(a, b);
    }
    assert SignFlips(CompareStrings);
    forall a, b, c | CompareStrings(a, b) <= 0 && CompareStrings(b, c) <= 0
      ensures CompareStrings(a, c) <= 0
    {
      StringsTransitive(a, b, c);
    }
    assert Transitive(CompareStrings);
  }

  // ---------------------------------------------------------------------- union

  /** union: a new set holding the elements of both arguments. */
  function Union<T(!new)>(s1: set<T>, s2: set<T>): (r: set<T>)
    ensures forall x :: x in r <==> x in s1 || x in s2
  {
    s1 + s2
  }

  /** The union is at least as large as either argument and at most their sizes combined. */
  lemma UnionSize<T(!new)>(s1: set<T>, s2: set<T>)
    ensures |s1| <= |Union(s1, s2)| && |s2| <= |Union(s1, s2)|
    ensures |Union(s1, s2)| <= |s1| + |s2|
    ensures |Union(s1, s2)| == |s1| + |s2| - |s1 * s2|
  {
    var u := Union(s1, s2);
    assert u == s1 + (s2 - s1);
    assert s2 == (s2 - s1) + s1 * s2;
    assert (s2 - s1) !! s1 * s2;
  }

  /** {"a", "b"} united with {"b", "c"} has the three letters. */
  lemma UnionExample()
    ensures Union({"a", "b"}, {"b", "c"}) == {"a", "b", "c"}
    ensures |Union({"a", "b"}, {"b", "c"})| == 3
  {
    assert Union({"a", "b"}, {"b", "c"}) == {"a", "b", "c"};
  }

  // ------------------------------------------------------------------------ max

  /**
   * k is the first position holding a greatest element: nothing is above it,
   * and everything before it is strictly below it.
   */
  ghost predicate IsFirstMax<T>(s: seq<T>, k: int, cmp: (T, T) -> int) {
    && 0 <= k < |s|
    && (forall j :: 0 <= j < |s| ==> cmp(s[j], s[k]) <= 0)
    && (forall j :: 0 <= j < k ==> cmp(s[j], s[k]) < 0)
  }

  /** At most one position is the first maximum. */
  lemma FirstMaxUnique<T(!new)>(s: seq<T>, k1: int, k2: int, cmp: (T, T) -> int)
    requires IsComparator(cmp)
    requires IsFirstMax(s, k1, cmp) && IsFirstMax(s, k2, cmp)
    ensures k1 == k2
  {
    // Each is at least the other, and neither may be strictly above the other.
    assert cmp(s[k1], s[k2]) <= 0 && cmp(s[k2], s[k1]) <= 0;
    assert SignFlips(cmp);
  }

  /**
   * max: IllegalArgumentException on an empty collection; otherwise the
   * element the iteration settles on, replacing the candidate only when an
   * element compares strictly greater, so the first greatest one is kept.
   */
  method Max<T(!new)>(collection: seq<T>, cmp: (T, T) -> int) returns (r: Result<T, Exception>)
    requires IsComparator(cmp)
    ensures collection == [] ==> r == Failure(IllegalArgument("Empty collection"))
    ensures collection != [] ==> r.Success? && exists k :: IsFirstMax(collection, k, cmp) && r.value == collection[k]
  {
    if collection == [] {
      return Failure(IllegalArgument("Empty collection"));
    }
    var candidate: Option<T> := None;
    ghost var k := -1;
    for i := 0 to |collection|
      invariant candidate.None? <==> i == 0
      invariant i > 0 ==> 0 <= k < i && candidate == Some(collection[k])
      invariant i > 0 ==> forall j :: 0 <= j < i ==> cmp(collection[j], collection[k]) <= 0
      invariant i > 0 ==> forall j :: 0 <= j < k ==> cmp(collection[j], collection[k]) < 0
    {
      var element := collection[i];
      if candidate.None? || cmp(element, candidate.value) > 0 {
        if candidate.Some? {
          forall j | 0 <= j < i
            ensures cmp(collection[j], element) < 0
          {
            StrictAfterWeak(cmp, collection[j], collection[k], element);
          }
        }
        assert cmp(element, element) <= 0;
        candidate, k := Some(element), i;
      }
    }
    r := Success(candidate.value);
  }

  /** In 3, 1, 4, 1, 5, 9 the only greatest element is the last. */
  lemma FirstMaxOfNumbers(k: int)
    requires IsFirstMax([3, 1, 4, 1, 5, 9], k, CompareInts)
    ensures k == 5
  {
    var numbers := [3, 1, 4, 1, 5, 9];
    assert CompareInts(numbers[5], numbers[k]) <= 0;
  }

  /** Of "apple", "banana" and "cherry" the greatest is "cherry". */
  lemma FirstMaxOfFruits(k: int)
    requires IsFirstMax(["apple", "banana", "cherry"], k, CompareStrings)
    ensures k == 2
  {
    var fruits := ["apple", "banana", "cherry"];
    assert CompareStrings(fruits[2], fruits[k]) <= 0;
    assert CompareStrings("cherry", "apple") > 0;
    assert CompareStrings("cherry", "banana") > 0;
  }

  /** The test's numbers: the maximum is 9. */
  method MaxNumbersRun() returns (number: Result<int, Exception>)
    ensures number == Success(9)
  {
    IntsAreComparator();
    var numbers := [3, 1, 4, 1, 5, 9];
    number := Max(numbers, CompareInts);
    ghost var k :| IsFirstMax(numbers, k, CompareInts) && number.value == numbers[k];
    FirstMaxOfNumbers(k);
  }

  /** The test's fruit: the maximum is "cherry". */
  method MaxFruitsRun() returns (fruit: Result<string, Exception>)
    ensures fruit == Success("cherry")
  {
    StringsAreComparator();
    var fruits := ["apple", "banana", "cherry"];
    fruit := Max(fruits, CompareStrings);
    ghost var k :| IsFirstMax(fruits, k, CompareStrings) && fruit.value == fruits[k];
    FirstMaxOfFruits(k);
  }

  /** An empty collection is refused. */
  method MaxEmptyRun() returns (none: Result<int, Exception>)
    ensures none == Failure(IllegalArgument("Empty collection"))
  {
    IntsAreComparator();
    none := Max([], CompareInts);
  }

  // ----------------------------------------------------------------------- sort

  /** Every element is at most every later one. */
  ghost predicate Sorted<T>(s: seq<T>, cmp: (T, T) -> int) {
    forall i, j :: 0 <= i < j < |s| ==> cmp(s[i], s[j]) <= 0
  }

  /** Every element is at most the next one. */
  ghost predicate LocallySorted<T>(s: seq<T>, cmp: (T, T) -> int) {
    forall i :: 0 < i < |s| ==> cmp(s[i - 1], s[i]) <= 0
  }

  /** x placed before the first element it does not exceed. */
  function Insert<T>(x: T, s: seq<T>, cmp: (T, T) -> int): (r: seq<T>)
    ensures |r| == |s| + 1 && (r[0] == x || (s != [] && r[0] == s[0]))
  {
    if s == [] || cmp(x, s[0]) <= 0 then [x] + s
    else [s[0]] + Insert(x, s[1..], cmp)
  }

  /**
   * sort: a new list with the elements in ascending order (Collections.sort
   * on a copy), built by inserting each element into the sorted rest.
   */
  function Sort<T>(list: seq<T>, cmp: (T, T) -> int): (r: seq<T>)
    ensures |r| == |list|
  {
    if list == [] then [] else Insert(list[0], Sort(list[1..], cmp), cmp)
  }

  /** Insertion keeps neighbours in order and adds exactly one copy of x. */
  lemma {:induction false} InsertSorted<T(!new)>(x: T, s: seq<T>, cmp: (T, T) -> int)
    requires SignFlips(cmp) && LocallySorted(s, cmp)
    ensures multiset(Insert(x, s, cmp)) == multiset(s) + multiset{x}
    ensures LocallySorted(Insert(x, s, cmp), cmp)
  {
    if s != [] && cmp(x, s[0]) > 0 {
      var rest := s[1..];
      assert LocallySorted(rest, cmp) by {
        forall i | 0 < i < |rest| ensures cmp(rest[i - 1], rest[i]) <= 0 {
          assert rest[i - 1] == s[i] && rest[i] == s[i + 1];
        }
      }
      InsertSorted(x, rest, cmp);
      var tail := Insert(x, rest, cmp);
      assert s == [s[0]] + rest;
      assert cmp(s[0], tail[0]) <= 0 by {
        if tail[0] == x {
          assert cmp(s[0], x) < 0;
        } else {
          assert tail[0] == rest[0] && rest[0] == s[1];
        }
      }
      var r := [s[0]] + tail;
      forall i | 0 < i < |r| ensures cmp(r[i - 1], r[i]) <= 0 {
        if i > 1 {
          assert r[i - 1] == tail[i - 2] && r[i] == tail[i - 1];
        }
      }
    }
  }

  /** With a transitive ordering, neighbours in order means all pairs in order. */
  lemma {:induction false} LocallySortedIsSorted<T(!new)>(s: seq<T>, cmp: (T, T) -> int)
    requires Transitive(cmp) && LocallySorted(s, cmp)
    ensures Sorted(s, cmp)
  {
    if s != [] {
      var rest := s[1..];
      assert LocallySorted(rest, cmp) by {
        forall i | 0 < i < |rest| ensures cmp(rest[i - 1], rest[i]) <= 0 {
          assert rest[i - 1] == s[i] && rest[i] == s[i + 1];
        }
      }
      LocallySortedIsSorted(rest, cmp);
      forall i, j | 0 <= i < j < |s| ensures cmp(s[i], s[j]) <= 0 {
        if i == 0 && j > 1 {
          assert cmp(s[0], s[1]) <= 0;
          assert cmp(rest[0], rest[j - 1]) <= 0;
        } else if i > 0 {
          assert cmp(rest[i - 1], rest[j - 1]) <= 0;
        }
      }
    }
  }

  /** Insertion sort keeps neighbours in order and keeps every element. */
  lemma {:induction false} SortLocallySorted<T(!new)>(list: seq<T>, cmp: (T, T) -> int)
    requires SignFlips(cmp)
    ensures LocallySorted(Sort(list, cmp), cmp)
    ensures multiset(Sort(list, cmp)) == multiset(list)
  {
    if list != [] {
      SortLocallySorted(list[1..], cmp);
      InsertSorted(list[0], Sort(list[1..], cmp), cmp);
      assert list == [list[0]] + list[1..];
    }
  }

  /** sort yields an ascending rearrangement of exactly the input's elements. */
  lemma SortIsSortedPermutation<T(!new)>(list: seq<T>, cmp: (T, T) -> int)
    requires IsComparator(cmp)
    ensures Sorted(Sort(list, cmp), cmp)
    ensures multiset(Sort(list, cmp)) == multiset(list)
  {
    SortLocallySorted(list, cmp);
    LocallySortedIsSorted(Sort(list, cmp), cmp);
  }

  /** The demonstration's numbers in ascending order. */
  lemma SortNumbersExample()
    ensures Sort([3, 1, 4, 1, 5, 9], CompareInts) == [1, 1, 3, 4, 5, 9]
  {
    var s := [3, 1, 4, 1, 5, 9];
    assert s[1..] == [1, 4, 1, 5, 9] && s[1..][1..] == [4, 1, 5, 9];
    assert [4, 1, 5, 9][1..] == [1, 5, 9] && [1, 5, 9][1..] == [5, 9] && [5, 9][1..] == [9];
    assert Sort([9], CompareInts) == [9];
    assert Sort([5, 9], CompareInts) == [5, 9];
    assert Sort([1, 5, 9], CompareInts) == [1, 5, 9];
    assert Insert(4, [1, 5, 9], CompareInts) == [1, 4, 5, 9];
    assert Sort([4, 1, 5, 9], CompareInts) == [1, 4, 5, 9];
    assert Sort([1, 4, 1, 5, 9], CompareInts) == [1, 1, 4, 5, 9];
    assert Insert(3, [1, 4, 5, 9], CompareInts) == [1] + Insert(3, [4, 5, 9], CompareInts);
    assert Insert(3, [1, 1, 4, 5, 9], CompareInts) == [1, 1, 3, 4, 5, 9];
  }

  // -------------------------------------------------------------------- builder

  /** Java's rendering of a possibly null string in a concatenation. */
  function NameText(name: Option<string>): string {
    if name.Some? then name.value else "null"
  }

  /** The string ConcreteBuilder.build produces. */
  function Built(name: Option<string>, value: int): string {
    "Built: " + NameText(name) + " with value " + IntToString(value)
  }

  /** Built strings with the same name text differ exactly when the values differ. */
  lemma BuiltDistinguishesValues(name: Option<string>, v1: int, v2: int)
    requires Built(name, v1) == Built(name, v2)
    ensures v1 == v2
  {
    var prefix := "Built: " + NameText(name) + " with value ";
    assert Built(name, v1)[|prefix|..] == IntToString(v1);
    assert Built(name, v2)[|prefix|..] == IntToString(v2);
    IntToStringInjective(v1, v2);
  }

  /** Builder's setters store their argument and hand back the same builder. */
  class ConcreteBuilder {
    var name: Option<string>
    var value: int

    constructor()
      ensures name == None && value == 0
    {
      name := None;
      value := 0;
    }

    method SetName(name: Option<string>) returns (self: ConcreteBuilder)
      modifies this
      ensures self == this
      ensures this.name == name && value == old(value)
    {
      this.name := name;
      self := this;
    }

    method SetValue(value: int) returns (self: ConcreteBuilder)
      modifies this
      ensures self == this
      ensures this.value == value && name == old(name)
    {
      this.value := value;
      self := this;
    }

    method Build() returns (r: string)
      ensures r == Built(name, value)
    {
      r := "Built: " + NameText(name) + " with value " + IntToString(value);
    }
  }

  /** The chained builder of the test: name "Test", value 100. */
  method BuilderRun() returns (result: string)
    ensures result == "Built: Test with value 100"
  {
    var builder := new ConcreteBuilder();
    var named := builder.SetName(Some("Test"));
    var valued := named.SetValue(100);
    result := valued.Build();
  }
}
