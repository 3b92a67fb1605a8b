// Generics and varargs: asList copies its varargs array into a new list,
// toArray hands the varargs array itself back, flatten concatenates lists,
// and TypeSafeContainer keys favourites by their Class so that reading one
// back is a checked cast that cannot fail.

module TypeErasure {
  import opened Wrappers
  import opened Exceptions
  import Sequences

  // ---------------------------------------------------------------- asList / toArray

  /** asList: a new list holding the varargs array's elements in order. */
  method AsList<T>(elements: array<T>) returns (result: seq<T>)
    ensures |result| == elements.Length
    ensures forall i :: 0 <= i < |result| ==> result[i] == elements[i]
  {
    result := elements[..];
  }

  /** toArray: the varargs array itself, not a copy. */
  method ToArray<T>(elements: array<T>) returns (result: array<T>)
    ensures result == elements
  {
    result := elements;
  }

  /**
   * A write through toArray's result is a write to the caller's array, while
   * the list asList built earlier keeps the old contents.
   */
  method VarargsRun() returns (list: seq<string>, callerSees: string)
    ensures list == ["a", "b", "c"]
    ensures callerSees == "z"
  {
    var args := new string[3];
    args[0], args[1], args[2] := "a", "b", "c";
    list := AsList(args);
    var same := ToArray(args);
    same[0] := "z";
    callerSees := args[0];
  }

  // ------------------------------------------------------------------- flatten

  /** flatten: each list's elements appended in turn. */
  method Flatten<T>(lists: seq<seq<T>>) returns (result: seq<T>)
    ensures result == Sequences.Concat(lists)
  {
    result := [];
    for i := 0 to |lists|
      invariant result == Sequences.Concat(lists[..i])
    {
      assert lists[..i + 1][..i] == lists[..i];
      result := result + lists[i];
    }
    assert lists[..|lists|] == lists;
  }

  /** An element is in the flattened list exactly when it is in one of the lists. */
  lemma {:induction false} FlattenMembers<T>(lists: seq<seq<T>>, x: T)
    ensures x in Sequences.Concat(lists) <==> exists i :: 0 <= i < |lists| && x in lists[i]
  {
    if lists != [] {
      var front := lists[..|lists| - 1];
      FlattenMembers(front, x);
      if x in lists[|lists| - 1] {
        assert x in Sequences.Concat(lists);
      }
      if exists i :: 0 <= i < |front| && x in front[i] {
        var i :| 0 <= i < |front| && x in front[i];
        assert x in lists[i];
      }
      if exists i :: 0 <= i < |lists| && x in lists[i] {
        var i :| 0 <= i < |lists| && x in lists[i];
        if i < |front| {
          assert x in front[i];
        }
      }
    }
  }

  /** The test's lists: [a, b] and [c, d] flatten to [a, b, c, d]. */
  method FlattenRun() returns (flattened: seq<string>)
    ensures flattened == ["a", "b", "c", "d"]
  {
    var lists := [["a", "b"], ["c", "d"]];
    flattened := Flatten(lists);
    assert lists[..1] == [["a", "b"]] && lists[..1][..0] == [];
  }

  // --------------------------------------------------------- TypeSafeContainer

  /** The classes the favourites are keyed by. */
  datatype JavaClass = StringClass | IntegerClass | NumberClass | ObjectClass | ClassClass

  /** A non-null object a favourite can hold. */
  datatype Instance = StringValue(text: string) | IntegerValue(number: int) | ClassValue(token: JavaClass)

  /** Class.isInstance: the object's own class and every class above it. */
  predicate IsInstance(v: Instance, c: JavaClass) {
    match v
    case StringValue(_) => c == StringClass || c == ObjectClass
    case IntegerValue(_) => c == IntegerClass || c == NumberClass || c == ObjectClass
    case ClassValue(_) => c == ClassClass || c == ObjectClass
  }

  class TypeSafeContainer {
    var favorites: map<JavaClass, Option<Instance>>

    /** Every stored favourite is an instance of the class it is stored under. */
    ghost predicate Valid()
      reads this
    {
      forall c :: c in favorites && favorites[c].Some? ==> IsInstance(favorites[c].value, c)
    }

    /** The favourite stored under a class: the map's value, or null when absent. */
    function Stored(c: JavaClass): Option<Instance>
      reads this
    {
      if c in favorites then favorites[c] else None
    }

    constructor()
      ensures Valid() && favorites == map[]
    {
      favorites := map[];
    }

    /**
     * putFavorite: requireNonNull rejects a null class before anything is
     * stored; otherwise the instance (possibly null) replaces the class's entry.
     * The generic signature makes the caller pass an instance of that class.
     */
    method PutFavorite(cls: Option<JavaClass>, instance: Option<Instance>) returns (r: Outcome<Exception>)
      requires Valid()
      requires cls.Some? && instance.Some? ==> IsInstance(instance.value, cls.value)
      modifies this
      ensures Valid()
      ensures cls.None? ==> r == Fail(NullPointer) && favorites == old(favorites)
      ensures cls.Some? ==> r == Pass && favorites == old(favorites)[cls.value := instance]
    {
      if cls.None? {
        return Fail(NullPointer);
      }
      favorites := favorites[cls.value := instance];
      r := Pass;
    }

    /**
     * getFavorite: the stored value passed through Class.cast. Only a null
     * class makes it throw; the cast itself never fails, because each entry
     * was stored under a class it is an instance of.
     */
    method GetFavorite(cls: Option<JavaClass>) returns (r: Result<Option<Instance>, Exception>)
      requires Valid()
      ensures cls.None? ==> r == Failure(NullPointer)
      ensures cls.Some? ==> r == Success(Stored(cls.value))
    {
      if cls.None? {
        return Failure(NullPointer);
      }
      var stored := Stored(cls.value);
      if stored.Some? && !IsInstance(stored.value, cls.value) {
        return Failure(ClassCast);
      }
      r := Success(stored);
    }
  }

  /** The test's container: three favourites under three classes, each read back. */
  method ContainerRun() returns (text: Result<Option<Instance>, Exception>,
                                 number: Result<Option<Instance>, Exception>,
                                 favoriteClass: Result<Option<Instance>, Exception>,
                                 absent: Result<Option<Instance>, Exception>,
                                 refused: Outcome<Exception>)
    ensures text == Success(Some(StringValue("Java")))
    ensures number == Success(Some(IntegerValue(42)))
    ensures favoriteClass == Success(Some(ClassValue(StringClass)))
    ensures absent == Success(None)
    ensures refused == Fail(NullPointer)
  {
    var container := new TypeSafeContainer();
    var ok := container.PutFavorite(Some(StringClass), Some(StringValue("Java")));
    ok := container.PutFavorite(Some(IntegerClass), Some(IntegerValue(42)));
    ok := container.PutFavorite(Some(ClassClass), Some(ClassValue(StringClass)));
    refused := container.PutFavorite(None, Some(IntegerValue(7)));
    text := container.GetFavorite(Some(StringClass));
    number := container.GetFavorite(Some(IntegerClass));
    favoriteClass := container.GetFavorite(Some(ClassClass));
    absent := container.GetFavorite(Some(NumberClass));
  }
}
