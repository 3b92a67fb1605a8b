// An array-backed LIFO stack: a backing array of nullable slots, a size
// counter, growth to 2*size+1 slots when a push finds the array full, and a
// pop that clears the slot it vacates so the array holds no stale references.

module GenericStacks {
  import opened Wrappers
  import opened Exceptions

  /** DEFAULT_INITIAL_CAPACITY. */
  const DefaultInitialCapacity := 16

  /** The slot count after growing a full array holding `size` elements. */
  function GrownCapacity(size: nat): (n: nat)
    ensures n > size
  {
    2 * size + 1
  }

  /** A stack of nullable references (None stands for a pushed null). */
  class GenericStack<E> {
    var elements: array<Option<E>>
    var size: int

    /** The stored elements occupy [0, size); every slot above is null. */
    ghost predicate Valid()
      reads this, elements
    {
      && 0 <= size <= elements.Length
      && forall i :: size <= i < elements.Length ==> elements[i] == None
    }

    /** The stack's contents, bottom first. */
    function Contents(): (s: seq<Option<E>>)
      requires 0 <= size <= elements.Length
      reads this, elements
      ensures |s| == size
    {
      elements[..size]
    }

    constructor()
      ensures Valid() && fresh(elements)
      ensures Contents() == []
      ensures elements.Length == DefaultInitialCapacity
    {
      elements := new Option<E>[DefaultInitialCapacity](_ => None);
      size := 0;
    }

    /** ensureCapacity: a full array is copied into one of 2*size+1 slots. */
    method EnsureCapacity()
      requires Valid()
      modifies this
      ensures Valid() && size == old(size)
      ensures Contents() == old(Contents())
      ensures size < elements.Length
      ensures old(elements.Length) == old(size) ==>
        fresh(elements) && elements.Length == GrownCapacity(old(size))
      ensures old(elements.Length) != old(size) ==> elements == old(elements)
    {
      if elements.Length == size {
        var grown := new Option<E>[GrownCapacity(size)](_ => None);
        var i := 0;
        while i < size
          invariant elements == old(elements) && size == old(size)
          invariant 0 <= i <= size && grown.Length == GrownCapacity(size)
          invariant grown[..i] == elements[..i]
          invariant forall k :: size <= k < grown.Length ==> grown[k] == None
        {
          grown[i] := elements[i];
          i := i + 1;
        }
        elements := grown;
      }
    }

    /** push: the item goes on top; everything below is kept. */
    method Push(item: Option<E>)
      requires Valid()
      modifies this, elements
      ensures Valid()
      ensures Contents() == old(Contents()) + [item]
      ensures old(elements.Length) == old(size) ==>
        fresh(elements) && elements.Length == GrownCapacity(old(size))
      ensures old(elements.Length) != old(size) ==> elements == old(elements)
    {
      EnsureCapacity();
      elements[size] := item;
      size := size + 1;
    }

    /** pop: the top element, or EmptyStackException with nothing changed. */
    method Pop() returns (r: Result<Option<E>, Exception>)
      requires Valid()
      modifies this, elements
      ensures Valid() && elements == old(elements)
      ensures old(size) == 0 ==> r == Failure(EmptyStack) && Contents() == []
      ensures old(size) > 0 ==>
        && r == Success(old(Contents())[old(size) - 1])
        && Contents() == old(Contents())[..old(size) - 1]
    {
      if size == 0 {
        return Failure(EmptyStack);
      }
      size := size - 1;
      var result := elements[size];
      elements[size] := None;
      r := Success(result);
    }

    method IsEmpty() returns (empty: bool)
      requires Valid()
      ensures empty <==> Contents() == []
    {
      empty := size == 0;
    }
  }

  /**
   * Last in, first out: two pushes are undone by two pops in reverse order,
   * whatever the stack held before, and the stack is left as it was.
   */
  method PushPopRestores<E>(stack: GenericStack<E>, first: Option<E>, second: Option<E>)
      returns (top: Result<Option<E>, Exception>, next: Result<Option<E>, Exception>)
    requires stack.Valid()
    modifies stack, stack.elements
    ensures stack.Valid()
    ensures top == Success(second) && next == Success(first)
    ensures stack.Contents() == old(stack.Contents())
  {
    stack.Push(first);
    stack.Push(second);
    top := stack.Pop();
    next := stack.Pop();
  }

  /** The string-stack scenario: empty, push two, pop them back in reverse. */
  method StackRun() returns (emptyAtStart: bool, emptyAfterPush: bool,
                             first: Result<Option<string>, Exception>,
                             second: Result<Option<string>, Exception>,
                             emptyAtEnd: bool, underflow: Result<Option<string>, Exception>)
    ensures emptyAtStart && !emptyAfterPush && emptyAtEnd
    ensures first == Success(Some("second")) && second == Success(Some("first"))
    ensures underflow == Failure(EmptyStack)
  {
    var stack := new GenericStack<string>();
    emptyAtStart := stack.IsEmpty();
    stack.Push(Some("first"));
    stack.Push(Some("second"));
    emptyAfterPush := stack.IsEmpty();
    first := stack.Pop();
    second := stack.Pop();
    emptyAtEnd := stack.IsEmpty();
    underflow := stack.Pop();
  }

  /** Seventeen pushes onto a new stack: the seventeenth grows 16 slots to 33. */
  method GrowthRun() returns (capacity: int, count: int)
    ensures capacity == 33 && count == 17
  {
    var stack := new GenericStack<int>();
    var i := 0;
    while i < 16
      invariant 0 <= i <= 16
      invariant stack.Valid() && fresh(stack.elements)
      invariant stack.size == i && stack.elements.Length == 16
    {
      stack.Push(Some(i));
      i := i + 1;
    }
    stack.Push(Some(16));
    capacity, count := stack.elements.Length, stack.size;
  }
}
