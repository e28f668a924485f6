/**
 * Filling a fixed-size array and a vector by index, then reading and
 * overwriting their first and last elements.
 */
module StlVector {
  /**
   * The array part of the example: arr[i] = i + 1 for every index, then
   * front() = 10 and back() = 1; the elements in between keep i + 1.
   */
  method ArrayExample() returns (arr: array<int>)
    ensures arr.Length == 10
    ensures arr[0] == 10 && arr[9] == 1
    ensures forall i :: 1 <= i < 9 ==> arr[i] == i + 1
  {
    arr := new int[10];
    for i := 0 to arr.Length
      invariant forall k :: 0 <= k < i ==> arr[k] == k + 1
    {
      arr[i] := i + 1;
    }
    arr[0] := 10;
    arr[arr.Length - 1] := 1;
  }

  /** A std::vector<int>: its elements and the capacity it has reserved. */
  class IntVector {
    var elements: seq<int>
    var capacity: nat

    ghost predicate Valid()
      reads this
    {
      |elements| <= capacity
    }

    /** An empty vector. */
    constructor()
      ensures Valid() && elements == [] && capacity == 0
    {
      elements := [];
      capacity := 0;
    }

    /**
     * reserve(n): the capacity becomes at least n, and does not change when
     * it already was; the size and the elements do not change.
     */
    method Reserve(n: nat)
      requires Valid()
      modifies this
      ensures Valid() && elements == old(elements)
      ensures capacity >= n && (n <= old(capacity) ==> capacity == old(capacity))
    {
      if n > capacity {
        capacity := n;
      }
    }

    /**
     * resize(n): the size becomes exactly n; the first elements are kept,
     * and new ones are value-initialised to 0. The capacity only grows when
     * n exceeds it.
     */
    method Resize(n: nat)
      requires Valid()
      modifies this
      ensures Valid() && |elements| == n
      ensures capacity >= n && (n <= old(capacity) ==> capacity == old(capacity))
      ensures forall i :: 0 <= i < n ==> elements[i] == if i < |old(elements)| then old(elements)[i] else 0
    {
      if n <= |elements| {
        elements := elements[..n];
      } else {
        elements := elements + seq(n - |elements|, _ => 0);
      }
      if capacity < n {
        capacity := n;
      }
    }

    /** users[i] = value: replaces one element. */
    method Set(i: nat, value: int)
      requires Valid() && i < |elements|
      modifies this
      ensures Valid() && elements == old(elements)[i := value] && capacity == old(capacity)
    {
      elements := elements[i := value];
    }

    /** front(): the first element. */
    function Front(): (first: int)
      requires elements != []
      reads this
      ensures first == elements[0]
    {
      elements[0]
    }

    /** back(): the last element. */
    function Back(): (last: int)
      requires elements != []
      reads this
      ensures last == elements[|elements| - 1]
    {
      elements[|elements| - 1]
    }
  }

  /**
   * The vector part of the example: reserve(100) leaves it empty,
   * resize(10) gives ten zeros, and the loop sets users[i] = i + 1, so the
   * front is 1 and the back is 10.
   */
  method VectorExample() returns (users: IntVector, sizeAfterReserve: nat)
    ensures sizeAfterReserve == 0
    ensures users.Valid() && |users.elements| == 10 && users.capacity >= 100
    ensures forall i :: 0 <= i < 10 ==> users.elements[i] == i + 1
    ensures users.Front() == 1 && users.Back() == 10
  {
    users := new IntVector();
    users.Reserve(100);
    sizeAfterReserve := |users.elements|;
    users.Resize(10);
    for i := 0 to |users.elements|
      invariant users.Valid() && |users.elements| == 10 && users.capacity >= 100
      invariant forall k :: 0 <= k < i ==> users.elements[k] == k + 1
    {
      users.Set(i, i + 1);
    }
  }
}
