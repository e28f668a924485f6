/**
 * C# arrays: indexing and slicing from the end (the ^ operator), and
 * filling a rectangular and a jagged array with nested loops.
 */
module CSharpArrays {
  import opened Wrappers

  /** numbers[^k]: the element k places from the end; None stands for the IndexOutOfRangeException. */
  function AtFromEnd(numbers: seq<int>, k: nat): (element: Option<int>)
    ensures element.Some? <==> 1 <= k <= |numbers|
    ensures element.Some? ==> element.value == numbers[|numbers| - k]
  {
    if 1 <= k <= |numbers| then Some(numbers[|numbers| - k]) else None
  }

  /** numbers[^k..]: the last k elements; None stands for the ArgumentOutOfRangeException. */
  function SliceFromEnd(numbers: seq<int>, k: nat): (tail: Option<seq<int>>)
    ensures tail.Some? <==> k <= |numbers|
    ensures tail.Some? ==> |tail.value| == k && numbers == numbers[..|numbers| - k] + tail.value
  {
    if k <= |numbers| then Some(numbers[|numbers| - k..]) else None
  }

  /** The slice from the end holds, j places from its own end, the element j places from the array's end. */
  lemma SliceAgreesWithIndex(numbers: seq<int>, k: nat, j: nat)
    requires 1 <= j <= k <= |numbers|
    ensures SliceFromEnd(numbers, k).Some? && AtFromEnd(SliceFromEnd(numbers, k).value, j) == AtFromEnd(numbers, j)
  {
    var tail := SliceFromEnd(numbers, k).value;
    assert numbers == numbers[..|numbers| - k] + tail;
    assert tail[k - j] == numbers[|numbers| - k + k - j];
  }

  /** The example: of 1..9, numbers[^1] is 9 and numbers[^3..] is [7, 8, 9]. */
  lemma ExampleFromEnd()
    ensures AtFromEnd([1, 2, 3, 4, 5, 6, 7, 8, 9], 1) == Some(9)
    ensures SliceFromEnd([1, 2, 3, 4, 5, 6, 7, 8, 9], 3) == Some([7, 8, 9])
  {
    assert [1, 2, 3, 4, 5, 6, 7, 8, 9][6..] == [7, 8, 9];
  }

  /** The rectangular 3 x 3 matrix whose every cell holds its row number. */
  method FillRectangular() returns (matrix: array2<int>)
    ensures matrix.Length0 == 3 && matrix.Length1 == 3
    ensures forall i, j :: 0 <= i < 3 && 0 <= j < 3 ==> matrix[i, j] == i
  {
    matrix := new int[3, 3];
    for i := 0 to matrix.Length0
      invariant forall r, c :: 0 <= r < i && 0 <= c < 3 ==> matrix[r, c] == r
    {
      for j := 0 to matrix.Length1
        invariant forall r, c :: 0 <= r < i && 0 <= c < 3 ==> matrix[r, c] == r
        invariant forall c :: 0 <= c < j ==> matrix[i, c] == i
      {
        matrix[i, j] := i;
      }
    }
  }

  /**
   * The jagged array: three rows, each a new array of three, with
   * jagged[i][j] = i + j + 1. Every row is a distinct, newly allocated
   * array.
   */
  method FillJagged() returns (jagged: array<array?<int>>)
    ensures jagged.Length == 3
    ensures forall i :: 0 <= i < 3 ==> jagged[i] != null && jagged[i].Length == 3 && fresh(jagged[i])
    ensures forall i, j :: 0 <= i < 3 && 0 <= j < 3 ==> jagged[i][j] == i + j + 1
    ensures forall i, i' :: 0 <= i < i' < 3 ==> jagged[i] != jagged[i']
  {
    jagged := new array?<int>[3];
    for i := 0 to jagged.Length
      invariant forall r :: 0 <= r < i ==> jagged[r] != null && jagged[r].Length == 3 && fresh(jagged[r])
      invariant forall r, c :: 0 <= r < i && 0 <= c < 3 ==> jagged[r][c] == r + c + 1
      invariant forall r, r' :: 0 <= r < r' < i ==> jagged[r] != jagged[r']
    {
      var row := new int[3];
      assert forall r :: 0 <= r < i ==> jagged[r] != row;
      jagged[i] := row;
      for j := 0 to row.Length
        modifies row
        invariant forall c :: 0 <= c < j ==> row[c] == i + c + 1
      {
        row[j] := i + j + 1;
      }
    }
  }
}
