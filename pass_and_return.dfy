/**
 * Passing and returning by value and by reference: sum adds two ints;
 * greatest_of returns a reference to the larger of two elements at the
 * same index of two ten-element arrays, and the caller writes through it.
 * A reference into an array is modelled as the array it designates,
 * together with the index the caller already holds.
 */
module PassAndReturn {
  import opened CppInt

  /** sum: the int sum of a and b, defined when it does not overflow. */
  function Sum(a: Int32, b: Int32): (total: Int32)
    requires SumFits(a, b)
    ensures total as int == a as int + b as int
  {
    a + b
  }

  /**
   * greatest_of: the array whose element at index is the greater one; on a
   * tie it is arr2. The index must be below 10.
   */
  method GreatestOf(arr1: array<Int32>, arr2: array<Int32>, index: int) returns (chosen: array<Int32>)
    requires arr1.Length == 10 && arr2.Length == 10 && 0 <= index < 10
    ensures chosen == arr1 || chosen == arr2
    ensures chosen[index] >= arr1[index] && chosen[index] >= arr2[index]
    ensures arr1[index] > arr2[index] ==> chosen == arr1
    ensures arr1[index] <= arr2[index] ==> chosen == arr2
  {
    if arr1[index] > arr2[index] {
      return arr1;
    } else {
      return arr2;
    }
  }

  /** The two arrays of the example program after greatest = 50. */
  function Numbers1(): (numbers: seq<Int32>) {
    [1, 2, 3, 4, 5, 6, 7, 8, 9, 10]
  }

  function Numbers2AfterWrite(): (numbers: seq<Int32>) {
    [11, 12, 13, 50, 15, 16, 17, 18, 19, 20]
  }

  /**
   * main without its printing: the reference at index 3 designates
   * numbers2[3] (14 beats 4), so writing 50 through it changes that element
   * and nothing else.
   */
  method WriteThroughGreatest() returns (numbers1: array<Int32>, numbers2: array<Int32>)
    ensures numbers1 != numbers2
    ensures numbers1[..] == Numbers1()
    ensures numbers2[..] == Numbers2AfterWrite()
  {
    numbers1 := new Int32[10](i requires 0 <= i < 10 => (i + 1) as Int32);
    numbers2 := new Int32[10](i requires 0 <= i < 10 => (i + 11) as Int32);
    var greatest := GreatestOf(numbers1, numbers2, 3);
    greatest[3] := 50;
    assert numbers1[..] == Numbers1();
    assert numbers2[..] == Numbers2AfterWrite();
  }
}
