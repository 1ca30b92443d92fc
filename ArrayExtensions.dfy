/** Extension methods on arrays: null-aware equality, tolerance equality,
    in-place fill, slicing and concatenation. */
module ArrayExtensions {
  import opened Floats
  import opened Outcomes

  function Min(x: int, y: int): (r: int)
    ensures r <= x && r <= y && (r == x || r == y)
  {
    if y < x then y else x
  }

  predicate Close(x: real, y: real, eps: real)
  {
    Abs(x - y) <= eps
  }

  /** Two sequences of the same length whose elements pairwise differ by at most `eps`. */
  predicate WithinTolerance(s1: seq<real>, s2: seq<real>, eps: real)
  {
    |s1| == |s2| && forall i :: 0 <= i < |s1| ==> Close(s1[i], s2[i], eps)
  }

  lemma WithinToleranceSymmetric(s1: seq<real>, s2: seq<real>, eps: real)
    ensures WithinTolerance(s1, s2, eps) <==> WithinTolerance(s2, s1, eps)
  {
    if |s1| == |s2| {
      forall i | 0 <= i < |s1| ensures Close(s1[i], s2[i], eps) == Close(s2[i], s1[i], eps) {
        assert Abs(s1[i] - s2[i]) == Abs(s2[i] - s1[i]);
      }
    }
  }

  lemma WithinToleranceReflexive(s: seq<real>, eps: real)
    requires 0.0 <= eps
    ensures WithinTolerance(s, s, eps)
  {
    forall i | 0 <= i < |s| ensures Close(s[i], s[i], eps) {
      assert s[i] - s[i] == 0.0;
    }
  }

  /** Null-aware elementwise equality: two nulls are equal, a null and an array are
      not, and two arrays are equal when they have the same length and elements. */
  method EqualsElementwise<T(==)>(arr1: array?<T>, arr2: array?<T>) returns (r: bool)
    ensures arr1 == null && arr2 == null ==> r
    ensures (arr1 == null) != (arr2 == null) ==> !r
    ensures arr1 != null && arr2 != null ==> (r <==> arr1[..] == arr2[..])
  {
    if arr1 == null && arr2 == null {
      return true;
    }
    if arr1 != null && arr2 != null {
      if arr1.Length != arr2.Length {
        return false;
      }
      for i := 0 to arr1.Length
        invariant forall k :: 0 <= k < i ==> arr1[k] == arr2[k]
      {
        if arr1[i] != arr2[i] {
          assert arr1[..][i] != arr2[..][i];
          return false;
        }
      }
      return true;
    } else {
      return false;
    }
  }

  /** The same null and length rules as `EqualsElementwise`; two arrays are equal
      when no pair of elements differs by more than `eps`. */
  method EqualsElementwiseWithPrecision(arr1: array?<real>, arr2: array?<real>, eps: real) returns (r: bool)
    ensures arr1 == null && arr2 == null ==> r
    ensures (arr1 == null) != (arr2 == null) ==> !r
    ensures arr1 != null && arr2 != null ==> (r <==> WithinTolerance(arr1[..], arr2[..], eps))
  {
    if arr1 == null && arr2 == null {
      return true;
    }
    if arr1 != null && arr2 != null {
      if arr1.Length != arr2.Length {
        return false;
      }
      for i := 0 to arr1.Length
        invariant forall k :: 0 <= k < i ==> Close(arr1[k], arr2[k], eps)
      {
        if Abs(arr1[i] - arr2[i]) > eps {
          assert !Close(arr1[..][i], arr2[..][i], eps);
          return false;
        }
      }
      return true;
    } else {
      return false;
    }
  }

  /** Sets every element to `val`; a null array is left alone. */
  method Fill<T>(arr: array?<T>, val: T)
    modifies arr
    ensures arr != null ==> arr[..] == seq(arr.Length, _ => val)
  {
    if arr != null {
      for i := 0 to arr.Length
        invariant forall k :: 0 <= k < i ==> arr[k] == val
      {
        arr[i] := val;
      }
    }
  }

  /** Copies `arr[start .. min(end, arr.Length))` into a new array. A `start` at or
      past the end and a negative length are rejected with an ArgumentException; a
      negative `start` fails on the first read when the slice is not empty. */
  method Slice<T(0)>(arr: array<T>, start: int, end: int) returns (r: Result<array<T>>)
    ensures start >= arr.Length ==> r == Err(ArgumentError)
    ensures start < arr.Length && end < start ==> r == Err(ArgumentError)
    ensures start < arr.Length && start <= end && start < 0 && Min(end, arr.Length) > start ==> r == Err(IndexOutOfRange)
    ensures start < arr.Length && start <= end && (0 <= start || end == start) ==> r.Ok?
    ensures r.Ok? ==> fresh(r.value) && r.value.Length == Min(end, arr.Length) - start
                      && forall i :: 0 <= i < r.value.Length ==> r.value[i] == arr[start + i]
  {
    if start >= arr.Length {
      return Err(ArgumentError);
    }
    if end - start < 0 {
      return Err(ArgumentError);
    }
    var sliceLength := (if end > arr.Length then arr.Length else end) - start;
    var result := new T[sliceLength];
    for i := 0 to sliceLength
      invariant 0 < i ==> 0 <= start
      invariant forall k :: 0 <= k < i ==> result[k] == arr[start + k]
    {
      if start + i < 0 {
        return Err(IndexOutOfRange);
      }
      result[i] := arr[start + i];
    }
    return Ok(result);
  }

  /** A new array holding `currentArr` followed by `arr`. */
  method Append<T(0)>(currentArr: array<T>, arr: array<T>) returns (r: array<T>)
    ensures fresh(r)
    ensures r[..] == currentArr[..] + arr[..]
  {
    var currentArrLength, arrLength := currentArr.Length, arr.Length;
    r := new T[currentArrLength + arrLength];
    for i := 0 to currentArrLength
      invariant forall k :: 0 <= k < i ==> r[k] == currentArr[k]
    {
      r[i] := currentArr[i];
    }
    for i := 0 to arrLength
      invariant forall k :: 0 <= k < currentArrLength ==> r[k] == currentArr[k]
      invariant forall k :: 0 <= k < i ==> r[k + currentArrLength] == arr[k]
    {
      r[i + currentArrLength] := arr[i];
    }
  }
}
