/**
 * The binary search over an ascending array, on the strings its caller searches
 * (pet names, sorted by JavaScript's default string order).
 */
module SearchUtil {
  import opened Text

  /** Ascending in JavaScript's string order: no later element sorts before an earlier one. */
  ghost predicate Sorted(arr: array<string>)
    reads arr
  {
    forall i, j :: 0 <= i < j < arr.Length ==> !Less(arr[j], arr[i])
  }

  /** Everything up to a middle element that sorts before the target sorts before it too. */
  lemma BelowMid(arr: array<string>, mid: int, target: string)
    requires Sorted(arr) && 0 <= mid < arr.Length && Less(arr[mid], target)
    ensures forall i :: 0 <= i <= mid ==> Less(arr[i], target)
  {
    forall i | 0 <= i < mid ensures Less(arr[i], target) {
      LessTrichotomy(arr[i], arr[mid]);
      if Less(arr[i], arr[mid]) {
        LessTransitive(arr[i], arr[mid], target);
      }
    }
  }

  /** Everything from a middle element that sorts after the target sorts after it too. */
  lemma AboveMid(arr: array<string>, mid: int, target: string)
    requires Sorted(arr) && 0 <= mid < arr.Length && Less(target, arr[mid])
    ensures forall i :: mid <= i < arr.Length ==> Less(target, arr[i])
  {
    forall i | mid < i < arr.Length ensures Less(target, arr[i]) {
      LessTrichotomy(arr[mid], arr[i]);
      if Less(arr[mid], arr[i]) {
        LessTransitive(target, arr[mid], arr[i]);
      }
    }
  }

  /**
   * `binarySearch(arr, target)`: an index holding `target`, or -1. The array is only
   * read (the method may modify nothing). On a sorted array -1 means `target` is absent.
   */
  method BinarySearch(arr: array<string>, target: string) returns (r: int)
    ensures -1 <= r < arr.Length
    ensures r >= 0 ==> arr[r] == target
    ensures Sorted(arr) ==> (r == -1 <==> target !in arr[..])
    ensures arr.Length == 0 ==> r == -1
  {
    var lo, hi := 0, arr.Length - 1;
    while lo <= hi
      invariant 0 <= lo <= hi + 1 <= arr.Length
      invariant Sorted(arr) ==> forall i :: 0 <= i < lo ==> Less(arr[i], target)
      invariant Sorted(arr) ==> forall i :: hi < i < arr.Length ==> Less(target, arr[i])
      decreases hi - lo
    {
      var mid := (lo + hi) / 2;
      if arr[mid] == target {
        return mid;
      }
      if Less(arr[mid], target) {
        if Sorted(arr) {
          BelowMid(arr, mid, target);
        }
        lo := mid + 1;
      } else {
        if Sorted(arr) {
          LessTrichotomy(arr[mid], target);
          AboveMid(arr, mid, target);
        }
        hi := mid - 1;
      }
    }
    forall i | 0 <= i < arr.Length ensures Sorted(arr) ==> arr[i] != target {
      LessIrreflexive(target);
    }
    return -1;
  }
}
