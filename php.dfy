/**
 * The two PHP library functions the streamer slices with, on the model's
 * own terms: an array is a `seq`, a string a `seq<char>` whose elements are
 * the characters `mb_strlen` counts. Both accept out-of-range and negative
 * positions and clamp them instead of failing; the edge cases below are the
 * ones the streamer can reach.
 */
module Php {
  import opened Wrappers

  /**
   * `array_slice(a, offset)` with no length, on a list: the elements from
   * `offset` onward; a negative offset counts from the end, and a position
   * outside the array is clamped (past the end: nothing; before the start:
   * everything).
   */
  function ArraySlice<T>(a: seq<T>, offset: int): (r: seq<T>)
    ensures |r| <= |a| && r == a[|a| - |r|..]
    ensures 0 <= offset <= |a| ==> r == a[offset..]
    ensures offset >= |a| ==> r == []
    ensures offset < 0 ==> |r| == if -offset < |a| then -offset else |a|
  {
    if offset >= |a| then []
    else if offset >= 0 then a[offset..]
    else if |a| + offset >= 0 then a[|a| + offset..]
    else a
  }

  /** Where `mb_substr` starts reading: a negative start counts from the end, clamped at 0. */
  function SubstrStart(len: nat, start: int): nat
  {
    if start >= 0 then start
    else if len + start >= 0 then len + start
    else 0
  }

  /**
   * `mb_substr(s, start, length)` as PHP 8 defines it: the characters from
   * the clamped start, `length` of them (all with `None`; all but the last
   * `-length` when negative); a start past the end gives the empty string.
   */
  function MbSubstr(s: string, start: int, length: Option<int>): (r: string)
    ensures |r| <= |s|
    ensures start > |s| ==> r == ""
    ensures 0 <= start <= |s| && length.None? ==> r == s[start..]
    ensures start == 0 && length.Some? && 0 <= length.value <= |s| ==> r == s[..length.value]
    ensures start == -1 && length.None? ==> r == if s == "" then "" else [s[|s| - 1]]
  {
    var from := SubstrStart(|s|, start);
    if from > |s| then ""
    else
      var to :=
        match length
        case None => |s|
        case Some(l) =>
          if l < 0 then (if |s| + l < from then from else |s| + l)
          else if from + l > |s| then |s|
          else from + l;
      s[from..to]
  }
}
