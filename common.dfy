/** Small shared datatypes. */
module Common {

  /** Python's `Optional[T]`: either `None` or a present value. */
  datatype Option<+T> = None | Some(value: T)

  /** `needle` occurs somewhere inside `haystack` (Python's `in` on strings). */
  ghost predicate Contains(haystack: string, needle: string)
  {
    exists i, j :: 0 <= i <= j <= |haystack| && haystack[i..j] == needle
  }
}
