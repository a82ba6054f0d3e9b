/**
 * The two ways of exchanging two `inout` values shown in the playground. Swift's
 * `inout` parameters are written back on return, so each swap takes the old values
 * and returns the new ones.
 */
module Tuples {

  /** `swap1`: exchange through a temporary. */
  method Swap1<T>(a: T, b: T) returns (a': T, b': T)
    ensures a' == b && b' == a
  {
    var temp := a;
    a' := b;
    b' := temp;
  }

  /** `swap2`: exchange by a tuple assignment; same postcondition as `Swap1`. */
  method Swap2<T>(a: T, b: T) returns (a': T, b': T)
    ensures a' == b && b' == a
  {
    a', b' := b, a;
  }

  /**
   * Swapping twice gives back the original values, in either order of the two
   * implementations: `Swap1` then `Swap2` gives `(a1, b1)`, `Swap2` then `Swap1` gives `(a2, b2)`.
   */
  method SwapTwice<T>(a: T, b: T) returns (a1: T, b1: T, a2: T, b2: T)
    ensures a1 == a && b1 == b
    ensures a2 == a && b2 == b
  {
    var x, y := Swap1(a, b);
    a1, b1 := Swap2(x, y);
    var u, v := Swap2(a, b);
    a2, b2 := Swap1(u, v);
  }
}
