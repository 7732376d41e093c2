/** Small shared vocabulary: optional values, time and bytes. */
module Basics {

  datatype Option<+T> = None | Some(value: T)

  type byte = b: int | 0 <= b < 0x100
  type u16 = n: int | 0 <= n < 0x1_0000
  type u32 = n: int | 0 <= n < 0x1_0000_0000

  type Bytes = seq<byte>

  /** Rust's `Instant::duration_since`: zero when `since` lies in the future. */
  function Elapsed(now: nat, since: nat): nat {
    if now < since then 0 else now - since
  }

  function Min(a: int, b: int): int {
    if a <= b then a else b
  }

  function Max(a: int, b: int): int {
    if a >= b then a else b
  }

  /** Multiplication by a positive factor keeps and reflects order. */
  lemma MulOrder(a: int, b: int, c: int)
    requires c > 0
    ensures a * c <= b * c <==> a <= b
    ensures a * c < b * c <==> a < b
  {
    if a <= b {
      assert (b - a) * c >= 0;
    }
    if a < b {
      assert (b - a) * c > 0;
    }
    if b <= a {
      assert (a - b) * c >= 0;
    }
  }

  /** All naturals below `n`. */
  function Below(n: nat): (s: set<nat>)
    ensures |s| == n
    ensures forall i: nat :: i in s <==> i < n
  {
    if n == 0 then {} else Below(n - 1) + {n - 1}
  }

  /** A set of naturals below `n` has at most `n` elements, and `n` only when it holds all of them. */
  lemma FullWhenAllBelow(s: set<nat>, n: nat)
    requires forall i :: i in s ==> i < n
    ensures |s| <= n
    ensures |s| == n <==> s == Below(n)
  {
    SubsetSize(s, Below(n));
  }

  lemma {:induction false} SubsetSize<T>(a: set<T>, b: set<T>)
    requires a <= b
    ensures |a| <= |b|
    ensures |a| == |b| ==> a == b
  {
    if a != {} {
      var x :| x in a;
      SubsetSize(a - {x}, b - {x});
      assert a == (a - {x}) + {x} && b == (b - {x}) + {x};
    }
  }
}
