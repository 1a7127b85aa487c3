/** Sequence operations that several components share. */
module Sequences {
  function Min(a: int, b: int): int { if a < b then a else b }

  function Max(a: int, b: int): int { if a < b then b else a }

  /** The last `n` elements, or everything when there are fewer. */
  function LastN<T>(s: seq<T>, n: nat): (r: seq<T>)
    ensures |r| == Min(|s|, n)
  {
    if |s| <= n then s else s[|s| - n..]
  }

  lemma LastNAppend<T>(x: seq<T>, y: seq<T>, n: nat)
    ensures LastN(LastN(x, n) + y, n) == LastN(x + y, n)
    ensures |y| >= n ==> LastN(x + y, n) == y[|y| - n..]
  {
  }

  /** How many elements at the beginning have a property. */
  function RunLength<T>(s: seq<T>, p: T -> bool): (n: nat)
    ensures n <= |s| && (forall i :: 0 <= i < n ==> p(s[i])) && (n < |s| ==> !p(s[n]))
  {
    if s == [] || !p(s[0]) then 0 else 1 + RunLength(s[1..], p)
  }

  /** A run ends where the elements without the property begin. */
  lemma {:induction false} RunLengthIs<T>(a: seq<T>, b: seq<T>, p: T -> bool)
    requires (forall i :: 0 <= i < |a| ==> p(a[i])) && (b != [] ==> !p(b[0]))
    ensures RunLength(a + b, p) == |a|
  {
    if a == [] {
      assert a + b == b;
    } else {
      RunLengthIs(a[1..], b, p);
      assert (a + b)[1..] == a[1..] + b;
    }
  }

  /** The concatenation of all pieces, in order. */
  function Flatten<T>(pieces: seq<seq<T>>): seq<T> {
    if pieces == [] then [] else Flatten(pieces[..|pieces| - 1]) + pieces[|pieces| - 1]
  }
}
