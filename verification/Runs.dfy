/** Trailing runs of a sequence: the plain definition that the counters of the prober are compared with. */
module Runs {

  /** Everything but the last element. */
  function ButLast<T>(s: seq<T>): (r: seq<T>)
    requires s != []
    ensures |r| == |s| - 1
  {
    s[..|s| - 1]
  }

  function Last<T>(s: seq<T>): T
    requires s != []
  {
    s[|s| - 1]
  }

  /** The number of elements at the end of `s` that equal `v`. */
  function Trailing<T(==)>(s: seq<T>, v: T): (n: nat)
    ensures n <= |s|
  {
    if s == [] || Last(s) != v then 0 else 1 + Trailing(ButLast(s), v)
  }

  function Min(a: int, b: int): int {
    if a <= b then a else b
  }

  function Max(a: int, b: int): int {
    if a >= b then a else b
  }

  function Repeat<T>(x: T, n: nat): (s: seq<T>)
    ensures |s| == n
    ensures forall i :: 0 <= i < n ==> s[i] == x
  {
    if n == 0 then [] else Repeat(x, n - 1) + [x]
  }

  /** The last `n` elements of `s`, or all of it when it is shorter. */
  function Suffix<T>(s: seq<T>, n: nat): seq<T> {
    if |s| <= n then s else s[|s| - n..]
  }

  /** Appending a block of `v`s extends the trailing run of `v` by the length of the block. */
  lemma {:induction false} TrailingAppend<T>(s: seq<T>, t: seq<T>, v: T)
    requires forall i :: 0 <= i < |t| ==> t[i] == v
    ensures Trailing(s + t, v) == Trailing(s, v) + |t|
  {
    if t == [] {
      assert s + t == s;
    } else {
      TrailingAppend(s, ButLast(t), v);
      assert ButLast(s + t) == s + ButLast(t);
      assert Last(s + t) == Last(t);
    }
  }

  /** Cutting a sequence to its last `n` elements caps every trailing run at `n`. */
  lemma {:induction false} TrailingOfSuffix<T>(s: seq<T>, n: nat, v: T)
    ensures Trailing(Suffix(s, n), v) == Min(Trailing(s, v), n)
  {
    if |s| > n && n > 0 {
      TrailingOfSuffix(ButLast(s), n - 1, v);
      assert ButLast(Suffix(s, n)) == Suffix(ButLast(s), n - 1);
    }
  }

  lemma {:induction false} TrailingElements<T>(s: seq<T>, v: T)
    ensures forall i :: |s| - Trailing(s, v) <= i < |s| ==> s[i] == v
  {
    if s != [] && Last(s) == v {
      TrailingElements(ButLast(s), v);
    }
  }
}
