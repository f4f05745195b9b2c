/** Small shared vocabulary: an optional value for the source's nullable
    pointers, and the counting fold that the award checks are built from. */
module Base {

  /** A pointer that may be NULL. */
  datatype Option<T> = None | Some(value: T)

  /** How many elements of `s` satisfy `p`, accumulated from the front the way
      the source's `FOR_ALL_*` loops increment a counter. */
  function Count<T>(s: seq<T>, p: T -> bool): (n: nat)
    ensures n <= |s|
  {
    if s == [] then 0 else Count(s[..|s| - 1], p) + (if p(s[|s| - 1]) then 1 else 0)
  }

  /** The positions of `s` whose element satisfies `p`: an independent
      definition of what `Count` counts. */
  function Matching<T>(s: seq<T>, p: T -> bool): set<nat>
  {
    set i: nat | i < |s| && p(s[i])
  }

  /** The counter reaches exactly the number of positions satisfying `p`. */
  lemma {:induction false} CountIsMatchingSize<T>(s: seq<T>, p: T -> bool)
    ensures Count(s, p) == |Matching(s, p)|
  {
    if s != [] {
      var last := |s| - 1;
      var front := s[..last];
      CountIsMatchingSize(front, p);
      assert Matching(s, p) == Matching(front, p) + (if p(s[last]) then {last} else {});
    }
  }

  /** Counting is additive over concatenation, so a count over a table may be
      split at any point. */
  lemma {:induction false} CountAppend<T>(s: seq<T>, t: seq<T>, p: T -> bool)
    ensures Count(s + t, p) == Count(s, p) + Count(t, p)
  {
    if t != [] {
      var last := |t| - 1;
      assert (s + t)[..|s + t| - 1] == s + t[..last];
      CountAppend(s, t[..last], p);
    } else {
      assert s + t == s;
    }
  }

  /** `n` copies of `x`. */
  function Repeat<T>(x: T, n: nat): (s: seq<T>)
    ensures |s| == n && forall i :: 0 <= i < n ==> s[i] == x
  {
    if n == 0 then [] else Repeat(x, n - 1) + [x]
  }

  /** Counting `n` copies of an element gives `n` or `0`. */
  lemma {:induction false} CountRepeat<T>(x: T, n: nat, p: T -> bool)
    ensures Count(Repeat(x, n), p) == if p(x) then n else 0
  {
    if n > 0 {
      assert Repeat(x, n)[..n - 1] == Repeat(x, n - 1);
      CountRepeat(x, n - 1, p);
    }
  }
}
