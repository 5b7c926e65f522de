/** Python's integer floor division and sequence slicing, written out
    because Dafny's `/` is Euclidean and Dafny's `s[i..j]` neither clamps
    nor counts negative positions from the end. */
module PythonOps {

  /** `a // b` in Python: the quotient rounded toward negative infinity.
      Division by zero raises in Python, so `b` must be non-zero. */
  function FloorDiv(a: int, b: int): (q: int)
    requires b != 0
    ensures b > 0 ==> b * q <= a < b * q + b
    ensures b < 0 ==> b * q + b < a <= b * q
  {
    if b > 0 then a / b else (-a) / (-b)
  }

  /** A slice bound after Python's adjustment for a sequence of length `n`
      (step 1): a negative bound counts back from the end, then the bound is
      clamped into 0..n. */
  function AdjustIndex(i: int, n: nat): (r: nat)
    ensures r <= n
    ensures 0 <= i <= n ==> r == i
    ensures i < 0 && 0 <= n + i ==> r == n + i
    ensures n + i < 0 ==> r == 0
    ensures n < i ==> r == n
  {
    if i < 0 then (if i + n < 0 then 0 else i + n)
    else if i >= n then n
    else i
  }

  /** `s[i:j]` in Python. An empty range (stop at or before start after
      adjustment) yields the empty sequence, never an error. */
  function Slice<T>(s: seq<T>, i: int, j: int): (r: seq<T>)
    ensures var lo, hi := AdjustIndex(i, |s|), AdjustIndex(j, |s|);
            |r| == (if lo < hi then hi - lo else 0) &&
            forall k :: 0 <= k < |r| ==> r[k] == s[lo + k]
  {
    var lo, hi := AdjustIndex(i, |s|), AdjustIndex(j, |s|);
    if lo < hi then s[lo..hi] else []
  }

  /** The position a Python index denotes in a sequence of length `n`,
      before any clamping. */
  function Resolve(i: int, n: nat): int
  {
    if i < 0 then i + n else i
  }

  /** Reference definition of slicing: the elements of `s` whose position
      `k` satisfies `lo <= k < hi`, in their original order. */
  function Keep<T>(s: seq<T>, lo: int, hi: int): seq<T>
  {
    if s == [] then []
    else (if lo <= 0 < hi then [s[0]] else []) + Keep(s[1..], lo - 1, hi - 1)
  }

  function Clamp(x: int, n: nat): nat
  {
    if x < 0 then 0 else if x > n then n else x
  }

  /** The run of `s` between positions `a` and `b`, empty when `b <= a`. */
  function Run<T>(s: seq<T>, a: nat, b: nat): seq<T>
    requires a <= |s| && b <= |s|
  {
    if a < b then s[a..b] else []
  }

  lemma RunCons<T>(s: seq<T>, b: nat)
    requires 1 <= b <= |s|
    ensures [s[0]] + Run(s[1..], 0, b - 1) == Run(s, 0, b)
  {
    assert s[0..b] == [s[0]] + s[1..b];
  }

  lemma RunShift<T>(s: seq<T>, a: nat, b: nat)
    requires 1 <= a <= |s| && b <= |s|
    ensures Run(s[1..], a - 1, if b == 0 then 0 else b - 1) == Run(s, a, b)
  {
  }

  /** Keeping the positions in `lo..hi` selects one contiguous run of `s`. */
  lemma {:induction false} KeepIsRun<T>(s: seq<T>, lo: int, hi: int)
    ensures Keep(s, lo, hi) == Run(s, Clamp(lo, |s|), Clamp(hi, |s|))
  {
    if s != [] {
      var t := s[1..];
      KeepIsRun(t, lo - 1, hi - 1);
      var b := Clamp(hi, |s|);
      if lo <= 0 < hi {
        assert Clamp(lo - 1, |t|) == 0 && Clamp(hi - 1, |t|) == b - 1;
        RunCons(s, b);
      } else if hi <= 0 || hi <= lo {
        assert Clamp(hi - 1, |t|) <= Clamp(lo - 1, |t|);
      } else {
        var a := Clamp(lo, |s|);
        assert Clamp(lo - 1, |t|) == a - 1 && Clamp(hi - 1, |t|) == b - 1;
        RunShift(s, a, b);
      }
    }
  }

  /** Python's slice agrees with the reference definition: `s[i:j]` holds
      exactly the elements at positions `Resolve(i) <= k < Resolve(j)`, in
      order. */
  lemma SliceIsReference<T>(s: seq<T>, i: int, j: int)
    ensures Slice(s, i, j) == Keep(s, Resolve(i, |s|), Resolve(j, |s|))
  {
    var n := |s|;
    KeepIsRun(s, Resolve(i, n), Resolve(j, n));
    assert Clamp(Resolve(i, n), n) == AdjustIndex(i, n);
    assert Clamp(Resolve(j, n), n) == AdjustIndex(j, n);
  }
}
