/** Shared vocabulary: errors, bits, big-endian binary values and the
    Python list-slicing conventions the translation code relies on. */
module Common {

  /** The exceptions the library raises, one constructor per kind. */
  datatype Error =
    | UnsupportedGate   // NotImplementedError / AttributeError on an unknown gate name
    | InvalidSwap       // ValueError on a swap that is neither qubit/qubit, bit/bit nor mixed
    | EmptyResult       // RuntimeError when the backend returns no counts
    | IndexOutOfRange   // IndexError on a list the code indexes past its end

  datatype Result<T> = Ok(value: T) | Err(error: Error)

  datatype Option<T> = None | Some(value: T)

  /** A classical bit as the library writes it in bitstrings: 0 or 1. */
  type Bit = b: int | 0 <= b <= 1

  function Pow2(n: nat): (r: nat)
    ensures r >= 1
  {
    if n == 0 then 1 else 2 * Pow2(n - 1)
  }

  /** Big-endian value of a bitstring: the first bit is the most significant. */
  function Value(s: seq<Bit>): (v: nat)
    ensures v < Pow2(|s|)
  {
    if s == [] then 0 else 2 * Value(s[..|s| - 1]) + s[|s| - 1]
  }

  /** The same value read from the front, used where a recursion on the head is easier. */
  lemma {:induction false} ValueCons(b: Bit, s: seq<Bit>)
    ensures Value([b] + s) == b * Pow2(|s|) + Value(s)
    decreases |s|
  {
    if s == [] {
      assert ([b] + s)[..0] == [];
    } else {
      var t := [b] + s;
      assert t[..|t| - 1] == [b] + s[..|s| - 1];
      ValueCons(b, s[..|s| - 1]);
    }
  }

  /** Two bitstrings of one length with the same value are equal. */
  lemma {:induction false} ValueInjective(x: seq<Bit>, y: seq<Bit>)
    requires |x| == |y| && Value(x) == Value(y)
    ensures x == y
    decreases |x|
  {
    if x != [] {
      var n := |x| - 1;
      assert x[n] == Value(x) % 2 && y[n] == Value(y) % 2;
      ValueInjective(x[..n], y[..n]);
      assert x == x[..n] + [x[n]] && y == y[..n] + [y[n]];
    }
  }

  /** `[lo, lo+1, ..., hi-1]`, Python's `list(range(lo, hi))`. */
  function Range(lo: int, hi: int): (r: seq<int>)
    ensures |r| == if lo <= hi then hi - lo else 0
    ensures forall k :: 0 <= k < |r| ==> r[k] == lo + k
    decreases hi - lo
  {
    if lo >= hi then [] else [lo] + Range(lo + 1, hi)
  }

  /** A non-empty sequence is its prefix followed by its last element. */
  lemma SnocSplit<T>(s: seq<T>)
    requires s != []
    ensures s == s[..|s| - 1] + [s[|s| - 1]]
  {
  }

  /** `[lo, ..., hi - 1]` grows at its end one element at a time. */
  lemma RangeSnoc(lo: int, hi: int)
    requires lo <= hi
    ensures Range(lo, hi + 1) == Range(lo, hi) + [hi]
  {
    assert forall k :: 0 <= k < hi + 1 - lo ==> Range(lo, hi + 1)[k] == (Range(lo, hi) + [hi])[k];
  }

  /** `[hi - 1, hi - 2, ..., lo]`, Python's `list(range(hi - 1, lo - 1, -1))`. */
  function Desc(hi: int, lo: int): (r: seq<int>)
    ensures |r| == if lo <= hi then hi - lo else 0
    ensures forall k :: 0 <= k < |r| ==> r[k] == hi - 1 - k
    decreases hi - lo
  {
    if hi <= lo then [] else Desc(hi, lo + 1) + [lo]
  }

  /** The elements of s in the opposite order. */
  function Reverse<T>(s: seq<T>): (r: seq<T>)
    ensures |r| == |s| && forall k :: 0 <= k < |s| ==> r[k] == s[|s| - 1 - k]
  {
    if s == [] then [] else Reverse(s[1..]) + [s[0]]
  }

  /** Python's `s[-r:]` for a count r >= 0: the last r elements, except that
      `s[-0:]` is the whole list and an r beyond the length also gives it. */
  function PySuffix<T>(s: seq<T>, r: nat): seq<T>
  {
    if r == 0 || r >= |s| then s else s[|s| - r..]
  }

  /** Python's `s[k]` for an index k that may be negative, as in `s[-1]`. */
  function PyIndex<T>(s: seq<T>, k: int): T
    requires -|s| <= k < |s|
  {
    if k >= 0 then s[k] else s[|s| + k]
  }

  /** Number of occurrences of x in s, Python's `s.count(x)`. */
  function Count<T(==)>(s: seq<T>, x: T): (n: nat)
    ensures n <= |s|
  {
    if s == [] then 0 else (if s[0] == x then 1 else 0) + Count(s[1..], x)
  }

  lemma {:induction false} CountConcat<T>(a: seq<T>, b: seq<T>, x: T)
    ensures Count(a + b, x) == Count(a, x) + Count(b, x)
    decreases |a|
  {
    if a == [] {
      assert a + b == b;
    } else {
      assert (a + b)[0] == a[0];
      assert (a + b)[1..] == a[1..] + b;
      CountConcat(a[1..], b, x);
    }
  }

  predicate Distinct<T(==)>(s: seq<T>)
  {
    forall i, j :: 0 <= i < j < |s| ==> s[i] != s[j]
  }
}
