/** The box family of quantum circuits: named gates, the phase rotations Rz and
    Rx, and the basis states (Ket) and effects (Bra) given by a bitstring. */
module Boxes {
  import opened Common

  /** Orientation of a gate: the library's `_dagger` flag, whose three values
      are `None` (self-inverse), `False` (forward) and `True` (reversed). */
  datatype DaggerFlag = SelfInverse | Forward | Reversed

  /** One box. A gate's numeric array is carried as its flat list of entries;
      entries that are complex or irrational are not part of this model. */
  datatype Box =
    | Gate(name: string, width: nat, entries: seq<real>, flag: DaggerFlag)
    | Ket(bits: seq<Bit>)
    | Bra(bits: seq<Bit>)
    | Rz(phase: real)
    | Rx(phase: real)
  {
    /** Number of input wires. */
    function Dom(): nat
    {
      match this
      case Gate(_, n, _, _) => n
      case Ket(_) => 0
      case Bra(b) => |b|
      case Rz(_) => 1
      case Rx(_) => 1
    }

    /** Number of output wires. */
    function Cod(): nat
    {
      match this
      case Gate(_, n, _, _) => n
      case Ket(b) => |b|
      case Bra(_) => 0
      case Rz(_) => 1
      case Rx(_) => 1
    }

    /** A box with no input and no output wire: a bare scalar. */
    predicate IsScalar()
    {
      Dom() == 0 && Cod() == 0
    }

    /** The adjoint box: a gate keeps its name, width and array and toggles its
        orientation unless it is self-inverse; a rotation negates its phase;
        a Ket becomes the Bra of the same bitstring and vice versa. */
    function Dagger(): (r: Box)
      ensures r.Dom() == Cod() && r.Cod() == Dom()
      ensures r.IsScalar() == IsScalar()
    {
      match this
      case Gate(name, n, a, flag) => Gate(name, n, a, Toggle(flag))
      case Ket(b) => Bra(b)
      case Bra(b) => Ket(b)
      case Rz(p) => Rz(-p)
      case Rx(p) => Rx(-p)
    }
  }

  function Toggle(flag: DaggerFlag): (r: DaggerFlag)
    ensures (r == SelfInverse) == (flag == SelfInverse)
    ensures flag != SelfInverse ==> r != flag
  {
    match flag
    case SelfInverse => SelfInverse
    case Forward => Reversed
    case Reversed => Forward
  }

  /** Dagger is an involution on every kind of box, and what it keeps and
      changes is exactly the following. */
  lemma DaggerInvolution(b: Box)
    ensures b.Dagger().Dagger() == b
    ensures b.Gate? ==> b.Dagger().Gate? && b.Dagger().name == b.name
                        && b.Dagger().width == b.width && b.Dagger().entries == b.entries
    ensures b.Gate? && b.flag == SelfInverse ==> b.Dagger() == b
    ensures b.Ket? ==> b.Dagger() == Bra(b.bits)
    ensures b.Bra? ==> b.Dagger() == Ket(b.bits)
    ensures b.Rz? ==> b.Dagger() == Rz(-b.phase)
    ensures b.Rx? ==> b.Dagger() == Rx(-b.phase)
  {
  }

  // ---------------------------------------------------------------------
  // The library's named gates.

  /** The named gates of the library and their widths. */
  const LibraryNames: seq<string> := ["SWAP", "CX", "H", "S", "T", "X", "Y", "Z"]

  predicate IsLibraryName(name: string)
  {
    name in LibraryNames
  }

  /** Width of a named gate: SWAP and CX act on two wires, the others on one. */
  function LibraryWidth(name: string): nat
  {
    if name == "SWAP" || name == "CX" then 2 else 1
  }

  /** SWAP, CX, H, X and Z are self-inverse; S, T and Y are not. */
  function LibraryFlag(name: string): DaggerFlag
  {
    if name in ["SWAP", "CX", "H", "X", "Z"] then SelfInverse else Forward
  }

  /** Arrays of the named gates whose entries are integers; the others (H, S,
      T, Y) have irrational or complex entries and are left empty here. */
  function LibraryArray(name: string): seq<real>
  {
    if name == "SWAP" then [1.0, 0.0, 0.0, 0.0, 0.0, 0.0, 1.0, 0.0, 0.0, 1.0, 0.0, 0.0, 0.0, 0.0, 0.0, 1.0]
    else if name == "CX" then [1.0, 0.0, 0.0, 0.0, 0.0, 1.0, 0.0, 0.0, 0.0, 0.0, 0.0, 1.0, 0.0, 0.0, 1.0, 0.0]
    else if name == "X" then [0.0, 1.0, 1.0, 0.0]
    else if name == "Z" then [1.0, 0.0, 0.0, -1.0]
    else []
  }

  /** The library constant of the given name. */
  function LibraryGate(name: string): (g: Box)
    requires IsLibraryName(name)
    ensures g.Gate? && g.name == name && g.Dom() == g.Cod() == LibraryWidth(name)
  {
    Gate(name, LibraryWidth(name), LibraryArray(name), LibraryFlag(name))
  }

  /** The self-inverse named gates are their own dagger; the others keep
      everything but their orientation, which becomes reversed. */
  lemma LibraryGateDagger(name: string)
    requires IsLibraryName(name)
    ensures LibraryFlag(name) == SelfInverse ==> LibraryGate(name).Dagger() == LibraryGate(name)
    ensures LibraryFlag(name) == Forward ==>
              LibraryGate(name).Dagger() == Gate(name, 1, LibraryArray(name), Reversed)
  {
  }

  // ---------------------------------------------------------------------
  // Arrays of basis states and effects.

  /** The vector of length n with a single 1 at index k. */
  function OneHot(n: nat, k: int): (v: seq<int>)
    ensures |v| == n
  {
    seq(n, i => if i == k then 1 else 0)
  }

  /** The one-wire basis vector of a bit: `[1, 0]` for 0 and `[0, 1]` for 1. */
  function BitVector(b: Bit): (v: seq<int>)
    ensures v == OneHot(2, b)
  {
    if b == 1 then [0, 1] else [1, 0]
  }

  /** Kronecker product of a vector with a two-entry vector. */
  function Kron2(a: seq<int>, v: seq<int>): (r: seq<int>)
    requires |v| == 2
    ensures |r| == 2 * |a|
  {
    seq(2 * |a|, i requires 0 <= i < 2 * |a| => a[i / 2] * v[i % 2])
  }

  /** The specification of a basis state's array: one-hot of length 2^|b| with
      its 1 at the big-endian value of b. */
  function KetVector(b: seq<Bit>): (v: seq<int>)
    ensures |v| == Pow2(|b|)
  {
    OneHot(Pow2(|b|), Value(b))
  }

  /** Tensoring a one-hot vector with a bit's basis vector shifts the hot index. */
  lemma KronOneHot(n: nat, k: nat, b: Bit)
    requires k < n
    ensures Kron2(OneHot(n, k), BitVector(b)) == OneHot(2 * n, 2 * k + b)
  {
    var l := Kron2(OneHot(n, k), BitVector(b));
    var r := OneHot(2 * n, 2 * k + b);
    forall i | 0 <= i < 2 * n
      ensures l[i] == r[i]
    {
      assert l[i] == OneHot(n, k)[i / 2] * BitVector(b)[i % 2];
      assert (i == 2 * k + b) == (i / 2 == k && i % 2 == b);
    }
  }

  /** `Ket(b).array`: the matrix [1] tensored with one basis vector per bit. */
  method KetArray(bits: seq<Bit>) returns (a: seq<int>)
    ensures a == KetVector(bits)
    ensures |a| == Pow2(|bits|) && a[Value(bits)] == 1
    ensures forall i :: 0 <= i < |a| && i != Value(bits) ==> a[i] == 0
  {
    a := [1];
    var i := 0;
    while i < |bits|
      invariant 0 <= i <= |bits|
      invariant a == OneHot(Pow2(i), Value(bits[..i]))
    {
      KronOneHot(Pow2(i), Value(bits[..i]), bits[i]);
      assert bits[..i + 1][..i] == bits[..i];
      a := Kron2(a, BitVector(bits[i]));
      i := i + 1;
    }
    assert bits[..i] == bits;
  }

  /** `Bra(b).array` is the array of `Ket(b)`. */
  method BraArray(bits: seq<Bit>) returns (a: seq<int>)
    ensures a == KetVector(bits)
  {
    a := KetArray(bits);
  }

  /** Sum of the entrywise products of two vectors of one length. */
  function Dot(u: seq<int>, v: seq<int>): int
    requires |u| == |v|
  {
    if u == [] then 0 else Dot(u[..|u| - 1], v[..|v| - 1]) + u[|u| - 1] * v[|v| - 1]
  }

  lemma {:induction false} DotOneHot(n: nat, i: nat, j: nat)
    requires i < n && j < n
    ensures Dot(OneHot(n, i), OneHot(n, j)) == if i == j then 1 else 0
    decreases n
  {
    var m := n - 1;
    assert OneHot(n, i)[..m] == OneHot(m, i);
    assert OneHot(n, j)[..m] == OneHot(m, j);
    if i < m && j < m {
      DotOneHot(m, i, j);
    } else {
      DotOneHotOutside(m, i, j);
    }
  }

  /** With one hot index past the end, the dot product is 0. */
  lemma {:induction false} DotOneHotOutside(m: nat, i: nat, j: nat)
    requires i >= m || j >= m
    ensures Dot(OneHot(m, i), OneHot(m, j)) == 0
    decreases m
  {
    if m > 0 {
      assert OneHot(m, i)[..m - 1] == OneHot(m - 1, i);
      assert OneHot(m, j)[..m - 1] == OneHot(m - 1, j);
      DotOneHotOutside(m - 1, i, j);
    }
  }

  /** The effect `Bra(x)` after the state `Ket(y)` of the same width evaluates
      to 1 when x == y and to 0 otherwise; in particular `Bra(b) << Ket(b)`
      is 1 for every bitstring b. */
  lemma BraAfterKet(x: seq<Bit>, y: seq<Bit>)
    requires |x| == |y|
    ensures Dot(KetVector(x), KetVector(y)) == if x == y then 1 else 0
  {
    DotOneHot(Pow2(|x|), Value(x), Value(y));
    if Value(x) == Value(y) {
      ValueInjective(x, y);
    }
  }
}
