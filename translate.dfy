/** `to_tk` of the tket interface: the layers of a circuit walked left to
    right, with two lists mapping the circuit's wires to qubit and bit
    indices of a `TketCircuit`, and `box_from_tk` on the way back. */
module TkTranslate {
  import opened Common
  import opened Tket
  import Boxes
  import Circuits

  /** The two generating types of a quantum circuit. */
  datatype Wire = QubitWire | BitWire

  function NQ(t: seq<Wire>): nat
  {
    Count(t, QubitWire)
  }

  function NB(t: seq<Wire>): nat
  {
    Count(t, BitWire)
  }

  /** `qubit ** n` or `bit ** n`. */
  function Repeat(w: Wire, n: nat): (r: seq<Wire>)
    ensures |r| == n && forall k :: 0 <= k < n ==> r[k] == w
  {
    seq(n, _ => w)
  }

  lemma {:induction false} CountRepeat(w: Wire, n: nat)
    ensures Count(Repeat(w, n), w) == n
    ensures Count(Repeat(w, n), if w == QubitWire then BitWire else QubitWire) == 0
    decreases n
  {
    if n > 0 {
      assert Repeat(w, n)[1..] == Repeat(w, n - 1);
      CountRepeat(w, n - 1);
    }
  }

  /** The boxes `to_tk` dispatches on. A box with empty domain and codomain
      other than a Ket, Bits, Bra or Discard is a `ScalarBox` holding its
      `array[0]`. */
  datatype TkBox =
    | KetBox(bits: seq<Bit>)
    | BitsBox(bits: seq<Bit>)
    | MeasureBox
    | BraBox(bits: seq<Bit>)
    | DiscardBox(dom: seq<Wire>)
    | SwapBox(x: seq<Wire>, y: seq<Wire>)
    | ScalarBox(value: real)
    | RotationBox(name: string, phase: real)
    | GateBox(name: string, width: nat)
  {
    /** The number of qubits a rotation acts on: two for `CRz`, else one. */
    function RotationWidth(): nat
      requires RotationBox?
    {
      if name == "CRz" then 2 else 1
    }

    function Dom(): seq<Wire>
    {
      match this
      case KetBox(_) => []
      case BitsBox(_) => []
      case MeasureBox => [QubitWire]
      case BraBox(b) => Repeat(QubitWire, |b|)
      case DiscardBox(d) => d
      case SwapBox(x, y) => x + y
      case ScalarBox(_) => []
      case RotationBox(_, _) => Repeat(QubitWire, RotationWidth())
      case GateBox(_, n) => Repeat(QubitWire, n)
    }

    function Cod(): seq<Wire>
    {
      match this
      case KetBox(b) => Repeat(QubitWire, |b|)
      case BitsBox(b) => Repeat(BitWire, |b|)
      case MeasureBox => [BitWire]
      case BraBox(_) => []
      case DiscardBox(_) => []
      case SwapBox(x, y) => y + x
      case ScalarBox(_) => []
      case RotationBox(_, _) => Dom()
      case GateBox(_, _) => Dom()
    }

    /** The box is one the library can build: a rotation is Rx, Rz or CRz and
        a gate has at least one wire. */
    predicate Valid()
    {
      (RotationBox? ==> name in {"Rx", "Rz", "CRz"}) && (GateBox? ==> width >= 1)
    }
  }

  /** One layer `left @ box @ right` of a circuit. */
  datatype Layer = Layer(left: seq<Wire>, box: TkBox, right: seq<Wire>)
  {
    function Dom(): (t: seq<Wire>)
      ensures NQ(t) == NQ(left) + NQ(box.Dom()) + NQ(right)
      ensures NB(t) == NB(left) + NB(box.Dom()) + NB(right)
    {
      WireCounts(left, box.Dom(), right);
      left + box.Dom() + right
    }

    function Cod(): (t: seq<Wire>)
      ensures NQ(t) == NQ(left) + NQ(box.Cod()) + NQ(right)
      ensures NB(t) == NB(left) + NB(box.Cod()) + NB(right)
    {
      WireCounts(left, box.Cod(), right);
      left + box.Cod() + right
    }
  }

  /** The layers compose, starting from wires of type t. */
  predicate Typed(layers: seq<Layer>, t: seq<Wire>)
    decreases |layers|
  {
    layers == [] || (layers[0].box.Valid() && layers[0].Dom() == t && Typed(layers[1..], layers[0].Cod()))
  }

  /** The output type of composable layers. */
  function OutputType(layers: seq<Layer>, t: seq<Wire>): seq<Wire>
    decreases |layers|
  {
    if layers == [] then t else OutputType(layers[1..], layers[0].Cod())
  }

  // ---------------------------------------------------------------------
  // remove_ket1

  /** The positions where the bitstring has a 1, in increasing order. */
  function Ones(b: seq<Bit>): (r: seq<nat>)
    ensures forall m :: 0 <= m < |r| ==> r[m] < |b| && b[r[m]] == 1
    ensures forall j :: 0 <= j < |b| && b[j] == 1 ==> j in r
    ensures forall m, m' :: 0 <= m < m' < |r| ==> r[m] < r[m']
  {
    if b == [] then []
    else
      var n := |b| - 1;
      var rest := Ones(b[..n]);
      assert forall j :: 0 <= j < n ==> b[..n][j] == b[j];
      rest + (if b[n] == 1 then [n] else [])
  }

  lemma OnesSnoc(b: seq<Bit>, j: nat)
    requires j < |b|
    ensures Ones(b[..j + 1]) == Ones(b[..j]) + (if b[j] == 1 then [j] else [])
  {
    assert b[..j + 1][..j] == b[..j];
  }

  /** `remove_ket1`: a Ket becomes the all-zero Ket of its width followed by
      an X at each position where its bitstring has a 1, every other box is
      kept. Each entry is a box with its offset inside the original box. */
  function RemoveKet1(box: TkBox): (r: seq<(nat, TkBox)>)
    ensures !box.KetBox? ==> r == [(0, box)]
    ensures box.KetBox? ==> |r| == 1 + |Ones(box.bits)|
    ensures box.KetBox? ==> r[0] == (0, KetBox(seq(|box.bits|, _ => 0)))
    ensures box.KetBox? ==> forall m :: 1 <= m < |r| ==> r[m].1 == GateBox("X", 1) && r[m].0 < |box.bits| && box.bits[r[m].0] == 1
    ensures box.KetBox? ==> forall j :: 0 <= j < |box.bits| && box.bits[j] == 1 ==> (j, GateBox("X", 1)) in r
  {
    if box.KetBox? then
      var ones := Ones(box.bits);
      var r := [(0, KetBox(seq(|box.bits|, _ => 0)))] + seq(|ones|, m requires 0 <= m < |ones| => (ones[m], GateBox("X", 1)));
      assert forall j :: 0 <= j < |box.bits| && box.bits[j] == 1 ==> (j, GateBox("X", 1)) in r by {
        forall j | 0 <= j < |box.bits| && box.bits[j] == 1
          ensures (j, GateBox("X", 1)) in r
        {
          var m :| 0 <= m < |ones| && ones[m] == j;
          assert r[m + 1] == (j, GateBox("X", 1));
        }
      }
      r
    else [(0, box)]
  }

  // ---------------------------------------------------------------------
  // Index lists.

  /** Every entry is an index of a register of size n. */
  predicate InRange(s: seq<int>, n: int)
  {
    forall k :: 0 <= k < |s| ==> 0 <= s[k] < n
  }

  /** `start` of prepare_qubits / prepare_bits: one past the index of the
      last wire on the left (`s[-1]` when there is none), or the register
      size when the list is empty. */
  function Start(s: seq<int>, l: nat, n: int): int
    requires l <= |s|
  {
    if s != [] then PyIndex(s, l - 1) + 1 else n
  }

  lemma StartBounds(s: seq<int>, l: nat, n: int)
    requires l <= |s| && InRange(s, n) && 0 <= n
    ensures 0 <= Start(s, l, n) <= n
  {
  }

  /** The index of an existing unit after the register grew by k at start. */
  function Shifted(x: int, start: int, k: nat): int
  {
    if x >= start then x + k else x
  }

  function ShiftAll(s: seq<int>, start: int, k: nat): (r: seq<int>)
    ensures |r| == |s| && forall m :: 0 <= m < |s| ==> r[m] == Shifted(s[m], start, k)
  {
    seq(|s|, m requires 0 <= m < |s| => Shifted(s[m], start, k))
  }

  /** The index list after preparing k fresh wires between the first l and
      the last r entries, as the source writes it: the entries are not
      renumbered and `s[-r:]` is the whole list when r is 0. */
  function PrepareIndicesAsWritten(s: seq<int>, l: nat, k: nat, r: nat, n: int): seq<int>
    requires l <= |s|
  {
    var start := Start(s, l, n);
    s[..l] + Range(start, start + k) + PySuffix(s, r)
  }

  /** The index list after preparing k fresh wires between the first l and
      the last r entries: the fresh indices `[start, start + k)` in between,
      and every kept index renumbered as the register renaming moved it. */
  function PrepareIndices(s: seq<int>, l: nat, k: nat, r: nat, n: int): (res: seq<int>)
    requires l + r == |s|
    ensures |res| == l + k + r
  {
    var start := Start(s, l, n);
    ShiftAll(s[..l], start, k) + Range(start, start + k) + ShiftAll(s[|s| - r..], start, k)
  }

  /** Where each entry of the prepared list comes from. */
  lemma PrepareIndicesLayout(s: seq<int>, l: nat, k: nat, r: nat, n: int)
    requires l + r == |s|
    ensures forall m :: 0 <= m < l ==> PrepareIndices(s, l, k, r, n)[m] == Shifted(s[m], Start(s, l, n), k)
    ensures forall m :: l <= m < l + k ==> PrepareIndices(s, l, k, r, n)[m] == Start(s, l, n) + (m - l)
    ensures forall m :: l + k <= m < l + k + r ==> PrepareIndices(s, l, k, r, n)[m] == Shifted(s[m - k], Start(s, l, n), k)
  {
    var start := Start(s, l, n);
    var left := ShiftAll(s[..l], start, k);
    var right := ShiftAll(s[|s| - r..], start, k);
    assert PrepareIndices(s, l, k, r, n) == left + Range(start, start + k) + right;
    assert forall m :: 0 <= m < r ==> right[m] == Shifted(s[l + m], start, k);
  }

  /** Distinct indices below start stay put and those at or above it move
      past the k fresh ones, so they stay distinct and avoid the fresh ones. */
  lemma ShiftedApart(x: int, y: int, start: int, k: nat)
    ensures Shifted(x, start, k) < start || Shifted(x, start, k) >= start + k
    ensures x != y ==> Shifted(x, start, k) != Shifted(y, start, k)
  {
  }

  /** The prepared list maps the wires to distinct indices of the grown
      register: each old one renumbered as the renaming moved its unit, the
      fresh ones at `[start, start + k)`. */
  lemma PrepareIndicesSound(s: seq<int>, l: nat, k: nat, r: nat, n: nat)
    requires l + r == |s| && Distinct(s) && InRange(s, n)
    ensures Distinct(PrepareIndices(s, l, k, r, n))
    ensures InRange(PrepareIndices(s, l, k, r, n), n + k)
  {
    var start := Start(s, l, n);
    StartBounds(s, l, n);
    var res := PrepareIndices(s, l, k, r, n);
    PrepareIndicesLayout(s, l, k, r, n);
    forall a, b | 0 <= a < b < |res|
      ensures res[a] != res[b]
    {
      var a' := if a < l then a else a - k;
      var b' := if b < l then b else b - k;
      if a < l || a >= l + k {
        ShiftedApart(s[a'], s[a'], start, k);
        if b < l || b >= l + k {
          ShiftedApart(s[a'], s[b'], start, k);
        }
      } else if b >= l + k {
        ShiftedApart(s[b'], s[b'], start, k);
      }
    }
  }

  /** The prepared list as written repeats indices: with a wire on each side
      of one fresh qubit, the right wire still names qubit 1, which the
      renaming moved to 2 and the fresh qubit now uses; with no wire on the
      right, `s[-0:]` appends the whole list again. Renumbering and a proper
      suffix give distinct indices. */
  lemma PrepareIndicesRepeats()
    ensures PrepareIndicesAsWritten([0, 1], 1, 1, 1, 2) == [0, 1, 1]
    ensures PrepareIndicesAsWritten([0], 1, 1, 0, 1) == [0, 1, 0]
    ensures PrepareIndices([0, 1], 1, 1, 1, 2) == [0, 1, 2]
    ensures PrepareIndices([0], 1, 1, 0, 1) == [0, 1]
  {
    assert Range(1, 2) == [1];
    assert [0, 1][..1] == [0] && [0, 1][1..] == [1] && [0][..1] == [0] && [0][1..] == [];
    assert ShiftAll([0], 1, 1) == [0] && ShiftAll([1], 1, 1) == [2] && ShiftAll([], 1, 1) == [];
  }

  /** The index list after removing the wires between the first l and the
      last r entries, as the source writes it. */
  function DropIndicesAsWritten(s: seq<int>, l: nat, r: nat): seq<int>
    requires l <= |s|
  {
    s[..l] + PySuffix(s, r)
  }

  /** The index list after removing the wires between the first l and the
      last r entries. */
  function DropIndices(s: seq<int>, l: nat, r: nat): (res: seq<int>)
    requires l + r <= |s|
    ensures |res| == l + r
  {
    s[..l] + s[|s| - r..]
  }

  /** Removing wires keeps the others in order and drops exactly the removed ones' indices. */
  lemma DropIndicesSound(s: seq<int>, l: nat, r: nat, n: int)
    requires l + r <= |s| && Distinct(s) && InRange(s, n)
    ensures Distinct(DropIndices(s, l, r)) && InRange(DropIndices(s, l, r), n)
    ensures forall m :: l <= m < |s| - r ==> s[m] !in DropIndices(s, l, r)
    ensures forall m :: 0 <= m < l ==> DropIndices(s, l, r)[m] == s[m]
    ensures forall m :: l <= m < l + r ==> DropIndices(s, l, r)[m] == s[|s| - r + (m - l)]
  {
    var res := DropIndices(s, l, r);
    forall a, b | 0 <= a < b < |res|
      ensures res[a] != res[b]
    {
      var a' := if a < l then a else |s| - r + a - l;
      var b' := if b < l then b else |s| - r + b - l;
      assert res[a] == s[a'] && res[b] == s[b'] && a' < b';
    }
    forall m | l <= m < |s| - r
      ensures s[m] !in res
    {
      forall p | 0 <= p < |res|
        ensures res[p] != s[m]
      {
        var p' := if p < l then p else |s| - r + p - l;
        assert res[p] == s[p'] && p' != m;
      }
    }
  }

  /** Discarding or measuring the last wire as written keeps the whole list
      after the cut: the discarded index comes back, and a measured bit is
      followed by every earlier bit again. */
  lemma DropIndicesRepeats()
    ensures DropIndicesAsWritten([0, 1], 1, 0) == [0, 0, 1]
    ensures DropIndices([0, 1], 1, 0) == [0]
    ensures MeasuredBitsAsWritten([0], 1, 0, 1) == [0, 1, 0]
    ensures MeasuredBits([0], 1, 0, 1) == [0, 1]
  {
    assert [0, 1][..1] == [0] && [0, 1][2..] == [];
    assert [0][..1] == [0] && [0][1..] == [];
  }

  /** The bit list after measuring one qubit into the fresh bit b, as the
      source writes it. */
  function MeasuredBitsAsWritten(s: seq<int>, l: nat, r: nat, b: int): seq<int>
    requires l <= |s|
  {
    s[..l] + [b] + PySuffix(s, r)
  }

  /** The bit list after measuring one qubit into the fresh bit b. */
  function MeasuredBits(s: seq<int>, l: nat, r: nat, b: int): (res: seq<int>)
    requires l + r <= |s|
    ensures |res| == l + 1 + r
  {
    s[..l] + [b] + s[|s| - r..]
  }

  // ---------------------------------------------------------------------
  // Register renamings.

  function Mk(isBit: bool, i: int): Unit
  {
    if isBit then C(i) else Q(i)
  }

  /** `{q[i]: q[i + k] for i in range(start, end)}`, or the same on bits. */
  function ShiftRenaming(isBit: bool, start: int, end: int, k: nat): (ren: Renaming)
    ensures |ren| == if start <= end then end - start else 0
    ensures forall m :: 0 <= m < |ren| ==> ren[m] == (Mk(isBit, start + m), Mk(isBit, start + m + k))
  {
    seq(if start <= end then end - start else 0, m => (Mk(isBit, start + m), Mk(isBit, start + m + k)))
  }

  lemma ShiftRenamingDistinct(isBit: bool, start: int, end: int, k: nat)
    ensures KeysDistinct(ShiftRenaming(isBit, start, end, k))
    ensures BitIndicesDistinct(ShiftRenaming(isBit, start, end, k))
  {
  }

  /** The shift renaming moves the units `[start, end)` of its register up by k and no other unit. */
  lemma RenameShift(u: Unit, isBit: bool, start: int, end: int, k: nat)
    requires u.Q? || u.C?
    ensures Rename(u, ShiftRenaming(isBit, start, end, k)) ==
      if u.IsBit() == isBit && start <= u.i < end then Mk(isBit, u.i + k) else u
  {
    var ren := ShiftRenaming(isBit, start, end, k);
    if u.IsBit() == isBit && start <= u.i < end {
      var m := u.i - start;
      assert ren[m].0 == u;
      assert forall m' :: 0 <= m' < m ==> ren[m'].0 != u;
    } else {
      assert forall m :: 0 <= m < |ren| ==> ren[m].0 != u;
    }
  }

  /** After a shift of the units `[start, n)` by k, every command acts
      inside the register grown by k. */
  lemma ShiftStaysIn(cs: seq<Command>, isBit: bool, start: int, nq: int, nb: int, k: nat)
    requires CommandsIn(cs, nq, nb)
    ensures CommandsIn(RenameCommands(cs, ShiftRenaming(isBit, start, if isBit then nb else nq, k)),
                       if isBit then nq else nq + k, if isBit then nb + k else nb)
  {
    var ren := ShiftRenaming(isBit, start, if isBit then nb else nq, k);
    forall c, m | 0 <= c < |cs| && 0 <= m < |cs[c].args|
      ensures InRegisters(RenameCommands(cs, ren)[c].args[m], if isBit then nq else nq + k, if isBit then nb + k else nb)
    {
      assert InRegisters(cs[c].args[m], nq, nb);
      RenameShift(cs[c].args[m], isBit, start, if isBit then nb else nq, k);
    }
  }

  /** After a shift of the bits `[start, nb)` by k, every post-selected
      index is a bit of the grown register. */
  lemma ShiftKeepsPostSelection(ps: map<int, Bit>, start: int, nb: int, k: nat)
    requires KeysBelow(ps, nb)
    ensures KeysBelow(RenamePS(ps, ShiftRenaming(true, start, nb, k)), nb + k)
  {
    var ren := ShiftRenaming(true, start, nb, k);
    forall key | key in Targets(ren, ps)
      ensures 0 <= key < nb + k
    {
      var p :| p in ren && Relevant(p, ps) && p.1.Index() == key;
      var m :| 0 <= m < |ren| && ren[m] == p;
    }
  }

  /** The bound of the bit renaming as written: the qubit count. With no
      qubit and the bits [0, 1], preparing one fresh bit between them
      renames nothing, so the right wire keeps the name c[1] that the fresh
      bit also gets; the bit count as bound moves it to c[2]. */
  lemma PrepareBitsMissesBits()
    ensures Start([0, 1], 1, 2) == 1
    ensures Rename(C(1), ShiftRenaming(true, 1, 0, 1)) == C(1)
    ensures Rename(C(1), ShiftRenaming(true, 1, 2, 1)) == C(2)
  {
    RenameShift(C(1), true, 1, 0, 1);
    RenameShift(C(1), true, 1, 2, 1);
  }

  // ---------------------------------------------------------------------
  // Wire counts of layers.

  /** The qubits and bits of a layer are those left of, in and right of its box. */
  lemma WireCounts(left: seq<Wire>, mid: seq<Wire>, right: seq<Wire>)
    ensures NQ(left + mid + right) == NQ(left) + NQ(mid) + NQ(right)
    ensures NB(left + mid + right) == NB(left) + NB(mid) + NB(right)
  {
    CountConcat(left + mid, right, QubitWire);
    CountConcat(left, mid, QubitWire);
    CountConcat(left + mid, right, BitWire);
    CountConcat(left, mid, BitWire);
  }

  /** How many qubits and bits each kind of box consumes and produces. */
  lemma BoxCounts(box: TkBox)
    ensures box.KetBox? ==> box.Dom() == [] && NQ(box.Cod()) == |box.bits| && NB(box.Cod()) == 0
    ensures box.BitsBox? ==> box.Dom() == [] && NQ(box.Cod()) == 0 && NB(box.Cod()) == |box.bits|
    ensures box.MeasureBox? ==> NQ(box.Dom()) == 1 && NB(box.Dom()) == 0 && NQ(box.Cod()) == 0 && NB(box.Cod()) == 1
    ensures box.BraBox? ==> NQ(box.Dom()) == |box.bits| && NB(box.Dom()) == 0 && box.Cod() == []
    ensures box.DiscardBox? ==> box.Cod() == []
    ensures (box.MeasureBox? || box.BraBox?) ==> |box.Dom()| == NQ(box.Dom())
    ensures box.SwapBox? ==> NQ(box.Cod()) == NQ(box.Dom()) && NB(box.Cod()) == NB(box.Dom())
    ensures box.ScalarBox? ==> box.Dom() == [] && box.Cod() == []
    ensures (box.RotationBox? || box.GateBox?) ==>
              NQ(box.Dom()) == |box.Dom()| && NB(box.Dom()) == 0 && box.Cod() == box.Dom()
  {
    match box
    case KetBox(b) => CountRepeat(QubitWire, |b|);
    case BitsBox(b) => CountRepeat(BitWire, |b|);
    case BraBox(b) => CountRepeat(QubitWire, |b|);
    case SwapBox(x, y) =>
      CountConcat(x, y, QubitWire);
      CountConcat(y, x, QubitWire);
      CountConcat(x, y, BitWire);
      CountConcat(y, x, BitWire);
    case RotationBox(_, _) => CountRepeat(QubitWire, box.RotationWidth());
    case GateBox(_, n) => CountRepeat(QubitWire, n);
    case _ =>
  }

  // ---------------------------------------------------------------------
  // The steps of to_tk.

  /** The lists map the wires of type t, in order, to distinct units of the
      circuit's registers, and the circuit is valid. */
  predicate Tracks(tk: TketCircuit, qubits: seq<int>, bits: seq<int>, t: seq<Wire>)
    reads tk
  {
    tk.Valid()
    && |qubits| == NQ(t) && |bits| == NB(t)
    && Distinct(qubits) && Distinct(bits)
    && InRange(qubits, tk.nQubits) && InRange(bits, tk.nBits)
  }

  /** The loop of prepare_qubits / prepare_bits that builds the renaming. */
  method BuildShift(isBit: bool, start: int, end: int, k: nat) returns (ren: Renaming)
    ensures ren == ShiftRenaming(isBit, start, end, k)
  {
    ren := [];
    var i := start;
    while i < end
      invariant start <= i && (start <= end ==> i <= end) && (end < start ==> i == start)
      invariant ren == ShiftRenaming(isBit, start, i, k)
    {
      assert ShiftRenaming(isBit, start, i + 1, k) == ren + [(Mk(isBit, i), Mk(isBit, i + k))];
      ren := ren + [(Mk(isBit, i), Mk(isBit, i + k))];
      i := i + 1;
    }
    if end < start {
      assert ShiftRenaming(isBit, start, end, k) == [];
    }
  }

  /** The renaming and blank wires of `prepare_qubits`: the qubits from
      `start` on move k places up and k qubits are added. */
  method ShiftQubits(tk: TketCircuit, start: int, k: nat)
    requires tk.Valid()
    modifies tk
    ensures tk.Valid()
    ensures tk.nQubits == old(tk.nQubits) + k && tk.nBits == old(tk.nBits)
    ensures tk.commands == RenameCommands(old(tk.commands), ShiftRenaming(false, start, old(tk.nQubits), k))
    ensures tk.postSelection == old(tk.postSelection) && tk.scalar == old(tk.scalar)
  {
    var renaming := BuildShift(false, start, tk.nQubits, k);
    ShiftRenamingDistinct(false, start, tk.nQubits, k);
    RenameQubitsKeepsPS(tk.postSelection, renaming);
    ShiftStaysIn(tk.commands, false, start, tk.nQubits, tk.nBits, k);
    tk.RenameUnits(renaming);
    tk.AddBlankWires(k);
  }

  /** `prepare_qubits`: the qubits from `start` on are renamed k places up,
      k fresh qubits fill the gap, and the list gets the fresh indices
      between its first l and last r entries. */
  method PrepareQubits(tk: TketCircuit, qubits: seq<int>, l: nat, k: nat, r: nat) returns (res: seq<int>)
    requires tk.Valid() && l + r == |qubits| && Distinct(qubits) && InRange(qubits, tk.nQubits)
    modifies tk
    ensures tk.Valid() && Distinct(res) && InRange(res, tk.nQubits)
    ensures res == PrepareIndices(qubits, l, k, r, old(tk.nQubits))
    ensures tk.nQubits == old(tk.nQubits) + k && tk.nBits == old(tk.nBits)
    ensures tk.commands ==
              RenameCommands(old(tk.commands), ShiftRenaming(false, Start(qubits, l, old(tk.nQubits)), old(tk.nQubits), k))
    ensures tk.postSelection == old(tk.postSelection) && tk.scalar == old(tk.scalar)
  {
    var n := tk.nQubits;
    var start := if qubits != [] then PyIndex(qubits, l - 1) + 1 else n;
    assert start == Start(qubits, l, n);
    res := PrepareIndices(qubits, l, k, r, n);
    PrepareIndicesSound(qubits, l, k, r, n);
    ShiftQubits(tk, start, k);
  }

  /** The loop of `prepare_bits` adding k fresh bits. */
  method AddBits(tk: TketCircuit, k: nat)
    modifies tk
    ensures tk.nBits == old(tk.nBits) + k && tk.nQubits == old(tk.nQubits)
    ensures tk.commands == old(tk.commands) && tk.postSelection == old(tk.postSelection)
    ensures tk.scalar == old(tk.scalar)
  {
    var i := 0;
    while i < k
      invariant 0 <= i <= k
      invariant tk.nBits == old(tk.nBits) + i && tk.nQubits == old(tk.nQubits)
      invariant tk.commands == old(tk.commands) && tk.postSelection == old(tk.postSelection)
      invariant tk.scalar == old(tk.scalar)
    {
      tk.AddBit();
      i := i + 1;
    }
  }

  /** The renaming and new bits of `prepare_bits`, bounded by the bit count:
      the bits from `start` on, with their post-selections, move k places up
      and k bits are added. */
  method ShiftBits(tk: TketCircuit, start: int, k: nat)
    requires tk.Valid()
    modifies tk
    ensures tk.Valid()
    ensures tk.nBits == old(tk.nBits) + k && tk.nQubits == old(tk.nQubits)
    ensures tk.commands == RenameCommands(old(tk.commands), ShiftRenaming(true, start, old(tk.nBits), k))
    ensures tk.postSelection == RenamePS(old(tk.postSelection), ShiftRenaming(true, start, old(tk.nBits), k))
    ensures tk.scalar == old(tk.scalar)
  {
    var renaming := BuildShift(true, start, tk.nBits, k);
    ShiftRenamingDistinct(true, start, tk.nBits, k);
    ShiftStaysIn(tk.commands, true, start, tk.nQubits, tk.nBits, k);
    ShiftKeepsPostSelection(tk.postSelection, start, tk.nBits, k);
    tk.RenameUnits(renaming);
    AddBits(tk, k);
  }

  /** `prepare_bits`, with the renaming bounded by the bit count: the bits
      from `start` on and their post-selections are renamed k places up, k
      fresh bits fill the gap, and the list gets the fresh indices between
      its first l and last r entries. */
  method PrepareBits(tk: TketCircuit, bits: seq<int>, l: nat, k: nat, r: nat) returns (res: seq<int>)
    requires tk.Valid() && l + r == |bits| && Distinct(bits) && InRange(bits, tk.nBits)
    modifies tk
    ensures tk.Valid() && Distinct(res) && InRange(res, tk.nBits)
    ensures res == PrepareIndices(bits, l, k, r, old(tk.nBits))
    ensures tk.nBits == old(tk.nBits) + k && tk.nQubits == old(tk.nQubits)
    ensures tk.commands ==
              RenameCommands(old(tk.commands), ShiftRenaming(true, Start(bits, l, old(tk.nBits)), old(tk.nBits), k))
    ensures tk.postSelection ==
              RenamePS(old(tk.postSelection), ShiftRenaming(true, Start(bits, l, old(tk.nBits)), old(tk.nBits), k))
    ensures tk.scalar == old(tk.scalar)
  {
    var n := tk.nBits;
    var start := if bits != [] then PyIndex(bits, l - 1) + 1 else n;
    assert start == Start(bits, l, n);
    res := PrepareIndices(bits, l, k, r, n);
    PrepareIndicesSound(bits, l, k, r, n);
    ShiftBits(tk, start, k);
  }

  /** The measurements of the qubits qs into the fresh bits b0, b0 + 1, .... */
  function MeasureCommands(qs: seq<int>, b0: int): (r: seq<Command>)
    ensures |r| == |qs|
    ensures forall j :: 0 <= j < |qs| ==> r[j] == Command("Measure", [], [Q(qs[j]), C(b0 + j)])
  {
    seq(|qs|, j requires 0 <= j < |qs| => Command("Measure", [], [Q(qs[j]), C(b0 + j)]))
  }

  lemma MeasureCommandsSnoc(qs: seq<int>, b0: int, j: nat)
    requires j < |qs|
    ensures MeasureCommands(qs[..j + 1], b0) ==
            MeasureCommands(qs[..j], b0) + [Command("Measure", [], [Q(qs[j]), C(b0 + j)])]
  {
    assert MeasureCommands(qs[..j + 1], b0)[j] == Command("Measure", [], [Q(qs[j]), C(b0 + j)]);
  }

  /** The post-selection of the fresh bits b0, b0 + 1, ... on a Bra's bitstring. */
  function BraSelection(b0: int, bs: seq<Bit>): (r: map<int, Bit>)
    ensures forall i {:trigger i in r} :: i in r <==> b0 <= i < b0 + |bs|
    ensures forall i {:trigger r[i]} :: i in r ==> r[i] == bs[i - b0]
  {
    if bs == [] then map[]
    else
      var n := |bs| - 1;
      assert forall m :: 0 <= m < n ==> bs[..n][m] == bs[m];
      BraSelection(b0, bs[..n])[b0 + n := bs[n]]
  }

  lemma BraSelectionSnoc(b0: int, bs: seq<Bit>, j: nat)
    requires j < |bs|
    ensures BraSelection(b0, bs[..j + 1]) == BraSelection(b0, bs[..j])[b0 + j := bs[j]]
  {
    assert bs[..j + 1][..j] == bs[..j];
  }

  /** Post-selecting one more bit on top of a union is the union with the
      extended map. */
  lemma UnionUpdate(p: map<int, Bit>, m: map<int, Bit>, k: int, v: Bit)
    ensures (p + m) + map[k := v] == p + m[k := v]
  {
  }

  /** One step of `measure_qubits`: a fresh bit, whose index is the current
      bit count, receives the measurement of qubit q. */
  method MeasureInto(tk: TketCircuit, q: int) returns (b: int)
    requires tk.Valid() && 0 <= q < tk.nQubits
    modifies tk
    ensures tk.Valid() && b == old(tk.nBits) && tk.nBits == b + 1 && tk.nQubits == old(tk.nQubits)
    ensures tk.commands == old(tk.commands) + [Command("Measure", [], [Q(q), C(b)])]
    ensures tk.postSelection == old(tk.postSelection) && tk.scalar == old(tk.scalar)
  {
    b := tk.nBits;
    tk.AddBit();
    tk.Measure(q, b);
  }

  /** The loop of `measure_qubits`: each qubit of qs in turn is measured
      into a fresh bit; for a Bra (`bra`), that bit is post-selected on the
      matching entry of `sel`. */
  method MeasureEach(tk: TketCircuit, qs: seq<int>, bra: bool, sel: seq<Bit>)
    requires tk.Valid() && InRange(qs, tk.nQubits) && (bra ==> |sel| == |qs|)
    modifies tk
    ensures tk.Valid() && tk.nBits == old(tk.nBits) + |qs| && tk.nQubits == old(tk.nQubits)
    ensures tk.commands == old(tk.commands) + MeasureCommands(qs, old(tk.nBits))
    ensures tk.postSelection ==
              if bra then old(tk.postSelection) + BraSelection(old(tk.nBits), sel) else old(tk.postSelection)
    ensures tk.scalar == old(tk.scalar)
  {
    ghost var c0, p0 := tk.commands, tk.postSelection;
    var b0 := tk.nBits;
    var j := 0;
    while j < |qs|
      invariant 0 <= j <= |qs| && tk.Valid()
      invariant tk.nBits == b0 + j && tk.nQubits == old(tk.nQubits) && tk.scalar == old(tk.scalar)
      invariant tk.commands == c0 + MeasureCommands(qs[..j], b0)
      invariant tk.postSelection == if bra then p0 + BraSelection(b0, sel[..j]) else p0
    {
      MeasureStep(tk, qs, bra, sel, j, b0, c0, p0);
      j := j + 1;
    }
    assert qs[..|qs|] == qs;
    assert bra ==> sel[..|qs|] == sel;
  }

  /** One round of the loop of `measure_qubits`: qubit j is measured into
      the fresh bit `b0 + j`, which a Bra post-selects on its j-th bit. */
  method MeasureStep(tk: TketCircuit, qs: seq<int>, bra: bool, sel: seq<Bit>, j: nat, b0: int,
                     ghost c0: seq<Command>, ghost p0: map<int, Bit>)
    requires tk.Valid() && InRange(qs, tk.nQubits) && (bra ==> |sel| == |qs|) && j < |qs|
    requires tk.nBits == b0 + j
    requires tk.commands == c0 + MeasureCommands(qs[..j], b0)
    requires tk.postSelection == if bra then p0 + BraSelection(b0, sel[..j]) else p0
    modifies tk
    ensures tk.Valid() && tk.nBits == b0 + j + 1 && tk.nQubits == old(tk.nQubits) && tk.scalar == old(tk.scalar)
    ensures tk.commands == c0 + MeasureCommands(qs[..j + 1], b0)
    ensures tk.postSelection == if bra then p0 + BraSelection(b0, sel[..j + 1]) else p0
  {
    var iBit := MeasureInto(tk, qs[j]);
    MeasureCommandsSnoc(qs, b0, j);
    if bra {
      BraSelectionSnoc(b0, sel, j);
      UnionUpdate(p0, BraSelection(b0, sel[..j]), iBit, sel[j]);
      tk.PostSelect(map[iBit := sel[j]]);
    }
  }

  /** `measure_qubits`: each qubit of the box is measured into a fresh bit
      whose index is the current bit count; a Bra post-selects that bit on
      its bitstring's entry, a Measure puts the bit in the list in place of
      its qubit. */
  method MeasureQubits(tk: TketCircuit, qubits: seq<int>, bits: seq<int>, lq: nat, lb: nat, rb: nat, box: TkBox)
    returns (res: seq<int>)
    requires box.MeasureBox? || box.BraBox?
    requires tk.Valid() && lq + |box.Dom()| <= |qubits| && InRange(qubits, tk.nQubits)
    requires lb + rb == |bits| && Distinct(bits) && InRange(bits, tk.nBits)
    modifies tk
    ensures tk.Valid() && Distinct(res) && InRange(res, tk.nBits)
    ensures tk.nBits == old(tk.nBits) + |box.Dom()| && tk.nQubits == old(tk.nQubits)
    ensures tk.commands == old(tk.commands) + MeasureCommands(qubits[lq..lq + |box.Dom()|], old(tk.nBits))
    ensures tk.postSelection ==
              old(tk.postSelection) + (if box.BraBox? then BraSelection(old(tk.nBits), box.bits) else map[])
    ensures tk.scalar == old(tk.scalar)
    ensures res == if box.MeasureBox? then MeasuredBits(bits, lb, rb, old(tk.nBits)) else bits
  {
    var b0 := tk.nBits;
    MeasureEach(tk, qubits[lq..lq + |box.Dom()|], box.BraBox?, if box.BraBox? then box.bits else []);
    if box.BraBox? {
      res := bits;
    } else {
      assert old(tk.postSelection) + map[] == old(tk.postSelection);
      res := bits[..lb] + [b0] + bits[|bits| - rb..];
      assert forall m :: 0 <= m < |res| && m != lb ==> res[m] in bits;
    }
  }

  /** The X gates `remove_ket1` puts after the all-zero Ket, one per 1 of
      the bitstring, on the Ket's qubits qs. */
  function XCommands(qs: seq<int>, b: seq<Bit>): (r: seq<Command>)
    requires |b| <= |qs|
    ensures |r| == |Ones(b)|
  {
    var ones := Ones(b);
    seq(|ones|, m requires 0 <= m < |ones| => Command("X", [], [Q(qs[ones[m]])]))
  }

  lemma XCommandsSnoc(qs: seq<int>, b: seq<Bit>, j: nat)
    requires j < |b| <= |qs|
    ensures XCommands(qs, b[..j + 1]) ==
            XCommands(qs, b[..j]) + (if b[j] == 1 then [Command("X", [], [Q(qs[j])])] else [])
  {
    OnesSnoc(b, j);
  }

  /** An X gate on qubit q. */
  method FlipQubit(tk: TketCircuit, q: int)
    requires tk.Valid() && 0 <= q < tk.nQubits
    modifies tk
    ensures tk.Valid() && tk.commands == old(tk.commands) + [Command("X", [], [Q(q)])]
    ensures tk.nQubits == old(tk.nQubits) && tk.nBits == old(tk.nBits)
    ensures tk.postSelection == old(tk.postSelection) && tk.scalar == old(tk.scalar)
  {
    tk.AddGate("X", [], [q]);
    assert seq(1, m requires 0 <= m < 1 => Q([q][m])) == [Q(q)];
  }

  /** Applies the X gates of `remove_ket1` to a freshly prepared Ket. */
  method AddXGates(tk: TketCircuit, qs: seq<int>, b: seq<Bit>)
    requires tk.Valid() && |b| <= |qs| && InRange(qs, tk.nQubits)
    modifies tk
    ensures tk.Valid()
    ensures tk.commands == old(tk.commands) + XCommands(qs, b)
    ensures tk.nQubits == old(tk.nQubits) && tk.nBits == old(tk.nBits)
    ensures tk.postSelection == old(tk.postSelection) && tk.scalar == old(tk.scalar)
  {
    ghost var c0 := tk.commands;
    var j := 0;
    while j < |b|
      invariant 0 <= j <= |b| && tk.Valid()
      invariant tk.commands == c0 + XCommands(qs, b[..j])
      invariant tk.nQubits == old(tk.nQubits) && tk.nBits == old(tk.nBits)
      invariant tk.postSelection == old(tk.postSelection) && tk.scalar == old(tk.scalar)
    {
      XCommandsSnoc(qs, b, j);
      if b[j] == 1 {
        FlipQubit(tk, qs[j]);
      }
      j := j + 1;
    }
    assert b[..|b|] == b;
  }

  /** The error, if any, that translating one box raises: a swap of more
      than one wire on a side, or a gate tket has no method for. */
  function LayerError(box: TkBox): Option<Error>
  {
    match box
    case SwapBox(x, y) => if |x| == 1 && |y| == 1 then None else Some(InvalidSwap)
    case GateBox(name, _) => if Boxes.IsLibraryName(name) then None else Some(UnsupportedGate)
    case _ => None
  }

  /** The command `add_gate` emits for a rotation (angle doubled, since tket
      counts half-turns) or a named gate, on the qubits qs. */
  function GateCommand(box: TkBox, qs: seq<int>): Command
    requires box.RotationBox? || box.GateBox?
  {
    var args := seq(|qs|, m requires 0 <= m < |qs| => Q(qs[m]));
    if box.RotationBox? then Command(box.name, [2.0 * box.phase], args) else Command(box.name, [], args)
  }

  /** `add_gate`: the box on the qubits `qubits[l:l + width]`, or
      NotImplementedError for a name tket does not know. */
  method AddGate(tk: TketCircuit, qubits: seq<int>, l: nat, box: TkBox) returns (err: Option<Error>)
    requires (box.RotationBox? || box.GateBox?) && l + |box.Dom()| <= |qubits|
    requires tk.Valid() && InRange(qubits, tk.nQubits)
    modifies tk
    ensures err == LayerError(box) && tk.Valid()
    ensures err.None? ==> tk.commands == old(tk.commands) + [GateCommand(box, qubits[l..l + |box.Dom()|])]
    ensures err.Some? ==> tk.commands == old(tk.commands)
    ensures tk.nQubits == old(tk.nQubits) && tk.nBits == old(tk.nBits)
    ensures tk.postSelection == old(tk.postSelection) && tk.scalar == old(tk.scalar)
  {
    var iQubits := qubits[l..l + |box.Dom()|];
    if box.RotationBox? {
      tk.AddGate(box.name, [2.0 * box.phase], iQubits);
      err := None;
    } else if Boxes.IsLibraryName(box.name) {
      tk.AddGate(box.name, [], iQubits);
      err := None;
    } else {
      err := Some(UnsupportedGate);
    }
  }

  /** A scalar layer: `scale` by the box's value. */
  method TranslateScalar(tk: TketCircuit, layer: Layer)
    requires layer.box.ScalarBox? && tk.Valid()
    modifies tk
    ensures tk.Valid()
    ensures tk.State() == ScalarState(old(tk.State()), layer)
  {
    tk.Scale(layer.box.value);
  }

  /** The X commands a Ket layer appends are those of the X boxes
      `remove_ket1` splits the Ket into, in order, each on the qubit at its
      offset inside the Ket. */
  lemma XCommandsAreKet1Gates(box: TkBox, qs: seq<int>)
    requires box.KetBox? && |box.bits| <= |qs|
    ensures |XCommands(qs, box.bits)| == |RemoveKet1(box)| - 1
    ensures forall m :: 1 <= m < |RemoveKet1(box)| ==>
              XCommands(qs, box.bits)[m - 1] == GateCommand(RemoveKet1(box)[m].1, [qs[RemoveKet1(box)[m].0]])
  {
    var ones, r := Ones(box.bits), RemoveKet1(box);
    forall m | 1 <= m < |r|
      ensures XCommands(qs, box.bits)[m - 1] == GateCommand(r[m].1, [qs[r[m].0]])
    {
      assert r[m] == (ones[m - 1], GateBox("X", 1));
      assert [Q(qs[ones[m - 1]])] == seq(1, k requires 0 <= k < 1 => Q([qs[ones[m - 1]]][k]));
    }
  }

  /** A rotation or gate layer: `AddGate` on the layer's qubits. */
  method TranslateGate(tk: TketCircuit, qubits: seq<int>, bits: seq<int>, layer: Layer) returns (err: Option<Error>)
    requires (layer.box.RotationBox? || layer.box.GateBox?) && Tracks(tk, qubits, bits, layer.Dom())
    modifies tk
    ensures err == LayerError(layer.box)
    ensures Tracks(tk, qubits, bits, layer.Cod())
    ensures tk.State() == GateState(old(tk.State()), qubits, layer)
  {
    BoxCounts(layer.box);
    err := AddGate(tk, qubits, NQ(layer.left), layer.box);
  }

  /** A Ket layer (split by `remove_ket1`): fresh qubits are prepared where
      its wires go, then flipped where its bitstring has a 1. */
  method TranslateKet(tk: TketCircuit, qubits: seq<int>, bits: seq<int>, layer: Layer) returns (qubits': seq<int>)
    requires layer.box.KetBox? && Tracks(tk, qubits, bits, layer.Dom())
    modifies tk
    ensures Tracks(tk, qubits', bits, layer.Cod())
    ensures qubits' == PrepareIndices(qubits, NQ(layer.left), |layer.box.bits|, NQ(layer.right), old(tk.nQubits))
    ensures tk.nQubits == old(tk.nQubits) + |layer.box.bits| && tk.nBits == old(tk.nBits)
    ensures tk.commands ==
              RenameCommands(old(tk.commands), QubitShift(qubits, layer, old(tk.nQubits)))
              + XCommands(qubits'[NQ(layer.left)..NQ(layer.left) + |layer.box.bits|], layer.box.bits)
    ensures tk.postSelection == old(tk.postSelection) && tk.scalar == old(tk.scalar)
    ensures (tk.State(), qubits', bits) == KetState(old(tk.State()), qubits, bits, layer)
  {
    BoxCounts(layer.box);
    var lq, rq, b := NQ(layer.left), NQ(layer.right), layer.box.bits;
    qubits' := PrepareQubits(tk, qubits, lq, |b|, rq);
    AddXGates(tk, qubits'[lq..lq + |b|], b);
    KetStateIs(old(tk.State()), tk.State(), qubits, bits, qubits', layer);
  }

  /** A Bits layer: fresh bits are prepared where its wires go. */
  method TranslateBits(tk: TketCircuit, qubits: seq<int>, bits: seq<int>, layer: Layer) returns (bits': seq<int>)
    requires layer.box.BitsBox? && Tracks(tk, qubits, bits, layer.Dom())
    modifies tk
    ensures Tracks(tk, qubits, bits', layer.Cod())
    ensures bits' == PrepareIndices(bits, NB(layer.left), |layer.box.bits|, NB(layer.right), old(tk.nBits))
    ensures tk.nBits == old(tk.nBits) + |layer.box.bits| && tk.nQubits == old(tk.nQubits)
    ensures tk.commands == RenameCommands(old(tk.commands), BitShift(bits, layer, old(tk.nBits)))
    ensures tk.postSelection == RenamePS(old(tk.postSelection), BitShift(bits, layer, old(tk.nBits)))
    ensures tk.scalar == old(tk.scalar)
    ensures (tk.State(), qubits, bits') == BitsState(old(tk.State()), qubits, bits, layer)
  {
    BoxCounts(layer.box);
    bits' := PrepareBits(tk, bits, NB(layer.left), |layer.box.bits|, NB(layer.right));
    BitsStateIs(old(tk.State()), tk.State(), qubits, bits, bits', layer);
  }

  /** A Measure or Bra layer: its qubits are measured and leave the qubit
      list; a Measure's bit joins the bit list. */
  method TranslateMeasure(tk: TketCircuit, qubits: seq<int>, bits: seq<int>, layer: Layer)
    returns (qubits': seq<int>, bits': seq<int>)
    requires (layer.box.MeasureBox? || layer.box.BraBox?) && Tracks(tk, qubits, bits, layer.Dom())
    modifies tk
    ensures Tracks(tk, qubits', bits', layer.Cod())
    ensures qubits' == DropIndices(qubits, NQ(layer.left), NQ(layer.right))
    ensures bits' == if layer.box.MeasureBox? then MeasuredBits(bits, NB(layer.left), NB(layer.right), old(tk.nBits)) else bits
    ensures tk.nBits == old(tk.nBits) + NQ(layer.box.Dom()) && tk.nQubits == old(tk.nQubits)
    ensures tk.commands == old(tk.commands) + MeasureCommands(MeasuredQubits(qubits, layer), old(tk.nBits))
    ensures tk.postSelection ==
              old(tk.postSelection) + (if layer.box.BraBox? then BraSelection(old(tk.nBits), layer.box.bits) else map[])
    ensures tk.scalar == old(tk.scalar)
    ensures (tk.State(), qubits', bits') == MeasureState(old(tk.State()), qubits, bits, layer)
  {
    BoxCounts(layer.box);
    var lq, rq := NQ(layer.left), NQ(layer.right);
    assert |qubits| == lq + |layer.box.Dom()| + rq;
    bits' := MeasureQubits(tk, qubits, bits, lq, NB(layer.left), NB(layer.right), layer.box);
    DropIndicesSound(qubits, lq, rq, tk.nQubits);
    qubits' := DropIndices(qubits, lq, rq);
    assert |qubits'| == NQ(layer.Cod()) && |bits'| == NB(layer.Cod());
    MeasureStateIs(old(tk.State()), tk.State(), qubits, bits, qubits', bits', layer);
  }

  /** A Discard layer: its wires leave the lists and the circuit is untouched. */
  method TranslateDiscard(tk: TketCircuit, qubits: seq<int>, bits: seq<int>, layer: Layer)
    returns (qubits': seq<int>, bits': seq<int>)
    requires layer.box.DiscardBox? && Tracks(tk, qubits, bits, layer.Dom())
    ensures Tracks(tk, qubits', bits', layer.Cod())
    ensures qubits' == DropIndices(qubits, NQ(layer.left), NQ(layer.right))
    ensures bits' == DropIndices(bits, NB(layer.left), NB(layer.right))
    ensures (tk.State(), qubits', bits') == DiscardState(tk.State(), qubits, bits, layer)
  {
    BoxCounts(layer.box);
    var lq, rq, lb, rb := NQ(layer.left), NQ(layer.right), NB(layer.left), NB(layer.right);
    DropIndicesSound(bits, lb, rb, tk.nBits);
    DropIndicesSound(qubits, lq, rq, tk.nQubits);
    bits' := bits[..lb] + bits[|bits| - rb..];
    qubits' := qubits[..lq] + qubits[|qubits| - rq..];
  }

  /** A Swap layer: two qubits or two bits exchange their names, a mixed
      swap changes nothing, any other swap raises ValueError. */
  method TranslateSwap(tk: TketCircuit, qubits: seq<int>, bits: seq<int>, layer: Layer) returns (err: Option<Error>)
    requires layer.box.SwapBox? && Tracks(tk, qubits, bits, layer.Dom())
    modifies tk
    ensures err == LayerError(layer.box)
    ensures err.None? ==> Tracks(tk, qubits, bits, layer.Cod())
    ensures tk.nQubits == old(tk.nQubits) && tk.nBits == old(tk.nBits) && tk.scalar == old(tk.scalar)
    ensures SwapKind(layer.box) == QubitSwap ==>
              && tk.commands == RenameCommands(old(tk.commands), Transposition(Q(SwappedPair(qubits, layer).0), Q(SwappedPair(qubits, layer).1)))
              && tk.postSelection == old(tk.postSelection)
    ensures SwapKind(layer.box) == BitSwap ==>
              && tk.commands == RenameCommands(old(tk.commands), Transposition(C(SwappedPair(bits, layer).0), C(SwappedPair(bits, layer).1)))
              && tk.postSelection == SwapPS(old(tk.postSelection), SwappedPair(bits, layer).0, SwappedPair(bits, layer).1)
    ensures SwapKind(layer.box) in {MixedSwap, BadSwap} ==>
              tk.commands == old(tk.commands) && tk.postSelection == old(tk.postSelection)
    ensures tk.State() == SwapState(old(tk.State()), qubits, bits, layer)
  {
    BoxCounts(layer.box);
    SwapKindCounts(layer.box);
    var x, y := layer.box.x, layer.box.y;
    if !(|x| == 1 && |y| == 1) {
      err := Some(InvalidSwap);
    } else if x[0] == QubitWire && y[0] == QubitWire {
      var off := NQ(layer.left);
      tk.SwapQubits(qubits[off], qubits[off + 1]);
      err := None;
    } else if x[0] == BitWire && y[0] == BitWire {
      var off := NB(layer.left);
      tk.SwapBits(bits[off], bits[off + 1]);
      err := None;
    } else {
      // bits and qubits live in different registers
      err := None;
    }
  }

  /** The qubits a Measure or Bra layer measures, in order. */
  function MeasuredQubits(qubits: seq<int>, layer: Layer): seq<int>
    requires |qubits| == NQ(layer.Dom())
  {
    BoxCounts(layer.box);
    var lq := NQ(layer.left);
    qubits[lq..lq + NQ(layer.box.Dom())]
  }

  /** The renaming a Bits layer applies to the bit register: the bits from
      the one after the last bit on its left move up by the number of fresh bits. */
  function BitShift(bits: seq<int>, layer: Layer, nBits: nat): Renaming
    requires layer.box.BitsBox? && NB(layer.left) <= |bits|
  {
    ShiftRenaming(true, Start(bits, NB(layer.left), nBits), nBits, |layer.box.bits|)
  }

  /** The renaming a Ket layer applies to the qubit register. */
  function QubitShift(qubits: seq<int>, layer: Layer, nQubits: nat): Renaming
    requires layer.box.KetBox? && NQ(layer.left) <= |qubits|
  {
    ShiftRenaming(false, Start(qubits, NQ(layer.left), nQubits), nQubits, |layer.box.bits|)
  }

  /** The four ways `to_tk` treats a Swap box. */
  datatype SwapCase = QubitSwap | BitSwap | MixedSwap | BadSwap

  /** Two qubits, two bits, a qubit and a bit, or more than one wire on a side. */
  function SwapKind(box: TkBox): SwapCase
    requires box.SwapBox?
  {
    if |box.x| != 1 || |box.y| != 1 then BadSwap
    else if box.x[0] == QubitWire && box.y[0] == QubitWire then QubitSwap
    else if box.x[0] == BitWire && box.y[0] == BitWire then BitSwap
    else MixedSwap
  }

  /** The wires a swap of each kind exchanges. */
  lemma SwapKindCounts(box: TkBox)
    requires box.SwapBox?
    ensures SwapKind(box) == QubitSwap ==> NQ(box.Dom()) == 2
    ensures SwapKind(box) == BitSwap ==> NB(box.Dom()) == 2
    ensures SwapKind(box) == BadSwap <==> LayerError(box).Some?
  {
    CountConcat(box.x, box.y, QubitWire);
    CountConcat(box.x, box.y, BitWire);
  }

  /** The indices of the two wires a swap of two qubits (two bits)
      exchanges, read from the qubit (bit) list. */
  function SwappedPair(ids: seq<int>, layer: Layer): (int, int)
    requires layer.box.SwapBox? && SwapKind(layer.box) in {QubitSwap, BitSwap}
    requires |ids| == if SwapKind(layer.box) == QubitSwap then NQ(layer.Dom()) else NB(layer.Dom())
  {
    SwapKindCounts(layer.box);
    var l := if SwapKind(layer.box) == QubitSwap then NQ(layer.left) else NB(layer.left);
    (ids[l], ids[l + 1])
  }

  /** A Ket layer: the qubit register grows by the Ket's width where its
      wires go, and an X is appended on each fresh qubit whose bit is 1. */
  function KetState(s: CircuitState, qubits: seq<int>, bits: seq<int>, layer: Layer)
    : (r: (CircuitState, seq<int>, seq<int>))
    requires layer.box.KetBox? && |qubits| == NQ(layer.Dom()) && |bits| == NB(layer.Dom())
    ensures |r.1| == NQ(layer.Cod()) && r.2 == bits
    ensures r.0.nQubits == s.nQubits + |layer.box.bits| && r.0.nBits == s.nBits
    ensures r.0.postSelection == s.postSelection && r.0.scalar == s.scalar
  {
    BoxCounts(layer.box);
    var lq, k := NQ(layer.left), |layer.box.bits|;
    var qs := PrepareIndices(qubits, lq, k, NQ(layer.right), s.nQubits);
    (s.(nQubits := s.nQubits + k,
        commands := RenameCommands(s.commands, QubitShift(qubits, layer, s.nQubits)) + XCommands(qs[lq..lq + k], layer.box.bits)),
     qs, bits)
  }

  /** The state a Ket layer leaves is the one with those registers and commands. */
  lemma KetStateIs(s: CircuitState, s': CircuitState, qubits: seq<int>, bits: seq<int>, qs: seq<int>, layer: Layer)
    requires layer.box.KetBox? && |qubits| == NQ(layer.Dom()) && |bits| == NB(layer.Dom())
    requires qs == PrepareIndices(qubits, NQ(layer.left), |layer.box.bits|, NQ(layer.right), s.nQubits)
    requires s'.nQubits == s.nQubits + |layer.box.bits| && s'.nBits == s.nBits
    requires s'.postSelection == s.postSelection && s'.scalar == s.scalar
    requires NQ(layer.left) + |layer.box.bits| <= |qs|
    requires s'.commands == RenameCommands(s.commands, QubitShift(qubits, layer, s.nQubits))
                            + XCommands(qs[NQ(layer.left)..NQ(layer.left) + |layer.box.bits|], layer.box.bits)
    ensures KetState(s, qubits, bits, layer) == (s', qs, bits)
  {
  }

  /** A Bits layer: the bit register grows by the box's width where its
      wires go, moving the later bits and their post-selections. */
  function BitsState(s: CircuitState, qubits: seq<int>, bits: seq<int>, layer: Layer)
    : (r: (CircuitState, seq<int>, seq<int>))
    requires layer.box.BitsBox? && |qubits| == NQ(layer.Dom()) && |bits| == NB(layer.Dom())
    ensures r.1 == qubits && |r.2| == NB(layer.Cod())
    ensures r.0.nBits == s.nBits + |layer.box.bits| && r.0.nQubits == s.nQubits && r.0.scalar == s.scalar
  {
    BoxCounts(layer.box);
    var ren := BitShift(bits, layer, s.nBits);
    (s.(nBits := s.nBits + |layer.box.bits|, commands := RenameCommands(s.commands, ren),
        postSelection := RenamePS(s.postSelection, ren)),
     qubits, PrepareIndices(bits, NB(layer.left), |layer.box.bits|, NB(layer.right), s.nBits))
  }

  /** The state a Bits layer leaves is the one with those registers, commands
      and post-selections. */
  lemma BitsStateIs(s: CircuitState, s': CircuitState, qubits: seq<int>, bits: seq<int>, bs: seq<int>, layer: Layer)
    requires layer.box.BitsBox? && |qubits| == NQ(layer.Dom()) && |bits| == NB(layer.Dom())
    requires bs == PrepareIndices(bits, NB(layer.left), |layer.box.bits|, NB(layer.right), s.nBits)
    requires s'.nBits == s.nBits + |layer.box.bits| && s'.nQubits == s.nQubits && s'.scalar == s.scalar
    requires s'.commands == RenameCommands(s.commands, BitShift(bits, layer, s.nBits))
    requires s'.postSelection == RenamePS(s.postSelection, BitShift(bits, layer, s.nBits))
    ensures BitsState(s, qubits, bits, layer) == (s', qubits, bs)
  {
  }

  /** A Measure or Bra layer: its qubits are measured into fresh bits and
      leave the qubit list; a Bra post-selects the fresh bits on its
      bitstring, a Measure's bit joins the bit list. */
  function MeasureState(s: CircuitState, qubits: seq<int>, bits: seq<int>, layer: Layer)
    : (r: (CircuitState, seq<int>, seq<int>))
    requires (layer.box.MeasureBox? || layer.box.BraBox?) && |qubits| == NQ(layer.Dom()) && |bits| == NB(layer.Dom())
    ensures |r.1| == NQ(layer.Cod()) && |r.2| == NB(layer.Cod())
    ensures r.0.nBits == s.nBits + NQ(layer.box.Dom()) && r.0.nQubits == s.nQubits && r.0.scalar == s.scalar
  {
    BoxCounts(layer.box);
    var lq, rq, lb, rb := NQ(layer.left), NQ(layer.right), NB(layer.left), NB(layer.right);
    (s.(nBits := s.nBits + NQ(layer.box.Dom()),
        commands := s.commands + MeasureCommands(MeasuredQubits(qubits, layer), s.nBits),
        postSelection := s.postSelection + (if layer.box.BraBox? then BraSelection(s.nBits, layer.box.bits) else map[])),
     DropIndices(qubits, lq, rq),
     if layer.box.MeasureBox? then MeasuredBits(bits, lb, rb, s.nBits) else bits)
  }

  /** The state a Measure or Bra layer leaves is the one with those
      registers, commands and post-selections. */
  lemma MeasureStateIs(s: CircuitState, s': CircuitState, qubits: seq<int>, bits: seq<int>,
                       qs: seq<int>, bs: seq<int>, layer: Layer)
    requires (layer.box.MeasureBox? || layer.box.BraBox?) && |qubits| == NQ(layer.Dom()) && |bits| == NB(layer.Dom())
    requires qs == DropIndices(qubits, NQ(layer.left), NQ(layer.right))
    requires bs == if layer.box.MeasureBox? then MeasuredBits(bits, NB(layer.left), NB(layer.right), s.nBits) else bits
    requires s'.nBits == s.nBits + NQ(layer.box.Dom()) && s'.nQubits == s.nQubits && s'.scalar == s.scalar
    requires s'.commands == s.commands + MeasureCommands(MeasuredQubits(qubits, layer), s.nBits)
    requires s'.postSelection ==
               s.postSelection + (if layer.box.BraBox? then BraSelection(s.nBits, layer.box.bits) else map[])
    ensures MeasureState(s, qubits, bits, layer) == (s', qs, bs)
  {
  }

  /** A Discard layer: its wires leave the lists and the circuit is unchanged. */
  function DiscardState(s: CircuitState, qubits: seq<int>, bits: seq<int>, layer: Layer)
    : (r: (CircuitState, seq<int>, seq<int>))
    requires layer.box.DiscardBox? && |qubits| == NQ(layer.Dom()) && |bits| == NB(layer.Dom())
    ensures r.0 == s && |r.1| == NQ(layer.Cod()) && |r.2| == NB(layer.Cod())
  {
    BoxCounts(layer.box);
    (s, DropIndices(qubits, NQ(layer.left), NQ(layer.right)), DropIndices(bits, NB(layer.left), NB(layer.right)))
  }

  /** A Swap layer: two qubits or two bits exchange their names in every
      command (two bits also their post-selections); a mixed swap and a
      swap that raises change nothing. */
  function SwapState(s: CircuitState, qubits: seq<int>, bits: seq<int>, layer: Layer): (r: CircuitState)
    requires layer.box.SwapBox? && |qubits| == NQ(layer.Dom()) && |bits| == NB(layer.Dom())
    ensures r.nQubits == s.nQubits && r.nBits == s.nBits && r.scalar == s.scalar
    ensures SwapKind(layer.box) in {MixedSwap, BadSwap} ==> r == s
  {
    match SwapKind(layer.box)
    case QubitSwap =>
      var (i, j) := SwappedPair(qubits, layer);
      s.(commands := RenameCommands(s.commands, Transposition(Q(i), Q(j))))
    case BitSwap =>
      var (i, j) := SwappedPair(bits, layer);
      s.(commands := RenameCommands(s.commands, Transposition(C(i), C(j))), postSelection := SwapPS(s.postSelection, i, j))
    case _ => s
  }

  /** A scalar layer: the circuit's scalar is multiplied by the box's value. */
  function ScalarState(s: CircuitState, layer: Layer): (r: CircuitState)
    requires layer.box.ScalarBox?
    ensures r.scalar == ScaledBy(s.scalar, layer.box)
    ensures r.(scalar := s.scalar) == s
  {
    s.(scalar := s.scalar * layer.box.value)
  }

  /** A rotation or gate layer: its command is appended on its qubits,
      unless tket has no method of its name. */
  function GateState(s: CircuitState, qubits: seq<int>, layer: Layer): (r: CircuitState)
    requires (layer.box.RotationBox? || layer.box.GateBox?) && |qubits| == NQ(layer.Dom())
    ensures r.nQubits == s.nQubits && r.nBits == s.nBits && r.scalar == s.scalar && r.postSelection == s.postSelection
    ensures LayerError(layer.box).Some? ==> r == s
  {
    BoxCounts(layer.box);
    var lq := NQ(layer.left);
    if LayerError(layer.box).Some? then s
    else s.(commands := s.commands + [GateCommand(layer.box, qubits[lq..lq + |layer.box.Dom()|])])
  }

  /** What one layer does to the circuit and to the two lists: the lists
      keep tracking the wires, the scalar is multiplied only by a scalar
      box, registers only grow, and a layer that raises changes nothing. */
  function LayerState(s: CircuitState, qubits: seq<int>, bits: seq<int>, layer: Layer)
    : (r: (CircuitState, seq<int>, seq<int>))
    requires |qubits| == NQ(layer.Dom()) && |bits| == NB(layer.Dom())
    ensures |r.1| == NQ(layer.Cod()) && |r.2| == NB(layer.Cod())
    ensures LayerError(layer.box).Some? ==> r == (s, qubits, bits)
    ensures r.0.scalar == ScaledBy(s.scalar, layer.box)
    ensures r.0.nQubits >= s.nQubits && r.0.nBits >= s.nBits
  {
    BoxCounts(layer.box);
    match layer.box
    case KetBox(_) => KetState(s, qubits, bits, layer)
    case BitsBox(_) => BitsState(s, qubits, bits, layer)
    case MeasureBox => MeasureState(s, qubits, bits, layer)
    case BraBox(_) => MeasureState(s, qubits, bits, layer)
    case DiscardBox(_) => DiscardState(s, qubits, bits, layer)
    case SwapBox(_, _) => SwapKindCounts(layer.box); (SwapState(s, qubits, bits, layer), qubits, bits)
    case ScalarBox(_) => (ScalarState(s, layer), qubits, bits)
    case _ => (GateState(s, qubits, layer), qubits, bits)
  }

  /** The circuit `to_tk` starts from: no qubit, no bit, no command, no
      post-selection and scalar 1. */
  const EmptyState := CircuitState(0, 0, [], map[], 1.0)

  /** The circuit and the two lists after translating the layers in turn,
      starting from wires of type t. */
  function Run(s: CircuitState, qubits: seq<int>, bits: seq<int>, layers: seq<Layer>, t: seq<Wire>)
    : (r: (CircuitState, seq<int>, seq<int>))
    requires Typed(layers, t) && |qubits| == NQ(t) && |bits| == NB(t)
    ensures |r.1| == NQ(OutputType(layers, t)) && |r.2| == NB(OutputType(layers, t))
    decreases |layers|
  {
    if layers == [] then (s, qubits, bits)
    else
      var next := LayerState(s, qubits, bits, layers[0]);
      Run(next.0, next.1, next.2, layers[1..], layers[0].Cod())
  }

  /** x multiplied in turn by each value of xs, as `scale` does. */
  function ScaleBy(x: real, xs: seq<real>): real
    decreases |xs|
  {
    if xs == [] then x else ScaleBy(x * xs[0], xs[1..])
  }

  /** Scaling in turn by each value is scaling once by their product. */
  lemma {:induction false} ScaleByProduct(x: real, xs: seq<real>)
    ensures ScaleBy(x, xs) == x * Circuits.Product(xs)
    decreases |xs|
  {
    if xs != [] {
      ScaleByProduct(x * xs[0], xs[1..]);
      assert xs == [xs[0]] + xs[1..];
      Circuits.ProductCons(xs[0], xs[1..]);
      MulAssoc(x, xs[0], Circuits.Product(xs[1..]));
    }
  }

  lemma MulAssoc(a: real, b: real, c: real)
    ensures a * b * c == a * (b * c)
  {
  }

  /** Scaling by a non-empty sequence scales by its first value first. */
  lemma ScaleByFirst(x: real, xs: seq<real>)
    requires xs != []
    ensures ScaleBy(x, xs) == ScaleBy(x * xs[0], xs[1..])
  {
  }

  /** Scaling by the values of the scalar boxes of some layers is scaling
      by the first layer's, then by the rest's. */
  lemma ScaleByStep(x: real, layers: seq<Layer>)
    requires layers != []
    ensures ScaleBy(x, ScalarsOf(layers)) == ScaleBy(ScaledBy(x, layers[0].box), ScalarsOf(layers[1..]))
  {
    var xs, rest := ScalarsOf(layers), ScalarsOf(layers[1..]);
    if layers[0].box.ScalarBox? {
      assert xs == [layers[0].box.value] + rest;
      assert xs[0] == layers[0].box.value && xs[1..] == rest;
      ScaleByFirst(x, xs);
    } else {
      assert xs == [] + rest == rest;
    }
  }

  /** The scalar a run ends with is the one it started with scaled in turn
      by the value of each scalar box, in layer order. */
  lemma {:induction false} RunScalar(s: CircuitState, qubits: seq<int>, bits: seq<int>, layers: seq<Layer>, t: seq<Wire>)
    requires Typed(layers, t) && |qubits| == NQ(t) && |bits| == NB(t)
    ensures Run(s, qubits, bits, layers, t).0.scalar == ScaleBy(s.scalar, ScalarsOf(layers))
    decreases |layers|
  {
    if layers != [] {
      var next := LayerState(s, qubits, bits, layers[0]);
      RunScalar(next.0, next.1, next.2, layers[1..], layers[0].Cod());
      ScaleByStep(s.scalar, layers);
    }
  }

  /** Translating from layer k on is translating layer k, then the rest. */
  lemma RunStep(s: CircuitState, qubits: seq<int>, bits: seq<int>, layers: seq<Layer>, k: nat, t: seq<Wire>)
    requires k < |layers| && Typed(layers[k..], t) && |qubits| == NQ(t) && |bits| == NB(t)
    ensures Typed(layers[k + 1..], layers[k].Cod())
    ensures Run(s, qubits, bits, layers[k..], t) ==
            var next := LayerState(s, qubits, bits, layers[k]);
            Run(next.0, next.1, next.2, layers[k + 1..], layers[k].Cod())
  {
    assert layers[k..][1..] == layers[k + 1..];
  }

  /** One pass of the layer loop of `to_tk`, dispatching on the box. */
  method TranslateLayer(tk: TketCircuit, qubits: seq<int>, bits: seq<int>, layer: Layer, ghost t: seq<Wire>)
    returns (qubits': seq<int>, bits': seq<int>, err: Option<Error>)
    requires layer.box.Valid() && layer.Dom() == t && Tracks(tk, qubits, bits, t)
    modifies tk
    ensures err == LayerError(layer.box)
    ensures err.None? ==> Tracks(tk, qubits', bits', layer.Cod())
    ensures (tk.State(), qubits', bits') == LayerState(old(tk.State()), qubits, bits, layer)
  {
    qubits', bits', err := qubits, bits, None;
    BoxCounts(layer.box);
    match layer.box {
      case KetBox(_) =>
        qubits' := TranslateKet(tk, qubits, bits, layer);
      case BitsBox(_) =>
        bits' := TranslateBits(tk, qubits, bits, layer);
      case MeasureBox =>
        qubits', bits' := TranslateMeasure(tk, qubits, bits, layer);
      case BraBox(_) =>
        qubits', bits' := TranslateMeasure(tk, qubits, bits, layer);
      case DiscardBox(_) =>
        qubits', bits' := TranslateDiscard(tk, qubits, bits, layer);
      case SwapBox(_, _) =>
        err := TranslateSwap(tk, qubits, bits, layer);
      case ScalarBox(_) =>
        TranslateScalar(tk, layer);
      case RotationBox(_, _) =>
        err := TranslateGate(tk, qubits, bits, layer);
      case GateBox(_, _) =>
        err := TranslateGate(tk, qubits, bits, layer);
    }
  }

  /** The values of the scalar boxes, in layer order. */
  function ScalarsOf(layers: seq<Layer>): seq<real>
  {
    if layers == [] then []
    else (if layers[0].box.ScalarBox? then [layers[0].box.value] else []) + ScalarsOf(layers[1..])
  }


  /** The error of the first layer that raises one. */
  function FirstError(layers: seq<Layer>): Option<Error>
  {
    if layers == [] then None
    else
      var n := |layers| - 1;
      var before := FirstError(layers[..n]);
      if before.Some? then before else LayerError(layers[n].box)
  }

  /** The translation fails exactly when some layer raises, and then with
      the error of the earliest such layer. */
  lemma {:induction false} FirstErrorNone(layers: seq<Layer>)
    ensures FirstError(layers).None? <==> forall k :: 0 <= k < |layers| ==> LayerError(layers[k].box).None?
    ensures FirstError(layers).Some? ==>
              exists k :: 0 <= k < |layers| && LayerError(layers[k].box) == FirstError(layers)
                          && forall m :: 0 <= m < k ==> LayerError(layers[m].box).None?
    decreases |layers|
  {
    if layers != [] {
      var n := |layers| - 1;
      FirstErrorNone(layers[..n]);
      assert forall k :: 0 <= k < n ==> layers[..n][k] == layers[k];
    }
  }

  /** An error in a prefix is the first error of the whole list. */
  lemma {:induction false} FirstErrorPrefix(layers: seq<Layer>, m: nat)
    requires m <= |layers| && FirstError(layers[..m]).Some?
    ensures FirstError(layers) == FirstError(layers[..m])
    decreases |layers|
  {
    if m < |layers| {
      var n := |layers| - 1;
      assert layers[..n][..m] == layers[..m];
      FirstErrorPrefix(layers[..n], m);
    } else {
      assert layers[..m] == layers;
    }
  }

  /** When no layer before k raises, the first error is layer k's own. */
  lemma {:induction false} FirstErrorAt(layers: seq<Layer>, k: nat)
    requires k < |layers| && forall m :: 0 <= m < k ==> LayerError(layers[m].box).None?
    requires LayerError(layers[k].box).Some?
    ensures FirstError(layers) == LayerError(layers[k].box)
    decreases |layers|
  {
    var n := |layers| - 1;
    assert forall m :: 0 <= m < n ==> layers[..n][m] == layers[m];
    if k < n {
      FirstErrorAt(layers[..n], k);
    } else {
      FirstErrorNone(layers[..n]);
    }
  }


  /** The circuit's scalar after a box: multiplied by the box's value when
      the box has no wires, unchanged otherwise. */
  function ScaledBy(x: real, box: TkBox): real
  {
    if box.ScalarBox? then x * box.value else x
  }


  /** The k-th of composable layers takes the wires left by those before it. */
  lemma TypedStep(layers: seq<Layer>, k: nat, t: seq<Wire>)
    requires k < |layers| && Typed(layers[k..], t)
    ensures layers[k].box.Valid() && layers[k].Dom() == t
    ensures Typed(layers[k + 1..], layers[k].Cod())
    ensures OutputType(layers[k + 1..], layers[k].Cod()) == OutputType(layers[k..], t)
  {
    assert layers[k..][1..] == layers[k + 1..];
  }

  /** `to_tk` on a circuit with no input wires, given as its layers: the
      translation fails with the first layer's error, and otherwise yields a
      valid circuit whose scalar is the product of the scalar boxes, with
      the output wires mapped to distinct units. */
  method ToTk(layers: seq<Layer>) returns (r: Result<TketCircuit>, qubits: seq<int>, bits: seq<int>)
    requires Typed(layers, [])
    ensures r.Err? <==> FirstError(layers).Some?
    ensures r.Err? ==> r.error == FirstError(layers).value
    ensures r.Ok? ==> fresh(r.value) && Tracks(r.value, qubits, bits, OutputType(layers, []))
    ensures r.Ok? ==> (r.value.State(), qubits, bits) == Run(EmptyState, [], [], layers, [])
    ensures r.Ok? ==> r.value.scalar == Circuits.Product(ScalarsOf(layers))
  {
    var tk := new TketCircuit(0, 0, None, None);
    var err;
    qubits, bits, err := TranslateLayers(tk, layers);
    if err.Some? {
      return Err(err.value), [], [];
    }
    RunScalar(EmptyState, [], [], layers, []);
    ScaleByProduct(1.0, ScalarsOf(layers));
    r := Ok(tk);
  }

  /** The layer loop of `to_tk`: the layers are translated in turn until
      one raises; without an error, the circuit and the two lists are the
      run from the circuit's state at the start. */
  method TranslateLayers(tk: TketCircuit, layers: seq<Layer>) returns (qubits: seq<int>, bits: seq<int>, err: Option<Error>)
    requires Typed(layers, []) && Tracks(tk, [], [], [])
    modifies tk
    ensures err == FirstError(layers)
    ensures err.None? ==> Tracks(tk, qubits, bits, OutputType(layers, []))
    ensures err.None? ==> (tk.State(), qubits, bits) == Run(old(tk.State()), [], [], layers, [])
  {
    qubits, bits, err := [], [], None;
    ghost var t: seq<Wire> := [];
    ghost var run := Run(tk.State(), [], [], layers, []);
    var k := 0;
    while k < |layers|
      invariant 0 <= k <= |layers|
      invariant Typed(layers[k..], t) && OutputType(layers[k..], t) == OutputType(layers, [])
      invariant Tracks(tk, qubits, bits, t)
      invariant Run(tk.State(), qubits, bits, layers[k..], t) == run
      invariant forall m :: 0 <= m < k ==> LayerError(layers[m].box).None?
    {
      var q, b, e := ToTkRound(tk, qubits, bits, layers, k, t);
      if e.Some? {
        FirstErrorAt(layers, k);
        return [], [], e;
      }
      qubits, bits, t := q, b, layers[k].Cod();
      k := k + 1;
    }
    RunDone(tk.State(), qubits, bits, layers, k, t, run);
    FirstErrorNone(layers);
  }

  /** Once every layer is translated, the run is over: the circuit and the
      lists are its result, and they have the output type. */
  lemma RunDone(s: CircuitState, qubits: seq<int>, bits: seq<int>, layers: seq<Layer>, k: nat, t: seq<Wire>,
                run: (CircuitState, seq<int>, seq<int>))
    requires k == |layers| && Typed(layers[k..], t) && |qubits| == NQ(t) && |bits| == NB(t)
    requires Run(s, qubits, bits, layers[k..], t) == run
    ensures run == (s, qubits, bits) && OutputType(layers[k..], t) == t
  {
    assert layers[k..] == [];
  }

  /** One pass of the layer loop of `to_tk`: translating layer k leaves
      what remains of the run. */
  method ToTkRound(tk: TketCircuit, qubits: seq<int>, bits: seq<int>, layers: seq<Layer>, k: nat, ghost t: seq<Wire>)
    returns (qubits': seq<int>, bits': seq<int>, err: Option<Error>)
    requires k < |layers| && Typed(layers[k..], t) && Tracks(tk, qubits, bits, t)
    modifies tk
    ensures err == LayerError(layers[k].box)
    ensures Typed(layers[k + 1..], layers[k].Cod())
    ensures OutputType(layers[k + 1..], layers[k].Cod()) == OutputType(layers[k..], t)
    ensures err.None? ==> Tracks(tk, qubits', bits', layers[k].Cod())
    ensures |qubits'| == NQ(layers[k].Cod()) && |bits'| == NB(layers[k].Cod())
    ensures Run(tk.State(), qubits', bits', layers[k + 1..], layers[k].Cod()) ==
            Run(old(tk.State()), qubits, bits, layers[k..], t)
  {
    TypedStep(layers, k, t);
    RunStep(tk.State(), qubits, bits, layers, k, t);
    qubits', bits', err := TranslateLayer(tk, qubits, bits, layers[k], t);
  }

  // ---------------------------------------------------------------------
  // box_from_tk

  /** `box_from_tk`: a tket command back to a box; rotation angles are
      halved, an unknown name raises NotImplementedError and a rotation
      without a parameter IndexError. */
  function BoxFromTk(c: Command): (r: Result<TkBox>)
    ensures r.Ok? ==> r.value.Valid()
    ensures r == Err(UnsupportedGate) <==>
              c.name !in {"Measure", "Rx", "Rz", "CRz"} && !Boxes.IsLibraryName(c.name)
  {
    if c.name == "Measure" then Ok(MeasureBox)
    else if c.name in {"Rx", "Rz", "CRz"} then
      (if c.params == [] then Err(IndexOutOfRange) else Ok(RotationBox(c.name, c.params[0] / 2.0)))
    else if Boxes.IsLibraryName(c.name) then Ok(GateBox(c.name, Boxes.LibraryWidth(c.name)))
    else Err(UnsupportedGate)
  }

  /** A rotation or library gate sent to tket reads back as the same box:
      the phase doubled on the way out is halved on the way in. */
  lemma GateRoundTrip(box: TkBox, qs: seq<int>)
    requires box.Valid() && (box.RotationBox? || (box.GateBox? && box.width == Boxes.LibraryWidth(box.name)))
    requires LayerError(box).None?
    ensures BoxFromTk(GateCommand(box, qs)) == Ok(box)
  {
    assert Boxes.LibraryNames == ["SWAP", "CX", "H", "S", "T", "X", "Y", "Z"];
  }

  /** A measurement emitted by `measure_qubits` reads back as a Measure. */
  lemma MeasureRoundTrip(qs: seq<int>, b0: int, j: nat)
    requires j < |qs|
    ensures BoxFromTk(MeasureCommands(qs, b0)[j]) == Ok(MeasureBox)
  {
  }
}
