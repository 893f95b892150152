/** `TketCircuit`: a tket circuit extended with a post-selection map (from
    classical-bit index to the expected bit) and a scalar, updated in place,
    and the renaming of register units that `to_tk` relies on. */
module Tket {
  import opened Common

  /** A register unit: a qubit `q[i]` or a bit `c[i]` of the default
      registers, or the scratch units `q_tmp[0]` and `c_tmp[0]` that the swap
      routine renames through. */
  datatype Unit = Q(i: int) | QTmp | C(i: int) | CTmp
  {
    predicate IsBit()
    {
      C? || CTmp?
    }

    /** `unit.index[0]`: the scratch units have index 0 in their own register. */
    function Index(): int
    {
      match this
      case Q(i) => i
      case C(i) => i
      case _ => 0
    }
  }

  /** A dictionary from old units to new units, in insertion order. */
  type Renaming = seq<(Unit, Unit)>

  predicate KeysDistinct(ren: Renaming)
  {
    forall a, b :: 0 <= a < b < |ren| ==> ren[a].0 != ren[b].0
  }

  /** No two renamed bits share an index (otherwise `del` would raise KeyError). */
  predicate BitIndicesDistinct(ren: Renaming)
  {
    forall a, b :: 0 <= a < b < |ren| && ren[a].0.IsBit() && ren[b].0.IsBit() ==>
      ren[a].0.Index() != ren[b].0.Index()
  }

  /** The image of a unit under a renaming: its new name, or itself when it is not renamed. */
  function Rename(u: Unit, ren: Renaming): (r: Unit)
    ensures (forall k :: 0 <= k < |ren| ==> ren[k].0 != u) ==> r == u
    ensures forall k :: 0 <= k < |ren| && ren[k].0 == u && (forall m :: 0 <= m < k ==> ren[m].0 != u) ==> r == ren[k].1
  {
    if ren == [] then u else if ren[0].0 == u then ren[0].1 else Rename(u, ren[1..])
  }

  /** A tket command: operation name, parameters and the units it acts on. */
  datatype Command = Command(name: string, params: seq<real>, args: seq<Unit>)

  function RenameCommand(c: Command, ren: Renaming): (r: Command)
    ensures r.name == c.name && r.params == c.params && |r.args| == |c.args|
    ensures forall k :: 0 <= k < |c.args| ==> r.args[k] == Rename(c.args[k], ren)
  {
    Command(c.name, c.params, seq(|c.args|, k requires 0 <= k < |c.args| => Rename(c.args[k], ren)))
  }

  /** pytket's own `rename_units` on the command list. */
  function RenameCommands(cs: seq<Command>, ren: Renaming): (r: seq<Command>)
    ensures |r| == |cs| && forall k :: 0 <= k < |cs| ==> r[k] == RenameCommand(cs[k], ren)
  {
    seq(|cs|, k requires 0 <= k < |cs| => RenameCommand(cs[k], ren))
  }

  // ---------------------------------------------------------------------
  // The post-selection part of `rename_units`.

  /** A renaming entry that concerns the post-selection map: a bit whose
      index is post-selected. */
  predicate Relevant(p: (Unit, Unit), ps: map<int, Bit>)
  {
    p.0.IsBit() && p.0.Index() in ps
  }

  /** `bits_to_rename`, kept with their new names: the relevant entries in order. */
  function ToRename(ren: Renaming, ps: map<int, Bit>): (r: Renaming)
    ensures |r| <= |ren|
    ensures forall p :: p in r <==> p in ren && Relevant(p, ps)
  {
    if ren == [] then []
    else
      var n := |ren| - 1;
      assert ren == ren[..n] + [ren[n]];
      ToRename(ren[..n], ps) + (if Relevant(ren[n], ps) then [ren[n]] else [])
  }

  /** The indices whose entries `rename_units` deletes. */
  function Sources(ren: Renaming, ps: map<int, Bit>): set<int>
  {
    set p | p in ren && Relevant(p, ps) :: p.0.Index()
  }

  /** The indices `rename_units` writes. */
  function Targets(ren: Renaming, ps: map<int, Bit>): set<int>
  {
    set p | p in ren && Relevant(p, ps) :: p.1.Index()
  }

  /** `{renaming[old].index[0]: post_selection[old.index[0]] for old in
      bits_to_rename}`: built in order, so the later of two entries with
      the same new index wins. */
  function Moved(ren: Renaming, ps: map<int, Bit>): map<int, Bit>
  {
    if ren == [] then map[]
    else
      var n := |ren| - 1;
      var rest := Moved(ren[..n], ps);
      if Relevant(ren[n], ps) then rest[ren[n].1.Index() := ps[ren[n].0.Index()]] else rest
  }

  /** The moved entries are written exactly at the targets. */
  lemma {:induction false} MovedKeys(ren: Renaming, ps: map<int, Bit>)
    ensures Moved(ren, ps).Keys == Targets(ren, ps)
    decreases |ren|
  {
    if ren != [] {
      var n := |ren| - 1;
      MovedKeys(ren[..n], ps);
      assert ren == ren[..n] + [ren[n]];
      if Relevant(ren[n], ps) {
        assert Targets(ren, ps) == Targets(ren[..n], ps) + {ren[n].1.Index()};
      } else {
        assert Targets(ren, ps) == Targets(ren[..n], ps);
      }
    }
  }

  /** The post-selection map after `rename_units(ren)`: the renamed entries
      deleted, then the moved ones written. */
  function RenamePS(ps: map<int, Bit>, ren: Renaming): (r: map<int, Bit>)
    ensures forall k :: k in r <==> (k in ps && k !in Sources(ren, ps)) || k in Targets(ren, ps)
    ensures forall k :: k in ps && k !in Sources(ren, ps) && k !in Targets(ren, ps) ==> r[k] == ps[k]
  {
    MovedKeys(ren, ps);
    (ps - Sources(ren, ps)) + Moved(ren, ps)
  }

  /** Filtering out the irrelevant entries first, as the source does, changes nothing. */
  lemma {:induction false} MovedToRename(ren: Renaming, ps: map<int, Bit>)
    ensures Moved(ToRename(ren, ps), ps) == Moved(ren, ps)
    decreases |ren|
  {
    if ren != [] {
      var n := |ren| - 1;
      MovedToRename(ren[..n], ps);
      var t := ToRename(ren[..n], ps);
      if Relevant(ren[n], ps) {
        var x := t + [ren[n]];
        assert x[..|t|] == t && x[|t|] == ren[n];
        assert Moved(x, ps) == Moved(t, ps)[ren[n].1.Index() := ps[ren[n].0.Index()]];
      } else {
        assert ToRename(ren, ps) == t;
      }
    }
  }

  lemma SourcesSnoc(t: Renaming, p: (Unit, Unit), ps: map<int, Bit>)
    requires Relevant(p, ps)
    ensures Sources(t + [p], ps) == Sources(t, ps) + {p.0.Index()}
  {
    assert forall q :: q in t + [p] <==> q in t || q == p;
  }

  lemma SourcesToRename(ren: Renaming, ps: map<int, Bit>)
    ensures Sources(ToRename(ren, ps), ps) == Sources(ren, ps)
  {
  }

  /** An entry whose bit is renamed moves to the new index, unless a later
      renamed bit lands on the same index. */
  lemma {:induction false} MovedValue(ren: Renaming, ps: map<int, Bit>, a: int)
    requires 0 <= a < |ren| && Relevant(ren[a], ps)
    requires forall b :: a < b < |ren| && Relevant(ren[b], ps) ==> ren[b].1.Index() != ren[a].1.Index()
    ensures ren[a].1.Index() in Moved(ren, ps)
    ensures Moved(ren, ps)[ren[a].1.Index()] == ps[ren[a].0.Index()]
    decreases |ren|
  {
    var n := |ren| - 1;
    if a < n {
      MovedValue(ren[..n], ps, a);
    }
  }

  /** `rename_units` on the post-selection map moves each entry whose bit is
      renamed to the bit's new index. */
  lemma RenamePSMoves(ps: map<int, Bit>, ren: Renaming, a: int)
    requires 0 <= a < |ren| && Relevant(ren[a], ps)
    requires forall b :: a < b < |ren| && Relevant(ren[b], ps) ==> ren[b].1.Index() != ren[a].1.Index()
    ensures ren[a].1.Index() in RenamePS(ps, ren)
    ensures RenamePS(ps, ren)[ren[a].1.Index()] == ps[ren[a].0.Index()]
  {
    MovedValue(ren, ps, a);
  }

  /** A renaming of qubits only leaves the post-selection map alone. */
  lemma RenameQubitsKeepsPS(ps: map<int, Bit>, ren: Renaming)
    requires forall k :: 0 <= k < |ren| ==> !ren[k].0.IsBit()
    ensures RenamePS(ps, ren) == ps
  {
    assert Sources(ren, ps) == {} && Targets(ren, ps) == {};
  }

  // ---------------------------------------------------------------------
  // Transpositions of units.

  /** The renaming that exchanges two units. */
  function Transposition(a: Unit, b: Unit): Renaming
  {
    [(a, b), (b, a)]
  }

  /** Renaming a to a scratch unit, b to a, then the scratch unit to b
      exchanges a and b on every unit other than the scratch unit. */
  lemma ThreeRenamesTranspose(u: Unit, a: Unit, b: Unit, tmp: Unit)
    requires u != tmp && a != tmp && b != tmp
    ensures Rename(Rename(Rename(u, [(a, tmp)]), [(b, a)]), [(tmp, b)]) == Rename(u, Transposition(a, b))
  {
  }

  /** No command acts on the unit. */
  predicate Avoids(cs: seq<Command>, u: Unit)
  {
    forall k, m :: 0 <= k < |cs| && 0 <= m < |cs[k].args| ==> cs[k].args[m] != u
  }

  /** The three renamings of the swap routine exchange two units in every
      command that does not already use the scratch unit. */
  lemma SwapRenamesCommands(cs: seq<Command>, a: Unit, b: Unit, tmp: Unit)
    requires a != tmp && b != tmp && Avoids(cs, tmp)
    ensures RenameCommands(RenameCommands(RenameCommands(cs, [(a, tmp)]), [(b, a)]), [(tmp, b)])
            == RenameCommands(cs, Transposition(a, b))
  {
    var r1 := RenameCommands(cs, [(a, tmp)]);
    var r2 := RenameCommands(r1, [(b, a)]);
    var r3 := RenameCommands(r2, [(tmp, b)]);
    var t := RenameCommands(cs, Transposition(a, b));
    forall k | 0 <= k < |cs|
      ensures r3[k] == t[k]
    {
      forall m | 0 <= m < |cs[k].args|
        ensures r3[k].args[m] == t[k].args[m]
      {
        ThreeRenamesTranspose(cs[k].args[m], a, b, tmp);
      }
    }
  }

  // ---------------------------------------------------------------------
  // Register bounds.

  /** A qubit `q[i]` with i < nq or a bit `c[i]` with i < nb. */
  predicate InRegisters(u: Unit, nq: int, nb: int)
  {
    (u.Q? && 0 <= u.i < nq) || (u.C? && 0 <= u.i < nb)
  }

  predicate CommandIn(c: Command, nq: int, nb: int)
  {
    forall m :: 0 <= m < |c.args| ==> InRegisters(c.args[m], nq, nb)
  }

  /** Every command acts on units of the registers. */
  predicate CommandsIn(cs: seq<Command>, nq: int, nb: int)
  {
    forall k :: 0 <= k < |cs| ==> CommandIn(cs[k], nq, nb)
  }

  /** Every post-selected index is a bit of the register. */
  predicate KeysBelow(ps: map<int, Bit>, nb: int)
  {
    forall key :: key in ps ==> 0 <= key < nb
  }

  /** Growing the registers keeps every command inside them. */
  lemma CommandsInGrow(cs: seq<Command>, nq: int, nb: int, nq': int, nb': int)
    requires CommandsIn(cs, nq, nb) && nq <= nq' && nb <= nb'
    ensures CommandsIn(cs, nq', nb')
  {
    forall k, m | 0 <= k < |cs| && 0 <= m < |cs[k].args|
      ensures InRegisters(cs[k].args[m], nq', nb')
    {
      assert InRegisters(cs[k].args[m], nq, nb);
    }
  }

  /** A command list stays inside the registers when the appended command does. */
  lemma CommandsInAppend(cs: seq<Command>, c: Command, nq: int, nb: int)
    requires CommandsIn(cs, nq, nb) && CommandIn(c, nq, nb)
    ensures CommandsIn(cs + [c], nq, nb)
  {
    assert forall k :: 0 <= k < |cs| ==> (cs + [c])[k] == cs[k];
  }

  /** Exchanging two units of the registers keeps every command inside them. */
  lemma TranspositionStaysIn(cs: seq<Command>, a: Unit, b: Unit, nq: int, nb: int)
    requires InRegisters(a, nq, nb) && InRegisters(b, nq, nb)
    requires CommandsIn(cs, nq, nb)
    ensures CommandsIn(RenameCommands(cs, Transposition(a, b)), nq, nb)
  {
    var ren := Transposition(a, b);
    forall k, m | 0 <= k < |cs| && 0 <= m < |cs[k].args|
      ensures InRegisters(RenameCommands(cs, ren)[k].args[m], nq, nb)
    {
      assert InRegisters(cs[k].args[m], nq, nb);
    }
  }

  /** Exchanging the entries of two post-selected bits: the post-selection
      the swap routine is meant to leave behind. */
  function SwapPS(ps: map<int, Bit>, i: int, j: int): (r: map<int, Bit>)
    ensures forall k {:trigger k in r} :: k in r <==> Exchange(k, i, j) in ps
    ensures forall k {:trigger r[k]} :: k in r ==> r[k] == ps[Exchange(k, i, j)]
  {
    var others := ps - {i, j};
    var withI := if j in ps then others[i := ps[j]] else others;
    if i in ps then withI[j := ps[i]] else withI
  }

  /** i and j exchanged, every other index fixed. */
  function Exchange(k: int, i: int, j: int): int
  {
    if k == i then j else if k == j then i else k
  }

  /** Swapping two bits twice gives back the post-selection. */
  lemma SwapPSInvolution(ps: map<int, Bit>, i: int, j: int)
    ensures SwapPS(SwapPS(ps, i, j), i, j) == ps
  {
    var s := SwapPS(ps, i, j);
    var r := SwapPS(s, i, j);
    forall k
      ensures k in r <==> k in ps
      ensures k in r ==> r[k] == ps[k]
    {
      var e := Exchange(k, i, j);
      assert Exchange(e, i, j) == k;
      assert k in r <==> e in s;
      assert e in s <==> k in ps;
    }
    assert r.Keys == ps.Keys;
  }

  /** The post-selection after the swap routine's three renamings, c[i] to
      the scratch bit, c[j] to c[i], the scratch bit to c[j], as
      `rename_units` computes it: every entry is keyed by `index[0]`, which
      is 0 for the scratch bit as for c[0]. */
  function SwapPSAsWritten(ps: map<int, Bit>, i: int, j: int): map<int, Bit>
  {
    RenamePS(RenamePS(RenamePS(ps, [(C(i), CTmp)]), [(C(j), C(i))]), [(CTmp, C(j))])
  }

  /** One-entry renaming of the post-selection map, in closed form. */
  lemma RenameOnePS(ps: map<int, Bit>, from: Unit, to: Unit)
    ensures RenamePS(ps, [(from, to)]) ==
      if from.IsBit() && from.Index() in ps then (ps - {from.Index()})[to.Index() := ps[from.Index()]] else ps
  {
    var ren := [(from, to)];
    assert ren[..0] == [];
    if from.IsBit() && from.Index() in ps {
      assert Sources(ren, ps) == {from.Index()};
    } else {
      assert Sources(ren, ps) == {};
    }
  }

  /** The swap routine loses a post-selection: with c[0] post-selected on 1
      and c[1] on 0, swapping c[1] and c[2] parks c[1]'s entry on index 0,
      overwriting c[0]'s, then moves it to 2. Bit 0's constraint is gone,
      where exchanging the entries keeps it. */
  lemma SwapBitsLosesPostSelection()
    ensures SwapPSAsWritten(map[0 := 1, 1 := 0], 1, 2) == map[2 := 0]
    ensures SwapPS(map[0 := 1, 1 := 0], 1, 2) == map[0 := 1, 2 := 0]
  {
    SwapPSAsWrittenExample();
    SwapPSExample();
  }

  lemma SwapPSAsWrittenExample()
    ensures SwapPSAsWritten(map[0 := 1, 1 := 0], 1, 2) == map[2 := 0]
  {
    var ps: map<int, Bit> := map[0 := 1, 1 := 0];
    RenameOnePS(ps, C(1), CTmp);
    var ps1 := RenamePS(ps, [(C(1), CTmp)]);
    assert ps1 == map[0 := 0];
    RenameOnePS(ps1, C(2), C(1));
    var ps2 := RenamePS(ps1, [(C(2), C(1))]);
    assert ps2 == ps1;
    RenameOnePS(ps2, CTmp, C(2));
    assert RenamePS(ps2, [(CTmp, C(2))]) == map[2 := 0];
  }

  lemma SwapPSExample()
    ensures SwapPS(map[0 := 1, 1 := 0], 1, 2) == map[0 := 1, 2 := 0]
  {
    var ps: map<int, Bit> := map[0 := 1, 1 := 0];
    var r := SwapPS(ps, 1, 2);
    assert Exchange(0, 1, 2) == 0 && Exchange(2, 1, 2) == 1;
    assert forall k :: k in r ==> Exchange(k, 1, 2) in ps;
    assert r.Keys == {0, 2};
  }

  /** The first step of `rename_units`: the renamed bits that are post-selected, in order. */
  method CollectRenamed(ren: Renaming, ps: map<int, Bit>) returns (toRename: Renaming)
    ensures toRename == ToRename(ren, ps)
  {
    toRename := [];
    var k := 0;
    while k < |ren|
      invariant 0 <= k <= |ren| && toRename == ToRename(ren[..k], ps)
    {
      assert ren[..k + 1][..k] == ren[..k];
      if Relevant(ren[k], ps) {
        toRename := toRename + [ren[k]];
      }
      k := k + 1;
    }
    assert ren[..|ren|] == ren;
  }

  /** The second step: the post-selections keyed by the new indices. */
  method MovedEntries(toRename: Renaming, ps: map<int, Bit>) returns (psRenaming: map<int, Bit>)
    requires forall p :: p in toRename ==> Relevant(p, ps)
    ensures psRenaming == Moved(toRename, ps)
  {
    psRenaming := map[];
    var k := 0;
    while k < |toRename|
      invariant 0 <= k <= |toRename| && psRenaming == Moved(toRename[..k], ps)
    {
      assert toRename[..k + 1][..k] == toRename[..k];
      assert toRename[k] in toRename;
      psRenaming := psRenaming[toRename[k].1.Index() := ps[toRename[k].0.Index()]];
      k := k + 1;
    }
    assert toRename[..|toRename|] == toRename;
  }

  /** The third step: the old indices deleted one by one. */
  method DeleteSources(ps: map<int, Bit>, toRename: Renaming) returns (kept: map<int, Bit>)
    requires forall p :: p in toRename ==> Relevant(p, ps)
    ensures kept == ps - Sources(toRename, ps)
  {
    kept := ps;
    var k := 0;
    while k < |toRename|
      invariant 0 <= k <= |toRename|
      invariant kept == ps - Sources(toRename[..k], ps)
    {
      assert toRename[k] in toRename;
      SourcesSnoc(toRename[..k], toRename[k], ps);
      assert toRename[..k + 1] == toRename[..k] + [toRename[k]];
      kept := kept - {toRename[k].0.Index()};
      k := k + 1;
    }
    assert toRename[..|toRename|] == toRename;
  }

  // ---------------------------------------------------------------------
  // The circuit.

  /** The contents of a tket circuit at one moment, as a value. */
  datatype CircuitState = CircuitState(nQubits: nat, nBits: nat, commands: seq<Command>,
                                       postSelection: map<int, Bit>, scalar: real)

  /** A tket circuit on the qubits q[0..nQubits) and the bits c[0..nBits),
      with a post-selection map and a scalar (`tk.Circuit` in the source). */
  class TketCircuit {
    var nQubits: nat
    var nBits: nat
    var commands: seq<Command>
    var postSelection: map<int, Bit>
    var scalar: real

    /** Every command acts on units of the registers and every post-selected
        index is a bit of the register. */
    predicate Valid()
      reads this
    {
      CommandsIn(commands, nQubits, nBits) && KeysBelow(postSelection, nBits)
    }

    /** The circuit's current contents. */
    function State(): CircuitState
      reads this
    {
      CircuitState(nQubits, nBits, commands, postSelection, scalar)
    }

    /** `Circuit(n_qubits, n_bits, post_selection, scalar)`: a missing or
        empty post-selection is `{}`, a missing or zero scalar is 1. */
    constructor(nQubits: nat, nBits: nat, postSelection: Option<map<int, Bit>>, scalar: Option<real>)
      ensures this.nQubits == nQubits && this.nBits == nBits && commands == []
      ensures this.postSelection == (if postSelection.Some? then postSelection.value else map[])
      ensures this.scalar == (if scalar.Some? && scalar.value != 0.0 then scalar.value else 1.0)
    {
      this.nQubits := nQubits;
      this.nBits := nBits;
      commands := [];
      this.postSelection := if postSelection.Some? then postSelection.value else map[];
      this.scalar := if scalar.Some? && scalar.value != 0.0 then scalar.value else 1.0;
    }

    /** `scale(number)`: multiplies the scalar. */
    method Scale(number: real)
      modifies this
      ensures scalar == old(scalar) * number
      ensures old(Valid()) ==> Valid()
      ensures nQubits == old(nQubits) && nBits == old(nBits)
      ensures commands == old(commands) && postSelection == old(postSelection)
    {
      scalar := scalar * number;
    }

    /** `post_select(post_selection)`: adds the entries, a new value for an
        index replacing the old one. */
    method PostSelect(ps: map<int, Bit>)
      modifies this
      ensures postSelection == old(postSelection) + ps
      ensures old(Valid()) && KeysBelow(ps, nBits) ==> Valid()
      ensures nQubits == old(nQubits) && nBits == old(nBits)
      ensures commands == old(commands) && scalar == old(scalar)
    {
      postSelection := postSelection + ps;
    }

    /** pytket's `add_blank_wires(k)`: k fresh qubits, which take the lowest unused indices. */
    method AddBlankWires(k: nat)
      modifies this
      ensures nQubits == old(nQubits) + k && nBits == old(nBits)
      ensures old(Valid()) ==> Valid()
      ensures commands == old(commands) && postSelection == old(postSelection) && scalar == old(scalar)
    {
      if Valid() {
        CommandsInGrow(commands, nQubits, nBits, nQubits + k, nBits);
      }
      nQubits := nQubits + k;
    }

    /** pytket's `add_bit`: one fresh bit, at the lowest unused index. */
    method AddBit()
      modifies this
      ensures nBits == old(nBits) + 1 && nQubits == old(nQubits)
      ensures old(Valid()) ==> Valid()
      ensures commands == old(commands) && postSelection == old(postSelection) && scalar == old(scalar)
    {
      if Valid() {
        CommandsInGrow(commands, nQubits, nBits, nQubits, nBits + 1);
      }
      nBits := nBits + 1;
    }

    /** Appends a gate on the qubits q[i] for i in qs. */
    method AddGate(name: string, params: seq<real>, qs: seq<int>)
      modifies this
      ensures commands == old(commands) + [Command(name, params, seq(|qs|, m requires 0 <= m < |qs| => Q(qs[m])))]
      ensures old(Valid()) && (forall m :: 0 <= m < |qs| ==> 0 <= qs[m] < nQubits) ==> Valid()
      ensures nQubits == old(nQubits) && nBits == old(nBits)
      ensures postSelection == old(postSelection) && scalar == old(scalar)
    {
      var c := Command(name, params, seq(|qs|, m requires 0 <= m < |qs| => Q(qs[m])));
      if Valid() && forall m :: 0 <= m < |qs| ==> 0 <= qs[m] < nQubits {
        CommandsInAppend(commands, c, nQubits, nBits);
      }
      commands := commands + [c];
    }

    /** `Measure(q, b)`: measures q[q] into c[b]. */
    method Measure(q: int, b: int)
      modifies this
      ensures commands == old(commands) + [Command("Measure", [], [Q(q), C(b)])]
      ensures old(Valid()) && 0 <= q < nQubits && 0 <= b < nBits ==> Valid()
      ensures nQubits == old(nQubits) && nBits == old(nBits)
      ensures postSelection == old(postSelection) && scalar == old(scalar)
    {
      var c := Command("Measure", [], [Q(q), C(b)]);
      if Valid() && 0 <= q < nQubits && 0 <= b < nBits {
        CommandsInAppend(commands, c, nQubits, nBits);
      }
      commands := commands + [c];
    }

    /** pytket's `rename_units`: every command follows its units to their new names. */
    method RenameCircuitUnits(ren: Renaming)
      modifies this
      ensures commands == RenameCommands(old(commands), ren)
      ensures nQubits == old(nQubits) && nBits == old(nBits)
      ensures postSelection == old(postSelection) && scalar == old(scalar)
    {
      commands := RenameCommands(commands, ren);
    }

    /** `rename_units(renaming)`: the renamed bits' post-selections move to
        the new indices, then the commands are renamed. */
    method RenameUnits(ren: Renaming)
      requires KeysDistinct(ren) && BitIndicesDistinct(ren)
      modifies this
      ensures postSelection == RenamePS(old(postSelection), ren)
      ensures commands == RenameCommands(old(commands), ren)
      ensures nQubits == old(nQubits) && nBits == old(nBits) && scalar == old(scalar)
    {
      var ps := postSelection;
      var toRename := CollectRenamed(ren, ps);
      var psRenaming := MovedEntries(toRename, ps);
      MovedToRename(ren, ps);
      var kept := DeleteSources(ps, toRename);
      SourcesToRename(ren, ps);
      postSelection := kept + psRenaming;
      RenameCircuitUnits(ren);
    }

    /** `swap(i, j)` on qubits: q[i] becomes the scratch qubit, q[j] becomes
        q[i], the scratch qubit becomes q[j], so every command's qubits i and
        j are exchanged; the post-selection is unchanged. */
    method SwapQubits(i: int, j: int)
      requires Valid() && 0 <= i < nQubits && 0 <= j < nQubits
      modifies this
      ensures Valid()
      ensures commands == RenameCommands(old(commands), Transposition(Q(i), Q(j)))
      ensures postSelection == old(postSelection)
      ensures nQubits == old(nQubits) && nBits == old(nBits) && scalar == old(scalar)
    {
      ghost var cs := commands;
      ghost var ps := postSelection;
      RenameQubitsKeepsPS(ps, [(Q(i), QTmp)]);
      RenameUnits([(Q(i), QTmp)]);
      RenameQubitsKeepsPS(ps, [(Q(j), Q(i))]);
      RenameUnits([(Q(j), Q(i))]);
      RenameQubitsKeepsPS(ps, [(QTmp, Q(j))]);
      RenameUnits([(QTmp, Q(j))]);
      SwapRenamesCommands(cs, Q(i), Q(j), QTmp);
      TranspositionStaysIn(cs, Q(i), Q(j), nQubits, nBits);
    }

    /** `swap(i, j)` on bits as the source does it: the commands' bits are
        exchanged, but the post-selection goes through `index[0]`. */
    method SwapBitsAsWritten(i: int, j: int)
      requires Valid() && 0 <= i < nBits && 0 <= j < nBits
      modifies this
      ensures commands == RenameCommands(old(commands), Transposition(C(i), C(j)))
      ensures postSelection == SwapPSAsWritten(old(postSelection), i, j)
      ensures nQubits == old(nQubits) && nBits == old(nBits) && scalar == old(scalar)
    {
      ghost var cs := commands;
      RenameUnits([(C(i), CTmp)]);
      RenameUnits([(C(j), C(i))]);
      RenameUnits([(CTmp, C(j))]);
      SwapRenamesCommands(cs, C(i), C(j), CTmp);
    }

    /** `swap(i, j)` on bits with the post-selection entries exchanged
        directly, so that each constraint stays with its bit. */
    method SwapBits(i: int, j: int)
      requires Valid() && 0 <= i < nBits && 0 <= j < nBits
      modifies this
      ensures Valid()
      ensures commands == RenameCommands(old(commands), Transposition(C(i), C(j)))
      ensures postSelection == SwapPS(old(postSelection), i, j)
      ensures nQubits == old(nQubits) && nBits == old(nBits) && scalar == old(scalar)
    {
      ghost var cs := commands;
      RenameCircuitUnits([(C(i), CTmp)]);
      RenameCircuitUnits([(C(j), C(i))]);
      RenameCircuitUnits([(CTmp, C(j))]);
      SwapRenamesCommands(cs, C(i), C(j), CTmp);
      TranspositionStaysIn(cs, C(i), C(j), nQubits, nBits);
      postSelection := SwapPS(postSelection, i, j);
    }
  }
}
