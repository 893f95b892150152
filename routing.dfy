/** Translation between circuits and tket's instruction lists: `Circuit.to_tk`,
    which places every gate on consecutive qubits, and `Circuit.from_tk`, which
    brings the qubits of each command next to each other with SWAP gates. */
module Routing {
  import opened Common
  import opened Boxes
  import opened Circuits

  /** One tket command: an operation name, its parameters and its qubit indices. */
  datatype Instr = Instr(name: string, params: seq<real>, qubits: seq<int>)

  /** A tket circuit: a register of qubits and a list of commands. */
  datatype TkProgram = TkProgram(nQubits: nat, instrs: seq<Instr>)

  // ---------------------------------------------------------------------
  // `to_tk`

  /** The command emitted for box b at offset off: Rx and Rz carry their phase,
      a named gate of the library is called by its name, and both act on
      qubits `off, ..., off + len(dom) - 1`. Any other box has no tket method
      of its name. */
  function InstrOf(b: Box, off: int): Result<Instr>
  {
    match b
    case Rx(p) => Ok(Instr("Rx", [p], Range(off, off + 1)))
    case Rz(p) => Ok(Instr("Rz", [p], Range(off, off + 1)))
    case Gate(name, _, _, _) =>
      if IsLibraryName(name) then Ok(Instr(name, [], Range(off, off + b.Dom())))
      else Err(UnsupportedGate)
    case _ => Err(UnsupportedGate)
  }

  /** The commands of a list of layers, or the error of the first layer that has none. */
  function TkInstrs(bs: seq<Box>, os: seq<int>): (r: Result<seq<Instr>>)
    requires |bs| == |os|
    ensures r.Ok? <==> forall k :: 0 <= k < |bs| ==> InstrOf(bs[k], os[k]).Ok?
    ensures r.Ok? ==> |r.value| == |bs|
                      && forall k :: 0 <= k < |bs| ==> r.value[k] == InstrOf(bs[k], os[k]).value
    ensures r.Err? ==> r.error == UnsupportedGate
  {
    if bs == [] then Ok([])
    else
      var n := |bs| - 1;
      match TkInstrs(bs[..n], os[..n])
      case Err(e) => Err(e)
      case Ok(prefix) =>
        match InstrOf(bs[n], os[n])
        case Err(e) => Err(e)
        case Ok(ins) => Ok(prefix + [ins])
  }

  /** The tket circuit of c, on `len(c.dom)` qubits. */
  function ToTkSpec(c: Circuit): Result<TkProgram>
    requires |c.boxes| == |c.offsets|
  {
    match TkInstrs(c.boxes, c.offsets)
    case Err(e) => Err(e)
    case Ok(instrs) => Ok(TkProgram(c.dom, instrs))
  }

  /** `Circuit.to_tk`: one command per layer, in order. */
  method ToTk(c: Circuit) returns (r: Result<TkProgram>)
    requires |c.boxes| == |c.offsets|
    ensures r == ToTkSpec(c)
    ensures r.Ok? ==> r.value.nQubits == c.dom && |r.value.instrs| == |c.boxes|
    ensures r.Ok? ==> forall k :: 0 <= k < |c.boxes| ==>
                        r.value.instrs[k].qubits == Range(c.offsets[k], c.offsets[k] + c.boxes[k].Dom())
    ensures r.Ok? ==> forall k :: 0 <= k < |c.boxes| && (c.boxes[k].Rx? || c.boxes[k].Rz?) ==>
                        r.value.instrs[k].params == [c.boxes[k].phase]
  {
    var instrs: seq<Instr> := [];
    var k := 0;
    while k < |c.boxes|
      invariant 0 <= k <= |c.boxes|
      invariant TkInstrs(c.boxes[..k], c.offsets[..k]) == Ok(instrs)
    {
      assert c.boxes[..k + 1][..k] == c.boxes[..k] && c.offsets[..k + 1][..k] == c.offsets[..k];
      var ins := InstrOf(c.boxes[k], c.offsets[k]);
      if ins.Err? {
        assert TkInstrs(c.boxes[..k + 1], c.offsets[..k + 1]).Err?;
        assert !InstrOf(c.boxes[..k + 1][k], c.offsets[..k + 1][k]).Ok?;
        return Err(ins.error);
      }
      instrs := instrs + [ins.value];
      k := k + 1;
    }
    assert c.boxes[..k] == c.boxes && c.offsets[..k] == c.offsets;
    return Ok(TkProgram(c.dom, instrs));
  }

  // ---------------------------------------------------------------------
  // `from_tk`

  /** The operation names `from_tk` knows: the two rotations and the library's gates. */
  predicate KnownName(name: string)
  {
    name == "Rx" || name == "Rz" || IsLibraryName(name)
  }

  /** Number of qubits an operation of a known name acts on. */
  function Arity(name: string): nat
  {
    if name == "Rx" || name == "Rz" then 1 else LibraryWidth(name)
  }

  /** `gates_from_tk`: Rx and Rz read their first parameter, a library name
      gives that gate, and any other name raises NotImplementedError. */
  function GateFromTk(ins: Instr): (r: Result<Box>)
    ensures r.Ok? <==> KnownName(ins.name) && (ins.name in ["Rx", "Rz"] ==> |ins.params| > 0)
    ensures r.Ok? ==> r.value.Dom() == r.value.Cod() == Arity(ins.name)
    ensures r.Err? && !KnownName(ins.name) ==> r.error == UnsupportedGate
  {
    if ins.name == "Rx" then
      if |ins.params| == 0 then Err(IndexOutOfRange) else Ok(Rx(ins.params[0]))
    else if ins.name == "Rz" then
      if |ins.params| == 0 then Err(IndexOutOfRange) else Ok(Rz(ins.params[0]))
    else if IsLibraryName(ins.name) then Ok(LibraryGate(ins.name))
    else Err(UnsupportedGate)
  }

  /** What tket guarantees of a command in a circuit of n qubits: at least one
      qubit, all in the register and pairwise distinct, and as many as the
      operation takes when its name is known. */
  predicate ValidCommand(ins: Instr, n: nat)
  {
    Routable(ins) && Placed(ins, n)
  }

  /** The qubits of a command lie in a register of n and are pairwise distinct. */
  predicate Placed(ins: Instr, n: nat)
  {
    (forall k :: 0 <= k < |ins.qubits| ==> 0 <= ins.qubits[k] < n) && Distinct(ins.qubits)
  }

  /** Every command of the list is valid in a circuit of n qubits. */
  predicate ValidCommands(instrs: seq<Instr>, n: nat)
  {
    && (forall k :: 0 <= k < |instrs| ==> Routable(instrs[k]))
    && (forall k :: 0 <= k < |instrs| ==> Placed(instrs[k], n))
  }

  /** The part of `ValidCommand` the routing loop relies on: at least one
      qubit, and as many as the operation takes when its name is known. */
  predicate Routable(ins: Instr)
  {
    |ins.qubits| >= 1 && (KnownName(ins.name) ==> |ins.qubits| == Arity(ins.name))
  }

  predicate ValidProgram(p: TkProgram)
  {
    ValidCommands(p.instrs, p.nQubits)
  }

  /** The SWAP offsets and the gate offset for a command on one or two
      qubits a (and b): nothing to do when b is absent or right after a; when
      b lies before a, b is swapped up to a, which moves a down by one; when
      b lies further right, it is swapped down to a + 1. */
  function RouteSpec(qs: seq<int>): (seq<int>, int)
    requires 1 <= |qs| <= 2
  {
    var a := qs[0];
    if |qs| == 1 || qs[1] == a + 1 then ([], a)
    else if qs[1] <= a then (Range(qs[1], a), a - 1)
    else (Desc(qs[1], a + 1), a)
  }

  /** The routing loop of `from_tk` for one command with qubits qs: the SWAP
      offsets it appends and the offset it gives the gate. */
  method RouteCommand(qs: seq<int>) returns (swaps: seq<int>, off: int)
    requires |qs| >= 1
    ensures |qs| <= 2 ==> (swaps, off) == RouteSpec(qs)
  {
    swaps, off := [], qs[0];
    var i := 0;
    while i < |qs| - 1
      invariant 0 <= i <= |qs| - 1
      invariant |qs| <= 2 && i == 0 ==> swaps == [] && off == qs[0]
      invariant |qs| <= 2 && i == 1 ==> (swaps, off) == RouteSpec(qs)
    {
      var q := qs[i + 1];
      if q == off + i + 1 {
        break;
      }
      if q < off + i + 1 {
        ghost var before := swaps;
        swaps := AppendSwapsUp(swaps, q, off + i);
        if |qs| <= 2 && i == 0 {
          assert before == [] && q <= off == qs[0];
          assert swaps == Range(q, off);
        }
        if q <= off {
          off := off - 1;
        }
        assert |qs| <= 2 && i == 0 ==> (swaps, off) == RouteSpec(qs);
      } else {
        swaps := AppendSwapsDown(swaps, q, q - off + i - 1);
        assert |qs| <= 2 && i == 0 ==> swaps == Desc(q, off + 1);
      }
      i := i + 1;
    }
  }

  /** The SWAPs that carry a qubit at lo up to hi, one position at a time:
      the offsets lo, lo + 1, ..., hi - 1 follow those already there. */
  method AppendSwapsUp(before: seq<int>, lo: int, hi: int) returns (swaps: seq<int>)
    ensures swaps == before + Range(lo, hi)
  {
    swaps := before;
    var j := lo;
    while j < hi
      invariant lo <= j <= if lo <= hi then hi else lo
      invariant swaps == before + Range(lo, j)
    {
      RangeSnoc(lo, j);
      swaps := swaps + [j];
      j := j + 1;
    }
  }

  /** The c SWAPs that carry a qubit at q down one position at a time: the
      offsets q - 1, q - 2, ..., q - c follow those already there. */
  method AppendSwapsDown(before: seq<int>, q: int, c: int) returns (swaps: seq<int>)
    requires c >= 0
    ensures swaps == before + Desc(q, q - c)
  {
    swaps := before;
    var j := 0;
    while j < c
      invariant 0 <= j <= c
      invariant swaps == before + Desc(q, q - j)
    {
      swaps := swaps + [q - j - 1];
      j := j + 1;
    }
  }

  /** Every SWAP box, one per routing offset. */
  function Swaps(n: nat): (r: seq<Box>)
    ensures |r| == n && forall k :: 0 <= k < n ==> r[k] == LibraryGate("SWAP")
  {
    seq(n, _ => LibraryGate("SWAP"))
  }

  /** The layers `from_tk` builds from a list of commands, or the error the
      first unknown command raises. */
  function Layers(instrs: seq<Instr>, n: nat): (r: Result<(seq<Box>, seq<int>)>)
    requires forall k :: 0 <= k < |instrs| ==> Routable(instrs[k])
    ensures r.Ok? ==> |r.value.0| == |r.value.1|
  {
    if instrs == [] then Ok(([], []))
    else
      var m := |instrs| - 1;
      match Layers(instrs[..m], n)
      case Err(e) => Err(e)
      case Ok(prefix) =>
        match GateFromTk(instrs[m])
        case Err(e) => Err(e)
        case Ok(g) =>
          assert Routable(instrs[m]);
          var (sw, off) := RouteSpec(instrs[m].qubits);
          Ok((prefix.0 + Swaps(|sw|) + [g], prefix.1 + sw + [off]))
  }

  /** One more command read back after an accepted prefix. */
  lemma LayersStep(instrs: seq<Instr>, n: nat, m: nat, gates: seq<Box>, offsets: seq<int>, g: Box, sw: seq<int>, off: int)
    requires forall k :: 0 <= k < |instrs| ==> Routable(instrs[k])
    requires m + 1 == |instrs| && Layers(instrs[..m], n) == Ok((gates, offsets))
    requires GateFromTk(instrs[m]) == Ok(g) && 1 <= |instrs[m].qubits| <= 2 && RouteSpec(instrs[m].qubits) == (sw, off)
    ensures Layers(instrs, n) == Ok((gates + Swaps(|sw|) + [g], offsets + sw + [off]))
  {
  }

  /** Once a prefix of the commands fails, the whole list fails with the same error. */
  lemma {:induction false} LayersFirstError(instrs: seq<Instr>, n: nat, m: nat)
    requires forall k :: 0 <= k < |instrs| ==> Routable(instrs[k])
    requires m <= |instrs| && Layers(instrs[..m], n).Err?
    ensures Layers(instrs, n) == Layers(instrs[..m], n)
    decreases |instrs| - m
  {
    if m < |instrs| {
      var l := |instrs| - 1;
      assert instrs[..l][..m] == instrs[..m];
      LayersFirstError(instrs[..l], n, m);
    } else {
      assert instrs[..m] == instrs;
    }
  }

  /** The circuit `from_tk` returns: n wires in and out. */
  function FromTkSpec(p: TkProgram): Result<Circuit>
    requires ValidProgram(p)
  {
    match Layers(p.instrs, p.nQubits)
    case Err(e) => Err(e)
    case Ok(l) => Ok(Circuit(p.nQubits, p.nQubits, l.0, l.1))
  }

  /** `Circuit.from_tk`. */
  method FromTk(p: TkProgram) returns (r: Result<Circuit>)
    requires ValidProgram(p)
    ensures r == FromTkSpec(p)
  {
    var gates: seq<Box> := [];
    var offsets: seq<int> := [];
    var k := 0;
    while k < |p.instrs|
      invariant 0 <= k <= |p.instrs|
      invariant Layers(p.instrs[..k], p.nQubits) == Ok((gates, offsets))
    {
      var err;
      err, gates, offsets := FromTkRound(p, k, gates, offsets);
      if err.Some? {
        return Err(err.value);
      }
      k := k + 1;
    }
    assert p.instrs[..k] == p.instrs;
    return Ok(Circuit(p.nQubits, p.nQubits, gates, offsets));
  }

  /** One round of the loop of `from_tk`: command k is routed and read
      back, and its SWAPs and gate are appended, or reading it back raises. */
  method FromTkRound(p: TkProgram, k: nat, gates: seq<Box>, offsets: seq<int>)
    returns (err: Option<Error>, gates': seq<Box>, offsets': seq<int>)
    requires ValidProgram(p) && k < |p.instrs|
    requires Layers(p.instrs[..k], p.nQubits) == Ok((gates, offsets))
    ensures err.None? ==> Layers(p.instrs[..k + 1], p.nQubits) == Ok((gates', offsets'))
    ensures err.Some? ==> Layers(p.instrs, p.nQubits) == Err(err.value)
  {
    var ins := p.instrs[k];
    assert p.instrs[..k + 1][..k] == p.instrs[..k] && p.instrs[..k + 1][k] == ins;
    var swaps, off := RouteCommand(ins.qubits);
    var g := GateFromTk(ins);
    if g.Err? {
      LayersFirstError(p.instrs, p.nQubits, k + 1);
      return Some(g.error), gates, offsets;
    }
    LayersStep(p.instrs[..k + 1], p.nQubits, k, gates, offsets, g.value, swaps, off);
    return None, gates + Swaps(|swaps|) + [g.value], offsets + swaps + [off];
  }

  // ---------------------------------------------------------------------
  // Properties of the translation.

  /** A layer `to_tk` can translate and `from_tk` can read back: a rotation
      or a library constant, lying inside n wires. */
  predicate Translatable(b: Box, off: int, n: nat)
  {
    && (b.Rx? || b.Rz? || (b.Gate? && IsLibraryName(b.name) && b == LibraryGate(b.name)))
    && 0 <= off && off + b.Dom() <= n
  }

  /** One layer survives `to_tk` followed by `from_tk`: its command is valid,
      names the same box and needs no routing. */
  lemma InstrRoundTrip(b: Box, off: int, n: nat)
    requires Translatable(b, off, n)
    ensures InstrOf(b, off).Ok?
    ensures ValidCommand(InstrOf(b, off).value, n)
    ensures GateFromTk(InstrOf(b, off).value) == Ok(b)
    ensures RouteSpec(InstrOf(b, off).value.qubits) == ([], off)
  {
    InstrReadBack(b, off, n, InstrOf(b, off).value);
  }

  lemma InstrReadBack(b: Box, off: int, n: nat, ins: Instr)
    requires Translatable(b, off, n) && InstrOf(b, off) == Ok(ins)
    ensures GateFromTk(ins) == Ok(b) && 1 <= |ins.qubits| <= 2 && RouteSpec(ins.qubits) == ([], off)
  {
  }

  /** Each command of instrs is the translation of the layer at the same
      place, and every layer is one `to_tk` can translate. */
  predicate TranslatedAs(bs: seq<Box>, os: seq<int>, n: nat, instrs: seq<Instr>)
  {
    && |bs| == |os| == |instrs|
    && (forall k :: 0 <= k < |bs| ==> Translatable(bs[k], os[k], n))
    && (forall k :: 0 <= k < |bs| ==> Routable(instrs[k]))
    && (forall k :: 0 <= k < |bs| ==> InstrOf(bs[k], os[k]) == Ok(instrs[k]))
  }

  /** Dropping the last layer and its command keeps the correspondence. */
  lemma TranslatedPrefix(bs: seq<Box>, os: seq<int>, n: nat, instrs: seq<Instr>, m: nat)
    requires TranslatedAs(bs, os, n, instrs) && m < |bs|
    ensures TranslatedAs(bs[..m], os[..m], n, instrs[..m])
  {
  }

  /** Layers that `to_tk` translated command by command are read back by `from_tk`. */
  lemma {:induction false} LayersRoundTrip(bs: seq<Box>, os: seq<int>, n: nat, instrs: seq<Instr>)
    requires TranslatedAs(bs, os, n, instrs)
    ensures Layers(instrs, n) == Ok((bs, os))
    decreases |bs|
  {
    if bs != [] {
      var m := |bs| - 1;
      TranslatedPrefix(bs, os, n, instrs, m);
      LayersRoundTrip(bs[..m], os[..m], n, instrs[..m]);
      TranslatedLast(bs, os, n, instrs);
      LayersStepAdjacent(instrs, n, bs[..m], os[..m], bs[m], os[m]);
      SnocSplit(bs);
      SnocSplit(os);
    }
  }

  /** The last command of a translation reads back as the last layer, with
      no SWAP, and every command is one the routing loop accepts. */
  lemma TranslatedLast(bs: seq<Box>, os: seq<int>, n: nat, instrs: seq<Instr>)
    requires TranslatedAs(bs, os, n, instrs) && bs != []
    ensures forall k :: 0 <= k < |instrs| ==> Routable(instrs[k])
    ensures GateFromTk(instrs[|bs| - 1]) == Ok(bs[|bs| - 1])
    ensures 1 <= |instrs[|bs| - 1].qubits| <= 2 && RouteSpec(instrs[|bs| - 1].qubits) == ([], os[|bs| - 1])
  {
    InstrReadBack(bs[|bs| - 1], os[|bs| - 1], n, instrs[|bs| - 1]);
  }

  /** One more command that needs no SWAP, read back after an accepted prefix. */
  lemma LayersStepAdjacent(instrs: seq<Instr>, n: nat, gates: seq<Box>, offsets: seq<int>, g: Box, off: int)
    requires instrs != [] && forall k :: 0 <= k < |instrs| ==> Routable(instrs[k])
    requires Layers(instrs[..|instrs| - 1], n) == Ok((gates, offsets))
    requires GateFromTk(instrs[|instrs| - 1]) == Ok(g)
    requires 1 <= |instrs[|instrs| - 1].qubits| <= 2 && RouteSpec(instrs[|instrs| - 1].qubits) == ([], off)
    ensures Layers(instrs, n) == Ok((gates + [g], offsets + [off]))
  {
    LayersStep(instrs, n, |instrs| - 1, gates, offsets, g, [], off);
    assert gates + Swaps(0) + [g] == gates + [g];
    assert offsets + [] + [off] == offsets + [off];
  }

  /** `Circuit.from_tk(c.to_tk()) == c` for every circuit with as many inputs
      as outputs whose layers are rotations and library gates. */
  lemma RoundTrip(c: Circuit)
    requires |c.boxes| == |c.offsets| && c.dom == c.cod
    requires forall k :: 0 <= k < |c.boxes| ==> Translatable(c.boxes[k], c.offsets[k], c.dom)
    ensures ToTkSpec(c).Ok? && ValidProgram(ToTkSpec(c).value)
    ensures FromTkSpec(ToTkSpec(c).value) == Ok(c)
  {
    forall k | 0 <= k < |c.boxes|
      ensures InstrOf(c.boxes[k], c.offsets[k]).Ok?
      ensures ValidCommand(InstrOf(c.boxes[k], c.offsets[k]).value, c.dom)
    {
      InstrRoundTrip(c.boxes[k], c.offsets[k], c.dom);
    }
    var instrs := TkInstrs(c.boxes, c.offsets).value;
    LayersRoundTrip(c.boxes, c.offsets, c.dom, instrs);
  }

  /** `to_tk` reads only a gate's name, so the adjoint `S.dagger()` is sent as
      the same command as S. */
  lemma ToTkIgnoresDagger(off: int)
    ensures LibraryGate("S").Dagger() != LibraryGate("S")
    ensures InstrOf(LibraryGate("S").Dagger(), off) == InstrOf(LibraryGate("S"), off)
  {
  }

  /** Routing offsets stay inside the register: every SWAP acts on two
      existing wires and the gate fits at its offset. */
  lemma RouteBounds(qs: seq<int>, n: nat)
    requires 1 <= |qs| <= 2 && Distinct(qs)
    requires forall k :: 0 <= k < |qs| ==> 0 <= qs[k] < n
    ensures SwapsFit(RouteSpec(qs).0, n)
    ensures 0 <= RouteSpec(qs).1 && RouteSpec(qs).1 + |qs| <= n
  {
  }

  /** All layers have as many inputs as outputs and lie inside n wires. */
  predicate SquareFits(bs: seq<Box>, os: seq<int>, n: nat)
    requires |bs| == |os|
  {
    forall k :: 0 <= k < |bs| ==> bs[k].Dom() == bs[k].Cod() && 0 <= os[k] && os[k] + bs[k].Dom() <= n
  }

  lemma {:induction false} SquareFitsFrom(bs: seq<Box>, os: seq<int>, n: nat)
    requires |bs| == |os| && SquareFits(bs, os, n)
    ensures FitsFrom(n, bs, os, n)
    decreases |bs|
  {
    if bs != [] {
      SquareFitsFrom(bs[1..], os[1..], n);
    }
  }

  lemma {:induction false} LayersFit(instrs: seq<Instr>, n: nat)
    requires ValidCommands(instrs, n)
    requires Layers(instrs, n).Ok?
    ensures SquareFits(Layers(instrs, n).value.0, Layers(instrs, n).value.1, n)
    decreases |instrs|
  {
    if instrs != [] {
      var m := |instrs| - 1;
      LayersFit(instrs[..m], n);
      assert ValidCommand(instrs[m], n);
      RouteBounds(instrs[m].qubits, n);
    }
  }

  /** `from_tk` always returns a well-typed circuit on n wires. */
  lemma FromTkWellFormed(p: TkProgram)
    requires ValidProgram(p) && FromTkSpec(p).Ok?
    ensures WellFormed(FromTkSpec(p).value)
    ensures FromTkSpec(p).value.dom == FromTkSpec(p).value.cod == p.nQubits
  {
    var l := Layers(p.instrs, p.nQubits).value;
    LayersFit(p.instrs, p.nQubits);
    SquareFitsFrom(l.0, l.1, p.nQubits);
  }

  // ---------------------------------------------------------------------
  // Which qubit each wire carries while routing.

  /** Exchanging the wires j and j + 1 of a labelling. */
  function SwapAt(l: seq<int>, j: int): (r: seq<int>)
    requires 0 <= j && j + 1 < |l|
    ensures |r| == |l|
  {
    l[j := l[j + 1]][j + 1 := l[j]]
  }

  predicate SwapsFit(sw: seq<int>, n: nat)
  {
    forall k :: 0 <= k < |sw| ==> 0 <= sw[k] && sw[k] + 1 < n
  }

  /** The labelling after SWAP layers at the offsets sw, in order. */
  function ApplySwaps(l: seq<int>, sw: seq<int>): (r: seq<int>)
    requires SwapsFit(sw, |l|)
    ensures |r| == |l|
    decreases |sw|
  {
    if sw == [] then l else ApplySwaps(SwapAt(l, sw[0]), sw[1..])
  }

  /** SWAPs at b - 1 down to t carry the label at b to t and keep the labels left of t. */
  lemma {:induction false} MoveDown(l: seq<int>, b: int, t: int)
    requires 0 <= t <= b < |l|
    ensures SwapsFit(Desc(b, t), |l|)
    ensures ApplySwaps(l, Desc(b, t))[t] == l[b]
    ensures forall p :: 0 <= p < t ==> ApplySwaps(l, Desc(b, t))[p] == l[p]
    decreases b - t
  {
    if b > t {
      assert Desc(b, t) == [b - 1] + Desc(b - 1, t);
      MoveDown(SwapAt(l, b - 1), b - 1, t);
    }
  }

  /** SWAPs at b up to a - 1 carry the label at b to a and the label at a to a - 1. */
  lemma {:induction false} MoveUp(l: seq<int>, b: int, a: int)
    requires 0 <= b < a < |l|
    ensures SwapsFit(Range(b, a), |l|)
    ensures ApplySwaps(l, Range(b, a))[a] == l[b]
    ensures ApplySwaps(l, Range(b, a))[a - 1] == l[a]
    ensures forall p :: 0 <= p < b ==> ApplySwaps(l, Range(b, a))[p] == l[p]
    decreases a - b
  {
    assert Range(b, a) == [b] + Range(b + 1, a);
    if b + 1 < a {
      MoveUp(SwapAt(l, b), b + 1, a);
    }
  }

  /** The SWAPs `from_tk` inserts for a command bring the labels of its
      qubits, in order, onto the wires at the gate's offset. */
  lemma RouteDelivers(qs: seq<int>, l: seq<int>)
    requires 1 <= |qs| <= 2 && Distinct(qs)
    requires forall k :: 0 <= k < |qs| ==> 0 <= qs[k] < |l|
    ensures SwapsFit(RouteSpec(qs).0, |l|)
    ensures 0 <= RouteSpec(qs).1 && RouteSpec(qs).1 + |qs| <= |l|
    ensures ApplySwaps(l, RouteSpec(qs).0)[RouteSpec(qs).1] == l[qs[0]]
    ensures |qs| == 2 ==> ApplySwaps(l, RouteSpec(qs).0)[RouteSpec(qs).1 + 1] == l[qs[1]]
  {
    RouteBounds(qs, |l|);
    var sw, off := RouteSpec(qs).0, RouteSpec(qs).1;
    var a := qs[0];
    if |qs| == 2 && qs[1] < a {
      DeliverUp(l, qs[1], a, sw, off);
    } else if |qs| == 2 && qs[1] > a + 1 {
      DeliverDown(l, qs[1], a, sw, off);
    } else {
      assert sw == [] && off == a;
    }
  }

  /** Routing a second qubit b that lies left of a: the labels of a and b
      end up at a - 1 and a. */
  lemma DeliverUp(l: seq<int>, b: int, a: int, sw: seq<int>, off: int)
    requires 0 <= b < a < |l| && sw == Range(b, a) && off == a - 1
    ensures SwapsFit(sw, |l|)
    ensures ApplySwaps(l, sw)[off] == l[a] && ApplySwaps(l, sw)[off + 1] == l[b]
  {
    MoveUp(l, b, a);
  }

  /** Routing a second qubit b that lies right of a + 1: the label of b
      ends up at a + 1 and the label of a stays. */
  lemma DeliverDown(l: seq<int>, b: int, a: int, sw: seq<int>, off: int)
    requires 0 <= a && a + 1 < b < |l| && sw == Desc(b, a + 1) && off == a
    ensures SwapsFit(sw, |l|)
    ensures ApplySwaps(l, sw)[off] == l[a] && ApplySwaps(l, sw)[off + 1] == l[b]
  {
    MoveDown(l, b, a + 1);
  }

  lemma {:induction false} ApplySwapsConcat(l: seq<int>, s: seq<int>, t: seq<int>)
    requires SwapsFit(s, |l|) && SwapsFit(t, |l|)
    ensures SwapsFit(s + t, |l|)
    ensures ApplySwaps(l, s + t) == ApplySwaps(ApplySwaps(l, s), t)
    decreases |s|
  {
    if s != [] {
      assert (s + t)[1..] == s[1..] + t;
      ApplySwapsConcat(SwapAt(l, s[0]), s[1..], t);
    } else {
      assert s + t == t;
    }
  }

  /** SWAP layers followed by the same layers in reverse order restore every label. */
  lemma {:induction false} SwapsUndo(l: seq<int>, sw: seq<int>)
    requires SwapsFit(sw, |l|)
    ensures SwapsFit(Reverse(sw), |l|)
    ensures ApplySwaps(ApplySwaps(l, sw), Reverse(sw)) == l
    decreases |sw|
  {
    if sw != [] {
      var l1 := SwapAt(l, sw[0]);
      SwapsUndo(l1, sw[1..]);
      var m := ApplySwaps(l, sw);
      ApplySwapsConcat(m, Reverse(sw[1..]), [sw[0]]);
      assert SwapAt(l1, sw[0]) == l;
    }
  }

  // ---------------------------------------------------------------------
  // `from_tk` leaves its routing SWAPs in place.

  /** The layers of the corrected translation: each command's SWAPs are
      undone, in reverse order, right after its gate. */
  function LayersRouted(instrs: seq<Instr>, n: nat): (r: Result<(seq<Box>, seq<int>)>)
    requires forall k :: 0 <= k < |instrs| ==> Routable(instrs[k])
    ensures r.Ok? ==> |r.value.0| == |r.value.1|
    ensures r.Ok? == Layers(instrs, n).Ok?
  {
    if instrs == [] then Ok(([], []))
    else
      var m := |instrs| - 1;
      match LayersRouted(instrs[..m], n)
      case Err(e) => Err(e)
      case Ok(prefix) =>
        match GateFromTk(instrs[m])
        case Err(e) => Err(e)
        case Ok(g) =>
          assert Routable(instrs[m]);
          var (sw, off) := RouteSpec(instrs[m].qubits);
          Ok((prefix.0 + Swaps(|sw|) + [g] + Swaps(|sw|), prefix.1 + sw + [off] + Reverse(sw)))
  }

  /** One more command read back by the corrected translation after an accepted prefix. */
  lemma LayersRoutedStep(instrs: seq<Instr>, n: nat, m: nat, gates: seq<Box>, offsets: seq<int>, g: Box, sw: seq<int>, off: int)
    requires forall k :: 0 <= k < |instrs| ==> Routable(instrs[k])
    requires m + 1 == |instrs| && LayersRouted(instrs[..m], n) == Ok((gates, offsets))
    requires GateFromTk(instrs[m]) == Ok(g) && 1 <= |instrs[m].qubits| <= 2 && RouteSpec(instrs[m].qubits) == (sw, off)
    ensures LayersRouted(instrs, n) == Ok((gates + Swaps(|sw|) + [g] + Swaps(|sw|), offsets + sw + [off] + Reverse(sw)))
  {
  }

  function FromTkRouted(p: TkProgram): Result<Circuit>
    requires ValidProgram(p)
  {
    match LayersRouted(p.instrs, p.nQubits)
    case Err(e) => Err(e)
    case Ok(l) => Ok(Circuit(p.nQubits, p.nQubits, l.0, l.1))
  }

  /** Each command of the corrected translation is a block that gives its gate
      the labels of the command's qubits and then restores every label, so
      every later command finds each qubit on its own wire. */
  lemma RoutedBlockCorrect(instrs: seq<Instr>, n: nat, l: seq<int>)
    requires instrs != [] && ValidCommands(instrs, n)
    requires LayersRouted(instrs, n).Ok? && |l| == n
    ensures var ins := instrs[|instrs| - 1];
            var (sw, off) := RouteSpec(ins.qubits);
            var prefix := LayersRouted(instrs[..|instrs| - 1], n).value;
            && LayersRouted(instrs, n).value
               == (prefix.0 + Swaps(|sw|) + [GateFromTk(ins).value] + Swaps(|sw|),
                   prefix.1 + sw + [off] + Reverse(sw))
            && SwapsFit(sw, n) && SwapsFit(Reverse(sw), n)
            && ApplySwaps(l, sw)[off] == l[ins.qubits[0]]
            && (|ins.qubits| == 2 ==> ApplySwaps(l, sw)[off + 1] == l[ins.qubits[1]])
            && ApplySwaps(ApplySwaps(l, sw), Reverse(sw)) == l
  {
    var ins := instrs[|instrs| - 1];
    assert ValidCommand(ins, n);
    RouteDelivers(ins.qubits, l);
    SwapsUndo(l, RouteSpec(ins.qubits).0);
  }

  /** A command on one qubit, or on two neighbouring qubits in order. */
  predicate Adjacent(qs: seq<int>)
  {
    |qs| < 2 || qs[1] == qs[0] + 1
  }

  /** When no command needs routing the two translations agree. */
  lemma {:induction false} RoutedAgreesWhenAdjacent(instrs: seq<Instr>, n: nat)
    requires forall k :: 0 <= k < |instrs| ==> Routable(instrs[k])
    requires forall k :: 0 <= k < |instrs| ==> Adjacent(instrs[k].qubits)
    ensures LayersRouted(instrs, n) == Layers(instrs, n)
    decreases |instrs|
  {
    if instrs != [] {
      var m := |instrs| - 1;
      RoutedAgreesWhenAdjacent(instrs[..m], n);
      assert Adjacent(instrs[m].qubits) && Routable(instrs[m]);
      if GateFromTk(instrs[m]).Ok? {
        var sw, off := RouteSpec(instrs[m].qubits).0, RouteSpec(instrs[m].qubits).1;
        assert sw == [];
        if Layers(instrs[..m], n).Ok? {
          var pre, g := Layers(instrs[..m], n).value, GateFromTk(instrs[m]).value;
          assert pre.0 + Swaps(0) + [g] + Swaps(0) == pre.0 + Swaps(0) + [g];
          assert pre.1 + sw + [off] + Reverse(sw) == pre.1 + sw + [off];
        }
      }
    }
  }

  /** The program `CX(0, 2); X(2)` on three qubits. */
  const CxThenX := TkProgram(3, [Instr("CX", [], [0, 2]), Instr("X", [], [2])])

  /** What `from_tk` reads from each command of `CX(0, 2); X(2)`. */
  lemma CxThenXCommands()
    ensures ValidProgram(CxThenX)
    ensures GateFromTk(CxThenX.instrs[0]) == Ok(LibraryGate("CX"))
    ensures GateFromTk(CxThenX.instrs[1]) == Ok(LibraryGate("X"))
    ensures RouteSpec(CxThenX.instrs[0].qubits) == ([1], 0)
    ensures RouteSpec(CxThenX.instrs[1].qubits) == ([], 2)
  {
    assert Desc(2, 1) == [1];
  }

  /** As written, `from_tk` puts the X on wire 2, but the routing SWAP on
      wires 1 and 2 has left qubit 1 there: the X acts on the wrong qubit. */
  lemma FromTkMisroutes()
    ensures ValidProgram(CxThenX)
    ensures FromTkSpec(CxThenX)
            == Ok(Circuit(3, 3, [LibraryGate("SWAP"), LibraryGate("CX"), LibraryGate("X")], [1, 0, 2]))
  {
    CxThenXCommands();
    var instrs := CxThenX.instrs;
    var swap, cx, x := LibraryGate("SWAP"), LibraryGate("CX"), LibraryGate("X");
    assert instrs[..1][..0] == [] && instrs[..1][0] == instrs[0];
    assert Layers(instrs[..1][..0], 3) == Ok(([], []));
    LayersStep(instrs[..1], 3, 0, [], [], cx, [1], 0);
    assert Swaps(1) == [swap] && Swaps(0) == [];
    assert [] + [swap] + [cx] == [swap, cx] && [] + [1] + [0] == [1, 0];
    LayersStep(instrs, 3, 1, [swap, cx], [1, 0], x, [], 2);
    assert [swap, cx] + [] + [x] == [swap, cx, x] && [1, 0] + [] + [2] == [1, 0, 2];
  }

  /** The corrected translation swaps back before the X, which then acts on qubit 2. */
  lemma FromTkRoutedExample()
    ensures ValidProgram(CxThenX)
    ensures FromTkRouted(CxThenX)
            == Ok(Circuit(3, 3, [LibraryGate("SWAP"), LibraryGate("CX"), LibraryGate("SWAP"), LibraryGate("X")],
                          [1, 0, 1, 2]))
  {
    CxThenXCommands();
    var instrs := CxThenX.instrs;
    var swap, cx, x := LibraryGate("SWAP"), LibraryGate("CX"), LibraryGate("X");
    assert instrs[..1][..0] == [] && instrs[..1][0] == instrs[0];
    assert LayersRouted(instrs[..1][..0], 3) == Ok(([], []));
    LayersRoutedStep(instrs[..1], 3, 0, [], [], cx, [1], 0);
    assert Swaps(1) == [swap] && Swaps(0) == [];
    assert Reverse([1]) == [1] && Reverse<int>([]) == [];
    assert [] + [swap] + [cx] + [swap] == [swap, cx, swap] && [] + [1] + [0] + [1] == [1, 0, 1];
    LayersRoutedStep(instrs, 3, 1, [swap, cx, swap], [1, 0, 1], x, [], 2);
    assert [swap, cx, swap] + [] + [x] + [] == [swap, cx, swap, x] && [1, 0, 1] + [] + [2] + [] == [1, 0, 1, 2];
  }

  /** The wire labels in the example: after the one routing SWAP of
      `from_tk` wire 2 carries qubit 1, and after the SWAP and its undoing
      it carries qubit 2 again. */
  lemma ExampleLabels()
    ensures ApplySwaps([0, 1, 2], [1])[2] == 1
    ensures ApplySwaps([0, 1, 2], [1, 1])[2] == 2
  {
    assert SwapAt([0, 1, 2], 1) == [0, 2, 1] && SwapAt([0, 2, 1], 1) == [0, 1, 2];
    assert [1, 1][1..] == [1] && [1][1..] == [];
  }
}
