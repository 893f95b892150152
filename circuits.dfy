/** Circuits as lists of boxes at integer offsets, the identity, the tensor
    (with the eager fusion of basis states and effects), the scalar-extraction
    phase of normalisation and the `bitstring` helper of `measure`. */
module Circuits {
  import opened Common
  import opened Boxes

  /** A circuit: input and output widths and its layers, the i-th layer being
      `boxes[i]` placed `offsets[i]` wires from the left. */
  datatype Circuit = Circuit(dom: nat, cod: nat, boxes: seq<Box>, offsets: seq<int>)

  /** Starting at width w, every box fits at its offset, and the width after
      the last layer is cod. */
  predicate FitsFrom(w: int, bs: seq<Box>, os: seq<int>, cod: int)
    requires |bs| == |os|
    decreases |bs|
  {
    if bs == [] then w == cod
    else 0 <= os[0] && os[0] + bs[0].Dom() <= w
         && FitsFrom(w - bs[0].Dom() + bs[0].Cod(), bs[1..], os[1..], cod)
  }

  /** A circuit whose layers are correctly typed. */
  predicate WellFormed(c: Circuit)
  {
    |c.boxes| == |c.offsets| && FitsFrom(c.dom, c.boxes, c.offsets, c.cod)
  }

  /** `Id(n)`: n wires and no box, i.e. `Circuit(n, n, [], [])`. */
  function Id(n: nat): (c: Circuit)
    ensures WellFormed(c) && c.dom == c.cod == n && c.boxes == [] && c.offsets == []
  {
    Circuit(n, n, [], [])
  }

  /** A box seen as the one-layer circuit holding it at offset 0. */
  function AsCircuit(b: Box): (c: Circuit)
    ensures WellFormed(c) && c.dom == b.Dom() && c.cod == b.Cod()
    ensures c.boxes == [b] && c.offsets == [0]
  {
    Circuit(b.Dom(), b.Cod(), [b], [0])
  }

  function Shift(os: seq<int>, k: int): (r: seq<int>)
    ensures |r| == |os| && forall i :: 0 <= i < |os| ==> r[i] == os[i] + k
  {
    seq(|os|, i requires 0 <= i < |os| => os[i] + k)
  }

  /** The ordinary tensor `f @ g`: the layers of f, then those of g moved
      right past the outputs of f. */
  function Tensor(f: Circuit, g: Circuit): (r: Circuit)
    requires |f.boxes| == |f.offsets| && |g.boxes| == |g.offsets|
    ensures r.dom == f.dom + g.dom && r.cod == f.cod + g.cod
    ensures |r.boxes| == |r.offsets| == |f.boxes| + |g.boxes|
    ensures forall i :: 0 <= i < |f.boxes| ==> r.boxes[i] == f.boxes[i] && r.offsets[i] == f.offsets[i]
    ensures forall j :: 0 <= j < |g.boxes| ==>
              r.boxes[|f.boxes| + j] == g.boxes[j] && r.offsets[|f.boxes| + j] == g.offsets[j] + f.cod
  {
    Circuit(f.dom + g.dom, f.cod + g.cod, f.boxes + g.boxes, f.offsets + Shift(g.offsets, f.cod))
  }

  /** Adding idle wires on the right keeps the layers typed. */
  lemma {:induction false} FitsPadRight(w: int, bs: seq<Box>, os: seq<int>, cod: int, k: nat)
    requires |bs| == |os| && FitsFrom(w, bs, os, cod)
    ensures FitsFrom(w + k, bs, os, cod + k)
    decreases |bs|
  {
    if bs != [] {
      FitsPadRight(w - bs[0].Dom() + bs[0].Cod(), bs[1..], os[1..], cod, k);
    }
  }

  /** Adding idle wires on the left, and shifting the offsets, keeps the layers typed. */
  lemma {:induction false} FitsPadLeft(w: int, bs: seq<Box>, os: seq<int>, cod: int, k: nat)
    requires |bs| == |os| && FitsFrom(w, bs, os, cod)
    ensures FitsFrom(w + k, bs, Shift(os, k), cod + k)
    decreases |bs|
  {
    if bs != [] {
      assert Shift(os, k)[1..] == Shift(os[1..], k);
      FitsPadLeft(w - bs[0].Dom() + bs[0].Cod(), bs[1..], os[1..], cod, k);
    }
  }

  /** Layers typed from w to m followed by layers typed from m to c are typed from w to c. */
  lemma {:induction false} FitsConcat(w: int, a: seq<Box>, oa: seq<int>, m: int,
                                      b: seq<Box>, ob: seq<int>, c: int)
    requires |a| == |oa| && |b| == |ob|
    requires FitsFrom(w, a, oa, m) && FitsFrom(m, b, ob, c)
    ensures FitsFrom(w, a + b, oa + ob, c)
    decreases |a|
  {
    if a == [] {
      assert a + b == b && oa + ob == ob;
    } else {
      assert (a + b)[1..] == a[1..] + b && (oa + ob)[1..] == oa[1..] + ob;
      FitsConcat(w - a[0].Dom() + a[0].Cod(), a[1..], oa[1..], m, b, ob, c);
    }
  }

  /** The tensor of two well-formed circuits is well-formed. */
  lemma TensorWellFormed(f: Circuit, g: Circuit)
    requires WellFormed(f) && WellFormed(g)
    ensures WellFormed(Tensor(f, g))
  {
    FitsPadRight(f.dom, f.boxes, f.offsets, f.cod, g.dom);
    FitsPadLeft(g.dom, g.boxes, g.offsets, g.cod, f.cod);
    FitsConcat(f.dom + g.dom, f.boxes, f.offsets, f.cod + g.dom,
               g.boxes, Shift(g.offsets, f.cod), f.cod + g.cod);
  }

  // ---------------------------------------------------------------------
  // Boxes are also one-layer circuits; basis states and effects fuse.

  /** Either an atomic box (which is also a one-layer circuit) or a general circuit. */
  datatype Term = Atom(box: Box) | Diag(circuit: Circuit)

  function ToCircuit(t: Term): Circuit
  {
    match t
    case Atom(b) => AsCircuit(b)
    case Diag(c) => c
  }

  /** `a @ b`: a Ket tensored with a Ket is the Ket of the concatenated
      bitstrings, and likewise for Bras; everything else is the ordinary tensor. */
  function TensorTerms(a: Term, b: Term): Term
    requires |ToCircuit(a).boxes| == |ToCircuit(a).offsets|
    requires |ToCircuit(b).boxes| == |ToCircuit(b).offsets|
  {
    if a.Atom? && b.Atom? && a.box.Ket? && b.box.Ket? then Atom(Ket(a.box.bits + b.box.bits))
    else if a.Atom? && b.Atom? && a.box.Bra? && b.box.Bra? then Atom(Bra(a.box.bits + b.box.bits))
    else Diag(Tensor(ToCircuit(a), ToCircuit(b)))
  }

  /** Fusion agrees with the ordinary tensor on widths, and keeps circuits well-formed. */
  lemma TensorTermsTyped(a: Term, b: Term)
    requires WellFormed(ToCircuit(a)) && WellFormed(ToCircuit(b))
    ensures WellFormed(ToCircuit(TensorTerms(a, b)))
    ensures ToCircuit(TensorTerms(a, b)).dom == ToCircuit(a).dom + ToCircuit(b).dom
    ensures ToCircuit(TensorTerms(a, b)).cod == ToCircuit(a).cod + ToCircuit(b).cod
  {
    TensorWellFormed(ToCircuit(a), ToCircuit(b));
  }

  /** `Ket(0, 1, 0) @ Ket(1, 0) == Ket(0, 1, 0, 1, 0)`, the same for Bras, and
      `Bra(0) @ X` is not fused. */
  lemma FusionExamples()
    ensures TensorTerms(Atom(Ket([0, 1, 0])), Atom(Ket([1, 0]))) == Atom(Ket([0, 1, 0, 1, 0]))
    ensures TensorTerms(Atom(Bra([0, 1, 0])), Atom(Bra([1, 0]))) == Atom(Bra([0, 1, 0, 1, 0]))
    ensures TensorTerms(Atom(Bra([0])), Atom(LibraryGate("X"))).Diag?
  {
    assert [0, 1, 0] + [1, 0] == [0, 1, 0, 1, 0];
  }

  /** Fusion is associative: the order in which Kets are fused does not matter. */
  lemma FusionAssociative(x: seq<Bit>, y: seq<Bit>, z: seq<Bit>)
    ensures TensorTerms(TensorTerms(Atom(Ket(x)), Atom(Ket(y))), Atom(Ket(z)))
         == TensorTerms(Atom(Ket(x)), TensorTerms(Atom(Ket(y)), Atom(Ket(z))))
  {
    assert (x + y) + z == x + (y + z);
  }

  // ---------------------------------------------------------------------
  // Normalisation, phase 1: strip the scalar boxes.

  /** A zero-width gate carries at least one array entry (its scalar value). */
  predicate Payloaded(b: Box)
  {
    b.Gate? && b.width == 0 ==> |b.entries| > 0
  }

  predicate AllPayloaded(bs: seq<Box>)
  {
    forall k :: 0 <= k < |bs| ==> Payloaded(bs[k])
  }

  /** `box.array[0]` of a scalar box: a zero-width gate's single entry, and 1
      for the empty Ket or Bra. */
  function ScalarValue(b: Box): real
    requires b.IsScalar() && Payloaded(b)
  {
    if b.Gate? then b.entries[0] else 1.0
  }

  /** The values of the scalar boxes of a list, in order. */
  function ScalarValues(bs: seq<Box>): (r: seq<real>)
    requires AllPayloaded(bs)
    ensures |r| == CountScalars(bs)
  {
    if bs == [] then []
    else (if bs[0].IsScalar() then [ScalarValue(bs[0])] else []) + ScalarValues(bs[1..])
  }

  /** Left-to-right product of a list of numbers, as a running product computes it. */
  function Product(xs: seq<real>): real
  {
    if xs == [] then 1.0 else Product(xs[..|xs| - 1]) * xs[|xs| - 1]
  }

  function CountScalars(bs: seq<Box>): nat
  {
    if bs == [] then 0 else (if bs[0].IsScalar() then 1 else 0) + CountScalars(bs[1..])
  }

  /** The layers that are not scalars, in their original order. */
  function StripLayers(bs: seq<Box>, os: seq<int>): (r: (seq<Box>, seq<int>))
    requires |bs| == |os|
    ensures |r.0| == |r.1| == |bs| - CountScalars(bs)
    ensures forall k :: 0 <= k < |r.0| ==> !r.0[k].IsScalar()
  {
    if bs == [] then ([], [])
    else
      var rest := StripLayers(bs[1..], os[1..]);
      if bs[0].IsScalar() then rest else ([bs[0]] + rest.0, [os[0]] + rest.1)
  }

  /** Index of the first scalar box, or -1 when there is none. */
  function FirstScalar(bs: seq<Box>): (i: int)
    ensures -1 <= i < |bs|
    ensures i >= 0 ==> bs[i].IsScalar()
    ensures forall k :: 0 <= k < |bs| && (i == -1 || k < i) ==> !bs[k].IsScalar()
    ensures (i == -1) == (CountScalars(bs) == 0)
  {
    if bs == [] then -1
    else if bs[0].IsScalar() then 0
    else
      var j := FirstScalar(bs[1..]);
      if j == -1 then -1 else j + 1
  }

  /** `diagram[:i] >> diagram[i + 1:]` for a scalar layer i: the layer is
      dropped and the widths are unchanged. */
  function RemoveLayer(c: Circuit, i: nat): (d: Circuit)
    requires |c.boxes| == |c.offsets| && i < |c.boxes|
    ensures d.dom == c.dom && d.cod == c.cod && |d.boxes| == |d.offsets| == |c.boxes| - 1
  {
    Circuit(c.dom, c.cod, RemoveAt(c.boxes, i), RemoveAt(c.offsets, i))
  }

  /** `s` with its i-th element dropped. */
  function RemoveAt<T>(s: seq<T>, i: nat): (r: seq<T>)
    requires i < |s|
    ensures |r| == |s| - 1
  {
    s[..i] + s[i + 1..]
  }

  lemma RemoveAtTail<T>(s: seq<T>, i: nat)
    requires 0 < i < |s|
    ensures RemoveAt(s, i) == [s[0]] + RemoveAt(s[1..], i - 1)
  {
  }

  /** Removing the first scalar layer keeps the other layers, takes one
      scalar away and divides its value out of the product. */
  lemma {:induction false} RemoveFirstScalar(bs: seq<Box>, os: seq<int>, i: nat)
    requires |bs| == |os| && i < |bs| && AllPayloaded(bs)
    requires bs[i].IsScalar() && forall k :: 0 <= k < i ==> !bs[k].IsScalar()
    ensures AllPayloaded(RemoveAt(bs, i))
    ensures StripLayers(RemoveAt(bs, i), RemoveAt(os, i)) == StripLayers(bs, os)
    ensures CountScalars(RemoveAt(bs, i)) == CountScalars(bs) - 1
    ensures ScalarValues(bs) == [ScalarValue(bs[i])] + ScalarValues(RemoveAt(bs, i))
  {
    RemoveScalarStrip(bs, os, i);
    RemoveScalarValues(bs, i);
  }

  lemma {:induction false} RemoveScalarStrip(bs: seq<Box>, os: seq<int>, i: nat)
    requires |bs| == |os| && i < |bs|
    requires bs[i].IsScalar()
    ensures StripLayers(RemoveAt(bs, i), RemoveAt(os, i)) == StripLayers(bs, os)
    decreases i
  {
    if i == 0 {
      assert RemoveAt(bs, i) == bs[1..] && RemoveAt(os, i) == os[1..];
    } else {
      RemoveAtTail(bs, i);
      RemoveAtTail(os, i);
      RemoveScalarStrip(bs[1..], os[1..], i - 1);
      var rb, ro := RemoveAt(bs, i), RemoveAt(os, i);
      assert rb[0] == bs[0] && rb[1..] == RemoveAt(bs[1..], i - 1);
      assert ro[0] == os[0] && ro[1..] == RemoveAt(os[1..], i - 1);
    }
  }

  lemma {:induction false} RemoveScalarValues(bs: seq<Box>, i: nat)
    requires i < |bs| && AllPayloaded(bs)
    requires bs[i].IsScalar() && forall k :: 0 <= k < i ==> !bs[k].IsScalar()
    ensures AllPayloaded(RemoveAt(bs, i))
    ensures CountScalars(RemoveAt(bs, i)) == CountScalars(bs) - 1
    ensures ScalarValues(bs) == [ScalarValue(bs[i])] + ScalarValues(RemoveAt(bs, i))
    decreases i
  {
    if i == 0 {
      assert RemoveAt(bs, i) == bs[1..];
    } else {
      RemoveAtTail(bs, i);
      RemoveScalarValues(bs[1..], i - 1);
      var rb := RemoveAt(bs, i);
      assert rb[0] == bs[0] && rb[1..] == RemoveAt(bs[1..], i - 1);
    }
  }

  /** Stripping is idempotent and leaves a list without scalars unchanged. */
  lemma {:induction false} StripNoScalars(bs: seq<Box>, os: seq<int>)
    requires |bs| == |os| && CountScalars(bs) == 0
    ensures StripLayers(bs, os) == (bs, os)
    decreases |bs|
  {
    if bs != [] {
      StripNoScalars(bs[1..], os[1..]);
      assert [bs[0]] + bs[1..] == bs && [os[0]] + os[1..] == os;
    }
  }

  /** `remove_scalars`: find the first box with no input and no output wire,
      drop its layer and return its value; `None` when there is none. */
  method RemoveScalars(c: Circuit) returns (d: Circuit, number: Option<real>)
    requires |c.boxes| == |c.offsets| && AllPayloaded(c.boxes)
    ensures number.None? <==> CountScalars(c.boxes) == 0
    ensures number.None? ==> d == c
    ensures number.Some? ==> (FirstScalar(c.boxes) >= 0
                              && d == RemoveLayer(c, FirstScalar(c.boxes))
                              && number.value == ScalarValue(c.boxes[FirstScalar(c.boxes)]))
  {
    var i := 0;
    while i < |c.boxes|
      invariant 0 <= i <= |c.boxes|
      invariant forall k :: 0 <= k < i ==> !c.boxes[k].IsScalar()
    {
      if c.boxes[i].Dom() == 0 && c.boxes[i].Cod() == 0 {
        assert FirstScalar(c.boxes) == i;
        return RemoveLayer(c, i), Some(ScalarValue(c.boxes[i]));
      }
      i := i + 1;
    }
    NoScalarsCount(c.boxes);
    return c, None;
  }

  lemma {:induction false} NoScalarsCount(bs: seq<Box>)
    requires forall k :: 0 <= k < |bs| ==> !bs[k].IsScalar()
    ensures CountScalars(bs) == 0
    decreases |bs|
  {
    if bs != [] {
      NoScalarsCount(bs[1..]);
    }
  }

  /** One step yielded by phase 1: a circuit and the running scalar. */
  datatype Step = Step(circuit: Circuit, scalar: real)

  /** Phase 1 of `normalize`: remove scalar boxes one at a time, earliest
      first, multiplying their values into a running scalar, and yield the
      pair after every removal; stop when no scalar box remains. */
  method NormalizeScalars(c: Circuit) returns (steps: seq<Step>, d: Circuit, scalar: real)
    requires |c.boxes| == |c.offsets| && AllPayloaded(c.boxes)
    ensures d.dom == c.dom && d.cod == c.cod && CountScalars(d.boxes) == 0
    ensures |d.boxes| == |d.offsets| && (d.boxes, d.offsets) == StripLayers(c.boxes, c.offsets)
    ensures scalar == Product(ScalarValues(c.boxes))
    ensures |steps| == CountScalars(c.boxes)
    ensures steps != [] ==> steps[|steps| - 1] == Step(d, scalar)
    ensures forall k :: 0 <= k < |steps| ==> StepOk(c, steps[k], k + 1)
  {
    d, scalar, steps := c, 1.0, [];
    assert ScalarValues(c.boxes)[..0] == [];
    var done := false;
    while !done
      invariant Yielded(c, steps, d, scalar)
      invariant done ==> CountScalars(d.boxes) == 0
      decreases |d.boxes| + (if done then 0 else 1)
    {
      done, steps, d, scalar := NormalizeRound(c, steps, d, scalar);
    }
    YieldedAll(c, steps, d, scalar);
  }

  /** Once no scalar box is left, every scalar box has been yielded: the
      circuit is the stripped one and the scalar is the product of all values. */
  lemma YieldedAll(c: Circuit, steps: seq<Step>, d: Circuit, scalar: real)
    requires |c.boxes| == |c.offsets| && AllPayloaded(c.boxes)
    requires Yielded(c, steps, d, scalar) && CountScalars(d.boxes) == 0
    ensures |d.boxes| == |d.offsets| && (d.boxes, d.offsets) == StripLayers(c.boxes, c.offsets)
    ensures scalar == Product(ScalarValues(c.boxes))
    ensures |steps| == CountScalars(c.boxes)
  {
    assert ScalarValues(c.boxes)[..|steps|] == ScalarValues(c.boxes);
    StripNoScalars(d.boxes, d.offsets);
  }

  /** One round of phase 1: the first scalar left, if any, is removed and
      multiplied into the running scalar, and the new pair is yielded. */
  method NormalizeRound(c: Circuit, steps: seq<Step>, d: Circuit, scalar: real)
    returns (done: bool, steps': seq<Step>, d': Circuit, scalar': real)
    requires |c.boxes| == |c.offsets| && AllPayloaded(c.boxes)
    requires Yielded(c, steps, d, scalar)
    ensures Yielded(c, steps', d', scalar')
    ensures done ==> CountScalars(d'.boxes) == 0 && steps' == steps && d' == d && scalar' == scalar
    ensures !done ==> |d'.boxes| < |d.boxes|
  {
    var removed, number := RemoveScalars(d);
    if number.None? {
      done, steps', d', scalar' := true, steps, d, scalar;
    } else {
      var v := number.value;
      var next := Step(removed, scalar * v);
      YieldNext(c, steps, d, scalar, v, next);
      done, steps', d', scalar' := false, steps + [next], next.circuit, next.scalar;
    }
  }

  /** What holds after every round of phase 1: the current pair is the
      last one yielded, and each yielded pair is correct for its position. */
  predicate Yielded(c: Circuit, steps: seq<Step>, d: Circuit, scalar: real)
    requires |c.boxes| == |c.offsets| && AllPayloaded(c.boxes)
  {
    && StepOk(c, Step(d, scalar), |steps|)
    && (forall k :: 0 <= k < |steps| ==> StepOk(c, steps[k], k + 1))
    && (steps != [] ==> steps[|steps| - 1] == Step(d, scalar))
  }

  /** One round of phase 1 keeps `Yielded`. */
  lemma YieldNext(c: Circuit, steps: seq<Step>, d: Circuit, scalar: real, v: real, next: Step)
    requires |c.boxes| == |c.offsets| && AllPayloaded(c.boxes)
    requires Yielded(c, steps, d, scalar) && FirstScalar(d.boxes) >= 0
    requires next.circuit == RemoveLayer(d, FirstScalar(d.boxes))
    requires v == ScalarValue(d.boxes[FirstScalar(d.boxes)]) && next.scalar == scalar * v
    ensures Yielded(c, steps + [next], next.circuit, next.scalar)
    ensures |next.circuit.boxes| < |d.boxes|
  {
    StepAdvance(c, d, scalar, |steps|, v, next);
    var steps' := steps + [next];
    forall k | 0 <= k < |steps'|
      ensures StepOk(c, steps'[k], k + 1)
    {
      if k < |steps| {
        assert steps'[k] == steps[k];
      }
    }
  }

  /** Removing the first scalar of a yielded pair gives the next yielded pair. */
  lemma StepAdvance(c: Circuit, d: Circuit, scalar: real, n: nat, v: real, next: Step)
    requires |c.boxes| == |c.offsets| && AllPayloaded(c.boxes)
    requires StepOk(c, Step(d, scalar), n) && FirstScalar(d.boxes) >= 0
    requires next.circuit == RemoveLayer(d, FirstScalar(d.boxes))
    requires v == ScalarValue(d.boxes[FirstScalar(d.boxes)]) && next.scalar == scalar * v
    ensures StepOk(c, next, n + 1)
  {
    var i := FirstScalar(d.boxes);
    var d' := RemoveLayer(d, i);
    RemoveFirstScalar(d.boxes, d.offsets, i);
    var all := ScalarValues(c.boxes);
    var rest := ScalarValues(d'.boxes);
    assert all == all[..n] + ScalarValues(d.boxes);
    assert ScalarValues(d.boxes) == [v] + rest;
    assert all == all[..n] + [v] + rest;
    SplitAfter(all, all[..n], v, rest);
    ProductStep(all[..n], scalar, v);
    assert next.circuit == d';
  }

  /** A list split around one value: the prefix with that value is a prefix of the list. */
  lemma SplitAfter(all: seq<real>, pre: seq<real>, v: real, rest: seq<real>)
    requires all == pre + [v] + rest
    ensures |pre| + 1 <= |all| && all[..|pre| + 1] == pre + [v]
    ensures all == all[..|pre| + 1] + rest
  {
    assert all[..|pre| + 1] == pre + [v];
  }

  /** One more factor multiplies the running product. */
  lemma ProductSnoc(xs: seq<real>, v: real)
    ensures Product(xs + [v]) == Product(xs) * v
  {
    assert (xs + [v])[..|xs|] == xs;
  }

  /** The product of a sequence with a value in front is that value times
      the product of the rest. */
  lemma {:induction false} ProductCons(v: real, xs: seq<real>)
    ensures Product([v] + xs) == v * Product(xs)
    decreases |xs|
  {
    if xs == [] {
      assert ([v] + xs)[..0] == [];
    } else {
      var n := |xs| - 1;
      ProductCons(v, xs[..n]);
      assert ([v] + xs)[..|xs|] == [v] + xs[..n];
    }
  }

  /** A running product x of xs, times v, is the product of xs and v. */
  lemma ProductStep(xs: seq<real>, x: real, v: real)
    requires x == Product(xs)
    ensures Product(xs + [v]) == x * v
  {
    ProductSnoc(xs, v);
  }

  /** The pair yielded after n removals: same widths, the same non-scalar
      layers, and the running scalar is the product of the first n scalar
      values, the remaining scalar boxes holding the others in order. */
  predicate StepOk(c: Circuit, s: Step, n: nat)
    requires |c.boxes| == |c.offsets| && AllPayloaded(c.boxes)
  {
    && s.circuit.dom == c.dom && s.circuit.cod == c.cod
    && |s.circuit.boxes| == |s.circuit.offsets| && AllPayloaded(s.circuit.boxes)
    && StripLayers(s.circuit.boxes, s.circuit.offsets) == StripLayers(c.boxes, c.offsets)
    && n <= CountScalars(c.boxes)
    && ScalarValues(c.boxes) == ScalarValues(c.boxes)[..n] + ScalarValues(s.circuit.boxes)
    && s.scalar == Product(ScalarValues(c.boxes)[..n])
  }

  // ---------------------------------------------------------------------
  // `measure`'s helper: an integer as a zero-padded binary string.

  /** Binary digits of i with no leading zero (a single 0 for i == 0). */
  function Binary(i: nat): (r: seq<Bit>)
    ensures |r| >= 1
    decreases i
  {
    if i < 2 then [i] else Binary(i / 2) + [i % 2]
  }

  function Zeros(k: nat): (r: seq<Bit>)
    ensures |r| == k && forall j :: 0 <= j < k ==> r[j] == 0
  {
    seq(k, _ => 0)
  }

  /** `bitstring(i, n)`: the binary digits of i, most significant first,
      left-padded with zeros to n digits (Python's zero-padded binary format, which
      never truncates). */
  function BitString(i: nat, n: nat): (r: seq<Bit>)
  {
    var b := Binary(i);
    if |b| >= n then b else Zeros(n - |b|) + b
  }

  lemma {:induction false} BinaryValue(i: nat)
    ensures Value(Binary(i)) == i
    ensures i > 0 ==> Pow2(|Binary(i)| - 1) <= i
    decreases i
  {
    if i >= 2 {
      BinaryValue(i / 2);
      var b := Binary(i / 2) + [i % 2];
      assert b[..|b| - 1] == Binary(i / 2);
    }
  }

  lemma {:induction false} ZerosValue(k: nat, s: seq<Bit>)
    ensures Value(Zeros(k) + s) == Value(s)
    decreases k
  {
    if k == 0 {
      assert Zeros(k) + s == s;
    } else {
      var t := Zeros(k - 1) + s;
      assert Zeros(k) + s == [0] + t;
      ValueCons(0, t);
      assert Value([0] + t) == Value(t);
      ZerosValue(k - 1, s);
    }
  }

  lemma Pow2Monotone(m: nat, n: nat)
    requires m <= n
    ensures Pow2(m) <= Pow2(n)
    decreases n
  {
    if m < n {
      Pow2Monotone(m, n - 1);
    }
  }

  /** `bitstring(i, n)` has binary value i, and exactly n digits whenever
      `0 < n` and `i < 2^n` (for n == 0 Python still prints one digit). */
  lemma BitStringValue(i: nat, n: nat)
    ensures Value(BitString(i, n)) == i
    ensures |BitString(i, n)| >= n
    ensures 0 < n && i < Pow2(n) ==> |BitString(i, n)| == n
  {
    var b := Binary(i);
    BinaryValue(i);
    if |b| < n {
      ZerosValue(n - |b|, b);
    } else if 0 < n && i < Pow2(n) && |b| > n {
      Pow2Monotone(n, |b| - 1);
      assert i > 0;
    }
  }

  /** Reading a bitstring's value back with `bitstring` gives the bitstring,
      whenever it is not longer than the minimal form of its value. */
  lemma BitStringRoundTrip(s: seq<Bit>)
    requires |s| > 0
    ensures BitString(Value(s), |s|) == s
  {
    BitStringValue(Value(s), |s|);
    ValueInjective(BitString(Value(s), |s|), s);
  }
}
