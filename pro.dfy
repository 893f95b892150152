/** Wire-count types: `PRO(n)` is the type of n indistinguishable wires. */
module Pro {
  import opened Common

  datatype Pro = Pro(width: nat)
  {
    /** `PRO(m) @ PRO(n)` is `PRO(m + n)`. */
    function Tensor(other: Pro): (r: Pro)
      ensures r.width == width + other.width
      ensures other.width == 0 ==> r == this
    {
      Pro(width + other.width)
    }

    /** A wire-count type is its own left adjoint. */
    function L(): (r: Pro)
      ensures r.width == width
    {
      this
    }

    /** A wire-count type is its own right adjoint. */
    function R(): (r: Pro)
      ensures r.width == width
    {
      this
    }

    /** `PRO(n)[start:stop]` with Python's slice semantics (step 1): a missing
        bound is the end of the wires, a negative bound counts from the end, and
        bounds are clamped to `[0, n]`. */
    function Slice(start: Bound, stop: Bound): (r: Pro)
      ensures r.width <= width
      ensures start.None? && stop.None? ==> r == this
      ensures (start.Some? && stop.Some? && 0 <= start.value <= stop.value <= width) ==>
                r.width == stop.value - start.value
      ensures (start.Some? && start.value < 0 && stop.None?) ==>
                r.width == (if -start.value <= width then -start.value else width)
    {
      var lo := Clamp(start, 0, width);
      var hi := Clamp(stop, width, width);
      Pro(if lo <= hi then hi - lo else 0)
    }
  }

  /** An optional slice bound, `None` for an omitted one. */
  type Bound = Option<int>

  /** Normalises one slice bound against a length n as Python does. */
  function Clamp(b: Bound, default: nat, n: nat): (k: nat)
    requires default <= n
    ensures k <= n
  {
    match b
    case None => default
    case Some(i) =>
      if i < 0 then (if i + n < 0 then 0 else i + n)
      else if i > n then n
      else i
  }

  /** Splitting the wires at any index k, Python's `p[:k] @ p[k:]`, gives them back. */
  lemma SplitTensor(p: Pro, k: int)
    ensures p.Slice(None, Some(k)).Tensor(p.Slice(Some(k), None)) == p
  {
  }

  /** The adjoints are involutive and agree with each other. */
  lemma AdjointsAgree(p: Pro)
    ensures p.L() == p.R() == p
    ensures p.L().R() == p.R().L() == p
  {
  }
}
