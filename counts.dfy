/** The post-selection filter of `get_counts`: the backend's outcome counts
    are kept only for bitstrings that agree with every post-selected bit, and
    each kept bitstring loses its post-selected positions. */
module Counts {
  import opened Common
  import opened Tket

  /** Outcome counts keyed by bitstring, bit i being the value of bit c[i]. */
  type Counts = map<seq<Bit>, real>

  /** The bitstring agrees with every post-selected (index, value) pair. */
  predicate Matches(bs: seq<Bit>, ps: map<int, Bit>)
  {
    forall i :: i in ps ==> 0 <= i < |bs| && bs[i] == ps[i]
  }

  /** The bitstring without its post-selected positions, in order. */
  function Reduce(bs: seq<Bit>, ps: map<int, Bit>): (r: seq<Bit>)
    ensures |r| <= |bs|
  {
    if bs == [] then []
    else
      var n := |bs| - 1;
      Reduce(bs[..n], ps) + (if n in ps then [] else [bs[n]])
  }

  /** Two bitstrings of one length that agree on the post-selected positions
      and reduce to the same key are equal. */
  lemma {:induction false} ReduceInjectiveOn(x: seq<Bit>, y: seq<Bit>, ps: map<int, Bit>)
    requires |x| == |y| && Reduce(x, ps) == Reduce(y, ps)
    requires forall i :: i in ps && 0 <= i < |x| ==> x[i] == y[i]
    ensures x == y
    decreases |x|
  {
    if x != [] {
      var n := |x| - 1;
      var rx, ry := Reduce(x[..n], ps), Reduce(y[..n], ps);
      if n in ps {
        assert rx == Reduce(x, ps) && ry == Reduce(y, ps);
      } else {
        assert rx + [x[n]] == ry + [y[n]];
        assert |rx| == |ry| by {
          assert |rx + [x[n]]| == |ry + [y[n]]|;
        }
        assert rx == (rx + [x[n]])[..|rx|] && ry == (ry + [y[n]])[..|ry|];
        assert x[n] == (rx + [x[n]])[|rx|] && y[n] == (ry + [y[n]])[|ry|];
      }
      ReduceInjectiveOn(x[..n], y[..n], ps);
      assert x == x[..n] + [x[n]] && y == y[..n] + [y[n]];
    }
  }

  /** Kept keys stay distinct: two matching bitstrings of one length with the
      same reduced key are the same bitstring. */
  lemma ReduceInjective(x: seq<Bit>, y: seq<Bit>, ps: map<int, Bit>)
    requires |x| == |y| && Matches(x, ps) && Matches(y, ps) && Reduce(x, ps) == Reduce(y, ps)
    ensures x == y
  {
    ReduceInjectiveOn(x, y, ps);
  }

  /** The post-selected positions below n. */
  function SelectedBelow(ps: map<int, Bit>, n: int): set<int>
  {
    set i | i in ps && 0 <= i < n
  }

  /** A reduced key is as much shorter as the post-selected positions it drops. */
  lemma {:induction false} ReduceLength(bs: seq<Bit>, ps: map<int, Bit>)
    ensures |Reduce(bs, ps)| == |bs| - |SelectedBelow(ps, |bs|)|
    decreases |bs|
  {
    if bs != [] {
      var n := |bs| - 1;
      ReduceLength(bs[..n], ps);
      if n in ps {
        assert SelectedBelow(ps, |bs|) == SelectedBelow(ps, n) + {n};
      } else {
        assert SelectedBelow(ps, |bs|) == SelectedBelow(ps, n);
      }
    } else {
      assert SelectedBelow(ps, 0) == {};
    }
  }

  /** With no post-selection a bitstring is its own key. */
  lemma {:induction false} ReduceNothing(bs: seq<Bit>)
    ensures Reduce(bs, map[]) == bs
    decreases |bs|
  {
    if bs != [] {
      var n := |bs| - 1;
      ReduceNothing(bs[..n]);
      assert bs == bs[..n] + [bs[n]];
    }
  }

  /** r is what the filter builds from the outcomes in `keys`: each matching
      outcome's count sits under its reduced key, and every key of r is the
      reduced key of a matching outcome. */
  predicate SelectedFrom(r: Counts, counts: Counts, ps: map<int, Bit>, keys: set<seq<Bit>>)
    requires keys <= counts.Keys
  {
    && (forall bs :: bs in keys && Matches(bs, ps) ==> Reduce(bs, ps) in r && r[Reduce(bs, ps)] == counts[bs])
    && (forall key :: key in r ==> exists bs :: bs in keys && Matches(bs, ps) && Reduce(bs, ps) == key)
  }

  /** The filter's result is determined by the counts and the post-selection. */
  lemma SelectedUnique(r1: Counts, r2: Counts, counts: Counts, ps: map<int, Bit>, keys: set<seq<Bit>>)
    requires keys <= counts.Keys
    requires SelectedFrom(r1, counts, ps, keys) && SelectedFrom(r2, counts, ps, keys)
    ensures r1 == r2
  {
    forall key | key in r1
      ensures key in r2 && r2[key] == r1[key]
    {
      var bs :| bs in keys && Matches(bs, ps) && Reduce(bs, ps) == key;
    }
    forall key | key in r2
      ensures key in r1
    {
      var bs :| bs in keys && Matches(bs, ps) && Reduce(bs, ps) == key;
    }
  }

  /** Every kept key has one entry per bit that is not post-selected. */
  lemma SelectedKeyLength(r: Counts, counts: Counts, ps: map<int, Bit>, n: nat)
    requires forall bs :: bs in counts ==> |bs| == n
    requires KeysBelow(ps, n) && SelectedFrom(r, counts, ps, counts.Keys)
    ensures forall key :: key in r ==> |key| == n - |ps|
  {
    forall key | key in r
      ensures |key| == n - |ps|
    {
      var bs :| bs in counts && Matches(bs, ps) && Reduce(bs, ps) == key;
      ReduceLength(bs, ps);
      assert SelectedBelow(ps, n) == ps.Keys;
    }
  }

  /** With an empty post-selection the filter returns the counts unchanged. */
  lemma SelectNothing(r: Counts, counts: Counts)
    requires SelectedFrom(r, counts, map[], counts.Keys)
    ensures r == counts
  {
    forall bs | bs in counts
      ensures Reduce(bs, map[]) == bs
    {
      ReduceNothing(bs);
    }
    assert SelectedFrom(counts, counts, map[], counts.Keys) by {
      forall key | key in counts
        ensures exists bs :: bs in counts.Keys && Matches(bs, map[]) && Reduce(bs, map[]) == key
      {
        assert Reduce(key, map[]) == key;
      }
    }
    SelectedUnique(r, counts, counts, map[], counts.Keys);
  }

  /** One more outcome considered by the filter loop keeps `SelectedFrom`. */
  lemma SelectedStep(r: Counts, counts: Counts, ps: map<int, Bit>, n: nat, done: set<seq<Bit>>, bs: seq<Bit>)
    requires forall b :: b in counts ==> |b| == n
    requires bs in counts && bs !in done && done <= counts.Keys
    requires SelectedFrom(r, counts, ps, done)
    ensures SelectedFrom(if Matches(bs, ps) then r[Reduce(bs, ps) := counts[bs]] else r, counts, ps, done + {bs})
  {
    var r' := if Matches(bs, ps) then r[Reduce(bs, ps) := counts[bs]] else r;
    forall b | b in done + {bs} && Matches(b, ps)
      ensures Reduce(b, ps) in r' && r'[Reduce(b, ps)] == counts[b]
    {
      if b != bs && Matches(bs, ps) && Reduce(b, ps) == Reduce(bs, ps) {
        ReduceInjective(b, bs, ps);
      }
    }
    forall key | key in r'
      ensures exists b :: b in done + {bs} && Matches(b, ps) && Reduce(b, ps) == key
    {
      if Matches(bs, ps) && key == Reduce(bs, ps) {
        assert bs in done + {bs};
      } else {
        var b :| b in done && Matches(b, ps) && Reduce(b, ps) == key;
        assert b in done + {bs};
      }
    }
  }

  /** r holds the counts of m, each multiplied by f. */
  predicate ScaledFrom(r: Counts, m: Counts, f: real)
  {
    r.Keys == m.Keys && forall bs :: bs in r ==> r[bs] == m[bs] * f
  }

  /** Scaling commutes with the filter: the filter's result scaled by f is
      the filter of the counts scaled by f. */
  lemma SelectScaled(r: Counts, counts: Counts, ps: map<int, Bit>, f: real, r': Counts, c': Counts)
    requires SelectedFrom(r, counts, ps, counts.Keys)
    requires ScaledFrom(r', r, f) && ScaledFrom(c', counts, f)
    ensures SelectedFrom(r', c', ps, c'.Keys)
  {
    forall bs | bs in c' && Matches(bs, ps)
      ensures Reduce(bs, ps) in r' && r'[Reduce(bs, ps)] == c'[bs]
    {
      assert r[Reduce(bs, ps)] == counts[bs];
    }
    forall key | key in r'
      ensures exists bs :: bs in c'.Keys && Matches(bs, ps) && Reduce(bs, ps) == key
    {
      assert key in r;
    }
  }

  /** The post-selection loop of `get_counts`: each outcome is considered in
      turn and, when it matches, its count is stored under its reduced key. */
  method PostSelectCounts(counts: Counts, ps: map<int, Bit>, n: nat) returns (selected: Counts)
    requires forall bs :: bs in counts ==> |bs| == n
    ensures SelectedFrom(selected, counts, ps, counts.Keys)
  {
    selected := map[];
    var todo := counts.Keys;
    while todo != {}
      invariant todo <= counts.Keys
      invariant SelectedFrom(selected, counts, ps, counts.Keys - todo)
      decreases |todo|
    {
      var bs :| bs in todo;
      SelectedStep(selected, counts, ps, n, counts.Keys - todo, bs);
      if Matches(bs, ps) {
        selected := selected[Reduce(bs, ps) := counts[bs]];
      }
      assert counts.Keys - (todo - {bs}) == (counts.Keys - todo) + {bs};
      todo := todo - {bs};
    }
    assert counts.Keys - todo == counts.Keys;
  }

  /** The scaling loop of `get_counts`: every count, updated in place, is
      multiplied by `factor`. */
  method ScaleCounts(counts: Counts, factor: real) returns (r: Counts)
    ensures ScaledFrom(r, counts, factor)
  {
    r := counts;
    var todo := counts.Keys;
    while todo != {}
      invariant todo <= counts.Keys && r.Keys == counts.Keys
      invariant forall bs :: bs in r ==> r[bs] == if bs in todo then counts[bs] else counts[bs] * factor
      decreases |todo|
    {
      var bs :| bs in todo;
      r := r[bs := r[bs] * factor];
      todo := todo - {bs};
    }
  }

  /** `abs(x) ** 2` of a real scalar. */
  function SquaredModulus(x: real): (r: real)
    ensures r >= 0.0
  {
    x * x
  }

  /** `result` comes out of the two optional stages of `get_counts` with
      `selected` between them: the post-selection filter, then the scaling
      by `factor`. */
  predicate Stages(result: Counts, selected: Counts, counts: Counts, ps: map<int, Bit>, factor: real,
                   postSelect: bool, scale: bool)
  {
    && (if postSelect then SelectedFrom(selected, counts, ps, counts.Keys) else selected == counts)
    && (if scale then ScaledFrom(result, selected, factor) else result == selected)
  }

  /** `get_counts` after the backend has answered with `counts`: an empty
      answer raises RuntimeError; otherwise the counts are post-selected
      when `postSelect` is set, then multiplied by the squared modulus of the
      circuit's scalar when `scale` is set. */
  method GetCounts(tk: TketCircuit, counts: Counts, postSelect: bool, scale: bool) returns (r: Result<Counts>, ghost selected: Counts)
    requires tk.Valid() && forall bs :: bs in counts ==> |bs| == tk.nBits
    ensures counts == map[] <==> r == Err(EmptyResult)
    ensures counts != map[] ==> r.Ok?
    ensures r.Ok? ==> Stages(r.value, selected, counts, tk.postSelection, SquaredModulus(tk.scalar), postSelect, scale)
  {
    var ps, factor := tk.postSelection, SquaredModulus(tk.scalar);
    selected := counts;
    if counts == map[] {
      return Err(EmptyResult), selected;
    }
    var filtered := counts;
    if postSelect {
      filtered := PostSelectCounts(counts, ps, tk.nBits);
    }
    selected := filtered;
    var result := filtered;
    if scale {
      result := ScaleCounts(filtered, factor);
    }
    r := Ok(result);
  }
}
