/**
 * The Monte-Carlo dropout ensemble of `main` (icvmapper/segment/icvmapper.py):
 * `num_mc` forward passes stacked in `pred_s`, then their voxel-wise mean,
 * then `math_img('img > thresh')`. The network is an oracle: `draw(k)` is
 * what the k-th call of `run_test_case` returns, flattened.
 */
module Ensemble {
  import opened Voxels

  /** Every sample has `voxels` voxels. */
  predicate Sized(draw: nat -> seq<real>, n: nat, voxels: nat) {
    forall k :: 0 <= k < n ==> |draw(k)| == voxels
  }

  /** The sum over the first `n` samples at voxel `v`. */
  function SampleSum(draw: nat -> seq<real>, n: nat, v: nat): real
    requires forall k :: 0 <= k < n ==> v < |draw(k)|
  {
    if n == 0 then 0.0 else SampleSum(draw, n - 1, v) + draw(n - 1)[v]
  }

  /** How many of the first `n` samples mark voxel `v`. */
  function Votes(draw: nat -> seq<real>, n: nat, v: nat): (c: nat)
    requires forall k :: 0 <= k < n ==> v < |draw(k)|
    ensures c <= n
  {
    if n == 0 then 0 else Votes(draw, n - 1, v) + (if draw(n - 1)[v] == 1.0 then 1 else 0)
  }

  /** How many of the first `n` samples mark voxel `v`: the number of such samples. */
  lemma {:induction false} VotesCount(draw: nat -> seq<real>, n: nat, v: nat)
    requires forall k :: 0 <= k < n ==> v < |draw(k)|
    ensures Votes(draw, n, v) == |set k: nat | k < n && draw(k)[v] == 1.0|
  {
    if n > 0 {
      VotesCount(draw, n - 1, v);
      var before := set k: nat | k < n - 1 && draw(k)[v] == 1.0;
      var all := set k: nat | k < n && draw(k)[v] == 1.0;
      if draw(n - 1)[v] == 1.0 {
        assert all == before + {n - 1};
      } else {
        assert all == before;
      }
    }
  }

  /** `pred_s.mean(axis=0)`. */
  function MeanMap(draw: nat -> seq<real>, n: nat, voxels: nat): (m: seq<real>)
    requires n >= 1 && Sized(draw, n, voxels)
    ensures |m| == voxels
  {
    seq(voxels, v requires 0 <= v < voxels => SampleSum(draw, n, v) / (n as real))
  }

  /**
   * The ensemble loop: fill `pred_s` one sample at a time, then average each
   * voxel over the samples.
   */
  method PredictMean(numMc: nat, voxels: nat, draw: nat -> seq<real>) returns (mean: seq<real>)
    requires numMc >= 1 && Sized(draw, numMc, voxels)
    ensures mean == MeanMap(draw, numMc, voxels)
  {
    var predS := new real[numMc, voxels];
    var k := 0;
    while k < numMc
      invariant 0 <= k <= numMc
      invariant forall j, v :: 0 <= j < k && 0 <= v < voxels ==> predS[j, v] == draw(j)[v]
    {
      var sample := draw(k);
      var v := 0;
      while v < voxels
        invariant 0 <= v <= voxels
        invariant forall j, u :: 0 <= j < k && 0 <= u < voxels ==> predS[j, u] == draw(j)[u]
        invariant forall u :: 0 <= u < v ==> predS[k, u] == sample[u]
      {
        predS[k, v] := sample[v];
        v := v + 1;
      }
      k := k + 1;
    }
    mean := [];
    var v := 0;
    while v < voxels
      invariant 0 <= v <= voxels
      invariant |mean| == v
      invariant forall u :: 0 <= u < v ==> mean[u] == SampleSum(draw, numMc, u) / (numMc as real)
    {
      var s := 0.0;
      var j := 0;
      while j < numMc
        invariant 0 <= j <= numMc
        invariant s == SampleSum(draw, j, v)
      {
        s := s + predS[j, v];
        j := j + 1;
      }
      mean := mean + [s / (numMc as real)];
      v := v + 1;
    }
  }

  /** When every sample is a mask, the sum at a voxel is its vote count. */
  lemma {:induction false} SumOfMasksIsVotes(draw: nat -> seq<real>, n: nat, v: nat)
    requires forall k :: 0 <= k < n ==> v < |draw(k)| && (draw(k)[v] == 0.0 || draw(k)[v] == 1.0)
    ensures SampleSum(draw, n, v) == Votes(draw, n, v) as real
  {
    if n > 0 {
      SumOfMasksIsVotes(draw, n - 1, v);
    }
  }

  /** The mean of label maps is a probability: it lies in [0, 1]. */
  lemma {:induction false} MeanOfMasksIsProbability(draw: nat -> seq<real>, n: nat, voxels: nat)
    requires n >= 1 && Sized(draw, n, voxels)
    requires forall k :: 0 <= k < n ==> IsMask(draw(k))
    ensures forall v :: 0 <= v < voxels ==> 0.0 <= MeanMap(draw, n, voxels)[v] <= 1.0
  {
    forall v | 0 <= v < voxels ensures 0.0 <= MeanMap(draw, n, voxels)[v] <= 1.0 {
      SumOfMasksIsVotes(draw, n, v);
    }
  }

  /** Dividing by a positive count preserves comparisons. */
  lemma DivCompare(s: real, n: real, t: real)
    requires n > 0.0
    ensures s / n > t <==> s > t * n
  {
    var q := s / n;
    assert q * n == s;
    if q > t {
      assert (q - t) * n > 0.0;
    } else {
      assert (t - q) * n >= 0.0;
    }
  }

  /**
   * Thresholding the mean of label maps at `thresh` keeps a voxel exactly
   * when more than `thresh * num_mc` samples mark it; at the default 0.5 that
   * is a strict majority vote.
   */
  lemma {:induction false} ThresholdIsVote(draw: nat -> seq<real>, n: nat, voxels: nat, thresh: real)
    requires n >= 1 && Sized(draw, n, voxels)
    requires forall k :: 0 <= k < n ==> IsMask(draw(k))
    ensures forall v :: 0 <= v < voxels ==>
      (Threshold(MeanMap(draw, n, voxels), thresh)[v] == 1.0 <==> Votes(draw, n, v) as real > thresh * n as real)
    ensures thresh == 0.5 ==> forall v :: 0 <= v < voxels ==>
      (Threshold(MeanMap(draw, n, voxels), thresh)[v] == 1.0 <==> 2 * Votes(draw, n, v) > n)
  {
    var mean := MeanMap(draw, n, voxels);
    forall v | 0 <= v < voxels
      ensures Threshold(mean, thresh)[v] == 1.0 <==> Votes(draw, n, v) as real > thresh * n as real
    {
      SumOfMasksIsVotes(draw, n, v);
      DivCompare(Votes(draw, n, v) as real, n as real, thresh);
    }
  }

  // ------------------------------------------------- order of the samples

  /** The indices 0 .. n-1 in order. */
  function Range(n: nat): (r: seq<nat>)
    ensures |r| == n && forall i :: 0 <= i < n ==> r[i] == i
  {
    seq(n, i requires 0 <= i => i as nat)
  }

  /** `perm` lists each of 0 .. n-1 exactly once. */
  predicate IsPermutation(perm: seq<nat>, n: nat) {
    |perm| == n && multiset(perm) == multiset(Range(n))
  }

  /** The samples drawn in the order `perm` gives. */
  function Permuted(draw: nat -> seq<real>, perm: seq<nat>): nat -> seq<real> {
    (k: nat) => if k < |perm| then draw(perm[k]) else draw(k)
  }

  /** Every sample listed in `ks` has a voxel `v`. */
  predicate Covers(draw: nat -> seq<real>, ks: seq<nat>, v: nat) {
    forall i :: 0 <= i < |ks| ==> v < |draw(ks[i])|
  }

  /** The sum at voxel `v` over the samples listed in `ks`, in that order. */
  function SumAt(draw: nat -> seq<real>, ks: seq<nat>, v: nat): real
    requires Covers(draw, ks, v)
  {
    if ks == [] then 0.0 else SumAt(draw, ks[..|ks| - 1], v) + draw(ks[|ks| - 1])[v]
  }

  lemma {:induction false} SumAtConcat(draw: nat -> seq<real>, a: seq<nat>, b: seq<nat>, v: nat)
    requires Covers(draw, a, v) && Covers(draw, b, v)
    ensures Covers(draw, a + b, v)
    ensures SumAt(draw, a + b, v) == SumAt(draw, a, v) + SumAt(draw, b, v)
  {
    forall i | 0 <= i < |a + b| ensures v < |draw((a + b)[i])| {
      if i < |a| { assert (a + b)[i] == a[i]; } else { assert (a + b)[i] == b[i - |a|]; }
    }
    if b == [] {
      assert a + b == a;
    } else {
      var b' := b[..|b| - 1];
      assert Covers(draw, b', v) by {
        forall i | 0 <= i < |b'| ensures v < |draw(b'[i])| { assert b'[i] == b[i]; }
      }
      SumAtConcat(draw, a, b', v);
      assert (a + b)[..|a + b| - 1] == a + b';
      assert (a + b)[|a + b| - 1] == b[|b| - 1];
    }
  }

  /** Taking one sample out of the list takes its value out of the sum. */
  lemma {:induction false} SumAtRemove(draw: nat -> seq<real>, ys: seq<nat>, j: nat, v: nat)
    requires j < |ys| && Covers(draw, ys, v)
    ensures Covers(draw, ys[..j] + ys[j + 1..], v)
    ensures SumAt(draw, ys, v) == SumAt(draw, ys[..j] + ys[j + 1..], v) + draw(ys[j])[v]
  {
    var a, b, x := ys[..j], ys[j + 1..], [ys[j]];
    assert ys == (a + x) + b;
    assert Covers(draw, a, v) && Covers(draw, b, v) && Covers(draw, x, v) by {
      forall i | 0 <= i < |a| ensures v < |draw(a[i])| { assert a[i] == ys[i]; }
      forall i | 0 <= i < |b| ensures v < |draw(b[i])| { assert b[i] == ys[j + 1 + i]; }
    }
    SumAtConcat(draw, a, x, v);
    SumAtConcat(draw, a + x, b, v);
    SumAtConcat(draw, a, b, v);
    assert x[..0] == [];
  }

  /** Taking the last of `xs` and a matching entry of `ys` out of two permutations leaves two permutations. */
  lemma MultisetRemoveMatching(xs: seq<nat>, ys: seq<nat>, j: nat)
    requires xs != [] && j < |ys| && ys[j] == xs[|xs| - 1]
    requires multiset(xs) == multiset(ys)
    ensures multiset(xs[..|xs| - 1]) == multiset(ys[..j] + ys[j + 1..])
  {
    var x, xs', ys' := ys[j], xs[..|xs| - 1], ys[..j] + ys[j + 1..];
    assert xs == xs' + [x];
    assert ys == ys[..j] + [x] + ys[j + 1..];
    forall e ensures multiset(xs')[e] == multiset(ys')[e] {
      assert (multiset(xs') + multiset{x})[e] == (multiset(ys') + multiset{x})[e];
    }
  }

  /** Every sample listed in a reordering of a covering list has the voxel too. */
  lemma CoversReorder(draw: nat -> seq<real>, xs: seq<nat>, ys: seq<nat>, v: nat)
    requires Covers(draw, xs, v) && multiset(xs) == multiset(ys)
    ensures Covers(draw, ys, v)
  {
    forall i | 0 <= i < |ys| ensures v < |draw(ys[i])| {
      assert ys[i] in multiset(xs);
    }
  }

  /** The sum does not depend on the order of the samples. */
  lemma {:induction false} SumAtReorder(draw: nat -> seq<real>, xs: seq<nat>, ys: seq<nat>, v: nat)
    requires Covers(draw, xs, v)
    requires multiset(xs) == multiset(ys)
    ensures Covers(draw, ys, v)
    ensures SumAt(draw, xs, v) == SumAt(draw, ys, v)
  {
    CoversReorder(draw, xs, ys, v);
    if xs != [] {
      var x := xs[|xs| - 1];
      var xs' := xs[..|xs| - 1];
      assert x in multiset(ys) by { assert x in multiset(xs); }
      var j :| 0 <= j < |ys| && ys[j] == x;
      MultisetRemoveMatching(xs, ys, j);
      assert Covers(draw, xs', v) by {
        forall i | 0 <= i < |xs'| ensures v < |draw(xs'[i])| { assert xs'[i] == xs[i]; }
      }
      SumAtRemove(draw, ys, j, v);
      SumAtReorder(draw, xs', ys[..j] + ys[j + 1..], v);
    }
  }

  /** Summing the first `n` permuted samples is summing the samples in the order `perm`. */
  lemma {:induction false} SampleSumPermuted(draw: nat -> seq<real>, perm: seq<nat>, n: nat, v: nat)
    requires n <= |perm| && Covers(draw, perm, v)
    ensures forall k :: 0 <= k < n ==> v < |Permuted(draw, perm)(k)|
    ensures SampleSum(Permuted(draw, perm), n, v) == SumAt(draw, perm[..n], v)
  {
    if n > 0 {
      SampleSumPermuted(draw, perm, n - 1, v);
      assert perm[..n][..n - 1] == perm[..n - 1];
    }
  }

  /** Summing the first `n` samples is summing them in the order 0 .. n-1. */
  lemma {:induction false} SampleSumInOrder(draw: nat -> seq<real>, n: nat, v: nat)
    requires forall k :: 0 <= k < n ==> v < |draw(k)|
    ensures Covers(draw, Range(n), v)
    ensures SampleSum(draw, n, v) == SumAt(draw, Range(n), v)
  {
    if n > 0 {
      SampleSumInOrder(draw, n - 1, v);
      assert Range(n)[..n - 1] == Range(n - 1);
    }
  }

  /**
   * The dropout samples are exchangeable: averaging them in any order gives
   * the same mean map.
   */
  lemma MeanMapPermutation(draw: nat -> seq<real>, n: nat, voxels: nat, perm: seq<nat>)
    requires n >= 1 && Sized(draw, n, voxels)
    requires IsPermutation(perm, n)
    ensures Sized(Permuted(draw, perm), n, voxels)
    ensures MeanMap(Permuted(draw, perm), n, voxels) == MeanMap(draw, n, voxels)
  {
    forall i | 0 <= i < n ensures perm[i] < n {
      assert perm[i] in multiset(Range(n));
    }
    forall v | 0 <= v < voxels
      ensures SampleSum(Permuted(draw, perm), n, v) == SampleSum(draw, n, v)
    {
      SampleSumPermuted(draw, perm, n, v);
      assert perm[..n] == perm;
      SampleSumInOrder(draw, n, v);
      SumAtReorder(draw, perm, Range(n), v);
    }
  }

  /** When all samples agree (dropout changed nothing), the mean is that sample. */
  lemma {:induction false} AgreeingSamplesMean(draw: nat -> seq<real>, n: nat, voxels: nat, sample: seq<real>)
    requires n >= 1 && |sample| == voxels
    requires forall k :: 0 <= k < n ==> draw(k) == sample
    ensures MeanMap(draw, n, voxels) == sample
  {
    forall v | 0 <= v < voxels ensures MeanMap(draw, n, voxels)[v] == sample[v] {
      SumOfAgreeing(draw, n, v, sample[v]);
    }
  }

  lemma {:induction false} SumOfAgreeing(draw: nat -> seq<real>, n: nat, v: nat, x: real)
    requires forall k :: 0 <= k < n ==> v < |draw(k)| && draw(k)[v] == x
    ensures SampleSum(draw, n, v) == n as real * x
  {
    if n > 0 {
      SumOfAgreeing(draw, n - 1, v, x);
    }
  }
}
