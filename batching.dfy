/**
 * The partition behind `for i in range(0, len(data), batch_size): batch = data[i:i+batch_size]`:
 * one slice per start `i = k*size` below the length, each cut at the end of the data.
 */
module Batching {
  import opened Seqs

  /** Number of batches: `ceil(n / size)`. */
  function BatchCount(n: nat, size: nat): nat
    requires size > 0
  {
    (n + size - 1) / size
  }

  lemma MulStep(k: nat, size: nat)
    requires k > 0
    ensures (k - 1) * size + size == k * size
  {
  }

  lemma MulMono(a: nat, b: nat, size: nat)
    requires a <= b
    ensures a * size <= b * size
  {
  }

  /** `range(0, n, size)` has an element `k*size` exactly when `k < ceil(n / size)`. */
  lemma BatchCountBound(n: nat, size: nat, k: nat)
    requires size > 0
    ensures k < BatchCount(n, size) <==> k * size < n
  {
    var x := n + size - 1;
    var q, r := x / size, x % size;
    assert x == q * size + r && 0 <= r < size;
    if k < q {
      MulMono(k + 1, q, size);
      MulStep(k + 1, size);
    } else {
      MulMono(q, k, size);
    }
  }

  /** The slices the loop takes, in order: batch `k` is `data[k*size : k*size + size]`. */
  function Batches<T>(data: seq<T>, size: nat): seq<seq<T>>
    requires size > 0
  {
    seq(BatchCount(|data|, size), k requires 0 <= k < BatchCount(|data|, size) =>
      BatchCountBound(|data|, size, k);
      data[k * size..Min(k * size + size, |data|)])
  }

  /** Batch `k` starts inside the data, at `k*size`, and runs for `size` elements or to the end. */
  lemma BatchAt<T>(data: seq<T>, size: nat, k: nat)
    requires size > 0
    requires k < |Batches(data, size)|
    ensures k * size < |data|
    ensures Batches(data, size)[k] == data[k * size..Min(k * size + size, |data|)]
  {
    BatchCountBound(|data|, size, k);
  }

  /** Element `m` of batch `k` is element `k*size + m` of the data. */
  lemma BatchElement<T>(data: seq<T>, size: nat, k: nat, m: nat)
    requires size > 0
    requires k < |Batches(data, size)| && m < |Batches(data, size)[k]|
    ensures k * size + m < |data|
    ensures Batches(data, size)[k][m] == data[k * size + m]
  {
    BatchAt(data, size, k);
  }

  /**
   * There are `ceil(|data| / size)` batches of 1 to `size` elements, every one but the last
   * holds exactly `size`, and no data means no batches.
   */
  lemma BatchesShape<T>(data: seq<T>, size: nat)
    requires size > 0
    ensures |Batches(data, size)| == BatchCount(|data|, size)
    ensures forall k :: 0 <= k < |Batches(data, size)| ==> 1 <= |Batches(data, size)[k]| <= size
    ensures forall k :: 0 <= k < |Batches(data, size)| - 1 ==> |Batches(data, size)[k]| == size
    ensures Batches(data, size) == [] <==> data == []
  {
    var bs := Batches(data, size);
    forall k | 0 <= k < |bs|
      ensures 1 <= |bs[k]| <= size
      ensures k < |bs| - 1 ==> |bs[k]| == size
    {
      BatchCountBound(|data|, size, k);
      BatchCountBound(|data|, size, k + 1);
      MulStep(k + 1, size);
    }
    BatchCountBound(|data|, size, 0);
  }

  /** Two adjacent slices from the front make one. */
  lemma TakeThenSlice<T>(s: seq<T>, a: nat, b: nat)
    requires a <= b <= |s|
    ensures s[..a] + s[a..b] == s[..b]
  {
  }

  /** The first `k` batches, the `k`-th starting at `start`, hold the first `min(start, |data|)` elements. */
  lemma {:induction false} BatchesPrefixAt<T>(data: seq<T>, size: nat, k: nat, start: nat)
    requires size > 0 && start == k * size
    requires k <= |Batches(data, size)|
    ensures Flatten(Batches(data, size)[..k]) == data[..Min(start, |data|)]
    decreases k
  {
    var bs := Batches(data, size);
    if k == 0 {
      assert bs[..k] == [];
    } else {
      MulStep(k, size);
      MulMono(0, k - 1, size);
      BatchesPrefixAt(data, size, k - 1, start - size);
      BatchAt(data, size, k - 1);
      assert bs[..k] == bs[..k - 1] + [bs[k - 1]];
      FlattenAppend(bs[..k - 1], [bs[k - 1]]);
      FlattenCons(bs[k - 1], []);
      assert bs[k - 1] + Flatten<T>([]) == bs[k - 1];
      TakeThenSlice(data, start - size, Min(start, |data|));
    }
  }

  /**
   * The first `k` batches hold the first `min(k*size, |data|)` elements: the records handled
   * after `k` rounds of the loop are a prefix of the data.
   */
  lemma BatchesPrefix<T>(data: seq<T>, size: nat, k: nat)
    requires size > 0
    requires k <= |Batches(data, size)|
    ensures Flatten(Batches(data, size)[..k]) == data[..Min(k * size, |data|)]
  {
    BatchesPrefixAt(data, size, k, k * size);
  }

  /** Putting the batches back together gives the data, in order. */
  lemma FlattenBatches<T>(data: seq<T>, size: nat)
    requires size > 0
    ensures Flatten(Batches(data, size)) == data
  {
    var bs := Batches(data, size);
    BatchesPrefix(data, size, |bs|);
    BatchCountBound(|data|, size, |bs|);
    assert bs[..|bs|] == bs;
  }

  /** The loop's `i = k*size` is below `len(data)` exactly when there is a batch `k`. */
  lemma BatchIndexInRange<T>(data: seq<T>, size: nat, k: nat)
    requires size > 0
    ensures k < |Batches(data, size)| <==> k * size < |data|
  {
    BatchCountBound(|data|, size, k);
  }
}
