/**
 * The batching generator of python-generators-0x00/1-batch_processing.py:
 * `batch_process(data, batch_size)` yields the consecutive slices
 * `data[i:i + batch_size]` for `i` in `range(0, len(data), batch_size)`.
 * The generator is modelled by the sequence of everything it yields.
 */
module BatchProcessing {
  import opened Wrappers

  /** `range()` refuses a zero step. */
  datatype RangeError = ValueError

  function Min(a: int, b: int): int
  {
    if a <= b then a else b
  }

  /** The batches for a positive size: the first `batchSize` items (or all that remain), then the rest. */
  function Batches<T>(data: seq<T>, batchSize: nat): seq<seq<T>>
    requires batchSize > 0
    decreases |data|
  {
    if data == [] then []
    else
      var cut := Min(batchSize, |data|);
      [data[..cut]] + Batches(data[cut..], batchSize)
  }

  /**
   * `batch_process`: a zero size fails as `range` does, a negative size yields
   * nothing (the range is empty), and a positive size yields `Batches`.
   */
  function BatchProcess<T>(data: seq<T>, batchSize: int): (r: Result<seq<seq<T>>, RangeError>)
    ensures r.Err? <==> batchSize == 0
    ensures batchSize < 0 ==> r == Ok([])
    ensures batchSize > 0 ==> r == Ok(Batches(data, batchSize))
  {
    if batchSize == 0 then Err(ValueError)
    else if batchSize < 0 then Ok([])
    else Ok(Batches(data, batchSize))
  }

  /** The concatenation of a sequence of batches. */
  function Flatten<T>(batches: seq<seq<T>>): seq<T>
  {
    if batches == [] then [] else batches[0] + Flatten(batches[1..])
  }

  /** Concatenating the batches in order gives back the input. */
  lemma {:induction false} BatchesFlatten<T>(data: seq<T>, batchSize: nat)
    requires batchSize > 0
    ensures Flatten(Batches(data, batchSize)) == data
    decreases |data|
  {
    if data != [] {
      var cut := Min(batchSize, |data|);
      BatchesFlatten(data[cut..], batchSize);
      assert Batches(data, batchSize)[1..] == Batches(data[cut..], batchSize);
      assert data == data[..cut] + data[cut..];
    }
  }

  /** Every batch is non-empty and no longer than the size; every batch but the last is full. */
  lemma {:induction false} BatchSizes<T>(data: seq<T>, batchSize: nat)
    requires batchSize > 0
    ensures forall k | 0 <= k < |Batches(data, batchSize)| :: 0 < |Batches(data, batchSize)[k]| <= batchSize
    ensures forall k | 0 <= k < |Batches(data, batchSize)| - 1 :: |Batches(data, batchSize)[k]| == batchSize
    decreases |data|
  {
    if data != [] {
      var cut := Min(batchSize, |data|);
      BatchSizes(data[cut..], batchSize);
      var rest := Batches(data[cut..], batchSize);
      var b := Batches(data, batchSize);
      assert b == [data[..cut]] + rest;
      forall k | 0 <= k < |b| ensures 0 < |b[k]| <= batchSize && (k < |b| - 1 ==> |b[k]| == batchSize) {
        if k == 0 {
          assert |b[0]| == cut;
          if |b| > 1 {
            assert rest != [];
            assert data[cut..] != [];
          }
        } else {
          assert b[k] == rest[k - 1];
          assert 0 < |rest[k - 1]| <= batchSize;
        }
      }
    }
  }

  /**
   * There are ceil(len(data) / batch_size) batches, stated without division:
   * `n` batches hold more than `n - 1` full ones and at most `n` full ones,
   * and empty input yields none.
   */
  lemma {:induction false} BatchCount<T>(data: seq<T>, batchSize: nat)
    requires batchSize > 0
    ensures var n := |Batches(data, batchSize)|;
      && (n == 0 <==> data == [])
      && (n - 1) * batchSize < |data| <= n * batchSize
    decreases |data|
  {
    if data != [] {
      var cut := Min(batchSize, |data|);
      BatchCount(data[cut..], batchSize);
      var m := |Batches(data[cut..], batchSize)|;
      assert |Batches(data, batchSize)| == m + 1;
      assert (m + 1) * batchSize == m * batchSize + batchSize;
      if m > 0 {
        assert cut == batchSize;
        assert m * batchSize == (m - 1) * batchSize + batchSize;
      }
    }
  }

  /** Batch `k` is the slice `data[k * batch_size : (k + 1) * batch_size]`, cut at the end of the data. */
  lemma {:induction false} BatchAt<T>(data: seq<T>, batchSize: nat, k: nat)
    requires batchSize > 0
    requires k < |Batches(data, batchSize)|
    ensures k * batchSize < |data|
    ensures Batches(data, batchSize)[k] == data[k * batchSize .. Min((k + 1) * batchSize, |data|)]
    decreases |data|
  {
    var cut := Min(batchSize, |data|);
    if k > 0 {
      var rest := data[cut..];
      assert Batches(data, batchSize)[k] == Batches(rest, batchSize)[k - 1];
      BatchAt(rest, batchSize, k - 1);
      assert cut == batchSize;
      assert (k - 1) * batchSize + batchSize == k * batchSize;
      assert k * batchSize + batchSize == (k + 1) * batchSize;
      assert rest[(k - 1) * batchSize .. Min(k * batchSize, |rest|)]
          == data[k * batchSize .. Min((k + 1) * batchSize, |data|)];
    }
  }
}
