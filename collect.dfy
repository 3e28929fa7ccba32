/** The batched emission stage: blocks are buffered and handed to a
    downstream callback in batches of `groupby`, with the remainder flushed
    on `finish`. One generic class stands for both the full-block and the
    minimal-block collectors, which differ only in block type and name. */
module Collect {

  /** Concatenation of a list of batches. */
  function Flatten<B>(bs: seq<seq<B>>): seq<B> {
    if bs == [] then [] else bs[0] + Flatten(bs[1..])
  }

  lemma {:induction false} FlattenAppend<B>(bs: seq<seq<B>>, b: seq<B>)
    ensures Flatten(bs + [b]) == Flatten(bs) + b
    decreases |bs|
  {
    if bs != [] {
      assert (bs + [b])[1..] == bs[1..] + [b];
      FlattenAppend(bs[1..], b);
    } else {
      assert Flatten([b]) == b + Flatten([]);
    }
  }

  /** The batches a stream is cut into: consecutive runs of `k` blocks, the
      last run possibly shorter but never empty. */
  function Chunks<B>(s: seq<B>, k: nat): seq<seq<B>>
    requires k >= 1
    decreases |s|
  {
    if s == [] then []
    else if |s| <= k then [s]
    else [s[..k]] + Chunks(s[k..], k)
  }

  /** Cutting loses and reorders nothing. */
  lemma {:induction false} ChunksFlatten<B>(s: seq<B>, k: nat)
    requires k >= 1
    ensures Flatten(Chunks(s, k)) == s
    decreases |s|
  {
    if s != [] {
      if |s| <= k {
        assert Flatten([s]) == s + Flatten([]);
      } else {
        ChunksFlatten(s[k..], k);
        assert ([s[..k]] + Chunks(s[k..], k))[1..] == Chunks(s[k..], k);
        assert s[..k] + s[k..] == s;
      }
    }
  }

  /** There are ceil(|s| / k) batches, none empty, all but the last of size k. */
  lemma {:induction false} ChunksShape<B>(s: seq<B>, k: nat)
    requires k >= 1
    ensures |Chunks(s, k)| == (|s| + k - 1) / k
    ensures forall i :: 0 <= i < |Chunks(s, k)| ==> 0 < |Chunks(s, k)[i]| <= k
    ensures forall i :: 0 <= i < |Chunks(s, k)| - 1 ==> |Chunks(s, k)[i]| == k
    decreases |s|
  {
    if s == [] {
      DivSmall(k - 1, k);
    } else if |s| <= k {
      DivAddK(|s| - 1, k);
      DivSmall(|s| - 1, k);
    } else {
      ChunksShape(s[k..], k);
      DivAddK(|s[k..]| + k - 1, k);
      var c := Chunks(s, k);
      assert forall i :: 1 <= i < |c| ==> c[i] == Chunks(s[k..], k)[i - 1];
    }
  }

  /** Cutting the concatenation of full batches, followed by a remainder
      shorter than a batch, gives back those batches and the remainder. */
  lemma {:induction false} ChunksOfBatches<B>(bs: seq<seq<B>>, q: seq<B>, k: nat)
    requires k >= 1 && |q| <= k
    requires forall i :: 0 <= i < |bs| ==> |bs[i]| == k
    ensures Chunks(Flatten(bs) + q, k) == bs + (if q == [] then [] else [q])
    decreases |bs|
  {
    if bs == [] {
      assert Flatten(bs) + q == q;
    } else {
      var rest := Flatten(bs[1..]) + q;
      ChunksOfBatches(bs[1..], q, k);
      assert Flatten(bs) + q == bs[0] + rest;
      assert (bs[0] + rest)[..k] == bs[0];
      assert (bs[0] + rest)[k..] == rest;
      if rest == [] {
        assert bs[1..] == [];
        assert bs == [bs[0]];
        assert bs[0] + rest == bs[0];
      }
    }
  }

  // Facts about Euclidean division used to count the batches.

  lemma MulAtLeast(d: int, k: int)
    requires d >= 1 && k >= 1
    ensures d * k >= k
  {
    assert d * k == (d - 1) * k + k;
    assert (d - 1) * k >= 0;
  }

  lemma DivUnique(a: int, k: int, q: int, r: int)
    requires k >= 1 && 0 <= r < k && a == q * k + r
    ensures a / k == q
  {
    var q', r' := a / k, a % k;
    assert a == q' * k + r' && 0 <= r' < k;
    assert (q - q') * k == r' - r by {
      assert q * k - q' * k == (q - q') * k;
    }
    assert (q' - q) * k == -((q - q') * k);
    if q - q' >= 1 {
      MulAtLeast(q - q', k);
      assert false;
    } else if q' - q >= 1 {
      MulAtLeast(q' - q, k);
      assert false;
    }
  }

  lemma DivAddK(a: int, k: int)
    requires k >= 1 && a >= 0
    ensures (a + k) / k == a / k + 1
  {
    var q, r := a / k, a % k;
    assert a == q * k + r;
    assert a + k == (q + 1) * k + r;
    DivUnique(a + k, k, q + 1, r);
  }

  lemma DivSmall(a: int, k: int)
    requires k >= 1 && 0 <= a < k
    ensures a / k == 0
  {
    DivUnique(a, k, 0, a);
  }

  /** One collector. `emitted` and `submitted` are ghost logs: the batches
      handed to the callback in order, and every block ever passed to `Call`. */
  class CollectBlocks<B> {
    const name: string
    const groupby: nat
    var pending: seq<B>
    var count: nat
    ghost var emitted: seq<seq<B>>
    ghost var submitted: seq<B>

    /** The buffer size at which `Call` flushes: a `groupby` of 0 flushes on
        every call, exactly like 1. */
    function Threshold(): nat {
      if groupby == 0 then 1 else groupby
    }

    /** Emitted batches followed by the buffer give back every submitted
        block in order; `count` is the number of blocks emitted; no batch is
        empty. */
    ghost predicate Logged()
      reads this
    {
      && Flatten(emitted) + pending == submitted
      && count == |Flatten(emitted)|
      && (forall i :: 0 <= i < |emitted| ==> |emitted[i]| > 0)
    }

    /** Between calls the buffer also stays below the threshold. */
    ghost predicate Valid()
      reads this
    {
      Logged() && |pending| < Threshold()
    }

    /** No partial batch has been flushed yet: every batch emitted so far
        holds exactly the threshold number of blocks. */
    ghost predicate Regular()
      reads this
    {
      forall i :: 0 <= i < |emitted| ==> |emitted[i]| == Threshold()
    }

    constructor (name: string, groupby: nat)
      ensures Valid() && Regular()
      ensures this.name == name && this.groupby == groupby
      ensures pending == [] && count == 0 && emitted == [] && submitted == []
    {
      this.name := name;
      this.groupby := groupby;
      pending := [];
      count := 0;
      emitted := [];
      submitted := [];
    }

    /** Hands the whole buffer to the callback as one batch, unless it is empty. */
    method ClearPending()
      requires Logged()
      modifies this
      ensures Logged() && pending == [] && submitted == old(submitted)
      ensures emitted == old(emitted) + (if old(pending) == [] then [] else [old(pending)])
      ensures count == old(count) + |old(pending)| == |submitted|
    {
      if pending == [] {
        return;
      }
      FlattenAppend(emitted, pending);
      emitted := emitted + [pending];
      count := count + |pending|;
      pending := [];
    }

    /** Buffers one block and flushes once the buffer reaches `groupby`. */
    method Call(bl: B)
      requires Valid()
      modifies this
      ensures Valid()
      ensures submitted == old(submitted) + [bl]
      ensures |old(pending)| + 1 >= groupby ==>
                emitted == old(emitted) + [old(pending) + [bl]] && pending == []
                && |old(pending) + [bl]| == Threshold()
      ensures |old(pending)| + 1 < groupby ==>
                emitted == old(emitted) && pending == old(pending) + [bl] && count == old(count)
      ensures old(Regular()) ==> Regular()
    {
      pending := pending + [bl];
      submitted := submitted + [bl];
      if |pending| >= groupby {
        ClearPending();
      }
    }

    /** Flushes the remainder and reports the total emitted under the
        collector's name. */
    method Finish() returns (report: (string, nat))
      requires Valid()
      modifies this
      ensures Valid() && pending == [] && submitted == old(submitted)
      ensures emitted == old(emitted) + (if old(pending) == [] then [] else [old(pending)])
      ensures report == (name, |submitted|) && count == |submitted|
      ensures old(Regular()) ==> emitted == Chunks(submitted, Threshold())
    {
      if Regular() {
        ChunksOfBatches(emitted, pending, Threshold());
      }
      ClearPending();
      report := (name, count);
    }
  }

  /** Finishing twice: the second call emits nothing and reports the same
      total under the same name. */
  method FinishTwice<B>(co: CollectBlocks<B>) returns (first: (string, nat), second: (string, nat))
    requires co.Valid()
    modifies co
    ensures second == first == (co.name, |co.submitted|)
    ensures co.emitted == old(co.emitted) + (if old(co.pending) == [] then [] else [old(co.pending)])
  {
    first := co.Finish();
    ghost var after := co.emitted;
    second := co.Finish();
    assert co.emitted == after;
  }

  /** The direct (single-worker) read: every block goes through `Call` in
      order, then `Finish`; the result is the sum of the reported counts,
      and the callback has seen exactly the cutting of the input. */
  method ReadAllDirect<B>(name: string, blocks: seq<B>, groupby: nat)
    returns (total: nat, ghost batches: seq<seq<B>>)
    ensures total == |blocks|
    ensures batches == Chunks(blocks, if groupby == 0 then 1 else groupby)
  {
    var co := new CollectBlocks<B>(name, groupby);
    var i := 0;
    while i < |blocks|
      invariant 0 <= i <= |blocks|
      invariant co.Valid() && co.Regular()
      invariant co.submitted == blocks[..i]
      invariant co.groupby == groupby
    {
      co.Call(blocks[i]);
      assert blocks[..i + 1] == blocks[..i] + [blocks[i]];
      i := i + 1;
    }
    assert blocks[..i] == blocks;
    var report := co.Finish();
    total := report.1;
    batches := co.emitted;
  }

  /** What a run shows: ceil(L / groupby) batches (one per block when
      groupby is 0), none empty, whose concatenation is the input. */
  lemma BatchLaw<B>(blocks: seq<B>, groupby: nat)
    ensures var k := if groupby == 0 then 1 else groupby;
      && |Chunks(blocks, k)| == (|blocks| + k - 1) / k
      && Flatten(Chunks(blocks, k)) == blocks
      && forall i :: 0 <= i < |Chunks(blocks, k)| ==> |Chunks(blocks, k)[i]| > 0
  {
    var k := if groupby == 0 then 1 else groupby;
    ChunksShape(blocks, k);
    ChunksFlatten(blocks, k);
  }
}
