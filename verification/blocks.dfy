/**
 * The block arithmetic of the bridge between Jack and Pure Data.
 *
 * Jack hands the bridge one period of `L` frames per channel; Pd consumes and
 * produces exactly `PdBlockSize` frames per channel per call. This module
 * describes, as pure values, what the period-chunking loop of
 * `PdJackProcessor.process` does: which samples Pd sees in each call
 * (`Gather`), the trace of all calls (`History`) and what ends up in the
 * output channels (`Rendered`).
 */
module Blocks {

  /** Pd's fixed block size: frames per channel consumed and produced by one processRaw call. */
  const PdBlockSize: nat := 64

  /**
   * Position `j` inside the `q`-th block-sized slice. It is both the
   * channel-major layout of Pd's flat buffers (slice `q` = channel `q`) and
   * the frame index inside a period (slice `q` = sub-block `q`).
   */
  function At(q: nat, j: nat): (r: nat)
  {
    PdBlockSize * q + j
  }

  lemma {:induction false} AtMonotone(q: nat, r: nat)
    requires q <= r
    ensures At(q, 0) <= At(r, 0)
    ensures q < r ==> At(q, PdBlockSize) <= At(r, 0)
    decreases r - q
  {
    if q < r {
      AtMonotone(q + 1, r);
    }
  }

  lemma AtBelow(q: nat, j: nat, k: nat)
    requires q < k && j < PdBlockSize
    ensures At(q, j) < At(q, PdBlockSize) <= At(k, 0)
  {
    AtMonotone(q, k);
  }

  /**
   * Every index below `At(n, 0)` is `At(q, j)` for exactly one block `q < n`
   * and offset `j` inside the block.
   */
  lemma AtSplit(m: nat, n: nat) returns (q: nat, j: nat)
    requires m < At(n, 0)
    ensures q < n && j < PdBlockSize && At(q, j) == m
    ensures forall q2: nat, j2: nat :: j2 < PdBlockSize && At(q2, j2) == m ==> q2 == q && j2 == j
  {
    q, j := m / PdBlockSize, m % PdBlockSize;
  }

  /** Slice `i` of a channel-major buffer of `n` channels: channel `i`'s block. */
  function Slot<T>(flat: seq<T>, n: nat, i: nat): (r: seq<T>)
    requires |flat| == At(n, 0) && i < n
    ensures |r| == PdBlockSize
  {
    AtBelow(i, 0, n);
    flat[At(i, 0)..At(i, PdBlockSize)]
  }

  /** The number of Pd blocks in a period of `frames` frames (the iterations of the chunking loop). */
  function SubBlocks(frames: nat): (r: nat)
  {
    frames / PdBlockSize
  }

  /** A period that is a whole number of blocks is exactly `SubBlocks` of them. */
  lemma WholeBlocks(frames: nat)
    requires frames % PdBlockSize == 0
    ensures At(SubBlocks(frames), 0) == frames
  {
  }

  /** While a whole-block period has frames left, the next block fits in it entirely. */
  lemma NextBlockFits(k: nat, frames: nat)
    requires frames % PdBlockSize == 0 && At(k, 0) < frames
    ensures k < SubBlocks(frames) && At(k + 1, 0) <= frames
  {
    WholeBlocks(frames);
    if k >= SubBlocks(frames) {
      AtMonotone(SubBlocks(frames), k);
    }
    AtMonotone(k + 1, SubBlocks(frames));
  }

  /**
   * Pd's signal processing, seen from outside: output sample `m` of a call is
   * some function of every input block Pd has consumed so far, the current one
   * last. Pd keeps state between calls (delay lines, filters), which is why the
   * whole history is the argument.
   */
  type Dsp<!T> = (seq<seq<T>>, nat) -> T

  /** The `len` samples a processRaw call writes, given the history including the current block. */
  function Respond<T>(dsp: Dsp<T>, history: seq<seq<T>>, len: nat): (r: seq<T>)
  {
    seq(len, m requires 0 <= m => dsp(history, m))
  }

  /** A period whose channels all hold at least `k` whole sub-blocks. */
  ghost predicate Covers<T>(chans: seq<seq<T>>, k: nat)
  {
    forall i :: 0 <= i < |chans| ==> At(k, 0) <= |chans[i]|
  }

  lemma CoversShorter<T>(chans: seq<seq<T>>, q: nat, k: nat)
    requires q <= k && Covers(chans, k)
    ensures Covers(chans, q)
  {
    AtMonotone(q, k);
  }

  /**
   * The `k`-th sub-block of every channel, laid out channel-major: what the
   * flat input buffer holds when Pd is called for sub-block `k`.
   */
  function Gather<T>(chans: seq<seq<T>>, k: nat): (r: seq<T>)
    requires Covers(chans, k + 1)
    ensures |r| == At(|chans|, 0)
    ensures forall i, j {:trigger r[At(i, j)]} :: 0 <= i < |chans| && 0 <= j < PdBlockSize ==> r[At(i, j)] == chans[i][At(k, j)]
  {
    if chans == [] then []
    else
      var rest := Gather(chans[1..], k);
      var r := chans[0][At(k, 0)..At(k + 1, 0)] + rest;
      assert forall i, j {:trigger r[At(i, j)]} :: 0 <= i < |chans| && 0 <= j < PdBlockSize ==> r[At(i, j)] == chans[i][At(k, j)] by {
        forall i, j | 0 <= i < |chans| && 0 <= j < PdBlockSize
          ensures r[At(i, j)] == chans[i][At(k, j)]
        {
          if i > 0 {
            AtBelow(i - 1, j, |chans| - 1);
            assert r[At(i, j)] == rest[At(i - 1, j)];
          }
        }
      }
      r
  }

  /** `Gather` is the only channel-major block with those slots: a buffer that agrees on every slot equals it. */
  lemma {:induction false} GatherUnique<T>(chans: seq<seq<T>>, k: nat, s: seq<T>)
    requires Covers(chans, k + 1)
    requires |s| == At(|chans|, 0)
    requires forall i, j {:trigger s[At(i, j)]} :: 0 <= i < |chans| && 0 <= j < PdBlockSize ==> s[At(i, j)] == chans[i][At(k, j)]
    ensures s == Gather(chans, k)
  {
    var g := Gather(chans, k);
    forall m | 0 <= m < |s|
      ensures s[m] == g[m]
    {
      var i, j := AtSplit(m, |chans|);
      assert s[At(i, j)] == chans[i][At(k, j)];
    }
  }

  /**
   * The trace of processRaw inputs after `k` sub-blocks of a period, starting
   * from the trace `h0` of earlier periods.
   */
  function History<T>(h0: seq<seq<T>>, chans: seq<seq<T>>, k: nat): (r: seq<seq<T>>)
    requires Covers(chans, k)
    ensures |r| == |h0| + k
    ensures r[..|h0|] == h0
  {
    if k == 0 then h0
    else
      CoversShorter(chans, k - 1, k);
      History(h0, chans, k - 1) + [Gather(chans, k - 1)]
  }

  /** Call `|h0| + q` of the trace received sub-block `q` of the period, channel-major. */
  lemma {:induction false} HistoryAt<T>(h0: seq<seq<T>>, chans: seq<seq<T>>, k: nat, q: nat)
    requires Covers(chans, k) && q < k
    ensures Covers(chans, q + 1)
    ensures History(h0, chans, k)[|h0| + q] == Gather(chans, q)
  {
    CoversShorter(chans, q + 1, k);
    CoversShorter(chans, k - 1, k);
    var prev := History(h0, chans, k - 1);
    assert History(h0, chans, k) == prev + [Gather(chans, k - 1)];
    if q < k - 1 {
      HistoryAt(h0, chans, k - 1, q);
      assert (prev + [Gather(chans, k - 1)])[|h0| + q] == prev[|h0| + q];
    }
  }

  /**
   * The output channels after `k` sub-blocks: channel `i` holds, for each
   * sub-block `q`, slice `i` of what Pd produced in call `q` (see `RenderedAt`).
   */
  function Rendered<T>(dsp: Dsp<T>, h0: seq<seq<T>>, chans: seq<seq<T>>, nOut: nat, k: nat): (r: seq<seq<T>>)
    requires Covers(chans, k)
    ensures |r| == nOut
    ensures forall i :: 0 <= i < nOut ==> |r[i]| == At(k, 0)
  {
    if k == 0 then seq(nOut, _ => [])
    else
      CoversShorter(chans, k - 1, k);
      var prev := Rendered(dsp, h0, chans, nOut, k - 1);
      var block := Respond(dsp, History(h0, chans, k), At(nOut, 0));
      seq(nOut, i requires 0 <= i < nOut => prev[i] + Slot(block, nOut, i))
  }

  /** Sub-block `k` of channel `i` is appended after the first `k` sub-blocks, which are kept. */
  lemma RenderedStep<T>(dsp: Dsp<T>, h0: seq<seq<T>>, chans: seq<seq<T>>, nOut: nat, k: nat, i: nat)
    requires Covers(chans, k + 1) && i < nOut
    ensures Covers(chans, k)
    ensures Rendered(dsp, h0, chans, nOut, k + 1)[i]
         == Rendered(dsp, h0, chans, nOut, k)[i] + Slot(Respond(dsp, History(h0, chans, k + 1), At(nOut, 0)), nOut, i)
  {
    CoversShorter(chans, k, k + 1);
  }

  /** A further sub-block leaves the frames already written unchanged. */
  lemma RenderedKeeps<T>(dsp: Dsp<T>, h0: seq<seq<T>>, chans: seq<seq<T>>, nOut: nat, k: nat, i: nat, m: nat)
    requires Covers(chans, k + 1)
    requires i < nOut && m < At(k, 0)
    ensures Covers(chans, k)
    ensures Rendered(dsp, h0, chans, nOut, k + 1)[i][m] == Rendered(dsp, h0, chans, nOut, k)[i][m]
  {
    RenderedStep(dsp, h0, chans, nOut, k, i);
  }

  /** The last sub-block of a channel is that channel's slice of Pd's last output block. */
  lemma RenderedLast<T>(dsp: Dsp<T>, h0: seq<seq<T>>, chans: seq<seq<T>>, nOut: nat, k: nat, i: nat, j: nat)
    requires Covers(chans, k + 1)
    requires i < nOut && j < PdBlockSize
    ensures At(k, j) < At(k + 1, 0)
    ensures Rendered(dsp, h0, chans, nOut, k + 1)[i][At(k, j)] == dsp(History(h0, chans, k + 1), At(i, j))
  {
    RenderedStep(dsp, h0, chans, nOut, k, i);
    AtBelow(i, j, nOut);
    var prev := Rendered(dsp, h0, chans, nOut, k)[i];
    var slice := Slot(Respond(dsp, History(h0, chans, k + 1), At(nOut, 0)), nOut, i);
    assert At(k, j) == |prev| + j;
    assert (prev + slice)[At(k, j)] == slice[j];
  }

  /**
   * Frame `j` of sub-block `q` of output channel `i` is sample `j` of slice
   * `i` of the block Pd produced in its `q`-th call of the period, and later
   * calls never overwrite it.
   */
  lemma {:induction false} RenderedAt<T>(dsp: Dsp<T>, h0: seq<seq<T>>, chans: seq<seq<T>>, nOut: nat, k: nat, i: nat, q: nat, j: nat)
    requires Covers(chans, k)
    requires i < nOut && q < k && j < PdBlockSize
    ensures Covers(chans, q + 1) && At(q, j) < At(k, 0)
    ensures Rendered(dsp, h0, chans, nOut, k)[i][At(q, j)] == dsp(History(h0, chans, q + 1), At(i, j))
  {
    CoversShorter(chans, k - 1, k);
    CoversShorter(chans, q + 1, k);
    AtBelow(q, j, k);
    if q < k - 1 {
      RenderedAt(dsp, h0, chans, nOut, k - 1, i, q, j);
      RenderedKeeps(dsp, h0, chans, nOut, k - 1, i, At(q, j));
    } else {
      assert q + 1 == k;
      RenderedLast(dsp, h0, chans, nOut, q, i, j);
    }
  }

  /** A patch that copies each input channel to the output channel of the same number ([adc~] to [dac~]). */
  ghost predicate PassThrough<T(!new)>(dsp: Dsp<T>)
  {
    forall h: seq<seq<T>>, m: nat {:trigger dsp(h, m)} :: 0 < |h| && m < |h[|h| - 1]| ==> dsp(h, m) == h[|h| - 1][m]
  }

  /**
   * Round trip: through a pass-through patch with as many outputs as inputs,
   * a period of whole blocks comes out channel for channel, frame for frame,
   * exactly as it went in.
   */
  lemma PassThroughRoundTrip<T(!new)>(dsp: Dsp<T>, h0: seq<seq<T>>, chans: seq<seq<T>>, k: nat)
    requires PassThrough(dsp)
    requires forall i :: 0 <= i < |chans| ==> |chans[i]| == At(k, 0)
    ensures Covers(chans, k)
    ensures Rendered(dsp, h0, chans, |chans|, k) == chans
  {
    var r := Rendered(dsp, h0, chans, |chans|, k);
    forall i | 0 <= i < |chans|
      ensures r[i] == chans[i]
    {
      forall m | 0 <= m < At(k, 0)
        ensures r[i][m] == chans[i][m]
      {
        var q, j := AtSplit(m, k);
        RenderedAt(dsp, h0, chans, |chans|, k, i, q, j);
        HistoryAt(h0, chans, q + 1, q);
        var h := History(h0, chans, q + 1);
        AtBelow(i, j, |chans|);
        assert dsp(h, At(i, j)) == h[|h| - 1][At(i, j)];
      }
    }
  }
}
