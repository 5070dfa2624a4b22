/**
 * The two collaborators the processor talks to, reduced to what the
 * processing loop relies on: Pd's processRaw entry point (`PdEngine`) and
 * the `java.nio.FloatBuffer` views Jack hands the callback (`PortBuffers`).
 */
module Collaborators {
  import opened Blocks

  /**
   * A Java `float` sample. The bridge only moves samples around and Pd's
   * processing is an arbitrary `Dsp`, so the float format plays no part.
   */
  type Sample = real

  /** `s` with the samples from `at` on replaced by `block`: what a bulk copy leaves in its destination. */
  function Overwrite<T>(s: seq<T>, at: nat, block: seq<T>): (r: seq<T>)
    requires at + |block| <= |s|
    ensures |r| == |s|
  {
    s[..at] + block + s[at + |block|..]
  }

  /** A sequence that agrees with `s` outside the block and with `block` inside it is the overwrite. */
  lemma OverwriteIs<T>(s: seq<T>, at: nat, block: seq<T>, t: seq<T>)
    requires at + |block| <= |s| && |t| == |s|
    requires forall m :: 0 <= m < |t| ==> t[m] == if at <= m < at + |block| then block[m - at] else s[m]
    ensures t == Overwrite(s, at, block)
  {
  }

  /**
   * The process-wide Pd instance as seen through `PdBase.processRaw`. Every
   * call consumes the whole flat input buffer and overwrites the whole flat
   * output buffer; `blocks` is the trace of all input buffers Pd has
   * consumed, oldest first.
   */
  class PdEngine {
    const dsp: Dsp<Sample>
    var blocks: seq<seq<Sample>>

    constructor (dsp: Dsp<Sample>)
      ensures this.dsp == dsp && blocks == []
    {
      this.dsp := dsp;
      blocks := [];
    }

    /** One Pd tick: consume `inBuf`, then fill `outBuf` from everything consumed so far. */
    method ProcessRaw(inBuf: array<Sample>, outBuf: array<Sample>)
      modifies this, outBuf
      ensures blocks == old(blocks) + [old(inBuf[..])]
      ensures outBuf[..] == Respond(dsp, blocks, outBuf.Length)
    {
      blocks := blocks + [inBuf[..]];
      forall m | 0 <= m < outBuf.Length {
        outBuf[m] := dsp(blocks, m);
      }
    }
  }

  /** Every cursor of `pos` stands at frame `v`. */
  ghost predicate AllAt(pos: seq<nat>, v: nat)
  {
    forall a :: 0 <= a < |pos| ==> pos[a] == v
  }

  /**
   * The `FloatBuffer[]` Jack hands the callback for one direction: one buffer
   * per port, each a view of its own port's memory with a fixed number of
   * samples (its capacity; the limit is the capacity) and a cursor that the
   * relative bulk `get`/`put` advance. Buffer `a`'s samples are `samples[a]`
   * and its cursor is `pos[a]`.
   */
  class PortBuffers {
    var samples: seq<seq<Sample>>
    var pos: seq<nat>

    ghost predicate Valid()
      reads this
    {
      |pos| == |samples|
    }

    constructor (samples: seq<seq<Sample>>)
      ensures Valid() && this.samples == samples && AllAt(pos, 0)
    {
      this.samples := samples;
      pos := seq(|samples|, _ => 0);
    }

    /** `capacity()` of buffer `a`. */
    function Capacity(a: nat): (r: nat)
      requires a < |samples|
      reads this
    {
      |samples[a]|
    }

    /**
     * Relative bulk get on buffer `a`: copies its next `length` samples into
     * `dst[offset..offset + length]` and advances its cursor. With fewer than
     * `length` samples remaining it fails (BufferUnderflowException) and
     * changes nothing.
     */
    method Get(a: nat, dst: array<Sample>, offset: nat, length: nat) returns (ok: bool)
      requires Valid() && a < |samples| && offset + length <= dst.Length
      modifies this, dst
      ensures Valid() && samples == old(samples)
      ensures ok <==> old(pos[a]) + length <= |samples[a]|
      ensures ok ==> pos == old(pos)[a := old(pos[a]) + length]
      ensures ok ==> dst[..] == Overwrite(old(dst[..]), offset, samples[a][old(pos[a])..old(pos[a]) + length])
      ensures !ok ==> pos == old(pos) && dst[..] == old(dst[..])
    {
      var at := pos[a];
      if at + length > |samples[a]| {
        return false;
      }
      var i := 0;
      while i < length
        invariant 0 <= i <= length
        invariant forall m :: 0 <= m < dst.Length ==>
                    dst[m] == if offset <= m < offset + i then samples[a][at + m - offset] else old(dst[m])
        modifies dst
      {
        dst[offset + i] := samples[a][at + i];
        i := i + 1;
      }
      OverwriteIs(old(dst[..]), offset, samples[a][at..at + length], dst[..]);
      pos := pos[a := at + length];
      return true;
    }

    /**
     * Relative bulk put on buffer `a`: copies `src[offset..offset + length]`
     * to its next `length` positions and advances its cursor. With less than
     * `length` room remaining it fails (BufferOverflowException) and changes
     * nothing.
     */
    method Put(a: nat, src: array<Sample>, offset: nat, length: nat) returns (ok: bool)
      requires Valid() && a < |samples| && offset + length <= src.Length
      modifies this
      ensures Valid() && |samples| == |old(samples)|
      ensures ok <==> old(pos[a]) + length <= |old(samples[a])|
      ensures ok ==> pos == old(pos)[a := old(pos[a]) + length]
      ensures ok ==> samples == old(samples)[a := Overwrite(old(samples[a]), old(pos[a]), src[offset..offset + length])]
      ensures !ok ==> pos == old(pos) && samples == old(samples)
    {
      var at := pos[a];
      if at + length > |samples[a]| {
        return false;
      }
      samples := samples[a := Overwrite(samples[a], at, src[offset..offset + length])];
      pos := pos[a := at + length];
      return true;
    }
  }
}
