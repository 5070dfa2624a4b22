/**
 * `PdJackProcessor`: one Pd instance driven by one Jack client.
 *
 * The processor owns two flat, channel-major scratch buffers of one Pd block
 * per channel. Its Jack client's `process` callback cuts each Jack period into
 * Pd blocks, and for each block gathers the input channels into `inBuf`, runs
 * Pd once and scatters `outBuf` back to the output channels. The class-level
 * state (the latest processor handed out) is `Statics`.
 */
module PdJack {
  import opened Blocks
  import opened Collaborators

  /** What a call of the Java class can end in: a value, or the exception it throws. */
  datatype Result<R> = Ok(value: R) | IllegalArgument(message: string) | JackFailure

  /**
   * The constructor's channel check: it refuses a negative count and the
   * configuration with no channel at all, and otherwise keeps both counts.
   */
  function CheckChannels(nIn: int, nOut: int): (r: Result<(nat, nat)>)
    ensures r.Ok? <==> 0 <= nIn && 0 <= nOut && 0 < nIn + nOut
    ensures r.Ok? ==> r.value.0 == nIn && r.value.1 == nOut
    ensures !r.Ok? ==> r == IllegalArgument("bad number of input/output channels")
  {
    if (nIn < 0 || nOut < 0) || (nIn == 0 && nOut == 0) then
      IllegalArgument("bad number of input/output channels")
    else
      Ok((nIn, nOut))
  }

  class PdJackProcessor {
    const nIn: nat
    const nOut: nat
    const inBuf: array<Sample>
    const outBuf: array<Sample>
    /** The process-wide Pd instance this processor drives. */
    const pd: PdEngine
    var nativeClient: JackClient?

    ghost predicate Valid()
      reads this
    {
      (nIn > 0 || nOut > 0) &&
      inBuf.Length == At(nIn, 0) && outBuf.Length == At(nOut, 0) && inBuf != outBuf &&
      (nativeClient != null ==> nativeClient.owner == this)
    }

    /**
     * A private constructor in Java, reached only through `Statics.CreatePdJackProcessor`
     * once `CheckChannels` has accepted the counts.
     */
    constructor (nIn: nat, nOut: nat, pd: PdEngine)
      requires nIn > 0 || nOut > 0
      ensures Valid() && nativeClient == null
      ensures this.nIn == nIn && this.nOut == nOut && this.pd == pd
      ensures fresh(inBuf) && fresh(outBuf)
      ensures inBuf.Length == nIn * PdBlockSize && outBuf.Length == nOut * PdBlockSize
    {
      this.nIn := nIn;
      this.nOut := nOut;
      inBuf := new Sample[At(nIn, 0)];
      outBuf := new Sample[At(nOut, 0)];
      this.pd := pd;
      nativeClient := null;
    }

    /**
     * Closes the current client, if any, and forgets it. A second call finds
     * no client and changes nothing, so no client is closed twice from here.
     */
    method Stop()
      requires Valid()
      modifies this, if nativeClient != null then {nativeClient} else {}
      ensures Valid() && nativeClient == null
      ensures old(nativeClient) != null ==>
                !old(nativeClient).open && old(nativeClient).closeCount == old(nativeClient.closeCount) + 1
      ensures old(nativeClient) == null ==> unchanged(this)
    {
      if nativeClient != null {
        nativeClient.Close();
        nativeClient := null;
      }
    }

    /**
     * Stops the current client, then registers a new one with Jack under
     * `name`. `registered` is Jack's answer: when the server refuses, the
     * JackException thrown there leaves the processor without a client.
     */
    method CreateClient(name: string, registered: bool) returns (r: Result<JackClient>)
      requires Valid()
      modifies this, if nativeClient != null then {nativeClient} else {}
      ensures Valid()
      ensures old(nativeClient) != null ==>
                !old(nativeClient).open && old(nativeClient).closeCount == old(nativeClient.closeCount) + 1
      ensures r.Ok? <==> registered
      ensures r.Ok? ==> fresh(r.value) && nativeClient == r.value
      ensures r.Ok? ==> r.value.open && r.value.closeCount == 0 && r.value.name == name && r.value.owner == this
      ensures !r.Ok? ==> r == JackFailure && nativeClient == null
    {
      Stop();
      if !registered {
        return JackFailure;
      }
      var c := new JackClient(name, this);
      nativeClient := c;
      return Ok(c);
    }

    /**
     * The input half of one sub-block `k` (the inner loop over the input
     * ports): each input port's next Pd block goes to its channel's slice of
     * `inBuf`, so `inBuf` holds sub-block `k` channel-major.
     */
    method ReadInputs(inputs: PortBuffers, ghost k: nat)
      requires Valid() && inputs.Valid() && |inputs.samples| == nIn
      requires Covers(inputs.samples, k + 1) && AllAt(inputs.pos, At(k, 0))
      modifies inBuf, inputs
      ensures inputs.Valid() && inputs.samples == old(inputs.samples)
      ensures AllAt(inputs.pos, At(k + 1, 0))
      ensures inBuf[..] == Gather(inputs.samples, k)
    {
      var i := 0;
      while i < nIn
        invariant 0 <= i <= nIn
        invariant inputs.Valid() && inputs.samples == old(inputs.samples)
        invariant forall a :: 0 <= a < i ==> inputs.pos[a] == At(k + 1, 0)
        invariant forall a :: i <= a < nIn ==> inputs.pos[a] == At(k, 0)
        invariant forall a, j {:trigger inBuf[At(a, j)]} :: 0 <= a < i && 0 <= j < PdBlockSize ==>
                    inBuf[At(a, j)] == inputs.samples[a][At(k, j)]
      {
        AtBelow(i, 0, nIn);
        ghost var prev := inBuf[..];
        var ok := inputs.Get(i, inBuf, At(i, 0), PdBlockSize);
        SliceStored(prev, inBuf[..], inputs.samples[i], i, k);
        i := i + 1;
      }
      GatherUnique(inputs.samples, k, inBuf[..]);
    }

    /**
     * The output half of one sub-block `k` (the inner loop over the output
     * ports): each output channel's slice of `outBuf` goes to that port's
     * next Pd block; the rest of every port is kept.
     */
    method WriteOutputs(outputs: PortBuffers, ghost k: nat)
      requires Valid() && outputs.Valid() && |outputs.samples| == nOut
      requires Covers(outputs.samples, k + 1) && AllAt(outputs.pos, At(k, 0))
      modifies outputs
      ensures outputs.Valid() && |outputs.samples| == nOut
      ensures AllAt(outputs.pos, At(k + 1, 0))
      ensures forall a :: 0 <= a < nOut ==>
                At(k, 0) + PdBlockSize <= |old(outputs.samples[a])| &&
                outputs.samples[a] == Overwrite(old(outputs.samples[a]), At(k, 0), Slot(outBuf[..], nOut, a))
    {
      var i := 0;
      while i < nOut
        invariant 0 <= i <= nOut
        invariant outputs.Valid() && |outputs.samples| == nOut
        invariant forall a :: 0 <= a < i ==> outputs.pos[a] == At(k + 1, 0)
        invariant forall a :: i <= a < nOut ==> outputs.pos[a] == At(k, 0)
        invariant forall a :: 0 <= a < i ==>
                    At(k, 0) + PdBlockSize <= |old(outputs.samples[a])| &&
                    outputs.samples[a] == Overwrite(old(outputs.samples[a]), At(k, 0), Slot(outBuf[..], nOut, a))
        invariant forall a :: i <= a < nOut ==> outputs.samples[a] == old(outputs.samples[a])
      {
        AtBelow(i, 0, nOut);
        var ok := outputs.Put(i, outBuf, At(i, 0), PdBlockSize);
        i := i + 1;
      }
    }
  }

  /**
   * The Jack client of a processor (the anonymous `JackNativeClient`
   * subclass): open until closed, with the processing callback.
   */
  class JackClient {
    const name: string
    const owner: PdJackProcessor
    var open: bool
    /** How often `close()` has been called on this client. */
    var closeCount: nat

    constructor (name: string, owner: PdJackProcessor)
      ensures this.name == name && this.owner == owner && open && closeCount == 0
    {
      this.name := name;
      this.owner := owner;
      open := true;
      closeCount := 0;
    }

    /** Unregisters the client from Jack. */
    method Close()
      modifies this
      ensures !open && closeCount == old(closeCount) + 1
    {
      open := false;
      closeCount := closeCount + 1;
    }

    /**
     * The real-time callback for one Jack period: cuts the period into Pd
     * blocks and, for each, gathers the inputs, runs Pd once and scatters
     * the outputs. Afterwards every cursor has advanced by the period, Pd
     * has consumed the period's sub-blocks in order, and every output port
     * holds the rendering of the whole period.
     */
    method Process(inputs: PortBuffers, outputs: PortBuffers)
      requires PeriodReady(owner, inputs, outputs)
      modifies owner.inBuf, owner.outBuf, owner.pd, inputs, outputs
      ensures inputs.Valid() && outputs.Valid() && inputs.samples == old(inputs.samples)
      ensures AllAt(inputs.pos, old(PeriodFrames(inputs, outputs)))
      ensures AllAt(outputs.pos, old(PeriodFrames(inputs, outputs)))
      ensures Covers(inputs.samples, SubBlocks(old(PeriodFrames(inputs, outputs))))
      ensures owner.pd.blocks
           == History(old(owner.pd.blocks), inputs.samples, SubBlocks(old(PeriodFrames(inputs, outputs))))
      ensures |owner.pd.blocks| == |old(owner.pd.blocks)| + SubBlocks(old(PeriodFrames(inputs, outputs)))
      ensures outputs.samples
           == Rendered(owner.pd.dsp, old(owner.pd.blocks), inputs.samples, owner.nOut, SubBlocks(old(PeriodFrames(inputs, outputs))))
      ensures PassThrough(owner.pd.dsp) && owner.nIn == owner.nOut ==> outputs.samples == inputs.samples
    {
      var p := owner;
      var jackBlockSize := if p.nIn > 0 then inputs.Capacity(0) else outputs.Capacity(0);
      ghost var chans, outs0, h0 := inputs.samples, outputs.samples, p.pd.blocks;
      ghost var blocks := SubBlocks(jackBlockSize);
      WholeBlocks(jackBlockSize);
      assert Covers(chans, blocks) && Covers(outs0, blocks);
      var n := 0;
      ghost var k: nat := 0;
      while n < jackBlockSize
        invariant k <= blocks && n == At(k, 0)
        invariant AfterBlocks(inputs, outputs, chans, outs0, h0, k)
        decreases jackBlockSize - n
      {
        ProcessBlock(inputs, outputs, chans, outs0, h0, k, jackBlockSize);
        n := n + PdBlockSize;
        k := k + 1;
      }
      if k < blocks {
        AtMonotone(k, blocks);
      }
      PeriodComplete(outputs.samples, Rendered(p.pd.dsp, h0, chans, p.nOut, blocks), outs0, n);
      if PassThrough(p.pd.dsp) && p.nIn == p.nOut {
        PassThroughRoundTrip(p.pd.dsp, h0, chans, blocks);
      }
    }

    /**
     * The callback's state after its first `k` Pd blocks: every cursor at
     * frame `At(k, 0)`, the inputs untouched, Pd fed sub-blocks `0..k` on top
     * of the earlier trace `h0`, and each output port holding those
     * sub-blocks' rendering followed by what it held before.
     */
    ghost predicate AfterBlocks(inputs: PortBuffers, outputs: PortBuffers,
                                chans: seq<seq<Sample>>, outs0: seq<seq<Sample>>, h0: seq<seq<Sample>>, k: nat)
      reads owner, owner.pd, inputs, outputs
    {
      owner.Valid() && inputs != outputs && inputs.Valid() && outputs.Valid() &&
      inputs.samples == chans && |inputs.samples| == owner.nIn &&
      |outputs.samples| == owner.nOut && |outs0| == owner.nOut &&
      Covers(chans, k) && Covers(outs0, k) &&
      AllAt(inputs.pos, At(k, 0)) && AllAt(outputs.pos, At(k, 0)) &&
      owner.pd.blocks == History(h0, chans, k) &&
      forall a :: 0 <= a < owner.nOut ==>
        outputs.samples[a] == Rendered(owner.pd.dsp, h0, chans, owner.nOut, k)[a] + outs0[a][At(k, 0)..]
    }

    /**
     * One pass of the chunking loop: gather sub-block `k` of every input
     * into `inBuf`, run Pd once, scatter `outBuf` into sub-block `k` of every
     * output.
     */
    method ProcessBlock(inputs: PortBuffers, outputs: PortBuffers,
                        ghost chans: seq<seq<Sample>>, ghost outs0: seq<seq<Sample>>, ghost h0: seq<seq<Sample>>, ghost k: nat, ghost frames: nat)
      requires AfterBlocks(inputs, outputs, chans, outs0, h0, k)
      requires frames % PdBlockSize == 0 && At(k, 0) < frames
      requires Covers(chans, SubBlocks(frames)) && Covers(outs0, SubBlocks(frames))
      modifies owner.inBuf, owner.outBuf, owner.pd, inputs, outputs
      ensures k < SubBlocks(frames) && At(k + 1, 0) <= frames
      ensures AfterBlocks(inputs, outputs, chans, outs0, h0, k + 1)
    {
      NextBlockFits(k, frames);
      CoversShorter(chans, k + 1, SubBlocks(frames));
      CoversShorter(outs0, k + 1, SubBlocks(frames));
      var p := owner;
      p.ReadInputs(inputs, k);
      p.pd.ProcessRaw(p.inBuf, p.outBuf);
      assert p.pd.blocks == History(h0, chans, k + 1);
      p.WriteOutputs(outputs, k);
      forall a | 0 <= a < p.nOut
        ensures outputs.samples[a] == Rendered(p.pd.dsp, h0, chans, p.nOut, k + 1)[a] + outs0[a][At(k + 1, 0)..]
      {
        RenderedSplice(p.pd.dsp, h0, chans, p.nOut, k, a, outs0[a][At(k, 0)..]);
      }
    }
  }

  /**
   * Storing block `k` of `src` into slice `i` of a channel-major buffer sets
   * that slice and keeps the slices before it.
   */
  lemma SliceStored<T>(before: seq<T>, after: seq<T>, src: seq<T>, i: nat, k: nat)
    requires At(i, PdBlockSize) <= |before| && At(k, PdBlockSize) <= |src|
    requires after == Overwrite(before, At(i, 0), src[At(k, 0)..At(k, PdBlockSize)])
    ensures forall a, j {:trigger after[At(a, j)]} :: 0 <= a < i && 0 <= j < PdBlockSize ==> after[At(a, j)] == before[At(a, j)]
    ensures forall j {:trigger after[At(i, j)]} :: 0 <= j < PdBlockSize ==> after[At(i, j)] == src[At(k, j)]
  {
    forall a, j | 0 <= a < i && 0 <= j < PdBlockSize
      ensures after[At(a, j)] == before[At(a, j)]
    {
      AtBelow(a, j, i);
    }
  }

  /**
   * Overwriting the `|s|` samples right after a prefix `r` extends the prefix
   * by `s` and drops as much from the remainder.
   */
  lemma Splice<T>(r: seq<T>, rest: seq<T>, s: seq<T>)
    requires |s| <= |rest|
    ensures Overwrite(r + rest, |r|, s) == (r + s) + rest[|s|..]
  {
    assert (r + rest)[..|r|] == r;
    assert (r + rest)[|r| + |s|..] == rest[|s|..];
  }

  /**
   * An output port holding the first `k` rendered sub-blocks followed by
   * untouched frames holds the first `k + 1` once Pd's slice for sub-block
   * `k` is put after them.
   */
  lemma RenderedSplice<T>(dsp: Dsp<T>, h0: seq<seq<T>>, chans: seq<seq<T>>, nOut: nat, k: nat, a: nat, rest: seq<T>)
    requires Covers(chans, k + 1) && a < nOut && PdBlockSize <= |rest|
    ensures Covers(chans, k)
    ensures Overwrite(Rendered(dsp, h0, chans, nOut, k)[a] + rest, At(k, 0),
                      Slot(Respond(dsp, History(h0, chans, k + 1), At(nOut, 0)), nOut, a))
         == Rendered(dsp, h0, chans, nOut, k + 1)[a] + rest[PdBlockSize..]
  {
    RenderedStep(dsp, h0, chans, nOut, k, a);
    Splice(Rendered(dsp, h0, chans, nOut, k)[a], rest, Slot(Respond(dsp, History(h0, chans, k + 1), At(nOut, 0)), nOut, a));
  }

  /**
   * Once the rendering is as long as the period, nothing of the old output
   * contents is left.
   */
  lemma PeriodComplete<T>(outs: seq<seq<T>>, rendered: seq<seq<T>>, outs0: seq<seq<T>>, n: nat)
    requires |outs| == |rendered| == |outs0|
    requires forall a :: 0 <= a < |outs0| ==> |outs0[a]| == n
    requires forall a :: 0 <= a < |outs| ==> outs[a] == rendered[a] + outs0[a][n..]
    ensures outs == rendered
  {
    forall a | 0 <= a < |outs|
      ensures outs[a] == rendered[a]
    {
      assert outs0[a][n..] == [];
    }
  }

  /** Frames per channel of a period: the capacity of the first port's buffer, as the callback reads it. */
  ghost function PeriodFrames(inputs: PortBuffers, outputs: PortBuffers): (r: nat)
    reads inputs, outputs
  {
    if |inputs.samples| > 0 then |inputs.samples[0]|
    else if |outputs.samples| > 0 then |outputs.samples[0]|
    else 0
  }

  /**
   * What Jack guarantees the callback: one buffer per port, all of the same
   * whole number of Pd blocks, cursors at the start, and the input buffers
   * apart from the output buffers.
   */
  ghost predicate PeriodReady(p: PdJackProcessor, inputs: PortBuffers, outputs: PortBuffers)
    reads p, inputs, outputs
  {
    p.Valid() && inputs != outputs && inputs.Valid() && outputs.Valid() &&
    |inputs.samples| == p.nIn && |outputs.samples| == p.nOut &&
    PeriodFrames(inputs, outputs) % PdBlockSize == 0 &&
    (forall a :: 0 <= a < |inputs.samples| ==> |inputs.samples[a]| == PeriodFrames(inputs, outputs)) &&
    (forall a :: 0 <= a < |outputs.samples| ==> |outputs.samples[a]| == PeriodFrames(inputs, outputs)) &&
    AllAt(inputs.pos, 0) && AllAt(outputs.pos, 0)
  }

  /**
   * The class's static state: the latest processor handed out by
   * `createPdJackProcessor`, and the Pd instance every processor drives.
   */
  class Statics {
    const pd: PdEngine
    var instance: PdJackProcessor?

    ghost predicate Valid()
      reads this, instance
    {
      instance != null ==> instance.Valid() && instance.pd == pd
    }

    constructor (pd: PdEngine)
      ensures Valid() && this.pd == pd && instance == null
    {
      this.pd := pd;
      instance := null;
    }

    /** What `CreatePdJackProcessor` may change: this state, the old processor and its client. */
    ghost function Footprint(): set<object>
      reads this, instance
    {
      {this} + if instance == null then {} else {instance} + if instance.nativeClient == null then {} else {instance.nativeClient}
    }

    /**
     * Stops the previous processor (closing its client), then builds a new
     * one for `nIn` inputs and `nOut` outputs and makes it the instance. On
     * bad channel counts the constructor throws after the stop, and the
     * stopped processor stays the instance.
     */
    method CreatePdJackProcessor(nIn: int, nOut: int) returns (r: Result<PdJackProcessor>)
      requires Valid()
      modifies Footprint()
      ensures Valid()
      ensures old(instance) != null ==> old(instance).nativeClient == null
      ensures old(instance) != null && old(instance.nativeClient) != null ==>
                !old(instance.nativeClient).open &&
                old(instance.nativeClient).closeCount == old(instance.nativeClient.closeCount) + 1
      ensures r.Ok? <==> CheckChannels(nIn, nOut).Ok?
      ensures r.Ok? ==> fresh(r.value) && instance == r.value && r.value.pd == pd
      ensures r.Ok? ==> r.value.nIn == nIn && r.value.nOut == nOut && r.value.nativeClient == null
      ensures r.Ok? ==> fresh(r.value.inBuf) && fresh(r.value.outBuf)
      ensures r.Ok? ==> r.value.inBuf.Length == nIn * PdBlockSize && r.value.outBuf.Length == nOut * PdBlockSize
      ensures !r.Ok? ==> r == IllegalArgument(CheckChannels(nIn, nOut).message) && instance == old(instance)
    {
      if instance != null {
        instance.Stop();
      }
      var counts := CheckChannels(nIn, nOut);
      if !counts.Ok? {
        return IllegalArgument(counts.message);
      }
      var proc := new PdJackProcessor(counts.value.0, counts.value.1, pd);
      instance := proc;
      return Ok(proc);
    }
  }
}
