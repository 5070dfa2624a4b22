# pdjack in Dafny

A model of `PdJackProcessor`, the class that connects one Pure Data (Pd)
instance to the Jack audio server. The model covers four parts of it:

- the processor's construction and its channel check;
- the latest processor kept in the class's static state
  (`createPdJackProcessor`), which is stopped when a new one replaces it;
- the creation and stopping of its Jack client;
- the real-time `process` callback.

The callback receives one period of `L` frames per port. It cuts the period
into Pd blocks of `PD_BLOCK_SIZE` frames. For each block it:

1. gathers the input ports into the flat, channel-major buffer `inBuf`;
2. calls Pd's `processRaw` once;
3. scatters the flat buffer `outBuf` back to the output ports.

Files:

- `blocks.dfy` (module `Blocks`) describes, as pure values, what the
  chunking loop computes:
  - `Gather`: what Pd sees in each call;
  - `History`: the trace of every call;
  - `Rendered`: what the output ports end up holding.

  It also proves the layout, the ordering and the pass-through round trip.
- `collaborators.dfy` (module `Collaborators`) holds the two collaborators:
  - `PdEngine`: Pd's `processRaw`, with Pd's signal processing as an
    arbitrary function of every input block consumed so far;
  - `PortBuffers`: the `FloatBuffer[]` of one direction. Its relative bulk
    `get`/`put` advance a cursor and fail on underflow or overflow.
- `pd_jack_processor.dfy` (module `PdJack`) holds:
  - the processor class, with its two inner port loops;
  - the Jack client, with its `process` callback;
  - the static state (`Statics`).

  The imperative methods are proved against the functions of `Blocks`.

## Model

All source cells refer to `src/org/puredata/jack/PdJackProcessor.java`.

| member | source | states |
|---|---|---|
| PdJack.CheckChannels | src/org/puredata/jack/PdJackProcessor.java:42-44 | The counts are accepted exactly when both are non-negative and not both zero. An accepted pair is kept as given. Otherwise the result is IllegalArgumentException("bad number of input/output channels"). |
| PdJack.PdJackProcessor.constructor | src/org/puredata/jack/PdJackProcessor.java:45-48 | Stores both counts. Allocates two fresh, distinct buffers of nIn*PD_BLOCK_SIZE and nOut*PD_BLOCK_SIZE samples. Starts without a Jack client. |
| PdJack.Statics.CreatePdJackProcessor | src/org/puredata/jack/PdJackProcessor.java:60-66 | Stops the previous instance first, closing its client exactly once if it had one. Succeeds exactly when CheckChannels accepts the counts. On success the result is a fresh processor with those counts and freshly allocated buffers of those lengths, and it becomes the instance. On failure it throws the constructor's IllegalArgumentException, and the stopped old instance stays installed. |
| PdJack.PdJackProcessor.Stop | src/org/puredata/jack/PdJackProcessor.java:95-100 | Afterwards there is no client. A client that was there is closed, exactly once. With no client, nothing changes, so a second stop is a no-op and never closes twice. |
| PdJack.JackClient.Close | src/org/puredata/jack/PdJackProcessor.java:97 | The client is no longer open, and its close count grows by one. |
| PdJack.PdJackProcessor.CreateClient | src/org/puredata/jack/PdJackProcessor.java:75-93 | Closes the current client first. When Jack registers the new client, it is fresh, open, never closed, named as asked, bound to this processor and installed. When Jack refuses, the result is the JackException and the processor is left without a client. |
| PdJack.PdJackProcessor.ReadInputs | src/org/puredata/jack/PdJackProcessor.java:82-84 | After the input loop of sub-block k, inBuf is exactly Gather(inputs, k). The input samples are unchanged. Every input cursor has moved from frame k*B to (k+1)*B. |
| PdJack.PdJackProcessor.WriteOutputs | src/org/puredata/jack/PdJackProcessor.java:86-88 | After the output loop of sub-block k, output port a holds channel a's slice of outBuf at frames k*B..(k+1)*B. Everything else in the port is unchanged. Every output cursor has moved by one block. |
| PdJack.JackClient.ProcessBlock | src/org/puredata/jack/PdJackProcessor.java:81-89 | One pass of the chunking loop advances the invariant from k to k+1 blocks: cursors at (k+1)*B, Pd's trace extended by Gather(inputs, k), and the rendering grown by one block with the old output contents after it. The pass stays inside the period. |
| PdJack.JackClient.Process | src/org/puredata/jack/PdJackProcessor.java:79-90 | The callback for one period of L = q*B frames leaves every cursor at L and the inputs unchanged. Pd is called L/B times, fed sub-blocks 0..L/B-1 in order (History). Every output port holds Rendered for the whole period. With a pass-through patch and nIn == nOut, each output equals its input. |
| Collaborators.PortBuffers.Get | src/org/puredata/jack/PdJackProcessor.java:83 | A relative bulk get succeeds exactly when enough samples remain. On success it copies them into dst at the offset, leaves the rest of dst alone and advances only that cursor. On failure nothing changes. |
| Collaborators.PortBuffers.Put | src/org/puredata/jack/PdJackProcessor.java:87 | A relative bulk put succeeds exactly when enough room remains. On success it overwrites the next samples of that port with src[offset..offset+length] and advances only that cursor. On failure nothing changes. |
| Collaborators.PdEngine.ProcessRaw | src/org/puredata/jack/PdJackProcessor.java:85 | processRaw appends the current inBuf to Pd's trace. It fills all of outBuf with Pd's response to the trace including that block. |
| Blocks.Gather | src/org/puredata/jack/PdJackProcessor.java:82-84 | The channel-major layout: inBuf[i*B + j] is input channel i's frame k*B + j, and the buffer holds nIn*B samples. |
| Blocks.GatherUnique | src/org/puredata/jack/PdJackProcessor.java:82-84 | Any buffer of nIn*B samples with that layout is Gather(chans, k). The layout determines the buffer completely. |
| Blocks.History | src/org/puredata/jack/PdJackProcessor.java:81-85 | The trace after k calls is k blocks longer than the earlier trace, and keeps the earlier trace as a prefix. |
| Blocks.HistoryAt | src/org/puredata/jack/PdJackProcessor.java:81-85 | Call q of the period consumed exactly Gather(chans, q), so the calls see the sub-blocks in period order. |
| Blocks.Rendered | src/org/puredata/jack/PdJackProcessor.java:86-88 | After k sub-blocks there are nOut output channels, each k*B frames long. |
| Blocks.RenderedStep | src/org/puredata/jack/PdJackProcessor.java:86-88 | Sub-block k of channel i is slice i of Pd's k-th output block. It is appended after the first k sub-blocks, which are kept. |
| Blocks.RenderedKeeps | src/org/puredata/jack/PdJackProcessor.java:86-88 | A later block leaves the frames already written to an output port unchanged. |
| Blocks.RenderedLast | src/org/puredata/jack/PdJackProcessor.java:86-88 | The output layout for the last block: frame k*B + j of output channel i is outBuf[i*B + j] of call k. |
| Blocks.RenderedAt | src/org/puredata/jack/PdJackProcessor.java:81-89 | The output layout for the whole period: frame q*B + j of output channel i is outBuf[i*B + j] of call q, for every q < k. No later call overwrites it. |
| Blocks.PassThroughRoundTrip | src/org/puredata/jack/PdJackProcessor.java:79-90 | Round trip: through a patch that copies input i to output i, a period of whole blocks comes out exactly as it went in, channel for channel and frame for frame. |
| Blocks.NextBlockFits | src/org/puredata/jack/PdJackProcessor.java:81 | While n = k*B < L and L is a whole number of blocks, block k ends within the period: k < L/B and (k+1)*B <= L. |
| Blocks.AtSplit | src/org/puredata/jack/PdJackProcessor.java:81 | Every frame below k*B lies in exactly one sub-block q < k, at offset j < B. |
| PdJack.RenderedSplice | src/org/puredata/jack/PdJackProcessor.java:86-88 | Putting outBuf's slice for channel a after the first k rendered blocks of port a gives the first k+1 rendered blocks, followed by the untouched rest. |
| PdJack.SliceStored | src/org/puredata/jack/PdJackProcessor.java:83 | Storing channel i's block into slice i of inBuf sets that slice and keeps the slices before it. |

Notation: B is `PD_BLOCK_SIZE`.

## Left out

- PD_BLOCK_SIZE is `PdBase.blockSize()`, a native call. It is fixed here at Pd's default block size of 64 (`Blocks.PdBlockSize`).
- PdBase.openAudio, PdBase.computeAudio and JackNativeClient.getSampleRate are native calls into Pd and Jack, and the constructor makes them after allocating the buffers. They are left out, together with the JackException they could throw.
- `main`, port connections and patch loading are not part of this model.
- PdJack.PdJackProcessor.constructor: requires valid counts instead of throwing. The throw is modelled by `CheckChannels`, which `Statics.CreatePdJackProcessor` calls before constructing, as the constructor's first statement does.
- PdJack.PdJackProcessor.constructor: does not model the 32-bit overflow of `nIn * PD_BLOCK_SIZE` for channel counts above 2^25. Such counts are far beyond what Jack supports.
- PdJack.PdJackProcessor.CreateClient: whether `new JackNativeClient(name, nIn, nOut)` registers with the Jack server is a parameter, `registered`. On refusal, its JackException leaves `nativeClient` null, since stop has already run.
- PdJack.JackClient.Process: requires a period that is a whole number of Pd blocks. It also requires one buffer per port, all of the period's length, with cursors at the start. With a period like 32 frames, the first `get` would throw BufferUnderflowException inside the callback. With no inputs there is no `get`, and the first `put` would throw BufferOverflowException instead. Neither exception path is modelled.
- PdJack.JackClient.Process: Jack calls it on its own real-time thread. Concurrency with `stop` and `createClient` is not modelled, just as the class is documented as not thread-safe.
- Collaborators.PortBuffers: one object holds all buffers of a direction. Aliasing between the buffers of different ports, or between an input and an output port, is not modelled. Inputs and outputs are required to be distinct objects.
- Collaborators.PortBuffers: a buffer's limit is taken to be its capacity. Marks and absolute get/put are not used by the class and are left out.
- Collaborators.PdEngine: Pd's signal processing is an arbitrary function of every input block consumed so far (`Blocks.Dsp`). Pd's patch semantics are not modelled, and neither is `openAudio` reconfiguring the shared Pd instance (channel counts, sample rate) for each new processor; every processor drives the one `Statics.pd` as it is. Samples are `real`, because the class only moves Java floats around and never computes with them.
- The static fields `instance` and the Pd instance are modelled by the class `PdJack.Statics`.
- PdJack.Statics.CreatePdJackProcessor: keeps only the static `instance` field single. The class's documentation promises a single instance at any given time, but the code only replaces `instance` and stops the old processor. A caller that still holds the replaced processor can call `createClient` on it again, and then two open Jack clients drive the one Pd. The model does the same: no contract limits the number of live processors or open clients across processors.
