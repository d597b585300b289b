# Grain-voice engine of the granular synthesizer, in Dafny

This project models the real-time core of a JUCE granular synthesizer
(`Source/WavetableSynth.h`), which is made of:

- a fixed ensemble of five **grain voices**;
- the **render callback**, which mixes those voices into the audio device's output block;
- the **load step**, which hands a decoded recording to the render side.

**Grain voices.** Each voice owns a one-channel grain table of `grainSize + 1` samples (grainSize = 44100 / 2) and an integer read cursor.
- On every output frame the voice adds `table[cnt] * window(cnt)` to channel 0, and to channel 1 when the block has one.
- When the cursor equals grainSize, the voice refills its table in place from the recording, at a random offset, and restarts at 0.
- Otherwise it advances by one.

**Render callback.** Nothing happens until a file has been loaded. After that, each block:
1. clears the active region;
2. lets the voices add into it, in index order.

**Construction.** The voices start with staggered cursors, `(grainSize / 5) * i`, so no two of them refill on the same frame.

The model has three modules:

- `Grain` (`grain.dfy`) holds the behaviour as values:
  - `Voice` (cursor and table);
  - `Step`, one frame;
  - `After`, `n` frames;
  - `Output`, what a voice adds over a block;
  - `Mix`, the sum over an ensemble.

  It also holds the lemmas about them: cursor arithmetic, block splitting, linearity of the mix, and where refilled tables come from.
- `Oscillator` (`oscillator.dfy`) holds the class `GrainOscillator`:
  - its state is a cursor field `cnt` and a fixed `array2<real>` grain table, which is refilled in place;
  - its per-sample loop `GetNext` is proved against `After` and `Output`.
- `Engine` (`engine.dfy`) holds:
  - the class `Synth`: the voice array, the file buffer and the ready flag;
  - the constructor's stagger loop;
  - the render gate `Render`, proved against `Mix`;
  - `LoadFile`;
  - the lemmas showing that the staggering keeps voices apart and survives rendering.

Three things outside the program become parameters:
- **Window:** the cosine window `calcMado(cnt, grainSize)` is an uninterpreted `Window = int -> real`.
- **Random draws:** a voice's draws are a sequence `rand`; `rand[i]` is the draw a refill on frame `i` of the block would use. The ensemble gets one such sequence per voice.
- **Decoded file:** it reaches the model as `Option<seq<real>>`, channel 0 only.

Samples are `real`.

Three behaviours of the code the model keeps:
- **Render before a load:** the code returns without touching the block. It does not write silence.
- **Refill offset:** the code takes the draw modulo the whole file length. The model uses that same offset whenever the grain copied from it fits in the file. On the other draws the code reads past the end of the file (see Findings), and the model takes the draw modulo `length - grainSize` instead.
- **Recording too short:** the code does not skip refills when the recording is shorter than a grain. The model requires a long enough file wherever a refill happens.

## Model

| member | source | states |
|---|---|---|
| Grain.SourceStart | Source/WavetableSynth.h:118 | the offset as written, draw modulo file length, always lies inside the file |
| Grain.SourceStartCanOverrun | Source/WavetableSynth.h:118-124 | for every file length the draw `length - 1` gives an offset from which copying `grainSize + 1` samples runs past the end of the file |
| Grain.RefillStart | Source/WavetableSynth.h:116-124 | the corrected offset keeps the whole copied table inside the file, and it equals the source's offset on every draw whose grain fits |
| Grain.RefillStartIsSourceStart | Source/WavetableSynth.h:118 | both directions: every offset the corrected refill takes is the source's offset for some draw, and every in-bounds offset is the corrected offset for that draw, so both reach the same in-bounds offsets |
| Grain.Step | Source/WavetableSynth.h:116-129 | one frame keeps the cursor in [0, grainSize] and never resizes the table |
| Grain.After | Source/WavetableSynth.h:108-129 | after `n` frames the voice is still well formed; if no refill was reached the cursor moved by `n` and the table is unchanged |
| Grain.StepCursor | Source/WavetableSynth.h:116-129 | one frame moves the cursor from `c` to `(c + 1) mod (grainSize + 1)` |
| Grain.CursorAfter | Source/WavetableSynth.h:108-129 | after `n` frames the cursor is `(c + n) mod (grainSize + 1)` |
| Grain.TableIsGrainOfFile | Source/WavetableSynth.h:116-124 | a table is replaced only by a refill: before the cursor passes grainSize the table is the old one; afterwards it is a contiguous grain lying wholly inside the file |
| Grain.Addend | Source/WavetableSynth.h:110-113 | a frame's addend is the table sample at the cursor times the window at the cursor; Accumulate and OutputSnoc state where it goes |
| Grain.Output | Source/WavetableSynth.h:108-114 | a block's output has one sample per frame; OutputSnoc and OutputSplit state what each frame receives and how blocks compose |
| Grain.OutputSnoc | Source/WavetableSynth.h:108-114 | frame `i` of a block receives the addend of the state the voice reached after `i` frames, appended after the earlier frames |
| Grain.AfterSplit | Source/WavetableSynth.h:86-131 | rendering `a` frames and then `b` frames leaves the voice in the same state as rendering `a + b` frames in one block |
| Grain.OutputSplit | Source/WavetableSynth.h:86-131 | one block of `a + b` frames adds the same samples as a block of `a` frames followed by a block of `b` frames from where the voice stopped |
| Grain.Mix | Source/WavetableSynth.h:143-146 | the ensemble's block has one sample per frame; MixPrefixStep and MixSplit state that it is the sum of the voices' outputs in index order |
| Grain.MixPrefixStep | Source/WavetableSynth.h:143-146 | mixing the first `k + 1` voices adds voice `k`'s output to the mix of the first `k`: voices are mixed in index order |
| Grain.MixSplit | Source/WavetableSynth.h:141-146 | the mix of two groups of voices equals the frame-by-frame sum of the mixes of each group rendered on its own |
| Grain.ProgressStep | Source/WavetableSynth.h:143-146 | rendering voice `k` moves that voice `n` frames on and leaves every other voice as it was |
| Oscillator.GrainOscillator.constructor | Source/WavetableSynth.h:79-84 | a new voice has a fresh one-channel table of `grainSize + 1` samples and cursor 0 |
| Oscillator.GrainOscillator.Accumulate | Source/WavetableSynth.h:110-114 | the current table sample times the window at the cursor is added to frame `k` of channel 0 and, if there is one, channel 1; every other sample of the buffer is unchanged |
| Oscillator.GrainOscillator.Refill | Source/WavetableSynth.h:116-126 | the table is overwritten in place with the file grain at the corrected offset, keeps its size, and the cursor becomes 0 |
| Oscillator.GrainOscillator.Advance | Source/WavetableSynth.h:116-129 | the voice's new state is `Step` of the old one: refill exactly when the cursor equals grainSize, otherwise cursor plus one with the table untouched |
| Oscillator.GrainOscillator.Frame | Source/WavetableSynth.h:108-129 | one loop iteration adds the addend of the state before the step to the next frame and then steps the voice |
| Oscillator.GrainOscillator.RenderFrame | Source/WavetableSynth.h:108-129 | after frame `i` of a block the voice is `After(v0, i + 1)` and the written frames hold `Output(v0, i + 1)` over the original samples |
| Oscillator.GrainOscillator.GetNext | Source/WavetableSynth.h:86-131 | after a block the voice is `After(v0, n)`, and channels 0 and 1 hold their previous samples plus `Output(v0, n)`; other channels are unchanged |
| Engine.Stagger | Source/WavetableSynth.h:32 | voice `i`'s starting cursor `(grainSize / numOsc) * i`; StaggerBelowGrain and StaggerMonotone bound and order it |
| Engine.StaggerBelowGrain | Source/WavetableSynth.h:31-33 | every staggered starting cursor `(grainSize / numOsc) * i` lies below grainSize |
| Engine.StaggerMonotone | Source/WavetableSynth.h:31-33 | staggered starting cursors do not decrease with the voice index |
| Engine.StaggeredCursorsDistinct | Source/WavetableSynth.h:31-33 | staggered voices never share a cursor, so no two of them refill on the same frame |
| Engine.EnsembleStaysStaggered | Source/WavetableSynth.h:31-33 | after a block of `n` frames the voices are still staggered, `n` frames later |
| Engine.Synth.constructor | Source/WavetableSynth.h:14-33 | a new component has no file loaded and voice `i`'s cursor at `(grainSize / numOsc) * i` |
| Engine.Synth.StaggerVoices | Source/WavetableSynth.h:31-33 | the stagger loop sets each cursor to its staggered value, leaves the tables alone, and leaves the ensemble staggered at time 0 |
| Engine.Synth.LoadFile | Source/WavetableSynth.h:163-187 | a completed load replaces the file and sets the ready flag; a cancelled or failed load changes nothing; the voices and their footprint are untouched, so the component can render afterwards |
| Engine.Synth.ClearActiveRegion | Source/WavetableSynth.h:141 | frames `[startSample, startSample + numSamples)` of every channel become 0; every other sample is unchanged |
| Engine.Synth.AddVoice | Source/WavetableSynth.h:143-146 | voice `k` adds its block output on top of what the earlier voices added and moves `n` frames on; the other voices are unchanged |
| Engine.Synth.MixVoices | Source/WavetableSynth.h:143-146 | after the voice loop channels 0 and 1 hold their previous samples plus the mix of all voices, and every voice is `n` frames on |
| Engine.Synth.Render | Source/WavetableSynth.h:135-149 | without a loaded file nothing changes; with one, each sample is the cleared-or-kept old sample plus, in channels 0 and 1, the mix of all voices, and each voice is `n` frames on |

## Left out

- The user interface is not modelled: buttons, layout and the file chooser dialog.
- Format registration, decoding, and the audio device set-up and shutdown (`setAudioChannels`, `shutdownAudio`) are outside the model. The decoder's result is a parameter of `LoadFile`.
- The `position` field set on load is not modelled; nothing in the render path reads it.
- `calcMado`'s cosine is an uninterpreted window function. Floating point is modelled as exact `real` arithmetic.
- `std::random_device` is not modelled. Its draws are a parameter, one per frame, used only when a refill happens.
- The refill's debug output line is not modelled.
- Concurrency is not modelled: the file chooser callback runs asynchronously while the audio thread may be rendering, and the stagger loop runs after the audio device has been started.
- The recording is modelled as its channel 0 only, the channel the refill copies from.
- The `rightBuffer` pointer is not modelled. It is kept between calls and is stale on mono blocks, but it is only written when the block has a second channel.
- The initial contents of a new grain table are left unspecified, as the buffer's allocation does not promise them.
- Grain.Step and Oscillator.GrainOscillator.Refill: on a draw for which the source's copy would run past the end of the file, they copy from the corrected offset instead of modelling the out-of-bounds read. On every other draw they use the source's offset (`RefillStart`), and both reach the same in-bounds offsets (`RefillStartIsSourceStart`), so the lemmas, which hold for every draw, cover every run of the source that stays inside the file.
- Oscillator.GrainOscillator.GetNext: requires `startSample + out.Length1 <= out.Length1`, that is, `startSample` is 0. The source writes `getNumSamples()` frames starting at `startSample`, which runs past the end of each channel when `startSample > 0`. The model does not give that case a meaning.
- Engine.Synth.Render: requires the same write bound. It also requires a recording longer than a grain whenever some voice reaches a refill during the block, since every refill copies `grainSize + 1` samples from the recording.
- Engine.Synth.Render: the gate's check that voice 0's table has one channel is modelled, but it can never fire, because the table is created with one channel and never resized.

## Findings

| source | as written | input that shows it | evidently intended | confidence | as-written member | corrected member |
|---|---|---|---|---|---|---|
| Source/WavetableSynth.h:118-124 | the refill offset is the draw modulo the file length, and `grainSize + 1` samples are copied from it | any file of length `L` and the draw `L - 1`: the copy reads samples `L - 1 .. L + grainSize - 1`, past the end of the file | an offset in `[0, L - grainSize)`, so the whole table fits in the file; the source's own offset already lies there on every other draw | not executed | Grain.SourceStartCanOverrun | Grain.RefillStart |
