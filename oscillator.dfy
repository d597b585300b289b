/** One grain voice as the source keeps it: an integer cursor and a one-channel
    grain table that is refilled in place. `GetNext` adds the voice into an output
    block frame by frame and is proved against `Grain.After` and `Grain.Output`. */
module Oscillator {
  import opened Grain

  /** The region of the output buffer a render call is asked to fill. */
  datatype ChannelInfo = ChannelInfo(startSample: nat, numSamples: nat)

  /** The samples of an output buffer, channel by channel. */
  ghost function Snapshot(out: array2<real>): (b: seq<seq<real>>)
    reads out
    ensures |b| == out.Length0
    ensures forall ch :: 0 <= ch < out.Length0 ==> |b[ch]| == out.Length1
    ensures forall ch, i :: 0 <= ch < out.Length0 && 0 <= i < out.Length1 ==> b[ch][i] == out[ch, i]
  {
    seq(out.Length0, ch requires 0 <= ch < out.Length0 reads out =>
      seq(out.Length1, i requires 0 <= i < out.Length1 reads out => out[ch, i]))
  }

  /** `out` holds the samples `base` plus, in channels 0 and 1, the block `added`
      laid over frames `s ..`; the frames after it and the other channels hold
      `base` alone. */
  ghost predicate Holds(out: array2<real>, base: seq<seq<real>>, s: nat, added: seq<real>)
    reads out
  {
    |base| == out.Length0 && s + |added| <= out.Length1 &&
    (forall ch :: 0 <= ch < out.Length0 ==> |base[ch]| == out.Length1) &&
    forall ch, i {:trigger out[ch, i]} :: 0 <= ch < out.Length0 && 0 <= i < out.Length1 ==>
      out[ch, i] == base[ch][i] + (if ch <= 1 && s <= i < s + |added| then added[i - s] else 0.0)
  }

  class GrainOscillator {
    /** Read cursor into the grain table. */
    var cnt: int
    /** One channel of `TableLength` samples; allocated once, never resized. */
    const grainTable: array2<real>

    ghost predicate Valid()
      reads this
    {
      grainTable.Length0 == 1 && grainTable.Length1 == TableLength && 0 <= cnt <= GrainSize
    }

    /** The samples of the table's only channel. */
    ghost function Table(): (t: seq<real>)
      reads grainTable
      requires grainTable.Length0 == 1
      ensures |t| == grainTable.Length1
      ensures forall j :: 0 <= j < grainTable.Length1 ==> t[j] == grainTable[0, j]
    {
      seq(grainTable.Length1, j requires 0 <= j < grainTable.Length1 reads grainTable => grainTable[0, j])
    }

    /** The abstract state of the voice. */
    ghost function Value(): (v: Voice)
      reads this, grainTable
      requires Valid()
      ensures WellFormed(v) && v.cnt == cnt
    {
      Voice(cnt, Table())
    }

    /** A new voice: a one-channel table of `TableLength` samples, cursor at 0.
        The table's initial samples are not specified. */
    constructor ()
      ensures Valid() && fresh(grainTable) && cnt == 0
    {
      cnt := 0;
      grainTable := new real[1, TableLength];
    }

    /** One frame's output: adds the current table sample, weighted by the window at
        the cursor, into frame `k` of channel 0, and of channel 1 when there is one.
        Output is accumulated, never overwritten. */
    method Accumulate(out: array2<real>, k: nat, w: Window)
      requires Valid() && out != grainTable
      requires out.Length0 >= 1 && k < out.Length1
      modifies out
      ensures forall ch, j {:trigger out[ch, j]} :: 0 <= ch < out.Length0 && 0 <= j < out.Length1 ==>
        out[ch, j] == old(out[ch, j]) + (if ch <= 1 && j == k then Addend(Value(), w) else 0.0)
    {
      out[0, k] := out[0, k] + grainTable[0, cnt] * w(cnt);
      if out.Length0 > 1 {
        out[1, k] := out[1, k] + grainTable[0, cnt] * w(cnt);
      }
    }

    /** The refill at the end of a grain: copies the `TableLength` file samples from
        the offset the draw `r` selects into the table, in place, and restarts the
        cursor. */
    method Refill(file: seq<real>, r: nat)
      requires Valid() && |file| > GrainSize
      modifies this, grainTable
      ensures Valid() && cnt == 0
      ensures Table() == GrainAt(file, RefillStart(r, |file|))
    {
      var start := RefillStart(r, |file|);
      forall j | 0 <= j < TableLength {
        grainTable[0, j] := file[start + j];
      }
      cnt := 0;
    }

    /** One frame's state change: at the end of the grain the table is refilled;
        otherwise the cursor advances by one. */
    method Advance(file: seq<real>, r: nat)
      requires Valid()
      requires cnt == GrainSize ==> |file| > GrainSize
      modifies this, grainTable
      ensures Valid()
      ensures Value() == Step(old(Value()), file, r)
    {
      if cnt == GrainSize {
        Refill(file, r);
      } else {
        ghost var t := Table();
        cnt := cnt + 1;
        assert Table() == t;
      }
    }

    /** One frame: the voice adds its current addend into frame `k`, just after
        the frames `s ..` it already added (`acc`), and then takes one step; the
        frames added are then `next`, `acc` followed by that addend. */
    method Frame(out: array2<real>, s: nat, k: nat, file: seq<real>, r: nat, w: Window,
                 ghost base: seq<seq<real>>, ghost acc: seq<real>, ghost next: seq<real>)
      requires Valid() && out != grainTable
      requires out.Length0 >= 1 && k == s + |acc| < out.Length1
      requires cnt == GrainSize ==> |file| > GrainSize
      requires Holds(out, base, s, acc)
      requires next == acc + [Addend(Value(), w)]
      modifies this, grainTable, out
      ensures Valid()
      ensures Value() == Step(old(Value()), file, r)
      ensures Holds(out, base, s, next)
    {
      Accumulate(out, k, w);
      Advance(file, r);
      forall ch, j | 0 <= ch < out.Length0 && 0 <= j < out.Length1
        ensures out[ch, j] == base[ch][j] + (if ch <= 1 && s <= j < s + |next| then next[j - s] else 0.0)
      {
      }
    }

    /** Frames `s .. s + i` of a block the voice started in state `v0` are done:
        the voice is `i` steps on and those frames of `out` hold its first `i`
        addends laid over `base`. */
    ghost predicate Rendered(out: array2<real>, s: nat, i: nat, file: seq<real>, rand: seq<nat>, w: Window,
                             v0: Voice, base: seq<seq<real>>)
      reads this, grainTable, out
    {
      Valid() && WellFormed(v0) && i <= |rand| && CanRender(v0, file, i) &&
      Value() == After(v0, file, rand, i) && Holds(out, base, s, Output(v0, file, rand, w, i))
    }

    /** Frame `i` of a block the voice started in state `v0`. */
    method RenderFrame(out: array2<real>, s: nat, i: nat, file: seq<real>, rand: seq<nat>, w: Window,
                       ghost v0: Voice, ghost base: seq<seq<real>>)
      requires out != grainTable && out.Length0 >= 1 && s + i < out.Length1 && i < |rand|
      requires CanRender(v0, file, i + 1) && Rendered(out, s, i, file, rand, w, v0, base)
      modifies this, grainTable, out
      ensures Rendered(out, s, i + 1, file, rand, w, v0, base)
    {
      OutputSnoc(v0, file, rand, w, i);
      Frame(out, s, s + i, file, rand[i], w, base, Output(v0, file, rand, w, i), Output(v0, file, rand, w, i + 1));
    }

    /** Adds the voice into frames `startSample ..` of channel 0, and of channel 1
        when the buffer has more than one channel, for as many frames as the buffer
        holds; refills the table from `file` whenever the cursor reaches GrainSize.
        `rand[i]` is the random draw a refill on frame i uses. */
    method GetNext(out: array2<real>, info: ChannelInfo, file: seq<real>, rand: seq<nat>, w: Window)
      requires Valid() && out != grainTable
      requires out.Length0 >= 1
      requires info.startSample + out.Length1 <= out.Length1
      requires |rand| >= out.Length1
      requires cnt + out.Length1 > GrainSize ==> |file| > GrainSize
      modifies this, grainTable, out
      ensures Valid()
      ensures Value() == After(old(Value()), file, rand, out.Length1)
      ensures Holds(out, old(Snapshot(out)), info.startSample, Output(old(Value()), file, rand, w, out.Length1))
    {
      var signalVecSize := out.Length1;
      var s := info.startSample;
      ghost var v0 := Value();
      ghost var base := Snapshot(out);
      var i := 0;
      while i < signalVecSize
        invariant 0 <= i <= signalVecSize
        invariant Rendered(out, s, i, file, rand, w, v0, base)
      {
        RenderFrame(out, s, i, file, rand, w, v0, base);
        i := i + 1;
      }
    }
  }
}
