/** The render side of the synthesizer component: the fixed ensemble of grain
    voices with staggered starting cursors, the loaded file and its ready flag,
    and the per-block render gate that clears the block and lets every voice add
    into it in index order. */
module Engine {
  import opened Grain
  import opened Oscillator

  /** Number of voices in the ensemble. */
  const NumOsc: nat := 5

  datatype Option<T> = None | Some(value: T)

  /** The initial cursor of voice `i`: an equal share of the grain per voice. */
  function Stagger(i: nat): nat
  {
    (GrainSize / NumOsc) * i
  }

  /** With any grain length and voice count, every staggered cursor lies strictly
      inside the grain. */
  lemma StaggerBelowGrain(g: nat, n: nat, i: nat)
    requires 0 < g && i < n
    ensures (g / n) * i < g
  {
    var q := g / n;
    assert q * n <= g;
    assert q * i <= q * (n - 1) by {
      MulMonotone(q, i, n - 1);
    }
  }

  /** With any grain length and voice count, later voices start no earlier. */
  lemma StaggerMonotone(g: nat, n: nat, i: nat, j: nat)
    requires 0 < n && i <= j
    ensures (g / n) * i <= (g / n) * j
  {
    MulMonotone(g / n, i, j);
  }

  /** Multiplying by a natural number preserves order. */
  lemma MulMonotone(q: nat, i: nat, j: nat)
    requires i <= j
    ensures q * i <= q * j
  {
    assert q * j == q * i + q * (j - i);
  }

  /** The voices' cursors are staggered as at construction, `t` frames later. */
  predicate Staggered(vs: seq<Voice>, t: nat)
  {
    |vs| == NumOsc && forall k :: 0 <= k < NumOsc ==> vs[k].cnt == (Stagger(k) + t) % TableLength
  }

  /** Staggered voices never share a cursor, so no two of them reach the end of
      their grain, and refill, on the same frame. */
  lemma StaggeredCursorsDistinct(vs: seq<Voice>, t: nat, a: nat, b: nat)
    requires Staggered(vs, t) && a < b < NumOsc
    ensures vs[a].cnt != vs[b].cnt
  {
    StaggerBelowGrain(GrainSize, NumOsc, b);
    StaggerMonotone(GrainSize, NumOsc, a + 1, b);
    ModDistinct(Stagger(a) + t, Stagger(b) - Stagger(a));
  }

  /** Shifting by less than the table length changes the position in the table. */
  lemma ModDistinct(x: nat, d: nat)
    requires 0 < d < TableLength
    ensures x % TableLength != (x + d) % TableLength
  {
  }

  /** Rendering a block of `n` frames keeps the ensemble staggered, `n` frames on. */
  lemma {:induction false} EnsembleStaysStaggered(vs: seq<Voice>, file: seq<real>, rands: seq<seq<nat>>, n: nat, t: nat)
    requires EnsembleCanRender(vs, file, rands, n) && Staggered(vs, t)
    ensures Staggered(seq(NumOsc, k requires 0 <= k < NumOsc => After(vs[k], file, rands[k], n)), t + n)
  {
    forall k | 0 <= k < NumOsc
      ensures After(vs[k], file, rands[k], n).cnt == (Stagger(k) + t + n) % TableLength
    {
      CursorAfter(vs[k], file, rands[k], n);
      ModAdd(Stagger(k) + t, n);
    }
  }

  class Synth {
    /** The voices, in the order they are mixed. */
    const oscs: array<GrainOscillator>
    /** Channel 0 of the loaded recording. */
    var fileBuffer: seq<real>
    /** Set once a file has been loaded. */
    var fileBufferReady: bool

    /** The voices and their grain tables: what rendering changes. */
    ghost var Repr: set<object>

    ghost predicate Valid()
      reads this, oscs, Repr
    {
      oscs.Length == NumOsc && this !in Repr && oscs !in Repr &&
      (forall k :: 0 <= k < NumOsc ==> oscs[k] in Repr && oscs[k].grainTable in Repr && oscs[k].Valid()) &&
      (forall a, b :: 0 <= a < b < NumOsc ==> oscs[a] != oscs[b] && oscs[a].grainTable != oscs[b].grainTable)
    }

    /** The abstract states of the voices, in index order. */
    ghost function Voices(): (vs: seq<Voice>)
      reads this, oscs, Repr
      requires Valid()
      ensures |vs| == NumOsc && forall k :: 0 <= k < NumOsc ==> vs[k] == oscs[k].Value()
    {
      seq(NumOsc, k requires 0 <= k < NumOsc && oscs.Length == NumOsc && oscs[k].Valid()
                    reads oscs, (if 0 <= k < oscs.Length then {oscs[k] as object, oscs[k].grainTable} else {})
                    => oscs[k].Value())
    }

    /** A fresh component: no file loaded, and voice i's cursor at `Stagger(i)`. */
    constructor ()
      ensures Valid() && fresh(oscs) && fresh(Repr)
      ensures fileBuffer == [] && !fileBufferReady
      ensures forall k :: 0 <= k < NumOsc ==> oscs[k].cnt == Stagger(k)
      ensures Staggered(Voices(), 0)
    {
      var vs: seq<GrainOscillator> := [];
      while |vs| < NumOsc
        invariant |vs| <= NumOsc
        invariant forall k :: 0 <= k < |vs| ==> fresh(vs[k]) && fresh(vs[k].grainTable) && vs[k].Valid()
        invariant forall a, b :: 0 <= a < b < |vs| ==> vs[a] != vs[b] && vs[a].grainTable != vs[b].grainTable
      {
        var g := new GrainOscillator();
        vs := vs + [g];
      }
      oscs := new GrainOscillator[NumOsc](k requires 0 <= k < NumOsc => vs[k]);
      ghost var repr := (set k | 0 <= k < NumOsc :: vs[k] as object) + (set k | 0 <= k < NumOsc :: vs[k].grainTable as object);
      assert fresh(repr);
      Repr := repr;
      fileBuffer := [];
      fileBufferReady := false;
      new;
      StaggerVoices();
    }

    /** Spreads the voices over the grain: voice i's cursor goes to `Stagger(i)`, so
        no two voices refill on the same frame. Only the cursors change. */
    method StaggerVoices()
      requires Valid()
      modifies Repr
      ensures Valid()
      ensures forall k :: 0 <= k < NumOsc ==> oscs[k].cnt == Stagger(k)
      ensures forall k :: 0 <= k < NumOsc ==> oscs[k].Table() == old(oscs[k].Table())
      ensures Staggered(Voices(), 0)
    {
      for i := 0 to NumOsc
        invariant Valid()
        invariant forall k :: 0 <= k < i ==> oscs[k].cnt == Stagger(k)
        invariant forall k :: 0 <= k < NumOsc ==> oscs[k].Table() == old(oscs[k].Table())
      {
        StaggerBelowGrain(GrainSize, NumOsc, i);
        oscs[i].cnt := (GrainSize / NumOsc) * i;
      }
      ghost var vals := Voices();
      forall k | 0 <= k < NumOsc
        ensures vals[k].cnt == (Stagger(k) + 0) % TableLength
      {
        StaggerBelowGrain(GrainSize, NumOsc, k);
        ModBelow(Stagger(k), TableLength);
      }
    }

    /** A completed load replaces the file and marks it ready; a cancelled or failed
        load (`None`) changes nothing. */
    method LoadFile(decoded: Option<seq<real>>)
      requires Valid()
      modifies this
      ensures Valid() && Voices() == old(Voices()) && Repr == old(Repr)
      ensures decoded.Some? ==> fileBuffer == decoded.value && fileBufferReady
      ensures decoded.None? ==> fileBuffer == old(fileBuffer) && fileBufferReady == old(fileBufferReady)
    {
      if decoded.Some? {
        fileBuffer := decoded.value;
        fileBufferReady := true;
      }
    }

    /** Lets voice `k` add its output for the block on top of what the voices before
        it added (`acc`); the other voices keep their state. */
    method AddVoice(k: nat, out: array2<real>, info: ChannelInfo, rand: seq<nat>, w: Window,
                    ghost base: seq<seq<real>>, ghost acc: seq<real>)
      requires Valid() && k < NumOsc
      requires out !in Repr
      requires out.Length0 >= 1 && info.startSample + out.Length1 <= out.Length1 && |rand| >= out.Length1
      requires CanRender(oscs[k].Value(), fileBuffer, out.Length1)
      requires |acc| == out.Length1 && Holds(out, base, info.startSample, acc)
      modifies oscs[k], oscs[k].grainTable, out
      ensures Valid()
      ensures Voices() == old(Voices())[k := After(old(Voices())[k], fileBuffer, rand, out.Length1)]
      ensures Holds(out, base, info.startSample, Sum(acc, Output(old(Voices())[k], fileBuffer, rand, w, out.Length1)))
    {
      oscs[k].GetNext(out, info, fileBuffer, rand, w);
    }

    /** Zeroes frames `[startSample, startSample + numSamples)` of every channel. */
    method ClearActiveRegion(out: array2<real>, info: ChannelInfo)
      requires info.startSample + info.numSamples <= out.Length1
      modifies out
      ensures forall ch, i {:trigger out[ch, i]} :: 0 <= ch < out.Length0 && 0 <= i < out.Length1 ==>
        out[ch, i] == if info.startSample <= i < info.startSample + info.numSamples then 0.0 else old(out[ch, i])
    {
      forall ch, i | 0 <= ch < out.Length0 && info.startSample <= i < info.startSample + info.numSamples {
        out[ch, i] := 0.0;
      }
    }

    /** Lets every voice, in index order, add its output for the block into channels
        0 and 1, which then have gained the mix of all voices. */
    method MixVoices(out: array2<real>, info: ChannelInfo, rands: seq<seq<nat>>, w: Window)
      requires Valid()
      requires out !in Repr
      requires out.Length0 >= 1 && info.startSample + out.Length1 <= out.Length1
      requires EnsembleCanRender(Voices(), fileBuffer, rands, out.Length1)
      modifies Repr, out
      ensures Valid()
      ensures Voices() == Progress(old(Voices()), fileBuffer, rands, out.Length1, NumOsc)
      ensures Holds(out, old(Snapshot(out)), info.startSample, Mix(old(Voices()), fileBuffer, rands, w, out.Length1))
    {
      var s, n := info.startSample, out.Length1;
      ghost var vs0 := Voices();
      ghost var base := Snapshot(out);
      ghost var acc := Silence(n);
      var k := 0;
      while k < NumOsc
        invariant 0 <= k <= NumOsc
        invariant Valid()
        invariant Voices() == Progress(vs0, fileBuffer, rands, n, k)
        invariant acc == MixPrefix(vs0, fileBuffer, rands, w, n, k)
        invariant Holds(out, base, s, acc)
      {
        MixPrefixStep(vs0, fileBuffer, rands, w, n, k);
        ProgressStep(vs0, fileBuffer, rands, n, k);
        AddVoice(k, out, info, rands[k], w, base, acc);
        acc := Sum(acc, Output(vs0[k], fileBuffer, rands[k], w, n));
        k := k + 1;
      }
      MixPrefixAll(vs0, fileBuffer, rands, w, n);
      assert acc == Mix(old(Voices()), fileBuffer, rands, w, n);
    }

    /** One audio block. Without a loaded file (or with a malformed voice-0 table)
        nothing changes. Otherwise the active region is cleared in every channel,
        then each voice in index order adds its output for the block into channels
        0 and 1, so those channels end up holding the mix of all voices. */
    method Render(out: array2<real>, info: ChannelInfo, rands: seq<seq<nat>>, w: Window)
      requires Valid()
      requires out !in Repr
      requires |rands| == NumOsc && forall k :: 0 <= k < NumOsc ==> |rands[k]| >= out.Length1
      requires fileBufferReady ==> out.Length0 >= 1
      requires fileBufferReady ==> info.startSample + info.numSamples <= out.Length1
      requires fileBufferReady ==> info.startSample + out.Length1 <= out.Length1
      requires fileBufferReady ==>
        forall k :: 0 <= k < NumOsc ==> oscs[k].cnt + out.Length1 > GrainSize ==> |fileBuffer| > GrainSize
      modifies Repr, out
      ensures Valid()
      ensures !fileBufferReady ==> unchanged(out) && Voices() == old(Voices())
      ensures fileBufferReady ==> EnsembleCanRender(old(Voices()), fileBuffer, rands, out.Length1)
      ensures fileBufferReady ==>
        forall k :: 0 <= k < NumOsc ==> Voices()[k] == After(old(Voices())[k], fileBuffer, rands[k], out.Length1)
      ensures fileBufferReady ==>
        var m := Mix(old(Voices()), fileBuffer, rands, w, out.Length1);
        forall ch, i {:trigger out[ch, i]} :: 0 <= ch < out.Length0 && 0 <= i < out.Length1 ==>
          out[ch, i] == (if info.startSample <= i < info.startSample + info.numSamples then 0.0 else old(out[ch, i]))
                        + (if ch <= 1 && info.startSample <= i then m[i - info.startSample] else 0.0)
    {
      if !fileBufferReady || oscs[0].grainTable.Length0 != 1 {
        return;
      }
      assert EnsembleCanRender(Voices(), fileBuffer, rands, out.Length1);
      ghost var before := Snapshot(out);
      ClearActiveRegion(out, info);
      ghost var cleared := Snapshot(out);
      MixVoices(out, info, rands, w);
      ghost var m := Mix(old(Voices()), fileBuffer, rands, w, out.Length1);
      forall ch, i | 0 <= ch < out.Length0 && 0 <= i < out.Length1
        ensures out[ch, i] == (if info.startSample <= i < info.startSample + info.numSamples then 0.0 else before[ch][i])
                              + (if ch <= 1 && info.startSample <= i then m[i - info.startSample] else 0.0)
      {
        assert cleared[ch][i] == if info.startSample <= i < info.startSample + info.numSamples then 0.0 else before[ch][i];
      }
    }
  }
}
