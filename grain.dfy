/** The abstract behaviour of one grain voice and of the ensemble mix, as values.
    A voice is its read cursor and its one-channel grain table; `Step` is what one
    output frame does to it, `After` is the state after a run of frames, `Output`
    is what the voice adds into the block frame by frame, and `Mix` is the sum of
    the outputs of several voices. The imperative classes in the other modules are
    proved against these functions. */
module Grain {

  /** Length of one grain in frames (half a second at 44.1 kHz). */
  const GrainSize: nat := 44100 / 2

  /** A grain table holds one sample more than a grain. */
  const TableLength: nat := GrainSize + 1

  /** The Hann window gain for a cursor value; the model leaves it uninterpreted. */
  type Window = int -> real

  /** The state of one voice: read cursor and the samples of its grain table. */
  datatype Voice = Voice(cnt: int, table: seq<real>)

  /** The cursor lies in [0, GrainSize] and the table was never resized. */
  predicate WellFormed(v: Voice)
  {
    0 <= v.cnt <= GrainSize && |v.table| == TableLength
  }

  /** A voice starting at cursor `v.cnt` reaches a refill within `n` frames exactly
      when `v.cnt + n > GrainSize`; each refill needs a file longer than a grain. */
  predicate CanRender(v: Voice, file: seq<real>, n: nat)
  {
    v.cnt + n > GrainSize ==> |file| > GrainSize
  }

  /** The refill offset as the source computes it: the random draw modulo the
      file length. It stays inside the file but the grain copied from it may not. */
  function SourceStart(r: nat, fileLength: nat): (start: nat)
    requires fileLength > 0
    ensures start < fileLength
  {
    r % fileLength
  }

  /** For every file length, some draw makes the source's offset overrun the file
      when a whole grain table is copied from it. */
  lemma SourceStartCanOverrun(fileLength: nat)
    requires fileLength > 0
    ensures SourceStart(fileLength - 1, fileLength) + TableLength > fileLength
  {
  }

  /** The corrected refill offset: the source's offset whenever the grain copied
      from it fits in the file, and otherwise the draw modulo `fileLength -
      GrainSize`, so the copied grain always fits. */
  function RefillStart(r: nat, fileLength: nat): (start: nat)
    requires fileLength > GrainSize
    ensures start + TableLength <= fileLength
    ensures SourceStart(r, fileLength) + TableLength <= fileLength ==> start == SourceStart(r, fileLength)
    ensures r < fileLength - GrainSize ==> start == r
  {
    var s := SourceStart(r, fileLength);
    if r < fileLength - GrainSize then ModBelow(r, fileLength); s
    else if s + TableLength <= fileLength then s
    else r % (fileLength - GrainSize)
  }

  /** The corrected refill and the source reach exactly the same in-bounds
      offsets: every corrected offset is the source's offset for the draw equal to
      it, and every in-bounds offset is the corrected offset for that same draw. */
  lemma RefillStartIsSourceStart(r: nat, fileLength: nat)
    requires fileLength > GrainSize
    ensures SourceStart(RefillStart(r, fileLength), fileLength) == RefillStart(r, fileLength)
    ensures forall s: nat {:trigger RefillStart(s, fileLength)} ::
      s + TableLength <= fileLength ==> RefillStart(s, fileLength) == s
  {
    ModBelow(RefillStart(r, fileLength), fileLength);
  }

  /** A number below the modulus is its own remainder. */
  lemma ModBelow(x: nat, m: nat)
    requires x < m
    ensures x % m == x
  {
    var q := x / m;
    assert x == q * m + x % m;
  }

  /** One output frame: a voice at the end of its grain refills its table from the
      file at a random offset and restarts at 0; otherwise its cursor advances. */
  function Step(v: Voice, file: seq<real>, r: nat): (next: Voice)
    requires WellFormed(v)
    requires v.cnt == GrainSize ==> |file| > GrainSize
    ensures WellFormed(next)
  {
    if v.cnt == GrainSize then
      var start := RefillStart(r, |file|);
      Voice(0, GrainAt(file, start))
    else
      Voice(v.cnt + 1, v.table)
  }

  /** The voice after `n` frames; frame i draws `rand[i]` if it refills. */
  function After(v: Voice, file: seq<real>, rand: seq<nat>, n: nat): (w: Voice)
    requires WellFormed(v) && n <= |rand| && CanRender(v, file, n)
    ensures WellFormed(w)
    ensures v.cnt + n <= GrainSize ==> w == Voice(v.cnt + n, v.table)
    decreases n
  {
    if n == 0 then v else Step(After(v, file, rand, n - 1), file, rand[n - 1])
  }

  /** What a voice in state `v` adds into the output on one frame. */
  function Addend(v: Voice, w: Window): real
    requires WellFormed(v)
  {
    v.table[v.cnt] * w(v.cnt)
  }

  /** What the voice adds into the first `n` frames of a block: frame i receives
      the addend of the state the voice reaches after i frames. */
  function Output(v: Voice, file: seq<real>, rand: seq<nat>, w: Window, n: nat): (out: seq<real>)
    requires WellFormed(v) && n <= |rand| && CanRender(v, file, n)
    ensures |out| == n
  {
    seq(n, i requires 0 <= i < n => Addend(After(v, file, rand, i), w))
  }

  /** One more frame appends the addend of the state reached so far. */
  lemma OutputSnoc(v: Voice, file: seq<real>, rand: seq<nat>, w: Window, n: nat)
    requires WellFormed(v) && n < |rand| && CanRender(v, file, n + 1)
    ensures Output(v, file, rand, w, n + 1) == Output(v, file, rand, w, n) + [Addend(After(v, file, rand, n), w)]
  {
    var longer, shorter := Output(v, file, rand, w, n + 1), Output(v, file, rand, w, n);
    assert forall i :: 0 <= i < n ==> longer[i] == shorter[i];
  }

  /** One frame moves the cursor one place on, modulo the table length. */
  lemma StepCursor(v: Voice, file: seq<real>, r: nat)
    requires WellFormed(v) && (v.cnt == GrainSize ==> |file| > GrainSize)
    ensures Step(v, file, r).cnt == (v.cnt + 1) % TableLength
  {
    if v.cnt == GrainSize {
      ModUnique(v.cnt + 1, 1, 0);
    } else {
      ModUnique(v.cnt + 1, 0, v.cnt + 1);
    }
  }

  /** Advancing a table position by `n` is advancing the unreduced count by `n`. */
  lemma ModAdd(x: nat, n: nat)
    ensures (x % TableLength + n) % TableLength == (x + n) % TableLength
  {
    var q := x / TableLength;
    assert x == q * TableLength + x % TableLength;
    ModShift(x % TableLength + n, q);
  }

  /** Adding a whole number of tables does not change the position in the table. */
  lemma ModShift(y: nat, q: nat)
    ensures (y + q * TableLength) % TableLength == y % TableLength
  {
    var z := y + q * TableLength;
    var d, r := y / TableLength, y % TableLength;
    assert y == d * TableLength + r;
    assert z == (d + q) * TableLength + r;
    ModUnique(z, d + q, r);
  }

  /** The remainder of `a * TableLength + r`, for `r` in range, is `r`. */
  lemma ModUnique(z: int, a: int, r: int)
    requires 0 <= r < TableLength && z == a * TableLength + r
    ensures z % TableLength == r
  {
  }

  /** The cursor after `n` frames is `(v.cnt + n) mod (GrainSize + 1)`: it advances
      by one per frame and wraps to 0 only on the frame after it equals GrainSize. */
  lemma {:induction false} CursorAfter(v: Voice, file: seq<real>, rand: seq<nat>, n: nat)
    requires WellFormed(v) && n <= |rand| && CanRender(v, file, n)
    ensures After(v, file, rand, n).cnt == (v.cnt + n) % TableLength
  {
    if n > 0 {
      CursorAfter(v, file, rand, n - 1);
      StepCursor(After(v, file, rand, n - 1), file, rand[n - 1]);
      ModAdd(v.cnt + n - 1, 1);
    }
  }

  /** Running `a` frames and then `b` more leaves the voice where running `a + b`
      frames at once does: block boundaries are invisible to a voice. */
  lemma {:induction false} AfterSplit(v: Voice, file: seq<real>, rand: seq<nat>, a: nat, b: nat)
    requires WellFormed(v) && a + b <= |rand| && CanRender(v, file, a + b)
    ensures CanRender(After(v, file, rand, a), file, b)
    ensures After(v, file, rand, a + b) == After(After(v, file, rand, a), file, rand[a..], b)
    decreases b
  {
    if b > 0 {
      AfterSplit(v, file, rand, a, b - 1);
      assert rand[a..][b - 1] == rand[a + b - 1];
    }
  }

  /** The state after `i` frames is the state reached from the one after `a <= i`
      frames by the remaining `i - a` frames. */
  lemma AfterFrom(v: Voice, file: seq<real>, rand: seq<nat>, a: nat, i: nat)
    requires WellFormed(v) && a <= i <= |rand| && CanRender(v, file, i)
    ensures CanRender(After(v, file, rand, a), file, i - a)
    ensures After(v, file, rand, i) == After(After(v, file, rand, a), file, rand[a..], i - a)
  {
    AfterSplit(v, file, rand, a, i - a);
    assert a + (i - a) == i;
  }

  /** Rendering `a + b` frames in one block adds the same samples as rendering `a`
      frames and then `b` frames from where the voice stopped. */
  lemma OutputSplit(v: Voice, file: seq<real>, rand: seq<nat>, w: Window, a: nat, b: nat)
    requires WellFormed(v) && a + b <= |rand| && CanRender(v, file, a + b)
    ensures CanRender(After(v, file, rand, a), file, b)
    ensures Output(v, file, rand, w, a + b)
         == Output(v, file, rand, w, a) + Output(After(v, file, rand, a), file, rand[a..], w, b)
  {
    AfterSplit(v, file, rand, a, b);
    var mid, rest := After(v, file, rand, a), rand[a..];
    var whole, front, tail := Output(v, file, rand, w, a + b), Output(v, file, rand, w, a), Output(mid, file, rest, w, b);
    forall i | 0 <= i < a + b
      ensures whole[i] == (front + tail)[i]
    {
      if i < a {
        assert (front + tail)[i] == front[i];
      } else {
        AfterFrom(v, file, rand, a, i);
        assert (front + tail)[i] == tail[i - a];
      }
    }
    assert whole == front + tail;
  }

  /** A table is a grain of the file: `TableLength` consecutive samples of it. */
  ghost predicate IsGrainOf(table: seq<real>, file: seq<real>)
  {
    exists start: nat :: start + TableLength <= |file| && table == GrainAt(file, start)
  }

  /** The grain of the file that starts at `start`. */
  function GrainAt(file: seq<real>, start: nat): (g: seq<real>)
    requires start + TableLength <= |file|
    ensures |g| == TableLength && forall j :: 0 <= j < TableLength ==> g[j] == file[start + j]
  {
    file[start..start + TableLength]
  }

  /** Once a voice has refilled (it started at `v.cnt` and ran past GrainSize), its
      table is a grain lying wholly inside the file; before that it is untouched. */
  lemma {:induction false} TableIsGrainOfFile(v: Voice, file: seq<real>, rand: seq<nat>, n: nat)
    requires WellFormed(v) && n <= |rand| && CanRender(v, file, n)
    ensures v.cnt + n <= GrainSize ==> After(v, file, rand, n).table == v.table
    ensures v.cnt + n > GrainSize ==> IsGrainOf(After(v, file, rand, n).table, file)
  {
    if n > 0 {
      var prev := After(v, file, rand, n - 1);
      if prev.cnt == GrainSize {
        var start := RefillStart(rand[n - 1], |file|);
        assert After(v, file, rand, n).table == GrainAt(file, start);
      } else {
        TableIsGrainOfFile(v, file, rand, n - 1);
      }
    }
  }

  /** `n` frames of silence. */
  function Silence(n: nat): (z: seq<real>)
    ensures |z| == n && forall i :: 0 <= i < n ==> z[i] == 0.0
  {
    seq(n, _ => 0.0)
  }

  /** Frame-by-frame sum of two blocks of equal length. */
  function Sum(a: seq<real>, b: seq<real>): (s: seq<real>)
    requires |a| == |b|
    ensures |s| == |a| && forall i :: 0 <= i < |a| ==> s[i] == a[i] + b[i]
  {
    seq(|a|, i requires 0 <= i < |a| => a[i] + b[i])
  }

  /** Every voice is well formed, has a draw for each of the `n` frames, and the
      file is long enough for the refills it reaches. */
  predicate EnsembleCanRender(vs: seq<Voice>, file: seq<real>, rands: seq<seq<nat>>, n: nat)
  {
    |rands| == |vs| &&
    forall k :: 0 <= k < |vs| ==> WellFormed(vs[k]) && n <= |rands[k]| && CanRender(vs[k], file, n)
  }

  /** The block the voices `vs` produce together: the sum of their outputs. */
  function Mix(vs: seq<Voice>, file: seq<real>, rands: seq<seq<nat>>, w: Window, n: nat): (m: seq<real>)
    requires EnsembleCanRender(vs, file, rands, n)
    ensures |m| == n
    decreases |vs|
  {
    if |vs| == 0 then Silence(n)
    else
      var last := |vs| - 1;
      Sum(Mix(vs[..last], file, rands[..last], w, n), Output(vs[last], file, rands[last], w, n))
  }

  /** Adding blocks frame by frame is associative. */
  lemma SumAssoc(a: seq<real>, b: seq<real>, c: seq<real>)
    requires |a| == |b| == |c|
    ensures Sum(Sum(a, b), c) == Sum(a, Sum(b, c))
  {
    assert forall i :: 0 <= i < |a| ==> Sum(Sum(a, b), c)[i] == Sum(a, Sum(b, c))[i];
  }

  /** Two ensembles that can each render `n` frames can render them together. */
  lemma EnsembleAppend(vs: seq<Voice>, us: seq<Voice>, file: seq<real>,
                       rands: seq<seq<nat>>, sands: seq<seq<nat>>, n: nat)
    requires EnsembleCanRender(vs, file, rands, n) && EnsembleCanRender(us, file, sands, n)
    ensures EnsembleCanRender(vs + us, file, rands + sands, n)
  {
    var all, allr := vs + us, rands + sands;
    forall k | 0 <= k < |all|
      ensures WellFormed(all[k]) && n <= |allr[k]| && CanRender(all[k], file, n)
    {
      if k < |vs| {
        assert all[k] == vs[k] && allr[k] == rands[k];
      } else {
        assert all[k] == us[k - |vs|] && allr[k] == sands[k - |vs|];
      }
    }
  }

  /** The mix of the first `k` voices of an ensemble. */
  function MixPrefix(vs: seq<Voice>, file: seq<real>, rands: seq<seq<nat>>, w: Window, n: nat, k: nat): (m: seq<real>)
    requires EnsembleCanRender(vs, file, rands, n) && k <= |vs|
    ensures |m| == n
  {
    EnsemblePrefix(vs, file, rands, n, k);
    Mix(vs[..k], file, rands[..k], w, n)
  }

  /** The mix of the first `k + 1` voices adds voice k's output to the mix of the
      first `k`: voices are mixed in index order. */
  lemma MixPrefixStep(vs: seq<Voice>, file: seq<real>, rands: seq<seq<nat>>, w: Window, n: nat, k: nat)
    requires EnsembleCanRender(vs, file, rands, n) && k < |vs|
    ensures MixPrefix(vs, file, rands, w, n, k + 1)
         == Sum(MixPrefix(vs, file, rands, w, n, k), Output(vs[k], file, rands[k], w, n))
  {
    EnsemblePrefix(vs, file, rands, n, k);
    EnsemblePrefix(vs, file, rands, n, k + 1);
    assert vs[..k + 1][..k] == vs[..k] && rands[..k + 1][..k] == rands[..k];
  }

  /** The mix of all the voices of an ensemble is its mix. */
  lemma MixPrefixAll(vs: seq<Voice>, file: seq<real>, rands: seq<seq<nat>>, w: Window, n: nat)
    requires EnsembleCanRender(vs, file, rands, n)
    ensures MixPrefix(vs, file, rands, w, n, |vs|) == Mix(vs, file, rands, w, n)
  {
    assert vs[..|vs|] == vs && rands[..|vs|] == rands;
  }

  /** The ensemble `vs` after its first `k` voices have rendered `n` frames each. */
  function Progress(vs: seq<Voice>, file: seq<real>, rands: seq<seq<nat>>, n: nat, k: nat): (ps: seq<Voice>)
    requires EnsembleCanRender(vs, file, rands, n) && k <= |vs|
    ensures |ps| == |vs|
    ensures forall j :: 0 <= j < |vs| ==> ps[j] == if j < k then After(vs[j], file, rands[j], n) else vs[j]
  {
    seq(|vs|, j requires 0 <= j < |vs| => if j < k then After(vs[j], file, rands[j], n) else vs[j])
  }

  /** Rendering voice k moves the ensemble from `k` rendered voices to `k + 1`. */
  lemma ProgressStep(vs: seq<Voice>, file: seq<real>, rands: seq<seq<nat>>, n: nat, k: nat)
    requires EnsembleCanRender(vs, file, rands, n) && k < |vs|
    ensures Progress(vs, file, rands, n, k)[k] == vs[k]
    ensures Progress(vs, file, rands, n, k + 1)
         == Progress(vs, file, rands, n, k)[k := After(vs[k], file, rands[k], n)]
  {
  }

  /** Dropping the last element of `xs + ys`, with `ys` non-empty, drops it from `ys`. */
  lemma DropLastOfAppend<T>(xs: seq<T>, ys: seq<T>)
    requires |ys| > 0
    ensures (xs + ys)[..|xs + ys| - 1] == xs + ys[..|ys| - 1]
    ensures (xs + ys)[|xs + ys| - 1] == ys[|ys| - 1]
  {
  }

  /** The first `k` voices of an ensemble that can render can render. */
  lemma EnsemblePrefix(vs: seq<Voice>, file: seq<real>, rands: seq<seq<nat>>, n: nat, k: nat)
    requires EnsembleCanRender(vs, file, rands, n) && k <= |vs|
    ensures EnsembleCanRender(vs[..k], file, rands[..k], n)
  {
    assert forall j :: 0 <= j < k ==> vs[..k][j] == vs[j] && rands[..k][j] == rands[j];
  }

  /** Unfolds the mix of `vs + us` at its last voice, which is the last voice of `us`. */
  lemma MixAppendLast(vs: seq<Voice>, us: seq<Voice>, file: seq<real>,
                      rands: seq<seq<nat>>, sands: seq<seq<nat>>, w: Window, n: nat)
    requires EnsembleCanRender(vs, file, rands, n) && EnsembleCanRender(us, file, sands, n)
    requires EnsembleCanRender(vs + us, file, rands + sands, n) && |us| > 0
    ensures EnsembleCanRender(vs + us[..|us| - 1], file, rands + sands[..|us| - 1], n)
    ensures Mix(vs + us, file, rands + sands, w, n)
         == Sum(Mix(vs + us[..|us| - 1], file, rands + sands[..|us| - 1], w, n),
                Output(us[|us| - 1], file, sands[|us| - 1], w, n))
  {
    var all, allr, last := vs + us, rands + sands, |vs + us| - 1;
    DropLastOfAppend(vs, us);
    DropLastOfAppend(rands, sands);
    EnsemblePrefix(all, file, allr, n, last);
    assert all[..last] == vs + us[..|us| - 1] && allr[..last] == rands + sands[..|us| - 1];
    assert Mix(all, file, allr, w, n) == Sum(Mix(all[..last], file, allr[..last], w, n), Output(all[last], file, allr[last], w, n));
  }

  /** Mixing is linear in the ensemble: the mix of two groups of voices is the sum of
      the mixes of each group rendered on its own. */
  lemma {:induction false} MixSplit(vs: seq<Voice>, us: seq<Voice>, file: seq<real>,
                                    rands: seq<seq<nat>>, sands: seq<seq<nat>>, w: Window, n: nat)
    requires EnsembleCanRender(vs, file, rands, n) && EnsembleCanRender(us, file, sands, n)
    ensures EnsembleCanRender(vs + us, file, rands + sands, n)
    ensures Mix(vs + us, file, rands + sands, w, n) == Sum(Mix(vs, file, rands, w, n), Mix(us, file, sands, w, n))
    decreases |us|
  {
    EnsembleAppend(vs, us, file, rands, sands, n);
    var a := Mix(vs, file, rands, w, n);
    if |us| == 0 {
      assert vs + us == vs && rands + sands == rands;
      assert Sum(a, Mix(us, file, sands, w, n)) == a;
    } else {
      var last := |us| - 1;
      EnsemblePrefix(us, file, sands, n, last);
      MixSplit(vs, us[..last], file, rands, sands[..last], w, n);
      MixAppendLast(vs, us, file, rands, sands, w, n);
      SumAssoc(a, Mix(us[..last], file, sands[..last], w, n), Output(us[last], file, sands[last], w, n));
    }
  }
}
