/**
  Audio clips as the engine's audio library (pydub) presents them to the renderer:
  a clip is a sequence of samples at one sample per millisecond, so that the length
  of a clip is its duration in milliseconds. Only the operations the renderer uses
  are modelled: silence, slicing, repetition and overlay. Gain, the low-pass filter
  and the fades are library internals; they appear as maps that keep the length.
*/
module Audio {

  /** A mono clip, one sample per millisecond. */
  type Clip = seq<int>

  /** A clip-to-clip effect (the low-pass filter) that keeps the duration. */
  type ClipMap = f: Clip -> Clip | forall c: Clip :: |f(c)| == |c|
    witness (c: Clip) => c

  /** Adding a gain for a linear volume (`clip + db_from_volume(vol)`); keeps the duration. */
  type GainMap = g: (Clip, real) -> Clip | forall c: Clip, v: real :: |g(c, v)| == |c|
    witness (c: Clip, v: real) => c

  /** A fade-in or fade-out over a number of milliseconds; keeps the duration. */
  type FadeMap = f: (Clip, nat) -> Clip | forall c: Clip, ms: nat :: |f(c, ms)| == |c|
    witness (c: Clip, ms: nat) => c

  /** `AudioSegment.silent(duration=ms)`. */
  function Silent(ms: nat): (r: Clip)
    ensures |r| == ms
    ensures forall i :: 0 <= i < |r| ==> r[i] == 0
  {
    seq(ms, _ => 0)
  }

  /** `clip[:n]`: the first n milliseconds, or the whole clip when it is shorter. */
  function Take(c: Clip, n: nat): (r: Clip)
    ensures |r| == if n < |c| then n else |c|
    ensures r <= c
  {
    if n < |c| then c[..n] else c
  }

  /** `clip * k`: the clip played k times back to back. */
  function Repeat(c: Clip, k: nat): Clip
  {
    if k == 0 then [] else Repeat(c, k - 1) + c
  }

  lemma {:induction false} RepeatLength(c: Clip, k: nat)
    ensures |Repeat(c, k)| == k * |c|
  {
    if k > 0 {
      RepeatLength(c, k - 1);
      calc {
        |Repeat(c, k)|;
        |Repeat(c, k - 1)| + |c|;
        (k - 1) * |c| + |c|;
        { assert (k - 1) * |c| + |c| == k * |c|; }
        k * |c|;
      }
    }
  }

  /** Every sample of a repeated clip is the source sample at the same offset modulo its length. */
  lemma {:induction false} RepeatAt(c: Clip, k: nat, i: nat)
    requires i < |Repeat(c, k)|
    ensures |c| > 0 && Repeat(c, k)[i] == c[i % |c|]
  {
    RepeatLength(c, k);
    assert k > 0;
    RepeatLength(c, k - 1);
    var before := (k - 1) * |c|;
    if i < before {
      RepeatAt(c, k - 1, i);
    } else {
      assert |c| > 0;
      var j := i - before;
      assert 0 <= j < |c|;
      assert Repeat(c, k)[i] == c[j];
      ModuloShift(i, k - 1, |c|);
    }
  }

  /** The remainder of i by n is the offset of i within its block [q * n, q * n + n). */
  lemma ModuloShift(i: nat, q: nat, n: nat)
    requires n > 0 && q * n <= i < q * n + n
    ensures i % n == i - q * n
  {
    var q', r' := i / n, i % n;
    assert i == q' * n + r' && 0 <= r' < n;
    if q' < q {
      assert (q - q') * n >= n by { MulAtLeast(q - q', n); }
      assert false;
    } else if q' > q {
      assert (q' - q) * n >= n by { MulAtLeast(q' - q, n); }
      assert false;
    }
  }

  /** The quotient of two naturals is a natural. */
  lemma QuotientIsNat(a: nat, b: nat)
    requires b > 0
    ensures a / b >= 0
  {
  }

  lemma MulAtLeast(a: int, n: nat)
    requires a >= 1
    ensures a * n >= n
  {
  }

  /**
    The loop-and-slice of a background-music source to an exact duration:
    `bgm * (duration // len(bgm) + 1)` followed by `[:duration]`.
  */
  function Loop(source: Clip, duration: nat): Clip
    requires |source| > 0
  {
    Take(Repeat(source, duration / |source| + 1), duration)
  }

  /**
    Looping always yields exactly the requested duration, whatever the source's own
    length, and sample i of the result is sample i modulo the source length.
  */
  lemma LoopIsExact(source: Clip, duration: nat)
    requires |source| > 0
    ensures |Loop(source, duration)| == duration
    ensures forall i :: 0 <= i < duration ==> Loop(source, duration)[i] == source[i % |source|]
  {
    var n := |source|;
    var k := duration / n + 1;
    RepeatLength(source, k);
    assert duration == (duration / n) * n + duration % n;
    assert k * n == (duration / n) * n + n;
    assert duration < k * n;
    forall i | 0 <= i < duration
      ensures Loop(source, duration)[i] == source[i % n]
    {
      RepeatAt(source, k, i);
    }
  }

  /**
    `base.overlay(clip, position=pos)`: the clip is mixed sample by sample onto the
    base from pos on; the result keeps the base's length, so whatever of the clip
    runs past the end of the base is dropped.
  */
  function Overlay(base: Clip, clip: Clip, pos: nat): (r: Clip)
    ensures |r| == |base|
    ensures forall i :: 0 <= i < |base| && (i < pos || pos + |clip| <= i) ==> r[i] == base[i]
    ensures forall i :: pos <= i < |base| && i < pos + |clip| ==> r[i] == base[i] + clip[i - pos]
  {
    seq(|base|, i requires 0 <= i < |base| =>
      if pos <= i < pos + |clip| then base[i] + clip[i - pos] else base[i])
  }
}
