/**
 * Arithmetic on interleaved sample counts: a frame is one sample per channel.
 *
 * Sample and frame counts are related through `Samples` (frames times channels) and `FramesIn`
 * (samples divided by channels, rounded down), defined by repeated addition and subtraction. The
 * lemmas below give the facts the provider needs about them, and `SamplesIsProduct` and
 * `FramesInIsQuotient` tie them to integer multiplication, division and remainder, which on
 * these non-negative counts agree with the host language's truncating operators.
 */
module Frames {

  /** `frames` whole frames of `channels` interleaved samples each, counted in samples. */
  function Samples(frames: nat, channels: nat): nat
    decreases frames
  {
    if frames == 0 then 0 else Samples(frames - 1, channels) + channels
  }

  /** The whole frames among `samples` interleaved samples, a partial last frame dropped. */
  function FramesIn(samples: nat, channels: nat): nat
    requires channels > 0
    decreases samples
  {
    if samples < channels then 0 else FramesIn(samples - channels, channels) + 1
  }

  /** `samples` interleaved samples make up whole frames, with no partial frame left over. */
  predicate Whole(samples: nat, channels: nat)
    requires channels > 0
  {
    Samples(FramesIn(samples, channels), channels) == samples
  }

  lemma MulAtLeast(k: int, c: int)
    requires k >= 1 && c > 0
    ensures k * c >= c
  {
    assert k * c == (k - 1) * c + c;
    assert (k - 1) * c >= 0;
  }

  /** Euclidean division is determined by any quotient and remainder in range. */
  lemma DivUnique(q: int, r: int, c: int)
    requires c > 0 && 0 <= r < c
    ensures (q * c + r) / c == q
    ensures (q * c + r) % c == r
  {
    var x := q * c + r;
    var q', r' := x / c, x % c;
    assert x == q' * c + r';
    assert (q - q') * c == r' - r;
    if q > q' {
      MulAtLeast(q - q', c);
    } else if q < q' {
      MulAtLeast(q' - q, c);
    }
  }

  /** `Samples` is multiplication. */
  lemma {:induction false} SamplesIsProduct(frames: nat, channels: nat)
    ensures Samples(frames, channels) == frames * channels
    decreases frames
  {
    if frames > 0 {
      SamplesIsProduct(frames - 1, channels);
      assert frames * channels == (frames - 1) * channels + channels;
    }
  }

  /** Rounding down to whole frames loses less than one frame. */
  lemma {:induction false} FramesInWithin(samples: nat, channels: nat)
    requires channels > 0
    ensures Samples(FramesIn(samples, channels), channels) <= samples
    ensures samples < Samples(FramesIn(samples, channels), channels) + channels
    decreases samples
  {
    if samples >= channels {
      FramesInWithin(samples - channels, channels);
    }
  }

  /** `FramesIn` is the integer quotient, and `Whole` says the remainder is zero. */
  lemma FramesInIsQuotient(samples: nat, channels: nat)
    requires channels > 0
    ensures FramesIn(samples, channels) == samples / channels
    ensures Whole(samples, channels) <==> samples % channels == 0
  {
    var k := FramesIn(samples, channels);
    FramesInWithin(samples, channels);
    SamplesIsProduct(k, channels);
    DivUnique(k, samples - Samples(k, channels), channels);
  }

  /** Frame counts add up to sample counts. */
  lemma {:induction false} SamplesAdd(a: nat, b: nat, channels: nat)
    ensures Samples(a + b, channels) == Samples(a, channels) + Samples(b, channels)
    decreases b
  {
    if b > 0 {
      SamplesAdd(a, b - 1, channels);
    }
  }

  /** Fewer frames are fewer samples, and with at least one channel strictly so. */
  lemma SamplesMono(a: nat, b: nat, channels: nat)
    requires a <= b
    ensures Samples(a, channels) <= Samples(b, channels)
    ensures channels > 0 && a < b ==> Samples(a, channels) < Samples(b, channels)
  {
    SamplesAdd(a, b - a, channels);
    if b - a > 0 {
      assert Samples(b - a, channels) == Samples(b - a - 1, channels) + channels;
    }
  }

  /** Counting the frames of whole frames gives them back. */
  lemma {:induction false} FramesOfSamples(frames: nat, channels: nat)
    requires channels > 0
    ensures FramesIn(Samples(frames, channels), channels) == frames
    ensures Whole(Samples(frames, channels), channels)
    decreases frames
  {
    if frames > 0 {
      FramesOfSamples(frames - 1, channels);
      assert Samples(frames, channels) - channels == Samples(frames - 1, channels);
    }
  }

  /** Rounding down to whole frames gives whole frames. */
  lemma WholeFramesWithin(samples: nat, channels: nat)
    requires channels > 0
    ensures Samples(FramesIn(samples, channels), channels) <= samples
    ensures Whole(Samples(FramesIn(samples, channels), channels), channels)
  {
    FramesInWithin(samples, channels);
    FramesOfSamples(FramesIn(samples, channels), channels);
  }

  /** Two whole-frame counts add up to a whole-frame count. */
  lemma AddWhole(a: nat, b: nat, channels: nat)
    requires channels > 0 && Whole(a, channels) && Whole(b, channels)
    ensures Whole(a + b, channels)
  {
    var fa, fb := FramesIn(a, channels), FramesIn(b, channels);
    SamplesAdd(fa, fb, channels);
    FramesOfSamples(fa + fb, channels);
  }

  /** Taking a whole-frame count from a larger one leaves a whole-frame count. */
  lemma DropWhole(a: nat, b: nat, channels: nat)
    requires channels > 0 && Whole(a, channels) && Whole(b, channels) && b <= a
    ensures Whole(a - b, channels)
  {
    var fa, fb := FramesIn(a, channels), FramesIn(b, channels);
    if fa < fb {
      SamplesMono(fa, fb, channels);
    }
    SamplesAdd(fb, fa - fb, channels);
    FramesOfSamples(fa - fb, channels);
  }

  /** Between two whole-frame counts, the smaller below the larger, lies at least one whole frame. */
  lemma FramesBetween(count: nat, done: nat, channels: nat)
    requires channels > 0 && Whole(count, channels) && Whole(done, channels) && done < count
    ensures FramesIn(count - done, channels) >= 1
    ensures Samples(FramesIn(count - done, channels), channels) == count - done
  {
    DropWhole(count, done, channels);
  }

  /** A frame count no larger than the whole frames under `limit` fits, in samples, under `limit`. */
  lemma FramesFit(frames: nat, limit: nat, channels: nat)
    requires channels > 0 && frames <= FramesIn(limit, channels)
    ensures Samples(frames, channels) <= limit
  {
    SamplesMono(frames, FramesIn(limit, channels), channels);
    FramesInWithin(limit, channels);
  }
}
