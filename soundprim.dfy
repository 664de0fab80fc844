/** Sound primitives of src/soundprim.rs: finite sample streams and the
    combinators that build them. A stream (`impl Sound`, an iterator of
    samples) is modelled by the finite sequence of the samples it yields;
    samples and gains are exact reals. */
module SoundPrim {
  import opened Util

  const SAMPLE_RATE: real := 44100.0

  /** `mult`: the zip-product of two streams, ending with the shorter one. */
  function Mult(x: seq<real>, y: seq<real>): (r: seq<real>)
    ensures |r| == if |x| <= |y| then |x| else |y|
    ensures forall i :: 0 <= i < |r| ==> r[i] == x[i] * y[i]
  {
    if x == [] || y == [] then [] else [x[0] * y[0]] + Mult(x[1..], y[1..])
  }

  /** `superpos`: zip_longest-sum.  Where both streams have a sample the two
      are added; past the end of the shorter one the longer passes through. */
  function Superpos(x: seq<real>, y: seq<real>): (r: seq<real>)
    ensures |r| == if |x| >= |y| then |x| else |y|
    ensures forall i :: 0 <= i < |x| && 0 <= i < |y| ==> r[i] == x[i] + y[i]
    ensures forall i :: |y| <= i < |x| ==> r[i] == x[i]
    ensures forall i :: |x| <= i < |y| ==> r[i] == y[i]
  {
    if x == [] then y
    else if y == [] then x
    else [x[0] + y[0]] + Superpos(x[1..], y[1..])
  }

  /** `sinewave` with the oscillator's values left abstract: sample `t` is
      `tone(t)` and there are exactly `ticks` of them. */
  function SineWave(tone: nat -> real, ticks: nat): (r: seq<real>)
    ensures |r| == ticks
    ensures forall t :: 0 <= t < ticks ==> r[t] == tone(t)
  {
    seq(ticks, t requires 0 <= t => tone(t))
  }

  /** The point a fraction `f` of the way along a step of `dy` from `y0`. */
  function Lerp(y0: real, dy: real, f: real): real {
    y0 + f * dy
  }

  /** `interpolate_to(y0, y1, t, sample_rate)`: `floor(t * sample_rate)`
      samples, sample `k` being `y0 + (k / ticks) * (y1 - y0)`. A ramp of no
      samples divides by nothing. */
  function InterpolateTo(y0: real, y1: real, t: real, sampleRate: real): (r: seq<real>)
    ensures |r| == Ticks(t * sampleRate)
  {
    var ticks := Ticks(t * sampleRate);
    var dy := y1 - y0;
    seq(ticks, k requires 0 <= k < ticks => Lerp(y0, dy, k as real / ticks as real))
  }

  /** `interpolate_to` is a linear ramp: it starts at `y0`, moves toward `y1`
      by a constant step of `(y1 - y0) / ticks`, and stops one step short of
      `y1`. */
  lemma InterpolateRamp(y0: real, y1: real, t: real, sampleRate: real)
    ensures var r := InterpolateTo(y0, y1, t, sampleRate);
      && (|r| > 0 ==> r[0] == y0)
      && (forall k :: 0 <= k < |r| - 1 ==> r[k + 1] - r[k] == (y1 - y0) / |r| as real)
      && (|r| > 0 ==> r[|r| - 1] + (y1 - y0) / |r| as real == y1)
  {
    var r := InterpolateTo(y0, y1, t, sampleRate);
    var n := |r|;
    if n > 0 {
      LerpStart(y0, y1 - y0, n);
      forall k | 0 <= k < n - 1
        ensures r[k + 1] - r[k] == (y1 - y0) / n as real
      {
        LerpStep(y0, y1 - y0, k, n);
      }
      LerpEnd(y0, y1 - y0, n);
    }
  }

  lemma LerpStart(y0: real, dy: real, n: nat)
    requires n > 0
    ensures Lerp(y0, dy, 0 as real / n as real) == y0
  {
  }

  lemma LerpStep(y0: real, dy: real, k: nat, n: nat)
    requires n > 0
    ensures Lerp(y0, dy, (k + 1) as real / n as real) - Lerp(y0, dy, k as real / n as real) == dy / n as real
  {
    var m := n as real;
    assert (k + 1) as real / m == k as real / m + 1.0 / m;
    assert (k as real / m + 1.0 / m) * dy == (k as real / m) * dy + (1.0 / m) * dy;
    assert (1.0 / m) * dy == dy / m;
  }

  lemma LerpEnd(y0: real, dy: real, n: nat)
    requires n > 0
    ensures Lerp(y0, dy, (n - 1) as real / n as real) + dy / n as real == y0 + dy
  {
    var m := n as real;
    assert (n - 1) as real / m == 1.0 - 1.0 / m;
    assert (1.0 - 1.0 / m) * dy == dy - (1.0 / m) * dy;
    assert (1.0 / m) * dy == dy / m;
  }

  /** Every sample of a ramp lies between its two ends and, unless the
      ramp is flat, none reaches the target `y1`. */
  lemma InterpolateBetween(y0: real, y1: real, t: real, sampleRate: real, k: nat)
    requires k < |InterpolateTo(y0, y1, t, sampleRate)|
    ensures var v := InterpolateTo(y0, y1, t, sampleRate)[k]; y0 < y1 ==> y0 <= v < y1
    ensures var v := InterpolateTo(y0, y1, t, sampleRate)[k]; y1 < y0 ==> y1 < v <= y0
    ensures y0 == y1 ==> InterpolateTo(y0, y1, t, sampleRate)[k] == y0
  {
    var n := Ticks(t * sampleRate);
    assert k as real < n as real;
    LerpRange(y0, y1 - y0, k as real / n as real);
  }

  lemma LerpRange(y0: real, dy: real, f: real)
    requires 0.0 <= f < 1.0
    ensures dy > 0.0 ==> y0 <= Lerp(y0, dy, f) < y0 + dy
    ensures dy < 0.0 ==> y0 + dy < Lerp(y0, dy, f) <= y0
    ensures dy == 0.0 ==> Lerp(y0, dy, f) == y0
  {
    if dy > 0.0 {
      MulStrict(f, 1.0, dy);
      MulWeak(0.0, f, dy);
    } else if dy < 0.0 {
      MulStrict(f, 1.0, -dy);
      MulWeak(0.0, f, -dy);
      assert f * dy == -(f * -dy);
    }
  }

  lemma MulStrict(a: real, b: real, c: real)
    requires a < b && c > 0.0
    ensures a * c < b * c
  {
  }

  lemma MulWeak(a: real, b: real, c: real)
    requires a <= b && c >= 0.0
    ensures a * c <= b * c
  {
  }

  /** The parameters of a four-phase gain curve. The phase lengths are
      fractions of the note's duration; the phase targets are multiplied by
      `amp`. */
  datatype Envelope = Envelope(
    attack: real, attackPlier: real,
    decay: real, decayPlier: real,
    sustain: real, sustainPlier: real,
    release: real,
    sampleRate: real,
    amp: real)

  /** `Envelope::default`: a voice-like ADSR. */
  function Default(): Envelope {
    Envelope(0.1, 1.2, 0.05, 1.0, 0.7, 0.7, 0.15, SAMPLE_RATE, 1.0)
  }

  /** `Envelope::just_release`: no attack, decay or sustain; one ramp from
      the full level down to silence over the whole duration. */
  function JustRelease(): Envelope {
    Default().(attack := 0.0, decay := 0.0, sustain := 0.0, sustainPlier := 1.0, release := 1.0)
  }

  /** `Envelope::fast_release`: an almost instant attack, a long plateau at
      the full level and a short release. */
  function FastRelease(): Envelope {
    Default().(attack := 0.01, attackPlier := 1.0, decay := 0.0, decayPlier := 1.0,
               sustain := 0.9, sustainPlier := 1.0, release := 0.09)
  }

  /** The length in seconds of a phase that takes `fraction` of `duration`. */
  function PhaseTime(duration: real, fraction: real): real {
    duration * fraction
  }

  /** The number of samples of one phase of `e.Make(duration)`. */
  function PhaseLength(duration: real, fraction: real, sampleRate: real): nat {
    Ticks(PhaseTime(duration, fraction) * sampleRate)
  }

  /** The levels the first three phases head for: the multipliers scaled by
      the envelope's amplitude. */
  function AttackLevel(e: Envelope): real {
    e.attackPlier * e.amp
  }

  function DecayLevel(e: Envelope): real {
    e.decayPlier * e.amp
  }

  function SustainLevel(e: Envelope): real {
    e.sustainPlier * e.amp
  }

  function AttackRamp(e: Envelope, duration: real): (r: seq<real>)
    ensures |r| == PhaseLength(duration, e.attack, e.sampleRate)
  {
    InterpolateTo(0.0, AttackLevel(e), PhaseTime(duration, e.attack), e.sampleRate)
  }

  function DecayRamp(e: Envelope, duration: real): (r: seq<real>)
    ensures |r| == PhaseLength(duration, e.decay, e.sampleRate)
  {
    InterpolateTo(AttackLevel(e), DecayLevel(e), PhaseTime(duration, e.decay), e.sampleRate)
  }

  function SustainRamp(e: Envelope, duration: real): (r: seq<real>)
    ensures |r| == PhaseLength(duration, e.sustain, e.sampleRate)
  {
    InterpolateTo(DecayLevel(e), SustainLevel(e), PhaseTime(duration, e.sustain), e.sampleRate)
  }

  function ReleaseRamp(e: Envelope, duration: real): (r: seq<real>)
    ensures |r| == PhaseLength(duration, e.release, e.sampleRate)
  {
    InterpolateTo(SustainLevel(e), 0.0, PhaseTime(duration, e.release), e.sampleRate)
  }

  /** `Envelope::make`: the four ramps one after the other, from silence to
      the attack level, to the decay level, to the sustain level, and back
      toward silence. The fractions are not normalised. */
  function Make(e: Envelope, duration: real): (r: seq<real>)
    ensures |r| == PhaseLength(duration, e.attack, e.sampleRate)
                 + PhaseLength(duration, e.decay, e.sampleRate)
                 + PhaseLength(duration, e.sustain, e.sampleRate)
                 + PhaseLength(duration, e.release, e.sampleRate)
  {
    AttackRamp(e, duration) + DecayRamp(e, duration) + SustainRamp(e, duration) + ReleaseRamp(e, duration)
  }

  /** Each phase of `Make` starts where the previous phase was heading:
      0, then `attackPlier * amp`, `decayPlier * amp`, `sustainPlier * amp`;
      the release heads for 0. */
  lemma MakePhases(e: Envelope, duration: real)
    ensures |AttackRamp(e, duration)| > 0 ==> Make(e, duration)[0] == 0.0
    ensures |DecayRamp(e, duration)| > 0 ==>
      Make(e, duration)[|AttackRamp(e, duration)|] == AttackLevel(e)
    ensures |SustainRamp(e, duration)| > 0 ==>
      Make(e, duration)[|AttackRamp(e, duration)| + |DecayRamp(e, duration)|] == DecayLevel(e)
    ensures |ReleaseRamp(e, duration)| > 0 ==>
      Make(e, duration)[|AttackRamp(e, duration)| + |DecayRamp(e, duration)| + |SustainRamp(e, duration)|]
        == SustainLevel(e)
  {
    var A, D, S, L := AttackRamp(e, duration), DecayRamp(e, duration), SustainRamp(e, duration), ReleaseRamp(e, duration);
    assert Make(e, duration) == A + D + S + L;
    ConcatAt(A, D, S, L);
    InterpolateStart(0.0, AttackLevel(e), PhaseTime(duration, e.attack), e.sampleRate);
    InterpolateStart(AttackLevel(e), DecayLevel(e), PhaseTime(duration, e.decay), e.sampleRate);
    InterpolateStart(DecayLevel(e), SustainLevel(e), PhaseTime(duration, e.sustain), e.sampleRate);
    InterpolateStart(SustainLevel(e), 0.0, PhaseTime(duration, e.release), e.sampleRate);
  }

  lemma InterpolateStart(y0: real, y1: real, t: real, sampleRate: real)
    ensures |InterpolateTo(y0, y1, t, sampleRate)| > 0 ==> InterpolateTo(y0, y1, t, sampleRate)[0] == y0
  {
    if |InterpolateTo(y0, y1, t, sampleRate)| > 0 {
      LerpStart(y0, y1 - y0, |InterpolateTo(y0, y1, t, sampleRate)|);
    }
  }

  lemma ConcatAt<T>(a: seq<T>, b: seq<T>, c: seq<T>, d: seq<T>)
    ensures var r := a + b + c + d;
      && (|a| > 0 ==> r[0] == a[0])
      && (|b| > 0 ==> r[|a|] == b[0])
      && (|c| > 0 ==> r[|a| + |b|] == c[0])
      && (|d| > 0 ==> r[|a| + |b| + |c|] == d[0] && r[|r| - 1] == d[|d| - 1])
  {
  }

  /** `Envelope::mult`: the envelope of the given duration applied to a
      stream; the result ends with whichever of the two ends first. */
  function EnvMult(e: Envelope, s: seq<real>, duration: real): (r: seq<real>)
    ensures |r| == if |Make(e, duration)| <= |s| then |Make(e, duration)| else |s|
    ensures forall i :: 0 <= i < |r| ==> r[i] == Make(e, duration)[i] * s[i]
  {
    Mult(Make(e, duration), s)
  }

  /** Rounding each part down loses at most what rounding the sum loses. */
  lemma {:induction false} TicksSubadditive(a: real, b: real)
    requires a >= 0.0 && b >= 0.0
    ensures Ticks(a) + Ticks(b) <= Ticks(a + b)
  {
    if a > 0.0 && b > 0.0 {
      var fa, fb := a.Floor, b.Floor;
      assert (fa + fb) as real <= a + b;
      assert fa + fb <= (a + b).Floor;
    } else if a > 0.0 {
      assert a + b == a + b;
    }
  }

  /** `just_release().make(d)` is a single ramp from `amp` down toward 0
      over `floor(d * sample_rate)` samples. */
  lemma JustReleaseMake(amp: real, duration: real)
    ensures Make(JustRelease().(amp := amp), duration) == InterpolateTo(amp, 0.0, duration, SAMPLE_RATE)
    ensures |Make(JustRelease().(amp := amp), duration)| == Ticks(duration * SAMPLE_RATE)
    ensures Ticks(duration * SAMPLE_RATE) > 0 ==> Make(JustRelease().(amp := amp), duration)[0] == amp
  {
    var e := JustRelease().(amp := amp);
    assert PhaseTime(duration, 0.0) * SAMPLE_RATE == 0.0;
    assert |AttackRamp(e, duration)| == 0 && |DecayRamp(e, duration)| == 0 && |SustainRamp(e, duration)| == 0;
    assert SustainLevel(e) == amp;
    assert PhaseTime(duration, e.release) == duration;
    assert Make(e, duration) == ReleaseRamp(e, duration);
    InterpolateStart(amp, 0.0, duration, SAMPLE_RATE);
  }

  /** The fast-release fractions add up to exactly 1 (0.01 + 0 + 0.9 + 0.09),
      so the curve is never longer than the duration asks for. */
  lemma FastReleaseFits(amp: real, duration: real)
    ensures var e := FastRelease().(amp := amp);
      e.attack + e.decay + e.sustain + e.release == 1.0
    ensures |Make(FastRelease().(amp := amp), duration)| <= Ticks(duration * SAMPLE_RATE)
  {
    if duration > 0.0 {
      var x := duration * SAMPLE_RATE;
      assert PhaseTime(duration, 0.01) * SAMPLE_RATE == 0.01 * x;
      assert PhaseTime(duration, 0.0) * SAMPLE_RATE == 0.0 * x;
      assert PhaseTime(duration, 0.9) * SAMPLE_RATE == 0.9 * x;
      assert PhaseTime(duration, 0.09) * SAMPLE_RATE == 0.09 * x;
      TicksSubadditive4(0.01 * x, 0.0 * x, 0.9 * x, 0.09 * x);
    }
  }

  /** The default fractions add up to exactly 1 (0.1 + 0.05 + 0.7 + 0.15). */
  lemma DefaultFits(duration: real)
    ensures var e := Default(); e.attack + e.decay + e.sustain + e.release == 1.0
    ensures |Make(Default(), duration)| <= Ticks(duration * SAMPLE_RATE)
  {
    var e := Default();
    assert e.attack == 0.1 && e.decay == 0.05 && e.sustain == 0.7 && e.release == 0.15;
    assert e.sampleRate == SAMPLE_RATE;
    DefaultPhasesFit(duration);
  }

  /** The default phases fit in the whole duration. */
  lemma DefaultPhasesFit(duration: real)
    ensures PhaseLength(duration, 0.1, SAMPLE_RATE) + PhaseLength(duration, 0.05, SAMPLE_RATE)
          + PhaseLength(duration, 0.7, SAMPLE_RATE) + PhaseLength(duration, 0.15, SAMPLE_RATE)
         <= Ticks(duration * SAMPLE_RATE)
  {
    if duration > 0.0 {
      var x := duration * SAMPLE_RATE;
      assert PhaseTime(duration, 0.1) * SAMPLE_RATE == 0.1 * x;
      assert PhaseTime(duration, 0.05) * SAMPLE_RATE == 0.05 * x;
      assert PhaseTime(duration, 0.7) * SAMPLE_RATE == 0.7 * x;
      assert PhaseTime(duration, 0.15) * SAMPLE_RATE == 0.15 * x;
      TicksSubadditive4(0.1 * x, 0.05 * x, 0.7 * x, 0.15 * x);
    }
  }

  lemma TicksSubadditive4(a: real, d: real, s: real, l: real)
    requires a >= 0.0 && d >= 0.0 && s >= 0.0 && l >= 0.0
    ensures Ticks(a) + Ticks(d) + Ticks(s) + Ticks(l) <= Ticks(a + d + s + l)
  {
    TicksSubadditive(a, d);
    TicksSubadditive(a + d, s);
    TicksSubadditive(a + d + s, l);
  }
}
