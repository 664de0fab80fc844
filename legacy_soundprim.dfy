/** The earlier sound primitives (19spring/comp-music-510/proj/src/soundprim.rs).
    `mult`, `interpolate_to` and `superpos` there are the same as in the
    current file, so `SoundPrim.Mult`, `SoundPrim.InterpolateTo` and
    `SoundPrim.Superpos` model both; what differs is the envelope, which has
    no `amp` field: its levels are the multipliers themselves. */
module LegacySoundPrim {
  import opened Util
  import SP = SoundPrim

  datatype LegacyEnvelope = LegacyEnvelope(
    attack: real, attackPlier: real,
    decay: real, decayPlier: real,
    sustain: real, sustainPlier: real,
    release: real,
    sampleRate: real)

  /** `Envelope::default` of the earlier snapshot. */
  function LegacyDefault(): LegacyEnvelope {
    LegacyEnvelope(0.1, 1.2, 0.05, 1.0, 0.7, 0.7, 0.15, SP.SAMPLE_RATE)
  }

  /** The current envelope with the given amplitude and the same phases. */
  function WithAmp(e: LegacyEnvelope, amp: real): SP.Envelope {
    SP.Envelope(e.attack, e.attackPlier, e.decay, e.decayPlier, e.sustain, e.sustainPlier,
                e.release, e.sampleRate, amp)
  }

  /** `Envelope::make`: four ramps 0 -> attackPlier -> decayPlier ->
      sustainPlier -> 0 over the four fractions of the duration. */
  function LegacyMake(e: LegacyEnvelope, duration: real): seq<real>
  {
    SP.InterpolateTo(0.0, e.attackPlier, SP.PhaseTime(duration, e.attack), e.sampleRate)
    + SP.InterpolateTo(e.attackPlier, e.decayPlier, SP.PhaseTime(duration, e.decay), e.sampleRate)
    + SP.InterpolateTo(e.decayPlier, e.sustainPlier, SP.PhaseTime(duration, e.sustain), e.sampleRate)
    + SP.InterpolateTo(e.sustainPlier, 0.0, SP.PhaseTime(duration, e.release), e.sampleRate)
  }

  /** The earlier envelope is the current one at unit amplitude: adding
      `amp` changed nothing for `amp == 1`. */
  lemma LegacyMakeIsUnitAmp(e: LegacyEnvelope, duration: real)
    ensures LegacyMake(e, duration) == SP.Make(WithAmp(e, 1.0), duration)
  {
    var c := WithAmp(e, 1.0);
    UnitLevel(e.attackPlier);
    UnitLevel(e.decayPlier);
    UnitLevel(e.sustainPlier);
    assert SP.AttackLevel(c) == e.attackPlier;
    assert SP.DecayLevel(c) == e.decayPlier;
    assert SP.SustainLevel(c) == e.sustainPlier;
  }

  lemma UnitLevel(x: real)
    ensures x * 1.0 == x
  {
  }

  /** The earlier default is the current default. */
  lemma LegacyDefaultIsDefault()
    ensures WithAmp(LegacyDefault(), 1.0) == SP.Default()
  {
  }

  /** `Envelope::mult`: the envelope applied to a stream, ending with the
      shorter of the two. */
  function LegacyEnvMult(e: LegacyEnvelope, s: seq<real>, duration: real): (r: seq<real>)
    ensures |r| == if |LegacyMake(e, duration)| <= |s| then |LegacyMake(e, duration)| else |s|
    ensures forall i :: 0 <= i < |r| ==> r[i] == LegacyMake(e, duration)[i] * s[i]
  {
    SP.Mult(LegacyMake(e, duration), s)
  }

  /** So the earlier `mult` agrees with the current one at unit amplitude. */
  lemma LegacyEnvMultIsUnitAmp(e: LegacyEnvelope, s: seq<real>, duration: real)
    ensures LegacyEnvMult(e, s, duration) == SP.EnvMult(WithAmp(e, 1.0), s, duration)
  {
    LegacyMakeIsUnitAmp(e, duration);
  }

  /** The default shape is never longer than the duration asks for. */
  lemma LegacyDefaultFits(s: seq<real>, duration: real)
    ensures |LegacyMake(LegacyDefault(), duration)| <= Ticks(duration * SP.SAMPLE_RATE)
    ensures |LegacyEnvMult(LegacyDefault(), s, duration)| <= Ticks(duration * SP.SAMPLE_RATE)
  {
    LegacyMakeIsUnitAmp(LegacyDefault(), duration);
    LegacyDefaultIsDefault();
    SP.DefaultFits(duration);
  }
}
