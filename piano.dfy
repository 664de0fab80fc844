/** The sampled piano of src/instr/piano.rs: the pitch names its sample
    files are found under, the velocity-layer crossfade weights, and the
    producer `Piano::syn` builds for one key. Sample files are not read
    here: a piano is the maps from key to samples that loading produced. */
module Piano {
  import opened Util
  import SP = SoundPrim

  /** `NOTE_NAMES`: the twelve pitch classes from C, flats for the black keys. */
  const NOTE_NAMES: seq<string> := ["C", "Db", "D", "Eb", "E", "F", "Gb", "G", "Ab", "A", "Bb", "B"]

  /** The position of a pitch-class name in `NOTE_NAMES`, used to show the
      table has no repeats. */
  function NoteIndex(name: string): int {
    match name
    case "C" => 0 case "Db" => 1 case "D" => 2 case "Eb" => 3
    case "E" => 4 case "F" => 5 case "Gb" => 6 case "G" => 7
    case "Ab" => 8 case "A" => 9 case "Bb" => 10 case "B" => 11
    case _ => -1
  }

  lemma NoteNamesDistinct(i: nat, j: nat)
    requires i < 12 && j < 12 && NOTE_NAMES[i] == NOTE_NAMES[j]
    ensures i == j
  {
    assert forall n :: 0 <= n < 12 ==> NoteIndex(NOTE_NAMES[n]) == n;
  }

  /** `key_to_name`: a key in semitones from C4 to the name of its sample
      file. With `k' = k + 36` the name is `NOTE_NAMES[k' % 12]` followed by
      the octave `1 + k' / 12`, both with Rust's truncating operators. For
      `k' < 0` that is not a multiple of 12 the remainder is negative and
      the cast to `usize` makes the table index fail (`None`). Above
      `i32::MAX - 36` the addition itself overflows, which panics (`None`)
      in a debug build. */
  function KeyToName(k: I32): (r: Option<string>)
    ensures r.None? <==> k + 36 > I32_MAX || TruncRem(k + 36, 12) < 0
  {
    if k + 36 > I32_MAX then None
    else
      var k' := k + 36;
      var i := TruncRem(k', 12);
      if i < 0 then None
      else Some(NOTE_NAMES[i] + IntToString(1 + TruncDiv(k', 12)))
  }

  /** Keys whose name is one of the table's: past the top of `i32` the
      addition overflows, and below -36 only multiples of 12 have a name. */
  lemma KeyToNameDomain()
    ensures KeyToName(I32_MAX - 35).None?
    ensures KeyToName(I32_MAX - 36).Some?
    ensures KeyToName(-37).None? && KeyToName(-48).Some?
  {
    assert TruncRem(I32_MAX, 12) == 7;
    assert TruncRem(-1, 12) == -1;
    assert TruncRem(-12, 12) == 0;
  }

  lemma KeyToNameC4()
    ensures KeyToName(0) == Some("C4")
  {
    assert TruncRem(36, 12) == 0;
    assert TruncDiv(36, 12) == 3;
    assert DigitChar(4) == '4';
    assert IntToString(4) == "4";
    assert NOTE_NAMES[0] + "4" == "C4";
  }

  /** On the 84 keys the loaders ask for (-36 up to 47), the name is the
      pitch class of `k + 36` and a one-digit octave from 1 to 7. */
  lemma KeyToNameInRange(k: I32)
    requires -36 <= k < 48
    ensures 1 <= 1 + (k + 36) / 12 <= 7
    ensures KeyToName(k) == Some(NOTE_NAMES[(k + 36) % 12] + [DigitChar(1 + (k + 36) / 12)])
  {
    var k' := k + 36;
    assert TruncDiv(k', 12) == k' / 12;
    assert TruncRem(k', 12) == k' % 12;
    var o := 1 + k' / 12;
    assert 1 <= o <= 7;
    assert IntToString(o) == NatToString(o) == [DigitChar(o)];
  }

  /** No two of those keys share a sample file name. */
  lemma KeyToNameInjective(k1: I32, k2: I32)
    requires -36 <= k1 < 48 && -36 <= k2 < 48
    requires KeyToName(k1) == KeyToName(k2)
    ensures k1 == k2
  {
    KeyToNameInRange(k1);
    KeyToNameInRange(k2);
    var i1, i2 := (k1 + 36) % 12, (k2 + 36) % 12;
    var o1, o2 := 1 + (k1 + 36) / 12, 1 + (k2 + 36) / 12;
    var s1, s2 := NOTE_NAMES[i1] + [DigitChar(o1)], NOTE_NAMES[i2] + [DigitChar(o2)];
    assert s1 == s2;
    assert s1[|s1| - 1] == DigitChar(o1) && s2[|s2| - 1] == DigitChar(o2);
    assert o1 == o2;
    assert s1[..|s1| - 1] == NOTE_NAMES[i1] && s2[..|s2| - 1] == NOTE_NAMES[i2];
    NoteNamesDistinct(i1, i2);
  }

  // The crossfade weights of `Piano::syn`, over `ampf = amp * 128`.

  /** `ff_amp`: full below 32, fading out linearly to 0 at 80. */
  function FfAmp(ampf: real): real {
    if ampf < 32.0 then 1.0
    else if ampf > 80.0 then 0.0
    else 1.0 - (ampf - 32.0) / 48.0
  }

  /** `mf_amp`: rising from 0 at 32 to 1 at 80, falling back to 0 at 112. */
  function MfAmp(ampf: real): real {
    if ampf < 32.0 then 0.0
    else if ampf > 112.0 then 0.0
    else if ampf < 80.0 then (ampf - 32.0) / 48.0
    else 1.0 - (ampf - 80.0) / 32.0
  }

  /** `pp_amp`: 0 below 112, rising to 1 at 128, full above. */
  function PpAmp(ampf: real): real {
    if ampf < 112.0 then 0.0
    else if ampf > 128.0 then 1.0
    else (ampf - 112.0) / 16.0
  }

  function Abs(x: real): real {
    if x < 0.0 then -x else x
  }

  /** Soft notes use only the first layer. */
  lemma WeightsSoft(ampf: real)
    requires ampf < 32.0
    ensures FfAmp(ampf) == 1.0 && MfAmp(ampf) == 0.0 && PpAmp(ampf) == 0.0
  {
  }

  /** Between 32 and 80 the first two weights cross-fade: they sum to 1. */
  lemma WeightsCrossfade(ampf: real)
    requires 32.0 <= ampf <= 80.0
    ensures FfAmp(ampf) + MfAmp(ampf) == 1.0
    ensures PpAmp(ampf) == 0.0
  {
  }

  /** Above 80 the weights do not cross-fade: between 80 and 128 only one
      of them is non-zero and it is below 1, so their sum is below 1
      (at `ampf = 96` it is one half). */
  lemma WeightsLoud(ampf: real)
    requires 80.0 < ampf < 128.0
    ensures FfAmp(ampf) == 0.0
    ensures FfAmp(ampf) + MfAmp(ampf) + PpAmp(ampf) < 1.0
    ensures ampf == 96.0 ==> FfAmp(ampf) + MfAmp(ampf) + PpAmp(ampf) == 0.5
  {
  }

  /** Every weight is between 0 and 1, for every `ampf`. */
  lemma WeightsBounded(ampf: real)
    ensures 0.0 <= FfAmp(ampf) <= 1.0
    ensures 0.0 <= MfAmp(ampf) <= 1.0
    ensures 0.0 <= PpAmp(ampf) <= 1.0
  {
  }

  /** The weights are continuous: none changes faster than 1/16 per unit of
      `ampf`, so there is no jump at 32, 80, 112 or 128. */
  lemma WeightsContinuous(x: real, y: real)
    ensures Abs(FfAmp(x) - FfAmp(y)) <= Abs(x - y) / 16.0
    ensures Abs(MfAmp(x) - MfAmp(y)) <= Abs(x - y) / 16.0
    ensures Abs(PpAmp(x) - PpAmp(y)) <= Abs(x - y) / 16.0
  {
  }

  /** A loaded piano: `notes[i]` maps a key to the samples of layer `i`. */
  datatype Piano = Piano(notes: seq<map<int, seq<real>>>)

  /** `dur = len / 44100`, the length of the `mf` sample in seconds. */
  function SampleDuration(len: nat): real {
    len as real / 44100.0
  }

  /** One sample of the layer mix: layer 0 under `ff_amp` and layer 1
      under both `mf_amp` and `pp_amp`, as `ff`, `mf` and `pp` are read from
      `notes[0]`, `notes[1]` and `notes[1]`. */
  function MixSample(ff: real, mf: real, ampf: real): real {
    ff * FfAmp(ampf) + mf * MfAmp(ampf) + mf * PpAmp(ampf)
  }

  /** The first `n` samples of the layer mix. */
  function LayerMix(ff: seq<real>, mf: seq<real>, ampf: real, n: nat): (r: seq<real>)
    requires n <= |ff| && n <= |mf|
    ensures |r| == n
    ensures forall ix :: 0 <= ix < n ==> r[ix] == MixSample(ff[ix], mf[ix], ampf)
  {
    seq(n, ix requires 0 <= ix < n => MixSample(ff[ix], mf[ix], ampf))
  }

  /** Where the velocity puts only the first layer, the mix is that layer;
      in the cross-fade band it is an affine blend of the two. */
  lemma MixSampleBands(ff: real, mf: real, ampf: real)
    ensures ampf < 32.0 ==> MixSample(ff, mf, ampf) == ff
    ensures 32.0 <= ampf <= 80.0 ==>
      MixSample(ff, mf, ampf) == ff * FfAmp(ampf) + mf * (1.0 - FfAmp(ampf))
  {
    if 32.0 <= ampf <= 80.0 {
      WeightsCrossfade(ampf);
      assert MfAmp(ampf) == 1.0 - FfAmp(ampf);
    }
  }

  /** The envelope `Piano::syn` shapes a note of amplitude `amp` with. */
  function SynEnvelope(amp: real): SP.Envelope {
    SP.FastRelease().(amp := amp)
  }

  /** The envelope curve of a note whose `mf` sample has `len` samples. */
  function SynShape(amp: real, len: nat): seq<real> {
    SP.Make(SynEnvelope(amp), SampleDuration(len))
  }

  /** What a piano note yields: the samples it produces, and whether
      pulling once more after them panics instead of ending the note. */
  datatype Note = Note(samples: seq<real>, panics: bool)

  /** `Piano::syn(key, amp)`: the velocity layers mixed and shaped by
      `fast_release` at amplitude `amp` over the length of the `mf` sample.
      Looking up the two layers panics at once (`None`) with fewer than two
      layers or a key missing from layer 0 or 1. The rest is lazy: the
      envelope is pulled first, so the note ends with the envelope, but a
      layer-0 sample shorter than the envelope panics on the pull that would
      read past its end, after yielding `|ff|` samples. */
  function Syn(p: Piano, key: int, amp: real): (r: Option<Note>)
    ensures r.None? <==> (|p.notes| < 2 || key !in p.notes[0] || key !in p.notes[1])
    ensures r.Some? ==>
      (r.value.panics <==> |p.notes[0][key]| < |SynShape(amp, |p.notes[1][key]|)|)
    ensures r.Some? ==>
      |r.value.samples| == (if r.value.panics then |p.notes[0][key]| else |SynShape(amp, |p.notes[1][key]|)|)
  {
    if |p.notes| < 2 || key !in p.notes[0] || key !in p.notes[1] then None
    else
      var ff, mf := p.notes[0][key], p.notes[1][key];
      var shape := SynShape(amp, |mf|);
      SynShapeFits(amp, |mf|);
      var n := if |ff| < |shape| then |ff| else |shape|;
      Some(Note(SP.Mult(shape, LayerMix(ff, mf, amp * 128.0, n)), |ff| < |shape|))
  }

  /** The envelope of a piano note is never longer than its `mf` sample. */
  lemma SynShapeFits(amp: real, len: nat)
    ensures |SynShape(amp, len)| <= len
  {
    SP.FastReleaseFits(amp, SampleDuration(len));
    assert SampleDuration(len) * SP.SAMPLE_RATE == len as real;
  }

  /** What `Piano::syn` produces once the layers are found: the envelope
      times the layer mix, sample by sample, for as long as both last; so
      a note never outlasts its `mf` sample, and one that does not panic is
      exactly as long as the envelope. */
  lemma SynSome(p: Piano, key: int, amp: real)
    requires |p.notes| >= 2 && key in p.notes[0] && key in p.notes[1]
    ensures Syn(p, key, amp).Some?
    ensures |SynShape(amp, |p.notes[1][key]|)| <= |p.notes[1][key]|
    ensures |Syn(p, key, amp).value.samples| <= |p.notes[1][key]|
    ensures !Syn(p, key, amp).value.panics ==>
      |Syn(p, key, amp).value.samples| == |SynShape(amp, |p.notes[1][key]|)|
    ensures Syn(p, key, amp).value.samples
         == SP.Mult(SynShape(amp, |p.notes[1][key]|),
                    LayerMix(p.notes[0][key], p.notes[1][key], amp * 128.0, |Syn(p, key, amp).value.samples|))
  {
    SynShapeFits(amp, |p.notes[1][key]|);
  }
}
