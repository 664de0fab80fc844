/** The earlier sampled piano (19spring/comp-music-510/proj/src/instr/piano.rs):
    one sample per key and no velocity layers. Its `key_to_name` and
    `NOTE_NAMES` are those of the current piano, `Piano.KeyToName`. Its
    `syn` calls `Envelope::fast_release` and sets `env.amp`, which the
    soundprim.rs of the same snapshot does not define; the current
    definitions (`SoundPrim.FastRelease`, `SoundPrim.Envelope.amp`) stand in
    for them. */
module LegacyPiano {
  import opened Util
  import SP = SoundPrim
  import P = Piano

  /** A loaded piano: the samples of each key found on disk. */
  datatype LegacyPiano = LegacyPiano(notes: map<int, seq<real>>)

  /** `Piano::syn(key, amp)`: the key's sample shaped by `fast_release` at
      amplitude `amp` over the sample's own duration. `notes[&key]` panics
      on a key without a sample (`None`). */
  function LegacySyn(p: LegacyPiano, key: int, amp: real): (r: Option<seq<real>>)
    ensures r.None? <==> key !in p.notes
  {
    if key !in p.notes then None
    else
      var ss := p.notes[key];
      Some(SP.EnvMult(P.SynEnvelope(amp), ss, P.SampleDuration(|ss|)))
  }

  /** A note is exactly as long as its envelope, which is never longer than
      the stored sample, and each of its samples is the envelope times the
      stored sample. */
  lemma LegacySynSome(p: LegacyPiano, key: int, amp: real)
    requires key in p.notes
    ensures LegacySyn(p, key, amp).Some?
    ensures |LegacySyn(p, key, amp).value| == |P.SynShape(amp, |p.notes[key]|)| <= |p.notes[key]|
    ensures forall ix :: 0 <= ix < |LegacySyn(p, key, amp).value| ==>
      LegacySyn(p, key, amp).value[ix] == P.SynShape(amp, |p.notes[key]|)[ix] * p.notes[key][ix]
  {
    P.SynShapeFits(amp, |p.notes[key]|);
  }
}
