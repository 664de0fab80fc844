/** The earlier engine, 19spring/comp-music-510/proj/src/midisyn.rs. It
    keeps every producer, pressed or released, in one map keyed by MIDI
    key, advances time one sample at a time over that map, and builds
    every note as a two-second enveloped sine. The pedal is only recorded.
    Its clock is the clock of the current engine. */
module LegacySynth {
  import opened Util
  import opened Midi
  import opened Voices
  import SP = SoundPrim
  import LSP = LegacySoundPrim
  import Synth

  /** The oscillator of a key `k` semitones from C4 (`freq_wrt_c4` and
      `sinewave`), left abstract: sample `t` of its sine. */
  type Tone = int -> (nat -> real)

  /** The engine's state. */
  datatype Engine = Engine(track: TrackState, sounds: map<Byte, seq<real>>, sampleIx: real, output: seq<real>)

  predicate Valid(e: Engine) {
    e.track.div > 0 && 0.0 <= e.sampleIx < 1.0
  }

  /** `MidiSyn::new`: nothing sounding, nothing written. */
  function NewEngine(): (e: Engine)
    ensures Valid(e) && e.track == NewTrackState() && e.sounds == map[] && e.output == []
  {
    Engine(NewTrackState(), map[], 0.0, [])
  }

  // ---- Time ------------------------------------------------------------

  /** The next `n` samples of the mix of `m`. */
  function Block(m: map<Byte, seq<real>>, n: nat): (r: seq<real>)
    ensures |r| == n
  {
    seq(n, i requires 0 <= i < n => MapAt(m, i))
  }

  lemma BlockSnoc(m: map<Byte, seq<real>>, n: nat)
    ensures Block(m, n + 1) == Block(m, n) + [MapAt(m, n)]
  {
    assert forall i :: 0 <= i < n ==> Block(m, n + 1)[i] == Block(m, n)[i];
  }

  /** `elapse_ticks(vt)`: as in the current engine, the carried fraction
      plus the ticks' samples is split into a whole part `n` and a new
      fraction (`nsamples % 1.0`); `n` samples of the mix are appended and
      every producer advances by `n`. */
  function Elapse(e: Engine, vt: nat): (r: Engine)
    requires Valid(e)
    ensures Valid(r)
    ensures r.track == e.track
    ensures |r.output| >= |e.output| && r.output[..|e.output|] == e.output
    ensures |r.output| as real + r.sampleIx
         == |e.output| as real + e.sampleIx + SamplesInTick(e.track, SP.SAMPLE_RATE, vt)
  {
    if vt == 0 then e
    else
      var total := e.sampleIx + SamplesInTick(e.track, SP.SAMPLE_RATE, vt);
      var n := Ticks(total);
      Engine(e.track, AdvanceMap(e.sounds, n), total - n as real, e.output + Block(e.sounds, n))
  }

  /** An advance by `vt > 0` ticks written out with its whole part `n`. */
  lemma ElapseSplit(e: Engine, vt: nat, total: real, n: nat)
    requires Valid(e) && vt > 0
    requires total == e.sampleIx + SamplesInTick(e.track, SP.SAMPLE_RATE, vt) && n == Ticks(total)
    ensures Elapse(e, vt) == Engine(e.track, AdvanceMap(e.sounds, n), total - n as real, e.output + Block(e.sounds, n))
  {
  }

  /** What an advance by `vt > 0` ticks writes: the mix of the map over the
      next `floor(sample_ix + samples_in_tick(vt))` samples, after which
      the mix continues where it stopped. */
  lemma {:induction false} ElapseWrites(e: Engine, vt: nat, i: nat)
    requires Valid(e) && vt > 0
    ensures var n := Ticks(e.sampleIx + SamplesInTick(e.track, SP.SAMPLE_RATE, vt));
      Elapse(e, vt).output == e.output + Block(e.sounds, n) &&
      Elapse(e, vt).sounds == AdvanceMap(e.sounds, n) &&
      MapAt(Elapse(e, vt).sounds, i) == MapAt(e.sounds, n + i)
  {
    var total := e.sampleIx + SamplesInTick(e.track, SP.SAMPLE_RATE, vt);
    ElapseSplit(e, vt, total, Ticks(total));
    MapAtShift(e.sounds, Ticks(total), i);
  }

  // ---- The handlers ----------------------------------------------------

  /** The two-second note of a key: `Envelope::default().mult(sinewave(..),
      2.0)` over `floor(44100 * 2.0)` samples of the key's sine. */
  function Voice(tone: Tone, key: Byte): seq<real> {
    LSP.LegacyEnvMult(LSP.LegacyDefault(), SP.SineWave(tone(key - 60), Ticks(SP.SAMPLE_RATE * 2.0)), 2.0)
  }

  /** `do_note_off(key)`: a pressed key's producer is replaced, under the
      same key, by its release `just_release().mult(ss, 0.1)`. */
  function HandleNoteOff(e: Engine, key: Byte): (r: Engine)
    ensures r.track == e.track && r.sampleIx == e.sampleIx && r.output == e.output
  {
    if key in e.sounds then e.(sounds := e.sounds[key := Synth.JustRel(e.sounds[key])]) else e
  }

  /** `do_note_on(key, velo)`: velocity 0 is a NoteOff. Otherwise the key's
      voice is stored under the key, summed (`superpos`) with what was
      still sounding under it. */
  function HandleNoteOn(tone: Tone, e: Engine, key: Byte, velo: Byte): (r: Engine)
    ensures r.track == e.track && r.sampleIx == e.sampleIx && r.output == e.output
  {
    if velo == 0 then HandleNoteOff(e, key)
    else if key in e.sounds then e.(sounds := e.sounds[key := SP.Superpos(Voice(tone, key), e.sounds[key])])
    else e.(sounds := e.sounds[key := Voice(tone, key)])
  }

  /** `do_prog_change(preset)`: the piano for preset 0 only. */
  function HandleProgChange(e: Engine, preset: Byte): (r: Engine) {
    e.(track := e.track.(instrument := if preset == 0 then PianoInstr else NoImpl))
  }

  /** `do_ctrl_change(ctrl, value)`: controller 64 records the pedal as down
      for values from 64; nothing else changes. */
  function HandleCtrlChange(e: Engine, ctrl: Byte, value: Byte): (r: Engine) {
    if ctrl == 64 then e.(track := e.track.(damperPedal := value >= 64)) else e
  }

  /** `do_midi` and `do_meta`. */
  function HandleEvent(tone: Tone, e: Engine, ev: Event): (r: Engine)
    ensures r.track.div == e.track.div && r.sampleIx == e.sampleIx && r.output == e.output
    ensures r.track.tempo == TempoAfter(e.track.tempo, ev)
  {
    match ev
    case NoteOn(key, velo) => HandleNoteOn(tone, e, key, velo)
    case NoteOff(key) => HandleNoteOff(e, key)
    case ProgramChange(preset) => HandleProgChange(e, preset)
    case ControlChange(ctrl, value) => HandleCtrlChange(e, ctrl, value)
    case TempoSetting(tempo) => e.(track := e.track.(tempo := tempo))
    case _ => e
  }

  function Step(tone: Tone, e: Engine, te: TrackEvent): (r: Engine)
    requires Valid(e)
    ensures Valid(r)
  {
    HandleEvent(tone, Elapse(e, te.vtime), te.event)
  }

  /** `syn(track)`: every event in turn. */
  function Run(tone: Tone, e: Engine, evs: seq<TrackEvent>): (r: Engine)
    requires Valid(e)
    ensures Valid(r)
    ensures |r.output| >= |e.output| && r.output[..|e.output|] == e.output
    decreases |evs|
  {
    if evs == [] then e else Run(tone, Step(tone, e, evs[0]), evs[1..])
  }

  // ---- What the handlers promise -----------------------------------------

  /** No drift: the earlier engine keeps the same exact clock. */
  lemma {:induction false} NoDrift(tone: Tone, e: Engine, evs: seq<TrackEvent>)
    requires Valid(e)
    ensures |Run(tone, e, evs).output| as real + Run(tone, e, evs).sampleIx
         == |e.output| as real + e.sampleIx + Clock(e.track.div, e.track.tempo, SP.SAMPLE_RATE, evs)
    decreases |evs|
  {
    if evs != [] {
      var te := evs[0];
      var e1 := HandleEvent(tone, Elapse(e, te.vtime), te.event);
      assert e1 == Step(tone, e, te);
      NoDrift(tone, e1, evs[1..]);
      Synth.SamplesInTickTempo(e.track, TrackState(e.track.div, e.track.tempo, PianoInstr, false), te.vtime);
      assert Run(tone, e, evs) == Run(tone, e1, evs[1..]);
    }
  }

  /** A voice lasts at most two seconds, 88200 samples. */
  lemma VoiceFits(tone: Tone, key: Byte)
    ensures |Voice(tone, key)| <= 88200
  {
    assert Ticks(2.0 * SP.SAMPLE_RATE) == 88200;
    LSP.LegacyDefaultFits(SP.SineWave(tone(key - 60), Ticks(SP.SAMPLE_RATE * 2.0)), 2.0);
  }

  /** NoteOff: an unpressed key changes nothing; a pressed key keeps its
      place in the map and its producer is cut to the 0.1 s release. */
  lemma NoteOffReleases(e: Engine, key: Byte)
    ensures key !in e.sounds ==> HandleNoteOff(e, key) == e
    ensures key in e.sounds ==> HandleNoteOff(e, key).sounds.Keys == e.sounds.Keys
    ensures key in e.sounds ==> HandleNoteOff(e, key).sounds[key] == Synth.JustRel(e.sounds[key])
    ensures key in e.sounds ==> |HandleNoteOff(e, key).sounds[key]| <= 4410
    ensures HandleNoteOff(e, key).sounds - {key} == e.sounds - {key}
  {
    if key in e.sounds {
      Synth.JustRelShape(e.sounds[key]);
    }
  }

  /** NoteOn: velocity 0 is exactly NoteOff. Otherwise the key holds its
      voice, merged with what it held: the merge is as long as the longer
      of the two and is their sum where both sound. Other keys are
      untouched, and a new key appears exactly when the key was not
      pressed. */
  lemma NoteOnStores(tone: Tone, e: Engine, key: Byte, velo: Byte)
    ensures velo == 0 ==> HandleNoteOn(tone, e, key, velo) == HandleNoteOff(e, key)
    ensures velo != 0 ==> key in HandleNoteOn(tone, e, key, velo).sounds
    ensures velo != 0 && key !in e.sounds ==> HandleNoteOn(tone, e, key, velo).sounds[key] == Voice(tone, key)
    ensures velo != 0 && key in e.sounds ==>
              var merged := HandleNoteOn(tone, e, key, velo).sounds[key];
              var v, old_ := Voice(tone, key), e.sounds[key];
              |merged| == (if |v| >= |old_| then |v| else |old_|) &&
              forall i :: 0 <= i < |v| && 0 <= i < |old_| ==> merged[i] == v[i] + old_[i]
    ensures HandleNoteOn(tone, e, key, velo).sounds - {key} == e.sounds - {key}
    ensures |HandleNoteOn(tone, e, key, velo).sounds| == |e.sounds| + (if velo != 0 && key !in e.sounds then 1 else 0)
  {
    if velo == 0 {
      NoteOffReleases(e, key);
      assert HandleNoteOff(e, key).sounds.Keys == e.sounds.Keys;
    } else if key in e.sounds {
      assert HandleNoteOn(tone, e, key, velo).sounds.Keys == e.sounds.Keys;
    } else {
      Synth.InsertFresh(e.sounds, key, Voice(tone, key));
    }
  }

  /** The velocity of a struck note and the instrument in force are
      ignored: every struck key gets the same sine voice. */
  lemma NoteOnIgnoresVelocity(tone: Tone, e: Engine, preset: Byte, key: Byte, v1: Byte, v2: Byte)
    requires v1 != 0 && v2 != 0
    ensures HandleNoteOn(tone, HandleProgChange(e, preset), key, v1).sounds == HandleNoteOn(tone, e, key, v2).sounds
    ensures HandleProgChange(e, preset).track.instrument == PianoInstr <==> preset == 0
  {
  }

  /** ControlChange only records the pedal: no producer is touched. */
  lemma CtrlChangeRecords(e: Engine, ctrl: Byte, value: Byte)
    ensures HandleCtrlChange(e, ctrl, value).sounds == e.sounds
    ensures ctrl == 64 ==> HandleCtrlChange(e, ctrl, value).track.damperPedal == (value >= 64)
    ensures ctrl != 64 ==> HandleCtrlChange(e, ctrl, value) == e
  {
  }

  /** Producers are conserved: only a NoteOn on an unpressed key adds one,
      and time only removes finished ones. */
  lemma EventCount(tone: Tone, e: Engine, ev: Event)
    ensures |HandleEvent(tone, e, ev).sounds| <= |e.sounds| + (if ev.NoteOn? && ev.velo != 0 then 1 else 0)
  {
    match ev
    case NoteOn(key, velo) => NoteOnStores(tone, e, key, velo);
    case NoteOff(key) => NoteOffReleases(e, key); assert HandleNoteOff(e, key).sounds.Keys == e.sounds.Keys;
    case _ =>
  }

  lemma {:induction false} RunCount(tone: Tone, e: Engine, evs: seq<TrackEvent>)
    requires Valid(e)
    ensures |Run(tone, e, evs).sounds| <= |e.sounds| + Strikes(evs)
    decreases |evs|
  {
    if evs != [] {
      var e1 := Elapse(e, evs[0].vtime);
      if evs[0].vtime > 0 {
        var total := e.sampleIx + SamplesInTick(e.track, SP.SAMPLE_RATE, evs[0].vtime);
        ElapseSplit(e, evs[0].vtime, total, Ticks(total));
        Synth.KeysCard(e1.sounds.Keys, e.sounds.Keys);
      }
      EventCount(tone, e1, evs[0].event);
      RunCount(tone, Step(tone, e, evs[0]), evs[1..]);
    }
  }

  // ---- The current engine refines the earlier one's clock ----------------

  /** The current engine's state holding the same producers, none of them
      dampered or released. */
  function Current(e: Engine): (r: Synth.Engine)
    ensures r.dampered == [] && r.released == []
  {
    Synth.Engine(e.track, e.sounds, [], [], e.sampleIx, e.output)
  }

  /** With nothing dampered or released, the current engine's block-wise
      `elapse_ticks` writes the same samples and keeps the same producers as
      the earlier engine's sample-by-sample loop. */
  lemma ElapseAgrees(e: Engine, vt: nat)
    requires Valid(e)
    ensures Synth.Valid(Current(e))
    ensures Synth.Elapse(Current(e), vt) == Current(Elapse(e, vt))
  {
    if vt > 0 {
      var c := Current(e);
      var total := e.sampleIx + SamplesInTick(e.track, SP.SAMPLE_RATE, vt);
      var n := Ticks(total);
      ElapseSplit(e, vt, total, n);
      Synth.ElapseSplit(c, vt, total, n);
      forall i | 0 <= i < n
        ensures Synth.Block(c, n)[i] == Block(e.sounds, n)[i]
      {
      }
      assert Synth.Block(c, n) == Block(e.sounds, n);
    }
  }

  // ---- The engine as an object -----------------------------------------

  /** The loop of `elapse_ticks`: `n` times, one sample of every producer
      of the map is summed and pushed, and the producers that gave one are
      put back. */
  method MixSamples(s0: map<Byte, seq<real>>, n: nat) returns (kept: map<Byte, seq<real>>, block: seq<real>)
    ensures kept == AdvanceMap(s0, n) && block == Block(s0, n)
  {
    kept, block := s0, [];
    AdvanceMapZero(s0);
    var j := 0;
    while j < n
      invariant 0 <= j <= n
      invariant kept == AdvanceMap(s0, j) && block == Block(s0, j)
    {
      var next, v := MixOne(kept);
      AdvanceMapAdd(s0, j, 1);
      MapAtShift(s0, j, 0);
      BlockSnoc(s0, j);
      kept, block := next, block + [v];
      j := j + 1;
    }
  }

  /** `MidiSyn` of the earlier snapshot. */
  class LegacyMidiSyn {
    const tone: Tone
    var track: TrackState
    var sounds: map<Byte, seq<real>>
    var sampleIx: real
    var output: seq<real>

    function State(): Engine
      reads this
    {
      Engine(track, sounds, sampleIx, output)
    }

    /** `MidiSyn::new()`. */
    constructor (tone: Tone)
      ensures this.tone == tone && State() == NewEngine()
    {
      this.tone := tone;
      track := NewTrackState();
      sounds := map[];
      sampleIx := 0.0;
      output := [];
    }

    /** `elapse_ticks(vt)`: for each of the `n` whole samples, every
        producer gives its next sample, the sum is pushed, and only the
        producers that gave one are put back. */
    method ElapseTicks(vt: nat)
      requires Valid(State())
      modifies this
      ensures State() == Elapse(old(State()), vt)
    {
      if vt == 0 {
        return;
      }
      ghost var e := State();
      var total := sampleIx + SamplesInTick(track, SP.SAMPLE_RATE, vt);
      var n := Ticks(total);
      sampleIx := total - n as real;
      var kept, block := MixSamples(sounds, n);
      sounds := kept;
      output := output + block;
      ElapseSplit(e, vt, total, n);
    }

    /** `do_note_off(key)`. */
    method DoNoteOff(key: Byte)
      modifies this
      ensures State() == HandleNoteOff(old(State()), key)
    {
      if key in sounds {
        var ss := sounds[key];
        var faded := Synth.JustRel(ss);
        sounds := sounds[key := faded];
      }
    }

    /** `do_note_on(key, velo)`. */
    method DoNoteOn(key: Byte, velo: Byte)
      modifies this
      ensures State() == HandleNoteOn(tone, old(State()), key, velo)
    {
      if velo == 0 {
        DoNoteOff(key);
        return;
      }
      var env := LSP.LegacyDefault();
      var ss := LSP.LegacyEnvMult(env, SP.SineWave(tone(key - 60), Ticks(SP.SAMPLE_RATE * 2.0)), 2.0);
      if key in sounds {
        var orig := sounds[key];
        sounds := sounds - {key};
        sounds := sounds[key := SP.Superpos(ss, orig)];
      } else {
        sounds := sounds[key := ss];
      }
    }

    /** `do_prog_change(preset)`. */
    method DoProgChange(preset: Byte)
      modifies this
      ensures State() == HandleProgChange(old(State()), preset)
    {
      var instr := if preset == 0 then PianoInstr else NoImpl;
      track := track.(instrument := instr);
    }

    /** `do_ctrl_change(ctrl, value)`. */
    method DoCtrlChange(ctrl: Byte, value: Byte)
      modifies this
      ensures State() == HandleCtrlChange(old(State()), ctrl, value)
    {
      if ctrl == 64 {
        track := track.(damperPedal := value >= 64);
      }
    }

    /** `do_midi` and `do_meta`. */
    method DoEvent(ev: Event)
      modifies this
      ensures State() == HandleEvent(tone, old(State()), ev)
    {
      match ev
      case NoteOn(key, velo) => DoNoteOn(key, velo);
      case NoteOff(key) => DoNoteOff(key);
      case ProgramChange(preset) => DoProgChange(preset);
      case ControlChange(ctrl, value) => DoCtrlChange(ctrl, value);
      case TempoSetting(tempo) => track := track.(tempo := tempo);
      case _ =>
    }

    /** `syn(track)`: the whole track, then the output written so far. */
    method Syn(evs: seq<TrackEvent>) returns (out: seq<real>)
      requires Valid(State())
      modifies this
      ensures State() == Run(tone, old(State()), evs) && out == output
    {
      var i := 0;
      while i < |evs|
        invariant 0 <= i <= |evs| && Valid(State())
        invariant Run(tone, old(State()), evs) == Run(tone, State(), evs[i..])
      {
        assert evs[i..][0] == evs[i] && evs[i..][1..] == evs[i + 1..];
        ElapseTicks(evs[i].vtime);
        DoEvent(evs[i].event);
        i := i + 1;
      }
      out := output;
    }
  }
}
