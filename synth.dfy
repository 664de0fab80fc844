/** The engine of src/midisyn.rs. `MidiSyn` walks a track; before each
    event it advances time by the event's delta ticks, turning them into a
    whole number of samples and carrying the fraction in `sample_ix`, and
    mixes every live producer into the new stretch of `output`. Pressed
    notes live in `sounds`, keyed by MIDI key; notes released while the
    damper pedal is down wait in `dampered_sounds`; released notes, faded
    out by `just_release` over 0.1 s, play out in `released_sounds`.

    The functions below are the engine on values; the class `MidiSyn` is
    the engine as the source has it, one method per handler, each proved
    to move its state exactly as the function says. */
module Synth {
  import opened Util
  import opened Midi
  import opened Voices
  import SP = SoundPrim

  /** The producers NoteOn can build for a key (in semitones from C4) and
      an amplitude: `Piano::syn` on the piano the engine was made with, and
      `Sine { key, duration, amp, sample_rate }.syn()`, given those four
      fields in that order. Neither length is stated. */
  datatype Instruments = Instruments(piano: (int, real) -> seq<real>, sine: (int, real, real, real) -> seq<real>)

  /** The `duration` NoteOn gives a sine, in seconds. */
  const SINE_DURATION: real := 1.0

  /** The engine's state, the piano aside. */
  datatype Engine = Engine(
    track: TrackState,
    sounds: map<Byte, seq<real>>,
    dampered: seq<seq<real>>,
    released: seq<seq<real>>,
    sampleIx: real,
    output: seq<real>)

  /** A track state the clock can run on, and a carried fraction in [0, 1). */
  predicate Valid(e: Engine) {
    e.track.div > 0 && 0.0 <= e.sampleIx < 1.0
  }

  /** `MidiSyn::new`: nothing sounding, nothing written. */
  function NewEngine(): (e: Engine)
    ensures Valid(e) && e.track == NewTrackState()
    ensures e.sounds == map[] && e.dampered == [] && e.released == []
    ensures e.sampleIx == 0.0 && e.output == [] && Count(e) == 0
  {
    Engine(NewTrackState(), map[], [], [], 0.0, [])
  }

  /** How many producers the engine holds. */
  function Count(e: Engine): nat {
    |e.sounds| + |e.dampered| + |e.released|
  }

  // ---- Time ------------------------------------------------------------

  /** Sample `i` from now of everything that sounds. */
  function Mix(e: Engine, i: nat): real {
    MapAt(e.sounds, i) + VecAt(e.dampered, i) + VecAt(e.released, i)
  }

  /** The next `n` samples of the mix. */
  function Block(e: Engine, n: nat): (r: seq<real>)
    ensures |r| == n
  {
    seq(n, i requires 0 <= i < n => Mix(e, i))
  }

  /** `elapse_ticks(vt)`. Zero ticks change nothing. Otherwise the carried
      fraction plus the ticks' samples is split into a whole part `n` and a
      new fraction; `output` grows by the next `n` samples of the mix and
      every producer advances by `n`. */
  function Elapse(e: Engine, vt: nat): (r: Engine)
    requires Valid(e)
    ensures Valid(r)
    ensures r.track == e.track
    ensures |r.output| >= |e.output| && r.output[..|e.output|] == e.output
    ensures |r.output| as real + r.sampleIx
         == |e.output| as real + e.sampleIx + SamplesInTick(e.track, SP.SAMPLE_RATE, vt)
  {
    if vt == 0 then e
    else
      var total := e.sampleIx + SamplesInTick(e.track, SP.SAMPLE_RATE, vt);
      var n := Ticks(total);
      Engine(e.track, AdvanceMap(e.sounds, n), AdvanceVec(e.dampered, n), AdvanceVec(e.released, n),
             total - n as real, e.output + Block(e, n))
  }

  /** Zero ticks elapse without a trace. */
  lemma ElapseZero(e: Engine)
    requires Valid(e)
    ensures Elapse(e, 0) == e
  {
  }

  /** The whole number of samples an advance by `vt` ticks writes. */
  function Whole(e: Engine, vt: nat): nat
    requires Valid(e)
  {
    Ticks(e.sampleIx + SamplesInTick(e.track, SP.SAMPLE_RATE, vt))
  }

  /** What an advance by `vt > 0` ticks writes: `output` grows by exactly
      `floor(sample_ix + samples_in_tick(vt))` samples, the new samples are
      the mix of what sounded, and every producer is advanced by as many. */
  lemma ElapseWrites(e: Engine, vt: nat)
    requires Valid(e) && vt > 0
    ensures Elapse(e, vt).output == e.output + Block(e, Whole(e, vt))
    ensures |Elapse(e, vt).output| == |e.output| + Whole(e, vt)
    ensures forall i :: 0 <= i < Whole(e, vt) ==> Elapse(e, vt).output[|e.output| + i] == Mix(e, i)
    ensures Elapse(e, vt).sounds == AdvanceMap(e.sounds, Whole(e, vt))
    ensures Elapse(e, vt).dampered == AdvanceVec(e.dampered, Whole(e, vt))
    ensures Elapse(e, vt).released == AdvanceVec(e.released, Whole(e, vt))
  {
    var n := Whole(e, vt);
    assert forall i :: 0 <= i < n ==> Block(e, n)[i] == Mix(e, i);
  }

  /** An advance by `vt > 0` ticks written out with its whole part `n`. */
  lemma ElapseSplit(e: Engine, vt: nat, total: real, n: nat)
    requires Valid(e) && vt > 0
    requires total == e.sampleIx + SamplesInTick(e.track, SP.SAMPLE_RATE, vt) && n == Ticks(total)
    ensures Elapse(e, vt) == Engine(e.track, AdvanceMap(e.sounds, n), AdvanceVec(e.dampered, n),
                                    AdvanceVec(e.released, n), total - n as real, e.output + Block(e, n))
  {
  }

  /** After an advance the mix continues from where it stopped: nothing
      that sounds is skipped or played twice. */
  lemma {:induction false} ElapseContinues(e: Engine, vt: nat, i: nat)
    requires Valid(e) && vt > 0
    ensures Mix(Elapse(e, vt), i) == Mix(e, Whole(e, vt) + i)
  {
    ElapseAdvances(e, vt);
    MixShift(e, Elapse(e, vt), Whole(e, vt), i);
  }

  lemma ElapseAdvances(e: Engine, vt: nat)
    requires Valid(e) && vt > 0
    ensures Elapse(e, vt).sounds == AdvanceMap(e.sounds, Whole(e, vt))
    ensures Elapse(e, vt).dampered == AdvanceVec(e.dampered, Whole(e, vt))
    ensures Elapse(e, vt).released == AdvanceVec(e.released, Whole(e, vt))
  {
  }

  lemma {:induction false} MixShift(e: Engine, r: Engine, n: nat, i: nat)
    requires r.sounds == AdvanceMap(e.sounds, n)
    requires r.dampered == AdvanceVec(e.dampered, n) && r.released == AdvanceVec(e.released, n)
    ensures Mix(r, i) == Mix(e, n + i)
  {
    MapAtShift(e.sounds, n, i);
    VecAtShift(e.dampered, n, i);
    VecAtShift(e.released, n, i);
  }

  /** Time never creates a producer. */
  lemma ElapseCount(e: Engine, vt: nat)
    requires Valid(e)
    ensures Count(Elapse(e, vt)) <= Count(e)
  {
    if vt > 0 {
      var n := Ticks(e.sampleIx + SamplesInTick(e.track, SP.SAMPLE_RATE, vt));
      KeysCard(AdvanceMap(e.sounds, n).Keys, e.sounds.Keys);
    }
  }

  lemma {:induction false} KeysCard(a: set<Byte>, b: set<Byte>)
    requires a <= b
    ensures |a| <= |b|
    decreases |b|
  {
    if a != {} {
      var x :| x in a;
      KeysCard(a - {x}, b - {x});
    }
  }

  // ---- The handlers ----------------------------------------------------

  /** A released note: `just_release().mult(s, 0.1)`. */
  function JustRel(s: seq<real>): seq<real> {
    SP.EnvMult(SP.JustRelease(), s, 0.1)
  }

  /** A released note is cut to 0.1 s (4410 samples) and faded linearly
      from its full level. */
  lemma JustRelShape(s: seq<real>)
    ensures JustRel(s) == SP.Mult(SP.InterpolateTo(1.0, 0.0, 0.1, SP.SAMPLE_RATE), s)
    ensures |JustRel(s)| == if |s| <= 4410 then |s| else 4410
    ensures |s| > 0 ==> JustRel(s)[0] == s[0]
  {
    var m := ReleaseCurve();
    if |s| > 0 {
      UnitGain(m[0], s[0]);
    }
  }

  lemma UnitGain(g: real, x: real)
    requires g == 1.0
    ensures g * x == x
  {
  }

  /** The fade of a released note: 4410 samples from 1 down toward 0. */
  lemma ReleaseCurve() returns (m: seq<real>)
    ensures m == SP.Make(SP.JustRelease(), 0.1) == SP.InterpolateTo(1.0, 0.0, 0.1, SP.SAMPLE_RATE)
    ensures |m| == 4410 && m[0] == 1.0
  {
    SP.JustReleaseMake(1.0, 0.1);
    assert SP.JustRelease().(amp := 1.0) == SP.JustRelease();
    ReleaseTicks();
    m := SP.Make(SP.JustRelease(), 0.1);
  }

  lemma ReleaseTicks()
    ensures Ticks(0.1 * SP.SAMPLE_RATE) == 4410
  {
    assert 0.1 * SP.SAMPLE_RATE == 4410.0;
  }

  /** `do_note_off(key)`: a pressed key's producer leaves `sounds`; with
      the pedal down it waits, unchanged, in `dampered_sounds`, otherwise
      it is faded out into `released_sounds`. An unpressed key is ignored. */
  function HandleNoteOff(e: Engine, key: Byte): (r: Engine)
    ensures r.track == e.track && r.sampleIx == e.sampleIx && r.output == e.output
  {
    if key !in e.sounds then e
    else if e.track.damperPedal then
      e.(sounds := e.sounds - {key}, dampered := e.dampered + [e.sounds[key]])
    else
      e.(sounds := e.sounds - {key}, released := e.released + [JustRel(e.sounds[key])])
  }

  /** `HandleNoteOff` on a pressed key, field by field. */
  lemma NoteOffShape(e: Engine, key: Byte)
    requires key in e.sounds
    ensures e.track.damperPedal ==>
              HandleNoteOff(e, key) == Engine(e.track, e.sounds - {key}, e.dampered + [e.sounds[key]],
                                              e.released, e.sampleIx, e.output)
    ensures !e.track.damperPedal ==>
              HandleNoteOff(e, key) == Engine(e.track, e.sounds - {key}, e.dampered,
                                              e.released + [JustRel(e.sounds[key])], e.sampleIx, e.output)
  {
  }

  /** `velo / 128`. */
  function Amp(velo: Byte): real {
    velo as real / 128.0
  }

  /** The producer for a struck key: `Piano::syn` or, for any other
      instrument, a sine with duration `SINE_DURATION` at the engine's
      sample rate. */
  function NewSound(ins: Instruments, instrument: Instrument, key: Byte, velo: Byte): seq<real> {
    match instrument
    case PianoInstr => ins.piano(key - 60, Amp(velo))
    case NoImpl => ins.sine(key - 60, SINE_DURATION, Amp(velo), SP.SAMPLE_RATE)
  }

  /** `do_note_on(key, velo)`: velocity 0 is a NoteOff; a key already
      pressed is released first; then the new producer is stored under the
      key. */
  function HandleNoteOn(ins: Instruments, e: Engine, key: Byte, velo: Byte): (r: Engine)
    ensures r.track == e.track && r.sampleIx == e.sampleIx && r.output == e.output
  {
    if velo == 0 then HandleNoteOff(e, key)
    else
      var e1 := if key in e.sounds then HandleNoteOff(e, key) else e;
      e1.(sounds := e1.sounds[key := NewSound(ins, e.track.instrument, key, velo)])
  }

  /** Every dampered producer faded out, in order. */
  function ReleaseAll(ss: seq<seq<real>>): (r: seq<seq<real>>)
    ensures |r| == |ss|
    ensures forall i :: 0 <= i < |ss| ==> r[i] == JustRel(ss[i])
  {
    seq(|ss|, i requires 0 <= i < |ss| => JustRel(ss[i]))
  }

  lemma ReleaseAllAppend(ss: seq<seq<real>>, i: nat)
    requires i < |ss|
    ensures ReleaseAll(ss[..i + 1]) == ReleaseAll(ss[..i]) + [JustRel(ss[i])]
  {
    var l, r := ReleaseAll(ss[..i + 1]), ReleaseAll(ss[..i]) + [JustRel(ss[i])];
    assert |l| == |r|;
    forall j | 0 <= j <= i
      ensures l[j] == r[j]
    {
      assert ss[..i + 1][j] == ss[j];
    }
  }

  /** `do_ctrl_change(ctrl, value)`: only controller 64, the damper pedal,
      is handled; it is down for values from 64. Lifting it fades out every
      dampered producer into `released_sounds`, in order. */
  function HandleCtrlChange(e: Engine, ctrl: Byte, value: Byte): (r: Engine)
    ensures r.track.div == e.track.div && r.track.tempo == e.track.tempo
    ensures r.sampleIx == e.sampleIx && r.output == e.output
  {
    if ctrl != 64 then e
    else
      var on := value >= 64;
      var e1 := if e.track.damperPedal != on && !on
        then e.(dampered := [], released := e.released + ReleaseAll(e.dampered))
        else e;
      e1.(track := e1.track.(damperPedal := on))
  }

  /** `do_prog_change(preset)`: the piano for presets 0 to 7, otherwise no
      implementation (which plays sines). */
  function HandleProgChange(e: Engine, preset: Byte): (r: Engine) {
    e.(track := e.track.(instrument := if preset <= 7 then PianoInstr else NoImpl))
  }

  /** `do_midi` and `do_meta`: a tempo meta event sets the tempo; key
      signatures, the end of the track and every other event change nothing. */
  function HandleEvent(ins: Instruments, e: Engine, ev: Event): (r: Engine)
    ensures r.track.div == e.track.div && r.sampleIx == e.sampleIx && r.output == e.output
    ensures r.track.tempo == TempoAfter(e.track.tempo, ev)
  {
    match ev
    case NoteOn(key, velo) => HandleNoteOn(ins, e, key, velo)
    case NoteOff(key) => HandleNoteOff(e, key)
    case ProgramChange(preset) => HandleProgChange(e, preset)
    case ControlChange(ctrl, value) => HandleCtrlChange(e, ctrl, value)
    case TempoSetting(tempo) => e.(track := e.track.(tempo := tempo))
    case _ => e
  }

  /** One track event: the delta time elapses, then the event acts. */
  function Step(ins: Instruments, e: Engine, te: TrackEvent): (r: Engine)
    requires Valid(e)
    ensures Valid(r)
  {
    HandleEvent(ins, Elapse(e, te.vtime), te.event)
  }

  /** `syn(track)`: every event in turn. */
  function Run(ins: Instruments, e: Engine, evs: seq<TrackEvent>): (r: Engine)
    requires Valid(e)
    ensures Valid(r)
    ensures |r.output| >= |e.output| && r.output[..|e.output|] == e.output
    decreases |evs|
  {
    if evs == [] then e else Run(ins, Step(ins, e, evs[0]), evs[1..])
  }

  // ---- The clock -------------------------------------------------------

  /** No drift: over any track, the samples written plus the carried
      fraction are exactly the samples the ticks last, each at the tempo in
      force when it elapses. Rounding never accumulates. */
  lemma {:induction false} NoDrift(ins: Instruments, e: Engine, evs: seq<TrackEvent>)
    requires Valid(e)
    ensures |Run(ins, e, evs).output| as real + Run(ins, e, evs).sampleIx
         == |e.output| as real + e.sampleIx + Clock(e.track.div, e.track.tempo, SP.SAMPLE_RATE, evs)
    decreases |evs|
  {
    if evs != [] {
      var te := evs[0];
      var ee := Elapse(e, te.vtime);
      var e1 := HandleEvent(ins, ee, te.event);
      assert e1 == Step(ins, e, te);
      NoDrift(ins, e1, evs[1..]);
      SamplesInTickTempo(e.track, TrackState(e.track.div, e.track.tempo, PianoInstr, false), te.vtime);
      assert e1.track.div == e.track.div && e1.track.tempo == TempoAfter(e.track.tempo, te.event);
      assert Run(ins, e, evs) == Run(ins, e1, evs[1..]);
    }
  }

  /** The clock reads only the tempo and the division of a track state. */
  lemma SamplesInTickTempo(a: TrackState, b: TrackState, ticks: nat)
    requires a.div > 0 && a.div == b.div && a.tempo == b.tempo
    ensures SamplesInTick(a, SP.SAMPLE_RATE, ticks) == SamplesInTick(b, SP.SAMPLE_RATE, ticks)
  {
  }

  /** From a fresh engine, a track writes exactly `floor` of its exact
      length in samples. */
  lemma RunLength(ins: Instruments, evs: seq<TrackEvent>)
    ensures |Run(ins, NewEngine(), evs).output| == Ticks(Clock(480, 434000, SP.SAMPLE_RATE, evs))
  {
    NoDrift(ins, NewEngine(), evs);
    var r := Run(ins, NewEngine(), evs);
    var c := Clock(480, 434000, SP.SAMPLE_RATE, evs);
    assert |r.output| as real + r.sampleIx == c;
    assert c.Floor == |r.output|;
  }

  /** At the initial tempo two one-tick advances write 39 and then 40
      samples: 79 in all with 0.7475 carried, the same as one two-tick
      advance. */
  lemma CarryExample(ins: Instruments)
    ensures |Elapse(Elapse(NewEngine(), 1), 1).output| == 79
    ensures |Elapse(NewEngine(), 2).output| == 79
    ensures Elapse(Elapse(NewEngine(), 1), 1).sampleIx == Elapse(NewEngine(), 2).sampleIx == 0.7475
  {
    var e := NewEngine();
    assert SamplesInTick(e.track, SP.SAMPLE_RATE, 1) == 39.87375;
    assert SamplesInTick(e.track, SP.SAMPLE_RATE, 2) == 79.7475;
    var e1 := Elapse(e, 1);
    assert Ticks(39.87375) == 39;
    assert e1.sampleIx == 0.87375;
    assert Ticks(0.87375 + 39.87375) == 40;
    assert Ticks(79.7475) == 79;
  }

  // ---- Note lifecycle --------------------------------------------------

  /** NoteOff: an unpressed key changes nothing; a pressed key leaves
      `sounds` and exactly one producer joins `dampered_sounds` (pedal
      down, the producer itself) or `released_sounds` (pedal up, faded). */
  lemma NoteOffMoves(e: Engine, key: Byte)
    ensures key !in e.sounds ==> HandleNoteOff(e, key) == e
    ensures key in e.sounds ==> HandleNoteOff(e, key).sounds == e.sounds - {key}
    ensures key in e.sounds && e.track.damperPedal ==>
      HandleNoteOff(e, key).dampered == e.dampered + [e.sounds[key]] && HandleNoteOff(e, key).released == e.released
    ensures key in e.sounds && !e.track.damperPedal ==>
      HandleNoteOff(e, key).released == e.released + [JustRel(e.sounds[key])] && HandleNoteOff(e, key).dampered == e.dampered
    ensures Count(HandleNoteOff(e, key)) == Count(e)
  {
    if key in e.sounds {
      assert (e.sounds - {key}).Keys == e.sounds.Keys - {key};
    }
  }

  /** NoteOn: velocity 0 is exactly NoteOff. Otherwise the key ends up
      holding the one new producer, built at amplitude `velo / 128`; the
      other keys are untouched, a producer already under the key is
      released as NoteOff would release it, and the engine holds one
      producer more. */
  lemma NoteOnStores(ins: Instruments, e: Engine, key: Byte, velo: Byte)
    ensures velo == 0 ==> HandleNoteOn(ins, e, key, velo) == HandleNoteOff(e, key)
    ensures velo != 0 ==> key in HandleNoteOn(ins, e, key, velo).sounds
    ensures velo != 0 ==> HandleNoteOn(ins, e, key, velo).sounds[key] == NewSound(ins, e.track.instrument, key, velo)
    ensures velo != 0 ==> HandleNoteOn(ins, e, key, velo).sounds - {key} == e.sounds - {key}
    ensures velo != 0 ==> HandleNoteOn(ins, e, key, velo).dampered == HandleNoteOff(e, key).dampered
    ensures velo != 0 ==> HandleNoteOn(ins, e, key, velo).released == HandleNoteOff(e, key).released
    ensures velo != 0 ==> Count(HandleNoteOn(ins, e, key, velo)) == Count(e) + 1
    ensures velo == 0 ==> Count(HandleNoteOn(ins, e, key, velo)) == Count(e)
  {
    NoteOffMoves(e, key);
    if velo != 0 {
      var e1 := HandleNoteOff(e, key);
      assert key !in e1.sounds;
      var v := NewSound(ins, e.track.instrument, key, velo);
      assert HandleNoteOn(ins, e, key, velo) == e1.(sounds := e1.sounds[key := v]);
      InsertFresh(e1.sounds, key, v);
    }
  }

  lemma InsertFresh(m: map<Byte, seq<real>>, key: Byte, v: seq<real>)
    requires key !in m
    ensures |m[key := v]| == |m| + 1 && m[key := v] - {key} == m - {key}
  {
    assert m[key := v].Keys == m.Keys + {key};
  }

  /** The piano plays for presets 0 to 7 and NoteOn then asks it for the
      note; any other preset makes NoteOn build a sine of duration
      `SINE_DURATION`. */
  lemma InstrumentChoice(ins: Instruments, e: Engine, preset: Byte, key: Byte, velo: Byte)
    requires velo != 0
    ensures HandleProgChange(e, preset).track.instrument == PianoInstr <==> preset <= 7
    ensures preset <= 7 ==> HandleNoteOn(ins, HandleProgChange(e, preset), key, velo).sounds[key] == ins.piano(key - 60, velo as real / 128.0)
    ensures preset > 7 ==> HandleNoteOn(ins, HandleProgChange(e, preset), key, velo).sounds[key] == ins.sine(key - 60, SINE_DURATION, velo as real / 128.0, SP.SAMPLE_RATE)
  {
    NoteOnStores(ins, HandleProgChange(e, preset), key, velo);
  }

  /** ControlChange: controllers other than 64 change nothing. For 64 the
      pedal is down exactly for values from 64; lifting a pedal that was
      down empties `dampered_sounds` into `released_sounds`, in order and
      faded; otherwise the producers stay where they are. No producer is
      made or lost. */
  lemma CtrlChangeMoves(e: Engine, ctrl: Byte, value: Byte)
    ensures ctrl != 64 ==> HandleCtrlChange(e, ctrl, value) == e
    ensures ctrl == 64 ==> HandleCtrlChange(e, ctrl, value).track.damperPedal == (value >= 64)
    ensures ctrl == 64 && e.track.damperPedal && value < 64 ==>
      HandleCtrlChange(e, ctrl, value).dampered == [] &&
      HandleCtrlChange(e, ctrl, value).released == e.released + ReleaseAll(e.dampered)
    ensures !(e.track.damperPedal && value < 64) ==>
      HandleCtrlChange(e, ctrl, value).dampered == e.dampered && HandleCtrlChange(e, ctrl, value).released == e.released
    ensures HandleCtrlChange(e, ctrl, value).sounds == e.sounds
    ensures Count(HandleCtrlChange(e, ctrl, value)) == Count(e)
  {
  }

  /** With the pedal up nothing is dampered. Every event and every advance
      keeps it so. */
  predicate PedalClear(e: Engine) {
    !e.track.damperPedal ==> e.dampered == []
  }

  lemma StepKeepsPedalClear(ins: Instruments, e: Engine, te: TrackEvent)
    requires Valid(e) && PedalClear(e)
    ensures PedalClear(Step(ins, e, te))
  {
    var e1 := Elapse(e, te.vtime);
    assert e1.track == e.track;
    if te.vtime != 0 {
      var total := e.sampleIx + SamplesInTick(e.track, SP.SAMPLE_RATE, te.vtime);
      ElapseSplit(e, te.vtime, total, Ticks(total));
    }
    EventKeepsPedalClear(ins, e1, te.event);
  }

  lemma EventKeepsPedalClear(ins: Instruments, e: Engine, ev: Event)
    requires PedalClear(e)
    ensures PedalClear(HandleEvent(ins, e, ev))
  {
    match ev
    case NoteOn(key, velo) => NoteOffMoves(e, key);
    case NoteOff(key) => NoteOffMoves(e, key);
    case _ =>
  }

  /** Holding the pedal through a release and lifting it straight after is
      the same as releasing the key with the pedal up. */
  lemma PedalThenLift(e: Engine, key: Byte)
    requires !e.track.damperPedal && PedalClear(e)
    ensures HandleCtrlChange(HandleNoteOff(HandleCtrlChange(e, 64, 127), key), 64, 0) == HandleNoteOff(e, key)
  {
    var held := HandleNoteOff(HandleCtrlChange(e, 64, 127), key);
    if key in e.sounds {
      assert held.dampered == [e.sounds[key]];
      assert ReleaseAll(held.dampered) == [JustRel(e.sounds[key])];
    }
  }

  /** Producers are conserved: an event adds one exactly when it strikes a
      note, and time only removes finished ones, so a track never holds
      more producers than it struck notes beyond what it began with. */
  lemma DoEventCount(ins: Instruments, e: Engine, ev: Event)
    ensures Count(HandleEvent(ins, e, ev)) == Count(e) + (if ev.NoteOn? && ev.velo != 0 then 1 else 0)
  {
    match ev
    case NoteOn(key, velo) => NoteOnStores(ins, e, key, velo);
    case NoteOff(key) => NoteOffMoves(e, key);
    case ControlChange(ctrl, value) => CtrlChangeMoves(e, ctrl, value);
    case _ =>
  }

  lemma {:induction false} RunCount(ins: Instruments, e: Engine, evs: seq<TrackEvent>)
    requires Valid(e)
    ensures Count(Run(ins, e, evs)) <= Count(e) + Strikes(evs)
    decreases |evs|
  {
    if evs != [] {
      ElapseCount(e, evs[0].vtime);
      DoEventCount(ins, Elapse(e, evs[0].vtime), evs[0].event);
      RunCount(ins, Step(ins, e, evs[0]), evs[1..]);
    }
  }

  // ---- syn_gen ---------------------------------------------------------

  /** Where the generator stands: the next event, and whether that event's
      time has already elapsed (and been yielded) but the event itself not
      yet acted. */
  datatype Cursor = Cursor(pos: nat, pending: bool)

  predicate CursorOk(c: Cursor, evs: seq<TrackEvent>) {
    c.pos <= |evs| && (c.pending ==> c.pos < |evs|)
  }

  /** Run events from `pos` until one with a non-zero delta time has
      elapsed: its output is the chunk, and `output` starts anew. `None`
      when the track ends first. */
  function ToYield(ins: Instruments, e: Engine, evs: seq<TrackEvent>, pos: nat): (r: (Option<seq<real>>, Engine, Cursor))
    requires Valid(e) && pos <= |evs|
    ensures Valid(r.1) && CursorOk(r.2, evs) && r.2.pos >= pos
    ensures r.0.Some? ==> r.2.pending
    ensures r.0.None? ==> r.2 == Cursor(|evs|, false)
    decreases |evs| - pos
  {
    if pos == |evs| then (None, e, Cursor(|evs|, false))
    else
      var e1 := Elapse(e, evs[pos].vtime);
      if evs[pos].vtime != 0 then (Some(e1.output), e1.(output := []), Cursor(pos, true))
      else ToYield(ins, HandleEvent(ins, e1, evs[pos].event), evs, pos + 1)
  }

  /** Resuming the generator: the event whose time was yielded acts first. */
  function Resume(ins: Instruments, e: Engine, evs: seq<TrackEvent>, c: Cursor): (r: (Option<seq<real>>, Engine, Cursor))
    requires Valid(e) && CursorOk(c, evs)
    ensures Valid(r.1) && CursorOk(r.2, evs)
    ensures r.0.Some? ==> r.2.pending && (if c.pending then r.2.pos > c.pos else r.2.pos >= c.pos)
  {
    if c.pending then ToYield(ins, HandleEvent(ins, e, evs[c.pos].event), evs, c.pos + 1)
    else ToYield(ins, e, evs, c.pos)
  }

  /** One event of `ToYield`: a non-zero delta time ends the chunk, a
      zero one lets the event act and goes on. */
  lemma ToYieldStep(ins: Instruments, e: Engine, evs: seq<TrackEvent>, pos: nat)
    requires Valid(e) && pos < |evs|
    ensures evs[pos].vtime != 0 ==>
              ToYield(ins, e, evs, pos) == (Some(Elapse(e, evs[pos].vtime).output),
                                            Elapse(e, evs[pos].vtime).(output := []), Cursor(pos, true))
    ensures evs[pos].vtime == 0 ==>
              ToYield(ins, e, evs, pos) == ToYield(ins, HandleEvent(ins, e, evs[pos].event), evs, pos + 1)
  {
  }

  /** Every chunk the generator yields until it is done, and the engine it
      leaves. */
  function Drain(ins: Instruments, e: Engine, evs: seq<TrackEvent>, c: Cursor): (seq<seq<real>>, Engine)
    requires Valid(e) && CursorOk(c, evs)
    decreases 2 * (|evs| - c.pos) + (if c.pending then 0 else 1)
  {
    var r := Resume(ins, e, evs, c);
    if r.0.None? then ([], r.1)
    else
      var d := Drain(ins, r.1, evs, r.2);
      ([r.0.value] + d.0, d.1)
  }

  function Flatten(cs: seq<seq<real>>): seq<real> {
    if cs == [] then [] else cs[0] + Flatten(cs[1..])
  }

  /** Acting on an engine does not look at its output. */
  lemma DoEventOutput(ins: Instruments, e: Engine, o: seq<real>, ev: Event)
    ensures HandleEvent(ins, e.(output := o), ev) == HandleEvent(ins, e, ev).(output := o)
  {
  }

  /** Time does not look at what was written before either. */
  lemma ElapseOutput(x: Engine, o: seq<real>, vt: nat)
    requires Valid(x)
    ensures Elapse(x.(output := o + x.output), vt) == Elapse(x, vt).(output := o + Elapse(x, vt).output)
  {
    if vt > 0 {
      var y := x.(output := o + x.output);
      var total := x.sampleIx + SamplesInTick(x.track, SP.SAMPLE_RATE, vt);
      var n := Ticks(total);
      ElapseSplit(x, vt, total, n);
      ElapseSplit(y, vt, total, n);
      assert Block(y, n) == Block(x, n) by {
        forall i | 0 <= i < n
          ensures Block(y, n)[i] == Block(x, n)[i]
        {
        }
      }
      assert (o + x.output) + Block(x, n) == o + (x.output + Block(x, n));
    }
  }

  /** Output written earlier only stays in front of what a run writes. */
  lemma {:induction false} RunPrefix(ins: Instruments, x: Engine, o: seq<real>, evs: seq<TrackEvent>)
    requires Valid(x)
    ensures Run(ins, x.(output := o + x.output), evs)
         == Run(ins, x, evs).(output := o + Run(ins, x, evs).output)
    decreases |evs|
  {
    if evs != [] {
      var te := evs[0];
      var y := x.(output := o + x.output);
      var ey := Elapse(x, te.vtime);
      ElapseOutput(x, o, te.vtime);
      DoEventOutput(ins, ey, o + ey.output, te.event);
      var s := Step(ins, x, te);
      assert Step(ins, y, te) == s.(output := o + s.output);
      RunPrefix(ins, s, o, evs[1..]);
    }
  }

  /** From event `pos` on, the chunks and what the generator leaves in
      `output` make up what `syn` writes from there, the engine ends as
      `syn` leaves it, one chunk comes per event with a non-zero delta
      time, and an empty `output` stays empty at the end. */
  lemma {:induction false} DrainRuns(ins: Instruments, e: Engine, evs: seq<TrackEvent>, pos: nat)
    requires Valid(e) && pos <= |evs|
    ensures var d := Drain(ins, e, evs, Cursor(pos, false)); var r := Run(ins, e, evs[pos..]);
      Flatten(d.0) + d.1.output == r.output && d.1 == r.(output := d.1.output)
    ensures |Drain(ins, e, evs, Cursor(pos, false)).0| == Yields(evs[pos..])
    ensures e.output == [] ==> Drain(ins, e, evs, Cursor(pos, false)).1.output == []
    decreases |evs| - pos
  {
    var d := Drain(ins, e, evs, Cursor(pos, false));
    if pos == |evs| {
      assert evs[pos..] == [];
    } else {
      var te := evs[pos];
      assert evs[pos..][0] == te && evs[pos..][1..] == evs[pos + 1..];
      var e1 := Elapse(e, te.vtime);
      if te.vtime == 0 {
        var e2 := HandleEvent(ins, e1, te.event);
        assert Resume(ins, e, evs, Cursor(pos, false)) == Resume(ins, e2, evs, Cursor(pos + 1, false));
        assert d == Drain(ins, e2, evs, Cursor(pos + 1, false));
        DrainRuns(ins, e2, evs, pos + 1);
      } else {
        var e1c := e1.(output := []);
        var e3 := HandleEvent(ins, e1c, te.event);
        assert Resume(ins, e, evs, Cursor(pos, false)) == (Some(e1.output), e1c, Cursor(pos, true));
        assert Resume(ins, e1c, evs, Cursor(pos, true)) == Resume(ins, e3, evs, Cursor(pos + 1, false));
        var d' := Drain(ins, e3, evs, Cursor(pos + 1, false));
        assert d == ([e1.output] + d'.0, d'.1);
        DrainRuns(ins, e3, evs, pos + 1);
        var r3 := Run(ins, e3, evs[pos + 1..]);
        DoEventOutput(ins, e1c, e1.output, te.event);
        assert HandleEvent(ins, e1, te.event) == e3.(output := e1.output + e3.output);
        RunPrefix(ins, e3, e1.output, evs[pos + 1..]);
        assert Run(ins, e, evs[pos..]) == r3.(output := e1.output + r3.output);
        assert Flatten(d.0) == e1.output + Flatten(d'.0);
      }
    }
  }

  /** `syn_gen` clears `output` and then yields, chunk by chunk, exactly
      what `syn` writes from an empty `output`: one chunk per event with a
      non-zero delta time, and the engine ends as `syn` leaves it, except
      that its `output` has been handed out. */
  lemma SynGenIsSyn(ins: Instruments, e: Engine, evs: seq<TrackEvent>)
    requires Valid(e) && e.output == []
    ensures Flatten(Drain(ins, e, evs, Cursor(0, false)).0) == Run(ins, e, evs).output
    ensures Drain(ins, e, evs, Cursor(0, false)).1 == Run(ins, e, evs).(output := [])
    ensures |Drain(ins, e, evs, Cursor(0, false)).0| == Yields(evs)
  {
    assert evs[0..] == evs;
    DrainRuns(ins, e, evs, 0);
  }

  /** The mixing half of `elapse_ticks`: a zeroed buffer of `n` samples,
      into which the pressed, the dampered and the released producers are
      added in turn, each container keeping only the producers that last
      past the buffer. */
  method MixBlock(e: Engine, n: nat) returns (block: seq<real>, s1: map<Byte, seq<real>>,
                                              d1: seq<seq<real>>, r1: seq<seq<real>>)
    ensures block == Block(e, n)
    ensures s1 == AdvanceMap(e.sounds, n)
    ensures d1 == AdvanceVec(e.dampered, n) && r1 == AdvanceVec(e.released, n)
  {
    var dst := new real[n](_ => 0.0);
    ghost var zero := dst[..];
    s1 := ElapseMap(e.sounds, dst);
    ghost var afterMap := dst[..];
    d1 := ElapseVec(e.dampered, dst);
    ghost var afterDampered := dst[..];
    r1 := ElapseVec(e.released, dst);
    forall j | 0 <= j < n
      ensures dst[j] == Mix(e, j)
    {
      assert zero[j] == 0.0;
      assert afterMap[j] == zero[j] + MapAt(e.sounds, j);
      assert afterDampered[j] == afterMap[j] + VecAt(e.dampered, j);
    }
    block := dst[..];
  }

  // ---- The engine as an object -----------------------------------------

  /** `MidiSyn`, with the generator's position kept in `cursor`. */
  class MidiSyn {
    const ins: Instruments
    var track: TrackState
    var sounds: map<Byte, seq<real>>
    var dampered: seq<seq<real>>
    var released: seq<seq<real>>
    var sampleIx: real
    var output: seq<real>
    var cursor: Cursor

    function State(): Engine
      reads this
    {
      Engine(track, sounds, dampered, released, sampleIx, output)
    }

    /** `MidiSyn::new(piano)`. */
    constructor (ins: Instruments)
      ensures this.ins == ins && State() == NewEngine() && cursor == Cursor(0, false)
    {
      this.ins := ins;
      track := NewTrackState();
      sounds := map[];
      dampered := [];
      released := [];
      sampleIx := 0.0;
      output := [];
      cursor := Cursor(0, false);
    }

    /** `elapse_ticks(vt)`: the carried fraction is split off, the next
        whole samples of the mix are appended to `output` and every
        producer advances by as many. */
    method ElapseTicks(vt: nat)
      requires Valid(State())
      modifies this
      ensures State() == Elapse(old(State()), vt) && cursor == old(cursor)
    {
      if vt == 0 {
        return;
      }
      ghost var e := State();
      var total := sampleIx + SamplesInTick(track, SP.SAMPLE_RATE, vt);
      var n := Ticks(total);
      var block, s1, d1, r1 := MixBlock(State(), n);
      sounds, dampered, released := s1, d1, r1;
      sampleIx := total - n as real;
      output := output + block;
      ElapseSplit(e, vt, total, n);
    }

    /** `do_note_off(key)`. */
    method DoNoteOff(key: Byte)
      modifies this
      ensures State() == HandleNoteOff(old(State()), key) && cursor == old(cursor)
    {
      if key in sounds {
        NoteOffShape(State(), key);
        var ss := sounds[key];
        sounds := sounds - {key};
        if track.damperPedal {
          dampered := dampered + [ss];
        } else {
          var faded := JustRel(ss);
          released := released + [faded];
        }
      }
    }

    /** `do_note_on(key, velo)`. */
    method DoNoteOn(key: Byte, velo: Byte)
      modifies this
      ensures State() == HandleNoteOn(ins, old(State()), key, velo) && cursor == old(cursor)
    {
      if velo == 0 {
        DoNoteOff(key);
        return;
      }
      if key in sounds {
        DoNoteOff(key);
      }
      var amp := velo as real / 128.0;
      var ss := match track.instrument
        case PianoInstr => ins.piano(key - 60, amp)
        case NoImpl => ins.sine(key - 60, SINE_DURATION, amp, SP.SAMPLE_RATE);
      sounds := sounds[key := ss];
    }

    /** `do_prog_change(preset)`. */
    method DoProgChange(preset: Byte)
      modifies this
      ensures State() == HandleProgChange(old(State()), preset) && cursor == old(cursor)
    {
      var instr := if preset <= 7 then PianoInstr else NoImpl;
      track := track.(instrument := instr);
    }

    /** `do_ctrl_change(ctrl, value)`: lifting the pedal moves the dampered
        producers one by one. */
    method DoCtrlChange(ctrl: Byte, value: Byte)
      modifies this
      ensures State() == HandleCtrlChange(old(State()), ctrl, value) && cursor == old(cursor)
    {
      if ctrl == 64 {
        var on := value >= 64;
        if track.damperPedal != on {
          if !on {
            var ss := dampered;
            dampered := [];
            var i := 0;
            while i < |ss|
              invariant 0 <= i <= |ss|
              invariant released == old(released) + ReleaseAll(ss[..i])
              invariant dampered == [] && track == old(track) && sounds == old(sounds)
              invariant sampleIx == old(sampleIx) && output == old(output) && cursor == old(cursor)
            {
              ReleaseAllAppend(ss, i);
              released := released + [JustRel(ss[i])];
              i := i + 1;
            }
            assert ss[..|ss|] == ss;
          }
        }
        track := track.(damperPedal := on);
      }
    }

    /** `do_midi` and `do_meta`. */
    method DoEvent(ev: Event)
      modifies this
      ensures State() == HandleEvent(ins, old(State()), ev) && cursor == old(cursor)
    {
      match ev
      case NoteOn(key, velo) => DoNoteOn(key, velo);
      case NoteOff(key) => DoNoteOff(key);
      case ProgramChange(preset) => DoProgChange(preset);
      case ControlChange(ctrl, value) => DoCtrlChange(ctrl, value);
      case TempoSetting(tempo) => track := track.(tempo := tempo);
      case _ =>
    }

    /** `syn(track)`: the whole track, then the output written so far. */
    method Syn(evs: seq<TrackEvent>) returns (out: seq<real>)
      requires Valid(State())
      modifies this
      ensures State() == Run(ins, old(State()), evs) && out == output && cursor == old(cursor)
    {
      var i := 0;
      while i < |evs|
        invariant 0 <= i <= |evs| && Valid(State())
        invariant Run(ins, old(State()), evs) == Run(ins, State(), evs[i..])
        invariant cursor == old(cursor)
      {
        assert evs[i..][0] == evs[i] && evs[i..][1..] == evs[i + 1..];
        ElapseTicks(evs[i].vtime);
        DoEvent(evs[i].event);
        i := i + 1;
      }
      out := output;
    }

    /** `syn_gen(track)`: `output` is cleared and the generator starts
        before the first event. */
    method SynGen()
      modifies this
      ensures State() == old(State()).(output := []) && cursor == Cursor(0, false)
    {
      output := [];
      cursor := Cursor(0, false);
    }

    /** Resuming the generator: the next chunk, or `None` when it is done. */
    method NextChunk(evs: seq<TrackEvent>) returns (chunk: Option<seq<real>>)
      requires Valid(State()) && CursorOk(cursor, evs)
      modifies this
      ensures (chunk, State(), cursor) == Resume(ins, old(State()), evs, old(cursor))
    {
      var pos := cursor.pos;
      if cursor.pending {
        DoEvent(evs[pos].event);
        pos := pos + 1;
      }
      chunk := RunToYield(evs, pos);
    }

    /** The generator's loop from event `pos`: events run until one with a
        non-zero delta time has elapsed, whose output is handed out. */
    method RunToYield(evs: seq<TrackEvent>, pos0: nat) returns (chunk: Option<seq<real>>)
      requires Valid(State()) && pos0 <= |evs|
      modifies this
      ensures (chunk, State(), cursor) == ToYield(ins, old(State()), evs, pos0)
    {
      ghost var goal := ToYield(ins, State(), evs, pos0);
      var pos := pos0;
      while pos < |evs|
        invariant pos <= |evs| && Valid(State())
        invariant goal == ToYield(ins, State(), evs, pos)
        decreases |evs| - pos
      {
        var te := evs[pos];
        ToYieldStep(ins, State(), evs, pos);
        ElapseTicks(te.vtime);
        if te.vtime != 0 {
          chunk := Some(output);
          output := [];
          cursor := Cursor(pos, true);
          return;
        }
        DoEvent(te.event);
        pos := pos + 1;
      }
      chunk := None;
      cursor := Cursor(|evs|, false);
    }
  }
}
