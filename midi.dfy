/** What both engines (src/midisyn.rs and the older
    19spring/comp-music-510/proj/src/midisyn.rs) share: the track state,
    the events they react to, and the clock that turns MIDI ticks into
    audio samples. */
module Midi {
  import opened Util

  /** The instrument NoteOn builds a producer with. */
  datatype Instrument = PianoInstr | NoImpl

  /** `TrackState`: ticks per beat, microseconds per beat, the current
      instrument and whether the damper (sustain) pedal is down. */
  datatype TrackState = TrackState(div: nat, tempo: nat, instrument: Instrument, damperPedal: bool)

  /** `TrackState::new`: 480 ticks per beat and 434000 microseconds per
      beat, a piano, the pedal up. */
  function NewTrackState(): (t: TrackState)
    ensures t.div == 480 && t.tempo == 434000
    ensures t.instrument == PianoInstr && !t.damperPedal
  {
    TrackState(480, 434000, PianoInstr, false)
  }

  /** The events of a MIDI track the engines look at. A channel message
      carries its data bytes; `TempoSetting` carries the 24-bit value of
      its meta event. Everything else is one of the `Other` cases. */
  datatype Event =
    | NoteOn(key: Byte, velo: Byte)
    | NoteOff(key: Byte)
    | ProgramChange(preset: Byte)
    | ControlChange(ctrl: Byte, value: Byte)
    | OtherMidi
    | TempoSetting(tempo: nat)
    | KeySignature
    | EndOfTrack
    | OtherMeta

  /** An event and the ticks elapsed since the previous one. */
  datatype TrackEvent = TrackEvent(vtime: nat, event: Event)

  /** Samples per tick: `sample_rate * (tempo / 1e6) / div`. */
  function SamplesPerTick(tempo: nat, div: nat, sampleRate: real): (r: real)
    requires div > 0
    ensures sampleRate >= 0.0 ==> r >= 0.0
  {
    NonNegQuotient(sampleRate * (tempo as real / 1000000.0), div as real);
    sampleRate * (tempo as real / 1000000.0) / div as real
  }

  lemma NonNegQuotient(a: real, b: real)
    requires b > 0.0
    ensures a >= 0.0 ==> a / b >= 0.0
  {
  }

  /** `samples_in_tick(ticks)`: how many samples `ticks` ticks last at the
      track's tempo, exactly, fraction included. */
  function SamplesInTick(ts: TrackState, sampleRate: real, ticks: nat): (r: real)
    requires ts.div > 0
    ensures sampleRate >= 0.0 ==> r >= 0.0
    ensures ticks == 0 ==> r == 0.0
  {
    var spt := SamplesPerTick(ts.tempo, ts.div, sampleRate);
    NonNegProduct(ticks as real, spt);
    ticks as real * spt
  }

  lemma NonNegProduct(a: real, b: real)
    requires a >= 0.0
    ensures b >= 0.0 ==> a * b >= 0.0
    ensures a == 0.0 ==> a * b == 0.0
  {
  }

  /** The tempo in force after an event: only `TempoSetting` changes it. */
  function TempoAfter(tempo: nat, ev: Event): nat {
    if ev.TempoSetting? then ev.tempo else tempo
  }

  /** The exact number of samples a whole track lasts: each event's ticks
      at the tempo in force when they elapse, that is, set by the events
      before it. */
  function Clock(div: nat, tempo: nat, sampleRate: real, evs: seq<TrackEvent>): (r: real)
    requires div > 0
    ensures sampleRate >= 0.0 ==> r >= 0.0
    decreases |evs|
  {
    if evs == [] then 0.0
    else
      var now := SamplesInTick(TrackState(div, tempo, PianoInstr, false), sampleRate, evs[0].vtime);
      now + Clock(div, TempoAfter(tempo, evs[0].event), sampleRate, evs[1..])
  }

  /** The number of events that end a chunk of `syn_gen`: those with a
      non-zero delta time. */
  function Yields(evs: seq<TrackEvent>): nat {
    if evs == [] then 0 else (if evs[0].vtime != 0 then 1 else 0) + Yields(evs[1..])
  }

  /** The number of NoteOn events that sound a note (non-zero velocity). */
  function Strikes(evs: seq<TrackEvent>): nat {
    if evs == [] then 0
    else (if evs[0].event.NoteOn? && evs[0].event.velo != 0 then 1 else 0) + Strikes(evs[1..])
  }

  /** At 120 beats per minute and 480 ticks per beat, a beat of 480 ticks
      is exactly 22050 samples at 44.1 kHz, 45.9375 samples per tick. */
  lemma BeatAt120()
    ensures SamplesPerTick(500000, 480, 44100.0) == 45.9375
    ensures SamplesInTick(TrackState(480, 500000, PianoInstr, false), 44100.0, 480) == 22050.0
  {
  }

  /** At the initial tempo a tick is 39.87375 samples: the fraction does
      not divide the sample rate, so the engines must carry it. */
  lemma InitialTickRate()
    ensures SamplesPerTick(NewTrackState().tempo, NewTrackState().div, 44100.0) == 39.87375
  {
  }
}
