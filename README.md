# A model of the cs510-comp-sound MIDI synthesizer core

The repository turns a MIDI track into audio samples at 44.1 kHz. Its core
is `MidiSyn`, an engine that walks a list of track events. Before each event
it advances time by the event's delta ticks, which means three things:

- it turns the ticks into a whole number of samples and carries the fraction
  in `sample_ix`;
- it grows `output` by that many zeroed samples;
- it mixes every live producer into the new stretch.

NoteOn, NoteOff, ControlChange 64 (the damper pedal) and ProgramChange move
producers between the containers the engine keeps. The repository holds two
snapshots of the engine:

- the current one, `src/midisyn.rs`, which mixes block-wise into three
  containers: pressed, dampered and released;
- an older one, `19spring/comp-music-510/proj/src/midisyn.rs`, which mixes
  sample by sample from one map and superposes a retriggered note on its
  own tail.

Around the engine sit pure helpers:

- envelope and stream combinators (`soundprim.rs`, both snapshots);
- a bulk buffer transfer (`src/streamop.rs`);
- the sampled piano's name table, velocity crossfade and note shape
  (`instr/piano.rs`, both snapshots);
- the stereo split of `sample_reader.rs`;
- the pitch-name utilities of `norm/pg.py`.

The model follows the source's own shapes.

- **Values as sequences.** A producer (a boxed sample iterator) is the
  finite `seq<real>` of the samples it still has to yield, and samples and
  gains are exact reals. A key is a `Byte`.
- **Pure code as functions.** The pure combinators are functions with
  lemmas about them.
- **Stateful code as classes.** Each engine is a class whose methods update
  its fields in place. Each method is proved to move the state exactly as a
  function on values (`Synth.Elapse`, `Synth.HandleNoteOn`, ...) says. The
  properties of the source are lemmas about those functions.
- **Loops stay loops.** The per-producer loops of `elapse_vec` and
  `elapse_map` are methods on an `array<real>` slice. So are the older
  engine's per-sample loop and the stream `take` loops.
- **Mixing order.** A `HashMap` is mixed in whatever order it iterates.
  The model specifies the mix as a sum over the key space (`Voices.MapAt`),
  which every order reaches.
- **The generator.** `syn_gen`'s generator becomes an explicit step
  function over a cursor: the next event, and whether that event's delta
  time has already been yielded. It is proved to yield, chunk by chunk,
  exactly what `syn` writes.

Modules, one per file:

| module | file | models |
|---|---|---|
| `Util` | util.dfy | Option, bytes, Rust's truncating `/` and `%`, the saturating float cast and decimal numerals |
| `SoundPrim` | soundprim.rs (current) | envelopes, ramps, `mult`, `superpos` |
| `LegacySoundPrim` | soundprim.rs (older) | the envelope without `amp` |
| `Midi` | midi.dfy | the shared track state, events and tick clock |
| `Voices` | voices.dfy | producer containers and how they are mixed |
| `Synth` | midisyn.rs (current) | the engine |
| `LegacySynth` | midisyn.rs (older) | the engine |
| `StreamOp` | streamop.rs | the bulk buffer transfer |
| `Piano` | piano.rs (current) | the piano helpers |
| `LegacyPiano` | piano.rs (older) | `syn` |
| `SampleReader` | sample_reader.rs (both) | `stereo_channels_iter` |
| `PitchNames` | norm/pg.py | the pitch-name utilities |

Some behaviours of the code that the model keeps as written:

- **Amplitude.** A NoteOn's amplitude is `velo / 128`
  (src/midisyn.rs:213).
- **Unsupported presets.** Any instrument other than the piano builds a
  `Sine` with `duration = 1.0` at the engine's sample rate
  (src/midisyn.rs:212-226).
- **ProgramChange.** The current engine selects the piano for presets 0 to
  7 (src/midisyn.rs:246); the older one only for preset 0
  (19spring/comp-music-510/proj/src/midisyn.rs:152).
- **Crossfade sum.** The crossfade weights of `Piano::syn`
  (src/instr/piano.rs:146-170) sum to 1 only up to `ampf = 80`. Between 80
  and 128 their sum is below 1: it is one half at 96 (`Piano.WeightsLoud`).
- **Layer array.** The `pp` weight multiplies the `mf` layer's array,
  `notes[1]` (src/instr/piano.rs:139, 181).

## Model

| member | source | states |
|---|---|---|
| Util.TruncRem | src/instr/piano.rs:27-29 | Rust's `%`: `a == b * (a / b) + r` with the quotient rounded toward zero, so the remainder has the sign of `a` |
| Util.Ticks | src/soundprim.rs:92 | the float-to-`usize` cast: 0 for non-positive values, otherwise the largest whole number not above the value |
| Util.NatToString | src/instr/piano.rs:30 | the decimal numeral `format!` prints: digits only, one digit exactly for numbers below 10 |
| Util.NatToStringInjective | src/instr/piano.rs:30 | different numbers print different numerals |
| SoundPrim.Mult | src/soundprim.rs:6-8 | `mult`: length is the shorter length, and element `i` is `x[i] * y[i]` |
| SoundPrim.Superpos | src/soundprim.rs:99-108 | `superpos`: length is the longer length; the sum where both have a sample, the longer one's sample beyond the shorter |
| SoundPrim.SineWave | src/soundprim.rs:10-15 | `sinewave` has exactly `ticks` samples, sample `t` being the oscillator's value at `t` |
| SoundPrim.InterpolateTo | src/soundprim.rs:90-97 | `interpolate_to` has exactly `floor(t * sample_rate)` samples, none for a non-positive product |
| SoundPrim.InterpolateRamp | src/soundprim.rs:90-97 | the ramp starts at `y0`, rises by the constant step `(y1 - y0) / ticks`, and its last sample is one step short of `y1` |
| SoundPrim.InterpolateBetween | src/soundprim.rs:90-97 | every sample lies between `y0` (inclusive) and `y1` (exclusive), in either direction; a flat ramp is constant |
| SoundPrim.Make | src/soundprim.rs:70-87 | `make(d)` is as long as the sum of the four phase lengths `floor(d * fraction * sample_rate)` |
| SoundPrim.MakePhases | src/soundprim.rs:70-87 | each non-empty phase of `make` starts at the previous phase's target: 0, `attack_plier * amp`, `decay_plier * amp`, `sustain_plier * amp` |
| SoundPrim.EnvMult | src/soundprim.rs:66-68 | `Envelope::mult(s, d)` has the shorter of the lengths of `make(d)` and `s`, and is their elementwise product |
| SoundPrim.JustReleaseMake | src/soundprim.rs:44-52 | `just_release().make(d)` is the one ramp from `amp` toward 0 over `floor(d * sample_rate)` samples, starting at `amp` |
| SoundPrim.FastReleaseFits | src/soundprim.rs:54-64 | the fast-release fractions sum to 1, so `make(d)` is at most `floor(d * sample_rate)` samples long |
| SoundPrim.DefaultFits | src/soundprim.rs:30-42 | the default fractions sum to 1, so `make(d)` is at most `floor(d * sample_rate)` samples long |
| SoundPrim.TicksSubadditive | src/soundprim.rs:92 | rounding parts down separately never gives more samples than rounding their sum |
| LegacySoundPrim.LegacyMakeIsUnitAmp | 19spring/comp-music-510/proj/src/soundprim.rs:38-53 | the older `make` (targets are the multipliers themselves) is the current `make` at amplitude 1 |
| LegacySoundPrim.LegacyDefaultIsDefault | 19spring/comp-music-510/proj/src/soundprim.rs:21-32 | the older default has the current default's phases and multipliers |
| LegacySoundPrim.LegacyEnvMult | 19spring/comp-music-510/proj/src/soundprim.rs:34-36 | the older `Envelope::mult` has the shorter of the two lengths and is the elementwise product |
| LegacySoundPrim.LegacyEnvMultIsUnitAmp | 19spring/comp-music-510/proj/src/soundprim.rs:34-53 | the older `Envelope::mult` equals the current one at amplitude 1 |
| LegacySoundPrim.LegacyDefaultFits | 19spring/comp-music-510/proj/src/soundprim.rs:21-53 | with the default fractions (sum 1) the curve and the shaped stream are at most `floor(d * sample_rate)` samples long |
| Midi.NewTrackState | src/midisyn.rs:287-296 | `TrackState::new`: 480 ticks per beat, 434000 microseconds per beat, piano, pedal up |
| Midi.SamplesPerTick | src/midisyn.rs:142-147 | `sample_rate * tempo / 1e6 / div` is never negative |
| Midi.SamplesInTick | src/midisyn.rs:142-147 | `samples_in_tick` is never negative and is 0 for zero ticks |
| Midi.BeatAt120 | src/midisyn.rs:142-147 | at 500000 microseconds per beat and 480 ticks per beat a tick is 45.9375 samples, and a beat is 22050 |
| Midi.InitialTickRate | src/midisyn.rs:287-296 | at the initial tempo a tick is 39.87375 samples, a fraction the engine must carry |
| Voices.AdvanceVec | src/midisyn.rs:49-70 | an advance never adds producers to a vector |
| Voices.VecAtShift | src/midisyn.rs:49-70 | after an `n`-sample advance, sample `i` of the vector's mix is what sample `n + i` was |
| Voices.AdvanceVecAdd | src/midisyn.rs:49-70 | two advances are one advance by the total |
| Voices.AdvanceVecKeepsAll | src/midisyn.rs:49-70 | when every producer has at least `n` samples left (exactly `n` included), all are kept, in order, each `n` samples further |
| Voices.AdvanceVecDrops | src/midisyn.rs:49-70 | a producer with fewer than `n` samples left is dropped, so the vector shrinks |
| Voices.AdvanceMap | src/midisyn.rs:72-92 | an advance never adds keys to a map |
| Voices.MapAtShift | src/midisyn.rs:72-92 | after an `n`-sample advance, sample `i` of the map's mix is what sample `n + i` was |
| Voices.AdvanceMapAdd | src/midisyn.rs:72-92 | two advances of a map are one advance by the total |
| Voices.MapAtRemove | src/midisyn.rs:77-91 | the map's mix is the removed producer plus the mix of the rest, whichever key the iteration takes first |
| Voices.Pull | src/midisyn.rs:78-90 | one producer: slot `j` gains the producer's sample `j` (0 past its end); it is kept `len` samples further iff it had at least `len` |
| Voices.ElapseVec | src/midisyn.rs:49-70 | `elapse_vec`: every slot gains the vector's mix, and the kept vector is the advanced one |
| Voices.ElapseMap | src/midisyn.rs:72-92 | `elapse_map`: every slot gains the map's mix, in any key order, and the kept map is the advanced one |
| Voices.MixOne | 19spring/comp-music-510/proj/src/midisyn.rs:78-86 | one pass of the older loop: the sum of every producer's next sample, and the map advanced by one sample |
| Synth.NewEngine | src/midisyn.rs:95-106 | `MidiSyn::new`: a valid engine with the initial track state, no sounds, nothing dampered or released, the sample clock at 0 and the output empty |
| Synth.Elapse | src/midisyn.rs:149-168 | `elapse_ticks`: the track is unchanged, earlier output is a prefix of the new output, and written samples plus the carried fraction grow by exactly `samples_in_tick(vt)` |
| Synth.ElapseZero | src/midisyn.rs:149-152 | zero ticks change nothing |
| Synth.ElapseWrites | src/midisyn.rs:155-167 | for `vt > 0` output grows by exactly `floor(sample_ix + samples_in_tick(vt))` samples, each the mix of all three containers, which all advance by that many samples |
| Synth.ElapseSplit | src/midisyn.rs:155-161 | the whole advance: new fraction `total - floor(total)`, the three containers advanced, the block appended |
| Synth.ElapseContinues | src/midisyn.rs:160-167 | after an advance the mix continues where it stopped: nothing is skipped or replayed |
| Synth.ElapseCount | src/midisyn.rs:149-168 | time never creates a producer |
| Synth.JustRelShape | src/midisyn.rs:239-240 | a released note is cut to 4410 samples (0.1 s), faded by the ramp from 1 toward 0, and starts unchanged |
| Synth.ReleaseCurve | src/midisyn.rs:239-240 | the fade `just_release().make(0.1)` is 4410 samples from 1 toward 0 |
| Synth.NoteOffShape | src/midisyn.rs:233-243 | on a pressed key the whole new state: key removed, the producer appended to `dampered` with the pedal down, otherwise faded and appended to `released` |
| Synth.NoteOffMoves | src/midisyn.rs:233-243 | an unpressed key changes nothing; a pressed key's producer moves to exactly one container and the count is unchanged |
| Synth.NoteOnStores | src/midisyn.rs:202-231 | velocity 0 is exactly NoteOff; otherwise a pressed key is released first, the key then holds the one new producer of amplitude `velo / 128`, other keys are untouched, and the count grows by one |
| Synth.ReleaseAll | src/midisyn.rs:262-267 | lifting the pedal fades every dampered producer, in order |
| Synth.InstrumentChoice | src/midisyn.rs:202-254 | the piano is chosen iff the preset is at most 7, and NoteOn then asks the piano for the key, otherwise the sine for the key with `duration = 1.0`, the amplitude `velo / 128` and the sample rate 44100 |
| Synth.CtrlChangeMoves | src/midisyn.rs:256-272 | controllers other than 64 change nothing; 64 sets the pedal to `value >= 64`; only an on-to-off change moves every dampered producer, faded and in order, to `released`; `sounds` and the count are unchanged |
| Synth.HandleEvent | src/midisyn.rs:170-200 | `do_midi`/`do_meta`: only a tempo meta event changes the tempo; the division, fraction and output are untouched |
| Synth.Step | src/midisyn.rs:108-119 | one track event (advance, then act) keeps the engine valid |
| Synth.Run | src/midisyn.rs:108-119 | `syn` keeps the engine valid and only appends to the output |
| Synth.NoDrift | src/midisyn.rs:149-189 | over any track, samples written plus the carried fraction equal the exact clock: each event's ticks at the tempo set by earlier events |
| Synth.RunLength | src/midisyn.rs:108-119 | from a fresh engine a track writes exactly `floor` of its exact length in samples |
| Synth.CarryExample | src/midisyn.rs:155-157 | at the initial tempo two one-tick advances write 39 and 40 samples, as one two-tick advance writes 79, with the same fraction |
| Synth.StepKeepsPedalClear | src/midisyn.rs:233-272 | with the pedal up nothing is dampered, and every track event keeps that so |
| Synth.PedalThenLift | src/midisyn.rs:233-272 | pressing the pedal, releasing a key and lifting the pedal is the same as releasing the key with the pedal up |
| Synth.DoEventCount | src/midisyn.rs:170-272 | an event adds a producer exactly when it is a NoteOn with non-zero velocity, and loses none |
| Synth.RunCount | src/midisyn.rs:108-119 | a track ends with at most the producers it started with plus one per struck note |
| Synth.ToYield | src/midisyn.rs:124-139 | the generator's loop keeps the engine valid and never moves the cursor back; a yielded chunk leaves the cursor on a pending event, and running out of events leaves it past the track |
| Synth.Resume | src/midisyn.rs:124-139 | resuming keeps the engine valid; a further chunk leaves an event pending strictly after one that was pending before |
| Synth.DrainRuns | src/midisyn.rs:121-140 | from any event on, the chunks concatenated behind the earlier output are what running those events writes, and there is one chunk per non-zero delta time |
| Synth.SynGenIsSyn | src/midisyn.rs:108-140 | on a cleared output, the chunks `syn_gen` yields concatenate to `syn`'s output; one chunk per non-zero delta time; it leaves the engine as `syn` does, output emptied |
| Synth.MixBlock | src/midisyn.rs:158-167 | a zeroed buffer of `n` samples mixed with `elapse_map` and twice `elapse_vec` holds the next `n` samples of the mix, and the containers advance by `n` |
| Synth.MidiSyn.constructor | src/midisyn.rs:95-106 | a new engine in the initial state, the generator at the start |
| Synth.MidiSyn.ElapseTicks | src/midisyn.rs:149-168 | the fields move exactly as `Elapse` says: the output resized and mixed in place, the fraction carried |
| Synth.MidiSyn.DoNoteOff | src/midisyn.rs:233-243 | the fields move exactly as `HandleNoteOff` says |
| Synth.MidiSyn.DoNoteOn | src/midisyn.rs:202-231 | the fields move exactly as `HandleNoteOn` says |
| Synth.MidiSyn.DoProgChange | src/midisyn.rs:245-254 | the instrument is set as `HandleProgChange` says |
| Synth.MidiSyn.DoCtrlChange | src/midisyn.rs:256-272 | the fields move exactly as `HandleCtrlChange` says, the dampered producers moved one at a time |
| Synth.MidiSyn.DoEvent | src/midisyn.rs:170-200 | the fields move exactly as `HandleEvent` says |
| Synth.MidiSyn.Syn | src/midisyn.rs:108-119 | the engine ends as `Run` says and the output is returned |
| Synth.MidiSyn.SynGen | src/midisyn.rs:121-123 | `output` is cleared and the generator starts at the first event |
| Synth.MidiSyn.NextChunk | src/midisyn.rs:124-139 | one resumption of the generator: chunk and new state as `Resume` says |
| Synth.MidiSyn.RunToYield | src/midisyn.rs:125-139 | the generator's loop from an event on: chunk and new state as `ToYield` says |
| LegacySynth.NewEngine | 19spring/comp-music-510/proj/src/midisyn.rs:33-41 | `MidiSyn::new`: initial track state, no producers, no output |
| LegacySynth.Elapse | 19spring/comp-music-510/proj/src/midisyn.rs:63-89 | `elapse_ticks`: the track is unchanged, output only grows, and written samples plus the fraction grow by exactly `samples_in_tick(vt)` |
| LegacySynth.ElapseSplit | 19spring/comp-music-510/proj/src/midisyn.rs:69-88 | for `vt > 0`: `floor(total)` samples of the map's mix pushed, the map advanced as far, the fraction kept |
| LegacySynth.ElapseWrites | 19spring/comp-music-510/proj/src/midisyn.rs:76-88 | each pushed sample is the sum of every live producer's next sample; a finished one contributes 0 and is gone |
| LegacySynth.HandleNoteOff | 19spring/comp-music-510/proj/src/midisyn.rs:144-149 | NoteOff leaves the track, fraction and output untouched |
| LegacySynth.NoteOffReleases | 19spring/comp-music-510/proj/src/midisyn.rs:144-149 | an unpressed key changes nothing; a pressed key keeps its place, its producer faded over 0.1 s (at most 4410 samples); other keys are untouched |
| LegacySynth.NoteOnStores | 19spring/comp-music-510/proj/src/midisyn.rs:123-142 | velocity 0 is exactly NoteOff; a fresh key gets the two-second voice; a pressed key gets `superpos(new, old)`, the longer of the two and their sum where both sound; the map grows only for a fresh key |
| LegacySynth.NoteOnIgnoresVelocity | 19spring/comp-music-510/proj/src/midisyn.rs:123-158 | the note struck depends neither on the velocity nor on the instrument; ProgramChange selects the piano iff the preset is 0 |
| LegacySynth.VoiceFits | 19spring/comp-music-510/proj/src/midisyn.rs:128-135 | a voice lasts at most two seconds, 88200 samples |
| LegacySynth.CtrlChangeRecords | 19spring/comp-music-510/proj/src/midisyn.rs:160-167 | ControlChange never touches a producer; 64 sets the pedal to `value >= 64`; other controllers change nothing |
| LegacySynth.HandleEvent | 19spring/comp-music-510/proj/src/midisyn.rs:91-121 | only a tempo meta event changes the tempo; the division, fraction and output are untouched |
| LegacySynth.EventCount | 19spring/comp-music-510/proj/src/midisyn.rs:123-167 | only a struck note can add a producer |
| LegacySynth.Run | 19spring/comp-music-510/proj/src/midisyn.rs:43-54 | `syn` keeps the engine valid and only appends to the output |
| LegacySynth.NoDrift | 19spring/comp-music-510/proj/src/midisyn.rs:56-76 | the older engine keeps the same exact clock: samples written plus the fraction equal the exact length of the track |
| LegacySynth.RunCount | 19spring/comp-music-510/proj/src/midisyn.rs:43-54 | a track ends with at most the producers it started with plus one per struck note |
| LegacySynth.ElapseAgrees | 19spring/comp-music-510/proj/src/midisyn.rs:63-89 | the per-sample loop and the current engine's block-wise mixing write the same samples and keep the same producers |
| LegacySynth.MixSamples | 19spring/comp-music-510/proj/src/midisyn.rs:76-88 | the loop over `n` samples pushes the next `n` samples of the mix and leaves the map advanced by `n` |
| LegacySynth.LegacyMidiSyn.constructor | 19spring/comp-music-510/proj/src/midisyn.rs:33-41 | a new engine in the initial state |
| LegacySynth.LegacyMidiSyn.ElapseTicks | 19spring/comp-music-510/proj/src/midisyn.rs:63-89 | the fields move exactly as `Elapse` says |
| LegacySynth.LegacyMidiSyn.DoNoteOff | 19spring/comp-music-510/proj/src/midisyn.rs:144-149 | the fields move exactly as `HandleNoteOff` says |
| LegacySynth.LegacyMidiSyn.DoNoteOn | 19spring/comp-music-510/proj/src/midisyn.rs:123-142 | the fields move exactly as `HandleNoteOn` says |
| LegacySynth.LegacyMidiSyn.DoProgChange | 19spring/comp-music-510/proj/src/midisyn.rs:151-158 | the instrument is set as `HandleProgChange` says |
| LegacySynth.LegacyMidiSyn.DoCtrlChange | 19spring/comp-music-510/proj/src/midisyn.rs:160-167 | the pedal is set as `HandleCtrlChange` says |
| LegacySynth.LegacyMidiSyn.DoEvent | 19spring/comp-music-510/proj/src/midisyn.rs:91-121 | the fields move exactly as `HandleEvent` says |
| LegacySynth.LegacyMidiSyn.Syn | 19spring/comp-music-510/proj/src/midisyn.rs:43-54 | the engine ends as `Run` says and the output is returned |
| StreamOp.ApplyAll | src/streamop.rs:33-44 | the buffer after a transfer: slot `i` combined with item `i` by the operation |
| StreamOp.ApplyAllSet | src/streamop.rs:35-37 | setting forgets the buffer: the result is the items |
| StreamOp.IterStream.constructor | src/streamop.rs:24 | the stream holds the iterator's items |
| StreamOp.IterStream.Take | src/streamop.rs:33-44 | `take`: fails exactly for `Set` with `can_set` and then changes nothing; otherwise slot `i` becomes `out[i] op item_i` and the length drops by exactly `out.len()` |
| StreamOp.CombinedStream.constructor | src/streamop.rs:47-51 | the stream holds its parts and operation |
| StreamOp.CombinedStream.Take | src/streamop.rs:60-63 | `take` ignores its `op`: slot `i` becomes `a_i (self.op) b_i`; both parts drop by `out.len()`, and so does the length; it fails exactly when `can_set` is true |
| Piano.NoteNamesDistinct | src/instr/piano.rs:19-22 | the twelve names of `NOTE_NAMES` differ |
| Piano.KeyToName | src/instr/piano.rs:25-31 | `key_to_name` of an `i32` key panics (`None`) exactly where `k + 36` overflows `i32` or Rust's remainder of `k + 36` by 12 is negative |
| Piano.KeyToNameDomain | src/instr/piano.rs:25-31 | the largest key with a name is `i32::MAX - 36` (one more overflows); the lowest keys with a name are multiples of 12 from -48 down, -37 has none |
| Piano.KeyToNameC4 | src/instr/piano.rs:24-31 | key 0 is "C4" |
| Piano.KeyToNameInRange | src/instr/piano.rs:25-31 | for -36 to 47 the name is `NOTE_NAMES[(k + 36) % 12]` and the one-digit octave `1 + (k + 36) / 12`, from 1 to 7 |
| Piano.KeyToNameInjective | src/instr/piano.rs:19-31 | no two keys from -36 to 47 share a name |
| Piano.WeightsSoft | src/instr/piano.rs:145-170 | below 32 the weights are (1, 0, 0) |
| Piano.WeightsCrossfade | src/instr/piano.rs:146-170 | from 32 to 80 the first two weights sum to 1 and the third is 0 |
| Piano.WeightsLoud | src/instr/piano.rs:146-170 | between 80 and 128 the weights sum to less than 1, and to one half at 96 |
| Piano.WeightsBounded | src/instr/piano.rs:146-170 | every weight lies in [0, 1] |
| Piano.WeightsContinuous | src/instr/piano.rs:146-170 | no weight changes faster than 1/16 per unit, so none jumps at 32, 80, 112 or 128 |
| Piano.LayerMix | src/instr/piano.rs:137-182 | sample `ix` of the mix is `ff[ix] * ff_amp + mf[ix] * mf_amp + mf[ix] * pp_amp`, the `pp` term reading the `mf` array |
| Piano.MixSampleBands | src/instr/piano.rs:137-182 | below 32 the mix is the first layer; from 32 to 80 it is an affine blend of the two |
| Piano.Syn | src/instr/piano.rs:128-183 | `syn` panics at once (`None`) exactly with fewer than two layers or a key missing from layer 0 or 1; otherwise the envelope curve is pulled first, and the note panics after yielding `|ff|` samples exactly when the layer-0 sample is shorter than the curve; else it yields as many samples as the curve |
| Piano.SynShapeFits | src/instr/piano.rs:172-177 | the fast-release curve over `len / 44100` seconds is at most `len` samples |
| Piano.SynSome | src/instr/piano.rs:128-183 | with two layers holding the key, `syn` does not panic at once; the samples a note yields are the curve times the layer mix, sample by sample; they are never more than the `mf` sample has, and a note that does not panic is exactly as long as the curve |
| LegacyPiano.LegacySyn | 19spring/comp-music-510/proj/src/instr/piano.rs:47-54 | `syn` panics (`None`) exactly for a key without a sample |
| LegacyPiano.LegacySynSome | 19spring/comp-music-510/proj/src/instr/piano.rs:47-54 | a note is the fast-release curve times the sample, no longer than the sample |
| SampleReader.StereoChannels | src/sample_reader.rs:53-59 | `stereo_channels_iter` fails exactly on an odd length; otherwise `len / 2` pairs, pair `i` being `(v[2i], v[2i + 1])` |
| SampleReader.Interleave | src/sample_reader.rs:53-59 | the reverse direction: two samples per pair, left then right |
| SampleReader.InterleaveStereoChannels | 19spring/comp-music-510/proj/src/sample_reader.rs:11-17 | splitting an even-length buffer and interleaving the pairs gives the buffer back |
| SampleReader.StereoChannelsInterleave | src/sample_reader.rs:53-59 | interleaving pairs and splitting gives the pairs back |
| PitchNames.LetterIndex | norm/pg.py:114 | `'CDEFGAB'.index(c)`: the first position of `c`, or `None` (`ValueError`) when absent |
| PitchNames.NumberToPitch | norm/pg.py:107-110 | `number_to_pitch(n)` is the letter `'CDEFGAB'[n % 7]` followed by the decimal of `int(n / 7)` |
| PitchNames.DigitValue | norm/pg.py:114 | `int(c)` of one ASCII character: its digit value, or `None` when not a digit |
| PitchNames.PitchToNumber | norm/pg.py:113-114 | `pitch_to_number` raises exactly on a string shorter than two, a first character not in CDEFGAB, or a second that is not an ASCII digit |
| PitchNames.PitchRoundTrip | norm/pg.py:107-114 | `pitch_to_number(number_to_pitch(n)) == n` for 0 to 69 |
| PitchNames.NumberRoundTrip | norm/pg.py:107-114 | a two-character pitch of a note letter and an ASCII digit is what numbering its number prints |
| PitchNames.PitchToNumberPrefix | norm/pg.py:113-114 | only the first two characters matter |
| PitchNames.OctaveNames | norm/pg.py:119-124 | one octave yields one name per note, two with `b` |
| PitchNames.OctaveNamesAt | norm/pg.py:119-124 | note `j` of an octave yields `n + no` at `j`, or `n + no` and `n + "b" + no` at `2j` and `2j + 1` with `b` |
| PitchNames.MakeNoteNamesLength | norm/pg.py:117-124 | `make_note_names` yields `len(nums) * len(notes)` names, twice as many with `b` |
| PitchNames.MakeNoteNamesAt | norm/pg.py:117-124 | octave-major order: name `i * len(notes) + j` is `notes[j] + nums[i]`; with `b`, names `2j` and `2j + 1` of block `i` are `notes[j] + nums[i]` and `notes[j] + "b" + nums[i]` |

## Left out

- Audio playback (`playback.rs`), file reading and decoding (`load_wav`,
  `load_flac`, `Piano::load` and the other loaders, `writer.rs`), the
  command-line programs and the scripts: I/O, threads and foreign
  libraries. A piano is the maps from keys to samples that loading produces.
- Floating point: samples, gains and the tick clock are exact reals. So
  `f64`/`f32` rounding, the `as f32` narrowing and the sample scaling
  functions (`i16_to_f32_norm`, `pcm24_to_f32_norm`, `merge_stereo`) are
  not modelled. The no-drift property holds over the reals.
- Oscillator values: `sinewave`'s samples and `freq_wrt_c4` are
  parameters (`SoundPrim.SineWave` takes the oscillator as a function,
  `LegacySynth.Tone` is abstract); the lengths of `SoundPrim.SineWave` and
  of the older two-second voice are stated.
- Synth.Instruments: `Sine::syn` (src/instr/sine.rs) is not part of this
  model. The engine passes it the key, `duration = 1.0`, the amplitude and
  the sample rate, but neither the sine's nor the piano's length is
  stated, so nothing bounds a NoteOn producer of the current engine.
- Synth.Instruments: the current engine's piano is a parameter of type
  `(key, amp) -> samples`, total. So `Piano.Syn`'s panic on a missing key
  is modelled in `Piano` but not carried into the engine.
- Synth.Valid: the division is assumed positive. `div` is a public field
  that callers set from the MIDI header, and `samples_in_tick` divides by
  it in `f64` (src/midisyn.rs:143-145). With `div == 0` and a non-zero
  tempo the quotient is infinite: `nsamples as usize` saturates to
  `usize::MAX` and `start + nsamples` overflows (src/midisyn.rs:157-160). With
  a zero tempo as well it is NaN, which casts to 0 samples. Neither case is
  modelled.
- Synth.MidiSyn.ElapseTicks: `output.resize` and the mixing into
  `&mut self.output[start..]` are modelled as mixing into a fresh zeroed
  buffer of the same length that is then appended; the result is the same
  sequence.
- Voices.ElapseMap: `HashMap` iteration order and the floating-point order
  of the additions are not modelled; the mix is specified as a sum over
  keys, which any order reaches.
- Ownership, `Box<dyn Sound>` and `mem::swap` are not expressible on
  values; the containers are value fields that the methods reassign.
- Meta events other than TempoSetting (KeySignature, EndOfTrack and the
  rest) do nothing, as the source's TODOs do. There is no trailing flush
  of release tails.
- The MIDI message itself (`MidiMessage`, status decoding, `data_as_u64`)
  becomes the `Midi.Event` datatype.
- LegacySoundPrim.LegacyMake: it has no contract of its own; its length
  and shape are stated through `LegacyMakeIsUnitAmp`, which ties it to
  `SoundPrim.Make` and its lemmas.
- The older snapshot's `Envelope::just_release` (used by its `do_note_off`)
  and `Envelope::fast_release` and `env.amp` (used by its piano) are not
  defined in that snapshot's soundprim.rs. The current definitions stand in
  for them, at amplitude 1 where the older envelope has no amplitude.
- StreamOp.CombinedStream: both parts are `IterStream`s, held as distinct
  objects. A nested `CombinedStream` part is not modelled.
- StreamOp.IterStream.Take: a buffer longer than the stream would panic in
  `next().unwrap()`. The model makes `out.len() <= len()` a precondition,
  as the trait's documented invariant states, rather than an error path.
- The `bench` module of `streamop.rs`, `types.rs`, `lib.rs` and the numpy
  parts of `norm/pg.py` are not part of this model.
- PitchNames.DigitValue / PitchToNumber: only the ASCII digits '0' to '9'
  are modelled. Python's `int()` also accepts the other Unicode decimal
  digits, so `pitch_to_number("C٣")` is 21 in Python and `None` here.
  The sample names are ASCII, and `pitch_to_number` has no caller in
  `pg.py`.
- PitchNames.NumberRoundTrip: proved for ASCII octave digits only. In
  Python `"C٣"` numbers to 21, which prints back as `"C3"`, so the
  round trip does not hold for other Unicode digits.
- Piano.KeyToName: an overflow of `k + 36` is modelled as the panic of
  a debug build (`None`); a release build would wrap around instead.
- Piano.Syn: the lazy panic is a flag after the samples that are yielded.
  What happens to a mix already under way when the panic unwinds is not
  modelled.
- The older snapshot's `sinewave` (called by its `do_note_on`,
  19spring midisyn.rs:131-134) is not defined in that snapshot's
  soundprim.rs; `SoundPrim.SineWave` stands in for it.
- The `println!` of an unsupported preset in `do_prog_change`
  (src/midisyn.rs:250) is output only and is not modelled.
