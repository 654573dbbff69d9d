# rust_sequencer in Dafny

A model of the core of `rust_sequencer`. This Rust crate turns a sequence of notes into audio through per-instrument caches of generated "keys".

The model covers three parts of the crate.

1. **`src/lib.rs`**:
   - the check that a time or frequency is usable (normal and positive);
   - the frequency lookup table and the instrument table, with their typed errors;
   - the stable sort of notes by start time;
   - the sweep meant to compute the largest number of notes sounding at once (as written it can panic or undercount, see ## Findings);
   - the per-instrument lists of frequency ids;
   - `Instrument::gen_keys` / `get_any_key`;
   - `MusicSequencer::gen_instrument_keys`.
2. **`src/helper.rs`**:
   - the hardware helper: a note-on/note-off state machine with a clock, a map instrument → frequency id → partial note, and a growing frequency builder;
   - the software helper, which takes notes of known duration;
   - building a frequency lookup table from the builder.
3. **`src/tone_generators.rs`**: the square-wave key generator's frame-building loop.

Layout (one module per file):

| file | contents |
|---|---|
| `wrappers.dfy` | `Option`, `Result` and `Outcome` (a `Result<()>`) |
| `float64.dfy` | doubles kept as exact reals, plus the constants `MIN_POSITIVE`, `MAX` and `EPSILON` |
| `errors.dfy` | `SequencerError`, and the panics the model reports as values |
| `pcm.dfy` | minimal declarations of the external pcm crate's types |
| `sequencer.dfy` | the types of `lib.rs`, the validity check, `FrequencyLookupTable.Get` |
| `sequence_analysis.dfy` | `Sequence`: the sort, the sweep as written and as intended, the frequency lists |
| `instruments.dfy` | `Instrument`, `InstrumentTable`, `MusicSequencer` |
| `helper.dfy` | `HardwareSequenceHelper`, `SoftwareSequenceHelper` |
| `tone_generators.dfy` | `SquareWaveGenerator::key_gen` |

How the model treats the Rust code:

- **Panics.** Every panic of the Rust code is an outcome of the model (`Errors.Panic`), never a precondition:
  - `Vec::remove` past the end;
  - `unimplemented!()`;
  - a builder-only call on a helper that has no builder;
  - a note-off for an instrument never started.
- **Mutation.** State the Rust code changes in place is a Dafny `class` with `modifies` clauses:
  - `Sequence`, `Instrument`, `InstrumentTable`, `MusicSequencer` and the two helpers are classes;
  - loops such as collecting the stale positions, removing them, building the frequency lists, inserting keys, filling the lookup table and building frames are `while`/`for` loops;
  - each of those loops is proved against a specification function.
- **Times and frequencies** are reals.
- **Lookup-table values** are `F64` (a finite real, an infinity or NaN), so that the validity check can reject zero, NaN and the infinities.

## Model

| member | source | states |
|---|---|---|
| Sequencer.IsValidTimeFrequency | src/lib.rs:35-37 | true exactly when the value is finite and lies between the smallest positive normal double and `f64::MAX`, that is, normal and > 0 |
| Sequencer.CheckValidTimeFrequency | src/lib.rs:34-43 | passes exactly when the value is finite and lies between the smallest positive normal double and `f64::MAX` (normal and > 0); otherwise fails with `ImpossibleTimeOrFrequency` carrying that same value |
| Sequencer.ZeroNaNInfinityInvalid | src/lib.rs:35-37 | 0.0, NaN and both infinities are rejected, with the value in the error |
| Sequencer.FrequencyLookupTable.Get | src/lib.rs:211-219 | a missing id gives `NoFrequencyForID(id)`; a stored but unusable value gives `ImpossibleTimeOrFrequency(value)`; it is Ok exactly when the id is present and its value is valid, and then it returns exactly the stored value, which is positive |
| SequenceAnalysis.SortByStartCorrect | src/lib.rs:166-169 | the sort yields notes ascending by start time that are a permutation of the input, and notes with equal start times keep their original order (stability) |
| SequenceAnalysis.InsertByStart | src/lib.rs:166-169 | the list grows by exactly the inserted note; `InsertByStartPermutes`, `InsertByStartSorted` and `InsertByStartStable` state where it goes |
| SequenceAnalysis.SortByStart | src/lib.rs:166-169 | sorting keeps the number of notes; `SortByStartCorrect` states that the result is ascending, a permutation and stable |
| SequenceAnalysis.SortedIsFixed | src/lib.rs:166-169 | notes already in time order are left as they are |
| SequenceAnalysis.SortByStartOfNonOverlapping | src/lib.rs:166-169 | notes in any order, each starting no later than it ends and pairwise not overlapping, once sorted each end before every later one starts |
| SequenceAnalysis.InsertByStartPermutes | src/lib.rs:166-169 | inserting a note into a list permutes the note plus that list |
| SequenceAnalysis.InsertByStartSorted | src/lib.rs:166-169 | inserting into a time-ordered list keeps it time-ordered |
| SequenceAnalysis.InsertByStartStable | src/lib.rs:166-169 | inserting in front of the first note that does not start earlier keeps each start time's notes in their original order |
| SequenceAnalysis.Sequence.SortByTime | src/lib.rs:166-169 | the notes become the stable sort of the old notes: ascending, a permutation, equal start times in original order |
| SequenceAnalysis.StaleIndices | src/lib.rs:182-187 | at most one position per working note; `StaleIndicesCharacterized` states which |
| SequenceAnalysis.StaleIndicesCharacterized | src/lib.rs:182-187 | the recorded positions are exactly those of the working notes that end strictly before the current note starts (a note ending exactly at the start is kept), in ascending order |
| SequenceAnalysis.CollectStale | src/lib.rs:180-187 | the loop records a position exactly when the current note starts strictly after that working note's end |
| SequenceAnalysis.RemoveEach | src/lib.rs:188-190 | applying the removals one after another removes one note each when none panics; otherwise the panic is an index out of bounds |
| SequenceAnalysis.RemoveStale | src/lib.rs:188-190 | the removal loop does exactly what `RemoveEach` says: each position taken in the list as the earlier removals left it, and a panic at the first position past the end |
| SequenceAnalysis.Sweep | src/lib.rs:179-193 | the only way the pass fails is an index-out-of-bounds panic; `SweepBounds` bounds its result |
| SequenceAnalysis.MaxNotesAtOnce | src/lib.rs:170-195 | no notes give `Ok(0)`; the only failure is an index-out-of-bounds panic; `MaxNotesAtOnceBounds`, `MaxNotesAtOnceSimultaneous`, `MaxNotesAtOnceNonOverlapping` and the two findings below state its values |
| SequenceAnalysis.MaxNotesAtOnceSorted | src/lib.rs:170-195 | on notes already in time order the result is the sweep over them as they are |
| SequenceAnalysis.SweepBounds | src/lib.rs:179-193 | the running maximum never decreases and never exceeds the working list's length plus the notes still to come |
| SequenceAnalysis.MaxNotesAtOnceBounds | src/lib.rs:170-195 | no notes give 0; otherwise a sweep that does not panic gives a value between 1 and the number of notes |
| SequenceAnalysis.MaxNotesAtOnceSimultaneous | src/lib.rs:170-195 | as written, N ≥ 1 notes that share their start and their end (start not after end) give `Ok(N)` |
| SequenceAnalysis.MaxNotesAtOnceNonOverlapping | src/lib.rs:170-195 | as written, a non-empty list of notes, each starting no later than it ends, in any order and pairwise not overlapping (of any two, one ends before the other starts), gives `Ok(1)` |
| SequenceAnalysis.SweepNotes | src/lib.rs:175-194 | the `for` loop over the sorted notes computes exactly the as-written `Sweep` from an empty working list and a running maximum of 1, stopping at the first removal panic |
| SequenceAnalysis.Sequence.CalcMaxNotesAtOnce | src/lib.rs:170-195 | returns the as-written sweep's result (`MaxNotesAtOnce`, through `SweepNotes`), a panic included, for the old notes, and leaves the notes sorted by start time |
| SequenceAnalysis.StaleRemovalPanics | src/lib.rs:188-190 | two overlapping notes followed by a note starting after both end make the sweep panic removing position 1 from a one-note list |
| SequenceAnalysis.StaleRemovalUndercounts | src/lib.rs:188-190 | on six notes shaped like [0,1], [0,1], [0,10], [2,10]×3 the sweep removes a still-sounding note and reports 3 |
| SequenceAnalysis.SweepIntended | src/lib.rs:179-193 | the sweep with every stale note dropped never lowers the running maximum and never exceeds the working length plus the remaining notes |
| SequenceAnalysis.MaxNotesAtOnceIntended | src/lib.rs:170-195 | the intended divisor is 0 exactly for no notes, and otherwise lies between 1 and the number of notes |
| SequenceAnalysis.MaxNotesAtOnceIntendedIsPeak | src/lib.rs:170-195 | the intended sweep equals an independent definition: the largest number of notes sounding when some note starts (that note and every earlier one not yet ended) |
| SequenceAnalysis.MaxNotesAtOnceIntendedSimultaneous | src/lib.rs:170-195 | N notes that share their start and end give N |
| SequenceAnalysis.MaxNotesAtOnceIntendedDisjoint | src/lib.rs:170-195 | notes already time-ordered that each end before the next starts give 1 |
| SequenceAnalysis.MaxNotesAtOnceIntendedNonOverlapping | src/lib.rs:170-195 | a non-empty list of notes, each starting no later than it ends, in any order and pairwise not overlapping, gives 1 |
| SequenceAnalysis.StaleRemovalIntended | src/lib.rs:188-190 | on the notes that make the as-written sweep panic, the intended sweep gives 2 |
| SequenceAnalysis.StaleRemovalUndercountsIntended | src/lib.rs:188-190 | on the notes the as-written sweep undercounts, the intended sweep gives the 4 notes that sound together |
| SequenceAnalysis.UsedFrequencies | src/lib.rs:198-205 | an instrument's list has at most one entry per note; `UsedFrequenciesCharacterized` and `UsedFrequenciesPrefix` state its contents and order |
| SequenceAnalysis.UsedFrequenciesCharacterized | src/lib.rs:198-205 | an instrument's list has no duplicates and holds exactly the frequency ids of that instrument's notes |
| SequenceAnalysis.UsedFrequenciesPrefix | src/lib.rs:198-205 | lists only grow at the end as notes are processed, so ids appear in order of first occurrence |
| SequenceAnalysis.FrequenciesByInstrument | src/lib.rs:196-207 | the keys are exactly the instrument ids of the notes; `FrequenciesByInstrumentCovers` states the lists |
| SequenceAnalysis.FrequenciesByInstrumentCovers | src/lib.rs:196-207 | the keys are exactly the instrument ids of the notes; each note's frequency is in its instrument's list; every list is non-empty and has no duplicates |
| SequenceAnalysis.ListStep | src/lib.rs:199-204 | one loop step: the note's instrument gets an entry if it had none, and the note's frequency is appended unless already listed |
| SequenceAnalysis.Sequence.ListFrequenciesForInstruments | src/lib.rs:196-207 | the loop builds exactly `FrequenciesByInstrument` of the notes, whose properties `FrequenciesByInstrumentCovers` and `UsedFrequenciesCharacterized` state |
| Instruments.InstrumentTable.Get | src/lib.rs:223-228 | Ok exactly when the id is present, with the instrument stored under it; otherwise `NoInstrumentForID(id)` |
| Instruments.Instrument.GetAnyKey | src/lib.rs:261-266 | Ok exactly when the key map is non-empty, with one of its keys (which one is unspecified); otherwise `NoDefaultKeyGiven` |
| Instruments.FirstUnresolved | src/lib.rs:240-245 | the position where the generator loop stops: every id before it resolves in the table, and the id at it (if any) does not |
| Instruments.GenerateKeys | src/lib.rs:240-245 | the generator loop never removes a key, and it fails only with a lookup error (`NoFrequencyForID` or `ImpossibleTimeOrFrequency`); `GenerateKeysStops` and `GenerateKeysRegenerates` state where it stops and which keys it writes |
| Instruments.GenerateKeysStops | src/lib.rs:240-245 | with a generator, `gen_keys` passes exactly when every id resolves, and otherwise fails with the lookup error of the first id that does not |
| Instruments.GenerateKeysRegenerates | src/lib.rs:240-245 | with a generator, exactly the ids before the first unresolved one get a key generated from their looked-up frequency, and every other key is unchanged, so insertions before a failure stay in place |
| Instruments.GenKeysOutcome | src/lib.rs:238-259 | `gen_keys` never drops a key; `NoDefaultKeyGiven` only without a generator and with an empty map; the unimplemented panic only without a generator and with a non-empty id list; `GenKeysOutcomeCharacterized` states the rest |
| Instruments.GenKeysOutcomeCharacterized | src/lib.rs:238-259 | keys of ids not in the list are kept; with a generator, success puts every id in the map and failure is a lookup error of some listed id; without a generator the map never changes, an empty map fails with `NoDefaultKeyGiven`, and it passes exactly when the map is non-empty and the list empty |
| Instruments.Instrument.GenKeys | src/lib.rs:232-260 | the result and the new key map are those of `GenKeysOutcome` on the old keys (the loop is proved against it) |
| Instruments.MusicSequencer.GenInstrumentKeys | src/lib.rs:156-162 | it passes exactly when every instrument used by the sequence exists and its `gen_keys` passes; after success each such instrument's keys are its `gen_keys` result; every instrument's keys are either unchanged or its `gen_keys` result; only the instruments' keys may change, so their generators and `loopable` flags stay; a failure is the missing-instrument error or the `gen_keys` failure of some used instrument |
| Instruments.MusicSequencer.GenKeysFor | src/lib.rs:157-161 | the loop over the frequency map, in any order: the same success, key and failure facts against snapshots of the keys and generators on entry; only the instruments' keys may change, so generators and `loopable` flags stay |
| Instruments.MusicSequencer.GenKeysOf | src/lib.rs:158-159 | a missing instrument gives `NoInstrumentForID(id)`; otherwise that instrument's keys and result become its `gen_keys` outcome, no other instrument changes, and only keys may change |
| Helper.FirstClose | src/helper.rs:63 | the first builder position within `EPSILON` of the frequency; none exactly when no entry is that close |
| Helper.LookupOrAppend | src/helper.rs:62-69 | the id is the first position close to the frequency; the builder grows by at most one and keeps its existing entries; when it grows, the id is the old length and the new entry is the frequency |
| Helper.LookupOrAppendIdempotent | src/helper.rs:62-69 | looking the same frequency up again gives the same id and leaves the builder as it is |
| Helper.LutOf | src/helper.rs:148-153 | the table built from the builder maps each index `0 <= i < len` to entry `i` and has no other key |
| Helper.BuildFrequencyLut | src/helper.rs:149-153 | the `for` loop builds exactly `LutOf(builder)` |
| Helper.LutOfGet | src/lib.rs:211-219 | reading a built table back: an id past the builder is missing; any other id gives its entry exactly when the entry is a usable frequency |
| Helper.LookupOrAppendResolves | src/helper.rs:61-73 | the id handed out for a frequency is in the table built afterwards, and that entry is close to the frequency |
| Helper.WithStarted | src/helper.rs:81-96 | the instrument gets an entry if it had none; other instruments are untouched; the pair is sounding afterwards; a pair already sounding keeps its first start (no change); otherwise exactly that pair is added, with the given start and velocity |
| Helper.Released | src/helper.rs:123-131 | the note added at note-off starts at the partial note's start, ends now, lasts end − start, and keeps the stored on-velocity and the given off-velocity, frequency id and instrument |
| Helper.Stopped | src/helper.rs:118-141 | panics exactly for an instrument never started; a pair not sounding changes nothing; otherwise exactly one `Released` note is appended and that pair alone stops sounding, with the instrument keys unchanged; no pair starts sounding |
| Helper.StartThenStop | src/helper.rs:75-142 | a note-on followed by its note-off adds exactly one note from the start time to the stop time and leaves sounding exactly the pairs that sounded before |
| Helper.StopTwice | src/helper.rs:112-142 | a second note-off for the same pair changes nothing |
| Helper.StoppedWellTimed | src/helper.rs:123-131 | note-off adds only notes whose duration is end − start |
| Helper.Scheduled | src/helper.rs:228-236 | the note `new_note_with_flut` adds starts now, lasts `duration`, ends at start + duration, and carries the given ids and velocities |
| Helper.AppendWellTimed | src/helper.rs:228-236 | appending a note whose duration is end − start keeps every note well-timed |
| Helper.HardwareSequenceHelper.New | src/helper.rs:33-41 | nothing sounding, no notes, an empty builder, no table, time 0, and the helper's invariant holds |
| Helper.HardwareSequenceHelper.NewWithFlut | src/helper.rs:43-51 | the given table, no builder, nothing sounding, no notes, time 0 |
| Helper.HardwareSequenceHelper.TimeForward | src/helper.rs:53-55 | the time becomes old time + the passed time, and nothing else changes |
| Helper.HardwareSequenceHelper.ResetTime | src/helper.rs:57-59 | the time becomes 0, and nothing else changes |
| Helper.HardwareSequenceHelper.StartNote | src/helper.rs:61-73 | without a builder it panics and changes nothing; otherwise the builder becomes `LookupOrAppend`'s and the partial notes `WithStarted` for the id it returns; the notes are untouched |
| Helper.HardwareSequenceHelper.StartNoteWithFlut | src/helper.rs:75-97 | the partial notes become `WithStarted` at the current time; nothing else changes |
| Helper.HardwareSequenceHelper.StopNote | src/helper.rs:99-110 | without a builder it panics; a frequency the builder does not hold changes nothing and never grows the builder; otherwise it behaves as `stop_note_with_flut` for the first close id |
| Helper.HardwareSequenceHelper.StopNoteWithFlut | src/helper.rs:112-142 | the partial notes and notes become those of `Stopped`; on its panic nothing changes |
| Helper.HardwareSequenceHelper.GetFrequencyLut | src/helper.rs:144-158 | a ready-made table is returned unchanged; otherwise the table is `LutOf(builder)`; with neither it panics, which a helper satisfying its invariant never does |
| Helper.SoftwareSequenceHelper.New | src/helper.rs:167-174 | no notes, an empty builder, no table, time 0 |
| Helper.SoftwareSequenceHelper.NewWithFlut | src/helper.rs:176-183 | the given table, no builder, no notes, time 0 |
| Helper.SoftwareSequenceHelper.TimeForward | src/helper.rs:185-187 | the time becomes old time + the passed time, and nothing else changes |
| Helper.SoftwareSequenceHelper.ResetTime | src/helper.rs:189-191 | the time becomes 0, and nothing else changes |
| Helper.SoftwareSequenceHelper.NewNote | src/helper.rs:193-218 | without a builder it panics and changes nothing; otherwise the builder becomes `LookupOrAppend`'s and one `Scheduled` note with the returned id is appended |
| Helper.SoftwareSequenceHelper.NewNoteWithFlut | src/helper.rs:220-237 | exactly one `Scheduled` note is appended; the time and the builder are unchanged |
| Helper.SoftwareSequenceHelper.GetFrequencyLut | src/helper.rs:243-257 | a ready-made table is returned unchanged; otherwise the table is `LutOf(builder)`; with neither it panics |
| ToneGenerators.FMod | src/tone_generators.rs:21 | float `%` for a non-negative dividend: the remainder lies in `[0, p)`, the dividend less the remainder is a non-negative whole multiple of `p`, and the remainder equals the dividend when the dividend is below `p` |
| ToneGenerators.FrameCount | src/tone_generators.rs:13-19 | the least `n >= 0` with `n >= sample_rate * duration` |
| ToneGenerators.HighAt | src/tone_generators.rs:14-21 | frame `k` is high when `(k / rate) mod (1/f) <= (1/f)/2`; frames in the first half period are high; a zero frequency is always high; a negative frequency is always low |
| ToneGenerators.ChannelSamples | src/tone_generators.rs:22-29 | exactly `nb_channels` samples, all equal to the given level |
| ToneGenerators.SquareFrameAt | src/tone_generators.rs:20-32 | at position `k`, with `pos_seconds = k / rate`, the frame holds `nb_channels` samples, all +1.0 or all −1.0 as `HighAt(k)` says |
| ToneGenerators.SquareWaveKeyGen | src/tone_generators.rs:8-45 | a non-float sample type is an unimplemented panic; otherwise the key has the input frequency, the input parameters, no loop info and `FrameCount` frames, and frame `k` holds `nb_channels` samples all +1.0 or all −1.0 as `HighAt(k)` says |
| ToneGenerators.SquareWaveStartsHigh | src/tone_generators.rs:17-23 | for a non-negative frequency the first frame is +1.0 |
| ToneGenerators.FirstHalfPeriodHigh | src/tone_generators.rs:14-23 | every frame before `sample_rate / (2 f)` is +1.0 |

## Left out

- `MusicSequencer::render` (src/lib.rs:153-155) is `unimplemented!()` and is not modelled.
- `KeyPitchChanger::key_gen` is `unimplemented!()` too. The model treats it only as the `Unimplemented` panic of `gen_keys` without a generator, raised once the first id resolves.
- The `Envelope` trait has no implementation and no caller.
- `LoopInfo` is carried but never read.
- `get_sequence` in both helpers only clones the note list. It is not modelled as a separate operation, because the `sequence` field is the note list itself.
- Floating point is modelled with exact reals. This leaves out:
  - the bit-level `is_normal`, kept as the range `MIN_POSITIVE <= |v| <= MAX`;
  - subnormal encodings;
  - rounding in `pos_seconds += 1/rate`;
  - rounding in `end_at = at_time + duration` (src/helper.rs:228-236): the `Valid` invariant of `SoftwareSequenceHelper` includes `WellTimed` (`endAt - startAt == duration`), which holds only on exact reals;
  - negative zero: a frequency of `-0.0` is the real 0, which `HighAt` makes always high, while in `f64` its period `1/-0.0` is `-inf` and every frame is low;
  - the `f32` sample values.
- Helper builder entries are stored as finite reals, so NaN or infinite frequencies passed to the helpers are not modelled.
- ToneGenerators.FMod: only non-negative dividends are modelled, which are the only ones the generator produces.
- Helper.FirstClose: the tolerance test `|x - f| < EPSILON` is modelled exactly on reals, not with f64 subtraction.
- Sequence.SortByTime: a NaN start time makes the comparator `unwrap` panic. That panic is not modelled, because start times are reals.
- `Vec::sort_by` is modelled as a stable insertion sort. Its guarantees (ascending, permutation, stability) are what `SortByStartCorrect` proves.
- Integer widths are not modelled:
  - `u32` frequency ids, `u16` instrument ids and `usize` are `nat`;
  - the `u32` counter in `calc_max_notes_at_once` cannot overflow for fewer than 2^32 notes.
- `HashMap` iteration order is not modelled:
  - `get_any_key` returns an arbitrary key;
  - `gen_instrument_keys` visits instruments in an arbitrary order;
  - both are written with `:|`, and their contracts state only what holds for every order.
- Instruments.MusicSequencer.GenInstrumentKeys: it requires that no two instrument ids share one `Instrument` object, which Rust's ownership guarantees.
- Instruments.MusicSequencer.GenInstrumentKeys: after a failure, the contract does not say which instruments were visited before it, because that depends on the hash order.
- The key generator trait object is a function value `KeyGenerator(keyGen)`. Generators other than the square wave are parameters of the model. `keyGen` is a total function, so a generator is assumed never to fail or panic.
- The square-wave generator is a standalone method, because its `key_gen` takes a `duration` argument that `KeyGenerator::key_gen` (src/lib.rs:131) lacks.
  - As a method, it is not used as a `KeyGenerator` value.
  - The frame count follows the code, which produces a ceiling (the least `n ≥ rate·duration`).
- `helper.rs` targets another revision of `lib.rs`, one with `Sequence::new`, `add_note` and `Note.frequency_id`. The helpers therefore have their own `Helper.Note`, and the sequence is the list of notes added, with `add_note` modelled as an append.
- Error messages are not modelled:
  - the `Display` and `description` strings of `src/error.rs`;
  - the `From<PCMError>` conversion.
- The external `pcm` crate's types are minimal declarations: a sample is a float or something else, and `PcmError` carries only a code.
- The trait `ValidTimeFrequency` is modelled only for `f64`, its one implementation.

## Findings

| source | as written | input that shows it | evidently intended | confidence | as-written member | corrected member |
|---|---|---|---|---|---|---|
| src/lib.rs:188-190 | removes notes by positions recorded before any removal, so after the first removal the later positions are shifted | notes [0,1], [0,1], [2,3]: at the third note positions 0 and 1 are stale, and removing position 1 from the one-note list panics | drop every stale note (a `retain`), giving 2 | not executed | SequenceAnalysis.StaleRemovalPanics | SequenceAnalysis.StaleRemovalIntended |
| src/lib.rs:188-190 | the shifted second removal hits a note that still sounds and leaves a stale one | notes [0,1], [0,1], [0,10], [2,10], [2,10], [2,10]: the sweep reports 3, while four notes sound together from time 2 on | the peak number of notes sounding at once, here 4 | not executed | SequenceAnalysis.StaleRemovalUndercounts | SequenceAnalysis.MaxNotesAtOnceIntendedIsPeak |

`SequenceAnalysis.Sequence.CalcMaxNotesAtOnce` models the code as written. `SequenceAnalysis.MaxNotesAtOnceIntended` is the corrected divisor; `SequenceAnalysis.StaleRemovalUndercountsIntended` shows that it gives 4 on the second input. On notes that all share their start and end, and on notes that pairwise do not overlap, the as-written sweep is still right (`SequenceAnalysis.MaxNotesAtOnceSimultaneous`, `SequenceAnalysis.MaxNotesAtOnceNonOverlapping`).
