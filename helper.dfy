/**
 * src/helper.rs: two builders that turn a stream of events into a note list and a frequency
 * lookup table. `HardwareSequenceHelper` pairs note-on and note-off events (as MIDI does);
 * `SoftwareSequenceHelper` takes notes with a known duration. Both work against a revision of
 * the library in which a note names its frequency by `frequency_id` and a sequence is
 * extended by `add_note`, so they have a note type of their own and keep the sequence as the
 * list of notes added so far.
 */
module Helper {
  import opened Wrappers
  import opened Float64
  import opened Errors
  import Sequencer

  datatype Note = Note(startAt: real, endAt: real, duration: real, frequencyId: nat,
                       onVelocity: real, offVelocity: real, instrumentId: nat)

  /** A note that has started and not yet stopped: what is known of it so far. */
  datatype HardwarePartialNote = HardwarePartialNote(startAt: real, onVelocity: real)

  /** Instrument id to frequency id to the partial note sounding there. */
  type PartialNotes = map<nat, map<nat, HardwarePartialNote>>

  predicate Sounding(current: PartialNotes, instrumentId: nat, frequencyId: nat)
  {
    instrumentId in current && frequencyId in current[instrumentId]
  }

  /** Every note of `notes` lasts from its start to its end. */
  ghost predicate WellTimed(notes: seq<Note>)
  {
    forall k :: 0 <= k < |notes| ==> notes[k].duration == notes[k].endAt - notes[k].startAt
  }

  // ------------------------------------------------------------ the frequency builder

  /** `Iterator::position` over the builder with the tolerance test: the first entry close to `frequency`. */
  function FirstClose(builder: seq<real>, frequency: real): (r: Option<nat>)
    ensures r.Some? ==> r.value < |builder| && Close(builder[r.value], frequency)
    ensures r.Some? ==> forall i :: 0 <= i < r.value ==> !Close(builder[i], frequency)
    ensures r.None? <==> forall i :: 0 <= i < |builder| ==> !Close(builder[i], frequency)
  {
    if builder == [] then None
    else
      var last := |builder| - 1;
      match FirstClose(builder[..last], frequency)
      case Some(i) => Some(i)
      case None => if Close(builder[last], frequency) then Some(last) else None
  }

  /**
   * The frequency id `start_note` and `new_note` use, with the builder afterwards: the first
   * entry close to `frequency`, or a new entry holding `frequency` at the end.
   */
  function LookupOrAppend(builder: seq<real>, frequency: real): (r: (nat, seq<real>))
    ensures |builder| <= |r.1| <= |builder| + 1 && r.1[..|builder|] == builder
    ensures r.0 < |r.1| && Close(r.1[r.0], frequency)
    ensures forall i :: 0 <= i < r.0 ==> !Close(r.1[i], frequency)
    ensures |r.1| == |builder| + 1 ==> r.0 == |builder| && r.1[r.0] == frequency
  {
    match FirstClose(builder, frequency)
    case Some(i) => (i, builder)
    case None =>
      assert (builder + [frequency])[..|builder|] == builder;
      (|builder|, builder + [frequency])
  }

  /** Looking the same frequency up again finds the same id and leaves the builder as it is. */
  lemma LookupOrAppendIdempotent(builder: seq<real>, frequency: real)
    ensures var (id, grown) := LookupOrAppend(builder, frequency);
      LookupOrAppend(grown, frequency) == (id, grown)
  {
  }

  /** The table `get_frequency_lut` builds: entry `i` of the builder under id `i`, and nothing else. */
  function LutOf(builder: seq<real>): (r: map<nat, F64>)
    ensures forall id: nat :: id in r <==> id < |builder|
    ensures forall id :: 0 <= id < |builder| ==> r[id] == Finite(builder[id])
  {
    map id: nat | id < |builder| :: Finite(builder[id])
  }

  /** The `for` loop of `get_frequency_lut` that inserts every builder entry under its index. */
  method BuildFrequencyLut(builder: seq<real>) returns (table: Sequencer.FrequencyLookupTable)
    ensures table.lut == LutOf(builder)
  {
    var lut: map<nat, F64> := map[];
    for index := 0 to |builder|
      invariant forall id: nat :: id in lut <==> id < index
      invariant forall id :: 0 <= id < index ==> lut[id] == Finite(builder[id])
    {
      lut := lut[index := Finite(builder[index])];
    }
    assert lut.Keys == LutOf(builder).Keys;
    table := Sequencer.FrequencyLookupTable(lut);
  }

  /**
   * Reading a built table back: an id past the builder is missing; any other id gives its
   * entry exactly when the entry is a valid frequency.
   */
  lemma LutOfGet(builder: seq<real>, id: nat)
    ensures id >= |builder| ==> Sequencer.FrequencyLookupTable(LutOf(builder)).Get(id) == Err(NoFrequencyForID(id))
    ensures id < |builder| ==>
      (Sequencer.FrequencyLookupTable(LutOf(builder)).Get(id).Ok? <==> MIN_POSITIVE <= builder[id] <= MAX)
    ensures id < |builder| && Sequencer.FrequencyLookupTable(LutOf(builder)).Get(id).Ok? ==>
      Sequencer.FrequencyLookupTable(LutOf(builder)).Get(id).value == builder[id]
  {
  }

  /** The id handed out for a frequency resolves, in the table built afterwards, to a value close to it. */
  lemma LookupOrAppendResolves(builder: seq<real>, frequency: real)
    ensures var (id, grown) := LookupOrAppend(builder, frequency);
      id in LutOf(grown) && LutOf(grown)[id].Finite? && Close(LutOf(grown)[id].value, frequency)
  {
  }

  // ------------------------------------------------------------ note-on and note-off

  /**
   * The partial notes after a note-on for (`instrumentId`, `frequencyId`): the instrument gets
   * an entry if it had none; a pair already sounding keeps its first start.
   */
  function WithStarted(current: PartialNotes, instrumentId: nat, frequencyId: nat, pn: HardwarePartialNote)
    : (r: PartialNotes)
    ensures r.Keys == current.Keys + {instrumentId}
    ensures forall i :: i in current && i != instrumentId ==> r[i] == current[i]
    ensures Sounding(r, instrumentId, frequencyId)
    ensures Sounding(current, instrumentId, frequencyId) ==> r == current
    ensures !Sounding(current, instrumentId, frequencyId) ==>
      r[instrumentId][frequencyId] == pn &&
      r[instrumentId] - {frequencyId} == (if instrumentId in current then current[instrumentId] else map[])
  {
    var notes := if instrumentId in current then current[instrumentId] else map[];
    if frequencyId in notes then current[instrumentId := notes]
    else current[instrumentId := notes[frequencyId := pn]]
  }

  /** The note added when the partial note `pn` is stopped at `atTime`. */
  function Released(pn: HardwarePartialNote, atTime: real, frequencyId: nat, offVelocity: real, instrumentId: nat)
    : (n: Note)
    ensures n.startAt == pn.startAt && n.endAt == atTime && n.duration == n.endAt - n.startAt
    ensures n.onVelocity == pn.onVelocity && n.offVelocity == offVelocity
    ensures n.frequencyId == frequencyId && n.instrumentId == instrumentId
  {
    Note(pn.startAt, atTime, atTime - pn.startAt, frequencyId, pn.onVelocity, offVelocity, instrumentId)
  }

  /**
   * `stop_note_with_flut` on the partial notes and the note list: an instrument never seen
   * panics; a pair not sounding changes nothing; otherwise the note is added and the pair
   * stops sounding.
   */
  function Stopped(current: PartialNotes, notes: seq<Note>, atTime: real, frequencyId: nat, offVelocity: real,
                   instrumentId: nat): (r: Result<(PartialNotes, seq<Note>), Panic>)
    ensures r.Err? <==> instrumentId !in current
    ensures r.Err? ==> r.error == InstrumentNeverStarted(instrumentId)
    ensures r.Ok? && !Sounding(current, instrumentId, frequencyId) ==> r.value == (current, notes)
    ensures r.Ok? ==> r.value.0.Keys == current.Keys && !Sounding(r.value.0, instrumentId, frequencyId)
    ensures r.Ok? ==> forall i, f :: Sounding(current, i, f) && (i, f) != (instrumentId, frequencyId) ==>
      Sounding(r.value.0, i, f) && r.value.0[i][f] == current[i][f]
    ensures r.Ok? ==> forall i, f :: Sounding(r.value.0, i, f) ==> Sounding(current, i, f)
    ensures r.Ok? && Sounding(current, instrumentId, frequencyId) ==>
      r.value.1 == notes + [Released(current[instrumentId][frequencyId], atTime, frequencyId, offVelocity, instrumentId)]
  {
    if instrumentId !in current then Err(InstrumentNeverStarted(instrumentId))
    else
      var sounding: map<nat, HardwarePartialNote> := current[instrumentId];
      if frequencyId in sounding then
        var pn := sounding[frequencyId];
        var remaining: map<nat, HardwarePartialNote> := sounding - {frequencyId};
        Ok((current[instrumentId := remaining],
            notes + [Released(pn, atTime, frequencyId, offVelocity, instrumentId)]))
      else Ok((current, notes))
  }

  /**
   * A note-on followed by its note-off adds exactly one note, from the start time to the stop
   * time, and leaves no pair sounding that was not sounding before.
   */
  lemma StartThenStop(current: PartialNotes, notes: seq<Note>, startAt: real, stopAt: real, frequencyId: nat,
                      onVelocity: real, offVelocity: real, instrumentId: nat)
    requires !Sounding(current, instrumentId, frequencyId)
    ensures var started := WithStarted(current, instrumentId, frequencyId, HardwarePartialNote(startAt, onVelocity));
            var r := Stopped(started, notes, stopAt, frequencyId, offVelocity, instrumentId);
      && r.Ok?
      && r.value.1 == notes + [Note(startAt, stopAt, stopAt - startAt, frequencyId, onVelocity, offVelocity, instrumentId)]
      && r.value.0.Keys == current.Keys + {instrumentId}
      && (forall i, f :: Sounding(r.value.0, i, f) <==> Sounding(current, i, f))
  {
    var started := WithStarted(current, instrumentId, frequencyId, HardwarePartialNote(startAt, onVelocity));
    var r := Stopped(started, notes, stopAt, frequencyId, offVelocity, instrumentId);
    forall i, f
      ensures Sounding(r.value.0, i, f) <==> Sounding(current, i, f)
    {
      if i == instrumentId && f != frequencyId {
        var before := if instrumentId in current then current[instrumentId] else map[];
        assert f in started[instrumentId] <==> f in before by {
          assert f in started[instrumentId] - {frequencyId} <==> f in started[instrumentId];
        }
      }
    }
  }

  /** Stopping a pair twice: the second note-off changes nothing. */
  lemma StopTwice(current: PartialNotes, notes: seq<Note>, atTime: real, laterTime: real, frequencyId: nat,
                  offVelocity: real, instrumentId: nat)
    requires instrumentId in current
    ensures var once := Stopped(current, notes, atTime, frequencyId, offVelocity, instrumentId).value;
      Stopped(once.0, once.1, laterTime, frequencyId, offVelocity, instrumentId) == Ok(once)
  {
  }

  /** Stopping adds only notes that last from their start to their end. */
  lemma StoppedWellTimed(current: PartialNotes, notes: seq<Note>, atTime: real, frequencyId: nat,
                         offVelocity: real, instrumentId: nat)
    requires WellTimed(notes)
    ensures var r := Stopped(current, notes, atTime, frequencyId, offVelocity, instrumentId);
      r.Ok? ==> WellTimed(r.value.1)
  {
    var r := Stopped(current, notes, atTime, frequencyId, offVelocity, instrumentId);
    if r.Ok? && Sounding(current, instrumentId, frequencyId) {
      var added := r.value.1;
      forall k | 0 <= k < |added|
        ensures added[k].duration == added[k].endAt - added[k].startAt
      {
        if k < |notes| {
          assert added[k] == notes[k];
        }
      }
    }
  }

  /** The note `new_note_with_flut` adds: it starts now and lasts `duration`. */
  function Scheduled(atTime: real, frequencyId: nat, duration: real, onVelocity: real, offVelocity: real,
                     instrumentId: nat): (n: Note)
    ensures n.startAt == atTime && n.duration == duration && n.endAt - n.startAt == n.duration
    ensures n.frequencyId == frequencyId && n.instrumentId == instrumentId
    ensures n.onVelocity == onVelocity && n.offVelocity == offVelocity
  {
    Note(atTime, atTime + duration, duration, frequencyId, onVelocity, offVelocity, instrumentId)
  }

  lemma AppendWellTimed(notes: seq<Note>, n: Note)
    requires WellTimed(notes) && n.duration == n.endAt - n.startAt
    ensures WellTimed(notes + [n])
  {
    var added := notes + [n];
    forall k | 0 <= k < |added|
      ensures added[k].duration == added[k].endAt - added[k].startAt
    {
      if k < |notes| {
        assert added[k] == notes[k];
      }
    }
  }

  // ------------------------------------------------------------ the two helpers

  class HardwareSequenceHelper {
    var currentInstruments: PartialNotes
    var frequencyLut: Option<Sequencer.FrequencyLookupTable>
    var frequencyLutBuilder: Option<seq<real>>
    var sequence: seq<Note>
    var atTime: real

    /** Exactly one source of frequencies, and a note list of well-timed notes. */
    ghost predicate Valid()
      reads this
    {
      frequencyLut.Some? != frequencyLutBuilder.Some? && WellTimed(sequence)
    }

    /** `new`: nothing sounding, no notes, an empty builder, time 0. */
    constructor New()
      ensures currentInstruments == map[] && frequencyLut == None && frequencyLutBuilder == Some([])
      ensures sequence == [] && atTime == 0.0
      ensures Valid()
    {
      currentInstruments := map[];
      frequencyLut := None;
      frequencyLutBuilder := Some([]);
      sequence := [];
      atTime := 0.0;
    }

    /** `new_with_flut`: a ready-made table and no builder. */
    constructor NewWithFlut(lut: Sequencer.FrequencyLookupTable)
      ensures currentInstruments == map[] && frequencyLut == Some(lut) && frequencyLutBuilder == None
      ensures sequence == [] && atTime == 0.0
      ensures Valid()
    {
      currentInstruments := map[];
      frequencyLut := Some(lut);
      frequencyLutBuilder := None;
      sequence := [];
      atTime := 0.0;
    }

    method TimeForward(timePassed: real)
      modifies this`atTime
      ensures atTime == old(atTime) + timePassed
    {
      atTime := atTime + timePassed;
    }

    method ResetTime()
      modifies this`atTime
      ensures atTime == 0.0
    {
      atTime := 0.0;
    }

    /** `start_note`: the frequency id comes from the builder; without a builder it panics. */
    method StartNote(frequency: real, onVelocity: real, instrumentId: nat) returns (r: Outcome<Panic>)
      modifies this`frequencyLutBuilder, this`currentInstruments
      ensures old(frequencyLutBuilder).None? ==>
        r == Fail(NoFrequencyBuilder) && frequencyLutBuilder == old(frequencyLutBuilder) &&
        currentInstruments == old(currentInstruments)
      ensures old(frequencyLutBuilder).Some? ==>
        var (id, grown) := LookupOrAppend(old(frequencyLutBuilder).value, frequency);
        && r == Pass
        && frequencyLutBuilder == Some(grown)
        && currentInstruments ==
           WithStarted(old(currentInstruments), instrumentId, id, HardwarePartialNote(atTime, onVelocity))
      ensures old(Valid()) ==> Valid()
    {
      match frequencyLutBuilder {
        case None =>
          return Fail(NoFrequencyBuilder);
        case Some(builder) =>
          var (frequencyId, grown) := LookupOrAppend(builder, frequency);
          frequencyLutBuilder := Some(grown);
          StartNoteWithFlut(frequencyId, onVelocity, instrumentId);
          return Pass;
      }
    }

    /** `start_note_with_flut`: records when and how hard the pair was struck, unless it already sounds. */
    method StartNoteWithFlut(frequencyId: nat, onVelocity: real, instrumentId: nat)
      modifies this`currentInstruments
      ensures currentInstruments ==
        WithStarted(old(currentInstruments), instrumentId, frequencyId, HardwarePartialNote(atTime, onVelocity))
    {
      currentInstruments :=
        WithStarted(currentInstruments, instrumentId, frequencyId, HardwarePartialNote(atTime, onVelocity));
    }

    /**
     * `stop_note`: a frequency the builder has never seen changes nothing (and does not grow
     * the builder); without a builder it panics.
     */
    method StopNote(frequency: real, offVelocity: real, instrumentId: nat) returns (r: Outcome<Panic>)
      modifies this`currentInstruments, this`sequence
      ensures frequencyLutBuilder.None? ==>
        r == Fail(NoFrequencyBuilder) && currentInstruments == old(currentInstruments) && sequence == old(sequence)
      ensures frequencyLutBuilder.Some? && FirstClose(frequencyLutBuilder.value, frequency).None? ==>
        r == Pass && currentInstruments == old(currentInstruments) && sequence == old(sequence)
      ensures frequencyLutBuilder.Some? && FirstClose(frequencyLutBuilder.value, frequency).Some? ==>
        var s := Stopped(old(currentInstruments), old(sequence), atTime,
                         FirstClose(frequencyLutBuilder.value, frequency).value, offVelocity, instrumentId);
        if s.Ok? then r == Pass && (currentInstruments, sequence) == s.value
        else r == Fail(s.error) && currentInstruments == old(currentInstruments) && sequence == old(sequence)
      ensures old(Valid()) ==> Valid()
    {
      match frequencyLutBuilder {
        case None =>
          return Fail(NoFrequencyBuilder);
        case Some(builder) =>
          match FirstClose(builder, frequency) {
            case None =>
              return Pass;
            case Some(id) =>
              r := StopNoteWithFlut(id, offVelocity, instrumentId);
          }
      }
    }

    /** `stop_note_with_flut`: see `Stopped`. */
    method StopNoteWithFlut(frequencyId: nat, offVelocity: real, instrumentId: nat) returns (r: Outcome<Panic>)
      modifies this`currentInstruments, this`sequence
      ensures var s := Stopped(old(currentInstruments), old(sequence), atTime, frequencyId, offVelocity, instrumentId);
        if s.Ok? then r == Pass && (currentInstruments, sequence) == s.value
        else r == Fail(s.error) && currentInstruments == old(currentInstruments) && sequence == old(sequence)
      ensures old(Valid()) ==> Valid()
    {
      var s := Stopped(currentInstruments, sequence, atTime, frequencyId, offVelocity, instrumentId);
      if s.Err? {
        return Fail(s.error);
      }
      if WellTimed(sequence) {
        StoppedWellTimed(currentInstruments, sequence, atTime, frequencyId, offVelocity, instrumentId);
      }
      currentInstruments, sequence := s.value.0, s.value.1;
      return Pass;
    }

    /** `get_frequency_lut`: the ready-made table, else the one built from the builder, else a panic. */
    method GetFrequencyLut() returns (r: Result<Sequencer.FrequencyLookupTable, Panic>)
      ensures frequencyLut.Some? ==> r == Ok(frequencyLut.value)
      ensures frequencyLut.None? && frequencyLutBuilder.Some? ==> r.Ok? && r.value.lut == LutOf(frequencyLutBuilder.value)
      ensures frequencyLut.None? && frequencyLutBuilder.None? ==> r == Err(NoFrequencyBuilder)
      ensures Valid() ==> r.Ok?
    {
      match frequencyLut {
        case Some(f) =>
          return Ok(f);
        case None =>
          match frequencyLutBuilder {
            case Some(builder) =>
              var lut := BuildFrequencyLut(builder);
              return Ok(lut);
            case None =>
              return Err(NoFrequencyBuilder);
          }
      }
    }
  }

  class SoftwareSequenceHelper {
    var sequence: seq<Note>
    var frequencyLut: Option<Sequencer.FrequencyLookupTable>
    var frequencyLutBuilder: Option<seq<real>>
    var atTime: real

    /** Exactly one source of frequencies, and a note list of well-timed notes. */
    ghost predicate Valid()
      reads this
    {
      frequencyLut.Some? != frequencyLutBuilder.Some? && WellTimed(sequence)
    }

    constructor New()
      ensures sequence == [] && frequencyLut == None && frequencyLutBuilder == Some([]) && atTime == 0.0
      ensures Valid()
    {
      sequence := [];
      frequencyLut := None;
      frequencyLutBuilder := Some([]);
      atTime := 0.0;
    }

    constructor NewWithFlut(lut: Sequencer.FrequencyLookupTable)
      ensures sequence == [] && frequencyLut == Some(lut) && frequencyLutBuilder == None && atTime == 0.0
      ensures Valid()
    {
      sequence := [];
      frequencyLut := Some(lut);
      frequencyLutBuilder := None;
      atTime := 0.0;
    }

    method TimeForward(timePassed: real)
      modifies this`atTime
      ensures atTime == old(atTime) + timePassed
    {
      atTime := atTime + timePassed;
    }

    method ResetTime()
      modifies this`atTime
      ensures atTime == 0.0
    {
      atTime := 0.0;
    }

    /** `new_note`: the frequency id comes from the builder; without a builder it panics. */
    method NewNote(frequency: real, duration: real, onVelocity: real, offVelocity: real, instrumentId: nat)
      returns (r: Outcome<Panic>)
      modifies this`frequencyLutBuilder, this`sequence
      ensures old(frequencyLutBuilder).None? ==>
        r == Fail(NoFrequencyBuilder) && frequencyLutBuilder == old(frequencyLutBuilder) && sequence == old(sequence)
      ensures old(frequencyLutBuilder).Some? ==>
        var (id, grown) := LookupOrAppend(old(frequencyLutBuilder).value, frequency);
        && r == Pass
        && frequencyLutBuilder == Some(grown)
        && sequence == old(sequence) + [Scheduled(atTime, id, duration, onVelocity, offVelocity, instrumentId)]
      ensures old(Valid()) ==> Valid()
    {
      match frequencyLutBuilder {
        case None =>
          return Fail(NoFrequencyBuilder);
        case Some(builder) =>
          var (frequencyId, grown) := LookupOrAppend(builder, frequency);
          frequencyLutBuilder := Some(grown);
          NewNoteWithFlut(frequencyId, duration, onVelocity, offVelocity, instrumentId);
          return Pass;
      }
    }

    /** `new_note_with_flut`: adds a note that starts now and lasts `duration`; the time stays. */
    method NewNoteWithFlut(frequencyId: nat, duration: real, onVelocity: real, offVelocity: real, instrumentId: nat)
      modifies this`sequence
      ensures sequence == old(sequence) + [Scheduled(atTime, frequencyId, duration, onVelocity, offVelocity, instrumentId)]
      ensures old(Valid()) ==> Valid()
    {
      var n := Scheduled(atTime, frequencyId, duration, onVelocity, offVelocity, instrumentId);
      if WellTimed(sequence) {
        AppendWellTimed(sequence, n);
      }
      sequence := sequence + [n];
    }

    /** `get_frequency_lut`: the ready-made table, else the one built from the builder, else a panic. */
    method GetFrequencyLut() returns (r: Result<Sequencer.FrequencyLookupTable, Panic>)
      ensures frequencyLut.Some? ==> r == Ok(frequencyLut.value)
      ensures frequencyLut.None? && frequencyLutBuilder.Some? ==> r.Ok? && r.value.lut == LutOf(frequencyLutBuilder.value)
      ensures frequencyLut.None? && frequencyLutBuilder.None? ==> r == Err(NoFrequencyBuilder)
      ensures Valid() ==> r.Ok?
    {
      match frequencyLut {
        case Some(f) =>
          return Ok(f);
        case None =>
          match frequencyLutBuilder {
            case Some(builder) =>
              var lut := BuildFrequencyLut(builder);
              return Ok(lut);
            case None =>
              return Err(NoFrequencyBuilder);
          }
      }
    }
  }
}
