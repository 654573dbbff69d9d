/**
 * `Instrument`, `InstrumentTable` and `MusicSequencer` of src/lib.rs: generating and caching
 * the keys every instrument needs for the frequencies its notes use.
 */
module Instruments {
  import opened Wrappers
  import opened Errors
  import opened Pcm
  import opened Sequencer
  import opened SequenceAnalysis

  /** Position of the first id of `ids` that the table cannot resolve, or `|ids|` when all resolve. */
  function FirstUnresolved(ids: seq<nat>, fLut: FrequencyLookupTable): (n: nat)
    ensures n <= |ids|
    ensures forall i :: 0 <= i < n ==> fLut.Get(ids[i]).Ok?
    ensures n < |ids| ==> fLut.Get(ids[n]).Err?
  {
    if ids == [] then 0
    else if fLut.Get(ids[0]).Err? then 0
    else 1 + FirstUnresolved(ids[1..], fLut)
  }

  /**
   * `after` is `before` with a key generated by `g` for every id of `done`, from the frequency
   * the table gives for it; every other key is as it was.
   */
  ghost predicate Regenerated(before: map<nat, Key>, after: map<nat, Key>, done: seq<nat>, g: KeyGenerator,
                              fLut: FrequencyLookupTable, parameters: PCMParameters)
  {
    && after.Keys == before.Keys + (set x | x in done)
    && (forall i :: 0 <= i < |done| ==>
          fLut.Get(done[i]).Ok? && after[done[i]] == g.keyGen(fLut.Get(done[i]).value, parameters))
    && (forall id :: id in before && id !in done ==> after[id] == before[id])
  }

  lemma RegeneratedCons(before: map<nat, Key>, after: map<nat, Key>, id: nat, rest: seq<nat>, g: KeyGenerator,
                        fLut: FrequencyLookupTable, parameters: PCMParameters)
    requires fLut.Get(id).Ok?
    requires Regenerated(before[id := g.keyGen(fLut.Get(id).value, parameters)], after, rest, g, fLut, parameters)
    ensures Regenerated(before, after, [id] + rest, g, fLut, parameters)
  {
    var done := [id] + rest;
    assert (set x | x in done) == {id} + (set x | x in rest);
    forall i | 0 <= i < |done|
      ensures fLut.Get(done[i]).Ok? && after[done[i]] == g.keyGen(fLut.Get(done[i]).value, parameters)
    {
      if i > 0 {
        assert done[i] == rest[i - 1];
      } else if id !in rest {
        assert done[0] == id;
      } else {
        var j :| 0 <= j < |rest| && rest[j] == id;
      }
    }
  }

  /**
   * The loop of `gen_keys` with a generator: a key for each id in turn, aborting at the first id
   * that the table cannot resolve with that lookup's error; keys inserted before it stay.
   */
  function GenerateKeys(g: KeyGenerator, keys: map<nat, Key>, ids: seq<nat>, fLut: FrequencyLookupTable,
                        parameters: PCMParameters): (r: (Outcome<Failure>, map<nat, Key>))
    ensures keys.Keys <= r.1.Keys
    ensures r.0.Fail? ==> r.0.error.Error? && (r.0.error.error.NoFrequencyForID? || r.0.error.error.ImpossibleTimeOrFrequency?)
    decreases |ids|
  {
    if ids == [] then (Pass, keys)
    else
      match fLut.Get(ids[0])
      case Err(e) => (Fail(Error(e)), keys)
      case Ok(f) => GenerateKeys(g, keys[ids[0] := g.keyGen(f, parameters)], ids[1..], fLut, parameters)
  }

  /** The generator loop fails exactly at the first unresolved id, with that lookup's error. */
  lemma {:induction false} GenerateKeysStops(g: KeyGenerator, keys: map<nat, Key>, ids: seq<nat>,
                                               fLut: FrequencyLookupTable, parameters: PCMParameters)
    decreases |ids|
    ensures var n := FirstUnresolved(ids, fLut);
      GenerateKeys(g, keys, ids, fLut, parameters).0 == (if n == |ids| then Pass else Fail(Error(fLut.Get(ids[n]).error)))
  {
    if ids != [] && fLut.Get(ids[0]).Ok? {
      var next := keys[ids[0] := g.keyGen(fLut.Get(ids[0]).value, parameters)];
      GenerateKeysStops(g, next, ids[1..], fLut, parameters);
      assert GenerateKeys(g, keys, ids, fLut, parameters) == GenerateKeys(g, next, ids[1..], fLut, parameters);
      assert FirstUnresolved(ids, fLut) == 1 + FirstUnresolved(ids[1..], fLut);
    }
  }

  /** Before it stops, the generator loop regenerates the key of every id it has passed, and only those. */
  lemma {:induction false} GenerateKeysRegenerates(g: KeyGenerator, keys: map<nat, Key>, ids: seq<nat>,
                                                   fLut: FrequencyLookupTable, parameters: PCMParameters)
    decreases |ids|
    ensures Regenerated(keys, GenerateKeys(g, keys, ids, fLut, parameters).1, ids[..FirstUnresolved(ids, fLut)],
                        g, fLut, parameters)
  {
    if ids == [] || fLut.Get(ids[0]).Err? {
      assert ids[..FirstUnresolved(ids, fLut)] == [];
    } else {
      var next := keys[ids[0] := g.keyGen(fLut.Get(ids[0]).value, parameters)];
      GenerateKeysRegenerates(g, next, ids[1..], fLut, parameters);
      RegeneratesStep(g, keys, next, ids, fLut, parameters);
    }
  }

  /** One resolved id more: the key of `ids[0]` is regenerated, then the rest as the recursive call says. */
  lemma RegeneratesStep(g: KeyGenerator, keys: map<nat, Key>, next: map<nat, Key>, ids: seq<nat>,
                        fLut: FrequencyLookupTable, parameters: PCMParameters)
    requires ids != [] && fLut.Get(ids[0]).Ok?
    requires next == keys[ids[0] := g.keyGen(fLut.Get(ids[0]).value, parameters)]
    requires Regenerated(next, GenerateKeys(g, next, ids[1..], fLut, parameters).1,
                         ids[1..][..FirstUnresolved(ids[1..], fLut)], g, fLut, parameters)
    ensures Regenerated(keys, GenerateKeys(g, keys, ids, fLut, parameters).1, ids[..FirstUnresolved(ids, fLut)],
                        g, fLut, parameters)
  {
    var after := GenerateKeys(g, next, ids[1..], fLut, parameters).1;
    assert GenerateKeys(g, keys, ids, fLut, parameters).1 == after;
    var n := FirstUnresolved(ids[1..], fLut);
    assert FirstUnresolved(ids, fLut) == n + 1;
    PrefixCons(ids, n);
    RegeneratedCons(keys, after, ids[0], ids[1..][..n], g, fLut, parameters);
  }

  lemma PrefixCons(ids: seq<nat>, n: nat)
    requires n < |ids|
    ensures ids[..n + 1] == [ids[0]] + ids[1..][..n]
  {
  }

  /**
   * What `gen_keys` returns and leaves in the key map. With a generator, see `GenerateKeys`.
   * Without one, a seed key is needed first; the pitch changer is not implemented, so the first
   * id that resolves panics, and the keys never change.
   */
  function GenKeysOutcome(generator: Option<KeyGenerator>, keys: map<nat, Key>, ids: seq<nat>,
                          fLut: FrequencyLookupTable, parameters: PCMParameters): (r: (Outcome<Failure>, map<nat, Key>))
    ensures keys.Keys <= r.1.Keys
    ensures r.0 == Fail(Error(NoDefaultKeyGiven)) ==> generator.None? && keys == map[]
    ensures r.0 == Fail(Panicked(Unimplemented)) ==> generator.None? && ids != []
  {
    match generator
    case Some(g) => GenerateKeys(g, keys, ids, fLut, parameters)
    case None =>
      if keys == map[] then (Fail(Error(NoDefaultKeyGiven)), keys)
      else if ids == [] then (Pass, keys)
      else
        match fLut.Get(ids[0])
        case Err(e) => (Fail(Error(e)), keys)
        case Ok(_) => (Fail(Panicked(Unimplemented)), keys)
  }

  /** User-visible consequences of `gen_keys`: the keys it keeps, adds, and the errors it can report. */
  lemma GenKeysOutcomeCharacterized(generator: Option<KeyGenerator>, keys: map<nat, Key>, ids: seq<nat>,
                                    fLut: FrequencyLookupTable, parameters: PCMParameters)
    ensures var r := GenKeysOutcome(generator, keys, ids, fLut, parameters);
      && (forall id :: id in keys && id !in ids ==> id in r.1 && r.1[id] == keys[id])
      && (generator.Some? && r.0.Pass? ==> forall i :: 0 <= i < |ids| ==> ids[i] in r.1)
      && (generator.Some? && r.0.Fail? ==>
            exists i :: 0 <= i < |ids| && fLut.Get(ids[i]).Err? && r.0 == Fail(Error(fLut.Get(ids[i]).error)))
      && (generator.None? ==> r.1 == keys)
      && (generator.None? && keys == map[] ==> r.0 == Fail(Error(NoDefaultKeyGiven)))
      && (generator.None? ==> (r.0.Pass? <==> keys != map[] && ids == []))
  {
    if generator.Some? {
      GenerateKeysStops(generator.value, keys, ids, fLut, parameters);
      GenerateKeysRegenerates(generator.value, keys, ids, fLut, parameters);
      var n := FirstUnresolved(ids, fLut);
      assert forall i :: 0 <= i < n ==> ids[..n][i] == ids[i];
    }
  }

  class Instrument {
    var keys: map<nat, Key>
    var keyGenerator: Option<KeyGenerator>
    var loopable: bool

    constructor (keys: map<nat, Key>, keyGenerator: Option<KeyGenerator>, loopable: bool)
      ensures this.keys == keys && this.keyGenerator == keyGenerator && this.loopable == loopable
    {
      this.keys := keys;
      this.keyGenerator := keyGenerator;
      this.loopable := loopable;
    }

    /** `get_any_key`: some cached key, which one unspecified; an error when there is none. */
    method GetAnyKey() returns (r: Result<Key, SequencerError>)
      ensures r.Ok? <==> keys != map[]
      ensures r.Ok? ==> r.value in keys.Values
      ensures r.Err? ==> r.error == NoDefaultKeyGiven
    {
      if keys == map[] {
        return Err(NoDefaultKeyGiven);
      }
      var id :| id in keys;
      return Ok(keys[id]);
    }

    /** `gen_keys`: (re)generates the key of every id in `frequencyIds`, in order. */
    method GenKeys(frequencyIds: seq<nat>, fLut: FrequencyLookupTable, parameters: PCMParameters)
      returns (r: Outcome<Failure>)
      modifies this`keys
      ensures (r, keys) == GenKeysOutcome(keyGenerator, old(keys), frequencyIds, fLut, parameters)
    {
      match keyGenerator {
        case Some(g) =>
          for i := 0 to |frequencyIds|
            invariant GenerateKeys(g, keys, frequencyIds[i..], fLut, parameters)
                   == GenerateKeys(g, old(keys), frequencyIds, fLut, parameters)
          {
            assert frequencyIds[i..][0] == frequencyIds[i] && frequencyIds[i..][1..] == frequencyIds[i + 1..];
            var frequency := fLut.Get(frequencyIds[i]);
            if frequency.Err? {
              return Fail(Error(frequency.error));
            }
            keys := keys[frequencyIds[i] := g.keyGen(frequency.value, parameters)];
          }
        case None =>
          var originalKey := GetAnyKey();
          if originalKey.Err? {
            return Fail(Error(originalKey.error));
          }
          if |frequencyIds| > 0 {
            // The pitch changer's key_gen is `unimplemented!()`: reached once the first id resolves.
            var frequency := fLut.Get(frequencyIds[0]);
            if frequency.Err? {
              return Fail(Error(frequency.error));
            }
            return Fail(Panicked(Unimplemented));
          }
      }
      return Pass;
    }
  }

  class InstrumentTable {
    var instruments: map<nat, Instrument>

    constructor (instruments: map<nat, Instrument>)
      ensures this.instruments == instruments
    {
      this.instruments := instruments;
    }

    /** Each id owns its instrument: no two ids share one object. */
    ghost predicate Valid()
      reads this
    {
      forall i, j :: i in instruments && j in instruments && i != j ==> instruments[i] != instruments[j]
    }

    /** `InstrumentTable::get`: the instrument stored under `id`, or an error naming `id`. */
    function Get(id: nat): (r: Result<Instrument, SequencerError>)
      reads this
      ensures r.Ok? <==> id in instruments
      ensures r.Ok? ==> r.value == instruments[id]
      ensures r.Err? ==> r.error == NoInstrumentForID(id)
    {
      if id in instruments then Ok(instruments[id]) else Err(NoInstrumentForID(id))
    }
  }

  class MusicSequencer {
    var pcmParameters: PCMParameters
    var sequence: Sequence
    var instruments: InstrumentTable
    var frequencyLut: FrequencyLookupTable

    constructor (pcmParameters: PCMParameters, sequence: Sequence, instruments: InstrumentTable,
                 frequencyLut: FrequencyLookupTable)
      ensures this.pcmParameters == pcmParameters && this.sequence == sequence
      ensures this.instruments == instruments && this.frequencyLut == frequencyLut
    {
      this.pcmParameters := pcmParameters;
      this.sequence := sequence;
      this.instruments := instruments;
      this.frequencyLut := frequencyLut;
    }

    /**
     * `gen_instrument_keys`: runs `gen_keys` on every instrument used by the sequence, with the
     * frequency ids its notes use, in an unspecified order, and stops at the first failure.
     * Success, and the keys after success, do not depend on the order.
     */
    method GenInstrumentKeys() returns (r: Outcome<Failure>)
      requires instruments.Valid()
      modifies instruments.instruments.Values`keys
      ensures r.Pass? <==> forall id :: id in FrequenciesByInstrument(sequence.notes) ==>
        (id in instruments.instruments &&
         GenKeysOutcome(instruments.instruments[id].keyGenerator, old(instruments.instruments[id].keys),
                        FrequenciesByInstrument(sequence.notes)[id], frequencyLut, pcmParameters).0.Pass?)
      ensures r.Pass? ==> forall id :: id in FrequenciesByInstrument(sequence.notes) ==>
        instruments.instruments[id].keys ==
        GenKeysOutcome(instruments.instruments[id].keyGenerator, old(instruments.instruments[id].keys),
                       FrequenciesByInstrument(sequence.notes)[id], frequencyLut, pcmParameters).1
      ensures forall id :: id in instruments.instruments ==>
        (instruments.instruments[id].keys == old(instruments.instruments[id].keys) ||
         (id in FrequenciesByInstrument(sequence.notes) && instruments.instruments[id].keys ==
          GenKeysOutcome(instruments.instruments[id].keyGenerator, old(instruments.instruments[id].keys),
                         FrequenciesByInstrument(sequence.notes)[id], frequencyLut, pcmParameters).1))
      ensures r.Fail? ==> exists id :: (id in FrequenciesByInstrument(sequence.notes) &&
        if id in instruments.instruments
         then r == GenKeysOutcome(instruments.instruments[id].keyGenerator, old(instruments.instruments[id].keys),
                                  FrequenciesByInstrument(sequence.notes)[id], frequencyLut, pcmParameters).0
         else r == Fail(Error(NoInstrumentForID(id))))
    {
      var frequencies := sequence.ListFrequenciesForInstruments();
      ghost var table := instruments.instruments;
      ghost var before := map id | id in table :: table[id].keys;
      ghost var generators := map id | id in table :: table[id].keyGenerator;
      r := GenKeysFor(frequencies, before, generators);
      forall id | id in table
        ensures before[id] == old(table[id].keys) && generators[id] == table[id].keyGenerator
      {
      }
    }

    /**
     * The loop of `gen_instrument_keys` over a given map from instrument id to frequency ids;
     * `before` and `generators` record every instrument's keys and generator on entry.
     */
    method GenKeysFor(frequencies: map<nat, seq<nat>>, ghost before: map<nat, map<nat, Key>>,
                      ghost generators: map<nat, Option<KeyGenerator>>) returns (r: Outcome<Failure>)
      requires instruments.Valid()
      requires forall id :: id in instruments.instruments ==>
        id in before && before[id] == instruments.instruments[id].keys &&
        id in generators && generators[id] == instruments.instruments[id].keyGenerator
      modifies instruments.instruments.Values`keys
      ensures forall id :: id in instruments.instruments ==>
        instruments.instruments[id].keyGenerator == generators[id]
      ensures r.Pass? <==> forall id :: id in frequencies ==>
        (id in instruments.instruments &&
         GenKeysOutcome(generators[id], before[id], frequencies[id], frequencyLut, pcmParameters).0.Pass?)
      ensures forall id :: id in instruments.instruments ==>
        if id in frequencies && (r.Pass? || instruments.instruments[id].keys != before[id])
        then instruments.instruments[id].keys ==
             GenKeysOutcome(generators[id], before[id], frequencies[id], frequencyLut, pcmParameters).1
        else instruments.instruments[id].keys == before[id]
      ensures r.Fail? ==> exists id :: (id in frequencies &&
        if id in instruments.instruments
        then r == GenKeysOutcome(generators[id], before[id], frequencies[id], frequencyLut, pcmParameters).0
        else r == Fail(Error(NoInstrumentForID(id))))
    {
      ghost var table := instruments.instruments;
      var todo := frequencies.Keys;
      while todo != {}
        decreases todo
        invariant todo <= frequencies.Keys
        invariant forall id :: id in frequencies && id !in todo ==>
          id in table && GenKeysOutcome(generators[id], before[id], frequencies[id], frequencyLut, pcmParameters).0.Pass?
        invariant forall id :: id in table ==>
          table[id].keys == (if id in frequencies && id !in todo
          then GenKeysOutcome(generators[id], before[id], frequencies[id], frequencyLut, pcmParameters).1
          else before[id])
      {
        var id :| id in todo;
        r := GenKeysOf(id, frequencies[id]);
        forall j | j in table
          ensures table[j].keys == (if j in frequencies && (j !in todo || j == id)
            then GenKeysOutcome(generators[j], before[j], frequencies[j], frequencyLut, pcmParameters).1
            else before[j])
        {
        }
        if r.Fail? {
          return;
        }
        todo := todo - {id};
      }
      r := Pass;
    }

    /** One step of `gen_instrument_keys`: looks the instrument up and runs `gen_keys` on it. */
    method GenKeysOf(id: nat, ids: seq<nat>) returns (r: Outcome<Failure>)
      requires instruments.Valid()
      modifies instruments.instruments.Values`keys
      ensures r == if id in instruments.instruments
        then GenKeysOutcome(instruments.instruments[id].keyGenerator, old(instruments.instruments[id].keys),
                            ids, frequencyLut, pcmParameters).0
        else Fail(Error(NoInstrumentForID(id)))
      ensures forall j :: j in instruments.instruments ==>
        instruments.instruments[j].keys == if j == id
          then GenKeysOutcome(instruments.instruments[j].keyGenerator, old(instruments.instruments[j].keys),
                              ids, frequencyLut, pcmParameters).1
          else old(instruments.instruments[j].keys)
      ensures forall j :: j in instruments.instruments ==>
        instruments.instruments[j].keyGenerator == old(instruments.instruments[j].keyGenerator)
    {
      var got := instruments.Get(id);
      if got.Err? {
        return Fail(Error(got.error));
      }
      var instrument := got.value;
      r := instrument.GenKeys(ids, frequencyLut, pcmParameters);
      forall j | j in instruments.instruments && j != id
        ensures instruments.instruments[j] != instrument
      {
      }
    }
  }
}
