/**
 * The records the VOX parsers produce and the converters consume
 * (datatypes.ts, note.ts). Every numeric field holds what JavaScript's
 * `parseInt`/`parseFloat` returned: `None` is NaN.
 */
module ChartTypes {
  import opened Wrappers
  import opened Strings
  import opened Numbers

  /** Sub-beat ticks in one beat of a /4 meter. */
  const TicksPerBeat: int := 48

  /** I_SONG_LOCATION: measure, beat and tick offset of an event. */
  datatype SongLocation = SongLocation(measure: Option<int>, beat: Option<int>, offset: Option<int>)

  /** I_BPM_INFO: a tempo change. */
  datatype BpmInfo = BpmInfo(location: SongLocation, bpm: Option<real>, pause: bool)

  /** I_BEAT_INFO: a meter change. */
  datatype BeatInfo = BeatInfo(location: SongLocation, numerator: Option<int>, denominator: Option<int>)

  /** BT_States. */
  datatype BtState = BtStateNone | BtStateChip | BtStateHold | BtStateHoldStart | BtStateHoldEnd

  /** VOL_States. */
  datatype VolState = VolStateNone | VolStateSlam | VolStateContinue | VolStateEnd

  /** The `Note` interface: one state per button lane and per laser. */
  datatype LaneStates = LaneStates(
    btA: BtState, btB: BtState, btC: BtState, btD: BtState,
    fxL: BtState, fxR: BtState, volL: VolState, volR: VolState)

  /**
   * BT_Note: a button note of lane `noteType` (the index into the six
   * button and FX lanes). `holdBeats` is `None` when the field is absent or
   * NaN; the only reader multiplies it, where both give NaN.
   */
  datatype BtNote = BtNote(
    location: SongLocation, noteType: nat, state: BtState,
    holdBeats: Option<real>, someParamB: Option<int>)

  /** The "measure,beat,offset" text that starts every event line of a chart. */
  function LocationText(measure: int, beat: int, offset: int): string {
    IntToString(measure) + "," + IntToString(beat) + "," + IntToString(offset)
  }

  /** Splitting a location text on commas gives back the three numbers' texts. */
  lemma LocationTextFields(measure: int, beat: int, offset: int)
    ensures Split(LocationText(measure, beat, offset), ",") == [IntToString(measure), IntToString(beat), IntToString(offset)]
  {
    var m, b, o := IntToString(measure), IntToString(beat), IntToString(offset);
    IntToStringPlain(measure);
    IntToStringPlain(beat);
    IntToStringPlain(offset);
    assert LocationText(measure, beat, offset) == m + [','] + (b + [','] + o);
    SplitAtChar(m, ',', b + [','] + o);
    SplitAtChar(b, ',', o);
    SplitCharAbsent(o, ',');
  }

  /** A location text holds no tab and no '<'. */
  lemma LocationTextPlain(measure: int, beat: int, offset: int)
    ensures '\t' !in LocationText(measure, beat, offset) && '<' !in LocationText(measure, beat, offset)
  {
    IntToStringPlain(measure);
    IntToStringPlain(beat);
    IntToStringPlain(offset);
  }
}
