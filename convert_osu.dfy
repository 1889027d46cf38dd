/**
 * The VOX to osu!mania converter (convert_osu.ts): a chart position in
 * milliseconds, and the hit-object lines built for button lane A. Numbers
 * are exact reals; `None` stands for a value that is not finite (NaN or an
 * infinity), which JavaScript would print as "NaN" or "Infinity".
 */
module ConvertOsu {
  import opened Wrappers
  import opened ChartTypes

  /** The y coordinate of every hit object. */
  const DefaultY: int := 192

  /** The x coordinate of each of the four osu!mania columns. */
  const Lanes4K: seq<int> := [64, 192, 320, 448]

  /** `60000 / bpm`: the milliseconds of one beat; not finite for NaN or 0. */
  function MsPerBeat(bpm: Option<real>): Option<real> {
    if bpm.Some? && bpm.value != 0.0 then Some(60000.0 / bpm.value) else None
  }

  /**
   * The three terms of the conversion: measures times the numerator, beats,
   * and the beat fraction of the offset ticks, each scaled by `msPerBeat`.
   */
  function PositionMs(m: int, b: int, o: int, n: int, msPerBeat: real): real {
    var fromMeasures := (m * n) as real * msPerBeat;
    var fromBeats := b as real * msPerBeat;
    var fromOffset := (msPerBeat / TicksPerBeat as real) * o as real;
    fromMeasures + fromBeats + fromOffset
  }

  /** The position of `location` in milliseconds at the tempo of `bpm` and the meter of `timesig`. */
  function ConvertVOXLocationToMS(location: SongLocation, bpm: BpmInfo, timesig: BeatInfo): (ms: Option<real>)
    ensures ms.Some? <==>
      && location.measure.Some? && location.beat.Some? && location.offset.Some?
      && timesig.numerator.Some? && bpm.bpm.Some? && bpm.bpm.value != 0.0
  {
    var msPerBeat := MsPerBeat(bpm.bpm);
    var (m, b, o, n) := (location.measure, location.beat, location.offset, timesig.numerator);
    if msPerBeat.Some? && m.Some? && b.Some? && o.Some? && n.Some? then
      Some(PositionMs(m.value, b.value, o.value, n.value, msPerBeat.value))
    else None
  }

  /** The beats from the chart start to measure `m`, beat `b`, tick `o`, with `n` beats a measure. */
  function BeatsAt(m: int, b: int, o: int, n: int): real {
    (m * n) as real + b as real + o as real / 48.0
  }

  /** `beats` beats at `bpm` beats a minute, in milliseconds. */
  function MsOfBeats(beats: real, bpm: real): real
    requires bpm != 0.0
  {
    beats * (60000.0 / bpm)
  }

  /** The position in milliseconds is the beat count times the length of a beat. */
  lemma MsFormula(m: int, b: int, o: int, bpm: BpmInfo, timesig: BeatInfo)
    requires bpm.bpm.Some? && bpm.bpm.value != 0.0 && timesig.numerator.Some?
    ensures ConvertVOXLocationToMS(SongLocation(Some(m), Some(b), Some(o)), bpm, timesig)
      == Some(MsOfBeats(BeatsAt(m, b, o, timesig.numerator.value), bpm.bpm.value))
  {
    var p := 60000.0 / bpm.bpm.value;
    var n := timesig.numerator.value;
    assert MsPerBeat(bpm.bpm) == Some(p);
    Distribute((m * n) as real, b as real, o as real, p);
    assert BeatsAt(m, b, o, n) * p == PositionMs(m, b, o, n, p);
    assert MsOfBeats(BeatsAt(m, b, o, n), bpm.bpm.value) == BeatsAt(m, b, o, n) * p;
  }

  /** Scaling a sum of measures, beats and ticks scales each term. */
  lemma Distribute(x: real, y: real, z: real, p: real)
    ensures x * p + y * p + (p / 48.0) * z == (x + y + z / 48.0) * p
  {
  }

  /** The chart start is at 0 ms, whatever the tempo and meter. */
  lemma MsAtStart(bpm: BpmInfo, timesig: BeatInfo)
    requires bpm.bpm.Some? && bpm.bpm.value != 0.0 && timesig.numerator.Some?
    ensures ConvertVOXLocationToMS(SongLocation(Some(0), Some(0), Some(0)), bpm, timesig) == Some(0.0)
  {
    MsFormula(0, 0, 0, bpm, timesig);
  }

  /** One measure of 4/4 at 120 BPM lasts two seconds. */
  lemma MsOneMeasureAt120()
    ensures ConvertVOXLocationToMS(
      SongLocation(Some(1), Some(0), Some(0)),
      BpmInfo(SongLocation(Some(0), Some(0), Some(0)), Some(120.0), false),
      BeatInfo(SongLocation(Some(0), Some(0), Some(0)), Some(4), Some(4))) == Some(2000.0)
  {
    MsFormula(1, 0, 0,
      BpmInfo(SongLocation(Some(0), Some(0), Some(0)), Some(120.0), false),
      BeatInfo(SongLocation(Some(0), Some(0), Some(0)), Some(4), Some(4)));
  }

  /** 48 offset ticks are one beat. */
  lemma MsOffsetOfOneBeat(m: int, b: int, bpm: BpmInfo, timesig: BeatInfo)
    requires bpm.bpm.Some? && bpm.bpm.value != 0.0 && timesig.numerator.Some?
    ensures ConvertVOXLocationToMS(SongLocation(Some(m), Some(b), Some(48)), bpm, timesig)
      == ConvertVOXLocationToMS(SongLocation(Some(m), Some(b + 1), Some(0)), bpm, timesig)
  {
    MsFormula(m, b, 48, bpm, timesig);
    MsFormula(m, b + 1, 0, bpm, timesig);
    var n := timesig.numerator.value;
    assert BeatsAt(m, b, 48, n) == BeatsAt(m, b + 1, 0, n);
  }

  /** A measure is `numerator` beats. */
  lemma MsMeasureOfBeats(m: int, bpm: BpmInfo, timesig: BeatInfo)
    requires bpm.bpm.Some? && bpm.bpm.value != 0.0 && timesig.numerator.Some?
    ensures ConvertVOXLocationToMS(SongLocation(Some(m), Some(0), Some(0)), bpm, timesig)
      == ConvertVOXLocationToMS(SongLocation(Some(0), Some(m * timesig.numerator.value), Some(0)), bpm, timesig)
  {
    var n := timesig.numerator.value;
    MsFormula(m, 0, 0, bpm, timesig);
    MsFormula(0, m * n, 0, bpm, timesig);
    assert BeatsAt(m, 0, 0, n) == BeatsAt(0, m * n, 0, n);
  }

  /**
   * Only the location, the tempo value and the numerator matter: the
   * denominator, the pause flag and the locations of the tempo and meter
   * records do not.
   */
  lemma MsReadsOnlyTempoAndNumerator(location: SongLocation, bpm: BpmInfo, timesig: BeatInfo, bpm': BpmInfo, timesig': BeatInfo)
    requires bpm'.bpm == bpm.bpm && timesig'.numerator == timesig.numerator
    ensures ConvertVOXLocationToMS(location, bpm', timesig') == ConvertVOXLocationToMS(location, bpm, timesig)
  {
  }

  /** At a positive tempo, a later position in beats is a later time. */
  lemma MsMonotone(m: int, b: int, o: int, m': int, b': int, o': int, bpm: BpmInfo, timesig: BeatInfo)
    requires bpm.bpm.Some? && bpm.bpm.value > 0.0 && timesig.numerator.Some?
    requires BeatsAt(m, b, o, timesig.numerator.value) <= BeatsAt(m', b', o', timesig.numerator.value)
    ensures ConvertVOXLocationToMS(SongLocation(Some(m), Some(b), Some(o)), bpm, timesig).value
      <= ConvertVOXLocationToMS(SongLocation(Some(m'), Some(b'), Some(o')), bpm, timesig).value
  {
    MsFormula(m, b, o, bpm, timesig);
    MsFormula(m', b', o', bpm, timesig);
    var p := 60000.0 / bpm.bpm.value;
    assert p > 0.0;
    var x, y := BeatsAt(m, b, o, timesig.numerator.value), BeatsAt(m', b', o', timesig.numerator.value);
    assert x * p <= y * p by {
      assert (y - x) * p >= 0.0;
    }
  }

  /**
   * One line of the output: header text, a tap note ("x,y,time:0:0:0:0:")
   * or a hold note ("x,y,time,0,end:0:0:0:0:").
   */
  datatype OsuLine =
    | Text(text: string)
    | Chip(x: int, y: int, time: Option<real>)
    | Hold(x: int, y: int, time: Option<real>, endTime: Option<real>)

  /** `HoldBeats * (60000 / bpm)`: a hold's length in milliseconds. */
  function HoldLength(holdBeats: Option<real>, bpm: Option<real>): Option<real> {
    if holdBeats.Some? && bpm.Some? && bpm.value != 0.0 then Some(MsOfBeats(holdBeats.value, bpm.value)) else None
  }

  /** The line written for one lane-A note, always in the first column. */
  function NoteLine(note: BtNote, bpm: BpmInfo, timesig: BeatInfo): OsuLine {
    var time := ConvertVOXLocationToMS(note.location, bpm, timesig);
    if note.state == BtStateChip then Chip(Lanes4K[0], DefaultY, time)
    else Hold(Lanes4K[0], DefaultY, time, HoldLength(note.holdBeats, bpm.bpm))
  }

  /**
   * The lines of the chart: the header, then one line per lane-A note in
   * order, every note timed by the first tempo and the first meter. Lanes
   * B, C and D are not read.
   */
  method ConvertToOsuChart(
    header: seq<string>,
    trackBtA: seq<BtNote>, trackBtB: seq<BtNote>, trackBtC: seq<BtNote>, trackBtD: seq<BtNote>,
    bpms: seq<BpmInfo>, timesigs: seq<BeatInfo>)
    returns (lines: seq<OsuLine>)
    requires |trackBtA| > 0 ==> |bpms| > 0 && |timesigs| > 0
    ensures |lines| == |header| + |trackBtA|
    ensures forall i :: 0 <= i < |header| ==> lines[i] == Text(header[i])
    ensures forall i :: 0 <= i < |trackBtA| ==> lines[|header| + i] == NoteLine(trackBtA[i], bpms[0], timesigs[0])
  {
    lines := seq(|header|, i requires 0 <= i < |header| => Text(header[i]));
    for i := 0 to |trackBtA|
      invariant |lines| == |header| + i
      invariant forall j :: 0 <= j < |header| ==> lines[j] == Text(header[j])
      invariant forall j :: 0 <= j < i ==> lines[|header| + j] == NoteLine(trackBtA[j], bpms[0], timesigs[0])
    {
      lines := lines + [NoteLine(trackBtA[i], bpms[0], timesigs[0])];
    }
  }

  /**
   * A tap note becomes a tap line and every other note a hold line, both
   * in the first column at the note's time; a hold's end is its length
   * alone, not added to its start.
   */
  lemma NoteLineShape(note: BtNote, bpm: BpmInfo, timesig: BeatInfo)
    ensures NoteLine(note, bpm, timesig).Chip? <==> note.state == BtStateChip
    ensures !NoteLine(note, bpm, timesig).Text?
    ensures NoteLine(note, bpm, timesig).x == 64 && NoteLine(note, bpm, timesig).y == 192
    ensures NoteLine(note, bpm, timesig).time == ConvertVOXLocationToMS(note.location, bpm, timesig)
    ensures note.state != BtStateChip && note.holdBeats.Some? && bpm.bpm.Some? && bpm.bpm.value != 0.0 ==>
      NoteLine(note, bpm, timesig).endTime == Some(MsOfBeats(note.holdBeats.value, bpm.bpm.value))
  {
  }

  /** Two holds of the same length end at the same value wherever they start. */
  lemma HoldEndIgnoresStart(note: BtNote, note': BtNote, bpm: BpmInfo, timesig: BeatInfo)
    requires note.state != BtStateChip && note'.state != BtStateChip && note'.holdBeats == note.holdBeats
    ensures NoteLine(note', bpm, timesig).endTime == NoteLine(note, bpm, timesig).endTime
  {
  }
}
