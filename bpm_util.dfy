/**
 * Tempo helpers (bpmutil.ts): the beat count between two tempo changes and
 * whether a tempo change lifts a pause. The location fields are JavaScript
 * numbers read with `parseInt`, so each may be NaN (`None`); arithmetic and
 * comparisons follow JavaScript on NaN.
 */
module BpmUtil {
  import opened Wrappers
  import opened ChartTypes

  /** `a - b`; NaN when either side is. */
  function Minus(a: Option<int>, b: Option<int>): Option<int> {
    if a.Some? && b.Some? then Some(a.value - b.value) else None
  }

  /** `a + b`; NaN when either side is. */
  function Plus(a: Option<int>, b: Option<int>): Option<int> {
    if a.Some? && b.Some? then Some(a.value + b.value) else None
  }

  /** `a * b`; NaN when either side is. */
  function Times(a: Option<int>, b: Option<int>): Option<int> {
    if a.Some? && b.Some? then Some(a.value * b.value) else None
  }

  /** `a <= b`; false when either side is NaN. */
  predicate AtMost(a: Option<int>, b: Option<int>) {
    a.Some? && b.Some? && a.value <= b.value
  }

  /**
   * The beats from `current` to `next`: whole measures times the numerator
   * plus the beat difference. When the next beat number is smaller, one
   * measure is carried and the beats left in the current measure are
   * counted, without adding the next beat number.
   */
  function CountBPMPauseBeats(current: BpmInfo, next: BpmInfo, timeSignature: BeatInfo): (beats: Option<int>)
    ensures beats.Some? <==>
      && current.location.measure.Some? && next.location.measure.Some?
      && current.location.beat.Some? && timeSignature.numerator.Some?
  {
    var measuresBetween := Minus(next.location.measure, current.location.measure);
    var numerator := timeSignature.numerator;
    if AtMost(current.location.beat, next.location.beat) then
      var beatsBetween := Minus(next.location.beat, current.location.beat);
      Plus(Plus(Some(0), Times(measuresBetween, numerator)), beatsBetween)
    else
      var carried := Minus(measuresBetween, Some(1));
      var beatsBetween := Minus(numerator, current.location.beat);
      Plus(Plus(Some(0), Times(carried, numerator)), beatsBetween)
  }

  /** The index of a beat counted from the start of the chart, `numerator` beats per measure. */
  function BeatIndex(measure: int, beat: int, numerator: int): int {
    measure * numerator + beat
  }

  /** Without a wrap the count is the distance between the two beat indices. */
  lemma CountWithoutWrap(current: BpmInfo, next: BpmInfo, timeSignature: BeatInfo, cm: int, cb: int, nm: int, nb: int, n: int)
    requires current.location.measure == Some(cm) && current.location.beat == Some(cb)
    requires next.location.measure == Some(nm) && next.location.beat == Some(nb)
    requires timeSignature.numerator == Some(n)
    requires cb <= nb
    ensures CountBPMPauseBeats(current, next, timeSignature) == Some(BeatIndex(nm, nb, n) - BeatIndex(cm, cb, n))
  {
    assert (nm - cm) * n == nm * n - cm * n;
  }

  /** After a wrap, the count falls short of the distance by the next beat number. */
  lemma CountAfterWrap(current: BpmInfo, next: BpmInfo, timeSignature: BeatInfo, cm: int, cb: int, nm: int, nb: int, n: int)
    requires current.location.measure == Some(cm) && current.location.beat == Some(cb)
    requires next.location.measure == Some(nm) && next.location.beat == Some(nb)
    requires timeSignature.numerator == Some(n)
    requires cb > nb
    ensures CountBPMPauseBeats(current, next, timeSignature) == Some((nm - cm - 1) * n + (n - cb))
    ensures CountBPMPauseBeats(current, next, timeSignature) == Some(BeatIndex(nm, nb, n) - BeatIndex(cm, cb, n) - nb)
  {
    assert (nm - cm - 1) * n == nm * n - cm * n - n;
  }

  /** A NaN next beat number counts as a wrap. */
  lemma CountNaNNextBeat(current: BpmInfo, next: BpmInfo, timeSignature: BeatInfo, cm: int, cb: int, nm: int, n: int)
    requires current.location.measure == Some(cm) && current.location.beat == Some(cb)
    requires next.location.measure == Some(nm) && next.location.beat == None
    requires timeSignature.numerator == Some(n)
    ensures CountBPMPauseBeats(current, next, timeSignature) == Some((nm - cm - 1) * n + (n - cb))
  {
  }

  /** Two changes at the same measure and beat are zero beats apart. */
  lemma CountSameLocation(current: BpmInfo, next: BpmInfo, timeSignature: BeatInfo)
    requires current.location.measure.Some? && current.location.beat.Some? && timeSignature.numerator.Some?
    requires next.location.measure == current.location.measure && next.location.beat == current.location.beat
    ensures CountBPMPauseBeats(current, next, timeSignature) == Some(0)
  {
    var m, b, n := current.location.measure.value, current.location.beat.value, timeSignature.numerator.value;
    CountWithoutWrap(current, next, timeSignature, m, b, m, b, n);
  }

  /**
   * Only the measures, beats and numerator matter: offsets, tempi, pause
   * flags, the denominator and the meter's own location do not.
   */
  lemma CountReadsOnlyMeasureBeatNumerator(
    current: BpmInfo, next: BpmInfo, timeSignature: BeatInfo,
    current': BpmInfo, next': BpmInfo, timeSignature': BeatInfo)
    requires current'.location.measure == current.location.measure && current'.location.beat == current.location.beat
    requires next'.location.measure == next.location.measure && next'.location.beat == next.location.beat
    requires timeSignature'.numerator == timeSignature.numerator
    ensures CountBPMPauseBeats(current', next', timeSignature') == CountBPMPauseBeats(current, next, timeSignature)
  {
  }

  /** Three whole measures of 4/4 are twelve beats. */
  lemma CountThreeMeasures()
    ensures CountBPMPauseBeats(
      BpmInfo(SongLocation(Some(2), Some(1), Some(0)), Some(120.0), false),
      BpmInfo(SongLocation(Some(5), Some(1), Some(0)), Some(120.0), false),
      BeatInfo(SongLocation(Some(0), Some(0), Some(0)), Some(4), Some(4))) == Some(12)
  {
  }

  /** From beat 3 to beat 0 or beat 2 of the next 4/4 measure both count one beat. */
  lemma CountWrapExamples(bpm: Option<real>)
    ensures CountBPMPauseBeats(
      BpmInfo(SongLocation(Some(0), Some(3), Some(0)), bpm, false),
      BpmInfo(SongLocation(Some(1), Some(0), Some(0)), bpm, false),
      BeatInfo(SongLocation(Some(0), Some(0), Some(0)), Some(4), Some(4))) == Some(1)
    ensures CountBPMPauseBeats(
      BpmInfo(SongLocation(Some(0), Some(3), Some(0)), bpm, false),
      BpmInfo(SongLocation(Some(1), Some(2), Some(0)), bpm, false),
      BeatInfo(SongLocation(Some(0), Some(0), Some(0)), Some(4), Some(4))) == Some(1)
  {
  }

  /** `a == b` on numbers: false when either side is NaN. */
  predicate SameNumber(a: Option<real>, b: Option<real>) {
    a.Some? && b.Some? && a.value == b.value
  }

  /** A tempo change lifts a pause when it keeps the tempo and carries no pause flag. */
  function CheckIfBPMChangeUnpauses(previous: BpmInfo, current: BpmInfo): bool {
    SameNumber(previous.bpm, current.bpm) && !current.pause
  }

  /**
   * The answer depends on the two tempi and the new pause flag only: the
   * previous pause flag and both locations are ignored.
   */
  lemma UnpauseIgnoresPreviousPause(previous: BpmInfo, current: BpmInfo, previous': BpmInfo, current': BpmInfo)
    requires previous'.bpm == previous.bpm && current'.bpm == current.bpm && current'.pause == current.pause
    ensures CheckIfBPMChangeUnpauses(previous', current') == CheckIfBPMChangeUnpauses(previous, current)
  {
  }

  /** Changing the tempo, or a NaN tempo, never lifts a pause; neither does a new pause flag. */
  lemma UnpauseNeedsSameTempo(previous: BpmInfo, current: BpmInfo)
    ensures previous.bpm != current.bpm ==> !CheckIfBPMChangeUnpauses(previous, current)
    ensures previous.bpm.None? || current.bpm.None? ==> !CheckIfBPMChangeUnpauses(previous, current)
    ensures current.pause ==> !CheckIfBPMChangeUnpauses(previous, current)
    ensures previous.bpm.Some? && previous.bpm == current.bpm && !current.pause ==> CheckIfBPMChangeUnpauses(previous, current)
  {
  }
}
