/**
 * Musical time in the vox2ksh converter (converter.py): a meter, and a
 * position as a measure, a 1-based beat and a tick offset within the beat,
 * with tick differences, carrying addition, comparison and text form.
 */
module KshTiming {
  import opened Wrappers
  import opened Strings
  import opened Numbers
  import opened ChartTypes

  /** TimeSignature: `top` beats a measure, each a 1/`bottom` note. */
  datatype TimeSignature = TimeSignature(top: int, bottom: int)

  /**
   * `ticks_per_beat`: 48 ticks a quarter note scaled to the beat's note
   * value, `int(48 * (4 / bottom))`, so truncated toward zero. A zero
   * `bottom` raises ZeroDivisionError.
   */
  function TicksPerBeatOf(ts: TimeSignature): (tpb: int)
    requires ts.bottom != 0
    ensures ts.bottom > 0 ==> 0 <= tpb && tpb * ts.bottom <= 4 * TicksPerBeat < (tpb + 1) * ts.bottom
    ensures ts.bottom < 0 ==> tpb <= 0 && -tpb * -ts.bottom <= 4 * TicksPerBeat < (-tpb + 1) * -ts.bottom
  {
    if ts.bottom > 0 then 4 * TicksPerBeat / ts.bottom
    else -(4 * TicksPerBeat / -ts.bottom)
  }

  /** The usual meters: 48 ticks a quarter, 24 an eighth, 12 a sixteenth, 96 a half note beat. */
  lemma TicksPerBeatExamples(top: int)
    ensures TicksPerBeatOf(TimeSignature(top, 4)) == 48
    ensures TicksPerBeatOf(TimeSignature(top, 8)) == 24
    ensures TicksPerBeatOf(TimeSignature(top, 16)) == 12
    ensures TicksPerBeatOf(TimeSignature(top, 2)) == 96
  {
  }

  /** Timing: measure, 1-based beat within the measure, tick offset within the beat. */
  datatype Timing = Timing(measure: int, beat: int, offset: int)

  /**
   * `diff`: the ticks from `other` to `t`, counting `top` beats of
   * `ticks_per_beat` ticks a measure.
   */
  function Diff(t: Timing, other: Timing, ts: TimeSignature): int
    requires ts.bottom != 0
  {
    var tpb := TicksPerBeatOf(ts);
    (t.measure - other.measure) * (tpb * ts.top) + (t.beat - other.beat) * tpb + (t.offset - other.offset)
  }

  /** The ticks of measure `m`, beat `b`, offset `o` counted from measure 0, beat 0. */
  function TicksAt(m: int, b: int, o: int, tpb: int, top: int): int {
    m * (tpb * top) + b * tpb + o
  }

  /** The difference of two timings is the difference of their tick counts. */
  lemma DiffOfTicks(t: Timing, other: Timing, ts: TimeSignature)
    requires ts.bottom != 0
    ensures Diff(t, other, ts) == TicksAt(t.measure, t.beat, t.offset, TicksPerBeatOf(ts), ts.top)
      - TicksAt(other.measure, other.beat, other.offset, TicksPerBeatOf(ts), ts.top)
  {
    var tpb := TicksPerBeatOf(ts);
    var k := tpb * ts.top;
    assert (t.measure - other.measure) * k == t.measure * k - other.measure * k;
    assert (t.beat - other.beat) * tpb == t.beat * tpb - other.beat * tpb;
  }

  /** A timing is no ticks from itself, and swapping the two negates the difference. */
  lemma DiffSelfAndSwap(a: Timing, b: Timing, ts: TimeSignature)
    requires ts.bottom != 0
    ensures Diff(a, a, ts) == 0
    ensures Diff(a, b, ts) == -Diff(b, a, ts)
  {
    DiffOfTicks(a, a, ts);
    DiffOfTicks(a, b, ts);
    DiffOfTicks(b, a, ts);
  }

  /** Moving one beat of ticks from the offset to the beat keeps the tick count. */
  lemma OffsetCarry(m: int, b: int, o: int, tpb: int, top: int)
    ensures TicksAt(m, b + 1, o - tpb, tpb, top) == TicksAt(m, b, o, tpb, top)
  {
    assert (b + 1) * tpb == b * tpb + tpb;
  }

  /** Moving one measure of beats from the beat to the measure keeps the tick count. */
  lemma BeatCarry(m: int, b: int, o: int, tpb: int, top: int)
    ensures TicksAt(m + 1, b - top, o, tpb, top) == TicksAt(m, b, o, tpb, top)
  {
    assert (m + 1) * (tpb * top) == m * (tpb * top) + tpb * top;
    assert (b - top) * tpb == b * tpb - top * tpb;
  }

  /**
   * `add`: the timing `ticks` ticks later, the offset carried into beats
   * while it is a whole beat or more, then the beat carried into measures
   * while it is past the last beat. The loops end only for a positive
   * meter, which is what the source needs of its callers.
   */
  method Add(t: Timing, ticks: int, ts: TimeSignature) returns (r: Timing)
    requires ts.bottom != 0 && ts.top > 0 && TicksPerBeatOf(ts) > 0
    ensures Diff(r, t, ts) == ticks
    ensures r.offset < TicksPerBeatOf(ts) && r.beat <= ts.top && r.measure >= t.measure
    ensures t.offset + ticks >= 0 ==> r.offset >= 0
    ensures t.beat >= 1 ==> r.beat >= 1
    ensures t.offset + ticks < TicksPerBeatOf(ts) ==> r.offset == t.offset + ticks
    ensures t.offset + ticks < TicksPerBeatOf(ts) && t.beat <= ts.top ==> r == Timing(t.measure, t.beat, t.offset + ticks)
  {
    var tpb := TicksPerBeatOf(ts);
    var measure, beat, offset := t.measure, t.beat, t.offset + ticks;
    while offset >= tpb
      invariant TicksAt(measure, beat, offset, tpb, ts.top) == TicksAt(t.measure, t.beat, t.offset, tpb, ts.top) + ticks
      invariant measure == t.measure && beat >= t.beat
      invariant t.offset + ticks >= 0 ==> offset >= 0
      invariant t.offset + ticks < tpb ==> offset == t.offset + ticks && beat == t.beat
      decreases offset
    {
      OffsetCarry(measure, beat, offset, tpb, ts.top);
      offset := offset - tpb;
      beat := beat + 1;
    }
    while beat > ts.top
      invariant TicksAt(measure, beat, offset, tpb, ts.top) == TicksAt(t.measure, t.beat, t.offset, tpb, ts.top) + ticks
      invariant measure >= t.measure && offset < tpb
      invariant t.offset + ticks >= 0 ==> offset >= 0
      invariant t.beat >= 1 ==> beat >= 1
      invariant t.offset + ticks < tpb ==> offset == t.offset + ticks
      invariant t.offset + ticks < tpb && t.beat <= ts.top ==> beat == t.beat && measure == t.measure
      decreases beat
    {
      BeatCarry(measure, beat, offset, tpb, ts.top);
      beat := beat - ts.top;
      measure := measure + 1;
    }
    r := Timing(measure, beat, offset);
    DiffOfTicks(r, t, ts);
  }

  /** A timing with its offset inside one beat and its beat inside the measure. */
  predicate Normalized(t: Timing, ts: TimeSignature)
    requires ts.bottom != 0
  {
    0 <= t.offset < TicksPerBeatOf(ts) && 1 <= t.beat <= ts.top
  }

  /** `__eq__`: all three fields agree. */
  predicate Eq(a: Timing, b: Timing) {
    a.measure == b.measure && a.beat == b.beat && a.offset == b.offset
  }

  /** `__cmp__`: the first difference among measure, beat and offset. */
  function Cmp(a: Timing, b: Timing): int {
    if a.measure == b.measure then
      if a.beat == b.beat then a.offset - b.offset else a.beat - b.beat
    else a.measure - b.measure
  }

  /** `a` comes strictly before `b` in the order of (measure, beat, offset). */
  predicate LexBefore(a: Timing, b: Timing) {
    a.measure < b.measure
    || (a.measure == b.measure && (a.beat < b.beat || (a.beat == b.beat && a.offset < b.offset)))
  }

  /** `__cmp__` is zero exactly for equal timings, negative exactly before, and antisymmetric. */
  lemma CmpIsLexicographic(a: Timing, b: Timing)
    ensures Cmp(a, b) == 0 <==> Eq(a, b)
    ensures Eq(a, b) <==> a == b
    ensures Cmp(a, b) < 0 <==> LexBefore(a, b)
    ensures Cmp(a, b) > 0 <==> LexBefore(b, a)
    ensures Cmp(a, b) == -Cmp(b, a)
  {
  }

  /** A product of at least one measure outweighs any beat and offset difference. */
  lemma MeasureOutweighs(dm: int, db: int, do: int, tpb: int, top: int)
    requires tpb > 0 && top > 0 && dm >= 1
    requires -top < db < top && -tpb < do < tpb
    ensures dm * (tpb * top) + db * tpb + do > 0
  {
    assert dm * (tpb * top) >= tpb * top;
    assert db * tpb >= (1 - top) * tpb;
  }

  /** A beat of difference outweighs any offset difference. */
  lemma BeatOutweighs(db: int, do: int, tpb: int)
    requires tpb > 0 && db >= 1 && -tpb < do < tpb
    ensures db * tpb + do > 0
  {
    assert db * tpb >= tpb;
  }

  /**
   * Between normalized timings of a positive meter, `__cmp__` and `diff`
   * agree in sign, so the tick difference is zero only for equal timings.
   */
  lemma CmpAgreesWithDiff(a: Timing, b: Timing, ts: TimeSignature)
    requires ts.bottom != 0 && ts.top > 0 && TicksPerBeatOf(ts) > 0
    requires Normalized(a, ts) && Normalized(b, ts)
    ensures Cmp(a, b) < 0 <==> Diff(a, b, ts) < 0
    ensures Cmp(a, b) == 0 <==> Diff(a, b, ts) == 0
    ensures Diff(a, b, ts) == 0 ==> a == b
  {
    var tpb, top := TicksPerBeatOf(ts), ts.top;
    var dm, db, do := a.measure - b.measure, a.beat - b.beat, a.offset - b.offset;
    assert Diff(a, b, ts) == dm * (tpb * top) + db * tpb + do;
    if dm > 0 {
      MeasureOutweighs(dm, db, do, tpb, top);
    } else if dm < 0 {
      MeasureOutweighs(-dm, -db, -do, tpb, top);
      assert (-dm) * (tpb * top) + (-db) * tpb + (-do) == -(dm * (tpb * top) + db * tpb + do);
    } else if db > 0 {
      BeatOutweighs(db, do, tpb);
    } else if db < 0 {
      BeatOutweighs(-db, -do, tpb);
      assert (-db) * tpb == -(db * tpb);
    }
  }

  /** `__str__`: "measure,beat,offset". */
  function ToString(t: Timing): string {
    LocationText(t.measure, t.beat, t.offset)
  }

  /**
   * `from_time_str`: the first three comma-separated fields read with
   * Python's `int`; `None` when a field is missing (IndexError) or is not
   * an integer (ValueError). Fields after the third are not read.
   */
  function FromTimeStr(time: string): Option<Timing> {
    var splitted := Split(time, ",");
    if |splitted| < 3 then None
    else
      match (PyParseInt(splitted[0]), PyParseInt(splitted[1]), PyParseInt(splitted[2]))
      case (Some(m), Some(b), Some(o)) => Some(Timing(m, b, o))
      case _ => None
  }

  /** Reading back the text of a timing gives the timing. */
  lemma FromTimeStrRoundTrip(t: Timing)
    ensures FromTimeStr(ToString(t)) == Some(t)
  {
    LocationTextFields(t.measure, t.beat, t.offset);
    PyParseIntRoundTrip(t.measure);
    PyParseIntRoundTrip(t.beat);
    PyParseIntRoundTrip(t.offset);
  }

  /** Whatever follows a third comma is ignored. */
  lemma FromTimeStrIgnoresExtraFields(t: Timing, rest: string)
    ensures FromTimeStr(ToString(t) + "," + rest) == Some(t)
  {
    SplitAfterLocation(t, rest);
    PyParseIntRoundTrip(t.measure);
    PyParseIntRoundTrip(t.beat);
    PyParseIntRoundTrip(t.offset);
  }

  lemma SplitAfterLocation(t: Timing, rest: string)
    ensures var fields := Split(ToString(t) + "," + rest, ",");
      |fields| >= 3 && fields[0] == IntToString(t.measure) && fields[1] == IntToString(t.beat) && fields[2] == IntToString(t.offset)
  {
    IntToStringPlain(t.measure);
    IntToStringPlain(t.beat);
    IntToStringPlain(t.offset);
    SplitThreeCommas(IntToString(t.measure), IntToString(t.beat), IntToString(t.offset), rest);
  }

  lemma SplitThreeCommas(m: string, b: string, o: string, rest: string)
    requires ',' !in m && ',' !in b && ',' !in o
    ensures Split(m + "," + b + "," + o + "," + rest, ",") == [m, b, o] + Split(rest, ",")
  {
    assert m + "," + b + "," + o + "," + rest == m + [','] + (b + [','] + (o + [','] + rest));
    SplitAtChar(m, ',', b + [','] + (o + [','] + rest));
    SplitAtChar(b, ',', o + [','] + rest);
    SplitAtChar(o, ',', rest);
  }

  /** Fewer than three fields, or a first, second or third field that is not an integer, gives `None`. */
  lemma FromTimeStrFails(time: string)
    ensures |Split(time, ",")| < 3 ==> FromTimeStr(time) == None
    ensures |Split(time, ",")| >= 3 && (exists i :: 0 <= i < 3 && PyParseInt(Split(time, ",")[i]).None?)
      ==> FromTimeStr(time) == None
  {
  }
}
