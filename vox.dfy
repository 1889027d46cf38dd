/**
 * The .vox chart file (vox.ts): the file is held as its lines, the section
 * markers are located once, and each section is read back as parsed
 * records of tempo changes, meter changes and button notes.
 */
module VoxFile {
  import opened Wrappers
  import opened Strings
  import opened Numbers
  import opened ChartTypes

  /** The meta sections the reader locates. */
  datatype MetaMarker =
    | BeatInfoMarker | BpmInfoMarker | EndPositionMarker | FxButtonEffectMarker
    | ReverbEffectMarker | SpControllerMarker | TabEffectMarker | TabParamAssignMarker
    | TiltModeMarker | TrackAutoTabMarker

  /** The note tracks the reader locates. */
  datatype TrackMarker = BtA | BtB | BtC | BtD | FxL | FxR | VolL | VolR

  /**
   * The marker lines of the format, read from the shared resource file:
   * the header line of each section and the line that ends a section.
   */
  datatype FormatConfig = FormatConfig(
    metaSearch: MetaMarker -> string,
    trackSearch: TrackMarker -> string,
    commonEnd: string)

  const VersionHeader: string := "#FORMAT VERSION"

  /** The third field of a tempo line that marks a pause ('4' means go). */
  const PauseFlag: string := "4-"

  /** The line break the loader splits with: "\r\n", unless that gives fewer than three lines. */
  function LineSeparator(content: string): string {
    if |Split(content, "\r\n")| < 3 then "\n" else "\r\n"
  }

  function FileLines(content: string): seq<string> {
    Split(content, LineSeparator(content))
  }

  /** Joining the loaded lines gives back the file; a file without CRLF is split at LF. */
  lemma FileLinesRejoin(content: string)
    ensures Join(FileLines(content), LineSeparator(content)) == content
    ensures !Occurs("\r\n", content) ==> LineSeparator(content) == "\n"
  {
    SplitJoin(content, LineSeparator(content));
    if !Occurs("\r\n", content) {
      SplitWithoutSeparator(content, "\r\n");
    }
  }

  /**
   * The lines of a section that starts at index `from`: every line up to the
   * end marker or the end of the file, with each tab written as "<TAB>".
   */
  function RawSection(lines: seq<string>, from: int, end: string): seq<string>
    requires 0 <= from <= |lines|
    decreases |lines| - from
  {
    if from == |lines| || lines[from] == end then []
    else [ReplaceTabs(lines[from])] + RawSection(lines, from + 1, end)
  }

  /**
   * `r` is the section that starts at `from`: the run of lines from there
   * that stops just before the first end marker, or at the end of the file,
   * each with its tabs rewritten.
   */
  ghost predicate IsSection(lines: seq<string>, from: int, end: string, r: seq<string>)
    requires 0 <= from <= |lines|
  {
    && |r| <= |lines| - from
    && (forall i {:trigger r[i]} :: 0 <= i < |r| ==> r[i] == ReplaceTabs(lines[from + i]))
    && (forall i :: from <= i < from + |r| ==> lines[i] != end)
    && (from + |r| == |lines| || lines[from + |r|] == end)
  }

  /** `RawSection` reads exactly the section. */
  lemma {:induction false} RawSectionLines(lines: seq<string>, from: int, end: string)
    requires 0 <= from <= |lines|
    ensures IsSection(lines, from, end, RawSection(lines, from, end))
    decreases |lines| - from
  {
    if from < |lines| && lines[from] != end {
      RawSectionLines(lines, from + 1, end);
      RawSectionStep(lines, from, end);
    }
  }

  /** One more line in front of a section. */
  lemma RawSectionStep(lines: seq<string>, from: int, end: string)
    requires 0 <= from < |lines| && lines[from] != end
    requires IsSection(lines, from + 1, end, RawSection(lines, from + 1, end))
    ensures IsSection(lines, from, end, RawSection(lines, from, end))
  {
    var rest := RawSection(lines, from + 1, end);
    var r := RawSection(lines, from, end);
    assert r == [ReplaceTabs(lines[from])] + rest;
    forall i | 0 < i < |r| ensures r[i] == ReplaceTabs(lines[from + i]) {
      assert r[i] == rest[i - 1];
    }
  }

  /** Applies `parse` to every line, in order: the `forEach` that pushes one record per line. */
  method ParseEachLine<T>(raw: seq<string>, parse: string -> T) returns (records: seq<T>)
    ensures |records| == |raw|
    ensures forall i :: 0 <= i < |raw| ==> records[i] == parse(raw[i])
  {
    records := [];
    for i := 0 to |raw|
      invariant |records| == i
      invariant forall j :: 0 <= j < i ==> records[j] == parse(raw[j])
    {
      records := records + [parse(raw[i])];
    }
  }

  const AllMetaMarkers: set<MetaMarker> := {
    BeatInfoMarker, BpmInfoMarker, EndPositionMarker, FxButtonEffectMarker, ReverbEffectMarker,
    SpControllerMarker, TabEffectMarker, TabParamAssignMarker, TiltModeMarker, TrackAutoTabMarker }

  const AllTrackMarkers: set<TrackMarker> := {BtA, BtB, BtC, BtD, FxL, FxR, VolL, VolR}

  lemma MetaMarkersListed(k: MetaMarker)
    ensures k in AllMetaMarkers
  {
  }

  lemma TrackMarkersListed(t: TrackMarker)
    ensures t in AllTrackMarkers
  {
  }

  /** The index of the header line of every meta section, -1 where it is missing. */
  function MetaLocations(lines: seq<string>, search: MetaMarker -> string): (m: map<MetaMarker, int>)
    ensures forall k :: k in m && m[k] == IndexOf(lines, search(k))
  {
    forall k: MetaMarker ensures k in AllMetaMarkers { MetaMarkersListed(k); }
    map k | k in AllMetaMarkers :: IndexOf(lines, search(k))
  }

  /** The index of the header line of every track, -1 where it is missing. */
  function TrackLocations(lines: seq<string>, search: TrackMarker -> string): (m: map<TrackMarker, int>)
    ensures forall t :: t in m && m[t] == IndexOf(lines, search(t))
  {
    forall t: TrackMarker ensures t in AllTrackMarkers { TrackMarkersListed(t); }
    map t | t in AllTrackMarkers :: IndexOf(lines, search(t))
  }

  /** The index into the track list of each button note type. */
  function TrackOfType(noteType: nat): TrackMarker
    requires noteType < 6
  {
    [BtA, BtB, BtC, BtD, FxL, FxR][noteType]
  }

  /** "measure,beat,offset" read with `parseInt`, NaN for a missing field. */
  function LocationOfField(field: string): SongLocation {
    var mbo := Split(field, ",");
    SongLocation(JsParseInt(Arg(mbo, 0)), JsParseInt(Arg(mbo, 1)), JsParseInt(Arg(mbo, 2)))
  }

  /** One line of the tempo section: location, BPM, pause flag. */
  function BpmInfoOfLine(line: string, parseFloat: string -> Option<real>): BpmInfo {
    var parts := Split(line, TabMarker);
    BpmInfo(LocationOfField(parts[0]), parseFloat(Arg(parts, 1)), Arg(parts, 2) == PauseFlag)
  }

  /** One line of the meter section: location, numerator, denominator. */
  function BeatInfoOfLine(line: string): BeatInfo {
    var parts := Split(line, TabMarker);
    BeatInfo(LocationOfField(parts[0]), JsParseInt(Arg(parts, 1)), JsParseInt(Arg(parts, 2)))
  }

  /** The length in beats of a hold of `ticks` ticks (48 per beat); NaN stays NaN. */
  function HoldBeatsOf(ticks: Option<int>): Option<real> {
    match ticks
    case None => None
    case Some(t) => Some(t as real / 48.0)
  }

  /**
   * One line of a button track: location, length in ticks (0 for a chip),
   * and a second parameter kept as it is.
   */
  function BtNoteOfLine(line: string, noteType: nat): BtNote {
    var parts := Split(line, TabMarker);
    var paramA := JsParseInt(Arg(parts, 1));
    var paramB := JsParseInt(Arg(parts, 2));
    if paramA == Some(0) then BtNote(LocationOfField(parts[0]), noteType, BtStateChip, None, paramB)
    else BtNote(LocationOfField(parts[0]), noteType, BtStateHold, HoldBeatsOf(paramA), paramB)
  }

  class Vox {
    const config: FormatConfig
    var lines: seq<string>
    var version: int
    var markers: map<MetaMarker, int>
    var tracks: map<TrackMarker, int>

    /** Every located marker is the index of its header line, -1 when absent. */
    ghost predicate Valid()
      reads this
    {
      && (forall k :: k in markers ==> markers[k] == IndexOf(lines, config.metaSearch(k)))
      && (forall t :: t in tracks ==> tracks[t] == IndexOf(lines, config.trackSearch(t)))
    }

    /** Every marker has been located. */
    ghost predicate Populated()
      reads this
    {
      (forall k: MetaMarker :: k in markers) && (forall t: TrackMarker :: t in tracks)
    }

    /** Loads the file text; the markers are located only when a version was read. */
    constructor (content: string, config: FormatConfig)
      ensures this.config == config && lines == FileLines(content)
      ensures version == ReadVoxVersion()
      ensures Valid()
      ensures Populated() <==> version != -1
    {
      this.config := config;
      var fileLines := Split(content, "\r\n");
      if |fileLines| < 3 {
        fileLines := Split(content, "\n");
      }
      lines := fileLines;
      markers := map[];
      tracks := map[];
      new;
      version := ReadVoxVersion();
      if version != -1 {
        PopulateMarkers();
      } else {
        assert BeatInfoMarker !in markers;
      }
    }

    /**
     * The number on the line after the first "#FORMAT VERSION" line; -1 when
     * there is no such header, no line after it, or that line is not a number.
     */
    function ReadVoxVersion(): (v: int)
      reads this
      ensures VersionHeader !in lines ==> v == -1
      ensures VersionHeader in lines ==>
        var i := IndexOf(lines, VersionHeader);
        && (i == |lines| - 1 ==> v == -1)
        && (i < |lines| - 1 && JsParseInt(lines[i + 1]).None? ==> v == -1)
        && (i < |lines| - 1 && JsParseInt(lines[i + 1]).Some? ==> v == JsParseInt(lines[i + 1]).value)
    {
      var line := IndexOf(lines, VersionHeader);
      if line == -1 then -1
      else
        JsParseIntNoDigit("undefined");
        match JsParseInt(Arg(lines, line + 1))
        case None => -1
        case Some(n) => n
    }

    /** Locates the header line of every meta section and every track. */
    method PopulateMarkers()
      modifies this
      ensures lines == old(lines) && version == old(version)
      ensures Valid() && Populated()
    {
      markers := markers + MetaLocations(lines, config.metaSearch);
      tracks := tracks + TrackLocations(lines, config.trackSearch);
    }

    /** The section under a located meta marker. */
    ghost function MetaSection(k: MetaMarker): seq<string>
      reads this
      requires Valid() && Populated()
    {
      RawSection(lines, markers[k] + 1, config.commonEnd)
    }

    /** The section under a located track marker. */
    ghost function TrackSection(t: TrackMarker): seq<string>
      reads this
      requires Valid() && Populated()
    {
      RawSection(lines, tracks[t] + 1, config.commonEnd)
    }

    /**
     * The lines after the marker line up to the end marker, tabs rewritten.
     * A marker of -1 (header not found) reads from the first line.
     */
    method GetRawDataAtMarker(marker: int) returns (section: seq<string>)
      requires -1 <= marker < |lines|
      ensures section == RawSection(lines, marker + 1, config.commonEnd)
    {
      section := [];
      var line := marker + 1;
      while line != |lines| && lines[line] != config.commonEnd
        invariant marker + 1 <= line <= |lines|
        invariant section + RawSection(lines, line, config.commonEnd) == RawSection(lines, marker + 1, config.commonEnd)
        decreases |lines| - line
      {
        section := section + [ReplaceTabs(lines[line])];
        line := line + 1;
      }
    }

    /** Every tempo change of the chart, one per line of its section. */
    method GetBPMInfo(parseFloat: string -> Option<real>) returns (bpms: seq<BpmInfo>)
      requires Valid() && Populated()
      ensures |bpms| == |MetaSection(BpmInfoMarker)|
      ensures forall i :: 0 <= i < |bpms| ==> bpms[i] == BpmInfoOfLine(MetaSection(BpmInfoMarker)[i], parseFloat)
    {
      var raw := GetRawDataAtMarker(markers[BpmInfoMarker]);
      bpms := ParseEachLine(raw, line => BpmInfoOfLine(line, parseFloat));
    }

    /** Every meter change of the chart, one per line of its section. */
    method GetTimeSignatures() returns (beats: seq<BeatInfo>)
      requires Valid() && Populated()
      ensures |beats| == |MetaSection(BeatInfoMarker)|
      ensures forall i :: 0 <= i < |beats| ==> beats[i] == BeatInfoOfLine(MetaSection(BeatInfoMarker)[i])
    {
      var raw := GetRawDataAtMarker(markers[BeatInfoMarker]);
      beats := ParseEachLine(raw, BeatInfoOfLine);
    }

    /** Every note of one of the six button tracks, one per line of its section. */
    method GetBTTrackNotes(noteType: nat) returns (notes: seq<BtNote>)
      requires noteType < 6
      requires Valid() && Populated()
      ensures |notes| == |TrackSection(TrackOfType(noteType))|
      ensures forall i :: 0 <= i < |notes| ==>
        notes[i] == BtNoteOfLine(TrackSection(TrackOfType(noteType))[i], noteType)
    {
      var marker := tracks[TrackOfType(noteType)];
      var raw := GetRawDataAtMarker(marker);
      notes := ParseEachLine(raw, line => BtNoteOfLine(line, noteType));
    }
  }

  /** A version header followed by a number gives that number as the version. */
  lemma VersionRead(vox: Vox, before: seq<string>, n: int, after: seq<string>)
    requires VersionHeader !in before
    requires vox.lines == before + [VersionHeader, IntToString(n)] + after
    ensures vox.ReadVoxVersion() == n
  {
    var i := |before|;
    assert vox.lines[i] == VersionHeader && vox.lines[i + 1] == IntToString(n);
    assert VersionHeader !in vox.lines[..i] by {
      assert vox.lines[..i] == before;
    }
    assert IndexOf(vox.lines, VersionHeader) == i;
    JsParseIntRoundTrip(n);
  }

  /** The file a marker is missing from reads from its first line. */
  lemma MissingMarkerReadsFromTop(vox: Vox, k: MetaMarker)
    requires vox.Valid() && vox.Populated()
    requires vox.config.metaSearch(k) !in vox.lines
    ensures vox.MetaSection(k) == RawSection(vox.lines, 0, vox.config.commonEnd)
  {
  }

  /** A location written out is read back field for field. */
  lemma {:induction false} LocationRoundTrip(measure: int, beat: int, offset: int)
    ensures LocationOfField(LocationText(measure, beat, offset)) == SongLocation(Some(measure), Some(beat), Some(offset))
  {
    LocationTextFields(measure, beat, offset);
    JsParseIntRoundTrip(measure);
    JsParseIntRoundTrip(beat);
    JsParseIntRoundTrip(offset);
  }

  /** A text without '<' cannot hold the tab marker. */
  lemma NoMarkerWithoutAngle(s: string)
    requires '<' !in s
    ensures !Occurs(TabMarker, s)
  {
    forall i | 0 <= i <= |s| ensures !(TabMarker <= s[i..]) {
      if i < |s| {
        assert s[i..][0] == s[i];
      }
    }
  }

  /**
   * A file line of three tab-separated fields, after the section reader's
   * rewriting, splits back into those three fields.
   */
  lemma ThreeFieldLine(a: string, b: string, c: string)
    requires '\t' !in a && '\t' !in b && '\t' !in c
    requires '<' !in a && '<' !in b && '<' !in c
    ensures Split(ReplaceTabs(a + "\t" + b + "\t" + c), TabMarker) == [a, b, c]
  {
    var line := a + "\t" + b + "\t" + c;
    assert '<' !in line;
    NoMarkerWithoutAngle(line);
    SplitReplaceTabs(line);
    SplitThreeTabs(a, b, c);
  }

  lemma SplitThreeTabs(a: string, b: string, c: string)
    requires '\t' !in a && '\t' !in b && '\t' !in c
    ensures Split(a + "\t" + b + "\t" + c, "\t") == [a, b, c]
  {
    assert a + "\t" + b + "\t" + c == a + ['\t'] + (b + ['\t'] + c);
    SplitAtChar(a, '\t', b + ['\t'] + c);
    SplitAtChar(b, '\t', c);
    SplitCharAbsent(c, '\t');
  }

  /** A tempo line reads back as its location, its BPM and whether its flag is "4-". */
  lemma BpmLineRoundTrip(measure: int, beat: int, offset: int, bpmText: string, flag: string, parseFloat: string -> Option<real>)
    requires '\t' !in bpmText && '<' !in bpmText && '\t' !in flag && '<' !in flag
    ensures BpmInfoOfLine(ReplaceTabs(LocationText(measure, beat, offset) + "\t" + bpmText + "\t" + flag), parseFloat)
         == BpmInfo(SongLocation(Some(measure), Some(beat), Some(offset)), parseFloat(bpmText), flag == PauseFlag)
  {
    LocationTextPlain(measure, beat, offset);
    ThreeFieldLine(LocationText(measure, beat, offset), bpmText, flag);
    LocationRoundTrip(measure, beat, offset);
  }

  /** A meter line reads back as its location, numerator and denominator. */
  lemma BeatLineRoundTrip(measure: int, beat: int, offset: int, numerator: int, denominator: int)
    ensures BeatInfoOfLine(ReplaceTabs(LocationText(measure, beat, offset) + "\t" + IntToString(numerator) + "\t" + IntToString(denominator)))
         == BeatInfo(SongLocation(Some(measure), Some(beat), Some(offset)), Some(numerator), Some(denominator))
  {
    LocationTextPlain(measure, beat, offset);
    IntToStringPlain(numerator);
    IntToStringPlain(denominator);
    ThreeFieldLine(LocationText(measure, beat, offset), IntToString(numerator), IntToString(denominator));
    LocationRoundTrip(measure, beat, offset);
    JsParseIntRoundTrip(numerator);
    JsParseIntRoundTrip(denominator);
  }

  /**
   * A note line reads back as a chip when its length is 0 and otherwise as
   * a hold of length/48 beats, with its lane and second parameter.
   */
  lemma BtNoteLineRoundTrip(measure: int, beat: int, offset: int, length: int, paramB: int, noteType: nat)
    ensures BtNoteOfLine(ReplaceTabs(LocationText(measure, beat, offset) + "\t" + IntToString(length) + "\t" + IntToString(paramB)), noteType)
         == var loc := SongLocation(Some(measure), Some(beat), Some(offset));
            if length == 0 then BtNote(loc, noteType, BtStateChip, None, Some(paramB))
            else BtNote(loc, noteType, BtStateHold, Some(length as real / 48.0), Some(paramB))
  {
    var text, lengthText, paramText := LocationText(measure, beat, offset), IntToString(length), IntToString(paramB);
    LocationTextPlain(measure, beat, offset);
    IntToStringPlain(length);
    IntToStringPlain(paramB);
    ThreeFieldLine(text, lengthText, paramText);
    LocationRoundTrip(measure, beat, offset);
    JsParseIntRoundTrip(length);
    JsParseIntRoundTrip(paramB);
    BtNoteOfFields(ReplaceTabs(text + "\t" + lengthText + "\t" + paramText), noteType, text, lengthText, paramText);
    HoldBeatsStep(length);
  }

  lemma HoldBeatsStep(ticks: int)
    ensures HoldBeatsOf(Some(ticks)) == Some(ticks as real / 48.0)
  {
  }

  /** A note whose length field is "96" is a hold of two beats. */
  lemma HoldOfNinetySixTicks(line: string, noteType: nat)
    requires |Split(line, TabMarker)| >= 2 && Split(line, TabMarker)[1] == "96"
    ensures BtNoteOfLine(line, noteType).state == BtStateHold
    ensures BtNoteOfLine(line, noteType).holdBeats == Some(2.0)
  {
    assert IntToString(96) == "96";
    JsParseIntRoundTrip(96);
  }

  /** A note line read field by field. */
  lemma BtNoteOfFields(line: string, noteType: nat, location: string, length: string, paramB: string)
    requires Split(line, TabMarker) == [location, length, paramB]
    ensures JsParseInt(length).Some? ==>
      var ticks := JsParseInt(length).value;
      BtNoteOfLine(line, noteType)
         == if ticks == 0 then BtNote(LocationOfField(location), noteType, BtStateChip, None, JsParseInt(paramB))
            else BtNote(LocationOfField(location), noteType, BtStateHold, HoldBeatsOf(Some(ticks)), JsParseInt(paramB))
  {
    var parts := Split(line, TabMarker);
    assert Arg(parts, 1) == length && Arg(parts, 2) == paramB;
  }

  /**
   * Every note line gives a chip or a hold; a line whose length field is not
   * a number gives a hold of NaN beats.
   */
  lemma BtNoteKinds(line: string, noteType: nat)
    ensures var note := BtNoteOfLine(line, noteType);
      && note.noteType == noteType
      && (note.state == BtStateChip || note.state == BtStateHold)
      && (note.state == BtStateChip <==> JsParseInt(Arg(Split(line, TabMarker), 1)) == Some(0))
      && (JsParseInt(Arg(Split(line, TabMarker), 1)).None? ==> note.state == BtStateHold && note.holdBeats.None?)
  {
  }
}
