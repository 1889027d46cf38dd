# cocovox chart logic in Dafny

This project models the chart-format logic of cocovox, a converter for
SOUND VOLTEX `.vox` charts, and proves properties of that model. It covers
four parts:

- **The `.vox` loader** (`vox.ts`), as the class `VoxFile.Vox`.
  - The file is split into lines, on CRLF or LF.
  - The `#FORMAT VERSION` header gives the version.
  - Every section header is located with `indexOf`.
  - A section is read line by line up to the common end marker, with each
    tab rewritten as `<TAB>`.
  - Each section line is parsed into a tempo change (`I_BPM_INFO`), a meter
    change (`I_BEAT_INFO`) or a button note (`BT_Note`).
- **The tempo helpers** (`bpmutil.ts`), as `BpmUtil`:
  - the number of beats between two tempo changes, keeping the original's
    measure-wrap behaviour exactly;
  - the rule for when a tempo change ends a pause.
- **The osu!mania export** (`convert_osu.ts`), as `ConvertOsu`:
  - a chart position converted to milliseconds, over exact reals;
  - the output lines built for lane A, after the header.
- **The vox2ksh helpers** (`converter.py`):
  - `KshTiming`: the measure/beat/tick `Timing` and `TimeSignature`;
  - `KshLaser`: the laser node range check and the KSH position character,
    and the laser slam checks and direction;
  - `KshLine`: the `KshLineBuf` line buffer and its rendering;
  - `KshEnums`: the enum lookup tables;
  - `VoxTokens`: the section-header tokenizer `Vox.State.from_token`.

Shared modules:

- `Wrappers` has `Option` and `Result`.
- `Strings` models JavaScript's `split`, `join`, `indexOf` and
  `replaceAll('\t', '<TAB>')`.
- `Numbers` models JavaScript's `parseInt` and Python's `int()` on strings.
- `ChartTypes` translates `datatypes.ts` and `note.ts`.

How the source's values are represented:

- A JavaScript number read with `parseInt` is an `Option<int>`. NaN is
  `None`, and arithmetic and comparisons propagate it as JavaScript does.
- A Python exception is the `Err` case of a `Result`, holding the
  exception's kind.
- Reading an array past its end in JavaScript gives `undefined`, and
  functions receive it as the string `"undefined"` (`Strings.Arg`).

## Model

| member | source | states |
|---|---|---|
| VoxFile.Vox.constructor | vox.ts:55-76 | The lines are the file split on CRLF, or on LF when that gives fewer than three lines. The version is `ReadVoxVersion()`. The markers are located exactly when the version is not -1. |
| VoxFile.FileLinesRejoin | vox.ts:60-63 | Joining the loaded lines with the separator that was used gives back the file. A file without CRLF is split on LF. |
| VoxFile.Vox.ReadVoxVersion | vox.ts:82-99 | The result is -1 when no line is exactly `#FORMAT VERSION`, when that line is the last one, or when the next line is not a number. Otherwise it is `parseInt` of the line after the first header. |
| VoxFile.VersionRead | vox.ts:84-92 | When the first version header is followed by the decimal text of n, the version is n. |
| Numbers.JsParseInt | vox.ts:90 | JavaScript's `parseInt` on a string: it skips leading whitespace, takes an optional sign and an optional `0x` prefix, and reads the longest digit prefix. No digit gives NaN. JsParseIntRoundTrip, JsParseIntUnsigned, JsParseIntNegative and JsParseIntNoDigit state this. |
| Numbers.JsParseIntRoundTrip | vox.ts:90 | `parseInt` of an integer's decimal text gives that integer back. |
| Strings.IndexOf | vox.ts:106-126 | The result is -1 exactly when the string is absent. Otherwise it is the index of its first occurrence. |
| VoxFile.MetaLocations | vox.ts:106-115 | Every meta marker maps to the index of the first line equal to its search string, or -1. |
| VoxFile.TrackLocations | vox.ts:119-126 | Every track marker maps to the index of the first line equal to its search string, or -1. |
| VoxFile.Vox.PopulateMarkers | vox.ts:105-129 | Every meta and track marker is located as `indexOf` of its search string. The lines and the version are unchanged. |
| VoxFile.Vox.GetRawDataAtMarker | vox.ts:134-145 | The result is the section that starts after the marker line: the lines up to the first end marker or the end of the file, each with its tabs rewritten. |
| VoxFile.RawSectionLines | vox.ts:137-142 | A section has at most as many lines as remain after its start. Its i-th line is source line `from+i` with tabs rewritten, no line in it is the end marker, and it stops at the end marker or the end of the file. |
| VoxFile.MissingMarkerReadsFromTop | vox.ts:134-139 | When a section header is missing (marker -1), the section is read from the first line of the file, not returned empty. |
| Strings.ReplaceTabs | vox.ts:140 | Every tab is rewritten as `<TAB>`. ReplaceTabsRemovesTabs and SplitReplaceTabs state what the rewrite keeps. |
| Strings.Split | vox.ts:157-159 | JavaScript's `split` with a string separator always gives at least one field. SplitJoin states that joining the fields gives the string back. |
| Strings.ReplaceTabsRemovesTabs | vox.ts:140 | A rewritten line has no tab. A line without tabs is unchanged. |
| Strings.SplitReplaceTabs | vox.ts:140-157 | When a line has no literal `<TAB>`, splitting its rewritten form on `<TAB>` gives the same fields as splitting it on tab. |
| VoxFile.ParseEachLine | vox.ts:155-173 | One record per raw line, in order: record i is the parse of line i. |
| VoxFile.LocationOfField | vox.ts:159-165 | The `measure,beat,offset` field is split on commas and each of the first three parts is read with `parseInt`. A missing part reads as `undefined` and gives NaN. LocationRoundTrip states its round trip. |
| VoxFile.BpmInfoOfLine | vox.ts:155-170 | A tempo line is split on `<TAB>` into location, BPM and flag. The pause flag is true iff the third field is `4-`. BpmLineRoundTrip states its round trip. |
| VoxFile.BeatInfoOfLine | vox.ts:188-205 | A meter line is split on `<TAB>` into location, numerator and denominator, each read with `parseInt`. BeatLineRoundTrip states its round trip. |
| VoxFile.BtNoteOfLine | vox.ts:237-272 | A note line is split on `<TAB>`. A length of 0 gives a chip and any other length, NaN included, a hold of length/48 beats. BtNoteLineRoundTrip, BtNoteOfFields and BtNoteKinds state this. |
| VoxFile.Vox.GetBPMInfo | vox.ts:151-176 | One tempo record per line of the BPM section, in file order. Each record is the parse of its line. |
| VoxFile.BpmLineRoundTrip | vox.ts:157-170 | A tempo line reads back as its location, its BPM text parsed, and a pause flag that is true iff the third field is exactly `4-`. |
| ChartTypes.LocationTextFields | vox.ts:159-165 | A written location splits on commas into its three numbers' texts. |
| VoxFile.LocationRoundTrip | vox.ts:159-165 | A written location `m,b,o` reads back as measure m, beat b and offset o. |
| VoxFile.Vox.GetTimeSignatures | vox.ts:183-212 | One meter record per line of the BEAT INFO section, in file order. Each record is the parse of its line. |
| VoxFile.BeatLineRoundTrip | vox.ts:190-205 | A meter line reads back as its location, numerator and denominator. |
| VoxFile.Vox.GetBTTrackNotes | vox.ts:218-276 | For a note type from 0 to 5, the result has one note per line of that track's section, in order. Each note is the parse of its line. |
| VoxFile.BtNoteLineRoundTrip | vox.ts:237-272 | A note line with length 0 reads back as a chip with no hold length. Any other length reads back as a hold of length/48 beats. Both keep the note type and the second parameter. |
| VoxFile.BtNoteOfFields | vox.ts:249-271 | A line's note is read from its location, length and second fields: a chip when the length is 0, otherwise a hold of length/48 beats. |
| VoxFile.BtNoteKinds | vox.ts:253-271 | Every note has the requested type and is a chip or a hold. It is a chip iff the length field parses to 0. A length that is not a number (NaN) gives a hold with a NaN length. |
| VoxFile.HoldOfNinetySixTicks | vox.ts:249-268 | A note line whose length field is "96" gives a hold of exactly 2.0 beats. |
| BpmUtil.CheckIfBPMChangeUnpauses | bpmutil.ts:46-48 | The result is the source's `previous.BPM == current.BPM && !current.Pause`, where NaN equals nothing. UnpauseNeedsSameTempo states both directions and UnpauseIgnoresPreviousPause states what it does not read. |
| BpmUtil.CountBPMPauseBeats | bpmutil.ts:12-37 | The count is a number exactly when the current measure, the next measure, the current beat and the numerator are numbers. The next beat may be NaN. |
| BpmUtil.CountWithoutWrap | bpmutil.ts:16-21 | When the current beat is at most the next beat, the count is the difference of the two beat indices, measure·numerator + beat. |
| BpmUtil.CountAfterWrap | bpmutil.ts:22-34 | When the current beat is greater, the count is (Δmeasure − 1)·numerator + (numerator − current beat). The next beat is dropped. |
| BpmUtil.CountNaNNextBeat | bpmutil.ts:21-30 | A NaN next beat fails the `<=` test and takes the wrap branch. |
| BpmUtil.CountSameLocation | bpmutil.ts:12-37 | Two tempo changes at the same measure and beat are 0 beats apart. |
| BpmUtil.CountReadsOnlyMeasureBeatNumerator | bpmutil.ts:12-37 | Offsets, tempos, pause flags and the denominator never affect the count. |
| BpmUtil.CountThreeMeasures | bpmutil.ts:32-34 | Three whole measures in 4/4 count 12 beats. |
| BpmUtil.CountWrapExamples | bpmutil.ts:22-30 | In 4/4, (0,3)→(1,0) and (0,3)→(1,2) both count 1 beat. |
| BpmUtil.UnpauseNeedsSameTempo | bpmutil.ts:46-48 | A tempo change ends a pause iff the previous and current BPM are equal numbers and the current change is not a pause. A NaN BPM never equals anything. |
| BpmUtil.UnpauseIgnoresPreviousPause | bpmutil.ts:46-48 | The previous change's pause flag and both locations do not affect the result. |
| ConvertOsu.ConvertVOXLocationToMS | convert_osu.ts:21-35 | The time is a number exactly when measure, beat, offset, BPM and numerator are numbers and the BPM is not 0. |
| ConvertOsu.MsFormula | convert_osu.ts:23-33 | The time equals (measure·numerator + beat + offset/48)·60000/BPM. |
| ConvertOsu.MsAtStart | convert_osu.ts:21-35 | Position (0,0,0) is 0 ms for any tempo and meter. |
| ConvertOsu.MsOneMeasureAt120 | convert_osu.ts:21-35 | Measure 1 at 120 BPM in 4/4 is 2000 ms. |
| ConvertOsu.MsOffsetOfOneBeat | convert_osu.ts:29-31 | An offset of 48 ticks is one beat: (m,b,48) and (m,b+1,0) are at the same time. |
| ConvertOsu.MsMeasureOfBeats | convert_osu.ts:27-29 | One measure is `numerator` beats: (m,0,0) and (0,m·numerator,0) are at the same time. |
| ConvertOsu.MsReadsOnlyTempoAndNumerator | convert_osu.ts:21-35 | The denominator and the locations of the tempo and meter records never affect the time. |
| ConvertOsu.MsMonotone | convert_osu.ts:21-35 | At a positive BPM, a later position in beats is at a later or equal time. |
| ConvertOsu.NoteLine | convert_osu.ts:76-83 | A chip gives a tap line and any other note a hold line, at lane x 64 and y 192. NoteLineShape and HoldEndIgnoresStart state its shape and its end value. |
| ConvertOsu.ConvertToOsuChart | convert_osu.ts:38-97 | The output is the header, each string as a text line at its own index, followed by exactly one line per lane-A note, in input order. Every note is timed with the first tempo and the first meter. Lanes B, C and D are not read. |
| ConvertOsu.NoteLineShape | convert_osu.ts:73-85 | A chip note gives a tap line and any other note a hold line, both at x 64, y 192 and the note's converted time. A hold's end is HoldBeats·60000/BPM. |
| ConvertOsu.HoldEndIgnoresStart | convert_osu.ts:79-82 | A hold's end value depends only on its length and the tempo, not on its start, so it is a duration. |
| KshTiming.TicksPerBeatOf | converter.py:106-107 | For a positive bottom, the result is the largest t with t·bottom ≤ 192. For a negative bottom, it is the mirror image, truncated toward zero. |
| KshTiming.TicksPerBeatExamples | converter.py:106-107 | /4 gives 48 ticks per beat, /8 gives 24, /16 gives 12 and /2 gives 96. |
| KshTiming.Diff | converter.py:128-131 | The difference in ticks between two timings under one meter. DiffOfTicks gives it as a difference of tick counts, and DiffSelfAndSwap gives its zero and antisymmetry. |
| KshTiming.DiffOfTicks | converter.py:128-131 | A difference is the tick count of one position minus that of the other, with tpb ticks per beat and tpb·top per measure. |
| KshTiming.DiffSelfAndSwap | converter.py:128-131 | `diff(t,t)` is 0 and `diff(a,b)` is `-diff(b,a)`. |
| KshTiming.OffsetCarry | converter.py:135-137 | Moving tpb ticks into one beat keeps the tick count. |
| KshTiming.BeatCarry | converter.py:138-140 | Moving `top` beats into one measure keeps the tick count. |
| KshTiming.Add | converter.py:133-141 | The result is exactly `ticks` after t, measured by `diff`. Its offset is below tpb and its beat at most `top`, and its measure is not earlier than t's. A non-negative start offset plus `ticks` gives a non-negative offset, and a beat of at least 1 stays at least 1. When offset plus `ticks` is below tpb, no offset is carried: the offset is that sum, and with a beat at most `top` the measure and beat are t's. |
| KshTiming.Eq | converter.py:143-144 | Two timings are equal iff measure, beat and offset agree. CmpIsLexicographic states that this is equality of timings and matches a zero `__cmp__`. |
| KshTiming.Cmp | converter.py:152-158 | `__cmp__` compares the measures, then the beats, then the offsets. CmpIsLexicographic and CmpAgreesWithDiff state its order. |
| KshTiming.CmpIsLexicographic | converter.py:143-158 | `__cmp__` is zero iff `__eq__` holds, iff the timings are equal. It is negative iff the first timing comes first in (measure, beat, offset) order, and it is antisymmetric. |
| KshTiming.CmpAgreesWithDiff | converter.py:128-158 | For normalized timings, `__cmp__` and `diff` have the same sign, and a zero `diff` means the timings are equal. |
| KshTiming.ToString | converter.py:149-150 | A timing is written as `measure,beat,offset`. FromTimeStrRoundTrip states that it reads back. |
| KshTiming.FromTimeStr | converter.py:116-126 | The text is split on commas and the first three fields are read with `int()`. An IndexError or ValueError gives None. FromTimeStrRoundTrip, FromTimeStrIgnoresExtraFields and FromTimeStrFails state this. |
| KshTiming.FromTimeStrRoundTrip | converter.py:116-150 | `from_time_str(str(t))` is t. |
| KshTiming.FromTimeStrIgnoresExtraFields | converter.py:116-126 | Comma fields after the third are ignored. |
| KshTiming.FromTimeStrFails | converter.py:116-126 | With fewer than three comma fields (IndexError), or a first-three field that `int()` rejects (ValueError), the result is None. |
| Numbers.PyParseInt | converter.py:122 | Python's `int()` on a string: it strips whitespace, takes an optional sign and reads decimal digits with single underscores between them. Anything else raises ValueError and gives None. PyParseIntRoundTrip and PyParseIntOneChar state what it reads. |
| Numbers.PyParseIntOneChar | converter.py:675 | `int()` of one character is its digit value for a decimal digit, and raises ValueError otherwise. |
| Numbers.PyParseIntRoundTrip | converter.py:122 | Python `int()` of an integer's decimal text gives that integer back. |
| KshLaser.NewLaserNode | converter.py:438-447 | The node is built iff the position is in 0..127, and it keeps every field it was given. Otherwise the result is ValueError. |
| KshLaser.KshIndex | converter.py:458 | The index is ceil(48·p/127): in 0..48, with 127·(i−1) < 48·p ≤ 127·i. |
| KshLaser.KshIndexMonotone | converter.py:458 | The index never decreases as the position grows. Position 0 gives 0 and 127 gives 48. |
| KshLaser.PositionKsh | converter.py:449-459 | The character is entry ceil(48·p/127) of the 49-character table '0'–'9', 'A'–'X', 'a'–'o' built by the three loops. |
| KshLaser.TableCharIncreasing | converter.py:451-457 | The table is strictly increasing in character order. |
| KshLaser.PositionCharOrder | converter.py:449-459 | Position 0 is '0' and 127 is 'o'. A higher position never gets an earlier character. |
| KshLaser.NewLaserSlam | converter.py:466-473 | A slam is built iff its ends have different positions and the same side. |
| KshLaser.Direction | converter.py:475-479 | A slam goes left when its start position is greater, and right otherwise. SlamDirectionOfEnds states both directions for every slam that can be built. |
| KshLaser.SlamDirectionOfEnds | converter.py:466-482 | Equal positions are rejected first. A built slam goes left iff the start position is greater, right iff it is smaller, and is on the side of both its ends. |
| KshLine.KshLineBuf.constructor | converter.py:597-607 | A new buffer has every button unpressed, both lasers '-', no spin and no effect lines. |
| KshLine.KshLineBuf.Out | converter.py:609-640 | The rendering is every effect line followed by a newline, then the BT lanes, '\|', the FX lanes, '\|', the left and right laser texts and the spin. |
| KshLine.RenderLine | converter.py:609-640 | The effect lines, each with a newline, then the BT lanes, '\|', the FX lanes, '\|', the lasers and the spin. NoteTextDecodes, RenderLineSplits and FreshLineRenders state its layout. |
| KshLine.FreshLineRenders | converter.py:597-640 | A buffer nothing has written to renders "0000\|00\|--". |
| KshLine.LaneCharsRoundTrip | converter.py:613-632 | BT HOLD renders '2' and PRESS '1', while FX HOLD renders '1' and PRESS '2', and either side reads back to its state. BT and FX characters agree only for an unpressed button. |
| KshLine.NoteTextDecodes | converter.py:613-638 | A note line has at least 8 characters, with '\|' at positions 4 and 7. Its first four characters give the BT states, the next two after the bar give the FX states, and the rest is the left laser, the right laser and the spin. |
| KshLine.LaserTextOfSides | converter.py:635-636 | The laser part is the left text followed by the right text. |
| KshLine.RenderLineSplits | converter.py:609-640 | Splitting a rendering on newlines gives the effect lines, in order, followed by the note line, provided no line contains a newline. |
| KshLine.MetaBlockSplits | converter.py:611-613 | When no effect line holds a newline, splitting the effect block and any text after it on newlines gives the effect lines, in order, followed by the split of that text. |
| KshLine.KshLineBuf.SetButton | converter.py:1331-1335 | Marking a button changes that button's state only. |
| KshLine.KshLineBuf.SetLaser | converter.py:1313 | Writing one side's laser text changes that side only. |
| KshLine.KshLineBuf.AddMeta | converter.py:1190-1209 | An effect line is appended after the existing ones. Nothing else changes. |
| KshLine.KshLineBuf.SetSpin | converter.py:1229 | Writing the spin changes only the spin. |
| KshEnums.ToTrackNum | converter.py:391-399 | A button's track number is its value: FX_L 2, BT_A to BT_D 3 to 6, FX_R 7. TrackNumRoundTrip and ButtonsListedOnce state that it is one-to-one and inverted by `from_track_num`. |
| KshEnums.FromTrackNum | converter.py:383-389 | The first button whose value is the number. None for 9, and ValueError otherwise. FromTrackNumCases states all three cases. |
| KshEnums.TrackNumRoundTrip | converter.py:383-392 | `from_track_num(to_track_num(b))` is b for every button. |
| KshEnums.FromTrackNumCases | converter.py:383-399 | Numbers 2 to 7 give the button with that value, 9 gives None, and every other number raises ValueError. |
| KshEnums.ButtonsListedOnce | converter.py:394-399 | Every button is listed, and no two buttons share a track number. |
| KshEnums.IsFxByTrackNum | converter.py:380-381 | A button is FX iff its track number is 2 or 7. |
| KshEnums.SidesDistinct | converter.py:406-414 | The two laser sides have different letters and different track numbers. |
| KshEnums.FromVoxFilterId | converter.py:235-248 | Ids 0 and 6 give peak, 1 and 2 low-pass, 3 and 4 high-pass, and 5 bitcrush. Any other id raises ValueError. FilterIds states each case in both directions. |
| KshEnums.FilterIds | converter.py:235-258 | Ids 0 to 6 are recognised and every other id raises. Peak is 0 or 6, low-pass 1 or 2, high-pass 3 or 4, and bitcrush 5. The KSH names are distinct. |
| KshEnums.FromLetter | converter.py:491-493 | The first difficulty with that letter. StopIteration escapes for any other letter. LetterRoundTrip states both directions. |
| KshEnums.FromNumber | converter.py:498-504 | The first difficulty with that number, or None. NumberRoundTrip states both directions. |
| KshEnums.LetterRoundTrip | converter.py:491-496 | `from_letter(to_letter(d))` is d. A letter is accepted iff some difficulty has it, and then it maps back to that letter. Any other letter raises StopIteration. |
| KshEnums.NumberRoundTrip | converter.py:498-504 | `from_number` inverts the difficulty number. It is None exactly outside 0..4. |
| KshEnums.DifficultiesListedOnce | converter.py:484-489 | Every difficulty is listed, and letters and numbers are distinct. |
| KshEnums.DifficultyNames | converter.py:484-516 | The abbreviations are distinct. The KSH names are distinct except that INFINITE and MAXIMUM share 'infinite'. |
| KshEnums.TiltFromVoxId | converter.py:539-547 | Ids 0, 1 and 2 give NORMAL, BIGGER and KEEP_BIGGER. Any other id gives None. TiltIds states this. |
| KshEnums.TiltIds | converter.py:539-556 | Ids 0 to 2 give the three tilt modes, one each, and every other id gives None. The KSH names are distinct. |
| KshEnums.BackgroundAsWritten | converter.py:573-588 | The background table as written, including the chained comparison `14 <= vox_id == 16`. BackgroundChainedComparison and BackgroundIds state where it differs from the corrected table. |
| KshEnums.Background | converter.py:573-588 | The corrected background table, with techno for 14 to 16. BackgroundIds states each name's ids in both directions. |
| KshEnums.BackgroundChainedComparison | converter.py:573-588 | As written, ids 14 and 15 fall through to 'fallback'. The corrected table gives them 'techno'. |
| KshEnums.BackgroundIds | converter.py:573-588 | Each KSH background name is chosen by exactly its listed ids, with techno for 14 to 16. The corrected table differs from the code as written only at 14 and 15. |
| VoxTokens.FromToken | converter.py:645-675 | Comment and padding tokens give None, and listed names give their state. Names starting with "TRACK" give a track digit or raise. Anything else gives None. HeaderNamesExactly, TrackDigit, TrackErrors and CommentLinesIgnored state these cases. |
| VoxTokens.NamedState | converter.py:645-674 | A name matched as a whole selects a state other than TRACK, and that name is one of the state's own names. |
| VoxTokens.HeaderNamesExactly | converter.py:645-674 | A token selects a state other than TRACK iff it is one of that state's names. |
| VoxTokens.HeaderMisspellings | converter.py:659-666 | "END POSISION" reads as "END POSITION" and "SPCONTROLER" as "SPCONTROLLER". |
| VoxTokens.TrackDigit | converter.py:674-675 | "TRACK" followed by a digit selects that track, whatever follows the digit. |
| VoxTokens.TrackErrors | converter.py:674-675 | A bare "TRACK" raises IndexError. "TRACK" followed by a non-digit raises ValueError, except in "TRACK AUTO TAB". |
| VoxTokens.CommentLinesIgnored | converter.py:646-647 | A token that starts with '=' or a space selects nothing. |

## Left out

- File and process I/O is not modelled. This covers reading the `.vox` file, writing and appending the `.osu` file, `main.ts`, and the loggers. The loader receives the file's text, and the osu export returns its lines.
- The header and end marker strings of the shared JSON resource file are not modelled. They are not in the repository's sources, so they are the `FormatConfig` parameter. The same holds for the osu header text, a parameter of `ConvertToOsuChart`.
- `MARKERS.VERSION` is never located by the source and is not modelled. The VOL track markers are located but never read.
- JavaScript's `parseFloat` is an abstract parameter, `string -> Option<real>`.
- ConvertOsu.ConvertVOXLocationToMS: uses exact reals, not IEEE doubles. NaN and infinity, as from a NaN field or a zero BPM, are `None`, so the model does not capture rounding.
- ConvertOsu.ConvertToOsuChart: does not model turning the times into text, because that is float formatting. The header's literal text is not modelled either.
- ConvertOsu.ConvertToOsuChart: requires a tempo and a meter record when lane A has notes, because the source raises a TypeError reading `BPMs[0].BPM` otherwise.
- KshTiming.TicksPerBeatOf: computes the exact truncated quotient of 192 by the bottom. Python's floating-point `int(48 * (4 / bottom))` equals it for every nonzero bottom. The function requires a nonzero bottom, because Python raises ZeroDivisionError there.
- KshTiming.Add: requires a positive `top` and a positive ticks-per-beat. At the source's call sites the offset is non-negative and the beat at least 1, and there a non-positive ticks-per-beat or `top` makes a carry loop run forever.
- VoxFile.Vox.GetBPMInfo: requires located markers, as do GetTimeSignatures and GetBTTrackNotes. The source reads `undefined` as the marker otherwise, and its loop does not end.
- KshLaser.PositionKsh: uses the exact ceiling of 48·p/127. For 0 < p < 127 that value is at least 1/127 away from an integer, because 127 is prime, so the floating-point result rounds up to the same index.
- Numbers.PyParseInt: models Python's `int()` over ASCII whitespace and ASCII digits only. Unicode digits and whitespace are not modelled. JavaScript's `parseInt` is modelled over the full ECMAScript whitespace set, and it reads ASCII digits only, as JavaScript does.
- Numbers.JsParseInt: returns the exact integer. JavaScript rounds a `parseInt` result above 2^53 to the nearest double, and the model does not.
- VoxFile.HoldBeatsOf: keeps the exact quotient ticks/48 as a real. JavaScript divides doubles, so the model does not capture rounding of the hold length.
- VoxFile.BpmInfoOfLine: takes `parseFloat` as a parameter that gives a real or None, so it cannot give Infinity, as JavaScript's `parseFloat("1e999")` does.
- BpmUtil.CheckIfBPMChangeUnpauses: treats a BPM that is not a finite number as unequal to everything. JavaScript's `Infinity == Infinity` is true, so two infinite tempos would end a pause there.
- `LaserNode.Builder` defaults are not modelled. `NewLaserNode` takes every field explicitly.
- KshLine.KshLineBuf.SetButton: stands for the caller's direct assignments to `buttons`, and the same holds for SetLaser, AddMeta and SetSpin. The callers are in `write_to_ksh`, which is not part of this model. Python dicts allow any key, while the model's maps always hold every button and side.
- `Timing.__hash__` and `Difficulty.to_xml_name`/`to_jacket_ifs_numer`, and `InfiniteVersion`, are not modelled, because nothing modelled uses them.
- The rest of `converter.py` is not part of this model, because it is mostly I/O, concurrency or floating point. This covers:
  - effect definitions and `SpcParam`;
  - camera nodes;
  - metadata and XML;
  - media copying;
  - threading and the command line;
  - `Vox.parse`/`process_state` and the `write_to_ksh` tick loop.
- Python 3 never calls `__cmp__`. It is modelled as the function it defines.

## Findings

| source | as written | input that shows it | evidently intended | confidence | as-written member | corrected member |
|---|---|---|---|---|---|---|
| converter.py:575 | `14 <= vox_id == 16` is a chained comparison, so it holds only for 16 (shown by KshEnums.BackgroundChainedComparison) | vox_id 14 or 15 gives 'fallback' | ids 14 to 16 give 'techno', like `11 <= vox_id <= 13` on the next branch (proved in KshEnums.BackgroundIds) | medium, not executed | KshEnums.BackgroundAsWritten | KshEnums.Background |
