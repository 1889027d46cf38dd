/**
 * Section headers of a VOX file as the vox2ksh converter (converter.py)
 * reads them: the name between the `#` and the end of the line selects the
 * state of the line-by-line reader.
 */
module VoxTokens {
  import opened Wrappers
  import opened Numbers

  /** The reader's states: the section being read, or none. */
  datatype SectionState =
    | NoSection | FormatVersion | Bpm | BpmInfo | TiltInfo | BeatInfo | EndPosition
    | SoundId | TabEffect | FxButtonEffect | TabParamAssign | Track | AutoTab | SpController

  /** A recognised header: its state, and for a TRACK header the track digit. */
  datatype Token = Token(state: SectionState, track: Option<int>)

  /**
   * `Vox.State.from_token`: `None` for a comment or padding line (a leading
   * '=' or ' ') and for any name not listed; the state of a listed name; for
   * a name starting with "TRACK", the track read with Python's `int` from the
   * one character after it, raising IndexError when there is none and
   * ValueError when it is not a digit.
   */
  function FromToken(token: string): Result<Option<Token>, string> {
    if IsPadding(token) then Ok(None)
    else
      match NamedState(token)
      case Some(s) => Ok(Some(Token(s, None)))
      case None =>
        if "TRACK" <= token then
          if |token| == 5 then Err("IndexError: string index out of range")
          else
            match PyParseInt([token[5]])
            case Some(n) => Ok(Some(Token(Track, Some(n))))
            case None => Err("ValueError: invalid literal for int()")
        else Ok(None)
  }

  /** The token starts with '=' or a space. */
  predicate IsPadding(token: string) {
    token != [] && (token[0] == '=' || token[0] == ' ')
  }

  /** The state of a header name matched as a whole, in the order the names are tried. */
  function NamedState(token: string): (r: Option<SectionState>)
    ensures r.Some? ==> r.value != Track && IsHeaderName(r.value, token)
  {
    if token == "END" then Some(NoSection)
    else if token == "FORMAT VERSION" then Some(FormatVersion)
    else if token == "BPM" then Some(Bpm)
    else if token == "BPM INFO" then Some(BpmInfo)
    else if token == "TILT MODE INFO" then Some(TiltInfo)
    else if token == "BEAT INFO" then Some(BeatInfo)
    else if token == "END POSISION" || token == "END POSITION" then Some(EndPosition)
    else if token == "SOUND ID START" then Some(SoundId)
    else if token == "FXBUTTON EFFECT INFO" then Some(FxButtonEffect)
    else if token == "SPCONTROLER" || token == "SPCONTROLLER" then Some(SpController)
    else if token == "TAB EFFECT INFO" then Some(TabEffect)
    else if token == "TAB PARAM ASSIGN INFO" then Some(TabParamAssign)
    else if token == "TRACK AUTO TAB" then Some(AutoTab)
    else None
  }

  /** The name written for each state other than TRACK (whose header carries a digit). */
  function HeaderName(s: SectionState): string {
    match s
    case NoSection => "END"
    case FormatVersion => "FORMAT VERSION"
    case Bpm => "BPM"
    case BpmInfo => "BPM INFO"
    case TiltInfo => "TILT MODE INFO"
    case BeatInfo => "BEAT INFO"
    case EndPosition => "END POSITION"
    case SoundId => "SOUND ID START"
    case TabEffect => "TAB EFFECT INFO"
    case FxButtonEffect => "FXBUTTON EFFECT INFO"
    case TabParamAssign => "TAB PARAM ASSIGN INFO"
    case Track => "TRACK"
    case AutoTab => "TRACK AUTO TAB"
    case SpController => "SPCONTROLLER"
  }

  /** The names that select `s`: its own and, for two states, a misspelling found in VOX files. */
  predicate IsHeaderName(s: SectionState, token: string) {
    || token == HeaderName(s)
    || (s == EndPosition && token == "END POSISION")
    || (s == SpController && token == "SPCONTROLER")
  }

  /** Every name of a state other than TRACK is matched as a whole and selects that state. */
  lemma NamedStateOfHeaderName(s: SectionState, token: string)
    requires s != Track && IsHeaderName(s, token)
    ensures NamedState(token) == Some(s)
  {
    NamesSelectFirstFive();
    NamesSelectNextFive();
    NamesSelectSpController();
    NamesSelectLastThree();
  }

  lemma NamesSelectFirstFive()
    ensures NamedState("END") == Some(NoSection)
    ensures NamedState("FORMAT VERSION") == Some(FormatVersion)
    ensures NamedState("BPM") == Some(Bpm)
    ensures NamedState("BPM INFO") == Some(BpmInfo)
    ensures NamedState("TILT MODE INFO") == Some(TiltInfo)
  {
  }

  lemma NamesSelectNextFive()
    ensures NamedState("BEAT INFO") == Some(BeatInfo)
    ensures NamedState("END POSITION") == Some(EndPosition)
    ensures NamedState("END POSISION") == Some(EndPosition)
    ensures NamedState("SOUND ID START") == Some(SoundId)
    ensures NamedState("FXBUTTON EFFECT INFO") == Some(FxButtonEffect)
  {
  }

  lemma NamesSelectSpController()
    ensures NamedState("SPCONTROLLER") == Some(SpController)
    ensures NamedState("SPCONTROLER") == Some(SpController)
  {
  }

  lemma NamesSelectLastThree()
    ensures NamedState("TAB EFFECT INFO") == Some(TabEffect)
    ensures NamedState("TAB PARAM ASSIGN INFO") == Some(TabParamAssign)
    ensures NamedState("TRACK AUTO TAB") == Some(AutoTab)
  {
    NamesSelectTrackAutoTab();
  }

  lemma NamesSelectTrackAutoTab()
    ensures NamedState("TRACK AUTO TAB") == Some(AutoTab)
  {
  }

  /** No header name starts like a comment or padding line. */
  lemma HeaderNameNotPadding(s: SectionState, token: string)
    requires IsHeaderName(s, token)
    ensures !IsPadding(token)
  {
  }

  /** The only header name beginning "TR" is "TRACK AUTO TAB". */
  lemma HeaderNameStartingTR(s: SectionState, token: string)
    requires IsHeaderName(s, token) && s != Track
    requires |token| >= 2 && token[0] == 'T' && token[1] == 'R'
    ensures s == AutoTab && token == "TRACK AUTO TAB"
  {
  }

  /**
   * A state other than TRACK is selected exactly by its names: a token
   * selects `s`, with no track number, if and only if it is one of them.
   */
  lemma HeaderNamesExactly(s: SectionState, token: string)
    requires s != Track
    ensures FromToken(token) == Ok(Some(Token(s, None))) <==> IsHeaderName(s, token)
  {
    if IsHeaderName(s, token) {
      NamedStateOfHeaderName(s, token);
      HeaderNameNotPadding(s, token);
    }
  }

  /** "END POSISION" and "SPCONTROLER" are read as "END POSITION" and "SPCONTROLLER". */
  lemma HeaderMisspellings()
    ensures FromToken("END POSISION") == FromToken("END POSITION") == Ok(Some(Token(EndPosition, None)))
    ensures FromToken("SPCONTROLER") == FromToken("SPCONTROLLER") == Ok(Some(Token(SpController, None)))
  {
    HeaderNamesExactly(EndPosition, "END POSISION");
    HeaderNamesExactly(EndPosition, "END POSITION");
    HeaderNamesExactly(SpController, "SPCONTROLER");
    HeaderNamesExactly(SpController, "SPCONTROLLER");
  }

  /** "TRACK" followed by a digit selects that track, whatever follows the digit. */
  lemma TrackDigit(d: char, rest: string)
    requires IsDecimalDigit(d)
    ensures FromToken("TRACK" + [d] + rest) == Ok(Some(Token(Track, Some(DigitValue(d, 10)))))
  {
    var token := "TRACK" + [d] + rest;
    assert token[5] == d && "TRACK" <= token && token[0] == 'T' && token[1] == 'R';
    if NamedState(token).Some? {
      HeaderNameStartingTR(NamedState(token).value, token);
    }
    PyParseIntOneChar(d);
  }

  /**
   * A bare "TRACK" raises IndexError, and any other character after it but
   * the space of "TRACK AUTO TAB" raises ValueError.
   */
  lemma TrackErrors(c: char, rest: string)
    requires !IsDecimalDigit(c)
    requires "TRACK" + [c] + rest != "TRACK AUTO TAB"
    ensures FromToken("TRACK") == Err("IndexError: string index out of range")
    ensures FromToken("TRACK" + [c] + rest) == Err("ValueError: invalid literal for int()")
  {
    var token := "TRACK" + [c] + rest;
    assert token[5] == c && "TRACK" <= token && token[0] == 'T' && token[1] == 'R';
    if NamedState(token).Some? {
      HeaderNameStartingTR(NamedState(token).value, token);
    }
    if NamedState("TRACK").Some? {
      HeaderNameStartingTR(NamedState("TRACK").value, "TRACK");
    }
    PyParseIntOneChar(c);
  }

  /** Comment and padding lines, which start with '=' or a space, select nothing. */
  lemma CommentLinesIgnored(token: string)
    requires |token| > 0 && (token[0] == '=' || token[0] == ' ')
    ensures FromToken(token) == Ok(None)
  {
  }
}
