/**
 * The lookup tables of the vox2ksh converter (converter.py): buttons and
 * their VOX track numbers, laser sides, laser filters, difficulties, tilt
 * modes and backgrounds. A Python exception is an `Err` carrying its
 * message's kind.
 */
module KshEnums {
  import opened Wrappers

  /** Button: the four BT buttons and two FX buttons, valued by their VOX track number. */
  datatype Button = BtA | BtB | BtC | BtD | FxL | FxR

  /** `to_track_num`: the button's value. */
  function ToTrackNum(b: Button): int {
    match b
    case FxL => 2
    case BtA => 3
    case BtB => 4
    case BtC => 5
    case BtD => 6
    case FxR => 7
  }

  /** `is_fx`: the button is FX_L or FX_R. */
  predicate IsFx(b: Button) {
    b == FxL || b == FxR
  }

  const AllButtons: seq<Button> := [BtA, BtB, BtC, BtD, FxL, FxR]

  /** `next(x for x in xs if p(x))`: the first element satisfying `p`, `None` for StopIteration. */
  function FirstWhere<T>(xs: seq<T>, p: T -> bool): (r: Option<T>)
    ensures r.Some? ==> r.value in xs && p(r.value)
    ensures r.None? ==> forall x :: x in xs ==> !p(x)
  {
    if xs == [] then None
    else if p(xs[0]) then Some(xs[0])
    else FirstWhere(xs[1..], p)
  }

  /**
   * `from_track_num`: the button whose value is `num`. Track 9 has no
   * button and gives `None`; any other number raises ValueError.
   */
  function FromTrackNum(num: int): Result<Option<Button>, string> {
    match FirstWhere(AllButtons, b => ToTrackNum(b) == num)
    case Some(b) => Ok(Some(b))
    case None => if num != 9 then Err("ValueError: invalid track number for button") else Ok(None)
  }

  /** Every button is listed, and no two share a track number. */
  lemma ButtonsListedOnce(b: Button, c: Button)
    ensures b in AllButtons
    ensures ToTrackNum(b) == ToTrackNum(c) ==> b == c
  {
  }

  /** `from_track_num` inverts `to_track_num`. */
  lemma TrackNumRoundTrip(b: Button)
    ensures FromTrackNum(ToTrackNum(b)) == Ok(Some(b))
  {
    var found := FirstWhere(AllButtons, c => ToTrackNum(c) == ToTrackNum(b));
    ButtonsListedOnce(b, b);
    if found.Some? {
      ButtonsListedOnce(found.value, b);
    }
  }

  /**
   * Tracks 2 to 7 give a button whose number they are, track 9 gives none,
   * and every other number raises.
   */
  lemma FromTrackNumCases(num: int)
    ensures 2 <= num <= 7 ==>
      (FromTrackNum(num).Ok? && FromTrackNum(num).value.Some? && ToTrackNum(FromTrackNum(num).value.value) == num)
    ensures num == 9 ==> FromTrackNum(num) == Ok(None)
    ensures !(2 <= num <= 7) && num != 9 ==> FromTrackNum(num).Err?
  {
    if 2 <= num <= 7 {
      var c := if num == 2 then FxL else if num == 3 then BtA else if num == 4 then BtB
        else if num == 5 then BtC else if num == 6 then BtD else FxR;
      TrackNumRoundTrip(c);
    }
  }

  /** FX_L and FX_R are exactly the buttons on tracks 2 and 7. */
  lemma IsFxByTrackNum(b: Button)
    ensures IsFx(b) <==> ToTrackNum(b) == 2 || ToTrackNum(b) == 7
  {
  }

  /** LaserSide: a letter for KSH and a VOX track number. */
  datatype LaserSide = Left | Right

  const AllSides: seq<LaserSide> := [Left, Right]

  function SideLetter(s: LaserSide): char {
    match s
    case Left => 'l'
    case Right => 'r'
  }

  function SideTrackNum(s: LaserSide): int {
    match s
    case Left => 1
    case Right => 8
  }

  /** Both sides are listed, and they differ in letter and in track. */
  lemma SidesDistinct(s: LaserSide, t: LaserSide)
    ensures s in AllSides
    ensures SideLetter(s) == SideLetter(t) <==> s == t
    ensures SideTrackNum(s) == SideTrackNum(t) <==> s == t
  {
  }

  /** LaserCont: whether a laser node starts, ends or continues a laser. */
  datatype LaserCont = Continue | Start | End

  /** RollKind: the kind of a camera roll. */
  datatype RollKind = Measure | HalfMeasure | ThreeBeat | Cancer | Swing

  /** KshFilter: the laser filter types. */
  datatype KshFilter = Peak | LowPass | HighPass | BitCrush

  /** `from_vox_filter_id`: ids 0 to 6 name a filter; any other raises ValueError. */
  function FromVoxFilterId(filterId: int): Result<KshFilter, string> {
    if filterId == 0 then Ok(Peak)
    else if filterId == 1 || filterId == 2 then Ok(LowPass)
    else if filterId == 3 || filterId == 4 then Ok(HighPass)
    else if filterId == 5 then Ok(BitCrush)
    else if filterId == 6 then Ok(Peak)
    else Err("ValueError: unrecognized vox filter id")
  }

  function FilterKshName(f: KshFilter): string {
    match f
    case Peak => "peak"
    case LowPass => "lpf1"
    case HighPass => "hpf1"
    case BitCrush => "bitc"
  }

  /**
   * The ids 0 to 6 are accepted and no other; each filter has its ids (0
   * and 6 both peak); the KSH names tell the filters apart.
   */
  lemma FilterIds(filterId: int, f: KshFilter, g: KshFilter)
    ensures FromVoxFilterId(filterId).Ok? <==> 0 <= filterId <= 6
    ensures FromVoxFilterId(filterId) == Ok(Peak) <==> filterId == 0 || filterId == 6
    ensures FromVoxFilterId(filterId) == Ok(LowPass) <==> filterId == 1 || filterId == 2
    ensures FromVoxFilterId(filterId) == Ok(HighPass) <==> filterId == 3 || filterId == 4
    ensures FromVoxFilterId(filterId) == Ok(BitCrush) <==> filterId == 5
    ensures FilterKshName(f) == FilterKshName(g) <==> f == g
  {
  }

  /** Difficulty: number, file letter, KSH name and abbreviation. */
  datatype Difficulty = Novice | Advanced | Exhaust | Infinite | Maximum

  function DifficultyNumber(d: Difficulty): int {
    match d
    case Novice => 0
    case Advanced => 1
    case Exhaust => 2
    case Infinite => 3
    case Maximum => 4
  }

  /** `to_letter`. */
  function ToLetter(d: Difficulty): string {
    match d
    case Novice => "n"
    case Advanced => "a"
    case Exhaust => "e"
    case Infinite => "i"
    case Maximum => "m"
  }

  /** `to_ksh_name`. */
  function DifficultyKshName(d: Difficulty): string {
    match d
    case Novice => "novice"
    case Advanced => "challenge"
    case Exhaust => "extended"
    case Infinite => "infinite"
    case Maximum => "infinite"
  }

  /** `to_abbreviation`. */
  function Abbreviation(d: Difficulty): string {
    match d
    case Novice => "nov"
    case Advanced => "adv"
    case Exhaust => "exh"
    case Infinite => "inf"
    case Maximum => "mxm"
  }

  const AllDifficulties: seq<Difficulty> := [Novice, Advanced, Exhaust, Infinite, Maximum]

  /** `from_letter`: the difficulty with letter `k`; an unknown letter lets StopIteration escape. */
  function FromLetter(k: string): Result<Difficulty, string> {
    match FirstWhere(AllDifficulties, x => ToLetter(x) == k)
    case Some(d) => Ok(d)
    case None => Err("StopIteration")
  }

  /** `from_number`: the difficulty numbered `num`, or `None`. */
  function FromNumber(num: int): Option<Difficulty> {
    FirstWhere(AllDifficulties, x => DifficultyNumber(x) == num)
  }

  /** Every difficulty is listed, and no two share a letter or a number. */
  lemma DifficultiesListedOnce(d: Difficulty, e: Difficulty)
    ensures d in AllDifficulties
    ensures ToLetter(d) == ToLetter(e) ==> d == e
    ensures DifficultyNumber(d) == DifficultyNumber(e) ==> d == e
  {
  }

  /**
   * Letters name difficulties one to one: `from_letter` inverts
   * `to_letter`, and only the five letters are found.
   */
  lemma LetterRoundTrip(d: Difficulty, k: string)
    ensures FromLetter(ToLetter(d)) == Ok(d)
    ensures FromLetter(k).Ok? ==> ToLetter(FromLetter(k).value) == k
    ensures FromLetter(k).Ok? <==> exists e :: e in AllDifficulties && ToLetter(e) == k
  {
    DifficultiesListedOnce(d, d);
    var byLetter := FirstWhere(AllDifficulties, x => ToLetter(x) == ToLetter(d));
    if byLetter.Some? {
      DifficultiesListedOnce(byLetter.value, d);
    }
  }

  /**
   * Numbers name difficulties one to one: `from_number` finds the
   * difficulty of each number 0 to 4 and nothing for any other number.
   */
  lemma NumberRoundTrip(d: Difficulty, num: int)
    ensures FromNumber(DifficultyNumber(d)) == Some(d)
    ensures FromNumber(num).Some? <==> 0 <= num <= 4
    ensures FromNumber(num).Some? ==> DifficultyNumber(FromNumber(num).value) == num
  {
    DifficultiesListedOnce(d, d);
    var byNumber := FirstWhere(AllDifficulties, x => DifficultyNumber(x) == DifficultyNumber(d));
    if byNumber.Some? {
      DifficultiesListedOnce(byNumber.value, d);
    }
    if 0 <= num <= 4 {
      var e := if num == 0 then Novice else if num == 1 then Advanced else if num == 2 then Exhaust
        else if num == 3 then Infinite else Maximum;
      DifficultiesListedOnce(e, e);
      assert DifficultyNumber(e) == num;
    }
  }

  /** Abbreviations tell all five apart; KSH names do not, since two share "infinite". */
  lemma DifficultyNames(d: Difficulty, e: Difficulty)
    ensures Abbreviation(d) == Abbreviation(e) <==> d == e
    ensures DifficultyKshName(Infinite) == DifficultyKshName(Maximum)
    ensures DifficultyKshName(d) == DifficultyKshName(e) <==> d == e || (IsInfiniteOrMaximum(d) && IsInfiniteOrMaximum(e))
  {
  }

  predicate IsInfiniteOrMaximum(d: Difficulty) {
    d == Infinite || d == Maximum
  }

  /** TiltMode: the camera tilt modes. */
  datatype TiltMode = Normal | Bigger | KeepBigger

  /** `from_vox_id`: ids 0, 1 and 2 name a mode; any other gives `None`. */
  function TiltFromVoxId(voxId: int): Option<TiltMode> {
    if voxId == 0 then Some(Normal)
    else if voxId == 1 then Some(Bigger)
    else if voxId == 2 then Some(KeepBigger)
    else None
  }

  function TiltKshName(t: TiltMode): string {
    match t
    case Normal => "normal"
    case Bigger => "bigger"
    case KeepBigger => "keep_bigger"
  }

  /** Exactly the ids 0 to 2 are known, each to its own mode, and the KSH names tell the modes apart. */
  lemma TiltIds(voxId: int, voxId': int, t: TiltMode, u: TiltMode)
    ensures TiltFromVoxId(voxId).Some? <==> 0 <= voxId <= 2
    ensures TiltFromVoxId(voxId).Some? && TiltFromVoxId(voxId) == TiltFromVoxId(voxId') ==> voxId == voxId'
    ensures exists id :: 0 <= id <= 2 && TiltFromVoxId(id) == Some(t)
    ensures TiltKshName(t) == TiltKshName(u) <==> t == u
  {
    var id := match t case Normal => 0 case Bigger => 1 case KeepBigger => 2;
    assert TiltFromVoxId(id) == Some(t);
  }

  /**
   * `Background.from_vox_id` as written: the condition `14 <= vox_id == 16`
   * is a chained comparison, `14 <= vox_id and vox_id == 16`, so of the
   * ids 14 to 16 only 16 is "techno".
   */
  function BackgroundAsWritten(voxId: int): string {
    if voxId == 0 || voxId == 1 || (14 <= voxId && voxId == 16) || voxId == 71 then "techno"
    else BackgroundBeyondTechno(voxId)
  }

  /** The background of an id that is not a "techno" one. */
  function BackgroundBeyondTechno(voxId: int): string {
    if voxId == 2 || voxId == 6 || 11 <= voxId <= 13 then "wave"
    else if voxId == 3 || voxId == 7 then "arrow"
    else if voxId == 4 || voxId == 8 then "sakura"
    else if voxId == 63 then "smoke"
    else if voxId == 65 then "snow"
    else "fallback"
  }

  /** `Background.from_vox_id` as evidently intended: the ids 14 to 16 are all "techno". */
  function Background(voxId: int): string {
    if voxId == 0 || voxId == 1 || 14 <= voxId <= 16 || voxId == 71 then "techno"
    else BackgroundBeyondTechno(voxId)
  }

  /** The chained comparison sends ids 14 and 15 to the fallback. */
  lemma BackgroundChainedComparison()
    ensures BackgroundAsWritten(14) == "fallback" && BackgroundAsWritten(15) == "fallback"
    ensures Background(14) == "techno" && Background(15) == "techno"
  {
  }

  /**
   * Each background name has its own ids: "techno" 0, 1, 14 to 16 and 71;
   * "wave" 2, 6 and 11 to 13; "arrow" 3 and 7; "sakura" 4 and 8; "smoke"
   * 63; "snow" 65; every other id falls back. Only 14 and 15 are read
   * differently by the code as written.
   */
  lemma BackgroundIds(voxId: int)
    ensures Background(voxId) == "techno" <==> voxId == 0 || voxId == 1 || 14 <= voxId <= 16 || voxId == 71
    ensures Background(voxId) == "wave" <==> voxId == 2 || voxId == 6 || 11 <= voxId <= 13
    ensures Background(voxId) == "arrow" <==> voxId == 3 || voxId == 7
    ensures Background(voxId) == "sakura" <==> voxId == 4 || voxId == 8
    ensures Background(voxId) == "smoke" <==> voxId == 63
    ensures Background(voxId) == "snow" <==> voxId == 65
    ensures BackgroundAsWritten(voxId) != Background(voxId) <==> voxId == 14 || voxId == 15
  {
  }
}
