/**
 * One line of a KSH chart as the vox2ksh converter (converter.py) buffers
 * it: the state of each button, the text of each laser, a spin and the
 * effect assignment lines written before the notes. The converter fills the
 * buffer field by field and then renders it.
 */
module KshLine {
  import opened Wrappers
  import opened Strings
  import opened KshEnums

  /** ButtonState: a button on this line is not pressed, chipped or held. */
  datatype ButtonState = NoPress | Press | Hold

  /** A BT lane's character: hold '2', chip '1', nothing '0'. */
  function BtChar(s: ButtonState): char {
    match s
    case Hold => '2'
    case Press => '1'
    case NoPress => '0'
  }

  /** An FX lane's character: hold '1', chip '2', nothing '0' (the BT digits swapped). */
  function FxChar(s: ButtonState): char {
    match s
    case Hold => '1'
    case Press => '2'
    case NoPress => '0'
  }

  /** The character of lane `s` on the BT (`fx` false) or FX side. */
  function LaneChar(s: ButtonState, fx: bool): char {
    if fx then FxChar(s) else BtChar(s)
  }

  /** Reading a BT lane's character back. */
  function BtStateOf(c: char): Option<ButtonState> {
    if c == '2' then Some(Hold) else if c == '1' then Some(Press) else if c == '0' then Some(NoPress) else None
  }

  /** Reading an FX lane's character back. */
  function FxStateOf(c: char): Option<ButtonState> {
    if c == '1' then Some(Hold) else if c == '2' then Some(Press) else if c == '0' then Some(NoPress) else None
  }

  /** The BT lanes and FX lanes in the order a line lists them. */
  const BtLanes: seq<Button> := [BtA, BtB, BtC, BtD]
  const FxLanes: seq<Button> := [FxL, FxR]

  /** Every button and both laser sides have an entry. */
  predicate HasAllKeys(buttons: map<Button, ButtonState>, lasers: map<LaserSide, string>) {
    (forall b: Button :: b in buttons) && (forall s: LaserSide :: s in lasers)
  }

  /** The characters of `lanes`, in order. */
  function Row(buttons: map<Button, ButtonState>, lanes: seq<Button>, fx: bool): (row: string)
    requires forall b: Button :: b in buttons
    ensures |row| == |lanes|
  {
    seq(|lanes|, i requires 0 <= i < |lanes| => LaneChar(buttons[lanes[i]], fx))
  }

  lemma RowStep(buttons: map<Button, ButtonState>, lanes: seq<Button>, i: int, fx: bool)
    requires forall b: Button :: b in buttons
    requires 0 <= i < |lanes|
    ensures Row(buttons, lanes[..i + 1], fx) == Row(buttons, lanes[..i], fx) + [LaneChar(buttons[lanes[i]], fx)]
  {
  }

  lemma Regroup(meta: string, bt: string, fx: string, lasers: string, spin: string)
    ensures meta + bt + "|" + fx + "|" + lasers + spin == meta + (bt + "|" + fx + "|" + lasers + spin)
  {
  }

  /** Each effect line followed by a newline. */
  function MetaBlock(meta: seq<string>): string {
    if meta == [] then "" else MetaBlock(meta[..|meta| - 1]) + meta[|meta| - 1] + "\n"
  }

  /** The texts of the lasers on `sides`, in order. */
  function LaserText(lasers: map<LaserSide, string>, sides: seq<LaserSide>): string
    requires forall s: LaserSide :: s in lasers
  {
    if sides == [] then "" else LaserText(lasers, sides[..|sides| - 1]) + lasers[sides[|sides| - 1]]
  }

  /** The note line proper: BT lanes, '|', FX lanes, '|', lasers, spin. */
  function NoteText(buttons: map<Button, ButtonState>, lasers: map<LaserSide, string>, spin: string): string
    requires HasAllKeys(buttons, lasers)
  {
    Row(buttons, BtLanes, false) + "|" + Row(buttons, FxLanes, true) + "|" + LaserText(lasers, AllSides) + spin
  }

  /** The rendered buffer: the effect lines, then the note line. */
  function RenderLine(meta: seq<string>, buttons: map<Button, ButtonState>, lasers: map<LaserSide, string>, spin: string): string
    requires HasAllKeys(buttons, lasers)
  {
    MetaBlock(meta) + NoteText(buttons, lasers, spin)
  }

  /** KshLineBuf: the buffer of one KSH line, filled in place by the converter. */
  class KshLineBuf {
    var buttons: map<Button, ButtonState>
    var lasers: map<LaserSide, string>
    var spin: string
    var meta: seq<string>

    /** Every button and laser has an entry, which every rendering reads. */
    predicate Valid()
      reads this
    {
      HasAllKeys(buttons, lasers)
    }

    /** `__init__`: every button unpressed, both lasers '-', no spin and no effect lines. */
    constructor()
      ensures Valid()
      ensures forall b: Button :: buttons[b] == NoPress
      ensures forall s: LaserSide :: lasers[s] == "-"
      ensures spin == "" && meta == []
    {
      var bs: map<Button, ButtonState> := map[];
      for i := 0 to |AllButtons|
        invariant forall b :: b in bs <==> b in AllButtons[..i]
        invariant forall b :: b in bs ==> bs[b] == NoPress
      {
        bs := bs[AllButtons[i] := NoPress];
      }
      var ls: map<LaserSide, string> := map[];
      for i := 0 to |AllSides|
        invariant forall s :: s in ls <==> s in AllSides[..i]
        invariant forall s :: s in ls ==> ls[s] == "-"
      {
        ls := ls[AllSides[i] := "-"];
      }
      assert AllButtons[..|AllButtons|] == AllButtons && AllSides[..|AllSides|] == AllSides;
      forall b: Button ensures b in bs {
        ButtonsListedOnce(b, b);
      }
      forall s: LaserSide ensures s in ls {
        SidesDistinct(s, s);
      }
      buttons, lasers, spin, meta := bs, ls, "", [];
    }

    /** `out`: the effect lines, each with a newline, then the note line. */
    method Out() returns (buf: string)
      requires Valid()
      ensures buf == RenderLine(meta, buttons, lasers, spin)
    {
      buf := "";
      for i := 0 to |meta|
        invariant buf == MetaBlock(meta[..i])
      {
        assert meta[..i + 1][..i] == meta[..i];
        buf := buf + meta[i] + "\n";
      }
      assert meta[..|meta|] == meta;
      ghost var afterMeta := buf;
      for i := 0 to |BtLanes|
        invariant buf == afterMeta + Row(buttons, BtLanes[..i], false)
      {
        var c := if buttons[BtLanes[i]] == Hold then '2' else if buttons[BtLanes[i]] == Press then '1' else '0';
        RowStep(buttons, BtLanes, i, false);
        buf := buf + [c];
      }
      buf := buf + "|";
      ghost var afterBt := buf;
      for i := 0 to |FxLanes|
        invariant buf == afterBt + Row(buttons, FxLanes[..i], true)
      {
        var c := if buttons[FxLanes[i]] == Hold then '1' else if buttons[FxLanes[i]] == Press then '2' else '0';
        RowStep(buttons, FxLanes, i, true);
        buf := buf + [c];
      }
      buf := buf + "|";
      ghost var afterFx := buf;
      for i := 0 to |AllSides|
        invariant buf == afterFx + LaserText(lasers, AllSides[..i])
      {
        assert AllSides[..i + 1][..i] == AllSides[..i];
        buf := buf + lasers[AllSides[i]];
      }
      assert BtLanes[..|BtLanes|] == BtLanes && FxLanes[..|FxLanes|] == FxLanes && AllSides[..|AllSides|] == AllSides;
      buf := buf + spin;
      Regroup(MetaBlock(meta), Row(buttons, BtLanes, false), Row(buttons, FxLanes, true), LaserText(lasers, AllSides), spin);
    }

    /** The converter marks a button chipped or held on this line. */
    method SetButton(b: Button, s: ButtonState)
      requires Valid()
      modifies this
      ensures Valid()
      ensures buttons == old(buttons)[b := s]
      ensures lasers == old(lasers) && spin == old(spin) && meta == old(meta)
    {
      buttons := buttons[b := s];
    }

    /** The converter writes a laser position or a connector for one side. */
    method SetLaser(side: LaserSide, text: string)
      requires Valid()
      modifies this
      ensures Valid()
      ensures lasers == old(lasers)[side := text]
      ensures buttons == old(buttons) && spin == old(spin) && meta == old(meta)
    {
      lasers := lasers[side := text];
    }

    /** The converter appends an effect assignment line. */
    method AddMeta(line: string)
      requires Valid()
      modifies this
      ensures Valid()
      ensures meta == old(meta) + [line]
      ensures buttons == old(buttons) && lasers == old(lasers) && spin == old(spin)
    {
      meta := meta + [line];
    }

    /** The converter writes the spin text. */
    method SetSpin(text: string)
      requires Valid()
      modifies this
      ensures Valid()
      ensures spin == text
      ensures buttons == old(buttons) && lasers == old(lasers) && meta == old(meta)
    {
      spin := text;
    }
  }

  /** A buffer no one has written to renders as an empty line. */
  lemma FreshLineRenders(buttons: map<Button, ButtonState>, lasers: map<LaserSide, string>)
    requires forall b: Button :: b in buttons && buttons[b] == NoPress
    requires forall s: LaserSide :: s in lasers && lasers[s] == "-"
    ensures RenderLine([], buttons, lasers, "") == "0000|00|--"
  {
    LaserTextOfSides(lasers);
    assert Row(buttons, BtLanes, false) == "0000";
    assert Row(buttons, FxLanes, true) == "00";
  }

  lemma LaserTextOfSides(lasers: map<LaserSide, string>)
    requires forall s: LaserSide :: s in lasers
    ensures LaserText(lasers, AllSides) == lasers[Left] + lasers[Right]
  {
    var one := AllSides[..|AllSides| - 1];
    assert one == [Left] && one[..0] == [] && AllSides[|AllSides| - 1] == Right;
    assert LaserText(lasers, one) == LaserText(lasers, []) + lasers[Left];
  }

  /** Each lane's character reads back as its state, on either side. */
  lemma LaneCharsRoundTrip(s: ButtonState, c: char)
    ensures BtStateOf(BtChar(s)) == Some(s) && FxStateOf(FxChar(s)) == Some(s)
    ensures BtStateOf(c) == Some(s) ==> BtChar(s) == c
    ensures FxStateOf(c) == Some(s) ==> FxChar(s) == c
    ensures BtChar(s) == FxChar(s) <==> s == NoPress
  {
  }

  /**
   * The note line can be read back: BT states at columns 0 to 3, '|', FX
   * states at 5 and 6, '|', then the lasers and the spin.
   */
  lemma NoteTextDecodes(buttons: map<Button, ButtonState>, lasers: map<LaserSide, string>, spin: string)
    requires HasAllKeys(buttons, lasers)
    ensures var line := NoteText(buttons, lasers, spin);
      && |line| >= 8 && line[4] == '|' && line[7] == '|'
      && (forall i :: 0 <= i < 4 ==> BtStateOf(line[i]) == Some(buttons[BtLanes[i]]))
      && (forall j :: 0 <= j < 2 ==> FxStateOf(line[5 + j]) == Some(buttons[FxLanes[j]]))
      && line[8..] == lasers[Left] + lasers[Right] + spin
  {
    var line := NoteText(buttons, lasers, spin);
    var bt, fx := Row(buttons, BtLanes, false), Row(buttons, FxLanes, true);
    LaserTextOfSides(lasers);
    assert line == bt + "|" + fx + "|" + (lasers[Left] + lasers[Right] + spin);
    forall i | 0 <= i < 4 ensures BtStateOf(line[i]) == Some(buttons[BtLanes[i]]) {
      assert line[i] == bt[i];
      LaneCharsRoundTrip(buttons[BtLanes[i]], line[i]);
    }
    forall j | 0 <= j < 2 ensures FxStateOf(line[5 + j]) == Some(buttons[FxLanes[j]]) {
      assert line[5 + j] == fx[j];
      LaneCharsRoundTrip(buttons[FxLanes[j]], line[5 + j]);
    }
  }

  /**
   * Split at newlines, a rendering gives back each effect line and then the
   * note line, when no effect line, laser or spin holds a newline.
   */
  lemma {:induction false} RenderLineSplits(meta: seq<string>, buttons: map<Button, ButtonState>, lasers: map<LaserSide, string>, spin: string)
    requires HasAllKeys(buttons, lasers)
    requires forall i :: 0 <= i < |meta| ==> '\n' !in meta[i]
    requires '\n' !in NoteText(buttons, lasers, spin)
    ensures Split(RenderLine(meta, buttons, lasers, spin), "\n") == meta + [NoteText(buttons, lasers, spin)]
  {
    SplitCharAbsent(NoteText(buttons, lasers, spin), '\n');
    MetaBlockSplits(meta, NoteText(buttons, lasers, spin));
  }

  lemma {:induction false} MetaBlockSplits(meta: seq<string>, rest: string)
    requires forall i :: 0 <= i < |meta| ==> '\n' !in meta[i]
    ensures Split(MetaBlock(meta) + rest, "\n") == meta + Split(rest, "\n")
  {
    if meta == [] {
      assert MetaBlock(meta) + rest == rest;
    } else {
      var init, last := meta[..|meta| - 1], meta[|meta| - 1];
      assert meta == init + [last];
      assert '\n' !in last;
      assert MetaBlock(meta) + rest == MetaBlock(init) + (last + "\n" + rest);
      MetaBlockSplits(init, last + "\n" + rest);
      SplitAtChar(last, '\n', rest);
      assert (init + [last]) + Split(rest, "\n") == init + ([last] + Split(rest, "\n"));
    }
  }
}
