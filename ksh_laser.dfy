/**
 * Laser nodes and slams of the vox2ksh converter (converter.py): a node's
 * 7-bit position and its KSH position character, and the checks a slam
 * makes of its two ends.
 */
module KshLaser {
  import opened Wrappers
  import opened KshEnums

  /** LaserNode: a point of a laser at a position from 0 to 127. */
  datatype LaserNode = LaserNode(
    side: LaserSide, position: int, nodeCont: LaserCont,
    range: int, filter: KshFilter, rollKind: Option<RollKind>)

  /** The positions a node accepts. */
  predicate ValidPosition(position: int) {
    0 <= position <= 127
  }

  /** `LaserNode.__init__`: the node, or ValueError when the position is out of bounds. */
  function NewLaserNode(
    side: LaserSide, position: int, nodeCont: LaserCont,
    range: int, filter: KshFilter, rollKind: Option<RollKind>): (r: Result<LaserNode, string>)
    ensures r.Ok? <==> ValidPosition(position)
    ensures r.Ok? ==> r.value == LaserNode(side, position, nodeCont, range, filter, rollKind)
  {
    if position < 0 || position > 127 then Err("ValueError: position is out of bounds")
    else Ok(LaserNode(side, position, nodeCont, range, filter, rollKind))
  }

  /** The i-th of KSH's 49 laser position characters: '0'-'9', 'A'-'X', 'a'-'o'. */
  function TableChar(i: int): char
    requires 0 <= i < 49
  {
    if i < 10 then ('0' as int + i) as char
    else if i < 34 then ('A' as int + (i - 10)) as char
    else ('a' as int + (i - 34)) as char
  }

  /** The table grows strictly in character order. */
  lemma TableCharIncreasing(i: int, j: int)
    requires 0 <= i < j < 49
    ensures TableChar(i) < TableChar(j)
  {
  }

  /** `ceil(position / 127 * 48)`: the table index of a 7-bit position. */
  function KshIndex(position: int): (idx: int)
    requires ValidPosition(position)
    ensures 0 <= idx <= 48
    ensures 127 * (idx - 1) < 48 * position <= 127 * idx
  {
    (48 * position + 126) / 127
  }

  /** A higher position never gets a lower index, and the ends map to the ends. */
  lemma KshIndexMonotone(p: int, q: int)
    requires ValidPosition(p) && ValidPosition(q) && p <= q
    ensures KshIndex(p) <= KshIndex(q)
    ensures KshIndex(0) == 0 && KshIndex(127) == 48
  {
  }

  /**
   * `position_ksh`: the table is built character by character in three
   * runs, then indexed by the rounded-up position.
   */
  method PositionKsh(node: LaserNode) returns (c: char)
    requires ValidPosition(node.position)
    ensures c == TableChar(KshIndex(node.position))
  {
    var chars: seq<char> := [];
    for k := 0 to 10
      invariant |chars| == k
      invariant forall i :: 0 <= i < k ==> chars[i] == TableChar(i)
    {
      chars := chars + [('0' as int + k) as char];
    }
    for k := 0 to 24
      invariant |chars| == 10 + k
      invariant forall i :: 0 <= i < 10 + k ==> chars[i] == TableChar(i)
    {
      chars := chars + [('A' as int + k) as char];
    }
    for k := 0 to 15
      invariant |chars| == 34 + k
      invariant forall i :: 0 <= i < 34 + k ==> chars[i] == TableChar(i)
    {
      chars := chars + [('a' as int + k) as char];
    }
    c := chars[KshIndex(node.position)];
  }

  /** Position 0 is '0' and position 127 is 'o'; a higher position never gets an earlier character. */
  lemma PositionCharOrder(p: int, q: int)
    requires ValidPosition(p) && ValidPosition(q) && p <= q
    ensures TableChar(KshIndex(0)) == '0' && TableChar(KshIndex(127)) == 'o'
    ensures TableChar(KshIndex(p)) <= TableChar(KshIndex(q))
  {
    KshIndexMonotone(p, q);
    if KshIndex(p) < KshIndex(q) {
      TableCharIncreasing(KshIndex(p), KshIndex(q));
    }
  }

  /** LaserSlam: an instant jump of a laser between two nodes. */
  datatype LaserSlam = LaserSlam(start: LaserNode, end: LaserNode)

  /** Direction of a slam. */
  datatype SlamDirection = SlamLeft | SlamRight

  /**
   * `LaserSlam.__init__`: ValueError when both ends share a position,
   * checked first, or lie on different sides.
   */
  function NewLaserSlam(start: LaserNode, end: LaserNode): (r: Result<LaserSlam, string>)
    ensures r.Ok? <==> start.position != end.position && start.side == end.side
    ensures r.Ok? ==> r.value == LaserSlam(start, end)
  {
    if start.position == end.position then Err("ValueError: slam with the same start and end")
    else if start.side != end.side then Err("ValueError: slam with start and end on different sides")
    else Ok(LaserSlam(start, end))
  }

  /** `direction`: left when the slam moves to a lower position. */
  function Direction(slam: LaserSlam): SlamDirection {
    if slam.start.position > slam.end.position then SlamLeft else SlamRight
  }

  /** `side`: the side of the start node. */
  function Side(slam: LaserSlam): LaserSide {
    slam.start.side
  }

  /**
   * A slam that was built moves strictly left or strictly right, on the one
   * side both its ends share; equal positions are rejected before sides.
   */
  lemma SlamDirectionOfEnds(start: LaserNode, end: LaserNode)
    ensures start.position == end.position ==> NewLaserSlam(start, end) == Err("ValueError: slam with the same start and end")
    ensures NewLaserSlam(start, end).Ok? ==>
      && (Direction(NewLaserSlam(start, end).value) == SlamLeft <==> start.position > end.position)
      && (Direction(NewLaserSlam(start, end).value) == SlamRight <==> start.position < end.position)
      && Side(NewLaserSlam(start, end).value) == end.side
  {
  }
}
