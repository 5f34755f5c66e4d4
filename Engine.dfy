/** The simulation engine: a mower's final position, computed from its
    starting pose and instruction string on a lawn `[0, maxX] x [0, maxY]`. */
module Engine {

  datatype Orientation = N | E | S | W

  /** The fixed turn order: turning right walks it forwards, turning left
      backwards. */
  const Directions: seq<Orientation> := [N, E, S, W]

  /** A pose: the `Position` record the engine returns. */
  datatype Position = Position(x: int, y: int, orientation: Orientation)

  /** A parsed mower: its starting pose and its raw instruction string. */
  datatype Mower = Mower(x: int, y: int, orientation: Orientation, instructions: string)

  /** `directions.indexOf(orientation)`. */
  function IndexOf(o: Orientation): (k: nat)
    ensures k < 4 && Directions[k] == o
  {
    match o
    case N => 0
    case E => 1
    case S => 2
    case W => 3
  }

  lemma IndexOfDirections(k: nat)
    requires k < 4
    ensures IndexOf(Directions[k]) == k
  {
  }

  function TurnLeft(o: Orientation): Orientation {
    Directions[(IndexOf(o) + 3) % 4]
  }

  function TurnRight(o: Orientation): Orientation {
    Directions[(IndexOf(o) + 1) % 4]
  }

  /** `moveForward`: one cell in the facing direction, unless that cell is
      beyond the lawn's edge. */
  function MoveForward(p: Position, maxX: int, maxY: int): Position {
    match p.orientation
    case N => if p.y < maxY then p.(y := p.y + 1) else p
    case E => if p.x < maxX then p.(x := p.x + 1) else p
    case S => if p.y > 0 then p.(y := p.y - 1) else p
    case W => if p.x > 0 then p.(x := p.x - 1) else p
  }

  /** The effect of one instruction character. */
  function Step(p: Position, c: char, maxX: int, maxY: int): Position {
    match c
    case 'L' => p.(orientation := TurnLeft(p.orientation))
    case 'R' => p.(orientation := TurnRight(p.orientation))
    case 'F' => MoveForward(p, maxX, maxY)
    case _ => p
  }

  /** The pose after the instructions `s`, applied left to right from `p`. */
  function Run(p: Position, s: string, maxX: int, maxY: int): Position
    decreases |s|
  {
    if s == [] then p else Step(Run(p, s[..|s| - 1], maxX, maxY), s[|s| - 1], maxX, maxY)
  }

  function Start(m: Mower): Position {
    Position(m.x, m.y, m.orientation)
  }

  /** `executeInstructions`: replays the instruction string on local copies
      of the mower's coordinates and direction index and returns a new
      position; the mower itself is a value and stays as it was. */
  method ExecuteInstructions(mower: Mower, maxX: int, maxY: int) returns (p: Position)
    ensures p == Run(Start(mower), mower.instructions, maxX, maxY)
  {
    var x, y := mower.x, mower.y;
    var directionIndex := IndexOf(mower.orientation);
    var instructions := mower.instructions;
    var i := 0;
    while i < |instructions|
      invariant 0 <= i <= |instructions|
      invariant 0 <= directionIndex < 4
      invariant Position(x, y, Directions[directionIndex]) == Run(Start(mower), instructions[..i], maxX, maxY)
    {
      ghost var before := Position(x, y, Directions[directionIndex]);
      var instruction := instructions[i];
      IndexOfDirections(directionIndex);
      match instruction {
        case 'L' =>
          directionIndex := (directionIndex + 3) % 4;
        case 'R' =>
          directionIndex := (directionIndex + 1) % 4;
        case 'F' =>
          match Directions[directionIndex] {
            case N => if y < maxY { y := y + 1; }
            case E => if x < maxX { x := x + 1; }
            case S => if y > 0 { y := y - 1; }
            case W => if x > 0 { x := x - 1; }
          }
        case _ =>
      }
      assert Position(x, y, Directions[directionIndex]) == Step(before, instruction, maxX, maxY);
      RunSnoc(Start(mower), instructions[..i], instruction, maxX, maxY);
      assert instructions[..i + 1] == instructions[..i] + [instruction];
      i := i + 1;
    }
    assert instructions[..i] == instructions;
    p := Position(x, y, Directions[directionIndex]);
  }

  /** The turns, one orientation at a time. */
  lemma TurnTable()
    ensures TurnRight(N) == E && TurnRight(E) == S && TurnRight(S) == W && TurnRight(W) == N
    ensures TurnLeft(N) == W && TurnLeft(W) == S && TurnLeft(S) == E && TurnLeft(E) == N
  {
    assert Directions[1] == E && Directions[2] == S && Directions[3] == W && Directions[0] == N;
  }

  /** Turning is a 4-cycle through N, E, S, W: left and right undo each
      other, four turns in one direction change nothing, and one left turn
      is three right turns. */
  lemma RotationLaws(o: Orientation)
    ensures TurnRight(TurnLeft(o)) == o && TurnLeft(TurnRight(o)) == o
    ensures TurnLeft(TurnLeft(TurnLeft(TurnLeft(o)))) == o
    ensures TurnRight(TurnRight(TurnRight(TurnRight(o)))) == o
    ensures TurnLeft(o) == TurnRight(TurnRight(TurnRight(o)))
  {
    TurnTable();
  }

  /** An `L` at the end of the instructions turns the pose reached so far
      one step left and changes nothing else. */
  lemma RunLeft(p: Position, s: string, maxX: int, maxY: int)
    ensures var q := Run(p, s, maxX, maxY);
      Run(p, s + "L", maxX, maxY) == q.(orientation := TurnLeft(q.orientation))
  {
    RunSnoc(p, s, 'L', maxX, maxY);
  }

  /** An `R` at the end of the instructions turns the pose reached so far
      one step right and changes nothing else. */
  lemma RunRight(p: Position, s: string, maxX: int, maxY: int)
    ensures var q := Run(p, s, maxX, maxY);
      Run(p, s + "R", maxX, maxY) == q.(orientation := TurnRight(q.orientation))
  {
    RunSnoc(p, s, 'R', maxX, maxY);
  }

  /** The turning laws for instruction strings: "LR" and "RL" leave every
      pose as it was. */
  lemma TurnsCancel(p: Position, maxX: int, maxY: int)
    ensures Run(p, "LR", maxX, maxY) == p
    ensures Run(p, "RL", maxX, maxY) == p
  {
    var o := p.orientation;
    RotationLaws(o);
    RunLeft(p, "", maxX, maxY);
    RunRight(p, "", maxX, maxY);
    assert "" + "L" == "L" && "" + "R" == "R";
    RunRight(p, "L", maxX, maxY);
    RunLeft(p, "R", maxX, maxY);
    assert "L" + "R" == "LR" && "R" + "L" == "RL";
  }

  /** "LLLL" leaves every pose as it was. */
  lemma FourLefts(p: Position, maxX: int, maxY: int)
    ensures Run(p, "LLLL", maxX, maxY) == p
  {
    var o := p.orientation;
    RotationLaws(o);
    RunLeft(p, "", maxX, maxY);
    assert "" + "L" == "L";
    RunLeft(p, "L", maxX, maxY);
    assert "L" + "L" == "LL";
    RunLeft(p, "LL", maxX, maxY);
    assert "LL" + "L" == "LLL";
    RunLeft(p, "LLL", maxX, maxY);
    assert "LLL" + "L" == "LLLL";
  }

  /** "RRRR" leaves every pose as it was. */
  lemma FourRights(p: Position, maxX: int, maxY: int)
    ensures Run(p, "RRRR", maxX, maxY) == p
  {
    var o := p.orientation;
    RotationLaws(o);
    RunRight(p, "", maxX, maxY);
    assert "" + "R" == "R";
    RunRight(p, "R", maxX, maxY);
    assert "R" + "R" == "RR";
    RunRight(p, "RR", maxX, maxY);
    assert "RR" + "R" == "RRR";
    RunRight(p, "RRR", maxX, maxY);
    assert "RRR" + "R" == "RRRR";
  }

  /** "L" has the effect of "RRR". */
  lemma LeftIsThreeRights(p: Position, maxX: int, maxY: int)
    ensures Run(p, "L", maxX, maxY) == Run(p, "RRR", maxX, maxY)
  {
    var o := p.orientation;
    RotationLaws(o);
    RunLeft(p, "", maxX, maxY);
    RunRight(p, "", maxX, maxY);
    assert "" + "L" == "L" && "" + "R" == "R";
    RunRight(p, "R", maxX, maxY);
    assert "R" + "R" == "RR";
    RunRight(p, "RR", maxX, maxY);
    assert "RR" + "R" == "RRR";
  }

  /** Two left turns then two right turns restore the orientation. */
  lemma TwoLeftsTwoRights(p: Position, maxX: int, maxY: int)
    ensures Run(p, "LLRR", maxX, maxY) == p
  {
    var o := p.orientation;
    var o1 := TurnLeft(o);
    var o2 := TurnLeft(o1);
    RotationLaws(o);
    RotationLaws(o1);
    assert TurnRight(o2) == o1 && TurnRight(o1) == o;
    RunLeft(p, "", maxX, maxY);
    assert "" + "L" == "L";
    assert Run(p, "L", maxX, maxY) == p.(orientation := o1);
    RunLeft(p, "L", maxX, maxY);
    assert "L" + "L" == "LL";
    assert Run(p, "LL", maxX, maxY) == p.(orientation := o2);
    RunRight(p, "LL", maxX, maxY);
    assert "LL" + "R" == "LLR";
    assert Run(p, "LLR", maxX, maxY) == p.(orientation := o1);
    RunRight(p, "LLR", maxX, maxY);
    assert "LLR" + "R" == "LLRR";
  }

  /** The last character acts last. */
  lemma RunSnoc(p: Position, s: string, c: char, maxX: int, maxY: int)
    ensures Run(p, s + [c], maxX, maxY) == Step(Run(p, s, maxX, maxY), c, maxX, maxY)
  {
    assert (s + [c])[..|s|] == s;
  }

  /** The edge a mower facing `o` cannot cross. */
  predicate Blocked(p: Position, maxX: int, maxY: int) {
    match p.orientation
    case N => p.y >= maxY
    case E => p.x >= maxX
    case S => p.y <= 0
    case W => p.x <= 0
  }

  /** Unit displacement of the facing direction. */
  function DeltaX(o: Orientation): int {
    match o
    case E => 1
    case W => -1
    case _ => 0
  }

  function DeltaY(o: Orientation): int {
    match o
    case N => 1
    case S => -1
    case _ => 0
  }

  /** An `F` keeps the orientation and moves exactly one unit in the facing
      direction, except when the mower is on the edge it faces, where it is
      a no-op. */
  lemma ForwardMove(p: Position, maxX: int, maxY: int)
    ensures var q := Step(p, 'F', maxX, maxY);
      && q.orientation == p.orientation
      && (q == p <==> Blocked(p, maxX, maxY))
      && (Blocked(p, maxX, maxY) || (q.x == p.x + DeltaX(p.orientation) && q.y == p.y + DeltaY(p.orientation)))
      && (q.x == p.x || q.y == p.y)
  {
  }

  /** A character other than `L`, `R` and `F` changes nothing. */
  lemma OtherCharacter(p: Position, c: char, maxX: int, maxY: int)
    requires c != 'L' && c != 'R' && c != 'F'
    ensures Step(p, c, maxX, maxY) == p
  {
  }

  predicate InBounds(p: Position, maxX: int, maxY: int) {
    0 <= p.x <= maxX && 0 <= p.y <= maxY
  }

  /** One step never leaves the lawn. */
  lemma StepInBounds(p: Position, c: char, maxX: int, maxY: int)
    requires InBounds(p, maxX, maxY)
    ensures InBounds(Step(p, c, maxX, maxY), maxX, maxY)
  {
  }

  /** A mower that starts on the lawn stays on it after every prefix of
      its instructions, and so at the end. */
  lemma {:induction false} RunInBounds(p: Position, s: string, maxX: int, maxY: int)
    requires InBounds(p, maxX, maxY)
    ensures forall k :: 0 <= k <= |s| ==> InBounds(Run(p, s[..k], maxX, maxY), maxX, maxY)
    decreases |s|
  {
    if s != [] {
      var t := s[..|s| - 1];
      RunInBounds(p, t, maxX, maxY);
      forall k | 0 <= k <= |s|
        ensures InBounds(Run(p, s[..k], maxX, maxY), maxX, maxY)
      {
        if k < |s| {
          assert s[..k] == t[..k];
        } else {
          assert t[..|t|] == t;
          assert s[..k][..|s| - 1] == t;
          StepInBounds(Run(p, t, maxX, maxY), s[|s| - 1], maxX, maxY);
        }
      }
    }
  }

  /** Running `s1 + s2` is running `s2` from where `s1` ends; the empty
      string leaves the pose unchanged. */
  lemma {:induction false} RunAppend(p: Position, s1: string, s2: string, maxX: int, maxY: int)
    ensures Run(p, s1 + s2, maxX, maxY) == Run(Run(p, s1, maxX, maxY), s2, maxX, maxY)
    ensures Run(p, [], maxX, maxY) == p
    decreases |s2|
  {
    if s2 == [] {
      assert s1 + s2 == s1;
    } else {
      var t := s2[..|s2| - 1];
      assert (s1 + s2)[..|s1 + s2| - 1] == s1 + t;
      assert (s1 + s2)[|s1 + s2| - 1] == s2[|s2| - 1];
      RunAppend(p, s1, t, maxX, maxY);
    }
  }

  /** Instructions are consumed from the left: the first character acts
      first on the starting pose. */
  lemma RunFirst(p: Position, s: string, maxX: int, maxY: int)
    requires s != []
    ensures Run(p, s, maxX, maxY) == Run(Step(p, s[0], maxX, maxY), s[1..], maxX, maxY)
  {
    assert s == [s[0]] + s[1..];
    RunAppend(p, [s[0]], s[1..], maxX, maxY);
    assert [s[0]][..0] == [];
  }

  /** From (1, 2, N), "FFRFF" on a 5 x 5 lawn ends at (3, 4, E). */
  lemma ExampleOne()
    ensures Run(Position(1, 2, N), "FFRFF", 5, 5) == Position(3, 4, E)
  {
    TurnTable();
    var p := Position(1, 2, N);
    assert "" + "F" == "F" && "F" + "F" == "FF" && "FF" + "R" == "FFR" && "FFR" + "F" == "FFRF" && "FFRF" + "F" == "FFRFF";
    RunSnoc(p, "", 'F', 5, 5);
    assert Run(p, "F", 5, 5) == Position(1, 3, N);
    RunSnoc(p, "F", 'F', 5, 5);
    assert Run(p, "FF", 5, 5) == Position(1, 4, N);
    RunSnoc(p, "FF", 'R', 5, 5);
    assert Run(p, "FFR", 5, 5) == Position(1, 4, E);
    RunSnoc(p, "FFR", 'F', 5, 5);
    assert Run(p, "FFRF", 5, 5) == Position(2, 4, E);
    RunSnoc(p, "FFRF", 'F', 5, 5);
  }

  /** From (3, 3, E), "FFRFFRFRR" on a 5 x 5 lawn ends at (4, 1, E). */
  lemma ExampleTwo()
    ensures Run(Position(3, 3, E), "FFRFFRFRR", 5, 5) == Position(4, 1, E)
  {
    ExampleTwoFirstHalf();
    ExampleTwoSecondHalf();
    RunAppend(Position(3, 3, E), "FFRFF", "RFRR", 5, 5);
    assert "FFRFF" + "RFRR" == "FFRFFRFRR";
  }

  lemma ExampleTwoFirstHalf()
    ensures Run(Position(3, 3, E), "FFRFF", 5, 5) == Position(5, 1, S)
  {
    TurnTable();
    var p := Position(3, 3, E);
    assert "" + "F" == "F" && "F" + "F" == "FF" && "FF" + "R" == "FFR" && "FFR" + "F" == "FFRF" && "FFRF" + "F" == "FFRFF";
    RunSnoc(p, "", 'F', 5, 5);
    assert Run(p, "F", 5, 5) == Position(4, 3, E);
    RunSnoc(p, "F", 'F', 5, 5);
    assert Run(p, "FF", 5, 5) == Position(5, 3, E);
    RunSnoc(p, "FF", 'R', 5, 5);
    assert Run(p, "FFR", 5, 5) == Position(5, 3, S);
    RunSnoc(p, "FFR", 'F', 5, 5);
    assert Run(p, "FFRF", 5, 5) == Position(5, 2, S);
    RunSnoc(p, "FFRF", 'F', 5, 5);
  }

  lemma ExampleTwoSecondHalf()
    ensures Run(Position(5, 1, S), "RFRR", 5, 5) == Position(4, 1, E)
  {
    TurnTable();
    var p := Position(5, 1, S);
    assert "" + "R" == "R" && "R" + "F" == "RF" && "RF" + "R" == "RFR" && "RFR" + "R" == "RFRR";
    RunSnoc(p, "", 'R', 5, 5);
    assert Run(p, "R", 5, 5) == Position(5, 1, W);
    RunSnoc(p, "R", 'F', 5, 5);
    assert Run(p, "RF", 5, 5) == Position(4, 1, W);
    RunSnoc(p, "RF", 'R', 5, 5);
    assert Run(p, "RFR", 5, 5) == Position(4, 1, N);
    RunSnoc(p, "RFR", 'R', 5, 5);
  }

  /** On the east edge of a 5 x 5 lawn, a forward move facing east is
      absorbed. */
  lemma EastEdge()
    ensures Run(Position(5, 3, E), "F", 5, 5) == Position(5, 3, E)
  {
    RunSnoc(Position(5, 3, E), "", 'F', 5, 5);
    assert "" + "F" == "F";
  }

  /** On a 0 x 0 lawn every forward move is absorbed. */
  lemma ExampleThree()
    ensures Run(Position(0, 0, N), "FFFF", 0, 0) == Position(0, 0, N)
  {
    var p := Position(0, 0, N);
    RunSnoc(p, "", 'F', 0, 0);
    RunSnoc(p, "F", 'F', 0, 0);
    RunSnoc(p, "FF", 'F', 0, 0);
    RunSnoc(p, "FFF", 'F', 0, 0);
    assert "" + "F" == "F" && "F" + "F" == "FF" && "FF" + "F" == "FFF" && "FFF" + "F" == "FFFF";
  }

  /** Instructions made only of characters other than L, R and F leave the
      pose unchanged, however long they are. */
  lemma {:induction false} RunInert(p: Position, s: string, maxX: int, maxY: int)
    requires forall k :: 0 <= k < |s| ==> s[k] != 'L' && s[k] != 'R' && s[k] != 'F'
    ensures Run(p, s, maxX, maxY) == p
    decreases |s|
  {
    if s != [] {
      RunInert(p, s[..|s| - 1], maxX, maxY);
      OtherCharacter(p, s[|s| - 1], maxX, maxY);
    }
  }

  /** Facing north on a 5 x 5 lawn from (0, 0), "FFFF" ends at (0, 4). */
  lemma NorthFour()
    ensures Run(Position(0, 0, N), "FFFF", 5, 5) == Position(0, 4, N)
  {
    var p := Position(0, 0, N);
    RunSnoc(p, "", 'F', 5, 5);
    RunSnoc(p, "F", 'F', 5, 5);
    RunSnoc(p, "FF", 'F', 5, 5);
    RunSnoc(p, "FFF", 'F', 5, 5);
    assert "" + "F" == "F" && "F" + "F" == "FF" && "FF" + "F" == "FFF" && "FFF" + "F" == "FFFF";
  }
}

