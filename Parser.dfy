/** The text parser: the lawn line and the mower records that follow it. */
module Parser {
  import opened Wrappers
  import opened Strings
  import opened Engine

  /** The inclusive grid `[0, maxX] x [0, maxY]`. */
  datatype Lawn = Lawn(maxX: int, maxY: int)

  /** `s.slice(0, -1)`: all but the last character. */
  function AllButLast(s: string): string {
    if s == [] then [] else s[..|s| - 1]
  }

  /** `s.slice(-1)`: the last character, as a string. */
  function LastOf(s: string): string {
    if s == [] then [] else s[|s| - 1..]
  }

  /** `parseDimensions`: `maxX` is `parseInt` of everything but the last
      character, `maxY` is `parseInt` of the last character; if either is
      `NaN` there is no lawn. */
  function ParseDimensions(dimensions: string): Option<Lawn> {
    var maxX := ParseInt(AllButLast(dimensions));
    var maxY := ParseInt(LastOf(dimensions));
    if maxX.None? || maxY.None? then None else Some(Lawn(maxX.value, maxY.value))
  }

  /** What `parseDimensions` yields: a lawn exactly when the line is not
      empty, everything but its last character parses as an integer and
      its last character is a digit; the lawn is those two numbers. */
  lemma DimensionsSpec(dimensions: string)
    ensures ParseDimensions(dimensions).Some? <==>
      dimensions != [] && ParseInt(dimensions[..|dimensions| - 1]).Some? && IsDigit(dimensions[|dimensions| - 1])
    ensures ParseDimensions(dimensions).Some? ==>
      ParseDimensions(dimensions).value
        == Lawn(ParseInt(dimensions[..|dimensions| - 1]).value, DigitValue(dimensions[|dimensions| - 1]))
  {
    if dimensions == [] {
      ParseIntEmpty();
    } else {
      var last := dimensions[|dimensions| - 1];
      assert AllButLast(dimensions) == dimensions[..|dimensions| - 1];
      assert LastOf(dimensions) == [last];
      ParseIntChar(last);
      var maxX := ParseInt(dimensions[..|dimensions| - 1]);
      var maxY := ParseInt([last]);
      assert ParseDimensions(dimensions)
        == if maxX.None? || maxY.None? then None else Some(Lawn(maxX.value, maxY.value));
    }
  }

  /** A lawn line written as a number, then anything that does not start
      with a digit, then one digit: `maxX` is the number and `maxY` the
      digit. So "55" gives (5, 5), "5a5" gives (5, 5), "-55" gives (-5, 5)
      and "125" gives (12, 5). */
  lemma LawnLine(maxX: int, junk: string, maxY: nat)
    requires maxY <= 9
    requires junk == [] || !IsDigit(junk[0])
    ensures ParseDimensions(Decimal(maxX) + junk + [DigitChar(maxY)]) == Some(Lawn(maxX, maxY))
  {
    var s := Decimal(maxX) + junk + [DigitChar(maxY)];
    assert s[..|s| - 1] == Decimal(maxX) + junk;
    DecimalRoundTrip(maxX, junk);
    DimensionsSpec(s);
  }

  /** A lawn line of two digits `ab` gives maxX = a and maxY = b. */
  lemma TwoDigitLawn(a: char, b: char)
    requires IsDigit(a) && IsDigit(b)
    ensures ParseDimensions([a, b]) == Some(Lawn(DigitValue(a), DigitValue(b)))
  {
    assert [a, b][..1] == [a];
    ParseIntChar(a);
    DimensionsSpec([a, b]);
  }

  /** `['N', 'E', 'S', 'W'].includes(c)`, as the orientation `c` names. */
  function OrientationOf(c: char): Option<Orientation> {
    match c
    case 'N' => Some(N)
    case 'E' => Some(E)
    case 'S' => Some(S)
    case 'W' => Some(W)
    case _ => None
  }

  /** One record, from its trimmed position line and, unless the input
      has run out, its trimmed instruction line. It is accepted when the
      position line has a digit at 0 and at 1 and an orientation letter at
      3, and the instruction line is not empty; the character at 2 and those
      after 3 are not looked at, nor are the instructions. */
  function Record(position: string, instructions: Option<string>): Option<Mower> {
    if instructions.None? then None
    else if |position| >= 4 && instructions.value != [] && IsDigit(position[0]) && IsDigit(position[1])
         && OrientationOf(position[3]).Some?
    then Some(Mower(DigitValue(position[0]), DigitValue(position[1]), OrientationOf(position[3]).value, instructions.value))
    else None
  }

  function Found(record: Option<Mower>): seq<Mower> {
    if record.Some? then [record.value] else []
  }

  /** The instruction line that goes with the position line at the front of
      `lines`, trimmed, if there is one. */
  function SecondLine(lines: seq<string>): Option<string>
    requires lines != []
  {
    if |lines| >= 2 then Some(Trim(lines[1])) else None
  }

  /** The mowers of the lines after the lawn line: records at the fixed
      offsets (0, 1), (2, 3), ... in order, the rejected ones left out. */
  function Mowers(lines: seq<string>): seq<Mower>
    decreases |lines|
  {
    if lines == [] then []
    else
      var rest := if |lines| >= 2 then lines[2..] else [];
      Found(Record(Trim(lines[0]), SecondLine(lines))) + Mowers(rest)
  }

  /** At most one mower per pair of lines; every mower starts on a digit
      coordinate and has a non-empty instruction string. */
  lemma {:induction false} MowersShape(lines: seq<string>)
    ensures |Mowers(lines)| <= (|lines| + 1) / 2
    ensures forall m :: m in Mowers(lines) ==> 0 <= m.x <= 9 && 0 <= m.y <= 9 && m.instructions != []
    decreases |lines|
  {
    if |lines| >= 2 {
      MowersShape(lines[2..]);
    }
  }

  /** `lines[i..]`, or nothing once `i` is past the end. */
  function Drop(lines: seq<string>, i: nat): seq<string> {
    if i <= |lines| then lines[i..] else []
  }

  /** The record at offset `i` of `lines`. */
  function RecordAt(lines: seq<string>, i: nat): Option<Mower>
    requires i < |lines|
  {
    Record(Trim(lines[i]), if i + 1 < |lines| then Some(Trim(lines[i + 1])) else None)
  }

  lemma MowersDrop(lines: seq<string>, i: nat)
    requires i < |lines|
    ensures Mowers(Drop(lines, i)) == Found(RecordAt(lines, i)) + Mowers(Drop(lines, i + 2))
  {
    var rest := Drop(lines, i);
    assert rest[0] == lines[i];
    if i + 1 < |lines| {
      assert rest[1] == lines[i + 1];
      assert rest[2..] == Drop(lines, i + 2);
    }
  }

  lemma Associative<T>(x: seq<T>, y: seq<T>, z: seq<T>)
    ensures x + (y + z) == x + y + z
  {
  }

  /** One turn of the loop in `SplitMowers`: the record at `i` joins the
      mowers found so far, and the lines from `i + 2` on are left. */
  lemma MowersStep(found: seq<Mower>, lines: seq<string>, i: nat)
    requires i < |lines|
    requires found + Mowers(Drop(lines, i)) == Mowers(lines)
    ensures found + Found(RecordAt(lines, i)) + Mowers(Drop(lines, i + 2)) == Mowers(lines)
  {
    MowersDrop(lines, i);
    Associative(found, Found(RecordAt(lines, i)), Mowers(Drop(lines, i + 2)));
  }

  /** The two checks of `splitMowers` (src/App.tsx:56 and :63), in the
      order it makes them, accept exactly the records `Record` accepts. */
  lemma TwoStageChecks(positionLine: string, instructions: Option<string>)
    ensures var rejectedEarly := positionLine == [] || instructions.None? || instructions.value == [] || |positionLine| < 3;
      && (rejectedEarly ==> Record(positionLine, instructions) == None)
      && (!rejectedEarly ==>
            var x := ParseInt([positionLine[0]]);
            var y := ParseInt([positionLine[1]]);
            var orientation := if |positionLine| > 3 then OrientationOf(positionLine[3]) else None;
            Record(positionLine, instructions)
              == if x.None? || y.None? || orientation.None? then None
                 else Some(Mower(x.value, y.value, orientation.value, instructions.value)))
  {
    if positionLine != [] && |positionLine| >= 2 {
      ParseIntChar(positionLine[0]);
      ParseIntChar(positionLine[1]);
    }
  }

  /** `splitMowers`: walks the lines two at a time, skips a pair whose
      position line or instruction line is missing or empty, whose position
      line is shorter than 3, whose coordinates are not numbers or whose
      orientation letter is not N, E, S or W, and collects the others. */
  method SplitMowers(lines: seq<string>) returns (mowers: seq<Mower>)
    ensures mowers == Mowers(lines)
  {
    mowers := [];
    var i := 0;
    while i < |lines|
      invariant 0 <= i <= |lines| + 1
      invariant mowers + Mowers(Drop(lines, i)) == Mowers(lines)
    {
      MowersStep(mowers, lines, i);
      var positionLine := Trim(lines[i]);
      var instructions := if i + 1 < |lines| then Some(Trim(lines[i + 1])) else None;
      TwoStageChecks(positionLine, instructions);
      assert RecordAt(lines, i) == Record(positionLine, instructions);
      if positionLine == [] || instructions.None? || instructions.value == [] || |positionLine| < 3 {
        assert mowers + Found(RecordAt(lines, i)) == mowers;
        i := i + 2;
        continue;
      }
      var x := ParseInt([positionLine[0]]);
      var y := ParseInt([positionLine[1]]);
      var orientation := if |positionLine| > 3 then OrientationOf(positionLine[3]) else None;
      if x.None? || y.None? || orientation.None? {
        assert mowers + Found(RecordAt(lines, i)) == mowers;
        i := i + 2;
        continue;
      }
      mowers := mowers + [Mower(x.value, y.value, orientation.value, instructions.value)];
      i := i + 2;
    }
    assert Drop(lines, 0) == lines;
  }

  /** Records sit at fixed offsets: a block of lines of even length parses
      on its own, whatever follows it. */
  lemma {:induction false} MowersAppend(a: seq<string>, b: seq<string>)
    requires |a| % 2 == 0
    ensures Mowers(a + b) == Mowers(a) + Mowers(b)
    decreases |a|
  {
    if a != [] {
      assert (a + b)[0] == a[0] && (a + b)[1] == a[1];
      assert (a + b)[2..] == a[2..] + b;
      MowersAppend(a[2..], b);
    } else {
      assert a + b == b;
    }
  }

  /** The pair at offsets (2k, 2k + 1) contributes its own mower, or
      nothing when rejected, and does not shift the records around it. */
  lemma MowerAt(a: seq<string>, positionLine: string, instructionLine: string, b: seq<string>)
    requires |a| % 2 == 0
    ensures Mowers(a + [positionLine, instructionLine] + b)
      == Mowers(a) + Mowers([positionLine, instructionLine]) + Mowers(b)
  {
    var pair := [positionLine, instructionLine];
    calc {
      Mowers(a + pair + b);
      { Associative(a, pair, b); }
      Mowers(a + (pair + b));
      { MowersAppend(a, pair + b); }
      Mowers(a) + Mowers(pair + b);
      { MowersAppend(pair, b); }
      Mowers(a) + (Mowers(pair) + Mowers(b));
      { Associative(Mowers(a), Mowers(pair), Mowers(b)); }
      Mowers(a) + Mowers(pair) + Mowers(b);
    }
  }

  /** A position line left without an instruction line at the end of the
      input yields no mower. */
  lemma TrailingLine(a: seq<string>, positionLine: string)
    requires |a| % 2 == 0
    ensures Mowers(a + [positionLine]) == Mowers(a)
  {
    MowersAppend(a, [positionLine]);
  }

  /** A pair whose instruction line is blank yields no mower, whatever its
      position line says. */
  lemma BlankInstructions(positionLine: string, instructionLine: string)
    requires AllWhitespace(instructionLine)
    ensures Mowers([positionLine, instructionLine]) == []
  {
    TrimEmpty(instructionLine);
    assert SecondLine([positionLine, instructionLine]) == Some([]);
    assert [positionLine, instructionLine][2..] == [];
  }

  /** What decides whether one record is accepted, and what it holds. */
  lemma RecordAcceptance(positionLine: string, instructionLine: string)
    ensures var p := Trim(positionLine);
      var q := Trim(instructionLine);
      var accepted := p != [] && q != [] && |p| >= 3 && IsDigit(p[0]) && IsDigit(p[1])
        && 3 < |p| && (p[3] == 'N' || p[3] == 'E' || p[3] == 'S' || p[3] == 'W');
      && (accepted <==> |Mowers([positionLine, instructionLine])| == 1)
      && (accepted ==>
            Mowers([positionLine, instructionLine]) == [Mower(DigitValue(p[0]), DigitValue(p[1]), OrientationOf(p[3]).value, q)])
      && (!accepted ==> Mowers([positionLine, instructionLine]) == [])
  {
    assert [positionLine, instructionLine][2..] == [];
  }

  /** Three trimmed records: a length-3 position line such as "12N"
      passes the length check but has no character at index 3, so it is
      rejected; the separator at index 2 may be any character; what follows
      index 3 is ignored, and so is what the instructions contain. */
  lemma PositionLineShapes()
    ensures Record("12N", Some("F")) == None
    ensures Record("12xN", Some("F")) == Some(Mower(1, 2, N, "F"))
    ensures Record("12 N extra", Some("F?")) == Some(Mower(1, 2, N, "F?"))
  {
  }
}
