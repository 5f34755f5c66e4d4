/** `processFileContent`: the whole pipeline from the text of a file to
    the final positions of its mowers, in file order. */
module App {
  import opened Wrappers
  import opened Strings
  import opened Engine
  import opened Parser

  /** The two ways the whole input is rejected. */
  datatype Fatal = EmptyFile | InvalidLawn

  /** `content.trim().split('\n')`. */
  function Lines(content: string): seq<string> {
    Split(Trim(content), '\n')
  }

  /** `mowers.map(mower => executeInstructions(mower, maxX, maxY))`: one
      final position per mower, in the same order. */
  function ExecuteAll(mowers: seq<Mower>, lawn: Lawn): (r: seq<Position>)
    ensures |r| == |mowers|
    ensures forall k :: 0 <= k < |r| ==>
      r[k] == Run(Start(mowers[k]), mowers[k].instructions, lawn.maxX, lawn.maxY)
  {
    if mowers == [] then []
    else [Run(Start(mowers[0]), mowers[0].instructions, lawn.maxX, lawn.maxY)] + ExecuteAll(mowers[1..], lawn)
  }

  /** The pipeline. The "empty file" check on the number of lines can
      never fire, because splitting always yields at least one line. */
  function ProcessFileContent(content: string): (r: Result<seq<Position>, Fatal>)
    ensures r != Failure(EmptyFile)
  {
    var lines := Lines(content);
    if |lines| < 1 then Failure(EmptyFile)
    else
      var dimensions := ParseDimensions(Trim(lines[0]));
      if dimensions.None? then Failure(InvalidLawn)
      else Success(ExecuteAll(Mowers(lines[1..]), dimensions.value))
  }

  /** A bad lawn line rejects the whole input, whatever follows it; a good
      one yields exactly one final position per accepted mower record, in
      input order. */
  lemma Outcome(content: string)
    ensures var lines := Lines(content);
      var dimensions := ParseDimensions(Trim(lines[0]));
      && (ProcessFileContent(content).Failure? <==> dimensions.None?)
      && (dimensions.Some? ==>
            var mowers := Mowers(lines[1..]);
            var results := ProcessFileContent(content).value;
            |results| == |mowers|
            && forall k :: 0 <= k < |results| ==>
                 results[k] == Run(Start(mowers[k]), mowers[k].instructions, dimensions.value.maxX, dimensions.value.maxY))
  {
  }

  /** Empty or white-space-only content is rejected as an invalid lawn:
      its single line is empty and does not parse. */
  lemma EmptyContent(content: string)
    requires AllWhitespace(content)
    ensures ProcessFileContent(content) == Failure(InvalidLawn)
  {
    TrimEmpty(content);
    FindAbsent("", '\n');
    assert Lines(content) == [""];
    TrimNoop("");
    DimensionsSpec("");
  }

  /** Every mower that starts on the lawn ends on it. */
  lemma ResultsOnLawn(content: string, k: nat)
    requires ProcessFileContent(content).Success?
    requires k < |ProcessFileContent(content).value|
    requires var lines := Lines(content);
      var lawn := ParseDimensions(Trim(lines[0])).value;
      InBounds(Start(Mowers(lines[1..])[k]), lawn.maxX, lawn.maxY)
    ensures var lawn := ParseDimensions(Trim(Lines(content)[0])).value;
      InBounds(ProcessFileContent(content).value[k], lawn.maxX, lawn.maxY)
  {
    var lines := Lines(content);
    var lawn := ParseDimensions(Trim(lines[0])).value;
    var m := Mowers(lines[1..])[k];
    RunInBounds(Start(m), m.instructions, lawn.maxX, lawn.maxY);
    assert m.instructions[..|m.instructions|] == m.instructions;
  }

  /** The last character of a join is that of the last piece. */
  lemma {:induction false} JoinLast(parts: seq<string>, sep: char)
    requires |parts| >= 1 && parts[|parts| - 1] != []
    ensures var s := Join(parts, sep);
      s != [] && s[|s| - 1] == parts[|parts| - 1][|parts[|parts| - 1]| - 1]
    decreases |parts|
  {
    if |parts| > 1 {
      var rest := parts[1..];
      JoinLast(rest, sep);
      assert rest[|rest| - 1] == parts[|parts| - 1];
    }
  }

  /** The lines of a file written as lines joined by newlines, with no
      white space at its two ends, are those lines. */
  lemma LinesOfJoin(lines: seq<string>)
    requires |lines| >= 1 && lines[0] != [] && lines[|lines| - 1] != []
    requires forall k :: 0 <= k < |lines| ==> '\n' !in lines[k]
    requires !IsWhitespace(lines[0][0]) && !IsWhitespace(lines[|lines| - 1][|lines[|lines| - 1]| - 1])
    ensures Lines(Join(lines, '\n')) == lines
  {
    JoinLast(lines, '\n');
    var s := Join(lines, '\n');
    assert s[0] == lines[0][0] by {
      if |lines| > 1 { assert s == lines[0] + ([ '\n' ] + Join(lines[1..], '\n')); }
    }
    TrimNoop(Join(lines, '\n'));
    SplitJoin(lines, '\n');
  }

  /** A well-formed record: digits, a space, an orientation letter, then a
      line of instructions, both without surrounding white space. */
  lemma WellFormedRecord(x: char, y: char, o: char, instructions: string)
    requires IsDigit(x) && IsDigit(y) && OrientationOf(o).Some?
    requires instructions != [] && !IsWhitespace(instructions[0]) && !IsWhitespace(instructions[|instructions| - 1])
    ensures Mowers([[x, y, ' ', o], instructions])
      == [Mower(DigitValue(x), DigitValue(y), OrientationOf(o).value, instructions)]
  {
    var p := [x, y, ' ', o];
    TrimNoop(p);
    TrimNoop(instructions);
    assert SecondLine([p, instructions]) == Some(instructions);
    assert Record(p, Some(instructions))
      == Some(Mower(DigitValue(x), DigitValue(y), OrientationOf(o).value, instructions));
    assert [p, instructions][2..] == [];
  }

  /** The file of the first two worked examples: lawn "55", mower "12 N"
      with "FFRFF" and mower "33 E" with "FFRFFRFRR" end at (3, 4, E) and
      (4, 1, E), in that order. */
  lemma ExampleFile()
    ensures ProcessFileContent("55\n12 N\nFFRFF\n33 E\nFFRFFRFRR") == Success([Position(3, 4, E), Position(4, 1, E)])
  {
    var content := "55\n12 N\nFFRFF\n33 E\nFFRFFRFRR";
    ExampleFileLines();
    FiveByFive();
    ExampleFileMowers();
    var mowers := [Mower(1, 2, N, "FFRFF"), Mower(3, 3, E, "FFRFFRFRR")];
    ExampleOne();
    ExampleTwo();
    ExecutePair(mowers, Lawn(5, 5));
    Processed(content, Lawn(5, 5), mowers);
  }

  /** The pipeline in three steps: the lines, the lawn, the mowers. */
  lemma Processed(content: string, lawn: Lawn, mowers: seq<Mower>)
    requires ParseDimensions(Trim(Lines(content)[0])) == Some(lawn)
    requires Mowers(Lines(content)[1..]) == mowers
    ensures ProcessFileContent(content) == Success(ExecuteAll(mowers, lawn))
  {
  }

  lemma ExecutePair(mowers: seq<Mower>, lawn: Lawn)
    requires |mowers| == 2
    ensures ExecuteAll(mowers, lawn)
      == [Run(Start(mowers[0]), mowers[0].instructions, lawn.maxX, lawn.maxY),
          Run(Start(mowers[1]), mowers[1].instructions, lawn.maxX, lawn.maxY)]
  {
  }

  lemma PositionLineAsInstructions()
    ensures Run(Position(3, 3, E), "00 N", 5, 5) == Position(3, 3, E)
  {
    RunInert(Position(3, 3, E), "00 N", 5, 5);
  }

  lemma StartOffLawnMowers()
    ensures Mowers(["11", "55 N", "F"][1..]) == [Mower(5, 5, N, "F")]
  {
    assert ["11", "55 N", "F"][1..] == ["55 N", "F"];
    WellFormedRecord('5', '5', 'N', "F");
  }

  lemma SingleForward()
    ensures ExecuteAll([Mower(5, 5, N, "F")], Lawn(1, 1)) == [Position(5, 5, N)]
  {
    var m := Mower(5, 5, N, "F");
    RunSnoc(Start(m), "", 'F', 1, 1);
    assert "" + "F" == "F";
    assert ExecuteAll([m], Lawn(1, 1)) == [Run(Start(m), "F", 1, 1)];
  }

  lemma BlankLineLines()
    ensures Lines("55\n12 N\nFFRFF\n33 E\n\n00 N\nFFFF") == ["55", "12 N", "FFRFF", "33 E", "", "00 N", "FFFF"]
  {
    var lines := ["55", "12 N", "FFRFF", "33 E", "", "00 N", "FFFF"];
    assert Join(lines, '\n') == "55\n12 N\nFFRFF\n33 E\n\n00 N\nFFFF";
    LinesOfJoin(lines);
  }

  lemma AbsentLineLines()
    ensures Lines("55\n12 N\nFFRFF\n33 E\n00 N\nFFFF") == ["55", "12 N", "FFRFF", "33 E", "00 N", "FFFF"]
  {
    var lines := ["55", "12 N", "FFRFF", "33 E", "00 N", "FFFF"];
    assert Join(lines, '\n') == "55\n12 N\nFFRFF\n33 E\n00 N\nFFFF";
    LinesOfJoin(lines);
  }

  lemma StartOffLawnLines()
    ensures Lines("11\n55 N\nF") == ["11", "55 N", "F"]
  {
    var lines := ["11", "55 N", "F"];
    assert Join(lines, '\n') == "11\n55 N\nF";
    LinesOfJoin(lines);
  }

  lemma FiveByFive()
    ensures ParseDimensions(Trim("55")) == Some(Lawn(5, 5))
  {
    TrimNoop("55");
    TwoDigitLawn('5', '5');
  }

  lemma OneByOne()
    ensures ParseDimensions(Trim("11")) == Some(Lawn(1, 1))
  {
    TrimNoop("11");
    TwoDigitLawn('1', '1');
  }

  lemma ExampleFileLines()
    ensures Lines("55\n12 N\nFFRFF\n33 E\nFFRFFRFRR") == ["55", "12 N", "FFRFF", "33 E", "FFRFFRFRR"]
  {
    var lines := ["55", "12 N", "FFRFF", "33 E", "FFRFFRFRR"];
    assert Join(lines, '\n') == "55\n12 N\nFFRFF\n33 E\nFFRFFRFRR";
    LinesOfJoin(lines);
  }

  lemma ExampleFileMowers()
    ensures Mowers(["55", "12 N", "FFRFF", "33 E", "FFRFFRFRR"][1..])
      == [Mower(1, 2, N, "FFRFF"), Mower(3, 3, E, "FFRFFRFRR")]
  {
    WellFormedRecord('1', '2', 'N', "FFRFF");
    WellFormedRecord('3', '3', 'E', "FFRFFRFRR");
    assert ["55", "12 N", "FFRFF", "33 E", "FFRFFRFRR"][1..] == ["12 N", "FFRFF"] + ["33 E", "FFRFFRFRR"];
    MowersAppend(["12 N", "FFRFF"], ["33 E", "FFRFFRFRR"]);
  }

  /** A malformed middle record whose instruction line is blank is skipped
      and the next record is still read: only the first and third mowers
      appear, in that order. */
  lemma ExampleBlankInstructionLine()
    ensures ProcessFileContent("55\n12 N\nFFRFF\n33 E\n\n00 N\nFFFF") == Success([Position(3, 4, E), Position(0, 4, N)])
  {
    var content := "55\n12 N\nFFRFF\n33 E\n\n00 N\nFFFF";
    BlankLineLines();
    FiveByFive();
    BlankLineMowers();
    var mowers := [Mower(1, 2, N, "FFRFF"), Mower(0, 0, N, "FFFF")];
    ExampleOne();
    NorthFour();
    ExecutePair(mowers, Lawn(5, 5));
    Processed(content, Lawn(5, 5), mowers);
  }

  lemma BlankLineMowers()
    ensures Mowers(["55", "12 N", "FFRFF", "33 E", "", "00 N", "FFFF"][1..])
      == [Mower(1, 2, N, "FFRFF"), Mower(0, 0, N, "FFFF")]
  {
    var lines := ["55", "12 N", "FFRFF", "33 E", "", "00 N", "FFFF"];
    var first, second, third := ["12 N", "FFRFF"], ["33 E", ""], ["00 N", "FFFF"];
    assert lines[1..] == first + (second + third);
    MowersAppend(first, second + third);
    MowersAppend(second, third);
    FirstRecord();
    BlankInstructions("33 E", "");
    NorthRecord();
  }

  /** When the middle record's instruction line is absent altogether, the
      pairing is by position, so the next position line becomes its
      instructions (all inert) and the last instruction line is left
      without a partner: the second mower stays at (3, 3, E) and the
      third is lost. */
  lemma ExampleAbsentInstructionLine()
    ensures ProcessFileContent("55\n12 N\nFFRFF\n33 E\n00 N\nFFFF") == Success([Position(3, 4, E), Position(3, 3, E)])
  {
    var content := "55\n12 N\nFFRFF\n33 E\n00 N\nFFFF";
    AbsentLineLines();
    FiveByFive();
    AbsentLineMowers();
    var mowers := [Mower(1, 2, N, "FFRFF"), Mower(3, 3, E, "00 N")];
    ExampleOne();
    PositionLineAsInstructions();
    ExecutePair(mowers, Lawn(5, 5));
    Processed(content, Lawn(5, 5), mowers);
  }

  lemma AbsentLineMowers()
    ensures Mowers(["55", "12 N", "FFRFF", "33 E", "00 N", "FFFF"][1..])
      == [Mower(1, 2, N, "FFRFF"), Mower(3, 3, E, "00 N")]
  {
    var lines := ["55", "12 N", "FFRFF", "33 E", "00 N", "FFFF"];
    var first, second := ["12 N", "FFRFF"], ["33 E", "00 N"];
    assert lines[1..] == (first + second) + ["FFFF"];
    TrailingLine(first + second, "FFFF");
    MowersAppend(first, second);
    FirstRecord();
    RecordTakingPositionLine();
  }

  lemma FirstRecord()
    ensures Mowers(["12 N", "FFRFF"]) == [Mower(1, 2, N, "FFRFF")]
  {
    WellFormedRecord('1', '2', 'N', "FFRFF");
  }

  lemma RecordTakingPositionLine()
    ensures Mowers(["33 E", "00 N"]) == [Mower(3, 3, E, "00 N")]
  {
    WellFormedRecord('3', '3', 'E', "00 N");
  }

  lemma NorthRecord()
    ensures Mowers(["00 N", "FFFF"]) == [Mower(0, 0, N, "FFFF")]
  {
    WellFormedRecord('0', '0', 'N', "FFFF");
  }

  /** The starting pose is not checked against the lawn: on a 1 x 1 lawn a
      mower declared at (5, 5) is simulated from there and ends off the
      lawn. */
  lemma ExampleStartOffLawn()
    ensures ProcessFileContent("11\n55 N\nF") == Success([Position(5, 5, N)])
    ensures !InBounds(Position(5, 5, N), 1, 1)
  {
    var content := "11\n55 N\nF";
    StartOffLawnLines();
    OneByOne();
    var m := Mower(5, 5, N, "F");
    StartOffLawnMowers();
    SingleForward();
    Processed(content, Lawn(1, 1), [m]);
  }
}

