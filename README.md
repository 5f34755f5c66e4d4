# Mower pipeline model

This project models the core of a small lawn-mower simulator. The simulator is a
React page, `src/App.tsx`. It reads a text file and turns it into the final
position of every mower. The file is:

```
<maxX><maxY>
<x><y> <orientation>
<instructions>
...
```

The core has three parts and the glue that joins them:

- **Lawn line** (`parseDimensions`). `maxX` is `parseInt` of everything but the
  last character of the trimmed first line. `maxY` is `parseInt` of the last
  character. If either is `NaN`, there is no lawn. This is `Parser.ParseDimensions`.
- **Mower records** (`splitMowers`). A loop walks the remaining lines two at a
  time, at the fixed offsets (0, 1), (2, 3), and so on. A bad pair is skipped
  and later pairs are still read. This is the method `Parser.SplitMowers`. It is
  proved equal to the recursive specification `Parser.Mowers`.
- **Simulation** (`executeInstructions` with its `moveForward` closure). It
  replays the instruction string on local `x`, `y` and a direction index. This is
  the method `Engine.ExecuteInstructions`. It is proved equal to `Engine.Run`, a
  left-to-right fold of `Engine.Step`.
- **Glue** (`processFileContent`). It trims the content, splits it on `'\n'`,
  rejects the input when the lawn line is bad, and otherwise maps the simulation
  over the parsed mowers in order. This is the function `App.ProcessFileContent`.
  Its result is a `Result`: success carries the list of positions, and failure
  carries the reason.

The JavaScript primitives the core relies on are modelled in `Strings`:

- `trim`, over the ECMAScript white-space and line-terminator characters;
- `split` with a one-character separator, together with its inverse `Join`;
- `parseInt(s, 10)`. It skips leading white space, takes an optional sign, then
  the longest run of decimal digits. With no digit it gives `None` (`NaN`).

Some behaviours of the code are easy to misread; the model keeps them as
written:

- **Empty content.** The `lines.length < 1` test (src/App.tsx:37) never fires,
  because `split` always returns at least one piece. Empty or white-space content
  therefore fails as an invalid lawn (src/App.tsx:41-45; `App.ProcessFileContent`,
  `App.EmptyContent`).
- **Short position lines.** A position line of exactly 3 characters passes the
  length test (src/App.tsx:56). It is then rejected, because its character 3 is
  `undefined` and is not one of N, E, S, W (src/App.tsx:63). So accepted lines
  have at least 4 characters (`Parser.RecordAcceptance`,
  `Parser.PositionLineShapes`).
- **Lawn sizes.** `parseInt` (src/App.tsx:30) accepts a sign and reads a digit
  prefix, so `"-55"` gives maxX = -5 and `"5a5"` gives maxX = 5
  (`Parser.LawnLine`).
- **Missing lines.** Records are paired by index (src/App.tsx:53-55). A blank
  instruction line drops only its own mower. An instruction line that is absent
  altogether makes the next position line the instructions, and every later pair
  shifts (`App.ExampleBlankInstructionLine`, `App.ExampleAbsentInstructionLine`).
- **Start pose.** The start pose is never checked against the lawn
  (src/App.tsx:67). A mower stays on the lawn only when it starts on it
  (`Engine.RunInBounds`, `App.ExampleStartOffLawn`).

The mower record is a value. `executeInstructions` works on local copies and
returns a new position, so the model's `Mower` is never changed.

## Model

| member | source | states |
|---|---|---|
| `Strings.TrimSpec` | src/App.tsx:36 | `trim` returns a contiguous slice of its input that neither starts nor ends with white space, and everything cut off around it is white space |
| `Strings.TrimEmpty` | src/App.tsx:36 | `trim` gives the empty string exactly when the input is all white space |
| `Strings.TrimIdempotent` | src/App.tsx:36 | `trim` is idempotent: trimming a trimmed string changes nothing |
| `Strings.TrimPadded` | src/App.tsx:54-55 | a line with one white-space character on each side trims to its content |
| `Strings.Split` | src/App.tsx:36 | `split('\n')` returns at least one piece, no piece holds a newline, and joining the pieces with newlines gives the input back |
| `Strings.SplitJoin` | src/App.tsx:36 | splitting a newline-join of newline-free lines gives those lines back |
| `Strings.ParseIntChar` | src/App.tsx:61-62 | `parseInt` of one character succeeds exactly on a decimal digit and then gives that digit's value |
| `Strings.DecimalRoundTrip` | src/App.tsx:30 | `parseInt` reads back any integer written in decimal, whatever non-digit text follows it (prefix parsing) |
| `Strings.ParseIntEmpty` | src/App.tsx:30-31 | `parseInt` of the empty string is `NaN` |
| `Engine.IndexOf` | src/App.tsx:73-74 | the index of an orientation is below 4 and `directions` at that index is the orientation |
| `Engine.IndexOfDirections` | src/App.tsx:73-74 | `indexOf` inverts indexing into `directions` |
| `Engine.ExecuteInstructions` | src/App.tsx:72-111 | the loop over the instruction characters returns exactly the fold `Run` of `Step` from the mower's start pose |
| `Engine.TurnTable` | src/App.tsx:96-101 | `R` walks N, E, S, W forwards and `L` walks it backwards |
| `Engine.RotationLaws` | src/App.tsx:96-101 | left and right undo each other, four turns one way restore the orientation, one left equals three rights |
| `Engine.RunLeft` | src/App.tsx:96-98 | an `L` turns the pose reached so far one step left and changes nothing else |
| `Engine.RunRight` | src/App.tsx:99-101 | an `R` turns the pose reached so far one step right and changes nothing else |
| `Engine.TurnsCancel` | src/App.tsx:96-101 | the instructions "LR" and "RL" leave every pose unchanged |
| `Engine.FourLefts` | src/App.tsx:96-98 | "LLLL" leaves every pose unchanged |
| `Engine.FourRights` | src/App.tsx:99-101 | "RRRR" leaves every pose unchanged |
| `Engine.LeftIsThreeRights` | src/App.tsx:96-101 | "L" has the same effect as "RRR" on every pose |
| `Engine.TwoLeftsTwoRights` | src/App.tsx:96-101 | "LLRR" leaves every pose unchanged |
| `Engine.RunSnoc` | src/App.tsx:94-109 | the characters are applied left to right, so the last one acts last |
| `Engine.RunFirst` | src/App.tsx:94-109 | the first character acts first, on the starting pose |
| `Engine.ForwardMove` | src/App.tsx:75-91 | `F` keeps the orientation, changes at most one coordinate, moves exactly one unit in the facing direction, and is a no-op exactly on the faced edge |
| `Engine.OtherCharacter` | src/App.tsx:105-107 | any character other than L, R, F leaves the pose unchanged |
| `Engine.RunInert` | src/App.tsx:105-107 | an instruction string with no L, R or F leaves the pose unchanged |
| `Engine.StepInBounds` | src/App.tsx:78-87 | one instruction never takes a mower off the lawn |
| `Engine.RunInBounds` | src/App.tsx:78-87 | a mower that starts on the lawn is on the lawn after every prefix of its instructions |
| `Engine.RunAppend` | src/App.tsx:94-110 | running `s1 + s2` is running `s2` from where `s1` ends, and the empty string returns the start pose |
| `Engine.ExampleOne` | src/App.tsx:72-111 | on a 5 x 5 lawn, (1, 2, N) with "FFRFF" ends at (3, 4, E) |
| `Engine.ExampleTwo` | src/App.tsx:72-111 | on a 5 x 5 lawn, (3, 3, E) with "FFRFFRFRR" ends at (4, 1, E) |
| `Engine.ExampleTwoFirstHalf` | src/App.tsx:72-111 | on a 5 x 5 lawn, (3, 3, E) with "FFRFF" ends at (5, 1, S), on the east edge |
| `Engine.ExampleTwoSecondHalf` | src/App.tsx:72-111 | on a 5 x 5 lawn, (5, 1, S) with "RFRR" ends at (4, 1, E) |
| `Engine.EastEdge` | src/App.tsx:80-82 | on a 5 x 5 lawn, (5, 3, E) with "F" stays at (5, 3, E): the move past the east edge is absorbed |
| `Engine.ExampleThree` | src/App.tsx:78-87 | on a 0 x 0 lawn, (0, 0, N) with "FFFF" stays at (0, 0, N) |
| `Engine.NorthFour` | src/App.tsx:77-79 | on a 5 x 5 lawn, (0, 0, N) with "FFFF" ends at (0, 4, N) |
| `Parser.DimensionsSpec` | src/App.tsx:29-33 | there is a lawn exactly when the line is non-empty, all but its last character parses as an integer and its last character is a digit; the lawn is those two numbers |
| `Parser.LawnLine` | src/App.tsx:29-33 | a number, then text not starting with a digit, then a digit gives that number as maxX and that digit as maxY ("-55" gives -5, "5a5" gives 5) |
| `Parser.TwoDigitLawn` | src/App.tsx:29-33 | a two-digit lawn line `ab` gives maxX = a and maxY = b |
| `Parser.TwoStageChecks` | src/App.tsx:56-66 | the two checks of `splitMowers`, in the order it makes them, accept exactly the records `Record` accepts, with the pose read from characters 0, 1 and 3 |
| `Parser.SplitMowers` | src/App.tsx:51-70 | the loop with its `continue`s returns exactly `Mowers`, the accepted records in input order |
| `Parser.MowersShape` | src/App.tsx:51-70 | at most one mower per pair of lines, and every mower has digit coordinates and non-empty instructions |
| `Parser.MowersDrop` | src/App.tsx:53-55 | the lines from offset `i` yield the record at `i` followed by what the lines from `i + 2` yield |
| `Parser.MowersAppend` | src/App.tsx:53 | a block of lines of even length parses on its own, whatever follows it |
| `Parser.MowerAt` | src/App.tsx:53-58 | the pair at offsets (2k, 2k + 1) contributes its own mower or nothing, and never shifts the records before or after it |
| `Parser.TrailingLine` | src/App.tsx:55-56 | a position line with no instruction line after it at the end of the input yields no mower |
| `Parser.BlankInstructions` | src/App.tsx:55-58 | a pair whose instruction line is blank yields no mower |
| `Parser.RecordAcceptance` | src/App.tsx:54-67 | a pair is accepted exactly when the trimmed position line has digits at 0 and 1 and N, E, S or W at 3 and the trimmed instruction line is non-empty; the mower holds those values and the raw trimmed instructions |
| `Parser.PositionLineShapes` | src/App.tsx:56-63 | "12N" is rejected although it passes the length test; any separator at index 2 and any tail after index 3 are accepted; instructions are not validated |
| `App.ExecuteAll` | src/App.tsx:47 | one final position per mower, the k-th being the simulation of the k-th mower |
| `App.ProcessFileContent` | src/App.tsx:35-49 | the pipeline never fails with the "empty file" error: that branch is dead |
| `App.Outcome` | src/App.tsx:41-48 | the input fails exactly when the lawn line does not parse; otherwise there is one final position per accepted record, in input order |
| `App.EmptyContent` | src/App.tsx:36-45 | empty or white-space-only content fails as an invalid lawn |
| `App.ResultsOnLawn` | src/App.tsx:46-47 | every mower that starts on the lawn ends on it |
| `App.LinesOfJoin` | src/App.tsx:36 | a file written as newline-joined lines, with no white space at its two ends, splits back into those lines |
| `App.WellFormedRecord` | src/App.tsx:54-67 | a record "xy O" with its instruction line yields the mower (x, y, O) with those instructions |
| `App.ExampleFile` | src/App.tsx:35-49 | the file "55 / 12 N / FFRFF / 33 E / FFRFFRFRR" gives (3, 4, E) then (4, 1, E) |
| `App.ExampleBlankInstructionLine` | src/App.tsx:53-58 | a middle record with a blank instruction line is skipped and the next record is still read |
| `App.ExampleAbsentInstructionLine` | src/App.tsx:53-58 | a middle record with no instruction line takes the next position line as its instructions, and the last mower is lost |
| `App.ExampleStartOffLawn` | src/App.tsx:67 | a start pose off the lawn is not rejected, and the mower ends off the lawn |

## Left out

- The React component, `useState` and `setResult`, the file picker with its
  `FileReader`, the JSX list and `keyGen` are I/O and display. The model returns
  the results instead of storing them. On a failed parse the page keeps showing
  the previous results; that is not modelled.
- The `console.error` diagnostics carry no results and are not modelled. The two
  fatal reasons are kept as `App.Fatal`.
- JavaScript strings are UTF-16 code units. The model uses Unicode characters.
  Surrogate pairs and `trim`'s exact Unicode table beyond the listed white-space
  characters are not modelled.
- `parseInt` returns a floating-point number. The model uses unbounded
  integers, so precision loss on very long digit runs is not modelled. `-0` is
  modelled as 0.
