# Mars rover simulator, modelled in Dafny

A model of the Node.js Mars rover simulator in `MarsRoverNodejs/app.js`. The simulator reads newline-separated
instruction text:

- line 0 is the plateau's maximum position, `x y`;
- each rover then has an initial-state line `x y D` and a line of action letters (`M` moves one grid step,
  `L` and `R` turn a quarter turn).

The simulator drives each rover through its actions. A move saturates the changed coordinate at `0`
and at the maximum, so a rover that starts on the plateau stays on it. Initial positions are not
checked. The output is a report of the rovers' final states, one
`x y D` line per rover, joined with CR LF.

The model has six modules:

| module | file | contents |
|---|---|---|
| `Rover` | `rover.dfy` | The records: `Position`, `Direction`, `Action`, `RoverState`, `RoverInstructions`, `Instructions`. `Result`, the outcome of a call that can throw, carries the source's exact error text. `Collect` is the meaning of a loop that pushes one value per round and that the first throw ends. |
| `Text` | `text.dfy` | The JavaScript built-ins the code leans on: `split` on one character, `join`, `parseInt` on decimal integer tokens, and the text of an integer in a string concatenation. |
| `Calculators` | `calculators.dfy` | `DirectionCalculator.turn`, `PositionCalculator.move`, `RoverStateCalculator.action`. These are pure functions. |
| `Parsers` | `parsers.dfy` | The plateau, initial-state and action-line parsers, and the instruction parser. The two looping parsers are methods, each proved equal to a recursive specification function. The specification functions have their own lemmas: how each result is built, which error comes first, and round trips through a renderer. |
| `Controller` | `controller.dfy` | `RoverController.run`: its two nested loops are methods, proved equal to a left fold (`Execute`) and to `Collect`. |
| `Examples` | `examples.dfy` | The test cases of `MarsRoverNodejs/app.tests.js` as lemmas, including the two-rover sample. |

Directions and actions are closed datatypes.

- `Direction` has an `Other(token)` case. The initial-state parser copies the third field verbatim, and a
  heading outside the compass only fails once a turn meets it. A missing third field is JavaScript's
  `undefined`. It prints, and appears in error messages, exactly like the string `"undefined"`, so the
  model carries it as that token.
- `Action` has an `Unsupported(token)` case. It reaches the `Action not supported:` branch of `turn`, which
  the parser itself never produces.

Thrown errors are `Err` values with the source's messages. The two "Action not supported" texts differ:
`turn` writes no space after the colon and the action parser writes one. The model keeps both.

Where the code does something surprising, the model follows the code:

- A non-integer coordinate does not make the code throw. `parseInt` reads the leading digits and ignores
  the rest (`"1.5"` gives 1); it returns `NaN` only when there are none. The model makes integer tokens
  a precondition instead (see "Left out").
- Left and right turns undo each other only on compass headings. On any other heading `turn` throws
  (app.js:54-55, 68-69), so `Calculators.LeftRightInverse` requires a compass heading.
- `move` outside the plateau is not a clamp. It takes `min(max.x, x + 1)` and the like on the one changed
  coordinate only. For example, a rover east of the plateau moving east jumps back to `max.x`.
  `Calculators.Move` states the code's formula. The saturation law is proved only for positions on the
  plateau (`Calculators.MoveIsClampedStep`).

Functions of the model and the source functions they compute:

- `Parsers.ParsePlateauMaxPosition` is `PositionParser.parsePlateauMaxPosition` (app.js:144-148).
- `Parsers.ParseInitialState` is `RoverInitialStateParser.parse` (app.js:172-177).
- `Parsers.ParseActionChar` is `RoverActionParser.parseActionChar` (app.js:160-168).
- `Parsers.ActionsOf` and the method `Parsers.ParseActions` are `RoverActionParser.parse` (app.js:152-158).
- `Parsers.InstructionsOf` and the method `Parsers.ParseInstructions` are `InstructionParser.parse` (app.js:127-139).
- `Controller.Execute` and the method `Controller.Drive` are the inner loop of `run` (app.js:195-199).
- `Parsers.FormatState` is the `map` callback of `run` (app.js:203-204), and `Controller.Report` is its `map` and `join` (app.js:203-205).
- `Controller.RunResult` and the method `Controller.Run` are `RoverController.run` (app.js:188-206).

Their properties are stated by the lemmas in the table below.

## Model

| member | source | states |
|---|---|---|
| Rover.DirectionOf | MarsRoverNodejs/app.js:14-19 | The heading a letter names prints back as that letter; it is a compass heading exactly when the letter is one of N, E, S, W. |
| Rover.DirectionOfLetter | MarsRoverNodejs/app.js:14-19 | Reading the letter of a heading the parser can produce gives back that heading. |
| Rover.Collect | MarsRoverNodejs/app.js:133-136 | A loop that pushes one value per round returns one value per round when no round throws. |
| Rover.CollectMeaning | MarsRoverNodejs/app.js:192-200 | Such a loop gets through exactly when every round does. It then returns round `k`'s value at index `k`. Otherwise it fails with the error of the first round that throws. |
| Rover.CollectStep | MarsRoverNodejs/app.js:133-136 | One more round appends that round's value, unless an earlier round or this one throws. |
| Rover.CollectErrorPersists | MarsRoverNodejs/app.js:192-200 | A throw in some round is the outcome of the whole loop. |
| Text.Split | MarsRoverNodejs/app.js:128 | `split` always gives at least one piece. |
| Text.SplitPieces | MarsRoverNodejs/app.js:128 | No piece of a split holds the separator. |
| Text.SplitJoin | MarsRoverNodejs/app.js:128 | Splitting a join of one or more pieces without the separator gives back the pieces (no pieces join to "", which splits to `[""]`). |
| Text.JoinSplit | MarsRoverNodejs/app.js:128 | Joining the pieces of a split with the separator gives back the text. |
| Text.JoinWithCrLf | MarsRoverNodejs/app.js:205 | A CR LF join is an LF join of the lines with CR appended to all but the last. |
| Text.NatToStringNumeral | MarsRoverNodejs/app.js:204 | The text of a natural number is a run of digits whose value is that number, with no leading zero unless the number is zero. |
| Text.ParseIntToString | MarsRoverNodejs/app.js:147 | `parseInt` reads back the text of any integer. |
| Calculators.Turn | MarsRoverNodejs/app.js:40-73 | A move keeps the heading without checking it. A left or right turn succeeds exactly on compass headings, yields a different compass heading, and otherwise fails with "Direction not supported:" and the heading. Any other action fails with "Action not supported:" and the token (no space). |
| Calculators.TurnRightIsClockwise | MarsRoverNodejs/app.js:58-71 | A right turn is one quarter turn clockwise (N→E→S→W→N). |
| Calculators.TurnLeftIsCounterClockwise | MarsRoverNodejs/app.js:44-57 | A left turn is one quarter turn counter-clockwise (N→W→S→E→N). |
| Calculators.LeftRightInverse | MarsRoverNodejs/app.js:44-71 | On the compass, a left turn followed by a right turn, or a right then a left, gives back the heading. |
| Calculators.Move | MarsRoverNodejs/app.js:76-98 | E and W leave y alone, N and S leave x alone, and an unrecognised heading leaves the position unchanged. A rover on the plateau stays on it. |
| Calculators.MoveIsClampedStep | MarsRoverNodejs/app.js:79-95 | On the plateau, a move is the unprotected grid step with each coordinate saturated into `[0, max]`. |
| Calculators.MoveAtEdge | MarsRoverNodejs/app.js:79-95 | On the plateau, a move toward the edge the rover stands on is a silent no-op. Any other move is a full step. |
| Calculators.ApplyAction | MarsRoverNodejs/app.js:106-114 | The step fails exactly when `turn` does, with its message. The new heading is `turn`'s. A move sets the position to `move` of the old state (old heading); a turn keeps the position. A rover on the plateau stays on it. |
| Parsers.FormatPositionFields | MarsRoverNodejs/app.js:146 | The plateau line of a position splits into exactly its two integer fields. |
| Parsers.PlateauLineRoundTrip | MarsRoverNodejs/app.js:144-148 | The plateau parser reads back the plateau line of any position. |
| Parsers.FormatStateFields | MarsRoverNodejs/app.js:203-205 | An `x y D` line whose heading letter holds no space splits into its two integer fields and the letter. |
| Parsers.StateLineRoundTrip | MarsRoverNodejs/app.js:172-177 | The initial-state parser reads back the `x y D` line of any state whose letter it could have produced. |
| Parsers.ParseActionChar | MarsRoverNodejs/app.js:160-168 | A character parses exactly when it is M, L or R, to the action whose string value is that letter; any other character fails with "Action not supported: " and the character. |
| Parsers.ActionsOf | MarsRoverNodejs/app.js:152-158 | An accepted action line gives one action per character. |
| Parsers.ActionsOfMeaning | MarsRoverNodejs/app.js:152-158 | A line parses exactly when all its characters are action letters, and then action `i` is character `i`'s. Otherwise it fails naming the first character that is not an action letter. |
| Parsers.ActionsErrorPersists | MarsRoverNodejs/app.js:154-156 | A failure on a prefix of the line is the failure of the whole line. |
| Parsers.FirstBadCharFails | MarsRoverNodejs/app.js:152-167 | The line fails with the message naming its first character outside M, L, R. |
| Parsers.ParseActions | MarsRoverNodejs/app.js:152-158 | The index loop computes `ActionsOf` of the line. |
| Parsers.ActionsRoundTrip | MarsRoverNodejs/app.js:152-158 | The action parser reads back the line of any parsable actions. |
| Parsers.ParsedActionsText | MarsRoverNodejs/app.js:152-158 | Any accepted line is the line of the actions it parses to, and those are moves and turns only. |
| Parsers.RoverResults | MarsRoverNodejs/app.js:133-136 | There is one round outcome per rover. |
| Parsers.ParseRovers | MarsRoverNodejs/app.js:131-136 | When the loop gets through, it builds exactly `n` rovers. |
| Parsers.ParseRoversAccepts | MarsRoverNodejs/app.js:133-136 | The rovers parse exactly when every rover's action line does. |
| Parsers.ParseRoversValues | MarsRoverNodejs/app.js:133-136 | Rover `k` has the initial state of line 2k+1 and the actions of line 2k+2. |
| Parsers.ParseRoversFailure | MarsRoverNodejs/app.js:133-136 | A failure is the error of the first rover whose action line fails. |
| Parsers.InstructionsOf | MarsRoverNodejs/app.js:127-139 | Parsed instructions have the plateau of line 0 and `(lines - 1) / 2` rovers. |
| Parsers.InstructionsOfMeaning | MarsRoverNodejs/app.js:127-139 | Rover `k` comes from lines 2k+1 and 2k+2, in input order. Parsing fails only with the error of the first action line that fails. |
| Parsers.ParseInstructions | MarsRoverNodejs/app.js:127-139 | The rover loop computes `InstructionsOf` of the text. |
| Parsers.RoverLinesAt | MarsRoverNodejs/app.js:134-135 | In the text of some rovers, line 2k is rover `k`'s state line and line 2k+1 its action line. |
| Parsers.ActionsTextLacks | MarsRoverNodejs/app.js:160-168 | An action line holds action letters only. |
| Parsers.StateLineHasNoNewline | MarsRoverNodejs/app.js:204 | The `x y D` line of a state whose letter has no newline has no newline. |
| Parsers.RenderedLines | MarsRoverNodejs/app.js:128 | The instruction text of instructions splits into the plateau line and the rover lines. |
| Parsers.ParseRoverLines | MarsRoverNodejs/app.js:131-136 | The rover lines of rovers the text format can express parse back to those rovers. |
| Parsers.ParseRendered | MarsRoverNodejs/app.js:127-139 | The instruction parser reads back the text of any instructions the format can express. |
| Controller.Execute | MarsRoverNodejs/app.js:195-199 | Folding `action` over the actions keeps a rover that starts on the plateau on the plateau. |
| Controller.ExecuteOnCompass | MarsRoverNodejs/app.js:195-199 | From a compass heading, moves and turns never fail and keep a compass heading. |
| Controller.ExecuteFromOtherHeading | MarsRoverNodejs/app.js:41-71 | From a heading outside the compass, the rover gets through exactly a line of moves, standing still. On parsed actions it otherwise fails with "Direction not supported:" and its letter. |
| Controller.ExecuteErrorPersists | MarsRoverNodejs/app.js:196-199 | A failure part-way through the actions is the failure of the whole run. |
| Controller.ExecuteAppend | MarsRoverNodejs/app.js:196-199 | Running `a + b` is running `a`, then `b` from where `a` ended; a failure in `a` is final. |
| Controller.ExecuteFromFrontSnoc | MarsRoverNodejs/app.js:196-199 | The front-first fold, given one more action, applies it to the state it had reached. |
| Controller.ExecuteFromEitherEnd | MarsRoverNodejs/app.js:196-199 | The loop's fold agrees with applying the first action and then the rest. |
| Controller.CompassAtShift | MarsRoverNodejs/app.js:44-71 | Quarter turns on the compass add modulo four. |
| Controller.TurnsOnlyRotate | MarsRoverNodejs/app.js:44-71 | A rover with a compass heading that only turns stays put and ends the net number of right quarter turns from its heading. |
| Controller.NetOfRepeatedTurn | MarsRoverNodejs/app.js:44-71 | `n` repeated right turns net `n` quarter turns; `n` left turns net `-n`. |
| Controller.FourTurnsReturn | MarsRoverNodejs/app.js:44-71 | Four left turns, or four right turns, bring a compass rover back to its starting state. |
| Controller.RoverOutcomes | MarsRoverNodejs/app.js:192-201 | There is one outcome per rover. |
| Controller.FinalStates | MarsRoverNodejs/app.js:192-201 | When no rover fails, there is one final state per rover. |
| Controller.FinalStatesMeaning | MarsRoverNodejs/app.js:192-201 | All rovers get through exactly when each does, and final state `k` is rover `k`'s, in input order. |
| Controller.FinalStatesFailure | MarsRoverNodejs/app.js:192-201 | A failure is the failure of the first rover that fails. |
| Controller.ReportLines | MarsRoverNodejs/app.js:203-205 | There is one report line per final state. |
| Controller.ReportLayout | MarsRoverNodejs/app.js:203-205 | For one or more rovers, read as LF-separated lines, the report has one line per rover in input order, each but the last ending in CR, with no trailing separator. Zero rovers give "" (`Examples.PlateauOnly`). |
| Controller.RunSucceedsOnCompassHeadings | MarsRoverNodejs/app.js:188-206 | Parsed instructions whose rovers all start with a compass heading always run to a report. |
| Controller.Drive | MarsRoverNodejs/app.js:195-199 | The inner loop computes the fold `Execute` of the rover's actions from its initial state. |
| Controller.Run | MarsRoverNodejs/app.js:188-206 | `run` computes `RunResult`: the parse error, or else the first rover failure, or else the CR LF report of the final states. |
| Examples.PlateauOnly | MarsRoverNodejs/app.tests.js:175-209 | A plateau line alone parses to that plateau with no rovers, and the report is empty. |
| Examples.PlateauOnlyRunsNoRovers | MarsRoverNodejs/app.tests.js:175-209 | "5 5" and "5 7" parse to zero rovers; "5 5" runs to "". |
| Examples.TurnTable | MarsRoverNodejs/app.tests.js:95-172 | The twelve heading/action cases of the turn tests. |
| Examples.MoveTable | MarsRoverNodejs/app.tests.js:228-329 | The twelve move cases on the plateau whose corner is (4, 9), edges included. |
| Examples.ActionTable | MarsRoverNodejs/app.tests.js:427-524 | The five single-action cases on the plateau whose corner is (4, 5). |
| Examples.InitialStateLines | MarsRoverNodejs/app.tests.js:378-400 | "1 2 N" and "3 3 E" parse to their states. |
| Examples.RejectedActionLines | MarsRoverNodejs/app.tests.js:332-376 | "" gives no actions, "KLM" fails naming K and "MRLS" fails naming S. |
| Examples.SampleParses | MarsRoverNodejs/app.tests.js:211-225 | The two-rover sample parses to plateau (5, 5) and its two rovers, the first starting with a left turn. |
| Examples.SampleFirstFinal | MarsRoverNodejs/app.tests.js:20-37 | The first sample rover ends at 1 3 N. |
| Examples.SampleSecondFinal | MarsRoverNodejs/app.tests.js:20-37 | The second sample rover ends at 5 1 E. |
| Examples.SampleReport | MarsRoverNodejs/app.tests.js:20-37 | The two final states render as "1 3 N\r\n5 1 E". |
| Examples.TwoRoverSample | MarsRoverNodejs/app.tests.js:20-37 | The two-rover sample runs to "1 3 N\r\n5 1 E". |

## Left out

- The dependency-injection constructors (app.js:101-104, 120-126, 182-187) and `module.exports`: the model calls the calculators and parsers directly.
- JavaScript `parseInt` beyond decimal integer tokens (`NaN`, leading whitespace, trailing junk): the coordinate fields must be integer tokens (`Parsers.HasTwoIntFields`), and numbers are unbounded integers rather than floating-point `Number`s. On integer tokens, the source's coordinates hold only integer values; a field with no leading digit makes a coordinate `NaN`, which `Math.min`/`Math.max` (app.js:81-93) carry into the report.
- Text whose line count is even: `(lines.length - 1) / 2` is then fractional and the code reads past the last line and crashes. `Parsers.WellFormedInstructionText` requires an odd line count. A CR before the LF is outside the precondition when it ends an integer field: a plateau line `5 5\r`, or a state line `1 2\r` with no heading, where the source's `parseInt` still reads the field as 5 or 2. On every other line CR is an ordinary character in both the source and the model (a state line `1 2 N\r` has the heading letter `N\r`).
- Parsers.ParseInstructions, Controller.Run: require `Parsers.WellFormedInstructionText`, for the two reasons above; the source's behaviour on such text (`NaN` coordinates; with an even line count the last round passes `undefined` as the action line, and `RoverActionParser.parse` throws a `TypeError` reading its `length`, app.js:154) is not modelled.
- Parsers.StateLineRoundTrip, Parsers.ParseRendered: hold only for headings the parser can produce, that is letters that are not a compass letter in disguise and that hold no space or newline.
- Calculators.LeftRightInverse, Controller.FourTurnsReturn: hold on compass headings only; on any other heading the source throws.
- Object identity: `action` shares the `position` object between the old and new state for a turn. The model works on values, so it cannot see this sharing. `move` assigns a field of the fresh `newPosition` it builds (app.js:77-94), but nothing mutates a position that a state already holds.
- Parsers.ActionsOf, Parsers.ParseActions: strings are sequences of Unicode scalar values, while the source's `actions.length` and `actions[i]` (app.js:154-155) step through UTF-16 code units. On a line holding a character outside the Basic Multilingual Plane, the model's error names the whole character, where the source's names its high surrogate. Accepted lines are unaffected, since M, L and R are single code units.
- Rover.Direction, Rover.Action: `Other("N")` and `Unsupported("M")` are values no JavaScript value maps to; on them `Calculators.Turn` rejects what `turn` would accept. The parser never produces them (`Rover.DirectionOf` reads a compass letter as its compass heading, and `Parsers.ParseActionChar` never yields `Unsupported`).
- The mock-based controller test, `console.log` and the test-description helper in `app.tests.js`: test-harness and I/O concerns.
