/** The instruction text parsers. The text is newline-separated: line 0
    holds the plateau's maximum position "x y"; then each rover has an
    initial-state line "x y D" followed by a line of action letters. */
module Parsers {
  import opened Text
  import opened Rover

  /** A line of space-separated fields whose first two are integer tokens. */
  predicate HasTwoIntFields(line: string)
  {
    var fields := Split(line, ' ');
    |fields| >= 2 && IsIntToken(fields[0]) && IsIntToken(fields[1])
  }

  /** PositionParser.parsePlateauMaxPosition: the first two fields as x and y. */
  function ParsePlateauMaxPosition(line: string): Position
    requires HasTwoIntFields(line)
  {
    var fields := Split(line, ' ');
    Position(ParseInt(fields[0]), ParseInt(fields[1]))
  }

  /** The plateau line of a maximum position. */
  function FormatPosition(p: Position): string
  {
    IntToString(p.x) + " " + IntToString(p.y)
  }

  /** RoverInitialStateParser.parse: the first two fields are the position
      and the third, unchecked, the heading. A missing third field is
      JavaScript's `undefined`, which behaves everywhere here like the
      letter string "undefined". */
  function ParseInitialState(line: string): RoverState
    requires HasTwoIntFields(line)
  {
    var fields := Split(line, ' ');
    RoverState(Position(ParseInt(fields[0]), ParseInt(fields[1])),
               DirectionOf(if |fields| >= 3 then fields[2] else "undefined"))
  }

  /** The "x y D" line of a rover state: the format of an initial-state
      line and of a line of the controller's report. */
  function FormatState(s: RoverState): string
  {
    IntToString(s.position.x) + " " + IntToString(s.position.y) + " " + Letter(s.direction)
  }

  /** A letter that survives the trip through a state line. */
  predicate IsPrintableHeading(d: Direction)
  {
    IsCanonical(d) && ' ' !in Letter(d) && '\n' !in Letter(d)
  }

  lemma FormatPositionFields(p: Position)
    ensures Split(FormatPosition(p), ' ') == [IntToString(p.x), IntToString(p.y)]
    ensures '\n' !in FormatPosition(p)
  {
    var a, b := IntToString(p.x), IntToString(p.y);
    ParseIntToString(p.x);
    ParseIntToString(p.y);
    IntTokenExcludes(a, ' ');
    IntTokenExcludes(b, ' ');
    IntTokenExcludes(a, '\n');
    IntTokenExcludes(b, '\n');
    assert FormatPosition(p) == Join([a, b], " ");
    SplitJoin([a, b], ' ');
  }

  /** The plateau parser reads back the plateau line of any position. */
  lemma PlateauLineRoundTrip(p: Position)
    ensures HasTwoIntFields(FormatPosition(p))
    ensures ParsePlateauMaxPosition(FormatPosition(p)) == p
  {
    FormatPositionFields(p);
    ParseIntToString(p.x);
    ParseIntToString(p.y);
  }

  lemma FormatStateFields(s: RoverState)
    requires ' ' !in Letter(s.direction)
    ensures Split(FormatState(s), ' ') ==
            [IntToString(s.position.x), IntToString(s.position.y), Letter(s.direction)]
  {
    var a, b, c := IntToString(s.position.x), IntToString(s.position.y), Letter(s.direction);
    ParseIntToString(s.position.x);
    ParseIntToString(s.position.y);
    IntTokenExcludes(a, ' ');
    IntTokenExcludes(b, ' ');
    assert [a, b, c][1..] == [b, c] && [b, c][1..] == [c];
    assert Join([b, c], " ") == b + " " + c;
    assert Join([a, b, c], " ") == a + " " + (b + " " + c);
    assert FormatState(s) == Join([a, b, c], " ");
    SplitJoin([a, b, c], ' ');
  }

  /** The initial-state parser reads back the line of any state whose
      heading the parser can produce and whose letter holds no space. */
  lemma StateLineRoundTrip(s: RoverState)
    requires IsCanonical(s.direction) && ' ' !in Letter(s.direction)
    ensures HasTwoIntFields(FormatState(s))
    ensures ParseInitialState(FormatState(s)) == s
  {
    FormatStateFields(s);
    ParseIntToString(s.position.x);
    ParseIntToString(s.position.y);
    DirectionOfLetter(s.direction);
  }

  predicate IsActionChar(c: char)
  {
    c == 'M' || c == 'L' || c == 'R'
  }

  /** RoverActionParser.parseActionChar: M, L and R name the move and the
      two turns; any other character fails, naming it after a space. */
  function ParseActionChar(c: char): (r: Result<Action>)
    ensures r.Ok? <==> IsActionChar(c)
    ensures r.Ok? ==> !r.value.Unsupported? && ActionToken(r.value) == [c]
    ensures r.Err? ==> r.message == "Action not supported: " + [c]
  {
    match c
    case 'M' => Ok(Move)
    case 'L' => Ok(LeftTurn)
    case 'R' => Ok(RightTurn)
    case _ => Err("Action not supported: " + [c])
  }

  /** `i` is the position of the first character of `line` that is not an action letter. */
  predicate FirstBadChar(line: string, i: int)
  {
    0 <= i < |line| && !IsActionChar(line[i]) &&
    forall j :: 0 <= j < i ==> IsActionChar(line[j])
  }

  /** What RoverActionParser.parse computes: every character parsed in
      order, or the error of the first one that is not an action letter. */
  function ActionsOf(line: string): (r: Result<seq<Action>>)
    ensures r.Ok? ==> |r.value| == |line|
    decreases |line|
  {
    if |line| == 0 then Ok([])
    else
      match ActionsOf(line[..|line| - 1])
      case Err(e) => Err(e)
      case Ok(prefix) =>
        match ParseActionChar(line[|line| - 1])
        case Err(e) => Err(e)
        case Ok(a) => Ok(prefix + [a])
  }

  /** The action parser accepts exactly the lines of action letters, and
      then gives one action per character, in order; otherwise it fails
      naming the first character that is not an action letter. */
  lemma {:induction false} ActionsOfMeaning(line: string)
    ensures ActionsOf(line).Ok? <==> forall i :: 0 <= i < |line| ==> IsActionChar(line[i])
    ensures ActionsOf(line).Ok? ==>
              forall i :: 0 <= i < |line| ==> ParseActionChar(line[i]) == Ok(ActionsOf(line).value[i])
    ensures ActionsOf(line).Err? ==>
              exists i :: FirstBadChar(line, i) && ActionsOf(line).message == "Action not supported: " + [line[i]]
    decreases |line|
  {
    if |line| > 0 {
      var last := |line| - 1;
      var init := line[..last];
      ActionsOfMeaning(init);
      assert forall i :: 0 <= i < last ==> init[i] == line[i];
      var previous := ActionsOf(init);
      if previous.Err? {
        var i :| FirstBadChar(init, i) && previous.message == "Action not supported: " + [init[i]];
        assert FirstBadChar(line, i);
      } else if !IsActionChar(line[last]) {
        assert FirstBadChar(line, last);
      } else {
        var a := ParseActionChar(line[last]).value;
        assert ActionsOf(line).value == previous.value + [a];
      }
    }
  }

  /** A failure on a prefix of the line is the failure of the whole line. */
  lemma {:induction false} ActionsErrorPersists(line: string, k: nat)
    requires k <= |line| && ActionsOf(line[..k]).Err?
    ensures ActionsOf(line) == ActionsOf(line[..k])
    decreases |line|
  {
    if k < |line| {
      var init := line[..|line| - 1];
      assert init[..k] == line[..k];
      ActionsErrorPersists(init, k);
    } else {
      assert line[..k] == line;
    }
  }

  /** The line fails with the message that names its first character
      that is not an action letter. */
  lemma FirstBadCharFails(line: string, i: int)
    requires FirstBadChar(line, i)
    ensures ActionsOf(line) == Err("Action not supported: " + [line[i]])
  {
    ActionsOfMeaning(line);
  }

  /** RoverActionParser.parse. */
  method ParseActions(line: string) returns (r: Result<seq<Action>>)
    ensures r == ActionsOf(line)
  {
    var actionArray: seq<Action> := [];
    var i := 0;
    while i < |line|
      invariant 0 <= i <= |line|
      invariant ActionsOf(line[..i]) == Ok(actionArray)
    {
      var parsed := ParseActionChar(line[i]);
      assert line[..i + 1][..i] == line[..i];
      if parsed.Err? {
        ActionsErrorPersists(line, i + 1);
        return Err(parsed.message);
      }
      actionArray := actionArray + [parsed.value];
      i := i + 1;
    }
    assert line[..i] == line;
    r := Ok(actionArray);
  }

  predicate AllSupported(actions: seq<Action>)
  {
    forall i :: 0 <= i < |actions| ==> !actions[i].Unsupported?
  }

  /** The letter of a parsable action. */
  function ActionLetter(a: Action): (c: char)
    requires !a.Unsupported?
    ensures [c] == ActionToken(a)
  {
    match a
    case Move => 'M'
    case LeftTurn => 'L'
    case RightTurn => 'R'
  }

  /** The action line of a sequence of actions: their string values, in order. */
  function ActionsText(actions: seq<Action>): (r: string)
  {
    if |actions| == 0 then ""
    else ActionToken(actions[0]) + ActionsText(actions[1..])
  }

  lemma {:induction false} ActionsTextAt(actions: seq<Action>, i: nat)
    requires AllSupported(actions) && i < |actions|
    ensures |ActionsText(actions)| == |actions|
    ensures ActionsText(actions)[i] == ActionLetter(actions[i])
  {
    if i > 0 {
      ActionsTextAt(actions[1..], i - 1);
    } else if |actions| > 1 {
      ActionsTextAt(actions[1..], 0);
    }
  }

  /** The action parser reads back the line of any parsable actions. */
  lemma ActionsRoundTrip(actions: seq<Action>)
    requires AllSupported(actions)
    ensures ActionsOf(ActionsText(actions)) == Ok(actions)
  {
    var text := ActionsText(actions);
    ActionsOfMeaning(text);
    if |actions| > 0 {
      ActionsTextAt(actions, 0);
    }
    forall i | 0 <= i < |actions|
      ensures IsActionChar(text[i]) && ParseActionChar(text[i]) == Ok(actions[i])
    {
      ActionsTextAt(actions, i);
    }
    assert ActionsOf(text).value == actions;
  }

  /** Any line the action parser accepts is the line of the actions it returns. */
  lemma ParsedActionsText(line: string)
    requires ActionsOf(line).Ok?
    ensures AllSupported(ActionsOf(line).value)
    ensures ActionsText(ActionsOf(line).value) == line
  {
    var parsed := ActionsOf(line).value;
    ActionsOfMeaning(line);
    assert forall i :: 0 <= i < |line| ==> ParseActionChar(line[i]) == Ok(parsed[i]);
    if |parsed| > 0 {
      ActionsTextAt(parsed, 0);
    }
    forall i | 0 <= i < |line| ensures ActionsText(parsed)[i] == line[i]
    {
      ActionsTextAt(parsed, i);
    }
  }

  /** The initial-state line of rover `k`. */
  function StateLine(lines: seq<string>, k: nat): string
    requires 2 * k + 1 < |lines|
  {
    lines[2 * k + 1]
  }

  /** The action line of rover `k`. */
  function ActionLine(lines: seq<string>, k: nat): string
    requires 2 * k + 2 < |lines|
  {
    lines[2 * k + 2]
  }

  /** Lines enough for `n` rovers, whose initial-state lines start with two integers. */
  predicate WellFormedRoverLines(lines: seq<string>, n: nat)
  {
    2 * n < |lines| && forall k :: 0 <= k < n ==> HasTwoIntFields(StateLine(lines, k))
  }

  /** One round of the loop of InstructionParser.parse: rover `k` with
      the state of line 2k+1 and the actions of line 2k+2, or the error
      the action parser throws on line 2k+2. */
  function RoverAt(lines: seq<string>, k: nat): (r: Result<RoverInstructions>)
    requires 2 * k + 2 < |lines| && HasTwoIntFields(StateLine(lines, k))
  {
    match ActionsOf(ActionLine(lines, k))
    case Err(e) => Err(e)
    case Ok(actions) => Ok(RoverInstructions(ParseInitialState(StateLine(lines, k)), actions))
  }

  /** The outcomes of the first `n` rounds, in order. */
  function RoverResults(lines: seq<string>, n: nat): (r: seq<Result<RoverInstructions>>)
    requires WellFormedRoverLines(lines, n)
    ensures |r| == n
  {
    seq(n, k requires 0 <= k < n => RoverAt(lines, k))
  }

  /** The first `n` rovers as the loop of InstructionParser.parse pushes
      them, or the error of the first action line that fails. */
  function ParseRovers(lines: seq<string>, n: nat): (r: Result<seq<RoverInstructions>>)
    requires WellFormedRoverLines(lines, n)
    ensures r.Ok? ==> |r.value| == n
  {
    Collect(RoverResults(lines, n))
  }

  /** The first `n` rovers parse exactly when their action lines do. */
  lemma ParseRoversAccepts(lines: seq<string>, n: nat)
    requires WellFormedRoverLines(lines, n)
    ensures ParseRovers(lines, n).Ok? <==> forall k :: 0 <= k < n ==> ActionsOf(ActionLine(lines, k)).Ok?
  {
    var results := RoverResults(lines, n);
    CollectMeaning(results);
    forall k | 0 <= k < n
      ensures results[k].Ok? <==> ActionsOf(ActionLine(lines, k)).Ok?
    {
      assert results[k] == RoverAt(lines, k);
    }
  }

  /** Parsed rover `k` has the state of line 2k+1 and the actions of line 2k+2. */
  lemma ParseRoversValues(lines: seq<string>, n: nat)
    requires WellFormedRoverLines(lines, n) && ParseRovers(lines, n).Ok?
    ensures forall k :: 0 <= k < n ==>
              ParseRovers(lines, n).value[k].initialState == ParseInitialState(StateLine(lines, k)) &&
              ActionsOf(ActionLine(lines, k)) == Ok(ParseRovers(lines, n).value[k].actions)
  {
    var results := RoverResults(lines, n);
    CollectMeaning(results);
    forall k | 0 <= k < n
      ensures ParseRovers(lines, n).value[k].initialState == ParseInitialState(StateLine(lines, k))
      ensures ActionsOf(ActionLine(lines, k)) == Ok(ParseRovers(lines, n).value[k].actions)
    {
      assert results[k] == RoverAt(lines, k);
    }
  }

  /** The action line of rover `k` is the first that fails. */
  predicate FirstFailingLine(lines: seq<string>, k: int)
    requires 0 <= k && 2 * k + 2 < |lines|
  {
    ActionsOf(ActionLine(lines, k)).Err? &&
    forall j :: 0 <= j < k ==> ActionsOf(ActionLine(lines, j)).Ok?
  }

  /** When the rovers do not parse, the error is that of the first action line that fails. */
  lemma ParseRoversFailure(lines: seq<string>, n: nat)
    requires WellFormedRoverLines(lines, n) && ParseRovers(lines, n).Err?
    ensures exists k :: 0 <= k < n && FirstFailingLine(lines, k) &&
                        ActionsOf(ActionLine(lines, k)) == Err(ParseRovers(lines, n).message)
  {
    var results := RoverResults(lines, n);
    CollectMeaning(results);
    var k :| FirstError(results, k) && results[k] == Err(Collect(results).message);
    forall j | 0 <= j < k
      ensures ActionsOf(ActionLine(lines, j)).Ok?
    {
      assert results[j] == RoverAt(lines, j);
    }
    assert results[k] == RoverAt(lines, k);
    assert FirstFailingLine(lines, k);
  }

  /** The number of rovers the parser reads from the text's lines. */
  function RoverCount(lines: seq<string>): nat
    requires |lines| >= 1
  {
    (|lines| - 1) / 2
  }

  /** An odd number of lines, a plateau line and well-formed initial-state lines. */
  predicate WellFormedInstructionText(text: string)
  {
    var lines := Split(text, '\n');
    |lines| == 2 * RoverCount(lines) + 1 && HasTwoIntFields(lines[0]) &&
    WellFormedRoverLines(lines, RoverCount(lines))
  }

  /** What InstructionParser.parse computes: the plateau from line 0 and
      (lines - 1) / 2 rovers, or the error of the first action line that fails. */
  function InstructionsOf(text: string): (r: Result<Instructions>)
    requires WellFormedInstructionText(text)
    ensures r.Ok? ==> r.value.plateauMaxPosition == ParsePlateauMaxPosition(Split(text, '\n')[0])
    ensures r.Ok? ==> |r.value.rovers| == RoverCount(Split(text, '\n'))
  {
    var lines := Split(text, '\n');
    var parsed := ParseRovers(lines, RoverCount(lines));
    if parsed.Err? then Err(parsed.message)
    else Ok(Instructions(ParsePlateauMaxPosition(lines[0]), parsed.value))
  }

  /** Rover `k` of the parsed instructions comes from lines 2k+1 and 2k+2,
      in input order; parsing fails only with the error of the first
      action line that fails. */
  lemma InstructionsOfMeaning(text: string)
    requires WellFormedInstructionText(text)
    ensures InstructionsOf(text).Ok? ==>
              forall k :: 0 <= k < RoverCount(Split(text, '\n')) ==>
                InstructionsOf(text).value.rovers[k].initialState == ParseInitialState(StateLine(Split(text, '\n'), k)) &&
                ActionsOf(ActionLine(Split(text, '\n'), k)) == Ok(InstructionsOf(text).value.rovers[k].actions)
    ensures InstructionsOf(text).Err? ==>
              exists k :: 0 <= k < RoverCount(Split(text, '\n')) && FirstFailingLine(Split(text, '\n'), k) &&
                          ActionsOf(ActionLine(Split(text, '\n'), k)) == Err(InstructionsOf(text).message)
  {
    var lines := Split(text, '\n');
    var n := RoverCount(lines);
    if InstructionsOf(text).Ok? {
      ParseRoversValues(lines, n);
    } else {
      ParseRoversFailure(lines, n);
      var k :| 0 <= k < n && FirstFailingLine(lines, k) && ActionsOf(ActionLine(lines, k)) == Err(ParseRovers(lines, n).message);
      assert InstructionsOf(text).message == ParseRovers(lines, n).message;
      assert 0 <= k < RoverCount(lines) && FirstFailingLine(lines, k) &&
             ActionsOf(ActionLine(lines, k)) == Err(InstructionsOf(text).message);
    }
  }

  /** InstructionParser.parse. */
  method ParseInstructions(text: string) returns (r: Result<Instructions>)
    requires WellFormedInstructionText(text)
    ensures r == InstructionsOf(text)
  {
    var lines := Split(text, '\n');
    var position := ParsePlateauMaxPosition(lines[0]);
    var roverCount := RoverCount(lines);
    var rovers: seq<RoverInstructions> := [];
    ghost var results := RoverResults(lines, roverCount);
    var roverIndex := 0;
    while roverIndex < roverCount
      invariant 0 <= roverIndex <= roverCount
      invariant Collect(results[..roverIndex]) == Ok(rovers)
    {
      var initialState := ParseInitialState(StateLine(lines, roverIndex));
      var actions := ParseActions(ActionLine(lines, roverIndex));
      assert results[roverIndex] == RoverAt(lines, roverIndex);
      CollectStep(results, roverIndex);
      if actions.Err? {
        CollectErrorPersists(results, roverIndex + 1);
        return Err(actions.message);
      }
      rovers := rovers + [RoverInstructions(initialState, actions.value)];
      roverIndex := roverIndex + 1;
    }
    assert results[..roverIndex] == results;
    r := Ok(Instructions(position, rovers));
  }

  /** Instructions the text format can express. */
  predicate IsRenderable(ins: Instructions)
  {
    forall k :: 0 <= k < |ins.rovers| ==>
      AllSupported(ins.rovers[k].actions) && IsPrintableHeading(ins.rovers[k].initialState.direction)
  }

  /** The lines that follow the plateau line: each rover's initial-state
      line, then its action line. */
  function RoverLines(rovers: seq<RoverInstructions>): (r: seq<string>)
    ensures |r| == 2 * |rovers|
  {
    seq(2 * |rovers|, i requires 0 <= i < 2 * |rovers| =>
      if i % 2 == 0 then FormatState(rovers[i / 2].initialState) else ActionsText(rovers[i / 2].actions))
  }

  /** The instruction text of parsed instructions. */
  function Render(ins: Instructions): string
    requires IsRenderable(ins)
  {
    Join([FormatPosition(ins.plateauMaxPosition)] + RoverLines(ins.rovers), "\n")
  }

  lemma RoverLinesAt(rovers: seq<RoverInstructions>, k: nat)
    requires k < |rovers|
    ensures RoverLines(rovers)[2 * k] == FormatState(rovers[k].initialState)
    ensures RoverLines(rovers)[2 * k + 1] == ActionsText(rovers[k].actions)
  {
    assert (2 * k) / 2 == k && (2 * k) % 2 == 0;
    assert (2 * k + 1) / 2 == k && (2 * k + 1) % 2 == 1;
  }

  /** An action line holds action letters only. */
  lemma {:induction false} ActionsTextLacks(actions: seq<Action>, c: char)
    requires AllSupported(actions) && !IsActionChar(c)
    ensures c !in ActionsText(actions)
    decreases |actions|
  {
    if |actions| > 0 {
      ActionsTextLacks(actions[1..], c);
      assert [ActionLetter(actions[0])] == ActionToken(actions[0]);
    }
  }

  lemma StateLineHasNoNewline(s: RoverState)
    requires '\n' !in Letter(s.direction)
    ensures '\n' !in FormatState(s)
  {
    ParseIntToString(s.position.x);
    ParseIntToString(s.position.y);
    IntTokenExcludes(IntToString(s.position.x), '\n');
    IntTokenExcludes(IntToString(s.position.y), '\n');
  }

  lemma RoverLineHasNoNewline(rovers: seq<RoverInstructions>, i: nat)
    requires forall k :: 0 <= k < |rovers| ==>
               AllSupported(rovers[k].actions) && IsPrintableHeading(rovers[k].initialState.direction)
    requires i < 2 * |rovers|
    ensures '\n' !in RoverLines(rovers)[i]
  {
    var k := i / 2;
    RoverLinesAt(rovers, k);
    if i % 2 == 0 {
      assert i == 2 * k;
      StateLineHasNoNewline(rovers[k].initialState);
    } else {
      assert i == 2 * k + 1;
      ActionsTextLacks(rovers[k].actions, '\n');
    }
  }

  /** The text of renderable instructions splits into its plateau line and rover lines. */
  lemma RenderedLines(ins: Instructions)
    requires IsRenderable(ins)
    ensures Split(Render(ins), '\n') == [FormatPosition(ins.plateauMaxPosition)] + RoverLines(ins.rovers)
  {
    var roverLines := RoverLines(ins.rovers);
    var lines := [FormatPosition(ins.plateauMaxPosition)] + roverLines;
    FormatPositionFields(ins.plateauMaxPosition);
    forall i | 0 <= i < |lines| ensures '\n' !in lines[i]
    {
      if i > 0 {
        assert lines[i] == roverLines[i - 1];
        RoverLineHasNoNewline(ins.rovers, i - 1);
      }
    }
    SplitJoin(lines, '\n');
  }

  lemma StateLineParses(line: string, s: RoverState)
    requires IsPrintableHeading(s.direction) && line == FormatState(s)
    ensures HasTwoIntFields(line) && ParseInitialState(line) == s
  {
    StateLineRoundTrip(s);
  }

  lemma ActionLineParses(line: string, actions: seq<Action>)
    requires AllSupported(actions) && line == ActionsText(actions)
    ensures ActionsOf(line) == Ok(actions)
  {
    ActionsRoundTrip(actions);
  }

  /** The rover lines of renderable rovers parse back to those rovers. */
  lemma ParseRoverLines(plateauLine: string, rovers: seq<RoverInstructions>)
    requires forall k :: 0 <= k < |rovers| ==>
               AllSupported(rovers[k].actions) && IsPrintableHeading(rovers[k].initialState.direction)
    ensures WellFormedRoverLines([plateauLine] + RoverLines(rovers), |rovers|)
    ensures ParseRovers([plateauLine] + RoverLines(rovers), |rovers|) == Ok(rovers)
  {
    var lines := [plateauLine] + RoverLines(rovers);
    var n := |rovers|;
    forall k | 0 <= k < n
      ensures HasTwoIntFields(StateLine(lines, k))
      ensures ParseInitialState(StateLine(lines, k)) == rovers[k].initialState
      ensures ActionsOf(ActionLine(lines, k)) == Ok(rovers[k].actions)
    {
      RoverLinesAt(rovers, k);
      assert StateLine(lines, k) == RoverLines(rovers)[2 * k];
      assert ActionLine(lines, k) == RoverLines(rovers)[2 * k + 1];
      StateLineParses(StateLine(lines, k), rovers[k].initialState);
      ActionLineParses(ActionLine(lines, k), rovers[k].actions);
    }
    assert WellFormedRoverLines(lines, n);
    ParseRoversAccepts(lines, n);
    var parsed := ParseRovers(lines, n);
    assert parsed.Ok?;
    ParseRoversValues(lines, n);
    forall k | 0 <= k < n ensures parsed.value[k] == rovers[k] {
      assert parsed.value[k].initialState == rovers[k].initialState;
      assert Ok(parsed.value[k].actions) == Ok(rovers[k].actions);
    }
    assert parsed.value == rovers;
  }

  /** The instruction parser reads back the text of any instructions it can express. */
  lemma ParseRendered(ins: Instructions)
    requires IsRenderable(ins)
    ensures WellFormedInstructionText(Render(ins))
    ensures InstructionsOf(Render(ins)) == Ok(ins)
  {
    var plateauLine := FormatPosition(ins.plateauMaxPosition);
    var lines := [plateauLine] + RoverLines(ins.rovers);
    var text := Render(ins);
    RenderedLines(ins);
    assert Split(text, '\n') == lines;
    PlateauLineRoundTrip(ins.plateauMaxPosition);
    ParseRoverLines(plateauLine, ins.rovers);
    assert lines[0] == plateauLine && RoverCount(lines) == |ins.rovers|;
    assert |lines| == 2 * RoverCount(lines) + 1;
    assert WellFormedInstructionText(text);
    assert ParseRovers(lines, RoverCount(lines)) == Ok(ins.rovers);
  }
}
