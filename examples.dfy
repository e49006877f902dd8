/** The test cases of the repository's test suite, stated as lemmas about
    the model: the calculator tables, the parser cases and the two-rover
    sample. */
module Examples {
  import opened Text
  import opened Rover
  import opened Calculators
  import opened Parsers
  import opened Controller

  /** A plateau line alone parses to a plateau without rovers, and the
      report is empty. */
  lemma PlateauOnly(p: Position)
    ensures WellFormedInstructionText(FormatPosition(p))
    ensures InstructionsOf(FormatPosition(p)) == Ok(Instructions(p, []))
    ensures RunResult(FormatPosition(p)) == Ok("")
  {
    FormatPositionFields(p);
    SplitWithoutSeparator(FormatPosition(p), '\n');
    PlateauLineRoundTrip(p);
  }

  lemma PlateauOnlyRunsNoRovers()
    ensures WellFormedInstructionText("5 5") && WellFormedInstructionText("5 7")
    ensures InstructionsOf("5 5") == Ok(Instructions(Position(5, 5), []))
    ensures InstructionsOf("5 7") == Ok(Instructions(Position(5, 7), []))
    ensures RunResult("5 5") == Ok("")
  {
    assert FormatPosition(Position(5, 5)) == "5 5";
    assert FormatPosition(Position(5, 7)) == "5 7";
    PlateauOnly(Position(5, 5));
    PlateauOnly(Position(5, 7));
  }

  /** Moves on the plateau whose corner is (4, 9). */
  lemma MoveTable()
    ensures Calculators.Move(RoverState(Position(0, 0), N), Position(4, 9)) == Position(0, 1)
    ensures Calculators.Move(RoverState(Position(0, 2), N), Position(4, 9)) == Position(0, 3)
    ensures Calculators.Move(RoverState(Position(0, 9), N), Position(4, 9)) == Position(0, 9)
    ensures Calculators.Move(RoverState(Position(0, 0), S), Position(4, 9)) == Position(0, 0)
    ensures Calculators.Move(RoverState(Position(0, 2), S), Position(4, 9)) == Position(0, 1)
    ensures Calculators.Move(RoverState(Position(0, 9), S), Position(4, 9)) == Position(0, 8)
    ensures Calculators.Move(RoverState(Position(0, 0), W), Position(4, 9)) == Position(0, 0)
    ensures Calculators.Move(RoverState(Position(2, 0), W), Position(4, 9)) == Position(1, 0)
    ensures Calculators.Move(RoverState(Position(4, 0), W), Position(4, 9)) == Position(3, 0)
    ensures Calculators.Move(RoverState(Position(0, 0), E), Position(4, 9)) == Position(1, 0)
    ensures Calculators.Move(RoverState(Position(2, 0), E), Position(4, 9)) == Position(3, 0)
    ensures Calculators.Move(RoverState(Position(4, 0), E), Position(4, 9)) == Position(4, 0)
  {
  }

  /** Every heading against every action. */
  lemma TurnTable()
    ensures Turn(W, Move) == Ok(W) && Turn(N, Move) == Ok(N) && Turn(S, Move) == Ok(S) && Turn(E, Move) == Ok(E)
    ensures Turn(W, LeftTurn) == Ok(S) && Turn(N, LeftTurn) == Ok(W)
    ensures Turn(S, LeftTurn) == Ok(E) && Turn(E, LeftTurn) == Ok(N)
    ensures Turn(W, RightTurn) == Ok(N) && Turn(N, RightTurn) == Ok(E)
    ensures Turn(S, RightTurn) == Ok(W) && Turn(E, RightTurn) == Ok(S)
  {
  }

  /** Single actions on the plateau whose corner is (4, 5). */
  lemma ActionTable()
    ensures ApplyAction(RoverState(Position(0, 0), N), Position(4, 5), LeftTurn) == Ok(RoverState(Position(0, 0), W))
    ensures ApplyAction(RoverState(Position(0, 0), N), Position(4, 5), Move) == Ok(RoverState(Position(0, 1), N))
    ensures ApplyAction(RoverState(Position(0, 0), E), Position(4, 5), Move) == Ok(RoverState(Position(1, 0), E))
    ensures ApplyAction(RoverState(Position(4, 5), N), Position(4, 5), Move) == Ok(RoverState(Position(4, 5), N))
    ensures ApplyAction(RoverState(Position(4, 5), E), Position(4, 5), Move) == Ok(RoverState(Position(4, 5), E))
  {
  }

  /** The initial-state lines of the sample. */
  lemma InitialStateLines()
    ensures HasTwoIntFields("1 2 N") && ParseInitialState("1 2 N") == RoverState(Position(1, 2), N)
    ensures HasTwoIntFields("3 3 E") && ParseInitialState("3 3 E") == RoverState(Position(3, 3), E)
  {
    SampleStateLines();
    StateLineRoundTrip(RoverState(Position(1, 2), N));
    StateLineRoundTrip(RoverState(Position(3, 3), E));
  }

  /** The empty action line gives no actions; lines with a letter other
      than M, L and R fail naming the first one. */
  lemma RejectedActionLines()
    ensures ActionsOf("") == Ok([])
    ensures ActionsOf("KLM") == Err("Action not supported: K")
    ensures ActionsOf("MRLS") == Err("Action not supported: S")
  {
    FirstBadCharFails("KLM", 0);
    assert FirstBadChar("MRLS", 3);
    FirstBadCharFails("MRLS", 3);
  }

  const SampleText := "5 5\n1 2 N\nLMLMLMLMM\n3 3 E\nMMRMMRMRRM"
  const SampleFirst := RoverInstructions(RoverState(Position(1, 2), N),
    [LeftTurn, Move, LeftTurn, Move, LeftTurn, Move, LeftTurn, Move, Move])
  const SampleSecond := RoverInstructions(RoverState(Position(3, 3), E),
    [Move, Move, RightTurn, Move, Move, RightTurn, Move, RightTurn, RightTurn, Move])
  const SampleInstructions := Instructions(Position(5, 5), [SampleFirst, SampleSecond])

  /** An action line is determined letter by letter. */
  lemma ActionsTextIs(actions: seq<Action>, text: string)
    requires AllSupported(actions) && |text| == |actions|
    requires forall i :: 0 <= i < |actions| ==> text[i] == ActionLetter(actions[i])
    ensures ActionsText(actions) == text
  {
    if |actions| > 0 {
      ActionsTextAt(actions, 0);
    }
    forall i | 0 <= i < |actions|
      ensures ActionsText(actions)[i] == text[i]
    {
      ActionsTextAt(actions, i);
    }
  }

  lemma SampleFirstActionLine()
    ensures ActionsText([LeftTurn, Move, LeftTurn, Move, LeftTurn, Move, LeftTurn, Move, Move]) == "LMLMLMLMM"
  {
    ActionsTextIs([LeftTurn, Move, LeftTurn, Move, LeftTurn, Move, LeftTurn, Move, Move], "LMLMLMLMM");
  }

  lemma SampleSecondActionLine()
    ensures ActionsText([Move, Move, RightTurn, Move, Move, RightTurn, Move, RightTurn, RightTurn, Move]) == "MMRMMRMRRM"
  {
    ActionsTextIs([Move, Move, RightTurn, Move, Move, RightTurn, Move, RightTurn, RightTurn, Move], "MMRMMRMRRM");
  }

  lemma SampleStateLines()
    ensures FormatState(RoverState(Position(1, 2), N)) == "1 2 N"
    ensures FormatState(RoverState(Position(3, 3), E)) == "3 3 E"
  {
  }

  lemma FourElements<T>(s: seq<T>, a: T, b: T, c: T, d: T)
    requires |s| == 4 && s[0] == a && s[1] == b && s[2] == c && s[3] == d
    ensures s == [a, b, c, d]
  {
  }

  lemma RoverLinesOfPair(a: RoverInstructions, b: RoverInstructions, l0: string, l1: string, l2: string, l3: string)
    requires FormatState(a.initialState) == l0 && ActionsText(a.actions) == l1
    requires FormatState(b.initialState) == l2 && ActionsText(b.actions) == l3
    ensures RoverLines([a, b]) == [l0, l1, l2, l3]
  {
    RoverLinesAt([a, b], 0);
    RoverLinesAt([a, b], 1);
    FourElements(RoverLines([a, b]), l0, l1, l2, l3);
  }

  lemma SampleRoverLines()
    ensures RoverLines([SampleFirst, SampleSecond]) == ["1 2 N", "LMLMLMLMM", "3 3 E", "MMRMMRMRRM"]
  {
    SampleFirstActionLine();
    SampleSecondActionLine();
    SampleStateLines();
    RoverLinesOfPair(SampleFirst, SampleSecond, "1 2 N", "LMLMLMLMM", "3 3 E", "MMRMMRMRRM");
  }

  lemma SampleRenderable()
    ensures IsRenderable(SampleInstructions)
  {
    assert AllSupported(SampleFirst.actions) && AllSupported(SampleSecond.actions);
  }

  lemma SampleLines()
    ensures ["5 5"] + ["1 2 N", "LMLMLMLMM", "3 3 E", "MMRMMRMRRM"] == ["5 5", "1 2 N", "LMLMLMLMM", "3 3 E", "MMRMMRMRRM"]
  {
  }

  lemma JoinFive(a: string, b: string, c: string, d: string, e: string)
    ensures Join([a, b, c, d, e], "\n") == a + "\n" + (b + "\n" + (c + "\n" + (d + "\n" + e)))
  {
    assert [d, e][1..] == [e];
    assert Join([d, e], "\n") == d + "\n" + e;
    assert [c, d, e][1..] == [d, e];
    assert Join([c, d, e], "\n") == c + "\n" + (d + "\n" + e);
    assert [b, c, d, e][1..] == [c, d, e];
    assert Join([b, c, d, e], "\n") == b + "\n" + (c + "\n" + (d + "\n" + e));
    assert [a, b, c, d, e][1..] == [b, c, d, e];
  }

  lemma SampleJoined()
    ensures Join(["5 5", "1 2 N", "LMLMLMLMM", "3 3 E", "MMRMMRMRRM"], "\n") == SampleText
  {
    JoinFive("5 5", "1 2 N", "LMLMLMLMM", "3 3 E", "MMRMMRMRRM");
    assert "5 5" + "\n" + ("1 2 N" + "\n" + ("LMLMLMLMM" + "\n" + ("3 3 E" + "\n" + "MMRMMRMRRM"))) ==
           "5 5\n1 2 N\nLMLMLMLMM\n3 3 E\nMMRMMRMRRM";
  }

  lemma SamplePlateauLine()
    ensures FormatPosition(Position(5, 5)) == "5 5"
  {
  }

  lemma RenderedAs(ins: Instructions, plateauLine: string, roverLines: seq<string>)
    requires IsRenderable(ins)
    requires FormatPosition(ins.plateauMaxPosition) == plateauLine
    requires RoverLines(ins.rovers) == roverLines
    ensures Render(ins) == Join([plateauLine] + roverLines, "\n")
  {
  }

  lemma SampleRendered()
    ensures IsRenderable(SampleInstructions)
    ensures Render(SampleInstructions) == SampleText
  {
    SampleRenderable();
    SampleRoverLines();
    SamplePlateauLine();
    RenderedAs(SampleInstructions, "5 5", ["1 2 N", "LMLMLMLMM", "3 3 E", "MMRMMRMRRM"]);
    SampleLines();
    SampleJoined();
  }

  /** The sample text is the text of the sample instructions, so it parses to them. */
  lemma SampleParses()
    ensures WellFormedInstructionText(SampleText)
    ensures InstructionsOf(SampleText) == Ok(SampleInstructions)
  {
    SampleRendered();
    ParseRendered(SampleInstructions);
  }

  /** A run passes through any sequence of states each one action apart. */
  lemma {:induction false} ExecuteTrace(initial: RoverState, max: Position, actions: seq<Action>, trace: seq<RoverState>)
    requires |trace| == |actions| + 1 && trace[0] == initial
    requires forall i :: 0 <= i < |actions| ==> ApplyAction(trace[i], max, actions[i]) == Ok(trace[i + 1])
    ensures Execute(initial, max, actions) == Ok(trace[|actions|])
    decreases |actions|
  {
    if |actions| > 0 {
      var n := |actions|;
      ExecuteTrace(initial, max, actions[..n - 1], trace[..n]);
    }
  }

  /** The first sample rover's path: west, down the west edge, east and back north. */
  lemma SampleFirstFinal()
    ensures FinalState(SampleFirst, Position(5, 5)) == Ok(RoverState(Position(1, 3), N))
  {
    ExecuteTrace(RoverState(Position(1, 2), N), Position(5, 5),
      [LeftTurn, Move, LeftTurn, Move, LeftTurn, Move, LeftTurn, Move, Move],
      [RoverState(Position(1, 2), N), RoverState(Position(1, 2), W), RoverState(Position(0, 2), W),
       RoverState(Position(0, 2), S), RoverState(Position(0, 1), S), RoverState(Position(0, 1), E),
       RoverState(Position(1, 1), E), RoverState(Position(1, 1), N), RoverState(Position(1, 2), N),
       RoverState(Position(1, 3), N)]);
  }

  /** The second sample rover's path: east to the edge, south, west and
      round to face east again. */
  lemma SampleSecondFinal()
    ensures FinalState(SampleSecond, Position(5, 5)) == Ok(RoverState(Position(5, 1), E))
  {
    ExecuteTrace(RoverState(Position(3, 3), E), Position(5, 5),
      [Move, Move, RightTurn, Move, Move, RightTurn, Move, RightTurn, RightTurn, Move],
      [RoverState(Position(3, 3), E), RoverState(Position(4, 3), E), RoverState(Position(5, 3), E),
       RoverState(Position(5, 3), S), RoverState(Position(5, 2), S), RoverState(Position(5, 1), S),
       RoverState(Position(5, 1), W), RoverState(Position(4, 1), W), RoverState(Position(4, 1), N),
       RoverState(Position(4, 1), E), RoverState(Position(5, 1), E)]);
  }

  lemma FinalStatesOfPair(a: RoverInstructions, b: RoverInstructions, max: Position, sa: RoverState, sb: RoverState)
    requires FinalState(a, max) == Ok(sa) && FinalState(b, max) == Ok(sb)
    ensures FinalStates([a, b], max) == Ok([sa, sb])
  {
    var r := FinalStates([a, b], max);
    FinalStatesMeaning([a, b], max);
    assert [a, b][0] == a && [a, b][1] == b;
    assert r.value == [sa, sb];
  }

  lemma SampleReport()
    ensures Report([RoverState(Position(1, 3), N), RoverState(Position(5, 1), E)]) == "1 3 N\r\n5 1 E"
  {
    var finalStates := [RoverState(Position(1, 3), N), RoverState(Position(5, 1), E)];
    var lines := ReportLines(finalStates);
    assert lines[0] == FormatState(finalStates[0]) == "1 3 N";
    assert lines[1] == FormatState(finalStates[1]) == "5 1 E";
    assert lines == ["1 3 N", "5 1 E"];
  }

  lemma RunResultOf(text: string, ins: Instructions, finalStates: seq<RoverState>)
    requires WellFormedInstructionText(text)
    requires InstructionsOf(text) == Ok(ins)
    requires FinalStates(ins.rovers, ins.plateauMaxPosition) == Ok(finalStates)
    ensures RunResult(text) == Ok(Report(finalStates))
  {
  }

  /** The two-rover sample: plateau 5 5, rover "1 2 N" with "LMLMLMLMM"
      ends at 1 3 N and rover "3 3 E" with "MMRMMRMRRM" at 5 1 E. */
  lemma TwoRoverSample()
    ensures WellFormedInstructionText("5 5\n1 2 N\nLMLMLMLMM\n3 3 E\nMMRMMRMRRM")
    ensures RunResult("5 5\n1 2 N\nLMLMLMLMM\n3 3 E\nMMRMMRMRRM") == Ok("1 3 N\r\n5 1 E")
  {
    var finalStates := [RoverState(Position(1, 3), N), RoverState(Position(5, 1), E)];
    SampleParses();
    SampleFirstFinal();
    SampleSecondFinal();
    FinalStatesOfPair(SampleFirst, SampleSecond, Position(5, 5), finalStates[0], finalStates[1]);
    RunResultOf(SampleText, SampleInstructions, finalStates);
    SampleReport();
  }
}
