/** RoverController.run: parse the instruction text, drive every rover
    through its actions in order on the shared plateau, and report the
    final states, one "x y D" line per rover, joined with CR LF. */
module Controller {
  import opened Text
  import opened Rover
  import opened Calculators
  import opened Parsers

  /** The state after applying the actions one after another from
      `initial`, each seeing the state the previous one produced, or the
      first failure. A rover that starts on the plateau never leaves it. */
  function Execute(initial: RoverState, max: Position, actions: seq<Action>): (r: Result<RoverState>)
    ensures r.Ok? && InBounds(initial.position, max) ==> InBounds(r.value.position, max)
    decreases |actions|
  {
    if |actions| == 0 then Ok(initial)
    else
      var previous := Execute(initial, max, actions[..|actions| - 1]);
      if previous.Err? then previous
      else ApplyAction(previous.value, max, actions[|actions| - 1])
  }

  /** A rover with a compass heading never fails on parsed actions, and
      keeps a compass heading. */
  lemma {:induction false} ExecuteOnCompass(initial: RoverState, max: Position, actions: seq<Action>)
    requires IsCompass(initial.direction) && AllSupported(actions)
    ensures Execute(initial, max, actions).Ok? && IsCompass(Execute(initial, max, actions).value.direction)
    decreases |actions|
  {
    if |actions| > 0 {
      var init := actions[..|actions| - 1];
      assert AllSupported(init) by {
        assert forall i :: 0 <= i < |init| ==> init[i] == actions[i];
      }
      ExecuteOnCompass(initial, max, init);
      assert !actions[|actions| - 1].Unsupported?;
    }
  }

  /** A rover whose heading is outside the compass gets through exactly
      the lines of moves, standing still; on parsed actions it fails with
      its heading's letter at the first turn. */
  lemma {:induction false} ExecuteFromOtherHeading(initial: RoverState, max: Position, actions: seq<Action>)
    requires !IsCompass(initial.direction)
    ensures Execute(initial, max, actions).Ok? <==> forall i :: 0 <= i < |actions| ==> actions[i].Move?
    ensures Execute(initial, max, actions).Ok? ==> Execute(initial, max, actions).value == initial
    ensures AllSupported(actions) && Execute(initial, max, actions).Err? ==>
              Execute(initial, max, actions).message == "Direction not supported:" + Letter(initial.direction)
    decreases |actions|
  {
    if |actions| > 0 {
      var init := actions[..|actions| - 1];
      assert forall i :: 0 <= i < |init| ==> init[i] == actions[i];
      ExecuteFromOtherHeading(initial, max, init);
      if Execute(initial, max, init).Err? {
        assert !(forall i :: 0 <= i < |init| ==> init[i].Move?);
      }
    }
  }

  /** A failure part-way through the actions is the failure of the whole sequence. */
  lemma {:induction false} ExecuteErrorPersists(initial: RoverState, max: Position, actions: seq<Action>, k: nat)
    requires k <= |actions| && Execute(initial, max, actions[..k]).Err?
    ensures Execute(initial, max, actions) == Execute(initial, max, actions[..k])
    decreases |actions|
  {
    if k < |actions| {
      var init := actions[..|actions| - 1];
      assert init[..k] == actions[..k];
      ExecuteErrorPersists(initial, max, init, k);
    } else {
      assert actions[..k] == actions;
    }
  }

  /** Running `a` and then `b` is running `a + b`: the second run starts
      from the state the first ends in, and a failure in `a` is final. */
  lemma {:induction false} ExecuteAppend(initial: RoverState, max: Position, a: seq<Action>, b: seq<Action>)
    ensures Execute(initial, max, a + b) ==
            if Execute(initial, max, a).Err? then Execute(initial, max, a)
            else Execute(Execute(initial, max, a).value, max, b)
    decreases |b|
  {
    if |b| == 0 {
      assert a + b == a;
    } else {
      var init := b[..|b| - 1];
      ExecuteAppend(initial, max, a, init);
      assert (a + b)[..|a + b| - 1] == a + init;
      assert (a + b)[|a + b| - 1] == b[|b| - 1];
    }
  }

  /** The same fold taken from the front: apply the first action, then the rest. */
  function ExecuteFromFront(initial: RoverState, max: Position, actions: seq<Action>): Result<RoverState>
    decreases |actions|
  {
    if |actions| == 0 then Ok(initial)
    else
      var first := ApplyAction(initial, max, actions[0]);
      if first.Err? then first else ExecuteFromFront(first.value, max, actions[1..])
  }

  lemma {:induction false} ExecuteFromFrontSnoc(initial: RoverState, max: Position, actions: seq<Action>, a: Action)
    ensures var previous := ExecuteFromFront(initial, max, actions);
            ExecuteFromFront(initial, max, actions + [a]) ==
              if previous.Err? then previous else ApplyAction(previous.value, max, a)
    decreases |actions|
  {
    if |actions| > 0 {
      var first := ApplyAction(initial, max, actions[0]);
      assert (actions + [a])[0] == actions[0] && (actions + [a])[1..] == actions[1..] + [a];
      if first.Ok? {
        ExecuteFromFrontSnoc(first.value, max, actions[1..], a);
      }
    }
  }

  /** Applying the actions one by one from the end of the prefix, as the
      controller's loop does, agrees with applying the first and then the rest. */
  lemma {:induction false} ExecuteFromEitherEnd(initial: RoverState, max: Position, actions: seq<Action>)
    ensures Execute(initial, max, actions) == ExecuteFromFront(initial, max, actions)
    decreases |actions|
  {
    if |actions| > 0 {
      var init := actions[..|actions| - 1];
      ExecuteFromEitherEnd(initial, max, init);
      ExecuteFromFrontSnoc(initial, max, init, actions[|actions| - 1]);
      assert init + [actions[|actions| - 1]] == actions;
    }
  }

  /** Quarter turns clockwise made by a sequence of actions: one per right
      turn, minus one per left turn. */
  function NetRightTurns(actions: seq<Action>): int
    decreases |actions|
  {
    if |actions| == 0 then 0
    else
      var last := actions[|actions| - 1];
      NetRightTurns(actions[..|actions| - 1]) + (if last.RightTurn? then 1 else if last.LeftTurn? then -1 else 0)
  }

  lemma CompassAtShift(j: int, k: int)
    ensures CompassAt(CompassIndex(CompassAt(j)) + k) == CompassAt(j + k)
  {
    assert CompassIndex(CompassAt(j)) == j % 4;
    assert (j % 4 + k) % 4 == (j + k) % 4;
  }

  /** A rover with a compass heading that only turns stays where it is and
      ends up the net number of quarter turns away from its heading. */
  lemma {:induction false} TurnsOnlyRotate(s: RoverState, max: Position, actions: seq<Action>)
    requires IsCompass(s.direction)
    requires forall i :: 0 <= i < |actions| ==> actions[i].LeftTurn? || actions[i].RightTurn?
    ensures Execute(s, max, actions) ==
            Ok(RoverState(s.position, CompassAt(CompassIndex(s.direction) + NetRightTurns(actions))))
    decreases |actions|
  {
    if |actions| > 0 {
      var init := actions[..|actions| - 1];
      TurnsOnlyRotate(s, max, init);
      var j := CompassIndex(s.direction) + NetRightTurns(init);
      if actions[|actions| - 1].RightTurn? {
        TurnRightIsClockwise(CompassAt(j));
        CompassAtShift(j, 1);
      } else {
        TurnLeftIsCounterClockwise(CompassAt(j));
        CompassAtShift(j, -1);
      }
    }
  }

  lemma {:induction false} NetOfRepeatedTurn(turn: Action, n: nat)
    requires turn.LeftTurn? || turn.RightTurn?
    ensures NetRightTurns(seq(n, _ => turn)) == if turn.RightTurn? then n else -(n as int)
  {
    if n > 0 {
      NetOfRepeatedTurn(turn, n - 1);
      assert seq(n, _ => turn)[..n - 1] == seq(n - 1, _ => turn);
    }
  }

  /** Four left turns, or four right turns, bring a rover back to where it started. */
  lemma FourTurnsReturn(s: RoverState, max: Position)
    requires IsCompass(s.direction)
    ensures Execute(s, max, [LeftTurn, LeftTurn, LeftTurn, LeftTurn]) == Ok(s)
    ensures Execute(s, max, [RightTurn, RightTurn, RightTurn, RightTurn]) == Ok(s)
  {
    var lefts := [LeftTurn, LeftTurn, LeftTurn, LeftTurn];
    var rights := [RightTurn, RightTurn, RightTurn, RightTurn];
    TurnsOnlyRotate(s, max, lefts);
    TurnsOnlyRotate(s, max, rights);
    NetOfRepeatedTurn(LeftTurn, 4);
    NetOfRepeatedTurn(RightTurn, 4);
    assert lefts == seq(4, _ => LeftTurn) && rights == seq(4, _ => RightTurn);
    CompassAtShift(CompassIndex(s.direction), -4);
    CompassAtShift(CompassIndex(s.direction), 4);
  }

  /** The rover's state after all its actions. */
  function FinalState(rover: RoverInstructions, max: Position): Result<RoverState>
  {
    Execute(rover.initialState, max, rover.actions)
  }

  /** Rover `k` is the first whose actions fail. */
  predicate FirstFailingRover(rovers: seq<RoverInstructions>, max: Position, k: int)
  {
    0 <= k < |rovers| && FinalState(rovers[k], max).Err? &&
    forall j :: 0 <= j < k ==> FinalState(rovers[j], max).Ok?
  }

  /** Each rover's outcome, in input order. */
  function RoverOutcomes(rovers: seq<RoverInstructions>, max: Position): (r: seq<Result<RoverState>>)
    ensures |r| == |rovers|
  {
    seq(|rovers|, k requires 0 <= k < |rovers| => FinalState(rovers[k], max))
  }

  /** The final states of the rovers in input order, or the failure of the
      first rover that fails. */
  function FinalStates(rovers: seq<RoverInstructions>, max: Position): (r: Result<seq<RoverState>>)
    ensures r.Ok? ==> |r.value| == |rovers|
  {
    Collect(RoverOutcomes(rovers, max))
  }

  /** The rovers all get through exactly when each does, and then the
      final states are theirs, in input order. */
  lemma FinalStatesMeaning(rovers: seq<RoverInstructions>, max: Position)
    ensures FinalStates(rovers, max).Ok? <==> forall k :: 0 <= k < |rovers| ==> FinalState(rovers[k], max).Ok?
    ensures FinalStates(rovers, max).Ok? ==>
              forall k :: 0 <= k < |rovers| ==> FinalState(rovers[k], max) == Ok(FinalStates(rovers, max).value[k])
  {
    var outcomes := RoverOutcomes(rovers, max);
    CollectMeaning(outcomes);
    forall k | 0 <= k < |rovers|
      ensures outcomes[k] == FinalState(rovers[k], max)
    {
    }
  }

  /** The failure of the rovers is the failure of the first rover that fails. */
  lemma FinalStatesFailure(rovers: seq<RoverInstructions>, max: Position)
    requires FinalStates(rovers, max).Err?
    ensures exists k :: FirstFailingRover(rovers, max, k) &&
                        FinalState(rovers[k], max) == Err(FinalStates(rovers, max).message)
  {
    var outcomes := RoverOutcomes(rovers, max);
    CollectMeaning(outcomes);
    var k :| FirstError(outcomes, k) && outcomes[k] == Err(Collect(outcomes).message);
    forall j | 0 <= j < k
      ensures FinalState(rovers[j], max).Ok?
    {
      assert outcomes[j] == FinalState(rovers[j], max);
    }
    assert outcomes[k] == FinalState(rovers[k], max);
    assert FirstFailingRover(rovers, max, k);
  }

  /** The report lines, one per final state, in order. */
  function ReportLines(finalStates: seq<RoverState>): (r: seq<string>)
    ensures |r| == |finalStates|
  {
    seq(|finalStates|, i requires 0 <= i < |finalStates| => FormatState(finalStates[i]))
  }

  /** The report: the report lines joined with CR LF, no trailing separator. */
  function Report(finalStates: seq<RoverState>): string
  {
    Join(ReportLines(finalStates), "\r\n")
  }

  /** What RoverController.run computes. */
  function RunResult(text: string): Result<string>
    requires WellFormedInstructionText(text)
  {
    var parsed := InstructionsOf(text);
    if parsed.Err? then Err(parsed.message)
    else
      var finalStates := FinalStates(parsed.value.rovers, parsed.value.plateauMaxPosition);
      if finalStates.Err? then Err(finalStates.message) else Ok(Report(finalStates.value))
  }

  /** Parsed instructions whose rovers all start with a compass heading
      always run to a report: the parser yields only moves and turns. */
  lemma RunSucceedsOnCompassHeadings(text: string)
    requires WellFormedInstructionText(text) && InstructionsOf(text).Ok?
    requires forall k :: 0 <= k < |InstructionsOf(text).value.rovers| ==>
               IsCompass(InstructionsOf(text).value.rovers[k].initialState.direction)
    ensures RunResult(text).Ok?
  {
    var ins := InstructionsOf(text).value;
    var lines := Split(text, '\n');
    InstructionsOfMeaning(text);
    forall k | 0 <= k < |ins.rovers|
      ensures FinalState(ins.rovers[k], ins.plateauMaxPosition).Ok?
    {
      ParsedActionsText(ActionLine(lines, k));
      ExecuteOnCompass(ins.rovers[k].initialState, ins.plateauMaxPosition, ins.rovers[k].actions);
    }
    FinalStatesMeaning(ins.rovers, ins.plateauMaxPosition);
  }

  /** Read as LF-separated lines, the report is one line per rover in
      input order, each but the last ending in CR. */
  lemma ReportLayout(finalStates: seq<RoverState>)
    requires |finalStates| >= 1
    requires forall i :: 0 <= i < |finalStates| ==> '\n' !in Letter(finalStates[i].direction)
    ensures Split(Report(finalStates), '\n') == WithCarriageReturns(ReportLines(finalStates))
  {
    var lines := WithCarriageReturns(ReportLines(finalStates));
    forall i | 0 <= i < |lines|
      ensures '\n' !in lines[i]
    {
      StateLineHasNoNewline(finalStates[i]);
    }
    JoinWithCrLf(ReportLines(finalStates));
    SplitJoin(lines, '\n');
  }

  /** The inner loop of RoverController.run: one rover's actions applied
      in order from its initial state. */
  method Drive(rover: RoverInstructions, max: Position) returns (r: Result<RoverState>)
    ensures r == FinalState(rover, max)
  {
    var state := rover.initialState;
    var j := 0;
    while j < |rover.actions|
      invariant 0 <= j <= |rover.actions|
      invariant Execute(rover.initialState, max, rover.actions[..j]) == Ok(state)
    {
      var action := rover.actions[j];
      var next := ApplyAction(state, max, action);
      assert rover.actions[..j + 1][..j] == rover.actions[..j];
      if next.Err? {
        ExecuteErrorPersists(rover.initialState, max, rover.actions, j + 1);
        return Err(next.message);
      }
      state := next.value;
      j := j + 1;
    }
    assert rover.actions[..j] == rover.actions;
    r := Ok(state);
  }

  /** RoverController.run. */
  method Run(text: string) returns (r: Result<string>)
    requires WellFormedInstructionText(text)
    ensures r == RunResult(text)
  {
    var parsed := ParseInstructions(text);
    if parsed.Err? {
      return Err(parsed.message);
    }
    var instructions := parsed.value;
    var max := instructions.plateauMaxPosition;
    var rovers := instructions.rovers;
    var finalStates: seq<RoverState> := [];
    ghost var outcomes := RoverOutcomes(rovers, max);
    var i := 0;
    while i < |rovers|
      invariant 0 <= i <= |rovers|
      invariant Collect(outcomes[..i]) == Ok(finalStates)
    {
      var state := Drive(rovers[i], max);
      assert outcomes[i] == state;
      CollectStep(outcomes, i);
      if state.Err? {
        CollectErrorPersists(outcomes, i + 1);
        return Err(state.message);
      }
      finalStates := finalStates + [state.value];
      i := i + 1;
    }
    assert outcomes[..i] == outcomes;
    r := Ok(Report(finalStates));
  }
}
