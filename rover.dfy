/** The rover's vocabulary and records: positions on the plateau, compass
    headings, actions, rover states and parsed instructions. */
module Rover {

  /** The outcome of an operation that can throw: a value, or the text of
      the error the source throws. */
  datatype Result<T> = Ok(value: T) | Err(message: string)

  /** The values of the results in order, or the error of the first that
      failed: what a loop computes that pushes one value per step and
      lets the first step that throws end it. */
  function Collect<T>(results: seq<Result<T>>): (r: Result<seq<T>>)
    ensures r.Ok? ==> |r.value| == |results|
    decreases |results|
  {
    if |results| == 0 then Ok([])
    else
      match Collect(results[..|results| - 1])
      case Err(e) => Err(e)
      case Ok(previous) =>
        match results[|results| - 1]
        case Err(e) => Err(e)
        case Ok(v) => Ok(previous + [v])
  }

  /** Result `k` is the first that failed. */
  predicate FirstError<T>(results: seq<Result<T>>, k: int)
  {
    0 <= k < |results| && results[k].Err? && forall j :: 0 <= j < k ==> results[j].Ok?
  }

  /** The loop gets through exactly when every step does, and then
      returns the steps' values in order; otherwise it fails with the
      error of the first step that failed. */
  lemma {:induction false} CollectMeaning<T>(results: seq<Result<T>>)
    ensures Collect(results).Ok? <==> forall k :: 0 <= k < |results| ==> results[k].Ok?
    ensures Collect(results).Ok? ==>
              forall k :: 0 <= k < |results| ==> results[k] == Ok(Collect(results).value[k])
    ensures Collect(results).Err? ==>
              exists k :: FirstError(results, k) && results[k] == Err(Collect(results).message)
    decreases |results|
  {
    if |results| > 0 {
      var n := |results|;
      var init := results[..n - 1];
      CollectMeaning(init);
      assert forall k :: 0 <= k < n - 1 ==> init[k] == results[k];
      var previous := Collect(init);
      if previous.Err? {
        var k :| FirstError(init, k) && init[k] == Err(previous.message);
        assert FirstError(results, k);
      } else if results[n - 1].Err? {
        assert FirstError(results, n - 1);
      } else {
        var values := Collect(results).value;
        assert values == previous.value + [results[n - 1].value];
        forall k | 0 <= k < n
          ensures results[k] == Ok(values[k])
        {
          if k < n - 1 {
            assert values[k] == previous.value[k];
          }
        }
      }
    }
  }

  /** One more step of the loop: the first `i + 1` results collect to the
      first `i` followed by result `i`, unless one of them failed. */
  lemma CollectStep<T>(results: seq<Result<T>>, i: nat)
    requires i < |results|
    ensures Collect(results[..i + 1]) ==
            if Collect(results[..i]).Err? then Err(Collect(results[..i]).message)
            else if results[i].Err? then Err(results[i].message)
            else Ok(Collect(results[..i]).value + [results[i].value])
  {
    assert results[..i + 1][..i] == results[..i];
  }

  /** A step that fails ends the loop with its error. */
  lemma {:induction false} CollectErrorPersists<T>(results: seq<Result<T>>, k: nat)
    requires k <= |results| && Collect(results[..k]).Err?
    ensures Collect(results) == Collect(results[..k])
    decreases |results|
  {
    if k < |results| {
      var init := results[..|results| - 1];
      assert init[..k] == results[..k];
      CollectErrorPersists(init, k);
    } else {
      assert results[..k] == results;
    }
  }

  /** A grid point; the plateau runs from (0, 0) to its maximum position. */
  datatype Position = Position(x: int, y: int)

  /** A heading. The source keeps headings as one-letter strings and the
      parser copies the letter verbatim, so a letter outside the compass
      is carried as `Other` until a calculator meets it. `Other` holding a
      compass letter stands for no source value: `DirectionOf` never
      builds it (see `IsCanonical`). */
  datatype Direction = N | E | S | W | Other(token: string)

  /** An action. The parser only produces the first three; `Unsupported`
      stands for any other action value handed to the direction
      calculator, which rejects it. `Unsupported` holding "M", "L" or "R"
      stands for no source value: the parser never builds it. */
  datatype Action = Move | LeftTurn | RightTurn | Unsupported(token: string)

  datatype RoverState = RoverState(position: Position, direction: Direction)

  datatype RoverInstructions = RoverInstructions(initialState: RoverState, actions: seq<Action>)

  datatype Instructions = Instructions(plateauMaxPosition: Position, rovers: seq<RoverInstructions>)

  predicate IsCompass(d: Direction)
  {
    !d.Other?
  }

  /** The heading's letter, as the report prints it. */
  function Letter(d: Direction): string
  {
    match d
    case N => "N"
    case E => "E"
    case S => "S"
    case W => "W"
    case Other(t) => t
  }

  /** The heading a letter names, as the string comparisons of the source see it. */
  function DirectionOf(token: string): (d: Direction)
    ensures Letter(d) == token
    ensures IsCompass(d) <==> token in {"N", "E", "S", "W"}
  {
    if token == "N" then N
    else if token == "E" then E
    else if token == "S" then S
    else if token == "W" then W
    else Other(token)
  }

  /** A heading the parser can produce: `Other` never carries a compass letter. */
  predicate IsCanonical(d: Direction)
  {
    d.Other? ==> d.token !in {"N", "E", "S", "W"}
  }

  lemma DirectionOfLetter(d: Direction)
    requires IsCanonical(d)
    ensures DirectionOf(Letter(d)) == d
  {
  }

  /** The action's string value in the source ("M", "L", "R"). */
  function ActionToken(a: Action): string
  {
    match a
    case Move => "M"
    case LeftTurn => "L"
    case RightTurn => "R"
    case Unsupported(t) => t
  }

  /** Within the plateau whose corners are (0, 0) and `max`. */
  predicate InBounds(p: Position, max: Position)
  {
    0 <= p.x <= max.x && 0 <= p.y <= max.y
  }
}
