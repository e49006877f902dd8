/** The three calculators: the new heading after an action, the new
    position after a move (saturating at the plateau's edges), and the
    rover state after one action. */
module Calculators {
  import opened Rover

  /** DirectionCalculator.turn: a move keeps the heading without looking
      at it; a left turn goes N -> W -> S -> E -> N and a right turn
      N -> E -> S -> W -> N; a turn from a heading outside the compass
      fails, and so does an action that is none of the three. */
  function Turn(current: Direction, action: Action): (r: Result<Direction>)
    ensures action.Move? ==> r == Ok(current)
    ensures (action.LeftTurn? || action.RightTurn?) ==> (r.Ok? <==> IsCompass(current))
    ensures (action.LeftTurn? || action.RightTurn?) && r.Ok? ==> IsCompass(r.value) && r.value != current
    ensures (action.LeftTurn? || action.RightTurn?) && !IsCompass(current) ==>
              r == Err("Direction not supported:" + Letter(current))
    ensures action.Unsupported? ==> r == Err("Action not supported:" + ActionToken(action))
  {
    match action
    case Move => Ok(current)
    case LeftTurn =>
      (match current
       case W => Ok(S)
       case S => Ok(E)
       case E => Ok(N)
       case N => Ok(W)
       case Other(t) => Err("Direction not supported:" + t))
    case RightTurn =>
      (match current
       case W => Ok(N)
       case S => Ok(W)
       case E => Ok(S)
       case N => Ok(E)
       case Other(t) => Err("Direction not supported:" + t))
    case Unsupported(t) => Err("Action not supported:" + t)
  }

  /** The compass heading that is `i` quarter turns clockwise from north. */
  function CompassAt(i: int): (d: Direction)
    ensures IsCompass(d)
  {
    var m := i % 4;
    if m == 0 then N else if m == 1 then E else if m == 2 then S else W
  }

  /** How many quarter turns clockwise from north a compass heading is. */
  function CompassIndex(d: Direction): (i: nat)
    requires IsCompass(d)
    ensures i < 4 && CompassAt(i) == d
  {
    match d
    case N => 0
    case E => 1
    case S => 2
    case W => 3
  }

  /** A right turn is one quarter turn clockwise. */
  lemma TurnRightIsClockwise(d: Direction)
    requires IsCompass(d)
    ensures Turn(d, RightTurn) == Ok(CompassAt(CompassIndex(d) + 1))
  {
  }

  /** A left turn is one quarter turn counter-clockwise. */
  lemma TurnLeftIsCounterClockwise(d: Direction)
    requires IsCompass(d)
    ensures Turn(d, LeftTurn) == Ok(CompassAt(CompassIndex(d) - 1))
  {
  }

  /** Left and right turns undo each other on the compass. */
  lemma LeftRightInverse(d: Direction)
    requires IsCompass(d)
    ensures Turn(Turn(d, LeftTurn).value, RightTurn) == Ok(d)
    ensures Turn(Turn(d, RightTurn).value, LeftTurn) == Ok(d)
  {
  }

  /** The smaller of `v` and `hi`, or `lo` if that is larger: `v` saturated into [lo, hi]. */
  function Clamp(v: int, lo: int, hi: int): (r: int)
    requires lo <= hi
    ensures lo <= r <= hi
    ensures lo <= v <= hi ==> r == v
  {
    if v < lo then lo else if v > hi then hi else v
  }

  /** One unprotected grid step in a heading: east and north increase x and y. */
  function Translate(p: Position, d: Direction): Position
  {
    match d
    case E => Position(p.x + 1, p.y)
    case W => Position(p.x - 1, p.y)
    case N => Position(p.x, p.y + 1)
    case S => Position(p.x, p.y - 1)
    case Other(_) => p
  }

  /** PositionCalculator.move: one step in the rover's heading, where a step
      past an edge of the plateau leaves that coordinate where it is; an
      unrecognised heading leaves the position unchanged. */
  function Move(current: RoverState, max: Position): (r: Position)
    ensures current.direction.E? || current.direction.W? ==> r.y == current.position.y
    ensures current.direction.N? || current.direction.S? ==> r.x == current.position.x
    ensures current.direction.Other? ==> r == current.position
    ensures InBounds(current.position, max) ==> InBounds(r, max)
  {
    var p := current.position;
    match current.direction
    case E => Position(if max.x < p.x + 1 then max.x else p.x + 1, p.y)
    case W => Position(if 0 > p.x - 1 then 0 else p.x - 1, p.y)
    case N => Position(p.x, if max.y < p.y + 1 then max.y else p.y + 1)
    case S => Position(p.x, if 0 > p.y - 1 then 0 else p.y - 1)
    case Other(_) => p
  }

  /** On the plateau, a move is the unprotected step saturated into the plateau. */
  lemma MoveIsClampedStep(current: RoverState, max: Position)
    requires InBounds(current.position, max)
    ensures var t := Translate(current.position, current.direction);
            Move(current, max) == Position(Clamp(t.x, 0, max.x), Clamp(t.y, 0, max.y))
  {
  }

  /** A move towards an edge the rover stands on is a silent no-op; any
      other move on the plateau is a full step. */
  lemma MoveAtEdge(current: RoverState, max: Position)
    requires InBounds(current.position, max)
    ensures var p := current.position;
            var d := current.direction;
            var atEdge := (d.E? && p.x == max.x) || (d.W? && p.x == 0) ||
                          (d.N? && p.y == max.y) || (d.S? && p.y == 0);
            Move(current, max) == if atEdge then p else Translate(p, d)
  {
  }

  /** RoverStateCalculator.action: the heading is always recomputed by
      `Turn` (whose failure is the step's failure); only a move changes
      the position, computed from the heading before the action. */
  function ApplyAction(current: RoverState, max: Position, action: Action): (r: Result<RoverState>)
    ensures r.Ok? <==> Turn(current.direction, action).Ok?
    ensures r.Err? ==> r.message == Turn(current.direction, action).message
    ensures r.Ok? ==> r.value.direction == Turn(current.direction, action).value
    ensures r.Ok? && action.Move? ==> r.value == RoverState(Move(current, max), current.direction)
    ensures r.Ok? && !action.Move? ==> r.value.position == current.position
    ensures r.Ok? && InBounds(current.position, max) ==> InBounds(r.value.position, max)
  {
    match Turn(current.direction, action)
    case Err(e) => Err(e)
    case Ok(d) =>
      var next := RoverState(current.position, d);
      if action.Move? then Ok(next.(position := Move(current, max))) else Ok(next)
  }
}
