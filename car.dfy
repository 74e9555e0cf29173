/**
 * A car agent (src/agents/Car.ts): a position, a speed and a direction
 * string.  `move` shifts exactly one coordinate by `speed`, chosen by the
 * direction; a direction other than the four recognised strings leaves the
 * car where it is, because the source's switch has no default branch.
 *
 * The image field and `draw` are rendering only and are not modelled.
 */
module CarAgent {

  /** The four direction strings the switch in `move` recognises. */
  const Left: string := "left"
  const Right: string := "right"
  const Up: string := "up"
  const Down: string := "down"

  predicate IsDirection(d: string) {
    d == Left || d == Right || d == Up || d == Down
  }

  predicate IsHorizontal(d: string) {
    d == Left || d == Right
  }

  /** The value a Car object holds, apart from its image. */
  datatype CarState = CarState(x: int, y: int, speed: int, direction: string)

  /**
   * The state after one call of `move`: the car advances by `speed` times
   * the unit step of its direction.  Only the coordinate on the axis of the
   * direction changes; speed and direction are never touched; an
   * unrecognised direction changes nothing.
   */
  function Moved(c: CarState): (r: CarState)
    ensures r == c.(x := c.x + StepX(c.direction) * c.speed, y := c.y + StepY(c.direction) * c.speed)
    ensures IsHorizontal(c.direction) ==> r.y == c.y
    ensures c.direction == Up || c.direction == Down ==> r.x == c.x
    ensures !IsDirection(c.direction) ==> r == c
    ensures c.speed == 0 ==> r == c
  {
    if c.direction == Left then c.(x := c.x - c.speed)
    else if c.direction == Right then c.(x := c.x + c.speed)
    else if c.direction == Up then c.(y := c.y - c.speed)
    else if c.direction == Down then c.(y := c.y + c.speed)
    else c
  }

  /** Signed unit step of a direction along x: nonzero exactly for left and right. */
  function StepX(d: string): (r: int)
    ensures r == -1 || r == 0 || r == 1
    ensures r != 0 <==> IsHorizontal(d)
  {
    if d == Left then -1 else if d == Right then 1 else 0
  }

  /** Signed unit step of a direction along y: nonzero exactly for up and down. */
  function StepY(d: string): (r: int)
    ensures r == -1 || r == 0 || r == 1
    ensures r != 0 <==> d == Up || d == Down
  {
    if d == Up then -1 else if d == Down then 1 else 0
  }

  /** `n` successive calls of `move`. */
  function MovedTimes(c: CarState, n: nat): (r: CarState) {
    if n == 0 then c else Moved(MovedTimes(c, n - 1))
  }

  /**
   * Over any number of ticks a car only travels along the axis of its
   * direction: the other coordinate never changes, and the travelled
   * distance is exactly n * speed in the direction's sense.
   */
  lemma {:induction false} MovedTimesAlongAxis(c: CarState, n: nat)
    ensures MovedTimes(c, n).speed == c.speed && MovedTimes(c, n).direction == c.direction
    ensures MovedTimes(c, n).x == c.x + StepX(c.direction) * (n * c.speed)
    ensures MovedTimes(c, n).y == c.y + StepY(c.direction) * (n * c.speed)
  {
    if n > 0 {
      MovedTimesAlongAxis(c, n - 1);
      var d := (n - 1) * c.speed;
      assert n * c.speed == d + c.speed;
    }
  }

  /** The direction string travelling the other way on the same axis. */
  function Opposite(d: string): (r: string)
    ensures IsDirection(d) ==> IsDirection(r) && r != d && IsHorizontal(r) == IsHorizontal(d)
  {
    if d == Left then Right
    else if d == Right then Left
    else if d == Up then Down
    else if d == Down then Up
    else d
  }

  /** Moving and then moving back with the opposite direction returns to the start. */
  lemma MoveThenReverse(c: CarState)
    ensures Moved(Moved(c).(direction := Opposite(c.direction))).(direction := c.direction) == c
  {
  }

  class Car {
    var x: int
    var y: int
    var speed: int
    var direction: string

    function State(): CarState
      reads this
    {
      CarState(x, y, speed, direction)
    }

    /** Stores the four values exactly as given (the image is not modelled). */
    constructor (x: int, y: int, speed: int, direction: string)
      ensures State() == CarState(x, y, speed, direction)
    {
      this.x := x;
      this.y := y;
      this.speed := speed;
      this.direction := direction;
    }

    method Move()
      modifies this
      ensures State() == Moved(old(State()))
    {
      match direction
      case "left" => x := x - speed;
      case "right" => x := x + speed;
      case "up" => y := y - speed;
      case "down" => y := y + speed;
      case _ =>
    }

    /** Overwrites the direction and nothing else. */
    method UpdateDirection(newDirection: string)
      modifies this
      ensures State() == old(State()).(direction := newDirection)
    {
      direction := newDirection;
    }
  }
}
