/*
 * The record of the player character's state: its locomotion state, the
 * direction it faces, the running meter and two flags. The engine component
 * keeps these in private fields changed through property setters; here the
 * component is a class whose setter methods change exactly one field.
 */
module MarioStateModel {

  /** The six locomotion states of the character. */
  datatype State = Idle | Walking | Jumping | Falling | Ducking | Dead

  /** The two directions the character can face. */
  datatype Direction = Right | Left

  /** The value held by a `MarioState` at one moment. */
  datatype Record = Record(
    state: State,
    direction: Direction,
    runningMeter: int,
    isRunning: bool,
    isOnGround: bool)

  /** The values a fresh state component starts with. */
  const Initial := Record(Idle, Right, 0, false, true)

  /** The sign of horizontal motion for a facing: -1 to the left, +1 to the right. */
  function Scalar(d: Direction): (r: int)
    ensures r == -1 || r == 1
    ensures r < 0 <==> d == Left
  {
    if d == Left then -1 else 1
  }

  /** Facing is recovered from its scalar, so no two directions share one. */
  lemma ScalarDeterminesDirection(a: Direction, b: Direction)
    requires Scalar(a) == Scalar(b)
    ensures a == b
  {
  }

  class MarioState {
    var state: State
    var direction: Direction
    var runningMeter: int
    var isRunning: bool
    var isOnGround: bool

    /** The record currently stored; each field read is the property's getter. */
    function View(): Record
      reads this
    {
      Record(state, direction, runningMeter, isRunning, isOnGround)
    }

    constructor ()
      ensures View() == Initial
    {
      state := Idle;
      direction := Right;
      runningMeter := 0;
      isRunning := false;
      isOnGround := true;
    }

    method SetState(v: State)
      modifies this
      ensures state == v
      ensures View() == old(View()).(state := v)
    {
      state := v;
    }

    method SetDirection(v: Direction)
      modifies this
      ensures direction == v
      ensures View() == old(View()).(direction := v)
    {
      direction := v;
    }

    /** Stores any integer: the setter does not clamp, so bounds are the caller's concern. */
    method SetRunningMeter(v: int)
      modifies this
      ensures runningMeter == v
      ensures View() == old(View()).(runningMeter := v)
    {
      runningMeter := v;
    }

    method SetIsRunning(v: bool)
      modifies this
      ensures isRunning == v
      ensures View() == old(View()).(isRunning := v)
    {
      isRunning := v;
    }

    method SetIsOnGround(v: bool)
      modifies this
      ensures isOnGround == v
      ensures View() == old(View()).(isOnGround := v)
    {
      isOnGround := v;
    }

    /** -1 when facing left and +1 when facing right. */
    function DirectionScalar(): (r: int)
      reads this
      ensures r == -1 <==> direction == Left
      ensures r == 1 <==> direction == Right
    {
      Scalar(direction)
    }
  }
}
