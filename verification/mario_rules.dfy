/*
 * The player controller's rules as functions on a snapshot of everything the
 * controller changes: the state record, the running-segment timer, the
 * movement component's jump-apex flag and derived limits, whether the game
 * object is active, and the death notices sent to the game.
 *
 * Time is counted in integer ticks: one frame contributes `elapsed` ticks,
 * its delta time already scaled by the game's local time scale.
 */
module MarioRules {
  import opened MarioStateModel

  /** The tuning values the running meter depends on. */
  datatype Settings = Settings(
    maxRunningMeter: int,
    runSegmentIncrementTicks: int,
    runSegmentDecrementTicks: int)

  /** What one frame learns from the engine. */
  datatype FrameInput = FrameInput(
    isFalling: bool,          // the movement component reports a fall
    movementBlocked: bool,    // the movement component blocks input
    moveValueNonZero: bool,   // the controller's move axis is not 0
    belowKillPlane: bool,     // the character is under the level's kill height
    elapsed: nat)             // scaled frame time, in ticks

  /**
   * The jump hold time the movement component is given: the walking
   * constant, or the running constant plus one increment per meter segment.
   */
  datatype JumpHold = WalkingHold | RunningHold(segments: int)

  /**
   * Limits derived from the running meter. A segment count n stands for
   * the base walk speed plus n times the per-segment speed, and for the
   * animation play rate 1 + 0.75 n.
   */
  datatype Limits = Limits(jumpHold: JumpHold, walkSpeedSegments: int, playRateSegments: int)

  const WalkingLimits := Limits(WalkingHold, 0, 0)

  function ScaledLimits(meter: int): Limits {
    Limits(RunningHold(meter), meter, meter)
  }

  /** Everything the controller changes, as one value. */
  datatype Snapshot = Snapshot(
    rec: Record,
    timer: nat,                 // the running-segment timer
    checkJumpApex: bool,        // the movement component's apex check
    limits: Limits,
    active: bool,               // the game object is active
    deathNotices: seq<bool>)    // the spawn flags passed to the game, in order

  /** The controller as it stands once its components are wired up. */
  const Start := Snapshot(Initial, 0, false, WalkingLimits, true, [])

  predicate MeterInBounds(s: Snapshot, settings: Settings) {
    0 <= s.rec.runningMeter <= settings.maxRunningMeter
  }

  // ---------------------------------------------------------------- state changes

  /** Switch to `newState` if it differs from the current one; arm the apex check on a jump. */
  function ApplyStateChange(s: Snapshot, newState: State): (r: Snapshot)
    ensures r.rec.state == newState
    ensures s.rec.state == newState ==> r == s
    ensures r.checkJumpApex <==> s.checkJumpApex || (s.rec.state != newState && newState == Jumping)
    ensures r.rec.(state := s.rec.state) == s.rec
    ensures r.(rec := s.rec, checkJumpApex := s.checkJumpApex) == s
  {
    if s.rec.state == newState then s
    else
      var t := s.(rec := s.rec.(state := newState));
      if newState == Jumping then t.(checkJumpApex := true) else t
  }

  /** Enter Dead, deactivate and notify the game, unless already dead. */
  function MarioHasDied(s: Snapshot, spawnDeadMario: bool): (r: Snapshot)
    ensures r.rec.state == Dead
    ensures s.rec.state == Dead ==> r == s
    ensures s.rec.state != Dead ==> !r.active && r.deathNotices == s.deathNotices + [spawnDeadMario]
    ensures r.rec.(state := s.rec.state) == s.rec
    ensures r.timer == s.timer && r.checkJumpApex == s.checkJumpApex && r.limits == s.limits
  {
    if s.rec.state != Dead then
      ApplyStateChange(s, Dead).(active := false, deathNotices := s.deathNotices + [spawnDeadMario])
    else s
  }

  function HandleDamage(s: Snapshot): (r: Snapshot)
    ensures r.rec.state == Dead
    ensures s.rec.state == Dead ==> r == s
    ensures s.rec.state != Dead ==> !r.active && r.deathNotices == s.deathNotices + [true]
    ensures r.rec.(state := s.rec.state) == s.rec
    ensures r.timer == s.timer && r.checkJumpApex == s.checkJumpApex && r.limits == s.limits
  {
    MarioHasDied(s, true)
  }

  /**
   * A trigger contact. Only an enemy that is a piranha plant and is not
   * hiding kills the character.
   */
  function TriggerEnter(s: Snapshot, isEnemy: bool, isPiranhaPlant: bool, plantHiding: bool): (r: Snapshot)
    ensures r != s ==> isEnemy && isPiranhaPlant && !plantHiding && s.rec.state != Dead
    ensures isEnemy && isPiranhaPlant && !plantHiding ==> r.rec.state == Dead
    ensures isEnemy && isPiranhaPlant && !plantHiding && s.rec.state != Dead ==>
      !r.active && r.deathNotices == s.deathNotices + [true]
    ensures r.rec.(state := s.rec.state) == s.rec
    ensures r.timer == s.timer && r.checkJumpApex == s.checkJumpApex && r.limits == s.limits
  {
    if isEnemy && isPiranhaPlant && !plantHiding then MarioHasDied(s, true) else s
  }

  /** Reactivate, face right again after a death, and go back to Idle. */
  function ResetMario(s: Snapshot): (r: Snapshot)
    ensures r.rec.state == Idle && r.active
    ensures r.rec.direction == (if s.rec.state == Dead then Right else s.rec.direction)
    ensures r.rec.runningMeter == s.rec.runningMeter && r.rec.isRunning == s.rec.isRunning
    ensures r.rec.isOnGround == s.rec.isOnGround
    ensures r.timer == s.timer && r.checkJumpApex == s.checkJumpApex && r.limits == s.limits
    ensures r.deathNotices == s.deathNotices
  {
    var a := s.(active := true);
    var b := if s.rec.state == Dead then a.(rec := a.rec.(direction := Right)) else a;
    ApplyStateChange(b, Idle)
  }

  function Run(s: Snapshot): (r: Snapshot)
    ensures r.rec.isRunning && r.timer == 0
    ensures r.limits.jumpHold == RunningHold(0)
    ensures r.limits.(jumpHold := s.limits.jumpHold) == s.limits
    ensures r.rec.(isRunning := s.rec.isRunning) == s.rec
    ensures r.(rec := s.rec, timer := s.timer, limits := s.limits) == s
  {
    s.(rec := s.rec.(isRunning := true), timer := 0, limits := s.limits.(jumpHold := RunningHold(0)))
  }

  function StopRunning(s: Snapshot): (r: Snapshot)
    ensures !r.rec.isRunning && r.timer == 0
    ensures r.(rec := s.rec, timer := s.timer) == s
    ensures r.rec.(isRunning := s.rec.isRunning) == s.rec
  {
    s.(rec := s.rec.(isRunning := false), timer := 0)
  }

  // ---------------------------------------------------------------- movement callbacks

  function OnFalling(s: Snapshot): (r: Snapshot)
    ensures !r.rec.isOnGround && r.rec.state == Falling
    ensures r.rec.(state := s.rec.state, isOnGround := s.rec.isOnGround) == s.rec
    ensures r.(rec := s.rec) == s
  {
    ApplyStateChange(s.(rec := s.rec.(isOnGround := false)), Falling)
  }

  function OnJumped(s: Snapshot): (r: Snapshot)
    ensures !r.rec.isOnGround && r.rec.state == Jumping
    ensures r.checkJumpApex == (s.checkJumpApex || s.rec.state != Jumping)
    ensures r.rec.(state := s.rec.state, isOnGround := s.rec.isOnGround) == s.rec
    ensures r.(rec := s.rec, checkJumpApex := s.checkJumpApex) == s
  {
    ApplyStateChange(s.(rec := s.rec.(isOnGround := false)), Jumping)
  }

  /** At the top of a jump an airborne character starts to fall. */
  function OnJumpApex(s: Snapshot): (r: Snapshot)
    ensures r.rec.state == (if s.rec.isOnGround then s.rec.state else Falling)
    ensures s.rec.isOnGround ==> r == s
    ensures r.rec.(state := s.rec.state) == s.rec
    ensures r.(rec := s.rec) == s
  {
    if !s.rec.isOnGround then ApplyStateChange(s, Falling) else s
  }

  /** Landing puts the character on the ground, then ducking, idle or walking. */
  function OnJumpLanded(s: Snapshot, duckPressed: bool, moveValueNonZero: bool): (r: Snapshot)
    ensures r.rec.isOnGround
    ensures r.rec.state == Ducking <==> duckPressed
    ensures r.rec.state == Idle <==> !duckPressed && !moveValueNonZero
    ensures r.rec.state == Walking <==> !duckPressed && moveValueNonZero
    ensures r.rec.(state := s.rec.state, isOnGround := s.rec.isOnGround) == s.rec
    ensures r.(rec := s.rec) == s
  {
    var grounded := s.(rec := s.rec.(isOnGround := true));
    if duckPressed then ApplyStateChange(grounded, Ducking)
    else if !moveValueNonZero then ApplyStateChange(grounded, Idle)
    else ApplyStateChange(grounded, Walking)
  }

  // ---------------------------------------------------------------- the frame update

  /** Running, unblocked, moving and on the ground: the meter builds up. */
  predicate BuildsUp(rec: Record, input: FrameInput) {
    rec.isRunning && !input.movementBlocked && input.moveValueNonZero && rec.isOnGround
  }

  /** Not running, or blocked, with meter left over: the meter decays. */
  predicate Decays(rec: Record, input: FrameInput) {
    !(rec.isRunning && !input.movementBlocked) && rec.runningMeter > 0
  }

  /** The meter after one increment, capped at the maximum. */
  function CappedIncrement(meter: int, max: int): (m: int)
    ensures meter < max ==> m == meter + 1
    ensures meter + 1 >= max ==> m == max
  {
    if meter + 1 >= max then max else meter + 1
  }

  /** The record once a reported fall has taken the character off the ground. */
  function FallChecked(s: Snapshot, input: FrameInput): Snapshot {
    s.(rec := s.rec.(isOnGround := s.rec.isOnGround && !input.isFalling))
  }

  /**
   * The running meter's part of a frame. While running, unblocked, moving
   * and on the ground, each elapsed increment segment adds one to the meter,
   * capped at the maximum. Otherwise a positive meter loses one per elapsed
   * decrement segment, floored at 0, where the walking limits come back.
   */
  function MeterStep(s: Snapshot, settings: Settings, input: FrameInput): (r: Snapshot)
    ensures r.rec.(runningMeter := s.rec.runningMeter) == s.rec
    ensures r.checkJumpApex == s.checkJumpApex && r.active == s.active
    ensures r.deathNotices == s.deathNotices
    ensures r.rec.runningMeter > s.rec.runningMeter ==>
      s.rec.isRunning && !input.movementBlocked && input.moveValueNonZero && s.rec.isOnGround
    ensures r.rec.runningMeter < s.rec.runningMeter && s.rec.runningMeter <= settings.maxRunningMeter ==>
      !(s.rec.isRunning && !input.movementBlocked)
    ensures s.rec.runningMeter <= settings.maxRunningMeter ==>
      s.rec.runningMeter - 1 <= r.rec.runningMeter <= s.rec.runningMeter + 1
    ensures r.rec.runningMeter != s.rec.runningMeter ==> r.timer == 0
    ensures 0 <= settings.maxRunningMeter && MeterInBounds(s, settings) ==> MeterInBounds(r, settings)
    ensures r.rec.runningMeter == 0 < s.rec.runningMeter <= settings.maxRunningMeter ==> r.limits == WalkingLimits
    // a completed increment segment
    ensures BuildsUp(s.rec, input) && s.timer + input.elapsed > settings.runSegmentIncrementTicks ==>
      r.rec.runningMeter == CappedIncrement(s.rec.runningMeter, settings.maxRunningMeter)
      && r.timer == 0 && r.limits == ScaledLimits(r.rec.runningMeter)
    // an increment segment still accumulating
    ensures BuildsUp(s.rec, input) && s.timer + input.elapsed <= settings.runSegmentIncrementTicks ==>
      r == s.(timer := s.timer + input.elapsed)
    // a completed decrement segment; a still positive meter keeps the old limits
    ensures Decays(s.rec, input) && s.timer + input.elapsed > settings.runSegmentDecrementTicks ==>
      r.rec.runningMeter == s.rec.runningMeter - 1 && r.timer == 0
      && r.limits == (if s.rec.runningMeter == 1 then WalkingLimits else s.limits)
    // a decrement segment still accumulating: the limits follow the meter
    ensures Decays(s.rec, input) && s.timer + input.elapsed <= settings.runSegmentDecrementTicks ==>
      r == s.(timer := s.timer + input.elapsed, limits := ScaledLimits(s.rec.runningMeter))
    // running but idle or airborne, or nothing left to decay
    ensures !BuildsUp(s.rec, input) && !Decays(s.rec, input) ==> r == s
  {
    var m := s.rec.runningMeter;
    if s.rec.isRunning && !input.movementBlocked then
      if input.moveValueNonZero && s.rec.isOnGround then
        var t := s.timer + input.elapsed;
        if t > settings.runSegmentIncrementTicks then
          var up := CappedIncrement(m, settings.maxRunningMeter);
          s.(rec := s.rec.(runningMeter := up), timer := 0, limits := ScaledLimits(up))
        else
          s.(timer := t)
      else
        s
    else if m > 0 then
      var t := s.timer + input.elapsed;
      if t > settings.runSegmentDecrementTicks then
        if m - 1 <= 0 then
          s.(rec := s.rec.(runningMeter := 0), timer := 0, limits := WalkingLimits)
        else
          s.(rec := s.rec.(runningMeter := m - 1), timer := 0)
      else
        s.(timer := t, limits := ScaledLimits(m))
    else
      s
  }

  /**
   * One frame: nothing happens to a dead character; otherwise a reported
   * fall takes it off the ground, the running meter advances, and dropping
   * below the kill plane kills it without spawning a dead body.
   */
  function Update(s: Snapshot, settings: Settings, input: FrameInput): (r: Snapshot)
    ensures s.rec.state == Dead ==> r == s
    ensures r.rec.direction == s.rec.direction && r.rec.isRunning == s.rec.isRunning
    ensures r.checkJumpApex == s.checkJumpApex
    ensures r.rec.state == (if input.belowKillPlane then Dead else s.rec.state)
    ensures s.rec.state != Dead ==> r.rec.isOnGround == (s.rec.isOnGround && !input.isFalling)
    ensures !input.isFalling ==> r.rec.isOnGround == s.rec.isOnGround
    ensures s.rec.state != Dead && input.belowKillPlane ==>
      !r.active && r.deathNotices == s.deathNotices + [false]
    ensures !input.belowKillPlane ==> r.active == s.active && r.deathNotices == s.deathNotices
    ensures s.rec.state != Dead ==>
      var g := FallChecked(s, input).rec;
      && (BuildsUp(g, input) && s.timer + input.elapsed > settings.runSegmentIncrementTicks ==>
            r.rec.runningMeter == CappedIncrement(s.rec.runningMeter, settings.maxRunningMeter)
            && r.timer == 0 && r.limits == ScaledLimits(r.rec.runningMeter))
      && (BuildsUp(g, input) && s.timer + input.elapsed <= settings.runSegmentIncrementTicks ==>
            r.rec.runningMeter == s.rec.runningMeter && r.timer == s.timer + input.elapsed
            && r.limits == s.limits)
      && (Decays(g, input) && s.timer + input.elapsed > settings.runSegmentDecrementTicks ==>
            r.rec.runningMeter == s.rec.runningMeter - 1 && r.timer == 0
            && r.limits == (if s.rec.runningMeter == 1 then WalkingLimits else s.limits))
      && (Decays(g, input) && s.timer + input.elapsed <= settings.runSegmentDecrementTicks ==>
            r.rec.runningMeter == s.rec.runningMeter && r.timer == s.timer + input.elapsed
            && r.limits == ScaledLimits(s.rec.runningMeter))
      && (!BuildsUp(g, input) && !Decays(g, input) ==>
            r.rec.runningMeter == s.rec.runningMeter && r.timer == s.timer && r.limits == s.limits)
    ensures r.rec.runningMeter > s.rec.runningMeter ==>
      s.rec.isRunning && !input.movementBlocked && input.moveValueNonZero
      && s.rec.isOnGround && !input.isFalling
    ensures r.rec.runningMeter != s.rec.runningMeter ==> r.timer == 0
    ensures 0 <= settings.maxRunningMeter && MeterInBounds(s, settings) ==> MeterInBounds(r, settings)
    ensures |r.deathNotices| == |s.deathNotices| + (if s.rec.state != Dead && input.belowKillPlane then 1 else 0)
  {
    if s.rec.state == Dead then s
    else
      var metered := MeterStep(FallChecked(s, input), settings, input);
      if input.belowKillPlane then MarioHasDied(metered, false) else metered
  }

  // ---------------------------------------------------------------- animation

  /** The flipbook clips of the small character. */
  datatype Clip = SmallIdle | SmallWalk | SmallRun | SmallTurn | SmallJump | SmallRunJump
  {
    /** The animator state played for the clip; every one is a small-form clip. */
    function Name(): (n: string)
      ensures |n| > 10 && n[..10] == "MarioSmall"
    {
      match this
      case SmallIdle => "MarioSmallIdle"
      case SmallWalk => "MarioSmallWalk"
      case SmallRun => "MarioSmallRun"
      case SmallTurn => "MarioSmallTurn"
      case SmallJump => "MarioSmallJump"
      case SmallRunJump => "MarioSmallRunJump"
    }
  }

  /** The animator can tell every clip apart by its name. */
  lemma ClipNamesDistinct(a: Clip, b: Clip)
    requires a != b
    ensures a.Name() != b.Name()
  {
  }

  datatype Option<T> = None | Some(value: T)

  /** The clip the animator is told to play, if any. */
  function SelectClip(rec: Record, skidding: bool, maxRunningMeter: int): (c: Option<Clip>)
    ensures c == None <==> rec.state == Dead
    ensures c == Some(SmallIdle) <==> rec.state == Idle || rec.state == Ducking
    ensures c == Some(SmallTurn) <==> rec.state == Walking && skidding
    ensures c == Some(SmallRun) || c == Some(SmallRunJump) ==>
      rec.isRunning && rec.runningMeter == maxRunningMeter
    ensures c == Some(SmallRun) <==>
      rec.state == Walking && !skidding && rec.isRunning && rec.runningMeter == maxRunningMeter
    ensures c == Some(SmallRunJump) <==>
      (rec.state == Jumping || rec.state == Falling) && rec.isRunning && rec.runningMeter == maxRunningMeter
    ensures c == Some(SmallWalk) ==> rec.state == Walking
    ensures c == Some(SmallJump) ==> rec.state == Jumping || rec.state == Falling
  {
    var fullSpeed := rec.isRunning && rec.runningMeter == maxRunningMeter;
    match rec.state
    case Idle | Ducking => Some(SmallIdle)
    case Walking =>
      if !skidding then (if fullSpeed then Some(SmallRun) else Some(SmallWalk))
      else Some(SmallTurn)
    case Jumping | Falling => if fullSpeed then Some(SmallRunJump) else Some(SmallJump)
    case Dead => None
  }
}
