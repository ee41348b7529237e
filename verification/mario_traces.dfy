/*
 * Sequences of the controller's entry points: frame updates, the public
 * state and running switches, damage and trigger contacts, and the movement
 * component's callbacks. The lemmas state what holds along any such sequence.
 */
module MarioTraces {
  import opened MarioStateModel
  import opened MarioRules

  /** One call into the controller. */
  datatype Event =
    | Frame(input: FrameInput)
    | ChangeState(newState: State)
    | Reset
    | StartRunning
    | StopRun
    | Damage
    | Trigger(isEnemy: bool, isPiranhaPlant: bool, plantHiding: bool)
    | Fell
    | Jumped
    | JumpApex
    | JumpLanded(duckPressed: bool, moveValueNonZero: bool)

  /** The event kills a live character, which sends one notice to the game. */
  predicate Dies(s: Snapshot, e: Event) {
    s.rec.state != Dead &&
    match e
    case Frame(input) => input.belowKillPlane
    case Damage => true
    case Trigger(isEnemy, isPiranhaPlant, plantHiding) => isEnemy && isPiranhaPlant && !plantHiding
    case _ => false
  }

  function Step(s: Snapshot, settings: Settings, e: Event): (r: Snapshot)
    ensures Dies(s, e) ==> r.rec.state == Dead && !r.active
    ensures |r.deathNotices| == |s.deathNotices| + (if Dies(s, e) then 1 else 0)
    ensures r.deathNotices[..|s.deathNotices|] == s.deathNotices
    ensures r.checkJumpApex != s.checkJumpApex ==> r.rec.state == Jumping && s.rec.state != Jumping
    ensures 0 <= settings.maxRunningMeter && MeterInBounds(s, settings) ==> MeterInBounds(r, settings)
  {
    match e
    case Frame(input) => Update(s, settings, input)
    case ChangeState(newState) => ApplyStateChange(s, newState)
    case Reset => ResetMario(s)
    case StartRunning => Run(s)
    case StopRun => StopRunning(s)
    case Damage => HandleDamage(s)
    case Trigger(isEnemy, isPiranhaPlant, plantHiding) => TriggerEnter(s, isEnemy, isPiranhaPlant, plantHiding)
    case Fell => OnFalling(s)
    case Jumped => OnJumped(s)
    case JumpApex => OnJumpApex(s)
    case JumpLanded(duckPressed, moveValueNonZero) => OnJumpLanded(s, duckPressed, moveValueNonZero)
  }

  function Replay(s: Snapshot, settings: Settings, es: seq<Event>): Snapshot
    decreases |es|
  {
    if es == [] then s else Replay(Step(s, settings, es[0]), settings, es[1..])
  }

  /** How many events of the sequence kill a live character. */
  function Deaths(s: Snapshot, settings: Settings, es: seq<Event>): nat
    decreases |es|
  {
    if es == [] then 0
    else (if Dies(s, es[0]) then 1 else 0) + Deaths(Step(s, settings, es[0]), settings, es[1..])
  }

  /** With a non-negative maximum, no sequence of calls takes the meter out of its bounds. */
  lemma {:induction false} ReplayKeepsMeterInBounds(s: Snapshot, settings: Settings, es: seq<Event>)
    requires 0 <= settings.maxRunningMeter && MeterInBounds(s, settings)
    ensures MeterInBounds(Replay(s, settings, es), settings)
    decreases |es|
  {
    if es != [] {
      ReplayKeepsMeterInBounds(Step(s, settings, es[0]), settings, es[1..]);
    }
  }

  /** From the initial state, the meter stays within 0 and the maximum forever. */
  lemma MeterInBoundsFromStart(settings: Settings, es: seq<Event>)
    requires 0 <= settings.maxRunningMeter
    ensures 0 <= Replay(Start, settings, es).rec.runningMeter <= settings.maxRunningMeter
  {
    ReplayKeepsMeterInBounds(Start, settings, es);
  }

  /**
   * The game hears of each death exactly once: notices are only appended,
   * one for every event that kills a live character.
   */
  lemma {:induction false} ReplayNotifiesOncePerDeath(s: Snapshot, settings: Settings, es: seq<Event>)
    ensures |Replay(s, settings, es).deathNotices| == |s.deathNotices| + Deaths(s, settings, es)
    ensures Replay(s, settings, es).deathNotices[..|s.deathNotices|] == s.deathNotices
    decreases |es|
  {
    if es != [] {
      var t := Step(s, settings, es[0]);
      ReplayNotifiesOncePerDeath(t, settings, es[1..]);
      var u := Replay(t, settings, es[1..]);
      assert u.deathNotices[..|s.deathNotices|] == u.deathNotices[..|t.deathNotices|][..|s.deathNotices|];
    }
  }

  /** Frames change nothing once the character is dead. */
  lemma {:induction false} FramesLeaveTheDeadAlone(s: Snapshot, settings: Settings, es: seq<Event>)
    requires s.rec.state == Dead
    requires forall i :: 0 <= i < |es| ==> es[i].Frame?
    ensures Replay(s, settings, es) == s
    decreases |es|
  {
    if es != [] {
      FramesLeaveTheDeadAlone(s, settings, es[1..]);
    }
  }
}
