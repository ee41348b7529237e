/*
 * The player controller component. It owns the running-segment timer, drives
 * the state component through its setters, arms the movement component's
 * apex check, sets the movement limits derived from the running meter,
 * (de)activates its game object and reports deaths to the game.
 *
 * Each method is proved to move the controller's view exactly as the
 * function of the same name in MarioRules does.
 */
module MarioModel {
  import opened MarioStateModel
  import opened MarioRules

  class Mario {
    const settings: Settings
    const marioState: MarioState

    var runningSegmentTimer: nat
    var checkJumpApex: bool         // the movement component's apex check
    var limits: Limits              // the movement and animator limits
    var active: bool                // the game object is active
    var deathNotices: seq<bool>     // the calls made to the game's death handler

    function View(): Snapshot
      reads this, marioState
    {
      Snapshot(marioState.View(), runningSegmentTimer, checkJumpApex, limits, active, deathNotices)
    }

    constructor (settings: Settings)
      ensures this.settings == settings && fresh(marioState)
      ensures View() == Start
    {
      this.settings := settings;
      marioState := new MarioState();
      runningSegmentTimer := 0;
      checkJumpApex := false;
      limits := WalkingLimits;
      active := true;
      deathNotices := [];
    }

    method ApplyStateChange(newState: State)
      modifies this, marioState
      ensures View() == MarioRules.ApplyStateChange(old(View()), newState)
    {
      if marioState.state == newState {
        return;
      }
      marioState.SetState(newState);
      if newState == Jumping {
        checkJumpApex := true;
      }
    }

    method MarioHasDied(spawnDeadMario: bool)
      modifies this, marioState
      ensures View() == MarioRules.MarioHasDied(old(View()), spawnDeadMario)
    {
      if marioState.state != Dead {
        ApplyStateChange(Dead);
        active := false;
        deathNotices := deathNotices + [spawnDeadMario];
      }
    }

    method HandleDamage()
      modifies this, marioState
      ensures View() == MarioRules.HandleDamage(old(View()))
    {
      MarioHasDied(true);
    }

    method OnTriggerEnter(isEnemy: bool, isPiranhaPlant: bool, plantHiding: bool)
      modifies this, marioState
      ensures View() == TriggerEnter(old(View()), isEnemy, isPiranhaPlant, plantHiding)
    {
      if isEnemy && isPiranhaPlant && !plantHiding {
        MarioHasDied(true);
      }
    }

    method ResetMario()
      modifies this, marioState
      ensures View() == MarioRules.ResetMario(old(View()))
    {
      active := true;
      if marioState.state == Dead {
        marioState.SetDirection(Right);
      }
      ApplyStateChange(Idle);
    }

    method Run()
      modifies this, marioState
      ensures View() == MarioRules.Run(old(View()))
    {
      marioState.SetIsRunning(true);
      runningSegmentTimer := 0;
      limits := limits.(jumpHold := RunningHold(0));
    }

    method StopRunning()
      modifies this, marioState
      ensures View() == MarioRules.StopRunning(old(View()))
    {
      marioState.SetIsRunning(false);
      runningSegmentTimer := 0;
    }

    method OnFalling()
      modifies this, marioState
      ensures View() == MarioRules.OnFalling(old(View()))
    {
      marioState.SetIsOnGround(false);
      ApplyStateChange(Falling);
    }

    method OnJumped()
      modifies this, marioState
      ensures View() == MarioRules.OnJumped(old(View()))
    {
      marioState.SetIsOnGround(false);
      ApplyStateChange(Jumping);
    }

    method OnJumpApex()
      modifies this, marioState
      ensures View() == MarioRules.OnJumpApex(old(View()))
    {
      if !marioState.isOnGround {
        ApplyStateChange(Falling);
      }
    }

    method OnJumpLanded(duckPressed: bool, moveValueNonZero: bool)
      modifies this, marioState
      ensures View() == MarioRules.OnJumpLanded(old(View()), duckPressed, moveValueNonZero)
    {
      marioState.SetIsOnGround(true);
      if duckPressed {
        ApplyStateChange(Ducking);
      } else if !moveValueNonZero {
        ApplyStateChange(Idle);
      } else {
        ApplyStateChange(Walking);
      }
    }

    /** The running-meter part of a frame (the body of the frame update's meter branch). */
    method AdvanceRunningMeter(input: FrameInput)
      modifies this, marioState
      ensures View() == MeterStep(old(View()), settings, input)
    {
      if marioState.isRunning && !input.movementBlocked {
        if input.moveValueNonZero && marioState.isOnGround {
          runningSegmentTimer := runningSegmentTimer + input.elapsed;
          if runningSegmentTimer > settings.runSegmentIncrementTicks {
            runningSegmentTimer := 0;
            marioState.SetRunningMeter(marioState.runningMeter + 1);
            if marioState.runningMeter >= settings.maxRunningMeter {
              marioState.SetRunningMeter(settings.maxRunningMeter);
            }
            limits := ScaledLimits(marioState.runningMeter);
          }
        }
      } else if marioState.runningMeter > 0 {
        runningSegmentTimer := runningSegmentTimer + input.elapsed;
        if runningSegmentTimer > settings.runSegmentDecrementTicks {
          runningSegmentTimer := 0;
          marioState.SetRunningMeter(marioState.runningMeter - 1);
          if marioState.runningMeter <= 0 {
            marioState.SetRunningMeter(0);
            limits := WalkingLimits;
          }
        } else {
          limits := ScaledLimits(marioState.runningMeter);
        }
      }
    }

    method Update(input: FrameInput)
      modifies this, marioState
      ensures View() == MarioRules.Update(old(View()), settings, input)
    {
      if marioState.state != Dead {
        if input.isFalling && marioState.isOnGround {
          marioState.SetIsOnGround(false);
        }
        AdvanceRunningMeter(input);
        if input.belowKillPlane {
          MarioHasDied(false);
        }
      }
    }
  }
}
