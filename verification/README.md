# Mario player controller — a Dafny model

This project models the player-character controller of a 2D platformer. It covers two parts:

- the `MarioState` component: the locomotion state, the facing direction, the running meter and the running and on-ground flags, each changed through a setter;
- the `Mario` component: the state-change rule, the movement callbacks (falling, jumped, jump apex, landed), death and respawn, running on and off, the per-frame running-meter update, and the choice of animation clip.

Files and modules:

- `mario_state.dfy`, module `MarioStateModel`: the `State` (six values) and `Direction` (two values) datatypes, the `Record` value, and the `MarioState` class with its setters and `DirectionScalar`.
- `mario_rules.dfy`, module `MarioRules`: every controller operation as a function on a `Snapshot`. A snapshot holds the state record, the running-segment timer, the movement component's apex check, the derived movement limits, whether the game object is active, and the death notices sent to the game. The contracts of these functions state what each operation does. The module also holds the pure clip selection `SelectClip`.
- `mario_traces.dfy`, module `MarioTraces`: the controller's entry points as `Event`s, `Replay` of an event sequence, and lemmas proved by induction over any sequence. The meter stays in bounds. The game is notified exactly once per death. Frames leave a dead character untouched.
- `mario.dfy`, module `MarioModel`: the `Mario` class. It owns a `MarioState` object and the controller's own fields. Each method updates them step by step, as the component does. Each method is proved to take `View()` to the value of the matching `MarioRules` function applied to `old(View())`.

Time is counted in whole ticks. A frame contributes `elapsed` ticks, which stand for `Time.deltaTime` times the game's local time scale. The two segment durations are integer tick counts. A segment completes when the accumulated timer is strictly greater than its duration, as in the source.

The derived float limits are kept symbolically as a `Limits` value:

- `WalkingHold` is the walking jump hold time.
- `RunningHold(n)` is the running hold time plus `n` increments.
- A walk-speed segment count `n` stands for the base walk speed plus `n` per-segment speeds.
- A play-rate segment count `n` stands for an animator speed of 1 + 0.75·n.

One behaviour of the source is kept as written. When a decrement brings the meter down to a positive value, that frame does not refresh the limits (`Mario.cs:107-125`). They catch up on the next decaying frame that does not complete a segment, or on the next completed running segment.

## Model

| member | source | states |
|---|---|---|
| `MarioStateModel.Scalar` | Platformer2D/Assets/Scripts/MarioState.cs:43-46 | the scalar is -1 or +1, and it is negative exactly when facing Left |
| `MarioStateModel.ScalarDeterminesDirection` | Platformer2D/Assets/Scripts/MarioState.cs:43-46 | two directions with the same scalar are the same direction |
| `MarioStateModel.MarioState.constructor` | Platformer2D/Assets/Scripts/MarioState.cs:23-29 | a fresh record is Idle, facing Right, meter 0, not running, on the ground |
| `MarioStateModel.MarioState.SetState` | Platformer2D/Assets/Scripts/MarioState.cs:31-35 | the getter then returns the given state and no other field changes |
| `MarioStateModel.MarioState.SetDirection` | Platformer2D/Assets/Scripts/MarioState.cs:37-41 | the getter then returns the given direction and no other field changes |
| `MarioStateModel.MarioState.SetRunningMeter` | Platformer2D/Assets/Scripts/MarioState.cs:48-52 | stores any integer unclamped and changes no other field, so the meter bound is the caller's obligation |
| `MarioStateModel.MarioState.SetIsRunning` | Platformer2D/Assets/Scripts/MarioState.cs:54-58 | the getter then returns the given flag and no other field changes |
| `MarioStateModel.MarioState.SetIsOnGround` | Platformer2D/Assets/Scripts/MarioState.cs:60-64 | the getter then returns the given flag and no other field changes |
| `MarioStateModel.MarioState.DirectionScalar` | Platformer2D/Assets/Scripts/MarioState.cs:43-46 | -1 exactly when facing Left, +1 exactly when facing Right |
| `MarioRules.ApplyStateChange` | Platformer2D/Assets/Scripts/Mario.cs:176-194 | the state afterwards is the requested one; the same state changes nothing at all; the apex check is armed exactly when the state really changes to Jumping, and is otherwise left as it was; nothing else changes |
| `MarioRules.MarioHasDied` | Platformer2D/Assets/Scripts/Mario.cs:242-256 | always ends Dead; on a live character it deactivates the object and appends exactly one notice carrying the spawn flag; on a dead one it changes nothing; timer, apex check and limits are untouched |
| `MarioRules.HandleDamage` | Platformer2D/Assets/Scripts/Mario.cs:217-222 | ends Dead. A live character is deactivated and sends exactly one notice, asking for a dead body to be spawned. A dead character is left unchanged. The rest of the record, the timer, the apex check and the limits are untouched |
| `MarioRules.TriggerEnter` | Platformer2D/Assets/Scripts/Mario.cs:225-240 | only a live character touching a non-hiding piranha-plant enemy is changed. Such a contact always leaves it Dead, and a live one is deactivated with exactly one notice asking for a dead body. The rest of the record, the timer, the apex check and the limits are untouched |
| `MarioRules.ResetMario` | Platformer2D/Assets/Scripts/Mario.cs:154-174 | ends Idle and active; the direction becomes Right if the character was Dead and is kept otherwise; meter, flags, timer, apex check, limits and notices are unchanged |
| `MarioRules.Run` | Platformer2D/Assets/Scripts/Mario.cs:196-206 | running is on, the segment timer is 0 and the jump hold is the running constant. The other limits, the rest of the record, the apex check, activity and notices are unchanged |
| `MarioRules.StopRunning` | Platformer2D/Assets/Scripts/Mario.cs:208-215 | running is off, the segment timer is 0, and nothing else changes |
| `MarioRules.OnFalling` | Platformer2D/Assets/Scripts/Mario.cs:258-262 | off the ground and Falling; everything else in the snapshot, the apex check included, is unchanged |
| `MarioRules.OnJumped` | Platformer2D/Assets/Scripts/Mario.cs:264-268 | off the ground and Jumping. The apex check is armed when the character was not already Jumping and is kept as it was otherwise. Everything else is unchanged |
| `MarioRules.OnJumpApex` | Platformer2D/Assets/Scripts/Mario.cs:270-276 | switches to Falling when airborne; on the ground nothing changes; only the state ever changes |
| `MarioRules.OnJumpLanded` | Platformer2D/Assets/Scripts/Mario.cs:278-297 | on the ground afterwards. Ducking iff duck is pressed, Idle iff not ducking and the move value is 0, Walking iff not ducking and moving. Only the state and the on-ground flag change |
| `MarioRules.MeterStep` | Platformer2D/Assets/Scripts/Mario.cs:63-139 | while building up (running, unblocked, moving, on the ground), a completed increment segment sets the meter to its capped increment, resets the timer and scales the limits to the new meter; otherwise the timer accumulates and nothing else changes. While decaying (not running or blocked, meter above 0), a completed decrement segment lowers the meter by one and resets the timer, restoring the walking limits at 0 and keeping the old limits above 0; otherwise the timer accumulates and the limits follow the meter. In every other case nothing changes. The meter moves by at most one, and bounds 0..max are preserved |
| `MarioRules.Update` | Platformer2D/Assets/Scripts/Mario.cs:46-152 | a dead character is left exactly as it was. A live one is on the ground afterwards iff it was and no fall is reported. Its meter, timer and limits then follow the five cases of the meter step, judged on the post-fall on-ground flag. Meter bounds are preserved. It ends Dead exactly when below the kill plane, and then it is deactivated with exactly one notice that asks for no dead body. Otherwise activity and notices are unchanged. Direction, running flag and apex check never change |
| `MarioRules.CappedIncrement` | Platformer2D/Assets/Scripts/Mario.cs:76-82 | one more than the meter while below the maximum, and the maximum once the increment reaches it |
| `MarioRules.Clip.Name` | Platformer2D/Assets/Scripts/Mario.cs:303-331 | every clip name passed to the animator is a small-form clip, starting with "MarioSmall" |
| `MarioRules.ClipNamesDistinct` | Platformer2D/Assets/Scripts/Mario.cs:303-331 | different clips have different names, so the name the animator plays identifies the clip |
| `MarioRules.SelectClip` | Platformer2D/Assets/Scripts/Mario.cs:299-334 | no clip exactly when Dead. Idle clip exactly for Idle or Ducking. Turn exactly when Walking and skidding. Run exactly when Walking, not skidding, running and the meter is at the max. RunJump exactly when Jumping or Falling, running and at the max. Walk and Jump otherwise |
| `MarioTraces.Step` | Platformer2D/Assets/Scripts/Mario.cs:46-297 | for every entry point: a killing event leaves the character Dead and inactive. The notices grow by exactly one for a killing event and by none otherwise, and only ever by appending. The apex check changes only when the state changes to Jumping. Meter bounds are preserved |
| `MarioTraces.ReplayKeepsMeterInBounds` | Platformer2D/Assets/Scripts/Mario.cs:76-117 | with a non-negative maximum, any sequence of calls keeps 0 <= meter <= max |
| `MarioTraces.MeterInBoundsFromStart` | Platformer2D/Assets/Scripts/Mario.cs:76-117 | starting from the fresh state (meter 0), the meter is within 0..max after any sequence of calls |
| `MarioTraces.ReplayNotifiesOncePerDeath` | Platformer2D/Assets/Scripts/Mario.cs:242-256 | along any sequence of calls the game receives exactly one notice per event that kills a live character, and earlier notices are never altered |
| `MarioTraces.FramesLeaveTheDeadAlone` | Platformer2D/Assets/Scripts/Mario.cs:53-54 | any number of frames leaves a dead character's whole state unchanged |
| `MarioModel.Mario.constructor` | Platformer2D/Assets/Scripts/Mario.cs:13-43 | the controller starts with a fresh state record, timer 0, the apex check off, the walking limits, active, and no notices |
| `MarioModel.Mario.ApplyStateChange` | Platformer2D/Assets/Scripts/Mario.cs:176-194 | the setter-based implementation takes the view exactly as `MarioRules.ApplyStateChange` does |
| `MarioModel.Mario.MarioHasDied` | Platformer2D/Assets/Scripts/Mario.cs:242-256 | the guarded implementation takes the view exactly as `MarioRules.MarioHasDied` does |
| `MarioModel.Mario.HandleDamage` | Platformer2D/Assets/Scripts/Mario.cs:217-222 | behaves as `MarioRules.HandleDamage` |
| `MarioModel.Mario.OnTriggerEnter` | Platformer2D/Assets/Scripts/Mario.cs:225-240 | behaves as `MarioRules.TriggerEnter` |
| `MarioModel.Mario.ResetMario` | Platformer2D/Assets/Scripts/Mario.cs:154-174 | behaves as `MarioRules.ResetMario` |
| `MarioModel.Mario.Run` | Platformer2D/Assets/Scripts/Mario.cs:196-206 | behaves as `MarioRules.Run` |
| `MarioModel.Mario.StopRunning` | Platformer2D/Assets/Scripts/Mario.cs:208-215 | behaves as `MarioRules.StopRunning` |
| `MarioModel.Mario.OnFalling` | Platformer2D/Assets/Scripts/Mario.cs:258-262 | behaves as `MarioRules.OnFalling` |
| `MarioModel.Mario.OnJumped` | Platformer2D/Assets/Scripts/Mario.cs:264-268 | behaves as `MarioRules.OnJumped` |
| `MarioModel.Mario.OnJumpApex` | Platformer2D/Assets/Scripts/Mario.cs:270-276 | behaves as `MarioRules.OnJumpApex` |
| `MarioModel.Mario.OnJumpLanded` | Platformer2D/Assets/Scripts/Mario.cs:278-297 | behaves as `MarioRules.OnJumpLanded` |
| `MarioModel.Mario.AdvanceRunningMeter` | Platformer2D/Assets/Scripts/Mario.cs:63-139 | the in-place meter and timer updates take the view exactly as `MarioRules.MeterStep` does |
| `MarioModel.Mario.Update` | Platformer2D/Assets/Scripts/Mario.cs:46-152 | the frame update takes the view exactly as `MarioRules.Update` does |

## Left out

- Engine wiring in `Start` is not modelled: the component lookups, copying the settings into the movement component, and registering the callbacks. The constructor starts from the values these leave behind.
- Float arithmetic is not modelled. Frame time and segment durations are integer ticks. The jump hold time, the maximum walk speed and the animator play rate are recorded as the formula applied and the meter value it used, not as numbers.
- Animator playback is not recorded in the class. `SelectClip` gives the clip that the calls to `UpdateAnimator` would play at any point. Skidding is an input to it, because it comes from the movement component.
- Transform writes, `ClearAccumulatedForces` and `Debug.Log` are not modelled. These cover the respawn position, the sprite scale reset on respawn after death, and the logging of the meter.
- `MarioModel.Mario.ResetMario`: the spawn location is not a parameter, since only the transform uses it.
- The movement component's queries become inputs: is falling, movement blocked, and skidding. The controller's queries become inputs too: the move value being non-zero, and duck pressed. The kill-plane comparison of the vertical position becomes the input `belowKillPlane`.
- The game's local time scale is folded into `elapsed`. Copying it to the movement component each frame is not modelled.
- The trigger contact is reduced to three inputs: is an enemy, is a piranha plant, and the plant is hiding. The tag and component lookups behind them are not modelled.
- The game's death handler is only recorded: each call appends its spawn flag to `deathNotices`. In the game, a notice with the flag off calls `ResetMario` straight back. In the model, a later `Reset` event stands for that call. Pausing actors and spawning the dead body are game code, and Game.cs is not part of this model.
- Who clears the movement component's apex check is not modelled. That component is not part of this model, and this controller only ever sets the check.
- `MarioRules.MeterStep`: the meter is an unbounded integer, while in C# it is 32 bits and `RunningMeter++` wraps. With the maximum at the largest 32-bit value and the meter already there, the C# increment wraps to the smallest value and the cap test fails. The model caps it at the maximum instead.
- `MarioTraces.ReplayKeepsMeterInBounds`: holds for the 32-bit program only when the maximum is below the largest 32-bit value, because of the wrap-around described in the line above.
- Power-up forms and invincibility timers do not exist in this version of `Mario.cs`, so the model has only the small form's clips and no invincibility.
