# Border-Assault simulation rules in Dafny

This project models the gameplay rules of the Unity 2D platformer Border-Assault and proves
properties of them. Each script is a small state machine that the engine drives one frame
(`Update`) or one physics step (`FixedUpdate`) at a time. The modelled scripts are:

- **Player input** (`PlayerInputHandler`): the flags the input-action callbacks set and clear,
  and the shared "one-shot" reset.
- **Player movement** (`PlayerMovement`): the jump budget, the landing reset, variable-height
  jumps, the dash window and its cooldown, and the order in which horizontal velocity is
  decided (attacking, then dashing, then normal movement).
- **Player combat** (`PlayerAttack`): the three-stage combo, the attack cooldown and
  combo-reset interval, the queued attack impulse, and the three hit colliders.
- **The enemy base** (`EnemyBase`): the death latch, the hit flash that suspends behaviour,
  the player range flags, knockback, and registration with the manager.
- **The three enemy strategies**: patrol only, patrol and chase with a three-second
  lost-target delay, and stationary ranged with a fire cooldown.
- **The population coordinator** (`EnemyManager`): a duplicate-free enemy list with a leader
  present exactly when five or more enemies are listed.
- **The older enemy script** (`Enemy`) and **the ranged enemy's projectile**
  (`EnemyProjectile`).

Every script is a Dafny class with the fields the script updates. Each class comes with a
value snapshot (`State()`, `Combo()`, `Colliders()`, `Current()` or `Memory()`) and with pure
step functions on that snapshot, whose contracts state the rules. Each method is proved to
move the snapshot exactly as its step function says. Lemmas over sequences of frames state
properties that span several calls: bounds, latches, rate limits, idempotence and the
leader invariant.

The engine's contributions are method parameters:

- elapsed time `dt` (the per-frame methods require `dt > 0`);
- the ground-contact answer and the overlap-query results;
- the player's position (`Option<Vec2>`, where `None` means there is no player);
- the engine's distance function (`Distance`);
- the random index (`pick`, used as `pick % count`);
- the tag of a collider that was touched.

Unity's delayed calls are lists of pending delays (`Timers.Pending`). These are `Invoke`, the
`WaitForSeconds` in the hit-flash coroutine, and `Destroy(obj, delay)`. A driver advances them
once per frame with the `AdvanceTimers(dt)` methods. A call runs on the frame in which its
delay runs out. A destroyed object is marked by a `destroyed` field. Unity then treats the
object as null, and `GetAlliesInRange` skips it.

The model follows the code where its behaviour may be surprising:

- A dash sets vertical velocity to zero.
- The full jump force is used exactly when two jumps remain.
- An accepted attack applies its impulse at once and also queues the same impulse for the
  next physics step.
- The ranged enemy restarts its cooldown even when it cannot create a projectile.
- The older `Enemy` keeps losing health after death.
- A negative damage amount raises health; no script guards against it.
- A pending collider disable switches off whichever collider is current when it comes due.

Unity's `Mathf.Sign` returns 1 for 0, and `Geometry.Sign` does the same. A vector's
`normalized` is zero below Unity's magnitude cut-off of 1e-5 (`Geometry.Epsilon`).

## Model

| member | source | states |
|---|---|---|
| Input.Apply | Assets/Scripts/Player/PlayerInputHandler.cs:21-34 | A performed jump sets both jump flags and a canceled jump clears both. Dash and attack set or clear only their pressed flag. A performed move stores the value read; a canceled move stores zero. Every other flag is unchanged. |
| Input.ResetOneShot | Assets/Scripts/Player/PlayerInputHandler.cs:51-56 | Clears the jump, dash and attack pressed flags together. The held jump flag and the move input survive. |
| Input.ResetOneShotIdempotent | Assets/Scripts/Player/PlayerInputHandler.cs:51-56 | Consuming the inputs twice is the same as consuming them once. |
| Input.CancelForgetsPerform | Assets/Scripts/Player/PlayerInputHandler.cs:26-33 | A cancel right after a perform leaves the same flags as the cancel alone. |
| Input.NoJumpEventKeepsJump | Assets/Scripts/Player/PlayerInputHandler.cs:26-33 | Events of no other action change the jump pressed or held flags, so a consumed jump press never reappears without a new jump event. |
| Input.PlayerInputHandler.constructor | Assets/Scripts/Player/PlayerInputHandler.cs:15-19 | Starts with no move input and no flag set. |
| Input.PlayerInputHandler.OnAction | Assets/Scripts/Player/PlayerInputHandler.cs:21-34 | The callback for an event changes the flags exactly as `Apply` says. |
| Input.PlayerInputHandler.ResetOneShotInputs | Assets/Scripts/Player/PlayerInputHandler.cs:51-56 | Changes the flags exactly as `ResetOneShot` says. |
| Movement.MaxJumps | Assets/Scripts/Player/PlayerMovent.cs:48 | The jump budget is 2 with double jump enabled and 1 otherwise. |
| Movement.Initial | Assets/Scripts/Player/PlayerMovent.cs:44-49 | Awake starts with a full jump budget, and the movement invariant holds. |
| Movement.GroundCheck | Assets/Scripts/Player/PlayerMovent.cs:65-75 | The ground flag follows the contact query. Only a landing (not grounded before, grounded now) restores the jump budget and zeroes the hold timer; otherwise neither changes. The invariant is preserved. |
| Movement.DashTimerStep | Assets/Scripts/Player/PlayerMovent.cs:139-157 | A running dash counts down and forces the dash velocity with vertical velocity 0. It ends exactly when its timer is no longer positive, which starts the cooldown. The cooldown only counts down, and only while positive. No dash starts here. The invariant is preserved. |
| Movement.JumpHoldStep | Assets/Scripts/Player/PlayerMovent.cs:159-164 | The hold timer grows by dt while the jump is held, the player is airborne and vertical velocity is positive; otherwise it is 0. |
| Movement.FrameStep | Assets/Scripts/Player/PlayerMovent.cs:51-56 | Update preserves the invariant, sets the ground flag to the contact value, never starts a dash, and changes the jump budget only on a landing. |
| Movement.MovementStep | Assets/Scripts/Player/PlayerMovent.cs:77-107 | Velocity precedence. Attacking sets x to 0 and keeps y. Otherwise dashing sets the dash velocity with y 0. Otherwise x is the input times the speed (the air speed when airborne) and y is kept. Facing changes only in the last case, only for a non-zero input, and becomes the input's sign. |
| Movement.JumpStep | Assets/Scripts/Player/PlayerMovent.cs:109-127 | A jump happens exactly when the jump is pressed and the budget is positive. It spends one jump and applies the full force when two jumps remained (the reduced force otherwise). The impulse replaces vertical velocity: the new vertical velocity times the mass equals the impulse. It keeps horizontal velocity and consumes the one-shot inputs. Otherwise nothing changes. The hold force is requested exactly while held, airborne and rising, and under the maximum hold time. After a jump, "rising" means a positive impulse; without a jump it means the vertical velocity the step started with. The budget never goes negative. |
| Movement.ImpulseVelocity | Assets/Scripts/Player/PlayerMovent.cs:114-115 | The vertical velocity an impulse gives is the impulse divided by the mass. It is positive exactly when the impulse is. |
| Movement.AirJumpHoldsAtOnce | Assets/Scripts/Player/PlayerMovent.cs:109-127 | With the default force, an air jump (one jump left) made with the jump still held rises at 5.6. It requests the hold force in the same physics step. |
| Movement.DashStartStep | Assets/Scripts/Player/PlayerMovent.cs:129-137 | A dash starts exactly when dash is pressed, no dash is running, the cooldown is over and the input magnitude exceeds 0.1. It sets the dash timer to the dash duration and consumes the one-shot inputs; otherwise nothing changes. |
| Movement.PhysicsStep | Assets/Scripts/Player/PlayerMovent.cs:58-63 | FixedUpdate preserves the invariant. It jumps exactly when the jump is pressed with budget left, and then spends exactly one jump. |
| Movement.JumpDropsOtherPresses | Assets/Scripts/Player/PlayerMovent.cs:109-137 | In a physics step that jumps, no dash starts and a pending attack or dash press is dropped. |
| Movement.AirJumpsBounded | Assets/Scripts/Player/PlayerMovent.cs:65-118 | Without ground contact, any sequence of frames and physics steps makes at most as many jumps as remained at the start (at most 2). The budget falls by exactly the number of jumps. |
| Movement.PlayerMovement.constructor | Assets/Scripts/Player/PlayerMovent.cs:44-49 | Awake: the state is `Initial`. |
| Movement.PlayerMovement.CheckGrounded | Assets/Scripts/Player/PlayerMovent.cs:65-75 | Changes the fields exactly as `GroundCheck` says. |
| Movement.PlayerMovement.UpdateDashState | Assets/Scripts/Player/PlayerMovent.cs:139-157 | Changes the fields exactly as `DashTimerStep` says. |
| Movement.PlayerMovement.UpdateJumpHoldTimer | Assets/Scripts/Player/PlayerMovent.cs:159-164 | Changes the fields exactly as `JumpHoldStep` says, reading the input handler's held flag. |
| Movement.PlayerMovement.Update | Assets/Scripts/Player/PlayerMovent.cs:51-56 | Changes the fields exactly as `FrameStep` says and keeps the invariant. |
| Movement.PlayerMovement.HandleMovement | Assets/Scripts/Player/PlayerMovent.cs:77-107 | Changes the fields exactly as `MovementStep` says. |
| Movement.PlayerMovement.HandleJump | Assets/Scripts/Player/PlayerMovent.cs:109-127 | Changes the controller (including the velocity the jump impulse gives) and the input handler exactly as `JumpStep` says. Returns the jump impulse and the hold-force request. |
| Movement.PlayerMovement.HandleDash | Assets/Scripts/Player/PlayerMovent.cs:129-137 | Changes the controller and the input handler exactly as `DashStartStep` says. |
| Movement.PlayerMovement.FixedUpdate | Assets/Scripts/Player/PlayerMovent.cs:58-63 | Changes the fields exactly as `PhysicsStep` says and keeps the invariant. |
| Combat.CooldownStep | Assets/Scripts/Player/PlayerAttack.cs:71-80 | A positive cooldown only counts down and the attack flag is kept. The flag is cleared only on a frame that starts with the cooldown at or below 0. Nothing else changes, and the combat invariant is preserved. |
| Combat.ComboIntervalStep | Assets/Scripts/Player/PlayerAttack.cs:82-90 | With no combo open nothing changes. While a combo is open its timer grows by dt, and the combo becomes 0 exactly when the timer reaches the maximum interval. The invariant is preserved. |
| Combat.NextCombo | Assets/Scripts/Player/PlayerAttack.cs:103 | The next stage is one more, capped at 3, and always in 1..3. |
| Combat.AttackStep | Assets/Scripts/Player/PlayerAttack.cs:101-119 | An accepted attack advances the combo, restarts the interval timer at 0, sets the attack flag and the full cooldown, and queues one impulse of facing times the attack force. The invariant holds afterwards. |
| Combat.FrameStep | Assets/Scripts/Player/PlayerAttack.cs:63-99 | Update runs the cooldown step, then the interval step, then the input check. An attack is accepted exactly when attack is pressed, no attack is in progress, the cooldown is at or below 0 and the player is not dashing. Then it performs the attack and requests its impulse at once; otherwise only the timers move. The combo never grows without an accepted attack, and the invariant (combo in 0..3) is preserved. |
| Combat.ImpulseStep | Assets/Scripts/Player/PlayerAttack.cs:121-128 | FixedUpdate applies the queued impulse exactly when one is queued, and clears the queue. |
| Combat.ImpulseAppliedOnce | Assets/Scripts/Player/PlayerAttack.cs:121-128 | A second physics step without a new attack applies nothing. |
| Combat.AttackEndStep | Assets/Scripts/Player/PlayerAttack.cs:217-221 | OnAttackEnd resets the combo to 0 only when it is at 3 or more, and otherwise changes nothing. |
| Combat.ComboBounded | Assets/Scripts/Player/PlayerAttack.cs:63-119 | Over any run of frames the combo stays in 0..3 and the invariant holds. |
| Combat.CooldownBlocksAttacks | Assets/Scripts/Player/PlayerAttack.cs:71-99 | While less time has passed than the cooldown left, no attack is accepted, whatever the inputs. The cooldown has fallen by exactly the elapsed time. |
| Combat.AttackRateLimited | Assets/Scripts/Player/PlayerAttack.cs:94-108 | After an accepted attack, no attack is accepted until `attackCooldown` seconds of frames have passed. |
| Combat.ComboIntervalRun | Assets/Scripts/Player/PlayerAttack.cs:82-90 | With no attack input, the combo either is 0, or keeps its stage while its timer has counted all the elapsed time and is still under the maximum. |
| Combat.ZeroComboStays | Assets/Scripts/Player/PlayerAttack.cs:82-90 | With no attack input, a reset combo stays at 0. |
| Combat.ComboExpires | Assets/Scripts/Player/PlayerAttack.cs:82-90 | With no attack input for the rest of the maximum interval, the combo is back at 0. |
| Combat.ComboClampsAtThree | Assets/Scripts/Player/PlayerAttack.cs:103 | Chained attacks reach stages 1, 2 and 3, and a fourth stays at 3. |
| Combat.AtMostOneEnabled | Assets/Scripts/Player/PlayerAttack.cs:144-166 | Under the collider invariant, at most one hit collider is enabled. |
| Combat.Select | Assets/Scripts/Player/PlayerAttack.cs:150-158 | An activation selects stage i exactly when i is 1, 2 or 3 and that collider is assigned; otherwise it selects none. |
| Combat.DisableAll | Assets/Scripts/Player/PlayerAttack.cs:205-210 | Every assigned collider is switched off; unassigned ones are not touched. |
| Combat.ActivateStep | Assets/Scripts/Player/PlayerAttack.cs:144-166 | After an activation, exactly the selected collider is enabled, or none when nothing is selected. A disable is scheduled after the active time only for a selected collider. The collider invariant is preserved. |
| Combat.DisableCurrentStep | Assets/Scripts/Player/PlayerAttack.cs:196-200 | Only the current collider is switched off. |
| Combat.ColliderTimersStep | Assets/Scripts/Player/PlayerAttack.cs:162 | When a scheduled disable comes due, the collider current at that moment is switched off; other disables keep waiting. The collider invariant is preserved. |
| Combat.StaleDisableCutsNextStage | Assets/Scripts/Player/PlayerAttack.cs:158-166 | The disable scheduled for stage 1 switches off stage 2's collider when stage 2 starts 0.05 s later. Stage 2's collider is then active for only half its time. |
| Combat.DamageEvents | Assets/Scripts/Player/PlayerAttack.cs:184-190 | Each damageable result gets exactly one damage call of the stage's damage: a target is called as many times as it has damageable results. Results without a damageable component get none. |
| Combat.PlayerAttack.constructor | Assets/Scripts/Player/PlayerAttack.cs:53-61 | Awake starts with every collider off and the combat invariants holding. |
| Combat.PlayerAttack.UpdateCooldown | Assets/Scripts/Player/PlayerAttack.cs:71-80 | Changes the combo fields exactly as `CooldownStep` says and leaves the colliders alone. |
| Combat.PlayerAttack.UpdateComboInterval | Assets/Scripts/Player/PlayerAttack.cs:82-90 | Changes the combo fields exactly as `ComboIntervalStep` says. |
| Combat.PlayerAttack.ResetCombo | Assets/Scripts/Player/PlayerAttack.cs:130-136 | Sets the combo to 0 and changes nothing else. |
| Combat.PlayerAttack.PerformAttack | Assets/Scripts/Player/PlayerAttack.cs:101-119 | Changes the combo fields exactly as `AttackStep` says and returns the same impulse that it queues. |
| Combat.PlayerAttack.CheckAttackInput | Assets/Scripts/Player/PlayerAttack.cs:92-99 | When the four acceptance conditions hold it performs the attack, consumes the one-shot inputs and returns the impulse. Otherwise nothing changes and no impulse is returned. |
| Combat.PlayerAttack.Update | Assets/Scripts/Player/PlayerAttack.cs:63-68 | Changes the combo fields exactly as `FrameStep` says. The inputs are consumed exactly when an attack is accepted, and the invariant is kept. |
| Combat.PlayerAttack.FixedUpdate | Assets/Scripts/Player/PlayerAttack.cs:121-128 | Changes the combo fields exactly as `ImpulseStep` says and returns the impulse it applies. |
| Combat.PlayerAttack.OnAttackEnd | Assets/Scripts/Player/PlayerAttack.cs:217-221 | Changes the combo exactly as `AttackEndStep` says. |
| Combat.PlayerAttack.DisableAllColliders | Assets/Scripts/Player/PlayerAttack.cs:205-210 | Changes the colliders exactly as `DisableAll` says. |
| Combat.PlayerAttack.DisableCurrentCollider | Assets/Scripts/Player/PlayerAttack.cs:196-200 | Changes the colliders exactly as `DisableCurrentStep` says. |
| Combat.PlayerAttack.DetectEnemies | Assets/Scripts/Player/PlayerAttack.cs:171-191 | Without a current collider, no damage call. Otherwise it makes the `DamageEvents` calls for the first five overlap results (the buffer's size): exactly one call of the stage's damage per damageable result among them, so at most five calls. |
| Combat.PlayerAttack.ActivateAttackCollider | Assets/Scripts/Player/PlayerAttack.cs:144-166 | Changes the colliders exactly as `ActivateStep` says. It runs the damage query only for a selected collider and leaves the combo alone. |
| Combat.PlayerAttack.AdvanceTimers | Assets/Scripts/Player/PlayerAttack.cs:162 | The scheduler changes the colliders exactly as `ColliderTimersStep` says. |
| EnemyCore.Elect | Assets/Scripts/Enemy/EnemyManager.cs:55-67 | On an empty list nothing happens. Otherwise a listed enemy becomes leader, and the list is unchanged. |
| EnemyCore.ElectOnEmpty | Assets/Scripts/Enemy/EnemyManager.cs:57 | Electing on an empty list does nothing. |
| EnemyCore.CheckLeader | Assets/Scripts/Enemy/EnemyManager.cs:39-52 | With five or more listed and no leader, a member is elected. Below five there is no leader. An existing leader is kept while five or more are listed. The leader invariant is re-established. |
| EnemyCore.RemoveFirst | Assets/Scripts/Enemy/EnemyManager.cs:33 | Removes one occurrence of a listed enemy and keeps all the others. On a duplicate-free list the enemy is gone afterwards. |
| EnemyCore.Register | Assets/Scripts/Enemy/EnemyManager.cs:12-19 | A listed enemy changes nothing. An absent one is appended and the leader check runs. The enemy is listed afterwards, the invariant is preserved and an existing leader survives. |
| EnemyCore.Unregister | Assets/Scripts/Enemy/EnemyManager.cs:22-36 | An absent enemy changes nothing. A listed one is removed (and dropped as leader first if it was the leader), then the leader check runs. The invariant is preserved, and another leader survives while five or more remain. |
| EnemyCore.RegisterIdempotent | Assets/Scripts/Enemy/EnemyManager.cs:14-18 | Registering twice is registering once. |
| EnemyCore.UnregisterIdempotent | Assets/Scripts/Enemy/EnemyManager.cs:24-35 | Unregistering twice is unregistering once. |
| EnemyCore.RepeatedJoinCollapses | Assets/Scripts/Enemy/EnemyManager.cs:14-18 | Anywhere in a run of calls, registering an enemy twice in a row ends in the same population as registering it once. |
| EnemyCore.RepeatedLeaveCollapses | Assets/Scripts/Enemy/EnemyManager.cs:24-35 | Anywhere in a run of calls from a consistent manager, removing an enemy twice in a row ends in the same population as removing it once. |
| EnemyCore.LeaderInvariantHolds | Assets/Scripts/Enemy/EnemyManager.cs:12-52 | After any sequence of registrations and removals, there is a leader exactly when five or more are listed, the leader is listed, and no enemy is listed twice. |
| EnemyCore.LeaderScenario | Assets/Scripts/Enemy/EnemyManager.cs:12-52 | Four registered: no leader. A fifth: a leader among the five. The leader leaves: none among four. It returns: a member is leader again. |
| EnemyCore.Allies | Assets/Scripts/Enemy/EnemyManager.cs:70-84 | Every enemy reported is listed, still exists, is alive and is within range. There are no more than listed. |
| EnemyCore.AlliesInListOrder | Assets/Scripts/Enemy/EnemyManager.cs:70-84 | Allies come in list order. The result is picked out of the list at strictly increasing positions. |
| EnemyCore.AlliesAreExactlyQualified | Assets/Scripts/Enemy/EnemyManager.cs:70-84 | An enemy is reported exactly when it is listed, still exists, is alive and is within range. |
| EnemyCore.RangeStep | Assets/Scripts/Enemy/EnemyBase.cs:81-88 | With a player, the two flags become distance at most the detection range and at most the attack range. Without one, nothing changes. No other field changes. |
| EnemyCore.DieStep | Assets/Scripts/Enemy/EnemyBase.cs:134-146 | Die sets the death latch, zeroes velocity, disables the collider and schedules the removal one second later. Nothing else changes. |
| EnemyCore.Flash | Assets/Scripts/Enemy/EnemyBase.cs:112-131 | HitEffect up to its wait: the hit flag is set and one flash end is scheduled after the flash duration. Health, the death latch, motion, the collider, the removal and the range flags are untouched. |
| EnemyCore.DamageStep | Assets/Scripts/Enemy/EnemyBase.cs:94-109 | A dead enemy ignores the hit. A live one loses exactly the damage and starts its flash. It dies exactly when its health is then at most 0. Only a death changes velocity, collider or removal. Range flags, facing and existence are untouched. |
| EnemyCore.Knockback | Assets/Scripts/Enemy/EnemyBase.cs:149-155 | There is a knockback exactly when there is a player, and it pushes away from the player. |
| EnemyCore.BaseTimersStep | Assets/Scripts/Enemy/EnemyBase.cs:124-145 | A due flash end clears the hit flag, and a due removal destroys the object. The other fields are untouched. |
| EnemyCore.DeathIsFinal | Assets/Scripts/Enemy/EnemyBase.cs:94-96 | Once dead, no later hit or wait revives the enemy or changes its health, velocity or collider. |
| EnemyCore.ThirdHitKills | Assets/Scripts/Enemy/EnemyBase.cs:17-105 | With 30 health, three hits of 10 kill the enemy on exactly the third. |
| EnemyCore.FlashEnds | Assets/Scripts/Enemy/EnemyBase.cs:112-131 | A flash with nothing else pending has ended once its duration has passed. |
| EnemyCore.FlashLasts | Assets/Scripts/Enemy/EnemyBase.cs:112-131 | The flash is still on while less than its duration has passed. |
| EnemyCore.NoFlashStaysClear | Assets/Scripts/Enemy/EnemyBase.cs:112-131 | Without a hit, a cleared flash stays cleared. |
| EnemyCore.PatrolStep | Assets/Scripts/Enemy/PatrolOnlyEnemy.cs:16-34 | The enemy heads for the end point while moving to the end, else for the start. Away from the target, velocity times the distance is the offset to the target times the patrol speed: patrol speed along the line to the target. On the target (within the normalisation cut-off) it stands still. It faces its target, and switches waypoint exactly when within 0.1 of it. |
| EnemyCore.PatrolPingPong | Assets/Scripts/Enemy/PatrolOnlyEnemy.cs:29-33 | Reaching the waypoint turns the patrol towards the other one. |
| EnemyCore.EnemyBase.constructor | Assets/Scripts/Enemy/EnemyBase.cs:50-67 | Awake takes the spawn point as the first waypoint and registers with the manager when there is one. It leaves the manager valid. |
| EnemyCore.EnemyBase.CheckPlayerInRange | Assets/Scripts/Enemy/EnemyBase.cs:81-88 | Changes the fields exactly as `RangeStep` says. |
| EnemyCore.EnemyBase.HitEffect | Assets/Scripts/Enemy/EnemyBase.cs:112-131 | Sets the hit flag and schedules its end after the flash duration. |
| EnemyCore.EnemyBase.Die | Assets/Scripts/Enemy/EnemyBase.cs:134-146 | Changes the fields exactly as `DieStep` says and unregisters from the manager. |
| EnemyCore.EnemyBase.OnHit | Assets/Scripts/Enemy/EnemyBase.cs:149-155 | Returns the `Knockback` impulse. |
| EnemyCore.EnemyBase.TakeDamage | Assets/Scripts/Enemy/EnemyBase.cs:94-109 | Changes the fields exactly as `DamageStep` says. It knocks back exactly on a hit that the enemy survives, and tells the manager of a death and of nothing else. |
| EnemyCore.EnemyBase.AdvanceTimers | Assets/Scripts/Enemy/EnemyBase.cs:124-145 | The scheduler changes the fields exactly as `BaseTimersStep` says. |
| EnemyCore.EnemyBase.Patrol | Assets/Scripts/Enemy/PatrolAndChaseEnemy.cs:50-66 | Sets velocity and facing and returns the waypoint flag, exactly as `PatrolStep` says. |
| EnemyCore.EnemyManager.constructor | Assets/Scripts/Enemy/EnemyManager.cs:7-9 | Starts empty, with no leader. |
| EnemyCore.EnemyManager.ElectLeader | Assets/Scripts/Enemy/EnemyManager.cs:55-67 | Changes the list and leader exactly as `Elect` says, and sets only the new leader's flag. |
| EnemyCore.EnemyManager.CheckLeaderStatus | Assets/Scripts/Enemy/EnemyManager.cs:39-52 | Changes the list and leader exactly as `CheckLeader` says. Exactly the leader carries the leader flag afterwards. |
| EnemyCore.EnemyManager.RegisterEnemy | Assets/Scripts/Enemy/EnemyManager.cs:12-19 | Changes the list and leader exactly as `Register` says and keeps the invariant and the flags. |
| EnemyCore.EnemyManager.UnregisterEnemy | Assets/Scripts/Enemy/EnemyManager.cs:22-36 | Changes the list and leader exactly as `Unregister` says. A removed enemy no longer carries the leader flag. |
| EnemyCore.EnemyManager.GetAlliesInRange | Assets/Scripts/Enemy/EnemyManager.cs:70-84 | Returns the qualified allies, in list order. |
| PatrolOnly.PatrolOnlyTick | Assets/Scripts/Enemy/PatrolOnlyEnemy.cs:10-34 | Nothing happens while dead or flashing. Otherwise the range flags are refreshed and the enemy patrols and does nothing else. Its velocity is `PatrolStep`'s, patrol speed along the line to its waypoint. It faces the waypoint and switches exactly when within 0.1 of it. |
| PatrolOnly.PatrolOnlyEnemy.constructor | Assets/Scripts/Enemy/PatrolOnlyEnemy.cs:8 | The patrol starts towards the end point. |
| PatrolOnly.PatrolOnlyEnemy.ExecuteBehavior | Assets/Scripts/Enemy/PatrolOnlyEnemy.cs:10-13 | Patrols, exactly as `PatrolStep` says. |
| PatrolOnly.PatrolOnlyEnemy.Attack | Assets/Scripts/Enemy/PatrolOnlyEnemy.cs:36-39 | Changes nothing. |
| PatrolOnly.PatrolOnlyEnemy.Update | Assets/Scripts/Enemy/EnemyBase.cs:69-78 | Changes the enemy exactly as `PatrolOnlyTick` says. |
| PatrolAndChase.ChaseStep | Assets/Scripts/Enemy/PatrolAndChaseEnemy.cs:37-48 | Without a player nothing changes. With one, the enemy moves at its speed along the line to the player: velocity times the distance is the offset times the speed. On top of the player it stands still. It faces the player. Only velocity and facing change. |
| PatrolAndChase.BehaviorStep | Assets/Scripts/Enemy/PatrolAndChaseEnemy.cs:12-35 | In range: chase and zero the lost-target timer. Attack runs exactly when the player is also in attack range. Out of range: the timer grows by dt, and only once it reaches 3 s does the enemy patrol. Before that, velocity, facing and direction are untouched. |
| PatrolAndChase.ChaseTick | Assets/Scripts/Enemy/EnemyBase.cs:69-78 | Nothing happens while dead or flashing. Otherwise the range check runs, then the behaviour. An attack implies a live, unflashed enemy with the player in both ranges. |
| PatrolAndChase.LostTargetHoldsCourse | Assets/Scripts/Enemy/PatrolAndChaseEnemy.cs:26-34 | After the player is lost, for under 3 s of timer the enemy keeps its velocity, facing and patrol direction, and the timer counts exactly the elapsed time. |
| PatrolAndChase.ReacquireResetsDelay | Assets/Scripts/Enemy/PatrolAndChaseEnemy.cs:14-18 | Seeing the player again restarts the full delay. |
| PatrolAndChase.PatrolAndChaseEnemy.constructor | Assets/Scripts/Enemy/PatrolAndChaseEnemy.cs:8-10 | Starts towards the end point with the timer at 0. |
| PatrolAndChase.PatrolAndChaseEnemy.ChasePlayer | Assets/Scripts/Enemy/PatrolAndChaseEnemy.cs:37-48 | Changes the enemy exactly as `ChaseStep` says. |
| PatrolAndChase.PatrolAndChaseEnemy.Patrol | Assets/Scripts/Enemy/PatrolAndChaseEnemy.cs:50-66 | Changes the enemy exactly as `PatrolStep` says. |
| PatrolAndChase.PatrolAndChaseEnemy.Attack | Assets/Scripts/Enemy/PatrolAndChaseEnemy.cs:68-72 | Changes nothing the model tracks. |
| PatrolAndChase.PatrolAndChaseEnemy.ExecuteBehavior | Assets/Scripts/Enemy/PatrolAndChaseEnemy.cs:12-35 | Changes the enemy and its timer exactly as `BehaviorStep` says, and reports whether it attacked. |
| PatrolAndChase.PatrolAndChaseEnemy.Update | Assets/Scripts/Enemy/EnemyBase.cs:69-78 | Changes the enemy exactly as `ChaseTick` says. |
| StationaryRanged.ProjectileDirection | Assets/Scripts/Enemy/StationaryRangedEnemy.cs:45 | The projectile direction is +1 exactly when the scale is positive, else -1. |
| StationaryRanged.Shot | Assets/Scripts/Enemy/StationaryRangedEnemy.cs:37-47 | A projectile is created exactly when the prefab and the fire point are assigned, with the facing's direction. |
| StationaryRanged.RangedStep | Assets/Scripts/Enemy/StationaryRangedEnemy.cs:13-35 | Velocity is never written. With the player present and in range, it faces the player. The fire branch runs exactly when the player is in attack range and the cooldown has run out, and then the timer restarts at 0; otherwise the timer grows by dt and nothing is fired. |
| StationaryRanged.RangedTick | Assets/Scripts/Enemy/EnemyBase.cs:69-78 | Nothing happens while dead or flashing. Otherwise it is the range check, then `RangedStep`. |
| StationaryRanged.ShotTowardsPlayer | Assets/Scripts/Enemy/StationaryRangedEnemy.cs:18-45 | A shot at a player in range flies towards the player: +1 when the player is to the right, -1 otherwise. |
| StationaryRanged.CooldownRestartsWithoutProjectile | Assets/Scripts/Enemy/StationaryRangedEnemy.cs:26-39 | Without a prefab or a fire point, the fire branch still restarts the cooldown, and nothing is fired. |
| StationaryRanged.FireRateLimited | Assets/Scripts/Enemy/StationaryRangedEnemy.cs:13-35 | While the timer plus the elapsed time stays below the cooldown, the fire branch never runs and the timer counts exactly the elapsed time. |
| StationaryRanged.StationaryRangedEnemy.constructor | Assets/Scripts/Enemy/StationaryRangedEnemy.cs:10-11 | The cooldown timer starts at 0. |
| StationaryRanged.StationaryRangedEnemy.Attack | Assets/Scripts/Enemy/StationaryRangedEnemy.cs:37-47 | Returns the `Shot`. |
| StationaryRanged.StationaryRangedEnemy.ExecuteBehavior | Assets/Scripts/Enemy/StationaryRangedEnemy.cs:13-35 | Changes facing and the timer exactly as `RangedStep` says, and returns the shot. |
| StationaryRanged.StationaryRangedEnemy.Update | Assets/Scripts/Enemy/EnemyBase.cs:69-78 | Changes the enemy exactly as `RangedTick` says. |
| LegacyEnemy.ChaseStep | Assets/Scripts/Enemy/Enemy.cs:34-50 | Within detection range the enemy moves at its speed along the line to the player: velocity times the distance is the offset times the speed. On top of the player it stands still. It faces the player. Farther away, velocity is zero and facing is kept. Health, latch and collider are untouched. |
| LegacyEnemy.UpdateStep | Assets/Scripts/Enemy/Enemy.cs:22-36 | Nothing happens once dead, or without a live player reference (the chase fails at its first line). Otherwise it chases. |
| LegacyEnemy.NoPlayerStandsStill | Assets/Scripts/Enemy/Enemy.cs:22-36 | An enemy without a player never moves or turns over any number of frames. |
| LegacyEnemy.DieStep | Assets/Scripts/Enemy/Enemy.cs:61-67 | Die sets the death latch, zeroes velocity, disables the collider and schedules the removal 0.5 s later. |
| LegacyEnemy.DamageStep | Assets/Scripts/Enemy/Enemy.cs:52-59 | Health always drops by the damage, even after death. Die runs exactly when health is then at most 0 and the enemy was alive. |
| LegacyEnemy.DiesAtMostOnce | Assets/Scripts/Enemy/Enemy.cs:52-59 | Over any sequence of hits, health drops by their sum and Die runs at most once, never for an enemy already dead. |
| LegacyEnemy.Enemy.constructor | Assets/Scripts/Enemy/Enemy.cs:19-26 | Awake starts alive, with the configured health and the initial scale, and records whether the player lookup found one. |
| LegacyEnemy.Enemy.ChasePlayer | Assets/Scripts/Enemy/Enemy.cs:34-50 | Changes the fields exactly as `ChaseStep` says. |
| LegacyEnemy.Enemy.Update | Assets/Scripts/Enemy/Enemy.cs:22-36 | Changes the fields exactly as `UpdateStep` says. The player counts as present only if Awake found one and the player object still exists. |
| LegacyEnemy.Enemy.Die | Assets/Scripts/Enemy/Enemy.cs:61-67 | Changes the fields exactly as `DieStep` says. |
| LegacyEnemy.Enemy.TakeDamage | Assets/Scripts/Enemy/Enemy.cs:52-59 | Changes the fields exactly as `DamageStep` says. |
| LegacyEnemy.Enemy.AdvanceTimers | Assets/Scripts/Enemy/Enemy.cs:66 | A due removal destroys the object. |
| Projectile.StartStep | Assets/Scripts/Enemy/EnemyProjectile.cs:12-15 | Start schedules the destroy after the lifetime and changes nothing else. |
| Projectile.SetDirectionStep | Assets/Scripts/Enemy/EnemyProjectile.cs:22-32 | The direction is stored. The sprite is mirrored exactly when the direction is negative. |
| Projectile.MoveStep | Assets/Scripts/Enemy/EnemyProjectile.cs:17-20 | A frame's flight moves the projectile forward along its direction at a positive speed (right for +1, left for -1) and not at all at zero speed. Direction, facing, the scheduled destroy and existence are untouched. |
| Projectile.TriggerStep | Assets/Scripts/Enemy/EnemyProjectile.cs:34-47 | Touching "Player" or "Obstacle" destroys the projectile. Any other tag leaves it as it was. |
| Projectile.TimerStep | Assets/Scripts/Enemy/EnemyProjectile.cs:14 | A due lifetime destroy removes the projectile. |
| Projectile.Fired | Assets/Scripts/Enemy/StationaryRangedEnemy.cs:42-46 | A projectile the ranged enemy creates exists, has the direction it was given, starts where it was created, and has exactly one destroy pending, a lifetime ahead. |
| Projectile.LifetimeExpires | Assets/Scripts/Enemy/EnemyProjectile.cs:12-20 | Without contact, a projectile whose destroy is t seconds away is gone exactly once its frames add up to at least t. |
| Projectile.FlightDistance | Assets/Scripts/Enemy/EnemyProjectile.cs:17-20 | Until its lifetime runs out, the projectile exists and keeps its direction and facing. It has moved its velocity times the elapsed time. |
| Projectile.FiredProjectileLifetime | Assets/Scripts/Enemy/EnemyProjectile.cs:12-32 | A projectile created, given a direction and started is destroyed without contact exactly once its lifetime has passed. Until then it flies at direction times speed. |
| Projectile.FacesItsDirection | Assets/Scripts/Enemy/StationaryRangedEnemy.cs:45-46 | A projectile that the ranged enemy fires with +1 or -1 faces the way it flies. |
| Projectile.NegativeDirectionTwiceRestoresFacing | Assets/Scripts/Enemy/EnemyProjectile.cs:22-32 | Each negative SetDirection mirrors the sprite again, so two of them restore the original facing. |
| Projectile.EnemyProjectile.constructor | Assets/Scripts/Enemy/EnemyProjectile.cs:7-10 | A new projectile has direction 1 and the prefab's scale. |
| Projectile.EnemyProjectile.Start | Assets/Scripts/Enemy/EnemyProjectile.cs:12-15 | Changes the fields exactly as `StartStep` says. |
| Projectile.EnemyProjectile.Update | Assets/Scripts/Enemy/EnemyProjectile.cs:17-20 | Moves the projectile by direction times speed times dt. |
| Projectile.EnemyProjectile.SetDirection | Assets/Scripts/Enemy/EnemyProjectile.cs:22-32 | Changes the fields exactly as `SetDirectionStep` says. |
| Projectile.EnemyProjectile.OnTriggerEnter2D | Assets/Scripts/Enemy/EnemyProjectile.cs:34-47 | Changes the fields exactly as `TriggerStep` says. |
| Projectile.EnemyProjectile.AdvanceTimers | Assets/Scripts/Enemy/EnemyProjectile.cs:14 | The scheduler changes the fields exactly as `TimerStep` says. |

## Left out

- Forces and most impulses are not simulated. The model returns the impulses the scripts
  request: the attack impulse, the jump impulse, the hold-force request and the knockback.
  Only the jump impulse also enters the player's velocity at once, as its vertical velocity
  divided by the body's mass (`bodyMass`, kept at or above the engine's minimum of 0.0001). This
  is because the hold test later in the same `HandleJump` reads that velocity. The engine's
  other velocity changes between calls (gravity, forces, collisions, the attack impulse and
  the knockback) are left to the caller.
- Physics queries are parameters: the ground-contact test, the overlap query and vector
  distances. So are object positions, and the z coordinate is ignored.
- `Random.Range` is a caller-supplied `pick` (the index is `pick % count`); any valid index can
  be chosen this way.
- The model does not schedule frames: a delayed call runs on the first frame whose elapsed
  time reaches its delay. Unity runs each call at the end of the frame, after Update, and
  frame times are floats.
- Floating point is not modelled: timers, positions and velocities are exact reals.
- Animator calls, gizmo drawing, `Debug.Log`, the sprite colour flash and the blood effect are
  presentation only. The same goes for the whole of `PlayerAnimator.cs`.
- The patrol-and-chase enemy's attack only triggers an animation. `ExecuteBehavior` reports
  whether it attacked.
- The projectile carries a damage value but never applies it, since the player has no health.
  So no damage to the player is modelled.
- The y scale is not modelled: the scripts only ever write the initial y scale back.
- The older enemy's `OnHit` is never called in the source, so it is not modelled.
- `LevelGenerator.cs`, `WeaponData.cs` and `Room.cs` are not part of this model. They hold room
  placement by random retry and data-only assets.
- The Input System subscriptions (`OnEnable`/`OnDisable`) are not modelled; only the flag
  changes the callbacks make are. The lambdas removed in `OnDisable` are new delegates, so in
  the source they never actually unsubscribe.
- The `FindObjectOfType`/`GetComponent` lookups are not modelled. The manager is an optional
  reference and the player an optional position. The older `Enemy` looks the player up once,
  in Awake, without a null check. The model keeps the lookup's outcome as `playerFound`.
  Without a player, every `ChasePlayer` throws before writing anything, so the model leaves
  the enemy unchanged. The exception itself is not modelled.
- The shared base class and its virtual methods are modelled by composition. Each strategy
  holds its `EnemyBase` and runs `Update` itself, rather than overriding it.
- A script being destroyed only sets `destroyed`. The model does not stop calls the engine
  would no longer make, except in the runs of frames that the lemmas consider.
- EnemyCore.FlashEnds and EnemyCore.FlashLasts are stated for a single pending flash. With
  overlapping hits the first flash to end clears the hit flag; `BaseTimersStep` states this
  one frame at a time.
