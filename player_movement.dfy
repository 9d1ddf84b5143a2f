/** The player's movement controller (PlayerMovement): ground contact and the jump budget,
    variable-height jumps, the dash window and its cooldown, and the precedence of the three
    ways horizontal velocity is decided (attacking, then dashing, then normal movement).
    The rigidbody's velocity is a field the controller assigns. A jump's impulse enters it at
    once, as the engine applies impulses; the engine's other changes to it (gravity, forces,
    collisions) are made by the driver between calls. */
module Movement {
  import opened Geometry
  import opened Wrappers
  import Input

  /** The inspector parameters; the defaults are the script's initial values. */
  datatype MoveConfig = MoveConfig(
    moveSpeed: real,
    airMoveMultiplier: real,
    jumpForce: real,
    enableDoubleJump: bool,
    doubleJumpMultiplier: real,
    jumpHoldBoost: real,
    maxJumpHoldTime: real,
    dashSpeedMultiplier: real,
    dashDuration: real,
    dashCooldown: real,
    bodyMass: real)

  /** The script's initial values, on a body of the engine's default mass 1. */
  const DefaultConfig := MoveConfig(5.0, 0.8, 7.0, true, 0.8, 1.2, 0.2, 2.5, 0.3, 1.0, 1.0)

  /** The engine keeps a rigidbody's mass at or above this value. */
  const MinBodyMass: real := 0.0001

  /** The mass an impulse is divided by. */
  function BodyMass(cfg: MoveConfig): (m: real)
    ensures m >= MinBodyMass
  {
    Max(cfg.bodyMass, MinBodyMass)
  }

  /** A dash needs the horizontal input to exceed this magnitude. */
  const DashDeadzone: real := 0.1

  /** The controller's fields; `facing` is `transform.localScale.x`. */
  datatype MoveState = MoveState(
    isGrounded: bool,
    remainingJumps: int,
    isDashing: bool,
    dashTimer: real,
    dashCooldownTimer: real,
    jumpHoldTimer: real,
    velocity: Vec2,
    facing: real)

  /** The jump budget a landing restores. */
  function MaxJumps(cfg: MoveConfig): (n: int)
    ensures n == 1 || n == 2
    ensures n == 2 <==> cfg.enableDoubleJump
  {
    if cfg.enableDoubleJump then 2 else 1
  }

  /** What every step keeps: the jump budget is never negative and never above the maximum,
      the hold timer is never negative, the cooldown is not running during a dash and never
      exceeds its configured length. */
  predicate Inv(s: MoveState, cfg: MoveConfig) {
    && 0 <= s.remainingJumps <= MaxJumps(cfg)
    && s.jumpHoldTimer >= 0.0
    && (s.isDashing ==> s.dashCooldownTimer <= 0.0)
    && s.dashCooldownTimer <= Max(0.0, cfg.dashCooldown)
  }

  /** The state Awake leaves: a full jump budget, everything else at its default. */
  function Initial(cfg: MoveConfig, facing: real): (s: MoveState)
    ensures Inv(s, cfg) && s.remainingJumps == MaxJumps(cfg)
  {
    MoveState(false, MaxJumps(cfg), false, 0.0, 0.0, 0.0, Zero, facing)
  }

  function DashVelocity(s: MoveState, cfg: MoveConfig): Vec2 {
    Vec2(s.facing * cfg.moveSpeed * cfg.dashSpeedMultiplier, 0.0)
  }

  /** The impulse of a jump: the full force while two jumps remain, the reduced force otherwise. */
  function JumpImpulse(remainingJumps: int, cfg: MoveConfig): real {
    if remainingJumps == 2 then cfg.jumpForce else cfg.jumpForce * cfg.doubleJumpMultiplier
  }

  // ---------------------------------------------------------------------------------------
  // Per-frame steps (Update)

  /** CheckGrounded: the ground flag follows the contact query; only a landing (not grounded
      before, grounded now) restores the jump budget and clears the hold timer. */
  function GroundCheck(s: MoveState, cfg: MoveConfig, contact: bool): (r: MoveState)
    ensures r.isGrounded == contact
    ensures !s.isGrounded && contact ==> r.remainingJumps == MaxJumps(cfg) && r.jumpHoldTimer == 0.0
    ensures r.remainingJumps != s.remainingJumps || r.jumpHoldTimer != s.jumpHoldTimer ==> !s.isGrounded && contact
    ensures r.(isGrounded := s.isGrounded, remainingJumps := s.remainingJumps, jumpHoldTimer := s.jumpHoldTimer) == s
    ensures Inv(s, cfg) ==> Inv(r, cfg)
  {
    if !s.isGrounded && contact then
      s.(isGrounded := true, remainingJumps := MaxJumps(cfg), jumpHoldTimer := 0.0)
    else
      s.(isGrounded := contact)
  }

  /** UpdateDashState: a running dash counts down and forces the dash velocity (vertical
      velocity zero); it ends once its timer is no longer positive, which starts the cooldown.
      The cooldown only counts down, and only while it is positive. */
  function DashTimerStep(s: MoveState, cfg: MoveConfig, dt: real): (r: MoveState)
    requires dt > 0.0
    ensures r.isDashing ==> s.isDashing
    ensures s.isDashing ==> r.isDashing == (s.dashTimer - dt > 0.0) && r.dashTimer == s.dashTimer - dt
    ensures s.isDashing ==> r.velocity == DashVelocity(s, cfg)
    ensures s.isDashing && !r.isDashing ==>
      r.dashCooldownTimer == (if cfg.dashCooldown > 0.0 then cfg.dashCooldown - dt else cfg.dashCooldown)
    ensures s.isDashing == r.isDashing ==>
      r.dashCooldownTimer == (if s.dashCooldownTimer > 0.0 then s.dashCooldownTimer - dt else s.dashCooldownTimer)
    ensures !s.isDashing ==> r.velocity == s.velocity && r.dashTimer == s.dashTimer
    ensures r.(isDashing := s.isDashing, dashTimer := s.dashTimer, dashCooldownTimer := s.dashCooldownTimer, velocity := s.velocity) == s
    ensures Inv(s, cfg) ==> Inv(r, cfg)
  {
    var s1 :=
      if s.isDashing then
        var t := s.dashTimer - dt;
        var moving := s.(dashTimer := t, velocity := DashVelocity(s, cfg));
        if t <= 0.0 then moving.(isDashing := false, dashCooldownTimer := cfg.dashCooldown) else moving
      else s;
    if s1.dashCooldownTimer > 0.0 then s1.(dashCooldownTimer := s1.dashCooldownTimer - dt) else s1
  }

  /** UpdateJumpHoldTimer: the hold timer grows by `dt` while the jump is held, the player is
      airborne and rising, and is zero otherwise. */
  function JumpHoldStep(s: MoveState, jumpHeld: bool, dt: real): (r: MoveState)
    requires dt > 0.0
    ensures jumpHeld && !s.isGrounded && s.velocity.y > 0.0 ==> r.jumpHoldTimer == s.jumpHoldTimer + dt
    ensures !(jumpHeld && !s.isGrounded && s.velocity.y > 0.0) ==> r.jumpHoldTimer == 0.0
    ensures r.(jumpHoldTimer := s.jumpHoldTimer) == s
  {
    s.(jumpHoldTimer := if jumpHeld && !s.isGrounded && s.velocity.y > 0.0 then s.jumpHoldTimer + dt else 0.0)
  }

  /** Update: ground check, dash timers, hold timer, in that order. */
  function FrameStep(s: MoveState, cfg: MoveConfig, contact: bool, jumpHeld: bool, dt: real): (r: MoveState)
    requires dt > 0.0
    ensures Inv(s, cfg) ==> Inv(r, cfg)
    ensures r.isGrounded == contact
    ensures r.isDashing ==> s.isDashing
    ensures r.remainingJumps == (if !s.isGrounded && contact then MaxJumps(cfg) else s.remainingJumps)
  {
    JumpHoldStep(DashTimerStep(GroundCheck(s, cfg, contact), cfg, dt), jumpHeld, dt)
  }

  // ---------------------------------------------------------------------------------------
  // Physics steps (FixedUpdate)

  /** HandleMovement: attacking freezes horizontal motion and keeps vertical velocity; else a
      dash drives the dash velocity with vertical velocity zero; else the input axis drives
      horizontal velocity (scaled down in the air). Facing changes only in the last case, only
      for a non-zero input, and becomes the input's sign. */
  function MovementStep(s: MoveState, cfg: MoveConfig, isAttacking: bool, moveX: real): (r: MoveState)
    ensures isAttacking ==> r.velocity == Vec2(0.0, s.velocity.y)
    ensures !isAttacking && s.isDashing ==> r.velocity == DashVelocity(s, cfg)
    ensures !isAttacking && !s.isDashing ==>
      r.velocity == Vec2(moveX * (if s.isGrounded then cfg.moveSpeed else cfg.moveSpeed * cfg.airMoveMultiplier), s.velocity.y)
    ensures r.facing != s.facing ==> !isAttacking && !s.isDashing && moveX != 0.0
    ensures !isAttacking && !s.isDashing && moveX != 0.0 ==> r.facing == Sign(moveX)
    ensures r.(velocity := s.velocity, facing := s.facing) == s
  {
    if isAttacking then
      s.(velocity := Vec2(0.0, s.velocity.y))
    else if s.isDashing then
      s.(velocity := DashVelocity(s, cfg))
    else
      var speed := if s.isGrounded then cfg.moveSpeed else cfg.moveSpeed * cfg.airMoveMultiplier;
      var moved := s.(velocity := Vec2(moveX * speed, s.velocity.y));
      if moveX != 0.0 then moved.(facing := Sign(moveX)) else moved
  }

  /** The result of HandleJump: the new state and inputs, the upward impulse applied (if a
      jump happened) and whether the hold force was requested. */
  datatype JumpOutcome = JumpOutcome(state: MoveState, inputs: Input.Flags, impulse: Option<real>, holdForce: bool)

  /** The vertical velocity an impulse `j` gives a body at rest vertically. */
  function ImpulseVelocity(j: real, cfg: MoveConfig): (vy: real)
    ensures vy * BodyMass(cfg) == j
    ensures vy > 0.0 <==> j > 0.0
  {
    j / BodyMass(cfg)
  }

  /** HandleJump: a jump happens exactly when the jump is pressed and the budget is positive;
      it zeroes vertical velocity, applies the jump impulse at once, spends one jump and
      consumes the one-shot inputs. The hold force is then requested while the jump is held,
      the player is airborne and rising (after the impulse) and the hold timer is below its
      maximum. */
  function JumpStep(s: MoveState, cfg: MoveConfig, f: Input.Flags): (o: JumpOutcome)
    ensures o.impulse.Some? <==> f.jumpPressed && s.remainingJumps > 0
    ensures o.impulse.Some? ==>
      && o.impulse.value == JumpImpulse(s.remainingJumps, cfg)
      && o.state.velocity.x == s.velocity.x
      && o.state.velocity.y * BodyMass(cfg) == o.impulse.value
      && o.state == s.(remainingJumps := s.remainingJumps - 1, velocity := o.state.velocity)
      && o.inputs == Input.ResetOneShot(f)
    ensures o.impulse.None? ==> o.state == s && o.inputs == f
    ensures o.impulse.Some? ==>
      (o.holdForce <==> f.jumpHeld && !s.isGrounded && o.impulse.value > 0.0 && s.jumpHoldTimer < cfg.maxJumpHoldTime)
    ensures o.impulse.None? ==>
      (o.holdForce <==> f.jumpHeld && !s.isGrounded && s.velocity.y > 0.0 && s.jumpHoldTimer < cfg.maxJumpHoldTime)
    ensures Inv(s, cfg) ==> Inv(o.state, cfg)
  {
    var jumped := f.jumpPressed && s.remainingJumps > 0;
    var j := JumpImpulse(s.remainingJumps, cfg);
    var s1 := if jumped then s.(velocity := Vec2(s.velocity.x, 0.0 + ImpulseVelocity(j, cfg)), remainingJumps := s.remainingJumps - 1) else s;
    var f1 := if jumped then Input.ResetOneShot(f) else f;
    var hold := f1.jumpHeld && !s1.isGrounded && s1.velocity.y > 0.0 && s1.jumpHoldTimer < cfg.maxJumpHoldTime;
    JumpOutcome(s1, f1, if jumped then Some(j) else None, hold)
  }

  /** An air jump with the jump still held requests the hold force in the same physics step:
      the impulse has already made the player rise. */
  lemma AirJumpHoldsAtOnce(s: MoveState, f: Input.Flags)
    requires !s.isGrounded && s.remainingJumps == 1 && s.jumpHoldTimer == 0.0
    requires f.jumpPressed && f.jumpHeld
    ensures JumpStep(s, DefaultConfig, f).impulse == Some(5.6)
    ensures JumpStep(s, DefaultConfig, f).state.velocity.y == 5.6
    ensures JumpStep(s, DefaultConfig, f).holdForce
  {
  }

  /** Whether HandleDash starts a dash. */
  predicate CanDash(s: MoveState, f: Input.Flags) {
    f.dashPressed && !s.isDashing && s.dashCooldownTimer <= 0.0 && Abs(f.moveInput.x) > DashDeadzone
  }

  /** HandleDash: a dash starts exactly when CanDash holds; it opens the dash window and
      consumes the one-shot inputs. Otherwise nothing changes. */
  function DashStartStep(s: MoveState, cfg: MoveConfig, f: Input.Flags): (o: (MoveState, Input.Flags))
    ensures CanDash(s, f) ==>
      o.0 == s.(isDashing := true, dashTimer := cfg.dashDuration) && o.1 == Input.ResetOneShot(f)
    ensures !CanDash(s, f) ==> o == (s, f)
    ensures Inv(s, cfg) ==> Inv(o.0, cfg)
  {
    if CanDash(s, f) then (s.(isDashing := true, dashTimer := cfg.dashDuration), Input.ResetOneShot(f))
    else (s, f)
  }

  /** FixedUpdate: movement, jump, dash, in that order. */
  function PhysicsStep(s: MoveState, cfg: MoveConfig, isAttacking: bool, f: Input.Flags): (o: JumpOutcome)
    ensures Inv(s, cfg) ==> Inv(o.state, cfg)
    ensures o.impulse.Some? <==> f.jumpPressed && s.remainingJumps > 0
    ensures o.state.remainingJumps == s.remainingJumps - (if o.impulse.Some? then 1 else 0)
  {
    var moved := MovementStep(s, cfg, isAttacking, f.moveInput.x);
    var j := JumpStep(moved, cfg, f);
    var d := DashStartStep(j.state, cfg, j.inputs);
    JumpOutcome(d.0, d.1, j.impulse, j.holdForce)
  }

  /** A jump consumes every pending press: in the physics step that jumps, no dash starts
      and a pending attack press is dropped. */
  lemma JumpDropsOtherPresses(s: MoveState, cfg: MoveConfig, isAttacking: bool, f: Input.Flags)
    requires PhysicsStep(s, cfg, isAttacking, f).impulse.Some?
    ensures PhysicsStep(s, cfg, isAttacking, f).state.isDashing == s.isDashing
    ensures !PhysicsStep(s, cfg, isAttacking, f).inputs.attackPressed
    ensures !PhysicsStep(s, cfg, isAttacking, f).inputs.dashPressed
  {
  }

  // ---------------------------------------------------------------------------------------
  // Runs of several steps

  /** One call the engine makes: a frame (Update) or a physics step (FixedUpdate), with the
      inputs it reads at that moment. */
  datatype Tick =
    | Frame(contact: bool, jumpHeld: bool, dt: real)
    | Physics(isAttacking: bool, inputs: Input.Flags)

  predicate ValidTicks(ts: seq<Tick>) {
    forall i :: 0 <= i < |ts| && ts[i].Frame? ==> ts[i].dt > 0.0
  }

  function Run(s: MoveState, cfg: MoveConfig, ts: seq<Tick>): MoveState
    requires ValidTicks(ts)
    decreases |ts|
  {
    if ts == [] then s
    else
      var next := match ts[0]
        case Frame(c, h, dt) => FrameStep(s, cfg, c, h, dt)
        case Physics(a, f) => PhysicsStep(s, cfg, a, f).state;
      Run(next, cfg, ts[1..])
  }

  /** The number of jumps made during a run. */
  function Jumps(s: MoveState, cfg: MoveConfig, ts: seq<Tick>): nat
    requires ValidTicks(ts)
    decreases |ts|
  {
    if ts == [] then 0
    else match ts[0]
      case Frame(c, h, dt) => Jumps(FrameStep(s, cfg, c, h, dt), cfg, ts[1..])
      case Physics(a, f) =>
        var o := PhysicsStep(s, cfg, a, f);
        (if o.impulse.Some? then 1 else 0) + Jumps(o.state, cfg, ts[1..])
  }

  /** Without ground contact the player makes at most as many jumps as remained at the start
      (so at most two, with double jump), and every jump is paid for from the budget. */
  lemma {:induction false} AirJumpsBounded(s: MoveState, cfg: MoveConfig, ts: seq<Tick>)
    requires Inv(s, cfg) && ValidTicks(ts)
    requires forall i :: 0 <= i < |ts| && ts[i].Frame? ==> !ts[i].contact
    ensures Jumps(s, cfg, ts) <= s.remainingJumps <= MaxJumps(cfg)
    ensures Run(s, cfg, ts).remainingJumps == s.remainingJumps - Jumps(s, cfg, ts)
    decreases |ts|
  {
    if ts != [] {
      match ts[0]
      case Frame(c, h, dt) =>
        AirJumpsBounded(FrameStep(s, cfg, c, h, dt), cfg, ts[1..]);
      case Physics(a, f) =>
        AirJumpsBounded(PhysicsStep(s, cfg, a, f).state, cfg, ts[1..]);
    }
  }

  // ---------------------------------------------------------------------------------------
  // The component

  class PlayerMovement {
    const cfg: MoveConfig
    const input: Input.PlayerInputHandler

    var isGrounded: bool
    var remainingJumps: int
    var isDashing: bool
    var dashTimer: real
    var dashCooldownTimer: real
    var jumpHoldTimer: real
    var velocity: Vec2
    var facing: real

    function State(): MoveState
      reads this
    {
      MoveState(isGrounded, remainingJumps, isDashing, dashTimer, dashCooldownTimer, jumpHoldTimer, velocity, facing)
    }

    ghost predicate Valid()
      reads this
    {
      Inv(State(), cfg)
    }

    /** Awake: `facing` is the scene's initial `localScale.x`. */
    constructor (cfg: MoveConfig, input: Input.PlayerInputHandler, facing: real)
      ensures this.cfg == cfg && this.input == input
      ensures State() == Initial(cfg, facing) && Valid()
    {
      this.cfg := cfg;
      this.input := input;
      isGrounded, isDashing := false, false;
      remainingJumps := if cfg.enableDoubleJump then 2 else 1;
      dashTimer, dashCooldownTimer, jumpHoldTimer := 0.0, 0.0, 0.0;
      velocity := Zero;
      this.facing := facing;
    }

    method CheckGrounded(contact: bool)
      modifies this
      ensures State() == GroundCheck(old(State()), cfg, contact)
    {
      var wasGrounded := isGrounded;
      isGrounded := contact;
      if !wasGrounded && isGrounded {
        remainingJumps := if cfg.enableDoubleJump then 2 else 1;
        jumpHoldTimer := 0.0;
      }
    }

    method UpdateDashState(dt: real)
      requires dt > 0.0
      modifies this
      ensures State() == DashTimerStep(old(State()), cfg, dt)
    {
      if isDashing {
        dashTimer := dashTimer - dt;
        velocity := Vec2(facing * cfg.moveSpeed * cfg.dashSpeedMultiplier, 0.0);
        if dashTimer <= 0.0 {
          isDashing := false;
          dashCooldownTimer := cfg.dashCooldown;
        }
      }
      if dashCooldownTimer > 0.0 {
        dashCooldownTimer := dashCooldownTimer - dt;
      }
    }

    method UpdateJumpHoldTimer(dt: real)
      requires dt > 0.0
      modifies this
      ensures State() == JumpHoldStep(old(State()), input.isJumpHeld, dt)
    {
      jumpHoldTimer := if input.isJumpHeld && !isGrounded && velocity.y > 0.0 then jumpHoldTimer + dt else 0.0;
    }

    /** Update, with the ground query's answer as `contact`. */
    method Update(dt: real, contact: bool)
      requires dt > 0.0 && Valid()
      modifies this
      ensures Valid()
      ensures State() == FrameStep(old(State()), cfg, contact, input.isJumpHeld, dt)
    {
      CheckGrounded(contact);
      UpdateDashState(dt);
      UpdateJumpHoldTimer(dt);
    }

    /** HandleMovement, with PlayerAttack.IsAttacking as `isAttacking`. */
    method HandleMovement(isAttacking: bool)
      modifies this
      ensures State() == MovementStep(old(State()), cfg, isAttacking, input.moveInput.x)
    {
      if isAttacking {
        velocity := Vec2(0.0, velocity.y);
        return;
      }
      if isDashing {
        velocity := Vec2(facing * cfg.moveSpeed * cfg.dashSpeedMultiplier, 0.0);
        return;
      }
      var moveX := input.moveInput.x;
      var currentSpeed := if isGrounded then cfg.moveSpeed else cfg.moveSpeed * cfg.airMoveMultiplier;
      velocity := Vec2(moveX * currentSpeed, velocity.y);
      if moveX != 0.0 {
        facing := Sign(moveX);
      }
    }

    /** HandleJump: the jump impulse enters the velocity at once; returns that impulse and whether
        the hold force is requested. */
    method HandleJump() returns (impulse: Option<real>, holdForce: bool)
      modifies this, input
      ensures var o := JumpStep(old(State()), cfg, old(input.Current()));
        State() == o.state && input.Current() == o.inputs && impulse == o.impulse && holdForce == o.holdForce
    {
      impulse := None;
      if input.isJumpPressed && remainingJumps > 0 {
        var finalJumpForce := if remainingJumps == 2 then cfg.jumpForce else cfg.jumpForce * cfg.doubleJumpMultiplier;
        velocity := Vec2(velocity.x, 0.0);
        velocity := Vec2(velocity.x, velocity.y + finalJumpForce / BodyMass(cfg));
        impulse := Some(finalJumpForce);
        assert finalJumpForce == JumpImpulse(remainingJumps, cfg);
        remainingJumps := remainingJumps - 1;
        input.ResetOneShotInputs();
      }
      holdForce := input.isJumpHeld && !isGrounded && velocity.y > 0.0 && jumpHoldTimer < cfg.maxJumpHoldTime;
    }

    method HandleDash()
      modifies this, input
      ensures (State(), input.Current()) == DashStartStep(old(State()), cfg, old(input.Current()))
    {
      if input.isDashPressed && !isDashing && dashCooldownTimer <= 0.0 && Abs(input.moveInput.x) > DashDeadzone {
        isDashing := true;
        dashTimer := cfg.dashDuration;
        input.ResetOneShotInputs();
      }
    }

    /** FixedUpdate: returns the jump impulse and hold-force requests for the engine. */
    method FixedUpdate(isAttacking: bool) returns (impulse: Option<real>, holdForce: bool)
      requires Valid()
      modifies this, input
      ensures Valid()
      ensures var o := PhysicsStep(old(State()), cfg, isAttacking, old(input.Current()));
        State() == o.state && input.Current() == o.inputs && impulse == o.impulse && holdForce == o.holdForce
    {
      HandleMovement(isAttacking);
      impulse, holdForce := HandleJump();
      HandleDash();
    }
  }
}
