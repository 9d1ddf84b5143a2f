/** The player's input flags (PlayerInputHandler): the move axis, level flags for a held jump,
    and edge flags ("pressed") that stay set until the action is released or until a
    controller consumes them with ResetOneShotInputs. */
module Input {
  import opened Geometry

  datatype Flags = Flags(
    moveInput: Vec2,
    jumpPressed: bool,
    jumpHeld: bool,
    dashPressed: bool,
    attackPressed: bool)

  /** What the handlers subscribed to the four input actions see. */
  datatype InputEvent =
    | MovePerformed(value: Vec2)
    | MoveCanceled
    | JumpPerformed
    | JumpCanceled
    | DashPerformed
    | DashCanceled
    | AttackPerformed
    | AttackCanceled

  /** Nothing pressed, no movement: the state of the handler before any event. */
  const Idle := Flags(Zero, false, false, false, false)

  /** Whether an event belongs to the jump action (the only action with a held flag). */
  predicate IsJumpEvent(e: InputEvent) { e.JumpPerformed? || e.JumpCanceled? }

  /** The effect of one action callback on the flags. */
  function Apply(f: Flags, e: InputEvent): (r: Flags)
    // a performed jump sets both jump flags, a canceled jump clears both
    ensures IsJumpEvent(e) ==> r.jumpPressed == e.JumpPerformed? && r.jumpHeld == e.JumpPerformed?
    ensures !IsJumpEvent(e) ==> r.jumpPressed == f.jumpPressed && r.jumpHeld == f.jumpHeld
    // dash and attack: performed sets the pressed flag, canceled clears it
    ensures e.DashPerformed? || e.DashCanceled? ==> r.dashPressed == e.DashPerformed?
    ensures !(e.DashPerformed? || e.DashCanceled?) ==> r.dashPressed == f.dashPressed
    ensures e.AttackPerformed? || e.AttackCanceled? ==> r.attackPressed == e.AttackPerformed?
    ensures !(e.AttackPerformed? || e.AttackCanceled?) ==> r.attackPressed == f.attackPressed
    // move: performed stores the value read, canceled stores zero
    ensures e.MovePerformed? ==> r.moveInput == e.value
    ensures e.MoveCanceled? ==> r.moveInput == Zero
    ensures !(e.MovePerformed? || e.MoveCanceled?) ==> r.moveInput == f.moveInput
  {
    match e
    case MovePerformed(v) => f.(moveInput := v)
    case MoveCanceled => f.(moveInput := Zero)
    case JumpPerformed => f.(jumpPressed := true, jumpHeld := true)
    case JumpCanceled => f.(jumpPressed := false, jumpHeld := false)
    case DashPerformed => f.(dashPressed := true)
    case DashCanceled => f.(dashPressed := false)
    case AttackPerformed => f.(attackPressed := true)
    case AttackCanceled => f.(attackPressed := false)
  }

  /** ResetOneShotInputs: the three edge flags are cleared together; the held jump flag and
      the move axis survive. So consuming one action also drops the other pending presses. */
  function ResetOneShot(f: Flags): (r: Flags)
    ensures !r.jumpPressed && !r.dashPressed && !r.attackPressed
    ensures r.jumpHeld == f.jumpHeld && r.moveInput == f.moveInput
  {
    f.(jumpPressed := false, dashPressed := false, attackPressed := false)
  }

  /** Consuming the inputs twice is the same as consuming them once. */
  lemma ResetOneShotIdempotent(f: Flags)
    ensures ResetOneShot(ResetOneShot(f)) == ResetOneShot(f)
  {
  }

  /** Releasing an action right after performing it leaves the flags as a release alone would:
      no trace of the press survives the cancel. */
  lemma CancelForgetsPerform(f: Flags)
    ensures Apply(Apply(f, JumpPerformed), JumpCanceled) == Apply(f, JumpCanceled)
    ensures Apply(Apply(f, DashPerformed), DashCanceled) == Apply(f, DashCanceled)
    ensures Apply(Apply(f, AttackPerformed), AttackCanceled) == Apply(f, AttackCanceled)
  {
  }

  /** The flags after the callbacks for a sequence of events have run in order. */
  function Replay(f: Flags, es: seq<InputEvent>): Flags
    decreases |es|
  {
    if es == [] then f else Replay(Apply(f, es[0]), es[1..])
  }

  /** If no jump event arrives, a sequence of events never makes a consumed jump press
      reappear, and never changes whether the jump is held. */
  lemma {:induction false} NoJumpEventKeepsJump(f: Flags, es: seq<InputEvent>)
    requires forall i :: 0 <= i < |es| ==> !IsJumpEvent(es[i])
    ensures Replay(f, es).jumpPressed == f.jumpPressed
    ensures Replay(f, es).jumpHeld == f.jumpHeld
    decreases |es|
  {
    if es != [] {
      NoJumpEventKeepsJump(Apply(f, es[0]), es[1..]);
    }
  }

  class PlayerInputHandler {
    var moveInput: Vec2
    var isJumpPressed: bool
    var isJumpHeld: bool
    var isDashPressed: bool
    var isAttackPressed: bool

    function Current(): Flags
      reads this
    {
      Flags(moveInput, isJumpPressed, isJumpHeld, isDashPressed, isAttackPressed)
    }

    constructor ()
      ensures Current() == Idle
    {
      moveInput := Zero;
      isJumpPressed, isJumpHeld, isDashPressed, isAttackPressed := false, false, false, false;
    }

    /** The callback the input system runs for event `e` (the lambdas subscribed in OnEnable). */
    method OnAction(e: InputEvent)
      modifies this
      ensures Current() == Apply(old(Current()), e)
    {
      match e
      case MovePerformed(v) => moveInput := v;
      case MoveCanceled => moveInput := Zero;
      case JumpPerformed => isJumpPressed := true; isJumpHeld := true;
      case JumpCanceled => isJumpPressed := false; isJumpHeld := false;
      case DashPerformed => isDashPressed := true;
      case DashCanceled => isDashPressed := false;
      case AttackPerformed => isAttackPressed := true;
      case AttackCanceled => isAttackPressed := false;
    }

    method ResetOneShotInputs()
      modifies this
      ensures Current() == ResetOneShot(old(Current()))
    {
      isJumpPressed := false;
      isDashPressed := false;
      isAttackPressed := false;
    }
  }
}
