/** Per-frame input and movement rules of the update loop (mario/game.js, update).
    Everything here is a pure function of one frame's inputs: the keyboard's
    cursor keys, the latched gamepad's state (if any) and the contact flags the
    physics engine reports. */
module Controls {

  datatype Option<T> = None | Some(value: T)

  /** The three cursor keys that update reads. */
  datatype Keys = Keys(left: bool, right: bool, up: bool)

  /** A snapshot of the latched gamepad: left-stick deflection, the native D-pad
      flags and the pressed state of the buttons the pad reports (a missing index
      reads as "not pressed"). */
  datatype Pad = Pad(stickX: real, left: bool, right: bool, up: bool, buttons: seq<bool>)

  /** The resolved logical intent of one frame. */
  datatype Intent = Intent(moveLeft: bool, moveRight: bool, jump: bool)

  /** A stick reading counts as movement only strictly beyond this deflection. */
  const StickThreshold: real := 0.3

  const JumpButtonB: nat := 0
  const JumpButtonA: nat := 1
  const DpadUpButton: nat := 12
  const DpadLeftButton: nat := 14
  const DpadRightButton: nat := 15

  const RunSpeed: real := 200.0
  const JumpVelocity: real := -500.0

  /** `gamepad.buttons[i] && gamepad.buttons[i].pressed`: false for an absent button. */
  predicate Pressed(buttons: seq<bool>, i: nat)
  {
    i < |buttons| && buttons[i]
  }

  predicate PadLeft(p: Pad)
  {
    p.stickX < -StickThreshold || p.left || Pressed(p.buttons, DpadLeftButton)
  }

  predicate PadRight(p: Pad)
  {
    p.stickX > StickThreshold || p.right || Pressed(p.buttons, DpadRightButton)
  }

  predicate PadJump(p: Pad)
  {
    p.up || Pressed(p.buttons, DpadUpButton) || Pressed(p.buttons, JumpButtonB) || Pressed(p.buttons, JumpButtonA)
  }

  /** Keyboard intent, OR'ed with the gamepad's sources when a pad is latched. */
  function ResolveIntent(keys: Keys, pad: Option<Pad>): (r: Intent)
    // no gamepad: exactly the keyboard
    ensures pad.None? ==> r == Intent(keys.left, keys.right, keys.up)
    // the keyboard is never overridden
    ensures keys.left ==> r.moveLeft
    ensures keys.right ==> r.moveRight
    ensures keys.up ==> r.jump
    // each gamepad source alone is enough
    ensures pad.Some? && pad.value.stickX < -StickThreshold ==> r.moveLeft
    ensures pad.Some? && pad.value.stickX > StickThreshold ==> r.moveRight
    ensures pad.Some? && pad.value.left ==> r.moveLeft
    ensures pad.Some? && pad.value.right ==> r.moveRight
    ensures pad.Some? && (pad.value.up || Pressed(pad.value.buttons, DpadUpButton)) ==> r.jump
    ensures pad.Some? && Pressed(pad.value.buttons, DpadLeftButton) ==> r.moveLeft
    ensures pad.Some? && Pressed(pad.value.buttons, DpadRightButton) ==> r.moveRight
    ensures pad.Some? && (Pressed(pad.value.buttons, JumpButtonB) || Pressed(pad.value.buttons, JumpButtonA)) ==> r.jump
    // and nothing else sets a flag
    ensures r.moveLeft ==> keys.left || (pad.Some? && PadLeft(pad.value))
    ensures r.moveRight ==> keys.right || (pad.Some? && PadRight(pad.value))
    ensures r.jump ==> keys.up || (pad.Some? && PadJump(pad.value))
  {
    match pad
    case None => Intent(keys.left, keys.right, keys.up)
    case Some(p) => Intent(keys.left || PadLeft(p), keys.right || PadRight(p), keys.up || PadJump(p))
  }

  /** A stick held anywhere inside [-0.3, 0.3], the end points included, with no
      button pressed, leaves the keyboard's intent as it is. */
  lemma DeadZone(keys: Keys, p: Pad)
    requires -StickThreshold <= p.stickX <= StickThreshold
    requires !p.left && !p.right && !p.up && forall i :: 0 <= i < |p.buttons| ==> !p.buttons[i]
    ensures ResolveIntent(keys, Some(p)) == ResolveIntent(keys, None)
  {
  }

  /** Horizontal velocity chosen from the intent: left is checked first. */
  function HorizontalVelocity(intent: Intent): (vx: real)
    ensures vx < 0.0 <==> intent.moveLeft
    ensures vx > 0.0 <==> !intent.moveLeft && intent.moveRight
    ensures vx == 0.0 <==> !intent.moveLeft && !intent.moveRight
    ensures vx == -RunSpeed || vx == 0.0 || vx == RunSpeed
  {
    if intent.moveLeft then -RunSpeed
    else if intent.moveRight then RunSpeed
    else 0.0
  }

  /** Pressing both directions moves left at full speed. */
  lemma LeftWins(intent: Intent)
    requires intent.moveLeft && intent.moveRight
    ensures HorizontalVelocity(intent) == -RunSpeed
  {
  }

  /** The jump gate: the upward impulse replaces vy only when jump is intended and
      the engine reports the player resting on something; otherwise vy is kept. */
  function VerticalVelocity(intent: Intent, touchingDown: bool, vy: real): (r: real)
    ensures intent.jump && touchingDown ==> r == JumpVelocity
    ensures !touchingDown ==> r == vy
    ensures !intent.jump ==> r == vy
  {
    if intent.jump && touchingDown then JumpVelocity else vy
  }

  /** An enemy's horizontal velocity after one reversal trigger. */
  function Reversed(vx: real): real
  {
    -vx
  }

  /** The sides on which the engine reports an enemy's body blocked this frame. */
  datatype Blocked = Blocked(left: bool, right: bool)

  /** The wall bounce in update: reverse when blocked on the left or the right.
      Either way the patrol speed is kept; a bounce flips a moving enemy's heading. */
  function Bounced(vx: real, b: Blocked): (r: real)
    ensures b.left || b.right ==> r == Reversed(vx)
    ensures !b.left && !b.right ==> r == vx
    ensures r * r == vx * vx
    ensures (b.left || b.right) && vx != 0.0 ==> (r > 0.0 <==> vx < 0.0)
  {
    if b.right || b.left then Reversed(vx) else vx
  }

}
