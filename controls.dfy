/** Player input: the tug vector set from a mouse drag, the arrow keys or a touch joystick,
    each clamped to the maximum tug force, and a decay step that snaps small values to 0. */
module Controls {
  import opened Vectors

  const MaxTugForce: real := 10.0
  const KeyboardForceIncrement: real := 0.5
  const MouseSensitivity: real := 0.01
  const ResetRate: real := 0.1

  /** The four arrow-key flags. */
  datatype Keys = Keys(up: bool, down: bool, left: bool, right: bool)

  const NoKeys: Keys := Keys(false, false, false, false)

  /** A tug component clamped to [-MaxTugForce, MaxTugForce]. */
  function ClampTug(v: real): real {
    Clamp(v, -MaxTugForce, MaxTugForce)
  }

  /** The mouse tug components: the drag scaled by the sensitivity, with the screen's y axis
      inverted, each clamped. */
  function MouseTugX(startX: real, currentX: real): real {
    ClampTug((currentX - startX) * MouseSensitivity)
  }

  function MouseTugY(startY: real, currentY: real): real {
    ClampTug((startY - currentY) * MouseSensitivity)
  }

  /** Mouse tugs stay within the maximum force; a drag to the right or upwards (towards smaller
      screen y) tugs in the positive direction, and a small drag is passed on unclamped. */
  lemma MouseTugProperties(startX: real, startY: real, currentX: real, currentY: real)
    ensures -MaxTugForce <= MouseTugX(startX, currentX) <= MaxTugForce
    ensures -MaxTugForce <= MouseTugY(startY, currentY) <= MaxTugForce
    ensures currentX > startX ==> MouseTugX(startX, currentX) > 0.0
    ensures currentX < startX ==> MouseTugX(startX, currentX) < 0.0
    ensures currentY < startY ==> MouseTugY(startY, currentY) > 0.0
    ensures currentY > startY ==> MouseTugY(startY, currentY) < 0.0
    ensures -1000.0 <= currentX - startX <= 1000.0 ==>
      MouseTugX(startX, currentX) == (currentX - startX) * MouseSensitivity
  {
  }

  /** The force one axis gets from a key pair, summed as the source does. */
  function KeyAxis(positive: bool, negative: bool): real {
    (if positive then KeyboardForceIncrement else 0.0) - (if negative then KeyboardForceIncrement else 0.0)
  }

  function KeyboardTugX(keys: Keys): real {
    ClampTug(KeyAxis(keys.right, keys.left))
  }

  function KeyboardTugY(keys: Keys): real {
    ClampTug(KeyAxis(keys.up, keys.down))
  }

  /** Each keyboard component is one of -0.5, 0 and 0.5; opposite keys cancel out. */
  lemma KeyboardTugValues(keys: Keys)
    ensures var x := KeyboardTugX(keys); x == -0.5 || x == 0.0 || x == 0.5
    ensures var y := KeyboardTugY(keys); y == -0.5 || y == 0.0 || y == 0.5
    ensures KeyboardTugX(keys) == 0.0 <==> keys.left == keys.right
    ensures KeyboardTugY(keys) == 0.0 <==> keys.up == keys.down
    ensures KeyboardTugX(keys) > 0.0 <==> keys.right && !keys.left
    ensures KeyboardTugY(keys) > 0.0 <==> keys.up && !keys.down
  {
  }

  /** One component of `resetTugForce`. */
  function Decay(c: real): real {
    if Abs(c) < 0.1 then 0.0 else c * (1.0 - ResetRate)
  }

  /** The decay step never makes a component larger, never flips its sign, shrinks every
      component that it does not zero, and leaves only 0 fixed. */
  lemma DecayShrinks(c: real)
    ensures Abs(Decay(c)) <= Abs(c)
    ensures Abs(c) >= 0.1 ==> Abs(Decay(c)) < Abs(c) && Decay(c) != 0.0
    ensures c >= 0.0 ==> Decay(c) >= 0.0
    ensures c <= 0.0 ==> Decay(c) <= 0.0
    ensures Decay(c) == c <==> c == 0.0
  {
  }

  /** The joystick tug: the stick vector scaled to the maximum force, y inverted. */
  function JoystickTug(vx: real, vy: real): (real, real) {
    (vx * MaxTugForce, -vy * MaxTugForce)
  }

  /** The stick vector set on a joystick move: the force normalised to at most 1, along the angle. */
  function JoystickVector(m: MathLib, angle: real, force: real): (real, real) {
    var f := Min(1.0, force / 50.0);
    (m.cos(angle) * f, m.sin(angle) * f)
  }

  /** A stick vector with components in [-1, 1] gives a tug within the maximum force, and a
      joystick move with a non-negative force always gives such a vector. */
  lemma JoystickTugBounded(m: MathLib, angle: real, force: real)
    requires Lawful(m) && force >= 0.0
    ensures var (vx, vy) := JoystickVector(m, angle, force);
      -1.0 <= vx <= 1.0 && -1.0 <= vy <= 1.0
    ensures var (vx, vy) := JoystickVector(m, angle, force);
      var (tx, ty) := JoystickTug(vx, vy);
      -MaxTugForce <= tx <= MaxTugForce && -MaxTugForce <= ty <= MaxTugForce
  {
    var f := Min(1.0, force / 50.0);
    assert 0.0 <= f <= 1.0;
    var vx := m.cos(angle) * f;
    var vy := m.sin(angle) * f;
    ScaledUnitBounded(m.cos(angle), f);
    ScaledUnitBounded(m.sin(angle), f);
    assert -1.0 <= vx <= 1.0 && -1.0 <= vy <= 1.0;
    ScaledUnitBounded(vx, MaxTugForce);
    ScaledUnitBounded(-vy, MaxTugForce);
  }

  /** `controlState`: the desktop and mobile input state and the tug vector read by the game. */
  class ControlState {
    var mouseDown: bool
    var mouseStartX: real
    var mouseStartY: real
    var currentX: real
    var currentY: real
    var keys: Keys
    /** Whether a joystick was created (mobile devices). */
    var hasJoystick: bool
    var joystickAngle: real
    var joystickForce: real
    var joystickX: real
    var joystickY: real
    var tugForce: Vec3

    /** The tug never has a z component. */
    ghost predicate Valid()
      reads this
    {
      tugForce.z == 0.0
    }

    constructor (hasJoystick: bool)
      ensures Valid() && tugForce == Zero
      ensures !mouseDown && mouseStartX == 0.0 && mouseStartY == 0.0 && currentX == 0.0 && currentY == 0.0
      ensures keys == NoKeys && this.hasJoystick == hasJoystick
      ensures joystickAngle == 0.0 && joystickForce == 0.0 && joystickX == 0.0 && joystickY == 0.0
    {
      mouseDown := false;
      mouseStartX, mouseStartY, currentX, currentY := 0.0, 0.0, 0.0, 0.0;
      keys := NoKeys;
      this.hasJoystick := hasJoystick;
      joystickAngle, joystickForce, joystickX, joystickY := 0.0, 0.0, 0.0, 0.0;
      tugForce := Zero;
    }

    /** `updateKeyState`: one of the four arrow keys takes the new flag, any other key changes
        no flag; the keyboard tug is recomputed in every case. */
    method UpdateKeyState(key: string, isDown: bool)
      requires Valid()
      modifies this`keys, this`tugForce
      ensures Valid()
      ensures key == "ArrowUp" ==> keys == old(keys).(up := isDown)
      ensures key == "ArrowDown" ==> keys == old(keys).(down := isDown)
      ensures key == "ArrowLeft" ==> keys == old(keys).(left := isDown)
      ensures key == "ArrowRight" ==> keys == old(keys).(right := isDown)
      ensures key != "ArrowUp" && key != "ArrowDown" && key != "ArrowLeft" && key != "ArrowRight" ==>
        keys == old(keys)
      ensures tugForce == Vec3(KeyboardTugX(keys), KeyboardTugY(keys), old(tugForce.z))
    {
      if key == "ArrowUp" {
        keys := keys.(up := isDown);
      } else if key == "ArrowDown" {
        keys := keys.(down := isDown);
      } else if key == "ArrowLeft" {
        keys := keys.(left := isDown);
      } else if key == "ArrowRight" {
        keys := keys.(right := isDown);
      }
      UpdateKeyboardTugForce();
    }

    /** `updateMouseTugForce`. */
    method UpdateMouseTugForce()
      requires Valid()
      modifies this`tugForce
      ensures Valid()
      ensures !mouseDown ==> tugForce == old(tugForce)
      ensures mouseDown ==>
        tugForce == Vec3(MouseTugX(mouseStartX, currentX), MouseTugY(mouseStartY, currentY), old(tugForce.z))
    {
      if !mouseDown {
        return;
      }
      var deltaX := currentX - mouseStartX;
      var deltaY := mouseStartY - currentY;
      var forceX := Min(MaxTugForce, Max(-MaxTugForce, deltaX * MouseSensitivity));
      var forceY := Min(MaxTugForce, Max(-MaxTugForce, deltaY * MouseSensitivity));
      tugForce := tugForce.(x := forceX, y := forceY);
    }

    /** `updateKeyboardTugForce`. */
    method UpdateKeyboardTugForce()
      requires Valid()
      modifies this`tugForce
      ensures Valid()
      ensures tugForce == Vec3(KeyboardTugX(keys), KeyboardTugY(keys), old(tugForce.z))
    {
      var forceX := 0.0;
      var forceY := 0.0;
      if keys.up { forceY := forceY + KeyboardForceIncrement; }
      if keys.down { forceY := forceY - KeyboardForceIncrement; }
      if keys.left { forceX := forceX - KeyboardForceIncrement; }
      if keys.right { forceX := forceX + KeyboardForceIncrement; }
      forceX := Min(MaxTugForce, Max(-MaxTugForce, forceX));
      forceY := Min(MaxTugForce, Max(-MaxTugForce, forceY));
      tugForce := tugForce.(x := forceX, y := forceY);
    }

    /** `updateJoystickTugForce`. */
    method UpdateJoystickTugForce()
      requires Valid()
      modifies this`tugForce
      ensures Valid()
      ensures tugForce == Vec3(JoystickTug(joystickX, joystickY).0, JoystickTug(joystickX, joystickY).1, old(tugForce.z))
    {
      var forceX := joystickX * MaxTugForce;
      var forceY := -joystickY * MaxTugForce;
      tugForce := tugForce.(x := forceX, y := forceY);
    }

    /** `resetTugForce`: one decay step on x and y. */
    method ResetTugForce()
      requires Valid()
      modifies this`tugForce
      ensures Valid()
      ensures tugForce == Vec3(Decay(old(tugForce.x)), Decay(old(tugForce.y)), old(tugForce.z))
    {
      if Abs(tugForce.x) < 0.1 {
        tugForce := tugForce.(x := 0.0);
      } else {
        tugForce := tugForce.(x := tugForce.x * (1.0 - ResetRate));
      }
      if Abs(tugForce.y) < 0.1 {
        tugForce := tugForce.(y := 0.0);
      } else {
        tugForce := tugForce.(y := tugForce.y * (1.0 - ResetRate));
      }
    }

    /** `getTugForce`: a copy of the current tug. */
    method GetTugForce() returns (tug: Vec3)
      ensures tug == tugForce
    {
      tug := Vec3(tugForce.x, tugForce.y, tugForce.z);
    }

    /** `resetControls`: tug, mouse button and keys cleared; the joystick data too when there is
        a joystick. */
    method ResetControls()
      modifies this
      ensures Valid() && tugForce == Zero && !mouseDown && keys == NoKeys
      ensures mouseStartX == old(mouseStartX) && mouseStartY == old(mouseStartY)
      ensures currentX == old(currentX) && currentY == old(currentY)
      ensures hasJoystick == old(hasJoystick) && joystickAngle == old(joystickAngle)
      ensures hasJoystick ==> joystickForce == 0.0 && joystickX == 0.0 && joystickY == 0.0
      ensures !hasJoystick ==>
        joystickForce == old(joystickForce) && joystickX == old(joystickX) && joystickY == old(joystickY)
    {
      tugForce := Zero;
      mouseDown := false;
      keys := NoKeys;
      if hasJoystick {
        joystickForce := 0.0;
        joystickX := 0.0;
        joystickY := 0.0;
      }
    }

    /** The `mousedown` handler. */
    method OnMouseDown(clientX: real, clientY: real)
      modifies this`mouseDown, this`mouseStartX, this`mouseStartY, this`currentX, this`currentY
      ensures mouseDown && mouseStartX == clientX && mouseStartY == clientY
      ensures currentX == clientX && currentY == clientY
    {
      mouseDown := true;
      mouseStartX, mouseStartY := clientX, clientY;
      currentX, currentY := clientX, clientY;
    }

    /** The `mousemove` handler: tracks the cursor and updates the tug only while pressed. */
    method OnMouseMove(clientX: real, clientY: real)
      requires Valid()
      modifies this`currentX, this`currentY, this`tugForce
      ensures Valid()
      ensures !mouseDown ==> currentX == old(currentX) && currentY == old(currentY) && tugForce == old(tugForce)
      ensures mouseDown ==> currentX == clientX && currentY == clientY
      ensures mouseDown ==>
        tugForce == Vec3(MouseTugX(mouseStartX, clientX), MouseTugY(mouseStartY, clientY), old(tugForce.z))
    {
      if mouseDown {
        currentX, currentY := clientX, clientY;
        UpdateMouseTugForce();
      }
    }

    /** The `mouseup` handler: releases the button and decays the tug once. */
    method OnMouseUp()
      requires Valid()
      modifies this`mouseDown, this`tugForce
      ensures Valid()
      ensures !mouseDown
      ensures tugForce == Vec3(Decay(old(tugForce.x)), Decay(old(tugForce.y)), old(tugForce.z))
    {
      mouseDown := false;
      ResetTugForce();
    }

    /** The `mouseleave` handler: as `mouseup`, but only while the button is down. */
    method OnMouseLeave()
      requires Valid()
      modifies this`mouseDown, this`tugForce
      ensures Valid()
      ensures !mouseDown
      ensures !old(mouseDown) ==> tugForce == old(tugForce)
      ensures old(mouseDown) ==>
        tugForce == Vec3(Decay(old(tugForce.x)), Decay(old(tugForce.y)), old(tugForce.z))
    {
      if mouseDown {
        mouseDown := false;
        ResetTugForce();
      }
    }

    /** The joystick `move` handler. */
    method OnJoystickMove(m: MathLib, angle: real, force: real)
      requires Valid()
      modifies this`joystickAngle, this`joystickForce, this`joystickX, this`joystickY, this`tugForce
      ensures Valid()
      ensures joystickAngle == angle && joystickForce == Min(1.0, force / 50.0)
      ensures joystickX == JoystickVector(m, angle, force).0
      ensures joystickY == JoystickVector(m, angle, force).1
      ensures tugForce == Vec3(JoystickTug(joystickX, joystickY).0, JoystickTug(joystickX, joystickY).1, old(tugForce.z))
    {
      joystickAngle := angle;
      joystickForce := Min(1.0, force / 50.0);
      joystickX := m.cos(angle) * joystickForce;
      joystickY := m.sin(angle) * joystickForce;
      UpdateJoystickTugForce();
    }

    /** The joystick `end` handler. */
    method OnJoystickEnd()
      requires Valid()
      modifies this`joystickForce, this`joystickX, this`joystickY, this`tugForce
      ensures Valid()
      ensures joystickForce == 0.0 && joystickX == 0.0 && joystickY == 0.0
      ensures tugForce == Vec3(Decay(old(tugForce.x)), Decay(old(tugForce.y)), old(tugForce.z))
    {
      joystickForce := 0.0;
      joystickX := 0.0;
      joystickY := 0.0;
      ResetTugForce();
    }
  }
}
