/** Mouse tracking and camera control from user input (src/Input.cpp).
    Key and mouse-button states and the cursor position are inputs; the
    camera calls the handler makes are returned as a record in call order. */
module Inputs {
  import opened Wrappers

  datatype Vec2 = Vec2(x: real, y: real)
  datatype Vec3 = Vec3(x: real, y: real, z: real)

  const ZERO2: Vec2 := Vec2(0.0, 0.0)
  const ZERO3: Vec3 := Vec3(0.0, 0.0, 0.0)

  /** Mouse movement is scaled by this and negated before rotating the camera. */
  const ROTATE_SCALE: real := 0.005
  /** Camera movement per second along one axis. */
  const BASE_SPEED: real := 20.0
  /** Speed multiplier while left shift is held. */
  const SHIFT_FACTOR: real := 10.0

  datatype KeyState = Release | Press | Repeat

  /** The keys the camera handler polls: W/S (forward/back), D/A
      (right/left), Space/C (up/down) and left shift. */
  datatype Key = KeyW | KeyS | KeyA | KeyD | KeySpace | KeyC | KeyLeftShift

  function IsKeyPressed(state: KeyState): (r: bool)
    ensures r <==> state != Release
  {
    state == Press || state == Repeat
  }

  function IsMouseButtonPressed(state: KeyState): (r: bool)
    ensures r <==> state == Press
  {
    state == Press
  }

  function Sub(a: Vec2, b: Vec2): Vec2
  {
    Vec2(a.x - b.x, a.y - b.y)
  }

  function Add(a: Vec2, b: Vec2): Vec2
  {
    Vec2(a.x + b.x, a.y + b.y)
  }

  // ---------------------------------------------------------------------------
  // Mouse tracking
  // ---------------------------------------------------------------------------

  /** The movements `Update` reports for successive cursor samples, starting
      from position `start`. */
  function Moves(start: Vec2, samples: seq<Vec2>): (r: seq<Vec2>)
    ensures |r| == |samples|
    decreases samples
  {
    if samples == [] then []
    else [Sub(samples[0], start)] + Moves(samples[0], samples[1..])
  }

  function Total(moves: seq<Vec2>): Vec2
  {
    if moves == [] then ZERO2 else Add(moves[0], Total(moves[1..]))
  }

  /** The reported movements add up to the distance from the start to the
      last sample: no movement is lost or counted twice between updates. */
  lemma {:induction false} MovesTelescope(start: Vec2, samples: seq<Vec2>)
    requires samples != []
    ensures Total(Moves(start, samples)) == Sub(samples[|samples| - 1], start)
    decreases samples
  {
    if |samples| > 1 {
      MovesTelescope(samples[0], samples[1..]);
      assert samples[1..][|samples[1..]| - 1] == samples[|samples| - 1];
    }
  }

  // ---------------------------------------------------------------------------
  // Camera movement
  // ---------------------------------------------------------------------------

  /** The displacement along one axis: `speed` when only the positive key is
      held, `-speed` when only the negative key is, and zero otherwise. */
  function Axis(positive: bool, negative: bool, speed: real): (r: real)
  {
    if positive && !negative then speed
    else if negative && !positive then -speed
    else 0.0
  }

  /** Swapping the two keys of an axis reverses the displacement. */
  lemma AxisAntisymmetric(positive: bool, negative: bool, speed: real)
    ensures Axis(negative, positive, speed) == -Axis(positive, negative, speed)
  {
  }

  /** Displacement along an axis is zero exactly when the keys cancel or
      the speed is zero. */
  lemma AxisZero(positive: bool, negative: bool, speed: real)
    ensures Axis(positive, negative, speed) == 0.0 <==> positive == negative || speed == 0.0
  {
  }

  /** Camera speed per frame: 20 units per second, ten times that with shift. */
  function Speed(deltaTime: real, shift: bool): (r: real)
    ensures shift ==> r == 200.0 * deltaTime
    ensures !shift ==> r == 20.0 * deltaTime
  {
    if shift then BASE_SPEED * deltaTime * SHIFT_FACTOR else BASE_SPEED * deltaTime
  }

  /** The movement vector: x from D/A, y from Space/C, z from W/S, each at
      the frame's speed. */
  function Movement(keys: Key -> KeyState, deltaTime: real): Vec3
  {
    var speed := Speed(deltaTime, IsKeyPressed(keys(KeyLeftShift)));
    Vec3(
      Axis(IsKeyPressed(keys(KeyD)), IsKeyPressed(keys(KeyA)), speed),
      Axis(IsKeyPressed(keys(KeySpace)), IsKeyPressed(keys(KeyC)), speed),
      Axis(IsKeyPressed(keys(KeyW)), IsKeyPressed(keys(KeyS)), speed))
  }

  /** Some axis has exactly one of its two keys held. */
  predicate SomeAxisHeld(keys: Key -> KeyState)
  {
    IsKeyPressed(keys(KeyD)) != IsKeyPressed(keys(KeyA)) ||
    IsKeyPressed(keys(KeySpace)) != IsKeyPressed(keys(KeyC)) ||
    IsKeyPressed(keys(KeyW)) != IsKeyPressed(keys(KeyS))
  }

  /** The camera moves exactly when the frame time is non-zero and some axis
      has exactly one key held. */
  lemma {:induction false} MovementNonZero(keys: Key -> KeyState, deltaTime: real)
    ensures Movement(keys, deltaTime) != ZERO3 <==> deltaTime != 0.0 && SomeAxisHeld(keys)
  {
    var speed := Speed(deltaTime, IsKeyPressed(keys(KeyLeftShift)));
    assert speed == 0.0 <==> deltaTime == 0.0;
    AxisZero(IsKeyPressed(keys(KeyD)), IsKeyPressed(keys(KeyA)), speed);
    AxisZero(IsKeyPressed(keys(KeySpace)), IsKeyPressed(keys(KeyC)), speed);
    AxisZero(IsKeyPressed(keys(KeyW)), IsKeyPressed(keys(KeyS)), speed);
  }

  /** The camera calls of one frame, in order: the cursor's visibility, the
      rotation (made whenever the right button is held), the move (made only
      for a non-zero vector) and the changed flag. */
  datatype CamCommands = CamCommands(
    cursorEnabled: bool,
    rotation: Option<Vec2>,
    move: Option<Vec3>,
    changed: bool)

  class Input {
    var mousePos: Vec2
    var mouseMove: Vec2

    constructor()
      ensures mousePos == ZERO2 && mouseMove == ZERO2
    {
      mousePos := ZERO2;
      mouseMove := ZERO2;
    }

    /** Samples the cursor: the movement is the offset from the previous
        position, and the new position is remembered. */
    method Update(cursor: Vec2)
      modifies this
      ensures mouseMove == Sub(cursor, old(mousePos))
      ensures mousePos == cursor
      ensures Add(old(mousePos), mouseMove) == mousePos
    {
      var newMousePos := cursor;
      mouseMove := Sub(newMousePos, mousePos);
      mousePos := newMousePos;
    }

    /** One frame of camera control.  Holding the right button hides the
        cursor and rotates by the scaled, negated mouse movement; the key
        pairs give the movement vector; the changed flag is set exactly when
        a non-zero rotation or a non-zero move happened, and is passed on
        every frame. */
    method HandleUserCamInput(keys: Key -> KeyState, rightButton: KeyState, deltaTime: real)
      returns (r: CamCommands)
      ensures r.cursorEnabled <==> !IsMouseButtonPressed(rightButton)
      ensures r.rotation.Some? <==> IsMouseButtonPressed(rightButton)
      ensures r.rotation.Some? ==>
        r.rotation.value == Vec2(-ROTATE_SCALE * mouseMove.x, -ROTATE_SCALE * mouseMove.y)
      ensures r.move.Some? <==> deltaTime != 0.0 && SomeAxisHeld(keys)
      ensures r.move.Some? ==> r.move.value == Movement(keys, deltaTime)
      ensures r.changed <==>
        (IsMouseButtonPressed(rightButton) && mouseMove != ZERO2) || r.move.Some?
    {
      var cameraChanged := false;

      var mouseRightPressed := IsMouseButtonPressed(rightButton);
      var cursorEnabled := !mouseRightPressed;
      var rotation: Option<Vec2> := None;
      if mouseRightPressed {
        var move := Vec2(ROTATE_SCALE * -mouseMove.x, ROTATE_SCALE * -mouseMove.y);
        rotation := Some(move);
        if move != ZERO2 {
          cameraChanged := true;
        }
      }

      var camMove := ZERO3;
      var camMoveSpeed := BASE_SPEED * deltaTime;
      var frontPressed := IsKeyPressed(keys(KeyW));
      var backPressed := IsKeyPressed(keys(KeyS));
      var leftPressed := IsKeyPressed(keys(KeyA));
      var rightPressed := IsKeyPressed(keys(KeyD));
      var upPressed := IsKeyPressed(keys(KeySpace));
      var downPressed := IsKeyPressed(keys(KeyC));
      if frontPressed && !backPressed {
        camMove := camMove.(z := camMoveSpeed);
      } else if backPressed && !frontPressed {
        camMove := camMove.(z := -camMoveSpeed);
      }
      if rightPressed && !leftPressed {
        camMove := camMove.(x := camMoveSpeed);
      } else if leftPressed && !rightPressed {
        camMove := camMove.(x := -camMoveSpeed);
      }
      if upPressed && !downPressed {
        camMove := camMove.(y := camMoveSpeed);
      } else if downPressed && !upPressed {
        camMove := camMove.(y := -camMoveSpeed);
      }

      if IsKeyPressed(keys(KeyLeftShift)) {
        camMove := Vec3(camMove.x * SHIFT_FACTOR, camMove.y * SHIFT_FACTOR, camMove.z * SHIFT_FACTOR);
      }

      var moved: Option<Vec3> := None;
      if camMove != ZERO3 {
        moved := Some(camMove);
        cameraChanged := true;
      }

      assert camMove == Movement(keys, deltaTime);
      MovementNonZero(keys, deltaTime);
      r := CamCommands(cursorEnabled, rotation, moved, cameraChanged);
    }
  }
}
