/*
 * The Camera class of src/Camera.cpp: its fields, the 5-argument
 * constructor and the input processors, each proved to change the fields
 * exactly as the matching function of CameraSpec says and nothing else.
 */
module CameraClass {
  import opened CameraSpec

  class Camera {
    var Position: Vec3
    var Ground: Vec3
    var Front: Vec3
    var Up: Vec3
    var Right: Vec3
    var WorldUp: Vec3
    var Yaw: real
    var Pitch: real
    var MovementSpeed: real
    var MouseSensitivity: real
    var Zoom: real
    var CameraHeight: real
    var jumpHeight: real
    var CrouchHeight: real
    var isJumping: bool
    var isFalling: bool
    var isCrouching: bool
    var isStandingUp: bool
    var crouched: bool

    /** The fields the vertical-motion state machine acts on. */
    function State(): Motion
      reads this
    {
      Motion(Position, isJumping, isFalling, isCrouching, isStandingUp, crouched)
    }

    /** The thresholds keep their constructor values and the flags stay consistent. */
    ghost predicate Valid()
      reads this
    {
      jumpHeight == JumpThreshold && CrouchHeight == CrouchThreshold && Consistent(State())
    }

    /**
     * The (ground, position, up, yaw, pitch) constructor; SPEED, SENSITIVITY
     * and ZOOM come from the header and are parameters here. The position
     * argument is not used: the camera starts on the ground.
     */
    constructor (ground: Vec3, position: Vec3, up: Vec3, yaw: real, pitch: real,
                 speed: real, sensitivity: real, zoom: real)
      ensures Valid() && Idle(State())
      ensures Position == ground && Ground == ground && WorldUp == up
      ensures Yaw == yaw && Pitch == pitch
      ensures MovementSpeed == speed && MouseSensitivity == sensitivity && Zoom == zoom
      ensures CameraHeight == 0.1
    {
      Front := Vec3(0.0, 0.0, -1.0);
      MovementSpeed := speed;
      MouseSensitivity := sensitivity;
      Zoom := zoom;
      CameraHeight := 0.1;
      jumpHeight := 0.25;
      CrouchHeight := -0.15;
      isJumping := false;
      isFalling := false;
      isCrouching := false;
      isStandingUp := false;
      crouched := false;
      Ground := ground;
      Position := ground;
      WorldUp := up;
      Yaw := yaw;
      Pitch := pitch;
      new;
      UpdateCameraVectors();
    }

    /**
     * Recomputes Front, Right and Up from Yaw, Pitch and WorldUp by
     * trigonometry; the model leaves the new basis unconstrained.
     */
    method UpdateCameraVectors()
      modifies this`Front, this`Right, this`Up
    {
      Front, Right, Up := *, *, *;
    }

    /**
     * Planar keys move along Front/Right; JUMP, CROUCH and STAND_UP raise a
     * request flag when the guards allow it. Every call flattens Front.y.
     */
    method ProcessKeyboard(direction: CameraMovement, deltaTime: real)
      requires Valid()
      modifies this`Position, this`Front, this`isJumping, this`isCrouching, this`isStandingUp
      ensures Valid()
      ensures State() == Keyboard(old(State()), direction, old(Front), Right, MovementSpeed * deltaTime)
      ensures Front == old(Front).(y := 0.0)
    {
      var velocity := MovementSpeed * deltaTime;
      if direction.Forward? {
        Position := Add(Position, Scale(Front, velocity));
      }
      if direction.Backward? {
        Position := Sub(Position, Scale(Front, velocity));
      }
      if direction.Left? {
        Position := Sub(Position, Scale(Right, velocity));
      }
      if direction.Right? {
        Position := Add(Position, Scale(Right, velocity));
      }

      ghost var moved := State();
      assert moved == old(State()).(pos := PlanarMove(old(Position), direction, Front, Right, velocity));
      Front := Front.(y := 0.0);

      if direction.Jump? {
        if !isJumping && !isFalling {
          isJumping := true;
        }
      }
      if direction.Crouch? {
        if !isCrouching && !isStandingUp {
          isCrouching := true;
        }
      }
      if direction.StandUp? {
        if crouched && !isStandingUp {
          isStandingUp := true;
        }
      }
      assert State() == Request(moved, direction);
      assert Request(moved, direction) == Keyboard(old(State()), direction, old(Front), Right, velocity);
      assert velocity == MovementSpeed * deltaTime;
    }

    /** One frame of a jump (the method `jump`). */
    method Jump(deltaTime: real)
      requires Valid()
      modifies this`Position, this`isJumping, this`isFalling
      ensures Valid()
      ensures State() == JumpStep(old(State()), MovementSpeed * deltaTime)
    {
      var velocity := MovementSpeed * deltaTime;
      if isJumping {
        if Position.y + 0.5 * velocity <= jumpHeight {
          Position := Add(Position, Scale(Lift, velocity));
        } else {
          isJumping := false;
          isFalling := true;
        }
      }
    }

    /** One frame of a fall; landing snaps y to 0. */
    method ProcessFalling(deltaTime: real)
      requires Valid()
      modifies this`Position, this`isJumping, this`isFalling
      ensures Valid()
      ensures State() == FallStep(old(State()), MovementSpeed * deltaTime)
    {
      var velocity := MovementSpeed * deltaTime;
      if isFalling {
        if Position.y - 0.5 * velocity >= 0.0 {
          Position := Sub(Position, Scale(Lift, velocity));
        } else {
          isFalling := false;
          isJumping := false;
          Position := Vec3(Position.x, 0.0, Position.z);
        }
      }
    }

    /** One frame of crouching down. */
    method Crouching(deltaTime: real)
      requires Valid()
      modifies this`Position, this`isCrouching, this`crouched
      ensures Valid()
      ensures State() == CrouchStep(old(State()), MovementSpeed * deltaTime)
    {
      var velocity := MovementSpeed * deltaTime;
      if isCrouching {
        if Position.y - 0.5 * velocity >= CrouchHeight {
          Position := Sub(Position, Scale(Lift, velocity));
        } else {
          isCrouching := false;
          crouched := true;
        }
      }
    }

    /** One frame of standing up; finishing snaps y to 0. */
    method StandingUp(deltaTime: real)
      requires Valid()
      modifies this`Position, this`isCrouching, this`isStandingUp, this`crouched
      ensures Valid()
      ensures State() == StandUpStep(old(State()), MovementSpeed * deltaTime)
    {
      var velocity := MovementSpeed * deltaTime;
      if isStandingUp {
        if Position.y + 0.5 * velocity <= 0.0 {
          Position := Add(Position, Scale(Lift, velocity));
        } else {
          isCrouching := false;
          isStandingUp := false;
          crouched := false;
          Position := Vec3(Position.x, 0.0, Position.z);
        }
      }
    }

    /** Mouse look: scaled offsets go to Yaw and Pitch, Pitch clamped on request. */
    method ProcessMouseMovement(xoffset: real, yoffset: real, constrainPitch: bool)
      requires Valid()
      modifies this`Yaw, this`Pitch, this`Front, this`Right, this`Up
      ensures Valid()
      ensures (Yaw, Pitch) ==
        MouseLook(old(Yaw), old(Pitch), MouseSensitivity, xoffset, yoffset, constrainPitch)
      ensures constrainPitch ==> -MaxPitch <= Pitch <= MaxPitch
    {
      var dx := xoffset * MouseSensitivity;
      var dy := yoffset * MouseSensitivity;

      Yaw := Yaw + dx;
      Pitch := Pitch + dy;

      if constrainPitch {
        if Pitch > 89.0 {
          Pitch := 89.0;
        }
        if Pitch < -89.0 {
          Pitch := -89.0;
        }
      }

      assert Yaw == MouseLook(old(Yaw), old(Pitch), MouseSensitivity, xoffset, yoffset, constrainPitch).0;
      assert Pitch == MouseLook(old(Yaw), old(Pitch), MouseSensitivity, xoffset, yoffset, constrainPitch).1;
      UpdateCameraVectors();
    }

    /** Scroll wheel: adjusts an in-range Zoom, then clamps it to [1, 45]. */
    method ProcessMouseScroll(yoffset: real)
      requires Valid()
      modifies this`Zoom
      ensures Valid()
      ensures Zoom == ScrollZoom(old(Zoom), yoffset)
      ensures MinZoom <= Zoom <= MaxZoom
    {
      if Zoom >= 1.0 && Zoom <= 45.0 {
        Zoom := Zoom - yoffset;
      }
      if Zoom <= 1.0 {
        Zoom := 1.0;
      }
      if Zoom >= 45.0 {
        Zoom := 45.0;
      }
    }
  }
}
