/** `FreeCamera` (FreeCamera.h / FreeCamera.cpp): a fly-through camera with a
    position, Euler angles and a zoom, moved by keyboard, mouse and scroll
    input. Floats are modelled as exact reals. The trigonometry of
    `updateCameraVectors` is an oracle `orient` from (yaw, pitch, world up) to
    the (front, right, up) basis. */
module Camera {
  import opened Geometry

  const Yaw0: real := -90.0
  const Pitch0: real := 0.0
  const Speed0: real := 2.5
  const Sensitivity0: real := 0.1
  const Zoom0: real := 45.0

  const MinZoom: real := 1.0
  const MaxZoom: real := 45.0
  const MaxPitch: real := 89.0

  datatype Basis = Basis(front: Vec3, right: Vec3, up: Vec3)

  datatype FreeCamera = FreeCamera(
    position: Vec3,
    basis: Basis,
    worldUp: Vec3,
    yaw: real,
    pitch: real,
    movementSpeed: real,
    mouseSensitivity: real,
    zoom: real)

  datatype Movement = Forward | Backward | Left | Right | Up | Down

  /** Either constructor: position, world up and angles as given, the default
      speed, sensitivity and zoom, and the basis computed from the angles. */
  function NewCamera(position: Vec3, worldUp: Vec3, yaw: real, pitch: real,
                     orient: (real, real, Vec3) -> Basis): (c: FreeCamera)
    ensures c.position == position && c.worldUp == worldUp && c.yaw == yaw && c.pitch == pitch
    ensures c.movementSpeed == 2.5 && c.mouseSensitivity == 0.1 && c.zoom == 45.0
    ensures c.basis == orient(yaw, pitch, worldUp)
  {
    FreeCamera(position, orient(yaw, pitch, worldUp), worldUp, yaw, pitch, Speed0, Sensitivity0, Zoom0)
  }

  /** The default arguments: at the origin, +Y up, looking along yaw -90. */
  function DefaultCamera(orient: (real, real, Vec3) -> Basis): (c: FreeCamera)
    ensures c.position == Origin && c.worldUp == Vec3(0.0, 1.0, 0.0)
    ensures c.yaw == -90.0 && c.pitch == 0.0 && c.zoom == MaxZoom
  {
    NewCamera(Origin, Vec3(0.0, 1.0, 0.0), Yaw0, Pitch0, orient)
  }

  // ---------------------------------------------------------------------
  // processMouseScroll

  function Clamp(x: real, lo: real, hi: real): (r: real)
    requires lo <= hi
    ensures lo <= r <= hi
    ensures lo <= x <= hi ==> r == x
    ensures x < lo ==> r == lo
    ensures x > hi ==> r == hi
  {
    if x < lo then lo else if x > hi then hi else x
  }

  /** `processMouseScroll(yoffset)`: the offset is applied only when the zoom
      is in [1, 45]; the zoom is then pulled up to 1 and down to 45. */
  function ProcessMouseScroll(c: FreeCamera, yoffset: real): (r: FreeCamera)
    ensures r == c.(zoom := r.zoom)
  {
    var zoom := if MinZoom <= c.zoom && c.zoom <= MaxZoom then c.zoom - yoffset else c.zoom;
    var zoom := if zoom <= MinZoom then MinZoom else zoom;
    var zoom := if zoom >= MaxZoom then MaxZoom else zoom;
    c.(zoom := zoom)
  }

  /** After any scroll the zoom lies in [1, 45]; from a zoom in that range it
      is the offset-adjusted zoom clamped to it, and from outside it the
      offset is ignored and the old zoom is clamped. */
  lemma ScrollClampsZoom(c: FreeCamera, yoffset: real)
    ensures MinZoom <= ProcessMouseScroll(c, yoffset).zoom <= MaxZoom
    ensures MinZoom <= c.zoom <= MaxZoom ==>
              ProcessMouseScroll(c, yoffset).zoom == Clamp(c.zoom - yoffset, MinZoom, MaxZoom)
    ensures !(MinZoom <= c.zoom <= MaxZoom) ==>
              ProcessMouseScroll(c, yoffset).zoom == Clamp(c.zoom, MinZoom, MaxZoom)
  {
  }

  /** Scrolling by 0 keeps a zoom already in range. */
  lemma ScrollByZeroKeepsZoom(c: FreeCamera)
    requires MinZoom <= c.zoom <= MaxZoom
    ensures ProcessMouseScroll(c, 0.0) == c
  {
  }

  // ---------------------------------------------------------------------
  // processMouseMovement

  /** `processMouseMovement(xoffset, yoffset, constrainPitch)`: both offsets are
      scaled by the sensitivity and added to yaw and pitch; with
      `constrainPitch` the pitch is then held to [-89, 89]; the basis is
      recomputed from the new angles. */
  function ProcessMouseMovement(c: FreeCamera, xoffset: real, yoffset: real, constrainPitch: bool,
                                orient: (real, real, Vec3) -> Basis): (r: FreeCamera)
    ensures r == c.(yaw := r.yaw, pitch := r.pitch, basis := r.basis)
    ensures r.basis == orient(r.yaw, r.pitch, c.worldUp)
  {
    var x := xoffset * c.mouseSensitivity;
    var y := yoffset * c.mouseSensitivity;
    var yaw := c.yaw + x;
    var pitch := c.pitch + y;
    var pitch := if constrainPitch && pitch > MaxPitch then MaxPitch else pitch;
    var pitch := if constrainPitch && pitch < -MaxPitch then -MaxPitch else pitch;
    c.(yaw := yaw, pitch := pitch, basis := orient(yaw, pitch, c.worldUp))
  }

  /** The yaw always moves by the scaled x offset and is never clamped; with
      `constrainPitch` the pitch is the scaled y offset's result clamped to
      [-89, 89], and without it that result exactly. */
  lemma MouseMovementAngles(c: FreeCamera, xoffset: real, yoffset: real, constrainPitch: bool,
                            orient: (real, real, Vec3) -> Basis)
    ensures var r := ProcessMouseMovement(c, xoffset, yoffset, constrainPitch, orient);
      && r.yaw == c.yaw + xoffset * c.mouseSensitivity
      && (constrainPitch ==> -MaxPitch <= r.pitch <= MaxPitch
                             && r.pitch == Clamp(c.pitch + yoffset * c.mouseSensitivity, -MaxPitch, MaxPitch))
      && (!constrainPitch ==> r.pitch == c.pitch + yoffset * c.mouseSensitivity)
  {
  }

  // ---------------------------------------------------------------------
  // processKeyboard

  /** The axis a key moves along and the sign of the move. */
  function Direction(c: FreeCamera, m: Movement): Vec3
  {
    match m
    case Forward => c.basis.front
    case Backward => Neg(c.basis.front)
    case Left => Neg(c.basis.right)
    case Right => c.basis.right
    case Up => c.worldUp
    case Down => Neg(c.worldUp)
  }

  /** `processKeyboard(direction, deltaTime)`: moves the position by
      speed * deltaTime along front, right or world up, forwards or
      backwards. */
  function ProcessKeyboard(c: FreeCamera, m: Movement, deltaTime: real): (r: FreeCamera)
    ensures r == c.(position := r.position)
  {
    var velocity := c.movementSpeed * deltaTime;
    match m
    case Forward => c.(position := Add(c.position, Scale(c.basis.front, velocity)))
    case Backward => c.(position := Sub(c.position, Scale(c.basis.front, velocity)))
    case Left => c.(position := Sub(c.position, Scale(c.basis.right, velocity)))
    case Right => c.(position := Add(c.position, Scale(c.basis.right, velocity)))
    case Up => c.(position := Add(c.position, Scale(c.worldUp, velocity)))
    case Down => c.(position := Sub(c.position, Scale(c.worldUp, velocity)))
  }

  /** Each key displaces the position by speed * deltaTime along its signed
      axis. */
  lemma KeyboardDisplacement(c: FreeCamera, m: Movement, deltaTime: real)
    ensures ProcessKeyboard(c, m, deltaTime).position
            == Add(c.position, Scale(Direction(c, m), c.movementSpeed * deltaTime))
  {
  }

  function Opposite(m: Movement): Movement
  {
    match m
    case Forward => Backward
    case Backward => Forward
    case Left => Right
    case Right => Left
    case Up => Down
    case Down => Up
  }

  /** A move followed by the opposite move with the same time step returns the
      camera to where it was, under exact arithmetic. */
  lemma OppositeMovesCancel(c: FreeCamera, m: Movement, deltaTime: real)
    ensures ProcessKeyboard(ProcessKeyboard(c, m, deltaTime), Opposite(m), deltaTime) == c
  {
    var moved := ProcessKeyboard(c, m, deltaTime);
    assert moved == c.(position := moved.position);
    assert moved.movementSpeed * deltaTime == c.movementSpeed * deltaTime;
  }
}
