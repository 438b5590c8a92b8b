// The desktop stand-in for a headset: key presses and releases drive
// direction counters and a slow mode, and every frame turns and moves the
// emulated viewer by the counters' signs, the elapsed time and the speeds.
module ViewEmulators {
  import opened Vectors

  /** Slow mode scales both speeds by this factor. */
  const SlowFactor: real := 0.25

  /** The keys the emulator reacts to; every other key is `OtherKey`. */
  datatype Key = A | D | W | S | Q | E | Space | LCtrl | LShift | OtherKey

  /** The input state: one counter per axis and for turning, and slow mode. */
  datatype Controls = Controls(xDir: int, yDir: int, zDir: int, turnDir: int, slowMode: bool)

  /** How a key press moves each counter; a release moves them back. */
  datatype Delta = Delta(x: int, y: int, z: int, turn: int)

  function DeltaOf(key: Key): Delta {
    match key
    case A => Delta(-1, 0, 0, 0)
    case D => Delta(1, 0, 0, 0)
    case W => Delta(0, 0, 1, 0)
    case S => Delta(0, 0, -1, 0)
    case Q => Delta(0, 0, 0, -1)
    case E => Delta(0, 0, 0, 1)
    case Space => Delta(0, 1, 0, 0)
    case LCtrl => Delta(0, -1, 0, 0)
    case _ => Delta(0, 0, 0, 0)
  }

  /** `on_key_down`. */
  function KeyDown(c: Controls, key: Key): Controls {
    match key
    case A => c.(xDir := c.xDir - 1)
    case D => c.(xDir := c.xDir + 1)
    case W => c.(zDir := c.zDir + 1)
    case S => c.(zDir := c.zDir - 1)
    case Q => c.(turnDir := c.turnDir - 1)
    case E => c.(turnDir := c.turnDir + 1)
    case Space => c.(yDir := c.yDir + 1)
    case LCtrl => c.(yDir := c.yDir - 1)
    case LShift => c.(slowMode := true)
    case OtherKey => c
  }

  /** `on_key_up`. */
  function KeyUp(c: Controls, key: Key): Controls {
    match key
    case A => c.(xDir := c.xDir + 1)
    case D => c.(xDir := c.xDir - 1)
    case W => c.(zDir := c.zDir - 1)
    case S => c.(zDir := c.zDir + 1)
    case Q => c.(turnDir := c.turnDir + 1)
    case E => c.(turnDir := c.turnDir - 1)
    case Space => c.(yDir := c.yDir - 1)
    case LCtrl => c.(yDir := c.yDir + 1)
    case LShift => c.(slowMode := false)
    case OtherKey => c
  }

  /** Releasing a key undoes pressing it and pressing undoes releasing, for
      every key but shift; shift sets slow mode on press and clears it on
      release, whatever it was. */
  lemma KeyUpUndoesKeyDown(c: Controls, key: Key)
    ensures key != LShift ==> KeyUp(KeyDown(c, key), key) == c && KeyDown(KeyUp(c, key), key) == c
    ensures KeyDown(c, LShift) == c.(slowMode := true) && KeyUp(c, LShift) == c.(slowMode := false)
  {
  }

  /** A press moves the counters by the key's delta, a release by its
      negation; no counter key touches slow mode. */
  lemma KeyDelta(c: Controls, key: Key)
    ensures var d := DeltaOf(key); var down := KeyDown(c, key); var up := KeyUp(c, key);
      && down.xDir == c.xDir + d.x && down.yDir == c.yDir + d.y && down.zDir == c.zDir + d.z && down.turnDir == c.turnDir + d.turn
      && up.xDir == c.xDir - d.x && up.yDir == c.yDir - d.y && up.zDir == c.zDir - d.z && up.turnDir == c.turnDir - d.turn
      && (key != LShift ==> down.slowMode == c.slowMode && up.slowMode == c.slowMode)
  {
  }

  /** A key event: the key and whether it went down. */
  datatype Event = Event(key: Key, down: bool)

  /** The controls after a sequence of events. */
  function Apply(c: Controls, events: seq<Event>): Controls {
    if |events| == 0 then c
    else
      var last := events[|events| - 1];
      var before := Apply(c, events[..|events| - 1]);
      if last.down then KeyDown(before, last.key) else KeyUp(before, last.key)
  }

  /** The sum of the events' deltas, presses counted positive and releases
      negative. */
  function Net(events: seq<Event>): Delta {
    if |events| == 0 then Delta(0, 0, 0, 0)
    else
      var last := events[|events| - 1];
      var n := Net(events[..|events| - 1]);
      var d := DeltaOf(last.key);
      var s := if last.down then 1 else -1;
      Delta(n.x + s * d.x, n.y + s * d.y, n.z + s * d.z, n.turn + s * d.turn)
  }

  /** After any sequence of events, each counter is its start value plus the
      net of the presses and releases, whatever their order; so when every
      pressed key has been released as often, the counters are back where
      they started. */
  lemma {:induction false} ApplyIsNet(c: Controls, events: seq<Event>)
    ensures var r := Apply(c, events); var n := Net(events);
      r.xDir == c.xDir + n.x && r.yDir == c.yDir + n.y && r.zDir == c.zDir + n.z && r.turnDir == c.turnDir + n.turn
  {
    if |events| > 0 {
      var before := events[..|events| - 1];
      ApplyIsNet(c, before);
      KeyDelta(Apply(c, before), events[|events| - 1].key);
    }
  }

  /** The speed actually used: a quarter of it in slow mode. */
  function EffectiveSpeed(speed: real, slowMode: bool): (r: real)
    ensures slowMode ==> 4.0 * r == speed
    ensures !slowMode ==> r == speed
  {
    if slowMode then speed * SlowFactor else speed
  }

  /** The viewing angle after one frame: turning left (`turnDir < 0`) adds,
      turning right subtracts, each by speed times elapsed time. */
  function Turned(direction: real, turnDir: int, turnSpeed: real, dt: real): real {
    if turnDir < 0 then direction + turnSpeed * dt
    else if turnDir > 0 then direction - turnSpeed * dt
    else direction
  }

  /** Turning one way and then the other for the same time restores the
      angle, and turning only depends on the sign of the counter. */
  lemma TurnsCancel(direction: real, turnSpeed: real, dt: real, k: int)
    ensures Turned(Turned(direction, -1, turnSpeed, dt), 1, turnSpeed, dt) == direction
    ensures k != 0 ==> Turned(direction, k, turnSpeed, dt) == Turned(direction, if k < 0 then -1 else 1, turnSpeed, dt)
  {
  }

  /** The left and right strafe directions for a viewing direction. */
  function LeftOf(dir: Vec3): Vec3 { Vec3(dir.z, dir.y, -dir.x) }
  function RightOf(dir: Vec3): Vec3 { Vec3(-dir.z, dir.y, dir.x) }

  /** The position after one frame's movement: strafe, then forward or
      back, then lift, each by speed times elapsed time along its axis. */
  function Moved(p: Vec3, c: Controls, dir: Vec3, up: Vec3, speed: real, dt: real): Vec3 {
    var afterX := if c.xDir < 0 then p.Add(LeftOf(dir).Scale(speed).Scale(dt))
                  else if c.xDir > 0 then p.Add(RightOf(dir).Scale(speed).Scale(dt))
                  else p;
    var afterZ := if c.zDir < 0 then afterX.Sub(dir.Scale(speed).Scale(dt))
                  else if c.zDir > 0 then afterX.Add(dir.Scale(speed).Scale(dt))
                  else afterX;
    if c.yDir < 0 then afterZ.Sub(up.Scale(speed).Scale(dt))
    else if c.yDir > 0 then afterZ.Add(up.Scale(speed).Scale(dt))
    else afterZ
  }

  /** Strafing is horizontal-perpendicular to the viewing direction, and
      strafing left then right for the same time cancels except in the
      vertical component, where both add `dir.y`. */
  lemma StrafeGeometry(p: Vec3, dir: Vec3, up: Vec3, speed: real, dt: real, slow: bool)
    ensures LeftOf(dir).x * dir.x + LeftOf(dir).z * dir.z == 0.0
    ensures RightOf(dir) == LeftOf(dir).Neg().Add(Vec3(0.0, 2.0 * dir.y, 0.0))
    ensures var left := Controls(-1, 0, 0, 0, slow); var right := Controls(1, 0, 0, 0, slow);
      Moved(Moved(p, left, dir, up, speed, dt), right, dir, up, speed, dt)
        == p.Add(Vec3(0.0, 2.0 * dir.y * speed * dt, 0.0))
  {
  }

  /** Moving forward then back, or up then down, for the same time returns
      to the start. */
  lemma OppositeMovesCancel(p: Vec3, dir: Vec3, up: Vec3, speed: real, dt: real, slow: bool)
    ensures Moved(Moved(p, Controls(0, 0, 1, 0, slow), dir, up, speed, dt), Controls(0, 0, -1, 0, slow), dir, up, speed, dt) == p
    ensures Moved(Moved(p, Controls(0, 1, 0, 0, slow), dir, up, speed, dt), Controls(0, -1, 0, 0, slow), dir, up, speed, dt) == p
  {
  }

  /** Without any counter set, the position does not move. */
  lemma NoCountersNoMovement(p: Vec3, c: Controls, dir: Vec3, up: Vec3, speed: real, dt: real)
    requires c.xDir == 0 && c.yDir == 0 && c.zDir == 0
    ensures Moved(p, c, dir, up, speed, dt) == p
  {
  }

  class ViewEmulator {
    var position: Vec3
    /** The viewing angle around `up`, in degrees. */
    var direction: real
    var slowMode: bool
    var xDir: int
    var yDir: int
    var zDir: int
    var turnDir: int
    var turnSpeed: real
    var movementSpeed: real
    /** The clock reading of the last update, in seconds. */
    var lastTime: real

    function ControlState(): Controls
      reads this
    {
      Controls(xDir, yDir, zDir, turnDir, slowMode)
    }

    /** `ViewEmulator::new`: the given start position (computed with
        trigonometry from a fixed deviation), angle 0, no key held. */
    constructor (start: Vec3, turnSpeed: real, movementSpeed: real, now: real)
      ensures position == start && direction == 0.0 && lastTime == now
      ensures ControlState() == Controls(0, 0, 0, 0, false)
      ensures this.turnSpeed == turnSpeed && this.movementSpeed == movementSpeed
    {
      position := start;
      direction := 0.0;
      slowMode := false;
      xDir, yDir, zDir, turnDir := 0, 0, 0, 0;
      this.turnSpeed := turnSpeed;
      this.movementSpeed := movementSpeed;
      lastTime := now;
    }

    /** `on_key_down`: only the controls change. */
    method OnKeyDown(key: Key)
      modifies this
      ensures ControlState() == KeyDown(old(ControlState()), key)
      ensures position == old(position) && direction == old(direction) && lastTime == old(lastTime)
      ensures turnSpeed == old(turnSpeed) && movementSpeed == old(movementSpeed)
    {
      match key {
        case A => xDir := xDir - 1;
        case D => xDir := xDir + 1;
        case W => zDir := zDir + 1;
        case S => zDir := zDir - 1;
        case Q => turnDir := turnDir - 1;
        case E => turnDir := turnDir + 1;
        case Space => yDir := yDir + 1;
        case LCtrl => yDir := yDir - 1;
        case LShift => slowMode := true;
        case OtherKey =>
      }
    }

    /** `on_key_up`: only the controls change. */
    method OnKeyUp(key: Key)
      modifies this
      ensures ControlState() == KeyUp(old(ControlState()), key)
      ensures position == old(position) && direction == old(direction) && lastTime == old(lastTime)
      ensures turnSpeed == old(turnSpeed) && movementSpeed == old(movementSpeed)
    {
      match key {
        case A => xDir := xDir + 1;
        case D => xDir := xDir - 1;
        case W => zDir := zDir - 1;
        case S => zDir := zDir + 1;
        case Q => turnDir := turnDir + 1;
        case E => turnDir := turnDir - 1;
        case Space => yDir := yDir - 1;
        case LCtrl => yDir := yDir + 1;
        case LShift => slowMode := false;
        case OtherKey =>
      }
    }

    /** `movement_speed`. */
    function MovementSpeed(): (speed: real)
      reads this
      ensures speed == EffectiveSpeed(movementSpeed, slowMode)
    {
      if slowMode then movementSpeed * SlowFactor else movementSpeed
    }

    /** `turn_speed`. */
    function TurnSpeed(): (speed: real)
      reads this
      ensures speed == EffectiveSpeed(turnSpeed, slowMode)
    {
      if slowMode then turnSpeed * SlowFactor else turnSpeed
    }

    /** The movement part of `update`, with the clock reading `now` and the
        viewing direction of an angle (`forward`) as parameters. Nothing but
        the clock changes unless some counter is set; otherwise the angle
        turns first and the position then moves along the new direction. */
    method Update(now: real, forward: real -> Vec3, up: Vec3)
      requires now >= lastTime
      modifies this
      ensures lastTime == now && ControlState() == old(ControlState())
      ensures turnSpeed == old(turnSpeed) && movementSpeed == old(movementSpeed)
      ensures var c := old(ControlState());
        if c.xDir == 0 && c.yDir == 0 && c.zDir == 0 && c.turnDir == 0 then
          position == old(position) && direction == old(direction)
        else
          var dt := now - old(lastTime);
          && direction == Turned(old(direction), c.turnDir, EffectiveSpeed(turnSpeed, c.slowMode), dt)
          && position == Moved(old(position), c, forward(direction), up, EffectiveSpeed(movementSpeed, c.slowMode), dt)
    {
      var timeDiff := now - lastTime;
      var controls := ControlState();
      lastTime := now;
      if turnDir != 0 || xDir != 0 || zDir != 0 || yDir != 0 {
        var turned := Turned(direction, turnDir, TurnSpeed(), timeDiff);
        var moved := Moved(position, controls, forward(turned), up, MovementSpeed(), timeDiff);
        direction := turned;
        position := moved;
      }
    }
  }
}
