/** The player: a position and a heading that `update` advances each frame. */
module Players {
  import opened Outcomes
  import opened Geometry
  import opened Grids

  /** A key intent: -1 (left or backwards), 0 (none) or 1 (right or forwards). */
  type Direction = d: int | -1 <= d <= 1

  /** Where one frame of walking at `step` units per second along `angle` would put the player. */
  function StepTarget(x: real, y: real, angle: real, step: real, dt: real, trig: Trig): (c: Point)
    ensures step == 0.0 || dt == 0.0 ==> c == Point(x, y)
    ensures trig.cos(angle) == 0.0 ==> c.x == x
    ensures trig.sin(angle) == 0.0 ==> c.y == y
  {
    Point(x + (trig.cos(angle) * step) * dt, y + (trig.sin(angle) * step) * dt)
  }

  class Player {
    var x: real
    var y: real
    var rotationAngle: real
    const moveSpeed: real
    const rotationSpeed: real
    /** The grid the player collides with; `None` stands for the `null` level, which lets every move through. */
    const level: Option<Grid>

    /** The player stands clear of the walls of its level. */
    predicate Clear()
      reads this
    {
      level.Some? ==> level.value.Collides(Point(x, y)) == Ok(false)
    }

    constructor (level: Option<Grid>)
      ensures x == WINDOW_WIDTH / 2.0 && y == WINDOW_HEIGHT / 2.0
      ensures rotationAngle == PI / 2.0
      ensures moveSpeed == 40.0 && rotationSpeed == 2.0 * (PI / 2.0)
      ensures this.level == level
      ensures level.None? || level == Some(STANDARD_GRID) ==> Clear()
    {
      x := WINDOW_WIDTH / 2.0;
      y := WINDOW_HEIGHT / 2.0;
      rotationAngle := PI / 2.0;
      moveSpeed := 40.0;
      rotationSpeed := 2.0 * (PI / 2.0);
      this.level := level;
      StartCellOpen();
    }

    /**
     * `Player.update`: always turns, then walks to the candidate point unless the level
     * says it is a wall. `deltaTime` is the frame time in milliseconds. A lookup that throws
     * leaves the turn done and the position as it was.
     */
    method Update(turnDirection: Direction, walkDirection: Direction, deltaTime: real, trig: Trig)
      returns (outcome: Outcome)
      modifies this
      ensures rotationAngle == old(rotationAngle) + turnDirection as real * rotationSpeed * (deltaTime / 1000.0)
      ensures var c := StepTarget(old(x), old(y), rotationAngle, walkDirection as real * moveSpeed, deltaTime / 1000.0, trig);
              if level.None? then outcome == Pass && x == c.x && y == c.y
              else match level.value.Collides(c)
                case Ok(wall) =>
                  outcome == Pass && (if wall then x == old(x) && y == old(y) else x == c.x && y == c.y)
                case Err(e) => outcome == Fail(e) && x == old(x) && y == old(y)
      ensures walkDirection == 0 ==> x == old(x) && y == old(y)
      ensures old(Clear()) ==> Clear()
    {
      var dt := deltaTime / 1000.0;
      rotationAngle := rotationAngle + (turnDirection as real * rotationSpeed * dt);
      var step := walkDirection as real * moveSpeed;
      var nx := x + (trig.cos(rotationAngle) * step) * dt;
      var ny := y + (trig.sin(rotationAngle) * step) * dt;
      outcome := Pass;
      if level.None? {
        x, y := nx, ny;
      } else {
        var hit := level.value.Collides(Point(nx, ny));
        match hit
        case Err(e) =>
          outcome := Fail(e);
        case Ok(wall) =>
          if !wall {
            x, y := nx, ny;
          }
      }
    }
  }
}
