/** A training dummy that wanders over the ground: every
    `changeDirectionInterval` seconds it picks a random horizontal direction,
    and it only ever moves to a position inside the ground's rectangle; a
    step that would leave it reverses the direction instead. */
module Dummy {
  import opened Engine

  /** The ground's extent on the x and z axes. */
  datatype Bounds = Bounds(minX: real, maxX: real, minZ: real, maxZ: real)

  /** The bounds fields before `Start` finds the ground: all zero. */
  const NoBounds := Bounds(0.0, 0.0, 0.0, 0.0)

  /** The negation of `Update`'s out-of-bounds test. */
  predicate InBounds(p: Vec3, b: Bounds)
  {
    b.minX <= p.x <= b.maxX && b.minZ <= p.z <= b.maxZ
  }

  /** What `Start` finds: no object named "ground" (None), a ground without a
      mesh renderer (Some(None)), or the renderer's bounds. */
  function GroundBounds(ground: Option<Option<Bounds>>): (b: Bounds)
    ensures (ground.None? || ground.value.None?) ==> b == NoBounds
    ensures ground.Some? && ground.value.Some? ==> b == ground.value.value
  {
    match ground
    case Some(Some(bounds)) => bounds
    case _ => NoBounds
  }

  /** Without a ground the dummy can only stand on the vertical line through
      the origin. */
  lemma NoGroundPinsToOrigin(p: Vec3)
    ensures InBounds(p, NoBounds) <==> p.x == 0.0 && p.z == 0.0
  {
  }

  /** The random pick. `x` and `z` stand for the already normalised result
      of the two `Random.Range(-1, 1)` draws, or `Vector3.forward` when that
      result is too short; either way the direction is horizontal. */
  function Picked(x: real, z: real): (d: Vec3)
    ensures d.y == 0.0
  {
    Vec3(x, 0.0, z)
  }

  /** The dummy's fields as a value. */
  datatype Wanderer = Wanderer(timer: real, direction: Vec3, position: Vec3)

  /** One frame's inputs: `Time.deltaTime` and the pick used if the timer
      runs out this frame. */
  datatype Frame = Frame(dt: real, pickX: real, pickZ: real)

  /** The first half of `Update`: the timer advances, and when it reaches
      the interval a new direction is picked and the timer restarts. */
  function Retimed(w: Wanderer, f: Frame, interval: real): Wanderer
  {
    var t := w.timer + f.dt;
    if t >= interval then Wanderer(0.0, Picked(f.pickX, f.pickZ), w.position)
    else Wanderer(t, w.direction, w.position)
  }

  /** The second half: move to the candidate position when it is inside the
      bounds, otherwise stay and reverse the direction. */
  function Moved(w: Wanderer, dt: real, b: Bounds, moveSpeed: real): Wanderer
  {
    var newPos := Add(w.position, Scale(w.direction, moveSpeed * dt));
    if !InBounds(newPos, b) then w.(direction := Neg(w.direction))
    else w.(position := newPos)
  }

  /** The timer restarts with a fresh pick exactly when the accumulated time
      reaches the interval; otherwise it advances and the direction is kept.
      The position is never touched. */
  lemma RetimedRestartsOrAdvances(w: Wanderer, f: Frame, interval: real)
    ensures var r := Retimed(w, f, interval);
      && r.position == w.position
      && (r.timer == 0.0 || r.timer < interval)
      && (w.timer + f.dt >= interval ==> r.timer == 0.0 && r.direction == Picked(f.pickX, f.pickZ))
      && (w.timer + f.dt < interval ==> r.timer == w.timer + f.dt && r.direction == w.direction)
  {
  }

  /** Moving keeps the timer; the dummy either stays where it was, facing the
      opposite way unless it was already inside the bounds, or ends up inside
      the bounds; its direction is kept or reversed, so it stays horizontal. */
  lemma MovedStaysOrEntersBounds(w: Wanderer, dt: real, b: Bounds, moveSpeed: real)
    ensures var r := Moved(w, dt, b, moveSpeed);
      && r.timer == w.timer
      && (r.position == w.position || InBounds(r.position, b))
      && (!InBounds(r.position, b) ==> r.direction == Neg(w.direction))
      && (r.direction == w.direction || r.direction == Neg(w.direction))
      && (w.direction.y == 0.0 ==> r.direction.y == 0.0)
  {
  }

  /** The `Update` transition. */
  function Step(w: Wanderer, f: Frame, b: Bounds, moveSpeed: real, interval: real): (r: Wanderer)
    ensures r.timer == 0.0 || r.timer < interval
    ensures r.timer == 0.0 <==> w.timer + f.dt >= interval || w.timer + f.dt == 0.0
    ensures r.position == w.position || InBounds(r.position, b)
    ensures InBounds(w.position, b) ==> InBounds(r.position, b)
    ensures w.direction.y == 0.0 ==> r.direction.y == 0.0
  {
    Moved(Retimed(w, f, interval), f.dt, b, moveSpeed)
  }

  /** An out-of-bounds candidate leaves the position alone and turns the
      dummy around, whether the direction it reverses is the old one or one
      picked this same frame. */
  lemma BlockedStepReverses(w: Wanderer, f: Frame, b: Bounds, moveSpeed: real, interval: real)
    requires var m := Retimed(w, f, interval);
      !InBounds(Add(m.position, Scale(m.direction, moveSpeed * f.dt)), b)
    ensures var m := Retimed(w, f, interval);
      Step(w, f, b, moveSpeed, interval) == m.(direction := Neg(m.direction))
    ensures Step(w, f, b, moveSpeed, interval).position == w.position
  {
  }

  function Run(w: Wanderer, fs: seq<Frame>, b: Bounds, moveSpeed: real, interval: real): Wanderer
    decreases |fs|
  {
    if fs == [] then w else Run(Step(w, fs[0], b, moveSpeed, interval), fs[1..], b, moveSpeed, interval)
  }

  /** A dummy that starts on the ground stays on it, facing horizontally. */
  lemma {:induction false} StaysInBounds(w: Wanderer, fs: seq<Frame>, b: Bounds, moveSpeed: real, interval: real)
    requires InBounds(w.position, b) && w.direction.y == 0.0
    ensures InBounds(Run(w, fs, b, moveSpeed, interval).position, b)
    ensures Run(w, fs, b, moveSpeed, interval).direction.y == 0.0
    decreases |fs|
  {
    if fs != [] {
      StaysInBounds(Step(w, fs[0], b, moveSpeed, interval), fs[1..], b, moveSpeed, interval);
    }
  }

  class AutoMoveDummyInBounds {
    const moveSpeed: real
    const changeDirectionInterval: real

    var timer: real
    var moveDirection: Vec3
    var position: Vec3          // transform.position
    var minX: real
    var maxX: real
    var minZ: real
    var maxZ: real

    function State(): Wanderer
      reads this
    {
      Wanderer(timer, moveDirection, position)
    }

    function Ground(): Bounds
      reads this
    {
      Bounds(minX, maxX, minZ, maxZ)
    }

    ghost predicate Valid()
      reads this
    {
      moveDirection.y == 0.0
    }

    /** Field initialisers, at the position the dummy was placed. */
    constructor (position: Vec3, moveSpeed: real, changeDirectionInterval: real)
      ensures Valid()
      ensures this.moveSpeed == moveSpeed && this.changeDirectionInterval == changeDirectionInterval
      ensures State() == Wanderer(0.0, Zero, position) && Ground() == NoBounds
    {
      this.moveSpeed, this.changeDirectionInterval := moveSpeed, changeDirectionInterval;
      timer, moveDirection, this.position := 0.0, Zero, position;
      minX, maxX, minZ, maxZ := 0.0, 0.0, 0.0, 0.0;
    }

    method Start(ground: Option<Option<Bounds>>, pickX: real, pickZ: real)
      requires Valid()
      modifies this
      ensures Valid()
      ensures Ground() == (if ground.Some? && ground.value.Some? then ground.value.value else old(Ground()))
      ensures old(Ground()) == NoBounds ==> Ground() == GroundBounds(ground)
      ensures moveDirection == Picked(pickX, pickZ)
      ensures timer == old(timer) && position == old(position)
    {
      if ground.Some? {
        var mr := ground.value;
        if mr.Some? {
          var bounds := mr.value;
          minX, maxX := bounds.minX, bounds.maxX;
          minZ, maxZ := bounds.minZ, bounds.maxZ;
        }
      }
      PickNewDirection(false, pickX, pickZ);
    }

    method Update(f: Frame)
      requires Valid()
      modifies this
      ensures Valid()
      ensures Ground() == old(Ground())
      ensures State() == Step(old(State()), f, Ground(), moveSpeed, changeDirectionInterval)
    {
      timer := timer + f.dt;
      if timer >= changeDirectionInterval {
        PickNewDirection(false, f.pickX, f.pickZ);
        timer := 0.0;
      }
      assert State() == Retimed(old(State()), f, changeDirectionInterval);
      ghost var mid := State();
      var newPos := Add(position, Scale(moveDirection, moveSpeed * f.dt));
      if newPos.x < minX || newPos.x > maxX || newPos.z < minZ || newPos.z > maxZ {
        PickNewDirection(true, f.pickX, f.pickZ);
      } else {
        position := newPos;
      }
      assert State() == Moved(mid, f.dt, Ground(), moveSpeed);
    }

    method PickNewDirection(reverse: bool, pickX: real, pickZ: real)
      requires Valid()
      modifies this`moveDirection
      ensures Valid()
      ensures moveDirection == if reverse then Neg(old(moveDirection)) else Picked(pickX, pickZ)
    {
      if reverse {
        moveDirection := Neg(moveDirection);
        return;
      }
      moveDirection := Picked(pickX, pickZ);
    }
  }
}
