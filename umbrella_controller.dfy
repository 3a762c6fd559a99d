/** The player's umbrella: Q opens and closes it as a shield; while it is
    closed and the mouse is held it fires hit-scan shots no faster than
    `fireRate` per second; the animator's "shooting" flag follows the mouse. */
module Umbrella {
  import opened Engine

  /** One frame's input: Q pressed this frame, left mouse held, left mouse
      released this frame, `Time.time`, and what the camera ray hits. */
  datatype Input = Input(qPressed: bool, mouseHeld: bool, mouseUp: bool, time: real, hit: Option<Collider>)

  /** The controller's three fields as a value. */
  datatype Umbrella = Umbrella(isOpen: bool, isShooting: bool, nextTimeToFire: real)

  datatype Outcome = Outcome(next: Umbrella, fired: bool)

  /** The `Update` transition. */
  function Step(u: Umbrella, i: Input, fireRate: real): (o: Outcome)
    requires fireRate > 0.0
    ensures o.next.isOpen == (u.isOpen != i.qPressed)
    ensures o.fired <==> i.mouseHeld && !o.next.isOpen && i.time >= u.nextTimeToFire
    ensures o.next.nextTimeToFire == if o.fired then i.time + 1.0 / fireRate else u.nextTimeToFire
    ensures o.next.nextTimeToFire >= u.nextTimeToFire
    ensures i.mouseUp ==> !o.next.isShooting
    ensures !i.mouseUp ==> (o.next.isShooting <==> u.isShooting || (i.mouseHeld && !o.next.isOpen))
  {
    var isOpen := if i.qPressed then !u.isOpen else u.isOpen;
    var holding := i.mouseHeld && !isOpen;
    var fired := holding && i.time >= u.nextTimeToFire;
    var next := if fired then i.time + 1.0 / fireRate else u.nextTimeToFire;
    var isShooting := if i.mouseUp then false else if holding then true else u.isShooting;
    Outcome(Umbrella(isOpen, isShooting, next), fired)
  }

  /** Two Q presses restore the shield to where it was. */
  lemma {:induction false} TogglingTwiceRestores(u: Umbrella, i1: Input, i2: Input, fireRate: real)
    requires fireRate > 0.0 && i1.qPressed && i2.qPressed
    ensures Step(Step(u, i1, fireRate).next, i2, fireRate).next.isOpen == u.isOpen
  {
    var o1 := Step(u, i1, fireRate);
    assert o1.next.isOpen == !u.isOpen;
  }

  /** A shot damages what the ray hit only when it has a `Target`. */
  function ShotDamage(hit: Option<Collider>, damage: real): (r: DamageCall)
    ensures r != NoDamage <==> hit.Some? && hit.value.hasTarget
    ensures r != NoDamage ==> r == DamageTarget(damage)
  {
    match hit
    case None => NoDamage
    case Some(c) => if c.hasTarget then DamageTarget(damage) else NoDamage
  }

  /** The times at which a run of frames fires. */
  function ShotTimes(u: Umbrella, ins: seq<Input>, fireRate: real): seq<real>
    requires fireRate > 0.0
    decreases |ins|
  {
    if ins == [] then []
    else
      var o := Step(u, ins[0], fireRate);
      (if o.fired then [ins[0].time] else []) + ShotTimes(o.next, ins[1..], fireRate)
  }

  /** Every time is at or after `from`, and each is at least `gap` after the one before. */
  predicate Spaced(ts: seq<real>, from: real, gap: real)
  {
    && (forall k :: 0 <= k < |ts| ==> ts[k] >= from)
    && (forall k :: 0 <= k < |ts| - 1 ==> ts[k + 1] >= ts[k] + gap)
  }

  /** No shot comes before `nextTimeToFire`, and successive shots are at
      least `1 / fireRate` apart. */
  lemma {:induction false} ShotsAreSpaced(u: Umbrella, ins: seq<Input>, fireRate: real)
    requires fireRate > 0.0
    ensures Spaced(ShotTimes(u, ins, fireRate), u.nextTimeToFire, 1.0 / fireRate)
    decreases |ins|
  {
    if ins != [] {
      var o := Step(u, ins[0], fireRate);
      var rest := ShotTimes(o.next, ins[1..], fireRate);
      ShotsAreSpaced(o.next, ins[1..], fireRate);
      assert Spaced(rest, o.next.nextTimeToFire, 1.0 / fireRate);
      var ts := ShotTimes(u, ins, fireRate);
      if o.fired {
        assert ts == [ins[0].time] + rest;
        assert o.next.nextTimeToFire == ins[0].time + 1.0 / fireRate;
        assert ins[0].time >= u.nextTimeToFire;
      } else {
        assert ts == rest;
      }
    }
  }

  class UmbrellaController {
    const fireRate: real
    const damage: real

    var isOpen: bool
    var isShooting: bool
    var nextTimeToFire: real
    // What Update last handed the animator and the shield object.
    var animatorOpen: bool
    var animatorShooting: bool
    var shieldActive: bool

    function State(): Umbrella
      reads this
    {
      Umbrella(isOpen, isShooting, nextTimeToFire)
    }

    /** Field initialisers; the animator speed set in `Start` is not modelled. */
    constructor (fireRate: real, damage: real)
      requires fireRate > 0.0
      ensures this.fireRate == fireRate && this.damage == damage
      ensures State() == Umbrella(false, false, 0.0)
      ensures !animatorOpen && !animatorShooting && !shieldActive
    {
      this.fireRate, this.damage := fireRate, damage;
      isOpen, isShooting, nextTimeToFire := false, false, 0.0;
      animatorOpen, animatorShooting, shieldActive := false, false, false;
    }

    method Update(i: Input) returns (fired: bool, dealt: DamageCall)
      requires fireRate > 0.0
      modifies this
      ensures Outcome(State(), fired) == Step(old(State()), i, fireRate)
      ensures shieldActive == isOpen && animatorShooting == isShooting
      ensures animatorOpen == if i.qPressed then isOpen else old(animatorOpen)
      ensures dealt == if fired then ShotDamage(i.hit, damage) else NoDamage
    {
      if i.qPressed {
        isOpen := !isOpen;
        animatorOpen := isOpen;
      }

      fired, dealt := false, NoDamage;
      if i.mouseHeld && !isOpen {
        if i.time >= nextTimeToFire {
          nextTimeToFire := i.time + 1.0 / fireRate;
          fired := true;
          dealt := Shoot(i.hit);
        }
        isShooting := true;
      }

      if i.mouseUp {
        isShooting := false;
      }

      animatorShooting := isShooting;
      shieldActive := isOpen;
    }

    /** The ray's damage dispatch; flash and sound are the engine's. */
    method Shoot(hit: Option<Collider>) returns (dealt: DamageCall)
      ensures dealt == ShotDamage(hit, damage)
    {
      dealt := NoDamage;
      if hit.Some? {
        if hit.value.hasTarget {
          dealt := DamageTarget(damage);
        }
      }
    }
  }
}
