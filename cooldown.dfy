/** The fire-cooldown pattern shared by both enemy controllers and the turret:
    on every frame in which the shooter is engaged the timer drops by the
    frame's delta time, and when it has reached zero the shooter fires once
    and the timer is reset to the cooldown. */
module Cooldown {
  import opened Engine

  datatype Tick = Tick(timer: real, fired: bool)

  /** One engaged frame: `fireTimer -= dt; if (fireTimer <= 0) { fire; fireTimer = fireCooldown; }`. */
  function Step(timer: real, dt: real, cooldown: real): (r: Tick)
    ensures r.fired <==> timer - dt <= 0.0
    ensures r.fired ==> r.timer == cooldown
    ensures !r.fired ==> r.timer == timer - dt && r.timer > 0.0
  {
    var t := timer - dt;
    if t <= 0.0 then Tick(cooldown, true) else Tick(t, false)
  }

  /** The timer starts at 0, so the first engaged frame fires. */
  lemma FirstEngagedFrameFires(dt: real, cooldown: real)
    requires dt >= 0.0
    ensures Step(0.0, dt, cooldown) == Tick(cooldown, true)
  {
  }

  /** A run of consecutive engaged frames: the final timer and the number of shots. */
  datatype Run = Run(timer: real, shots: nat)

  function RunFrames(timer: real, cooldown: real, dts: seq<real>): Run
    decreases |dts|
  {
    if dts == [] then Run(timer, 0)
    else
      var t := Step(timer, dts[0], cooldown);
      var rest := RunFrames(t.timer, cooldown, dts[1..]);
      Run(rest.timer, rest.shots + if t.fired then 1 else 0)
  }

  /** At most one shot per frame. */
  lemma {:induction false} AtMostOneShotPerFrame(timer: real, cooldown: real, dts: seq<real>)
    ensures RunFrames(timer, cooldown, dts).shots <= |dts|
    decreases |dts|
  {
    if dts != [] {
      AtMostOneShotPerFrame(Step(timer, dts[0], cooldown).timer, cooldown, dts[1..]);
    }
  }

  /** While the engaged time adds up to less than the timer, nothing fires and
      the timer has dropped by exactly that time; once it adds up to the timer
      or more, at least one shot has fired. After a shot the timer equals the
      cooldown, so this is the spacing between two shots. */
  lemma {:induction false} NoShotIffWithinBudget(timer: real, cooldown: real, dts: seq<real>)
    requires NonNegative(dts)
    ensures Sum(dts) < timer ==> RunFrames(timer, cooldown, dts) == Run(timer - Sum(dts), 0)
    ensures Sum(dts) >= timer && dts != [] ==> RunFrames(timer, cooldown, dts).shots >= 1
    decreases |dts|
  {
    if dts != [] {
      var t := Step(timer, dts[0], cooldown);
      assert NonNegative(dts[1..]);
      SumNonNegative(dts[1..]);
      NoShotIffWithinBudget(t.timer, cooldown, dts[1..]);
    }
  }
}
