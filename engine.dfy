/** Values that stand for what the game scripts read from, or hand to, the
    engine: optional references, 3-vectors of idealised floats, collider tags
    as seen by `CompareTag`, what a raycast hit carries, and the damage call a
    shot ends in. */
module Engine {

  datatype Option<+T> = None | Some(value: T)

  /** A `Vector3`, with the float components idealised as reals. */
  datatype Vec3 = Vec3(x: real, y: real, z: real)

  const Zero := Vec3(0.0, 0.0, 0.0)

  function Add(a: Vec3, b: Vec3): Vec3
  {
    Vec3(a.x + b.x, a.y + b.y, a.z + b.z)
  }

  function Scale(v: Vec3, k: real): Vec3
  {
    Vec3(v.x * k, v.y * k, v.z * k)
  }

  /** Unary minus on a vector (`-moveDirection`). */
  function Neg(v: Vec3): (r: Vec3)
    ensures Add(v, r) == Zero
  {
    Vec3(-v.x, -v.y, -v.z)
  }

  lemma NegInvolutive(v: Vec3)
    ensures Neg(Neg(v)) == v
  {
  }

  /** The tag of a collider, as far as the scripts compare it. */
  datatype Tag = PlayerTag | EnemyTag | OtherTag

  /** What a raycast hit offers the scripts: the collider's tag and which of
      the components they look up on it are present. */
  datatype Collider = Collider(tag: Tag, hasPlayerHealth: bool, hasDamageable: bool, hasTarget: bool)

  /** The one damage call a shot or a bullet ends in, if any. */
  datatype DamageCall =
    | NoDamage
    | DamagePlayer(amount: int)       // PlayerHealth.TakeDamage(int)
    | DamageDamageable(amount: int)   // IDamageable.TakeDamage(int)
    | DamageTarget(points: real)      // Target.takeDamage(float)

  /** Sum of a sequence of frame times or damages. */
  function Sum(dts: seq<real>): real
  {
    if dts == [] then 0.0 else dts[0] + Sum(dts[1..])
  }

  predicate NonNegative(dts: seq<real>)
  {
    forall i :: 0 <= i < |dts| ==> dts[i] >= 0.0
  }

  lemma {:induction false} SumNonNegative(dts: seq<real>)
    requires NonNegative(dts)
    ensures Sum(dts) >= 0.0
  {
    if dts != [] {
      SumNonNegative(dts[1..]);
    }
  }
}
