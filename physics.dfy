/** The part of a physics-engine rigid body that the game reads and writes. Force
    integration is the engine's business: `ApplyForce` only records the call. */
module Physics {
  import opened Vectors

  /** One `body.applyForce(force, point)` call. */
  datatype ForceCall = ForceCall(force: Vec3, point: Vec3)

  class Body {
    var position: Vec3
    var quaternion: Quat
    const mass: real
    const linearDamping: real
    const angularDamping: real
    /** Every force applied so far, oldest first. */
    var applied: seq<ForceCall>

    constructor (position: Vec3, mass: real, linearDamping: real, angularDamping: real)
      ensures this.position == position && quaternion == Quat(0.0, 0.0, 0.0, 1.0)
      ensures this.mass == mass && this.linearDamping == linearDamping
      ensures this.angularDamping == angularDamping
      ensures applied == []
    {
      this.position := position;
      quaternion := Quat(0.0, 0.0, 0.0, 1.0);
      this.mass := mass;
      this.linearDamping := linearDamping;
      this.angularDamping := angularDamping;
      applied := [];
    }

    method ApplyForce(force: Vec3, point: Vec3)
      modifies this`applied
      ensures applied == old(applied) + [ForceCall(force, point)]
    {
      applied := applied + [ForceCall(force, point)];
    }
  }
}
