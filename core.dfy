/** The parts of the engine's entity/Transform contract that gameplay reads and writes,
    plus the random-draw convention used by the course generator and the particle emitter. */
module Core {
  import opened Quat

  datatype Option<T> = None | Some(value: T)

  datatype Vec3 = Vec3(x: real, y: real, z: real)

  const One := Vec3(1.0, 1.0, 1.0)

  /** An RGBA colour factor. */
  datatype Color = Color(r: real, g: real, b: real, a: real)

  /** What a Transform component holds: translation, rotation and an optional scale
      (a missing scale reads as [1, 1, 1] wherever it is used). */
  datatype Pose = Pose(translation: Vec3, rotation: Quat4, scale: Option<Vec3>)

  /** An entity as gameplay sees it: it may or may not carry a Transform component. */
  datatype Entity = Entity(transform: Option<Pose>)

  /** A Transform component that several owners share and update in place
      (the skier's transform is written by its controller and read by the game loop).
      The 3-element translation array is held as a value: no code keeps the array
      itself, only the transform, so writing one element is reassigning the field. */
  class Transform {
    var translation: Vec3
    var rotation: Quat4
    var scale: Vec3

    constructor (translation: Vec3, rotation: Quat4, scale: Vec3)
      ensures this.translation == translation && this.rotation == rotation && this.scale == scale
    {
      this.translation := translation;
      this.rotation := rotation;
      this.scale := scale;
    }

    /** The current contents of this component as a value. */
    function Snapshot(): (p: Pose)
      reads this
      ensures p.translation == translation && p.scale == Some(scale)
    {
      Pose(translation, rotation, Some(scale))
    }
  }

  /** Math.random() draws, numbered in the order the code consumes them: each lies in [0, 1). */
  ghost predicate ValidDraws(rnd: nat -> real) {
    forall n: nat :: 0.0 <= rnd(n) < 1.0
  }

  function Abs(r: real): (y: real) {
    if r < 0.0 then -r else r
  }

  function Min(a: real, b: real): (m: real) {
    if a <= b then a else b
  }

  function Max(a: real, b: real): (m: real) {
    if a >= b then a else b
  }

  /** The product of two positive reals is positive (a fact the solver needs handed to it). */
  lemma MulPositive(p: real, q: real)
    requires p > 0.0 && q > 0.0
    ensures p * q > 0.0
  {
  }

  /** The product of two non-negative reals is non-negative. */
  lemma MulNonNegative(p: real, q: real)
    requires p >= 0.0 && q >= 0.0
    ensures p * q >= 0.0
  {
  }
}
