/**
 * Values the replication core borrows from its game engine (bevy), its
 * vector library (glam) and its transport (renet).
 *
 * f32 components are modelled as `real`: the model keeps the arithmetic the
 * code writes out and leaves rounding aside.
 */
module Engine {

  /** renet's ClientId (a u64 chosen by the connecting client). */
  type ClientId = nat

  /** bevy's Entity handle; only its identity matters here. */
  type Entity = nat

  datatype Option<T> = None | Some(value: T)

  datatype Vec2 = Vec2(x: real, y: real)
  datatype Vec3 = Vec3(x: real, y: real, z: real)
  datatype Quat = Quat(x: real, y: real, z: real, w: real)

  /** bevy's Transform: translation, rotation and scale. */
  datatype Transform = Transform(translation: Vec3, rotation: Quat, scale: Vec3)

  const Vec2Zero := Vec2(0.0, 0.0)
  const Vec3Zero := Vec3(0.0, 0.0, 0.0)
  const Vec3One := Vec3(1.0, 1.0, 1.0)
  const QuatIdentity := Quat(0.0, 0.0, 0.0, 1.0)

  /** Transform::from_translation: the given translation, no rotation, unit scale. */
  function FromTranslation(t: Vec3): Transform
  {
    Transform(t, QuatIdentity, Vec3One)
  }

  /** The members of a sequence of ids, as a set, built from its last element back. */
  function Elements(s: seq<nat>): set<nat>
  {
    if s == [] then {} else Elements(s[..|s| - 1]) + {s[|s| - 1]}
  }

  /** An id is in `Elements(s)` exactly when it occurs in `s`. */
  lemma {:induction false} ElementsExactly(s: seq<nat>)
    ensures forall x :: x in Elements(s) <==> x in s
  {
    if s != [] {
      var n := |s| - 1;
      ElementsExactly(s[..n]);
      assert s == s[..n] + [s[n]];
    }
  }

  /** No element occurs twice. */
  predicate Distinct<T(==)>(s: seq<T>)
  {
    forall i, j :: 0 <= i < j < |s| ==> s[i] != s[j]
  }
}
