/**
 The table that maps a die's face value to the 3D rotation that turns that
 face towards the viewer. A rotation is kept symbolically: the axis and the
 angle in degrees of each CSS `rotateX`/`rotateY` step, in the order written.
 */
module Faces {

  /** One CSS rotation step. */
  datatype Rotation = RotateX(deg: int) | RotateY(deg: int)

  /** A CSS `transform` value: the rotation steps applied in order. */
  type Transform = seq<Rotation>

  /** True for the values a six-sided die can show. */
  predicate IsFace(v: int) {
    1 <= v <= 6
  }

  /** The face-to-orientation table: defined exactly for the faces 1..6, and
      no two faces share an orientation, so every face has its own state. */
  function FaceRotations(): (m: map<int, Transform>)
    ensures m.Keys == {1, 2, 3, 4, 5, 6}
    ensures forall a, b :: a in m && b in m && a != b ==> m[a] != m[b]
  {
    map[
      1 := [RotateY(0), RotateX(0)],
      2 := [RotateX(-90)],
      3 := [RotateY(-90)],
      4 := [RotateY(90)],
      5 := [RotateX(90)],
      6 := [RotateY(180)]
    ]
  }

  /** The transform applied to a die that shows `face`; no other face is
      given the same transform, so the face can be read back from it. */
  function Orientation(face: int): (t: Transform)
    requires IsFace(face)
    ensures forall b :: b in FaceRotations() && FaceRotations()[b] == t ==> b == face
  {
    FaceRotations()[face]
  }

  /** Two dice look the same exactly when they show the same face. */
  lemma OrientationIdentifiesFace(a: int, b: int)
    requires IsFace(a) && IsFace(b)
    ensures Orientation(a) == Orientation(b) <==> a == b
  {
  }

  /** Every key the table lookup can receive is a face, and every face has an
      entry: the lookup in `updateDice` never misses for a value in 1..6. */
  lemma FaceRotationsDefinedExactlyOnFaces(v: int)
    ensures v in FaceRotations() <==> IsFace(v)
  {
  }
}
