/**
 * The vector values the loaders read from a model file. Coordinates are modelled
 * as mathematical reals rather than 32-bit floats.
 */
module Vectors {
  datatype Vector2 = Vector2(x: real, y: real)

  datatype Vector3 = Vector3(x: real, y: real, z: real)

  /** Component c (x, y, z) of a vector. */
  function Coordinate(v: Vector3, c: nat): real
    requires c < 3
  {
    if c == 0 then v.x else if c == 1 then v.y else v.z
  }

  /** Slot 3i + c of a stride-3 array belongs to element i, component c. */
  lemma {:induction false} Stride3(i: int, c: int)
    requires 0 <= i && 0 <= c < 3
    ensures (3 * i + c) / 3 == i && (3 * i + c) % 3 == c
  {
  }

  /** Slot 2i + c of a stride-2 array belongs to element i, component c. */
  lemma {:induction false} Stride2(i: int, c: int)
    requires 0 <= i && 0 <= c < 2
    ensures (2 * i + c) / 2 == i && (2 * i + c) % 2 == c
  {
  }
}
