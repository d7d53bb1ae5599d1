/** Small value types shared by the whole model. */
module Base {

  /** A value that may be missing: the model's stand-in for a C# null reference. */
  datatype Option<T> = None | Some(value: T)

  /** A 2D point or vector of the engine, with real coordinates. */
  datatype Vec2 = Vec2(x: real, y: real)

  function Min(a: int, b: int): int
  {
    if a < b then a else b
  }

  /** Squared Euclidean distance: compared against a squared bound instead of taking a square root. */
  function SqDist(a: Vec2, b: Vec2): real
  {
    (a.x - b.x) * (a.x - b.x) + (a.y - b.y) * (a.y - b.y)
  }
}
