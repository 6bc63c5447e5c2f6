/** Values shared by the loss and the synthetic-data generator: the centre-form
    box, the optional and fallible results, and a few real-number helpers. */
module Boxes {

  datatype Option<T> = None | Some(value: T)

  datatype Result<T, E> = Ok(value: T) | Err(error: E)

  /** An axis-aligned box in centre form: centre (x, y), width w, height h. */
  datatype Box = Box(x: real, y: real, w: real, h: real)

  /** The box as the four consecutive tensor entries [x, y, w, h]. */
  function BoxEntries(b: Box): (v: seq<real>)
    ensures |v| == 4
  {
    [b.x, b.y, b.w, b.h]
  }

  function Area(b: Box): real
  {
    b.w * b.h
  }

  function Abs(v: real): (r: real)
    ensures 0.0 <= r && (r == v || r == -v)
  {
    if v < 0.0 then -v else v
  }

  function Max(a: real, b: real): (m: real)
    ensures a <= m && b <= m && (m == a || m == b)
  {
    if a < b then b else a
  }

  function Min(a: real, b: real): (m: real)
    ensures m <= a && m <= b && (m == a || m == b)
  {
    if a < b then a else b
  }

  /** The square of a real, never negative. */
  function Sq(v: real): (r: real)
    ensures 0.0 <= r
  {
    v * v
  }
}
