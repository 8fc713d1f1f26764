/** Vectors over the reals, standing for the rows of the source's f32 tensors. */
module Vectors {
  type Vec = seq<real>

  function Zeros(n: nat): Vec {
    seq(n, _ => 0.0)
  }

  /** Coordinate `c`, zero past the end. */
  function At(v: Vec, c: nat): real {
    if c < |v| then v[c] else 0.0
  }

  /** Elementwise sum with the shape of the first operand. */
  function Add(a: Vec, b: Vec): (r: Vec)
    ensures |r| == |a|
    ensures forall c | 0 <= c < |a| :: r[c] == a[c] + At(b, c)
  {
    seq(|a|, c requires 0 <= c < |a| => a[c] + At(b, c))
  }

  function Scale(w: real, v: Vec): (r: Vec)
    ensures |r| == |v|
    ensures forall c | 0 <= c < |v| :: r[c] == w * v[c]
  {
    seq(|v|, c requires 0 <= c < |v| => w * v[c])
  }

  lemma AddZero(a: Vec, v: Vec)
    ensures Add(a, Scale(0.0, v)) == a
  {
  }
}
