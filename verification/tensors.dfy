/** The few tensor operations the modelled code uses, on flat sequences of reals. */
module Tensors {

  /** A tensor times a scalar: `t * c`. */
  function Scale(s: seq<real>, c: real): (r: seq<real>)
    ensures |r| == |s|
  {
    seq(|s|, k requires 0 <= k < |s| => s[k] * c)
  }

  /** Multiplying by `c` and then by `1/c` gives back the tensor. */
  lemma ScaleInverse(s: seq<real>, c: real)
    requires c != 0.0
    ensures Scale(Scale(s, c), 1.0 / c) == s
  {
    forall k | 0 <= k < |s|
      ensures Scale(Scale(s, c), 1.0 / c)[k] == s[k]
    {
      calc {
        Scale(Scale(s, c), 1.0 / c)[k];
        (s[k] * c) * (1.0 / c);
        s[k] * (c * (1.0 / c));
        s[k];
      }
    }
  }

  /** Inner product of a feature row with a weight vector (`x.matmul(w)` for one row). */
  function Dot(x: seq<real>, w: seq<real>): real
    requires |x| == |w|
  {
    if |x| == 0 then 0.0 else x[0] * w[0] + Dot(x[1..], w[1..])
  }

  /** The inner product is linear in the weight: scaling the weight scales the product. */
  lemma {:induction false} DotScale(x: seq<real>, w: seq<real>, c: real)
    requires |x| == |w|
    ensures Dot(x, Scale(w, c)) == Dot(x, w) * c
  {
    if |x| > 0 {
      assert forall k :: 0 <= k < |w| - 1 ==> Scale(w, c)[1..][k] == Scale(w[1..], c)[k];
      assert Scale(w, c)[1..] == Scale(w[1..], c);
      DotScale(x[1..], w[1..], c);
      calc {
        Dot(x, Scale(w, c));
        x[0] * (w[0] * c) + Dot(x[1..], Scale(w[1..], c));
        x[0] * (w[0] * c) + Dot(x[1..], w[1..]) * c;
        (x[0] * w[0] + Dot(x[1..], w[1..])) * c;
      }
    }
  }

  /** Row-major concatenation of the rows of a matrix (`flatten`). */
  function Flatten(rows: seq<seq<real>>): (s: seq<real>)
  {
    if |rows| == 0 then [] else rows[0] + Flatten(rows[1..])
  }

  /** `s.reshape(n, d)`: cut a flat tensor of `n*d` entries into `n` rows of `d`. */
  function Reshape(s: seq<real>, n: nat, d: nat): (rows: seq<seq<real>>)
    requires |s| == n * d
    ensures |rows| == n
    ensures forall i :: 0 <= i < n ==> |rows[i]| == d
    decreases n
  {
    if n == 0 then []
    else
      assert |s| == d + (n - 1) * d;
      [s[..d]] + Reshape(s[d..], n - 1, d)
  }

  /** Entry `(i, j)` of the reshaped matrix is entry `i*d + j` of the flat tensor. */
  lemma {:induction false} ReshapeEntry(s: seq<real>, n: nat, d: nat, i: nat, j: nat)
    requires |s| == n * d
    requires i < n && j < d
    ensures i * d + j < |s|
    ensures Reshape(s, n, d)[i][j] == s[i * d + j]
    decreases n
  {
    assert |s| == d + (n - 1) * d;
    var rest := Reshape(s[d..], n - 1, d);
    assert Reshape(s, n, d) == [s[..d]] + rest;
    if i > 0 {
      ReshapeEntry(s[d..], n - 1, d, i - 1, j);
      assert i * d + j == (i - 1) * d + j + d;
      assert Reshape(s, n, d)[i] == rest[i - 1];
    }
  }

  /** Flattening the reshaped matrix gives back the flat tensor. */
  lemma {:induction false} FlattenReshape(s: seq<real>, n: nat, d: nat)
    requires |s| == n * d
    ensures Flatten(Reshape(s, n, d)) == s
    decreases n
  {
    if n > 0 {
      assert |s| == d + (n - 1) * d;
      FlattenReshape(s[d..], n - 1, d);
      assert Reshape(s, n, d)[1..] == Reshape(s[d..], n - 1, d);
      assert s[..d] + s[d..] == s;
    }
  }
}
