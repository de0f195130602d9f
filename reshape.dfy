/** The parameter-free reshapes that MultiWayBlock applies around each path:
    torch's PixelUnshuffle and PixelShuffle (lib/multiwayblock.py:162-180,
    applied at 182 and 187) and the (D, H*W) <-> (H*W, D) transpose that
    turns a feature map into tokens and back (lines 184, 186 and 196).

    One sample of the batch is one flat row-major sequence.  Unshuffle and
    Shuffle are written over the low-resolution shape (c, ho, wo) and the
    factor r: the high-resolution map has shape (c, ho*r, wo*r) and the
    low-resolution one (c*r*r, ho, wo).
 */
module Reshape {
  import opened IndexMath

  /** Where element n of PixelUnshuffle's output comes from: output
      coordinate ((a*r + i)*r + j, h, w) reads input (a, h*r + i, w*r + j). */
  function UnshuffleSource(n: nat, c: nat, ho: nat, wo: nat, r: nat): (src: nat)
    requires r > 0 && n < c * r * r * ho * wo
    ensures src < c * (ho * r) * (wo * r)
  {
    FactorsPositive(c * r * r, ho, wo);
    var t := Coords3(n, ho, wo);
    Coords3Bound(n, c * r * r, ho, wo);
    var q := Coords3(t.0, r, r);
    Coords3Bound(t.0, c, r, r);
    Idx2Bound(t.1, q.1, ho, r);
    Idx2Bound(t.2, q.2, wo, r);
    Idx3Bound(q.0, Idx2(t.1, q.1, r), Idx2(t.2, q.2, r), c, ho * r, wo * r);
    Idx3(q.0, Idx2(t.1, q.1, r), Idx2(t.2, q.2, r), ho * r, wo * r)
  }

  /** Where element n of PixelShuffle's output comes from: output
      coordinate (a, h*r + i, w*r + j) reads input ((a*r + i)*r + j, h, w). */
  function ShuffleSource(n: nat, c: nat, ho: nat, wo: nat, r: nat): (src: nat)
    requires r > 0 && n < c * (ho * r) * (wo * r)
    ensures src < c * r * r * ho * wo
  {
    FactorsPositive(c, ho * r, wo * r);
    var t := Coords3(n, ho * r, wo * r);
    Coords3Bound(n, c, ho * r, wo * r);
    QuotientBound(t.1, ho, r);
    QuotientBound(t.2, wo, r);
    Idx3Bound(t.0, t.1 % r, t.2 % r, c, r, r);
    Idx3Bound(Idx3(t.0, t.1 % r, t.2 % r, r, r), t.1 / r, t.2 / r, c * r * r, ho, wo);
    Idx3(Idx3(t.0, t.1 % r, t.2 % r, r, r), t.1 / r, t.2 / r, ho, wo)
  }

  /** torch.nn.PixelUnshuffle(r) on one sample: (c, ho*r, wo*r) -> (c*r*r, ho, wo). */
  function Unshuffle(x: seq<int>, c: nat, ho: nat, wo: nat, r: nat): (y: seq<int>)
    requires r > 0 && |x| == c * (ho * r) * (wo * r)
    ensures |y| == c * r * r * ho * wo
  {
    seq(c * r * r * ho * wo, n requires 0 <= n < c * r * r * ho * wo => x[UnshuffleSource(n, c, ho, wo, r)])
  }

  /** torch.nn.PixelShuffle(r) on one sample: (c*r*r, ho, wo) -> (c, ho*r, wo*r). */
  function Shuffle(y: seq<int>, c: nat, ho: nat, wo: nat, r: nat): (x: seq<int>)
    requires r > 0 && |y| == c * r * r * ho * wo
    ensures |x| == c * (ho * r) * (wo * r)
  {
    seq(c * (ho * r) * (wo * r), n requires 0 <= n < c * (ho * r) * (wo * r) => y[ShuffleSource(n, c, ho, wo, r)])
  }

  /** Coordinate reading of Unshuffle: each r x r spatial block of channel a
      becomes r*r consecutive channels, block row i and column j landing on
      channel (a*r + i)*r + j. */
  lemma UnshuffleAt(x: seq<int>, c: nat, ho: nat, wo: nat, r: nat, a: nat, i: nat, j: nat, h: nat, w: nat)
    requires r > 0 && |x| == c * (ho * r) * (wo * r)
    requires a < c && i < r && j < r && h < ho && w < wo
    ensures Idx3(Idx3(a, i, j, r, r), h, w, ho, wo) < c * r * r * ho * wo
    ensures Idx3(a, Idx2(h, i, r), Idx2(w, j, r), ho * r, wo * r) < |x|
    ensures Unshuffle(x, c, ho, wo, r)[Idx3(Idx3(a, i, j, r, r), h, w, ho, wo)]
         == x[Idx3(a, Idx2(h, i, r), Idx2(w, j, r), ho * r, wo * r)]
  {
    Idx3Bound(a, i, j, c, r, r);
    Idx3Bound(Idx3(a, i, j, r, r), h, w, c * r * r, ho, wo);
    Idx2Bound(h, i, ho, r);
    Idx2Bound(w, j, wo, r);
    Idx3Bound(a, Idx2(h, i, r), Idx2(w, j, r), c, ho * r, wo * r);
    SplitIdx3(Idx3(a, i, j, r, r), h, w, ho, wo);
    SplitIdx3(a, i, j, r, r);
  }

  /** Coordinate reading of Shuffle: the inverse placement. */
  lemma ShuffleAt(y: seq<int>, c: nat, ho: nat, wo: nat, r: nat, a: nat, i: nat, j: nat, h: nat, w: nat)
    requires r > 0 && |y| == c * r * r * ho * wo
    requires a < c && i < r && j < r && h < ho && w < wo
    ensures Idx3(a, Idx2(h, i, r), Idx2(w, j, r), ho * r, wo * r) < c * (ho * r) * (wo * r)
    ensures Idx3(Idx3(a, i, j, r, r), h, w, ho, wo) < |y|
    ensures Shuffle(y, c, ho, wo, r)[Idx3(a, Idx2(h, i, r), Idx2(w, j, r), ho * r, wo * r)]
         == y[Idx3(Idx3(a, i, j, r, r), h, w, ho, wo)]
  {
    Idx3Bound(a, i, j, c, r, r);
    Idx3Bound(Idx3(a, i, j, r, r), h, w, c * r * r, ho, wo);
    Idx2Bound(h, i, ho, r);
    Idx2Bound(w, j, wo, r);
    Idx3Bound(a, Idx2(h, i, r), Idx2(w, j, r), c, ho * r, wo * r);
    SplitIdx3(a, Idx2(h, i, r), Idx2(w, j, r), ho * r, wo * r);
    SplitIdx2(h, i, r);
    SplitIdx2(w, j, r);
  }

  lemma UnshuffleSourceOfShuffleSource(n: nat, c: nat, ho: nat, wo: nat, r: nat)
    requires r > 0 && n < c * (ho * r) * (wo * r)
    ensures UnshuffleSource(ShuffleSource(n, c, ho, wo, r), c, ho, wo, r) == n
  {
    var t := Coords3(n, ho * r, wo * r);
    Coords3Bound(n, c, ho * r, wo * r);
    var h, i, w, j := t.1 / r, t.1 % r, t.2 / r, t.2 % r;
    QuotientBound(t.1, ho, r);
    QuotientBound(t.2, wo, r);
    SplitIdx3(Idx3(t.0, i, j, r, r), h, w, ho, wo);
    SplitIdx3(t.0, i, j, r, r);
    JoinIdx2(t.1, r);
    JoinIdx2(t.2, r);
    JoinIdx3(n, ho * r, wo * r);
  }

  lemma ShuffleSourceOfUnshuffleSource(n: nat, c: nat, ho: nat, wo: nat, r: nat)
    requires r > 0 && n < c * r * r * ho * wo
    ensures ShuffleSource(UnshuffleSource(n, c, ho, wo, r), c, ho, wo, r) == n
  {
    var t := Coords3(n, ho, wo);
    Coords3Bound(n, c * r * r, ho, wo);
    var q := Coords3(t.0, r, r);
    Coords3Bound(t.0, c, r, r);
    Idx2Bound(t.1, q.1, ho, r);
    Idx2Bound(t.2, q.2, wo, r);
    SplitIdx3(q.0, Idx2(t.1, q.1, r), Idx2(t.2, q.2, r), ho * r, wo * r);
    SplitIdx2(t.1, q.1, r);
    SplitIdx2(t.2, q.2, r);
    JoinIdx3(t.0, r, r);
    JoinIdx3(n, ho, wo);
  }

  /** PixelShuffle(r) undoes PixelUnshuffle(r): the round trip of a path
      that unshuffles first (lib/multiwayblock.py:162-163, 173-174). */
  lemma ShuffleUndoesUnshuffle(x: seq<int>, c: nat, ho: nat, wo: nat, r: nat)
    requires r > 0 && |x| == c * (ho * r) * (wo * r)
    ensures Shuffle(Unshuffle(x, c, ho, wo, r), c, ho, wo, r) == x
  {
    var y := Shuffle(Unshuffle(x, c, ho, wo, r), c, ho, wo, r);
    forall n | 0 <= n < |x|
      ensures y[n] == x[n]
    {
      UnshuffleSourceOfShuffleSource(n, c, ho, wo, r);
    }
  }

  /** PixelUnshuffle(r) undoes PixelShuffle(r): the round trip of a path
      that shuffles first (lib/multiwayblock.py:165-166, 179-180). */
  lemma UnshuffleUndoesShuffle(y: seq<int>, c: nat, ho: nat, wo: nat, r: nat)
    requires r > 0 && |y| == c * r * r * ho * wo
    ensures Unshuffle(Shuffle(y, c, ho, wo, r), c, ho, wo, r) == y
  {
    var x := Unshuffle(Shuffle(y, c, ho, wo, r), c, ho, wo, r);
    forall n | 0 <= n < |y|
      ensures x[n] == y[n]
    {
      ShuffleSourceOfUnshuffleSource(n, c, ho, wo, r);
    }
  }

  /** Swaps the two axes of a row-major (rows, cols) matrix: element (i, j)
      moves to (j, i).  This is `view(D, H*W).permute(1, 0)` at line 184 and
      `permute(1, 0).view(...)` at lines 186, 196, 200 and 206. */
  function Transpose(x: seq<int>, rows: nat, cols: nat): (y: seq<int>)
    requires |x| == rows * cols
    ensures |y| == cols * rows
  {
    seq(cols * rows, n requires 0 <= n < cols * rows =>
      QuotientBound(n, cols, rows);
      Idx2Bound(n % rows, n / rows, rows, cols);
      x[Idx2(n % rows, n / rows, cols)])
  }

  /** Coordinate reading of Transpose. */
  lemma TransposeAt(x: seq<int>, rows: nat, cols: nat, i: nat, j: nat)
    requires |x| == rows * cols && i < rows && j < cols
    ensures Idx2(j, i, rows) < cols * rows && Idx2(i, j, cols) < |x|
    ensures Transpose(x, rows, cols)[Idx2(j, i, rows)] == x[Idx2(i, j, cols)]
  {
    Idx2Bound(j, i, cols, rows);
    Idx2Bound(i, j, rows, cols);
    SplitIdx2(j, i, rows);
  }

  /** Transposing back restores the map (line 184 followed by line 186). */
  lemma TransposeTwice(x: seq<int>, rows: nat, cols: nat)
    requires |x| == rows * cols
    ensures Transpose(Transpose(x, rows, cols), cols, rows) == x
  {
    var y := Transpose(Transpose(x, rows, cols), cols, rows);
    forall n | 0 <= n < |x|
      ensures y[n] == x[n]
    {
      QuotientBound(n, rows, cols);
      Idx2Bound(n % cols, n / cols, cols, rows);
      SplitIdx2(n % cols, n / cols, rows);
      JoinIdx2(n, cols);
    }
  }
}
