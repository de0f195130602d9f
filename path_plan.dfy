/** The integer bookkeeping of MultiWayBlock (lib/multiwayblock.py): the
    constructor's checks and derived constants (lines 115-122), the width
    table that make_path assigns to each path (lines 136-147), the resample
    that _forward_each_paths chooses for each path (lines 160-180), and the
    head split that MultiHeadSelfAttention checks (lines 35-37).

    Python's `//` and `%` by 2 agree with Dafny's on every integer (the
    divisor is positive), and `int(a / b)` with a >= 0 and b > 0 is the
    floor quotient, which is Dafny's `a / b` on those operands.
 */
module PathPlan {
  import opened IndexMath

  /** Why building a MultiWayBlock fails. */
  datatype BuildError =
    | InvalidDirection          // assertion at line 115
    | EvenPathsForDirectionZero // assertion at lines 116-117
    | ZeroDivision(path: int)   // int(dim / f**e) with f == 0, lines 140 and 147
    | BlockRejected(path: int)  // the caller's block factory raised for path{path}
    | FusionLayerRejected(width: int) // LayerNorm/Linear over a negative total_dim, lines 129-130

  /** Python's `b ** e` for a non-negative exponent. */
  function Pow(b: int, e: nat): int {
    if e == 0 then 1 else b * Pow(b, e - 1)
  }

  lemma {:induction false} PowAdd(b: int, m: nat, n: nat)
    ensures Pow(b, m + n) == Pow(b, m) * Pow(b, n)
  {
    if m > 0 {
      PowAdd(b, m - 1, n);
      assert Pow(b, m + n) == b * Pow(b, m - 1 + n);
    }
  }

  /** An even power is the square of the half power, so never negative. */
  lemma PowEven(b: int, k: nat)
    ensures Pow(b, 2 * k) == Pow(b, k) * Pow(b, k) && Pow(b, 2 * k) >= 0
  {
    PowAdd(b, k, k);
  }

  lemma {:induction false} PowZeroIff(b: int, e: nat)
    requires e >= 1
    ensures Pow(b, e) == 0 <==> b == 0
  {
    if e > 1 {
      PowZeroIff(b, e - 1);
    }
  }

  lemma {:induction false} PowAtLeastBase(b: int, e: nat)
    requires b >= 2 && e >= 1
    ensures Pow(b, e) >= b
  {
    if e > 1 {
      PowAtLeastBase(b, e - 1);
      MulPositive(Pow(b, e - 1), b);
    }
  }

  /** For b >= 2 the power b^(k-1) outgrows k from k = 3 on. */
  lemma {:induction false} PowOutgrows(b: int, k: nat)
    requires b >= 2 && k >= 3
    ensures Pow(b, k - 1) > k
  {
    if k == 3 {
      assert Pow(b, 1) == b;
      assert Pow(b, 2) == b * b;
      MulMonotone(2, b, b);
    } else {
      PowOutgrows(b, k - 1);
      var p := Pow(b, k - 2);
      assert Pow(b, k - 1) == b * p;
      MulMonotone(2, b, p);
    }
  }

  /** The path that runs at the original resolution when direction is 0:
      num_path//2 + 1 for an odd num_path, num_path//2 otherwise (line 121).
      For an odd count it has as many paths before it as after it. */
  function Median(numPath: int): (m: int)
    ensures numPath % 2 == 1 ==> m - 1 == numPath - m
    ensures numPath % 2 == 0 ==> 2 * m == numPath
    ensures numPath >= 1 ==> 1 <= m <= numPath
  {
    if numPath % 2 == 1 then numPath / 2 + 1 else numPath / 2
  }

  /** The constructor's two assertions (lines 115-117), in their order. */
  function CheckConfig(direction: int, numPath: int): (err: Option<BuildError>)
    ensures err == Some(InvalidDirection) <==> !(0 <= direction <= 2)
    ensures err == Some(EvenPathsForDirectionZero) <==> direction == 0 && numPath % 2 == 0
    ensures err.None? <==> 0 <= direction <= 2 && (direction == 0 ==> numPath % 2 == 1)
  {
    if !(direction == 0 || direction == 1 || direction == 2) then Some(InvalidDirection)
    else if direction == 0 && numPath % 2 == 0 then Some(EvenPathsForDirectionZero)
    else None
  }

  datatype Option<T> = None | Some(value: T)

  datatype Result<T, E> = Ok(value: T) | Err(error: E)

  /** What a path does to the resolution, and by which offset k: the
      channels grow by f^(2k) (Expand), shrink by it (Shrink) or stay
      (Keep).  Both branch ladders of the source follow this table. */
  datatype PathKind = Keep | Expand(k: nat) | Shrink(k: nat)

  function Descriptor(direction: int, median: int, i: int): (kind: PathKind)
    requires i >= 1
    ensures !kind.Keep? ==> kind.k >= 1
    ensures kind.Keep? <==> (if direction == 0 then i == median else i == 1)
  {
    if direction == 0 then
      if i < median then Expand(i)
      else if i > median then Shrink(i - median)
      else Keep
    else if direction == 1 then
      if i == 1 then Keep else Expand(i - 1)
    else
      if i == 1 then Keep else Shrink(i - 1)
  }

  /** `int(dim / f**(2k))` of lines 140 and 147: the floor quotient, or a
      division by zero when f == 0. */
  function ShrinkWidth(dim: nat, f: int, k: nat, i: int): (r: Result<nat, BuildError>)
    requires k >= 1
    ensures r.Err? <==> f == 0
    ensures r.Err? ==> r.error == ZeroDivision(i)
    ensures r.Ok? ==> r.value * Pow(f, 2 * k) <= dim < (r.value + 1) * Pow(f, 2 * k)
  {
    PowEven(f, k);
    PowZeroIff(f, 2 * k);
    var p := Pow(f, 2 * k);
    if p == 0 then Err(ZeroDivision(i)) else Ok(dim / p)
  }

  /** The width `new_dim` that make_path gives path{i} (lines 136-147). */
  function PathWidth(dim: nat, direction: int, median: int, f: int, i: int): (r: Result<nat, BuildError>)
    requires i >= 1
    ensures r.Err? <==> Descriptor(direction, median, i).Shrink? && f == 0
    ensures r.Err? ==> r.error == ZeroDivision(i)
    ensures Descriptor(direction, median, i).Keep? ==> r == Ok(dim)
  {
    if direction == 0 then
      if i < median then
        PowEven(f, i);
        Ok(dim * Pow(f, i * 2))
      else if i > median then ShrinkWidth(dim, f, i - median, i)
      else Ok(dim)
    else if direction == 1 then
      if i == 1 then Ok(dim)
      else
        PowEven(f, i - 1);
        Ok(dim * Pow(f, (i - 1) * 2))
    else
      if i == 1 then Ok(dim) else ShrinkWidth(dim, f, i - 1, i)
  }

  /** The resample pair of one path (lines 160-180): `Identity` when the
      loop clears `flag`, otherwise shuf1 is PixelUnshuffle(r) and shuf2
      PixelShuffle(r) (`UnshuffleFirst`) or the other way round. */
  datatype Resample = Identity | UnshuffleFirst(r: int) | ShuffleFirst(r: int)

  function PathResample(direction: int, median: int, f: int, i: int): (s: Resample)
    requires i >= 1
    ensures s.Identity? <==> Descriptor(direction, median, i).Keep?
    ensures s.UnshuffleFirst? <==> Descriptor(direction, median, i).Expand?
    ensures !s.Identity? ==> s.r == f * Descriptor(direction, median, i).k
  {
    if direction == 0 then
      if i < median then UnshuffleFirst(f * i)
      else if i > median then ShuffleFirst(f * (i - median))
      else Identity
    else if direction == 1 then
      if i == 1 then Identity else UnshuffleFirst(f * (i - 1))
    else
      if i == 1 then Identity else ShuffleFirst(f * (i - 1))
  }

  /** The width a descriptor calls for: a kept path keeps `dim`, an
      expanding one multiplies it by f^(2k), a shrinking one takes the floor
      of dim / f^(2k). */
  function KindWidth(kind: PathKind, dim: nat, f: int, i: int): Result<nat, BuildError>
    requires !kind.Keep? ==> kind.k >= 1
  {
    match kind
    case Keep => Ok(dim)
    case Expand(k) => PowEven(f, k); Ok(dim * Pow(f, 2 * k))
    case Shrink(k) => ShrinkWidth(dim, f, k, i)
  }

  /** The resample a descriptor calls for, with the factor f*k the forward
      pass uses. */
  function KindResample(kind: PathKind, f: int): Resample {
    match kind
    case Keep => Identity
    case Expand(k) => UnshuffleFirst(f * k)
    case Shrink(k) => ShuffleFirst(f * k)
  }

  /** make_path's ladder (lines 136-147) follows the descriptor table. */
  lemma WidthFollowsDescriptor(dim: nat, direction: int, median: int, f: int, i: int)
    requires i >= 1
    ensures PathWidth(dim, direction, median, f, i) == KindWidth(Descriptor(direction, median, i), dim, f, i)
  {
  }

  /** _forward_each_paths's ladder (lines 160-180) follows the same table. */
  lemma ResampleFollowsDescriptor(direction: int, median: int, f: int, i: int)
    requires i >= 1
    ensures PathResample(direction, median, f, i) == KindResample(Descriptor(direction, median, i), f)
  {
  }

  /** The shape (channels, height, width) of one sample. */
  datatype Shape = Shape(c: nat, h: nat, w: nat)

  /** Why a path's resample cannot be applied: torch rejects a factor that
      is not positive, and a map the factor does not divide. */
  datatype ResampleFault = NonPositiveFactor | NotDivisible

  /** The shape after shuf1 (line 182) of a (d, h, w) map, or why torch's
      PixelUnshuffle/PixelShuffle raises. */
  function ResampleInShape(s: Resample, d: nat, h: nat, w: nat): (r: Result<Shape, ResampleFault>)
    ensures r.Ok? && s.Identity? ==> r.value == Shape(d, h, w)
    ensures r.Ok? && s.UnshuffleFirst? ==> r.value.c == d * s.r * s.r && r.value.h * s.r == h && r.value.w * s.r == w
    ensures r.Ok? && s.ShuffleFirst? ==> r.value.c * (s.r * s.r) == d && r.value.h == h * s.r && r.value.w == w * s.r
    ensures s.UnshuffleFirst? ==> (r.Err? <==> (s.r <= 0 || h % s.r != 0 || w % s.r != 0))
    ensures s.ShuffleFirst? ==> (r.Err? <==> (s.r <= 0 || d % (s.r * s.r) != 0))
    ensures s.Identity? ==> r.Ok?
  {
    match s
    case Identity => Ok(Shape(d, h, w))
    case UnshuffleFirst(r) =>
      if r <= 0 then Err(NonPositiveFactor)
      else if h % r != 0 || w % r != 0 then Err(NotDivisible)
      else
        JoinIdx2(h, r);
        JoinIdx2(w, r);
        Ok(Shape(d * r * r, h / r, w / r))
    case ShuffleFirst(r) =>
      if r <= 0 then Err(NonPositiveFactor)
      else if d % (r * r) != 0 then Err(NotDivisible)
      else
        MulPositive(r, r);
        JoinIdx2(d, r * r);
        Ok(Shape(d / (r * r), h * r, w * r))
  }

  /** For f >= 2, the channel factor (f*k)^2 of a resample by f*k equals the
      width factor f^(2k) of make_path exactly for k == 1 and for f == 2,
      k == 2. */
  lemma SquaredFactorIsPowerIff(f: int, k: nat)
    requires f >= 2 && k >= 1
    ensures (f * k) * (f * k) == Pow(f, 2 * k) <==> k == 1 || (f == 2 && k == 2)
  {
    var q := Pow(f, k - 1);
    PowEven(f, k - 1);
    PowAdd(f, 2, 2 * (k - 1));
    assert Pow(f, 1) == f;
    assert Pow(f, 2) == f * f;
    assert Pow(f, 2 * k) == (f * f) * (q * q);
    assert (f * k) * (f * k) == (f * f) * (k * k);
    MulPositive(f, f);
    if k == 1 {
    } else if k == 2 {
      assert q == f;
      if f != 2 {
        SquaresDiffer(f, k, q);
      }
    } else {
      PowOutgrows(f, k);
      SquaresDiffer(f, k, q);
    }
  }

  /** f^2 k^2 < f^2 q^2 when 0 < k < q. */
  lemma SquaresDiffer(f: int, k: int, q: int)
    requires f >= 2 && 0 < k < q
    ensures (f * f) * (k * k) < (f * f) * (q * q)
  {
    MulStrict(k, q, k);
    MulStrict(k, q, q);
    MulPositive(f, f);
    MulStrict(k * k, q * q, f * f);
  }

  /** The factor (f*k)^2 never exceeds f^(2k) for f >= 2. */
  lemma SquaredFactorAtMostPower(f: int, k: nat)
    requires f >= 2 && k >= 1
    ensures (f * k) * (f * k) <= Pow(f, 2 * k)
  {
    var q := Pow(f, k - 1);
    PowEven(f, k - 1);
    PowAdd(f, 2, 2 * (k - 1));
    assert Pow(f, 1) == f;
    assert Pow(f, 2 * k) == (f * f) * (q * q);
    assert (f * k) * (f * k) == (f * f) * (k * k);
    if k == 2 {
      assert q == f;
      if f > 2 {
        SquaresDiffer(f, k, q);
      }
    } else if k >= 3 {
      PowOutgrows(f, k);
      SquaresDiffer(f, k, q);
    }
  }

  /** The channel count that shuf1 produces for path i of a (dim, h, w) map
      is the width make_path built that path for, as long as every offset is
      1 (or 2 with f == 2).  For direction 0 with num_path <= 3, and for
      directions 1 and 2 with num_path <= 2, every path qualifies. */
  lemma WidthMatchesChannelsAtSmallOffsets(dim: nat, direction: int, median: int, f: int, i: int, h: nat, w: nat)
    requires i >= 1 && f >= 1
    requires !Descriptor(direction, median, i).Keep? ==>
      Descriptor(direction, median, i).k == 1 || (f == 2 && Descriptor(direction, median, i).k == 2)
    requires ResampleInShape(PathResample(direction, median, f, i), dim, h, w).Ok?
    ensures PathWidth(dim, direction, median, f, i) == Ok(ResampleInShape(PathResample(direction, median, f, i), dim, h, w).value.c)
  {
    WidthFollowsDescriptor(dim, direction, median, f, i);
    ResampleFollowsDescriptor(direction, median, f, i);
    var kind := Descriptor(direction, median, i);
    if !kind.Keep? {
      var k := kind.k;
      var P := Pow(f, 2 * k);
      SmallFactorIsPower(f, k);
      var c := ResampleInShape(PathResample(direction, median, f, i), dim, h, w).value.c;
      if kind.Expand? {
        assert c == dim * (f * k) * (f * k);
        assert c == dim * P by { Regroup(dim, f * k, f * k); }
      } else {
        var wdt := ShrinkWidth(dim, f, k, i).value;
        FloorOfExactQuotient(dim, P, c, wdt);
      }
    }
  }

  /** The two factors f = k = 2 and k = 1 are the ones where (f*k)^2 is
      f^(2k). */
  lemma SmallFactorIsPower(f: int, k: nat)
    requires f >= 1 && k >= 1 && (k == 1 || (f == 2 && k == 2))
    ensures (f * k) * (f * k) == Pow(f, 2 * k) > 0
  {
    assert Pow(f, 1) == f;
    assert Pow(f, 2) == f * f;
    if k == 2 {
      assert Pow(f, 4) == 16;
    }
    MulPositive(f * k, f * k);
  }

  /** The floor of dim / p is c when p divides dim exactly c times. */
  lemma FloorOfExactQuotient(dim: nat, p: int, c: nat, wdt: nat)
    requires p > 0 && c * p == dim && wdt * p <= dim < (wdt + 1) * p
    ensures wdt == c
  {
    if wdt < c {
      MulMonotone(wdt + 1, c, p);
    } else if wdt > c {
      MulMonotone(c + 1, wdt, p);
    }
  }

  /** What the source does beyond those offsets: for f >= 2 and dim > 0,
      any other offset gives the path's block a channel count that differs
      from the width make_path built it for. */
  lemma WidthMismatchBeyondSmallOffsets(dim: nat, direction: int, median: int, f: int, i: int, h: nat, w: nat)
    requires i >= 1 && f >= 2 && dim > 0
    requires !Descriptor(direction, median, i).Keep?
    requires !(Descriptor(direction, median, i).k == 1 || (f == 2 && Descriptor(direction, median, i).k == 2))
    requires ResampleInShape(PathResample(direction, median, f, i), dim, h, w).Ok?
    ensures PathWidth(dim, direction, median, f, i) != Ok(ResampleInShape(PathResample(direction, median, f, i), dim, h, w).value.c)
  {
    WidthFollowsDescriptor(dim, direction, median, f, i);
    ResampleFollowsDescriptor(direction, median, f, i);
    var kind := Descriptor(direction, median, i);
    var k := kind.k;
    var b := Pow(f, 2 * k);
    FactorBelowPower(f, k);
    var c := ResampleInShape(PathResample(direction, median, f, i), dim, h, w).value.c;
    var wdt := PathWidth(dim, direction, median, f, i);
    if kind.Expand? {
      ExpandedWidthAboveChannels(dim, f * k, b, c, wdt.value);
    } else if wdt.Ok? {
      ShrunkWidthBelowChannels(dim, (f * k) * (f * k), b, c, wdt.value);
    }
  }

  /** Beyond the small offsets the squared factor is strictly below the
      power. */
  lemma FactorBelowPower(f: int, k: nat)
    requires f >= 2 && k >= 1 && !(k == 1 || (f == 2 && k == 2))
    ensures 0 < (f * k) * (f * k) < Pow(f, 2 * k)
  {
    SquaredFactorIsPowerIff(f, k);
    SquaredFactorAtMostPower(f, k);
    MulPositive(f * k, f * k);
  }

  /** dim * b channels are more than dim * g * g when g * g < b. */
  lemma ExpandedWidthAboveChannels(dim: nat, g: int, b: int, c: nat, wdt: nat)
    requires dim > 0 && 0 < g * g < b && c == dim * g * g && wdt == dim * b
    ensures wdt > c
  {
    MulStrict(g * g, b, dim);
    assert dim * g * g == dim * (g * g);
  }

  /** c channels made by dividing dim by a are more than the floor of
      dim / b when a < b. */
  lemma ShrunkWidthBelowChannels(dim: nat, a: int, b: int, c: nat, wdt: nat)
    requires dim > 0 && 0 < a < b && c * a == dim && wdt * b <= dim
    ensures wdt < c
  {
    MulStrict(a, b, c);
    if wdt >= c {
      MulMonotone(c, wdt, b);
    }
  }

  /** The resample that agrees with make_path's widths: factor f^k instead of
      f*k, so that the channels grow or shrink by exactly f^(2k). */
  function IntendedPathResample(direction: int, median: int, f: int, i: int): Resample
    requires i >= 1
  {
    match Descriptor(direction, median, i)
    case Keep => Identity
    case Expand(k) => UnshuffleFirst(Pow(f, k))
    case Shrink(k) => ShuffleFirst(Pow(f, k))
  }

  /** With the intended factor every path is fed exactly the width it was
      built for, whatever the offset. */
  lemma IntendedWidthMatchesChannels(dim: nat, direction: int, median: int, f: int, i: int, h: nat, w: nat)
    requires i >= 1
    requires ResampleInShape(IntendedPathResample(direction, median, f, i), dim, h, w).Ok?
    ensures PathWidth(dim, direction, median, f, i) == Ok(ResampleInShape(IntendedPathResample(direction, median, f, i), dim, h, w).value.c)
  {
    WidthFollowsDescriptor(dim, direction, median, f, i);
    var kind := Descriptor(direction, median, i);
    if !kind.Keep? {
      PowEven(f, kind.k);
      if kind.Expand? {
        assert dim * Pow(f, kind.k) * Pow(f, kind.k) == dim * (Pow(f, kind.k) * Pow(f, kind.k));
      }
    }
  }

  /** With direction 0 (and f >= 2, dim > 0) the median path is the one path
      that neither resamples nor changes the width (lines 141, 167-168). */
  lemma CentrePathIsUnique(dim: nat, numPath: int, f: int, i: int)
    requires numPath % 2 == 1 && 1 <= i <= numPath && f >= 2 && dim > 0
    ensures PathResample(0, Median(numPath), f, i) == Identity <==> i == Median(numPath)
    ensures PathWidth(dim, 0, Median(numPath), f, i) == Ok(dim) <==> i == Median(numPath)
  {
    var m := Median(numPath);
    WidthFollowsDescriptor(dim, 0, m, f, i);
    var kind := Descriptor(0, m, i);
    if !kind.Keep? {
      var p := Pow(f, 2 * kind.k);
      PowAtLeastBase(f, 2 * kind.k);
      MulMonotone(2, p, dim);
      if kind.Expand? {
        assert dim * p >= 2 * dim;
      } else {
        var wdt := PathWidth(dim, 0, m, f, i).value;
        assert wdt * p <= dim;
      }
    }
  }

  /** Direction 1 only expands: each path is strictly wider than the one
      before it (lines 143-144). */
  lemma ExpandingWidthsGrow(dim: nat, median: int, f: int, i: int)
    requires dim > 0 && f >= 2 && i >= 1
    ensures PathWidth(dim, 1, median, f, i).value < PathWidth(dim, 1, median, f, i + 1).value
  {
    var p := Pow(f, (i - 1) * 2);
    PowEven(f, i - 1);
    assert Pow(f, i * 2) == f * (f * p) by {
      assert i * 2 == 2 + (i - 1) * 2;
      PowAdd(f, 2, (i - 1) * 2);
      assert Pow(f, 1) == f;
    }
    if i > 1 {
      PowAtLeastBase(f, (i - 1) * 2);
    }
    assert PathWidth(dim, 1, median, f, i).value == dim * p;
    MulMonotone(2, f, p);
    MulMonotone(2, f, f * p);
    assert p < f * (f * p);
    MulStrict(p, f * (f * p), dim);
  }

  /** Direction 2 only shrinks: no path is wider than the one before it
      (lines 146-147). */
  lemma ShrinkingWidthsFall(dim: nat, median: int, f: int, i: int)
    requires f >= 2 && i >= 1
    ensures PathWidth(dim, 2, median, f, i + 1).Ok? && PathWidth(dim, 2, median, f, i).Ok?
    ensures PathWidth(dim, 2, median, f, i + 1).value <= PathWidth(dim, 2, median, f, i).value
  {
    var p, q := Pow(f, 2 * (i - 1)), Pow(f, 2 * i);
    assert q == (f * f) * p by {
      PowAdd(f, 2, 2 * (i - 1));
      assert Pow(f, 1) == f;
    }
    if i > 1 {
      PowAtLeastBase(f, 2 * (i - 1));
    }
    MulMonotone(1, f * f, p);
    var a := PathWidth(dim, 2, median, f, i + 1).value;
    var b := PathWidth(dim, 2, median, f, i).value;
    assert a * q <= dim;
    assert dim < (b + 1) * p;
    FloorQuotientsFall(dim, a, b, p, q);
  }

  /** The floor of dim / q is at most the floor of dim / p when p <= q. */
  lemma FloorQuotientsFall(dim: int, a: nat, b: nat, p: int, q: int)
    requires 1 <= p <= q && a * q <= dim < (b + 1) * p
    ensures a <= b
  {
    if a > b {
      MulMonotone(b + 1, a, p);
      MulMonotone(p, q, a);
    }
  }

  /** Why MultiHeadSelfAttention rejects a width (line 35): a zero head
      count divides by zero, and the width must split evenly into heads. */
  datatype HeadFault = ZeroHeads | WidthNotDivisible

  /** The head width `dim // num_heads` that MultiHeadSelfAttention derives
      after its assertion (lines 35-37). */
  function HeadDim(dim: int, numHeads: int): (r: Result<int, HeadFault>)
    ensures r.Ok? ==> numHeads != 0 && r.value * numHeads == dim
    ensures r == Err(ZeroHeads) <==> numHeads == 0
  {
    if numHeads == 0 then Err(ZeroHeads)
    else if dim % numHeads != 0 then Err(WidthNotDivisible)
    else Ok(dim / numHeads)
  }

  /** Every multiple of a positive head count passes the check, with the
      multiplier as head width. */
  lemma HeadDimOfMultiple(q: int, numHeads: int)
    requires numHeads > 0
    ensures HeadDim(q * numHeads, numHeads) == Ok(q)
  {
    var n := q * numHeads;
    var k := n / numHeads - q;
    assert numHeads * k == - (n % numHeads);
    if k >= 1 {
      MulPositive(k, numHeads);
    } else if k <= -1 {
      MulPositive(-k, numHeads);
    }
  }

  /** A path that keeps or expands the width passes the head check whenever
      the base width does: its width is a multiple of the base width. */
  lemma ExpandedPathsSplitIntoHeads(dim: nat, direction: int, median: int, f: int, i: int, numHeads: int)
    requires i >= 1 && numHeads > 0 && HeadDim(dim, numHeads).Ok?
    requires !Descriptor(direction, median, i).Shrink?
    ensures PathWidth(dim, direction, median, f, i).Ok?
    ensures HeadDim(PathWidth(dim, direction, median, f, i).value, numHeads).Ok?
  {
    WidthFollowsDescriptor(dim, direction, median, f, i);
    var q := HeadDim(dim, numHeads).value;
    var kind := Descriptor(direction, median, i);
    if kind.Expand? {
      var p := Pow(f, 2 * kind.k);
      assert dim * p == (q * p) * numHeads;
      HeadDimOfMultiple(q * p, numHeads);
    }
  }

  /** A shrinking path can fail it: with 8 heads over 64 channels and f == 2,
      path 3 of direction 2 is 4 channels wide. */
  lemma ShrunkPathCanFailHeadSplit()
    ensures PathWidth(64, 2, 1, 2, 3) == Ok(4)
    ensures HeadDim(4, 8) == Err(WidthNotDivisible)
  {
    assert Pow(2, 4) == 16;
  }

  /** The configuration hidden_size 64, num_path 3, direction 0, f 2 on a
      14 x 14 map: path 1 works at 256 channels over 7 x 7, path 2 (the
      median) at 64 over 14 x 14, path 3 at 16 over 28 x 28, and each width
      agrees with the channel count its block is fed. */
  lemma ThreeWayExample()
    ensures Median(3) == 2
    ensures ResampleInShape(PathResample(0, 2, 2, 1), 64, 14, 14) == Ok(Shape(256, 7, 7))
    ensures ResampleInShape(PathResample(0, 2, 2, 2), 64, 14, 14) == Ok(Shape(64, 14, 14))
    ensures ResampleInShape(PathResample(0, 2, 2, 3), 64, 14, 14) == Ok(Shape(16, 28, 28))
    ensures PathWidth(64, 0, 2, 2, 1) == Ok(256)
    ensures PathWidth(64, 0, 2, 2, 2) == Ok(64)
    ensures PathWidth(64, 0, 2, 2, 3) == Ok(16)
  {
    assert Pow(2, 2) == 4;
  }

  /** A configuration the source accepts but cannot run: direction 1 with
      four paths, f == 2 and 64 channels builds path 4 for 4096 channels, but
      PixelUnshuffle(6) feeds it 2304 (on a 12 x 12 map). */
  lemma FourPathMismatchExample()
    ensures PathWidth(64, 1, 2, 2, 4) == Ok(4096)
    ensures ResampleInShape(PathResample(1, 2, 2, 4), 64, 12, 12) == Ok(Shape(2304, 2, 2))
  {
    assert Pow(2, 6) == 64;
  }
}
