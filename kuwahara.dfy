/** The anisotropic Kuwahara pass of src/components/PostProcessing.tsx.

    Texture sampling and trigonometry stay abstract: `colourAt` is
    `sampleColor` (a read of the scene texture at an offset from the current
    pixel), `dirOf` is `vec2(cos(theta), sin(theta))`, and the normalised dominant
    orientation and the square root in the eigenvalues are inputs. */
module KuwaharaPass {
  import opened Colour
  import opened TensorPass

  /** `SECTOR_COUNT`, also written out as the literal 8 in both loops of `main`. */
  const SectorCount := 8
  /** The ring loop's fixed bound: `r <= 10.0`. */
  const MaxRings := 10
  /** The angular loop `for (a = AngleStart; a <= AngleEnd; a += AngleStep)`. */
  const AngleStart := -0.392699
  const AngleEnd := 0.392699
  const AngleStep := 0.196349
  /** How many times the angular loop runs. */
  const AngleSteps := 5
  const Eta := 0.1
  const Lambda := 0.5
  /** The anisotropy strength `main` actually uses; the `alpha` uniform is not read. */
  const AlphaValue := 25.0
  /** The shader's 2pi. */
  const TwoPi := 6.28318
  /** The term that keeps the anisotropy's denominator away from zero. */
  const Epsilon := 0.000001

  /** `polynomialWeight`: the squared distance of a sample from the parabola
      `x + eta = lam y^2` (`lam` is the shader's `Lambda`), never
      negative and zero on the parabola. */
  function PolynomialWeight(x: real, y: real, eta: real, lam: real): (w: real)
    ensures w >= 0.0
    ensures x + eta == lam * (y * y) ==> w == 0.0
  {
    var polyValue := (x + eta) - lam * (y * y);
    var squared := polyValue * polyValue;
    if 0.0 < squared then squared else 0.0
  }

  /** The weighting is symmetric about the sector's axis: mirroring a
      sample's offset across it leaves the weight unchanged. */
  lemma WeightIsSymmetric(x: real, y: real, eta: real, lam: real)
    ensures PolynomialWeight(x, -y, eta, lam) == PolynomialWeight(x, y, eta, lam)
  {
    assert (-y) * (-y) == y * y;
  }

  /** The angular loop runs exactly `AngleSteps` times: its `k`-th value of
      `a` passes the guard exactly when `k < AngleSteps`. */
  lemma AngleLoopRunsFiveTimes(k: nat)
    ensures AngleStart + k as real * AngleStep <= AngleEnd <==> k < AngleSteps
  {
    if k >= AngleSteps {
      assert k as real * AngleStep >= 5.0 * AngleStep;
    }
  }

  /** A GLSL `mat2`, stored by columns. */
  datatype Mat2 = Mat2(c0: Vec2, c1: Vec2)

  function MatVec(m: Mat2, v: Vec2): Vec2 {
    Vec2(m.c0.x * v.x + m.c1.x * v.y, m.c0.y * v.x + m.c1.y * v.y)
  }

  function MatMul(a: Mat2, b: Mat2): Mat2 {
    Mat2(MatVec(a, b.c0), MatVec(a, b.c1))
  }

  function Det(m: Mat2): real {
    m.c0.x * m.c1.y - m.c1.x * m.c0.y
  }

  /** The eigenvalues `lambda1`, `lambda2` of a stored tensor, given the square
      root `root` of `trace^2 / 4 - determinant`. */
  function Eigenvalues(t: Tensor, root: real): (l: (real, real))
    ensures l.0 + l.1 == t.jxx + t.jyy
    ensures root >= 0.0 ==> l.0 >= l.1
  {
    var trace := t.jxx + t.jyy;
    (trace * 0.5 + root, trace * 0.5 - root)
  }

  /** `(lambda1 - lambda2) / (lambda1 + lambda2 + 1e-6)` for a tensor read back
      from the tensor texture, whose diagonal entries are not negative. */
  function Anisotropy(t: Tensor, root: real): (a: real)
    requires t.jxx >= 0.0 && t.jyy >= 0.0 && root >= 0.0
    ensures a >= 0.0
  {
    var (lambda1, lambda2) := Eigenvalues(t, root);
    (lambda1 - lambda2) / (lambda1 + lambda2 + Epsilon)
  }

  /** `scaleX` and `scaleY` for an anisotropy; `alpha` is fixed at 25. */
  function AxisScales(anisotropy: real): (s: (real, real))
    requires anisotropy + AlphaValue != 0.0
    ensures s.0 * s.1 == 1.0
    ensures anisotropy >= 0.0 ==> 0.0 < s.0 <= 1.0 <= s.1
  {
    var scaleX := AlphaValue / (anisotropy + AlphaValue);
    var scaleY := (anisotropy + AlphaValue) / AlphaValue;
    assert scaleX * scaleY == (AlphaValue * (anisotropy + AlphaValue)) / ((anisotropy + AlphaValue) * AlphaValue);
    (scaleX, scaleY)
  }

  /** `anisotropyMat`: the rotation built from the orientation, times the
      diagonal scaling. */
  function SamplingMatrix(orientation: Vec2, anisotropy: real): (m: Mat2)
    requires anisotropy + AlphaValue != 0.0
    ensures anisotropy == 0.0 ==> m == Mat2(Vec2(orientation.x, -orientation.y), Vec2(orientation.y, orientation.x))
  {
    var (scaleX, scaleY) := AxisScales(anisotropy);
    MatMul(Mat2(Vec2(orientation.x, -orientation.y), Vec2(orientation.y, orientation.x)),
           Mat2(Vec2(scaleX, 0.0), Vec2(0.0, scaleY)))
  }

  /** The sampling transform scales areas by the squared length of the
      orientation only: the stretch along one axis is undone along the other,
      so for a unit orientation it preserves area. */
  lemma SamplingMatrixPreservesArea(orientation: Vec2, anisotropy: real)
    requires anisotropy + AlphaValue != 0.0
    ensures Det(SamplingMatrix(orientation, anisotropy))
            == orientation.x * orientation.x + orientation.y * orientation.y
  {
    var (sx, sy) := AxisScales(anisotropy);
    var ox, oy := orientation.x, orientation.y;
    calc {
      Det(SamplingMatrix(orientation, anisotropy));
      (ox * sx) * (ox * sy) - (oy * sy) * (-oy * sx);
      (ox * ox + oy * oy) * (sx * sy);
    }
  }

  type NonNegative = w: real | 0.0 <= w

  /** One texture read of a sector: its colour and the polynomial weight of
      its offset from the pixel. */
  datatype Sample = Sample(colour: Vec3, weight: NonNegative)

  /** `anisotropyMat * (r * vec2(cos(theta), sin(theta)))`. */
  function SampleOffset(m: Mat2, r: nat, unit: Vec2): Vec2 {
    MatVec(m, Vec2(r as real * unit.x, r as real * unit.y))
  }

  /** The sample of ring `r` at angle `a` from the axis of the sector centred
      on `angle`. */
  function SampleAt(m: Mat2, angle: real, r: nat, a: real,
                    dirOf: real -> Vec2, colourAt: Vec2 -> Vec3): (s: Sample)
    ensures exists o :: s.colour == colourAt(o) && s.weight == PolynomialWeight(o.x, o.y, Eta, Lambda)
  {
    var offset := SampleOffset(m, r, dirOf(angle + a));
    Sample(colourAt(offset), PolynomialWeight(offset.x, offset.y, Eta, Lambda))
  }

  /** The samples of ring `r`, in the order the angular loop takes them. */
  function Ring(m: Mat2, angle: real, r: nat, dirOf: real -> Vec2, colourAt: Vec2 -> Vec3): (ring: seq<Sample>)
    ensures |ring| == AngleSteps
  {
    seq(AngleSteps, k requires 0 <= k < AngleSteps => SampleAt(m, angle, r, AngleStart + k as real * AngleStep, dirOf, colourAt))
  }

  /** The samples of rings 1 to `rings`, in loop order. */
  function SectorSamples(m: Mat2, angle: real, rings: nat,
                         dirOf: real -> Vec2, colourAt: Vec2 -> Vec3): (ss: seq<Sample>)
    ensures |ss| == rings * AngleSteps
  {
    if rings == 0 then [] else SectorSamples(m, angle, rings - 1, dirOf, colourAt) + Ring(m, angle, rings, dirOf, colourAt)
  }

  /** How many rings the ring loop visits: rings 1 to `radius`, at most ten. */
  function RingCount(radius: int): (n: nat)
    ensures n <= MaxRings
    ensures radius < 1 ==> n == 0
    ensures 1 <= radius <= MaxRings ==> n == radius
    ensures radius >= MaxRings ==> n == MaxRings
  {
    if radius < 1 then 0 else if radius < MaxRings then radius else MaxRings
  }

  /** The running sums of a sector: `weightedColorSum`,
      `weightedSquaredColorSum` and `totalWeight`. */
  datatype Sums = Sums(colour: Vec3, squared: Vec3, weight: real)

  const NoSums := Sums(Black, Black, 0.0)

  function AddSample(acc: Sums, s: Sample): Sums {
    var w := s.weight;
    Sums(Add(acc.colour, Scale(s.colour, w)),
         Add(acc.squared, Scale(Mul(s.colour, s.colour), w)),
         acc.weight + w)
  }

  /** The sums after taking `ss` in order; the total weight is never negative. */
  function Accumulate(ss: seq<Sample>): (acc: Sums)
    ensures acc.weight >= 0.0
  {
    if |ss| == 0 then NoSums else AddSample(Accumulate(ss[..|ss| - 1]), ss[|ss| - 1])
  }

  /** A sector's weighted mean colour and luminance-weighted variance. */
  datatype SectorStats = SectorStats(average: Vec3, variance: real)

  /** The end of `getSectorVarianceAndAverageColor`: black with variance 0 when
      nothing carried weight. */
  function Summarise(acc: Sums): (st: SectorStats)
    ensures acc.weight <= 0.0 ==> st == SectorStats(Black, 0.0)
    ensures acc.weight > 0.0 ==> Scale(st.average, acc.weight) == acc.colour
  {
    if acc.weight > 0.0 then
      var average := Div(acc.colour, acc.weight);
      var varianceRes := Sub(Div(acc.squared, acc.weight), Mul(average, average));
      SectorStats(average, Dot(varianceRes, Luma))
    else
      SectorStats(Black, 0.0)
  }

  /** The statistics of the sector centred on `angle` for a given radius. */
  function SectorOf(m: Mat2, angle: real, radius: int,
                    dirOf: real -> Vec2, colourAt: Vec2 -> Vec3): SectorStats
  {
    Summarise(Accumulate(SectorSamples(m, angle, RingCount(radius), dirOf, colourAt)))
  }

  lemma AccumulateSnoc(ss: seq<Sample>, s: Sample)
    ensures Accumulate(ss + [s]) == AddSample(Accumulate(ss), s)
  {
    assert (ss + [s])[..|ss|] == ss;
  }

  /** The `k`-th sample of a ring is the one at the loop's `k`-th angle `a`:
      the colour and the weight read at the offset for that angle. */
  lemma RingAt(m: Mat2, angle: real, r: nat, dirOf: real -> Vec2, colourAt: Vec2 -> Vec3, k: nat, a: real)
    requires k < AngleSteps && a == AngleStart + k as real * AngleStep
    ensures var offset := SampleOffset(m, r, dirOf(angle + a));
            Ring(m, angle, r, dirOf, colourAt)[k]
            == Sample(colourAt(offset), PolynomialWeight(offset.x, offset.y, Eta, Lambda))
  {
  }

  /** Taking one more sample of `ring` after `done`. */
  lemma AccumulatePrefix(done: seq<Sample>, ring: seq<Sample>, k: nat)
    requires k < |ring|
    ensures Accumulate(done + ring[..k + 1]) == AddSample(Accumulate(done + ring[..k]), ring[k])
  {
    assert done + ring[..k + 1] == (done + ring[..k]) + [ring[k]];
    AccumulateSnoc(done + ring[..k], ring[k]);
  }

  /** The angular loop of `getSectorVarianceAndAverageColor` for ring `r`:
      it adds the ring's samples, in order, to the running sums of the rings
      before it. */
  method AccumulateRing(m: Mat2, angle: real, r: nat, dirOf: real -> Vec2, colourAt: Vec2 -> Vec3,
                        ghost done: seq<Sample>,
                        colourSum0: Vec3, squaredSum0: Vec3, weight0: real)
    returns (weightedColorSum: Vec3, weightedSquaredColorSum: Vec3, totalWeight: real)
    requires Sums(colourSum0, squaredSum0, weight0) == Accumulate(done)
    ensures Sums(weightedColorSum, weightedSquaredColorSum, totalWeight)
            == Accumulate(done + Ring(m, angle, r, dirOf, colourAt))
  {
    weightedColorSum, weightedSquaredColorSum, totalWeight := colourSum0, squaredSum0, weight0;
    ghost var ring := Ring(m, angle, r, dirOf, colourAt);
    var a := AngleStart;
    ghost var k: nat := 0;
    assert done + ring[..k] == done;
    while a <= AngleEnd
      invariant k <= AngleSteps && a == AngleStart + k as real * AngleStep
      invariant Sums(weightedColorSum, weightedSquaredColorSum, totalWeight) == Accumulate(done + ring[..k])
      decreases AngleSteps - k
    {
      AngleLoopRunsFiveTimes(k);
      var sampleOffset := SampleOffset(m, r, dirOf(angle + a));
      var color := colourAt(sampleOffset);
      var weight := PolynomialWeight(sampleOffset.x, sampleOffset.y, Eta, Lambda);
      RingAt(m, angle, r, dirOf, colourAt, k, a);
      AccumulatePrefix(done, ring, k);
      weightedColorSum := Add(weightedColorSum, Scale(color, weight));
      weightedSquaredColorSum := Add(weightedSquaredColorSum, Scale(Mul(color, color), weight));
      totalWeight := totalWeight + weight;
      a := a + AngleStep;
      k := k + 1;
    }
    AngleLoopRunsFiveTimes(k);
    assert ring[..k] == ring;
  }

  /** `getSectorVarianceAndAverageColor`: the sums of the ring loop, then the
      average and the luma-weighted variance, or black and 0 with no weight. */
  method SectorVarianceAndAverage(m: Mat2, angle: real, radiusFloat: int,
                                  dirOf: real -> Vec2, colourAt: Vec2 -> Vec3)
    returns (avgColor: Vec3, variance: real)
    ensures SectorStats(avgColor, variance) == SectorOf(m, angle, radiusFloat, dirOf, colourAt)
  {
    var weightedColorSum, weightedSquaredColorSum, totalWeight := SectorSums(m, angle, radiusFloat, dirOf, colourAt);
    if totalWeight > 0.0 {
      avgColor := Div(weightedColorSum, totalWeight);
      var varianceRes := Sub(Div(weightedSquaredColorSum, totalWeight), Mul(avgColor, avgColor));
      variance := Dot(varianceRes, Luma);
    } else {
      avgColor := Black;
      variance := 0.0;
    }
  }

  /** The ring loop of `getSectorVarianceAndAverageColor`: rings 1 up to
      `radiusFloat`, stopping after ten, each adding its five samples. */
  method SectorSums(m: Mat2, angle: real, radiusFloat: int,
                    dirOf: real -> Vec2, colourAt: Vec2 -> Vec3)
    returns (weightedColorSum: Vec3, weightedSquaredColorSum: Vec3, totalWeight: real)
    ensures Sums(weightedColorSum, weightedSquaredColorSum, totalWeight)
            == Accumulate(SectorSamples(m, angle, RingCount(radiusFloat), dirOf, colourAt))
  {
    weightedColorSum := Black;
    weightedSquaredColorSum := Black;
    totalWeight := 0.0;
    var r := 1;
    while r <= MaxRings
      invariant 1 <= r <= MaxRings + 1
      invariant r - 1 <= RingCount(radiusFloat)
      invariant Sums(weightedColorSum, weightedSquaredColorSum, totalWeight) == Accumulate(SectorSamples(m, angle, r - 1, dirOf, colourAt))
    {
      if r > radiusFloat {
        break;
      }
      weightedColorSum, weightedSquaredColorSum, totalWeight :=
        AccumulateRing(m, angle, r, dirOf, colourAt, SectorSamples(m, angle, r - 1, dirOf, colourAt),
                       weightedColorSum, weightedSquaredColorSum, totalWeight);
      r := r + 1;
    }
    assert r - 1 == RingCount(radiusFloat);
  }

  /** Adding `c` scaled by `a` and by `b` is scaling it by `a + b`. */
  lemma ScaleDistributes(c: Vec3, a: real, b: real)
    ensures Add(Scale(c, a), Scale(c, b)) == Scale(c, a + b)
  {
    assert c.r * a + c.r * b == c.r * (a + b);
    assert c.g * a + c.g * b == c.g * (a + b);
    assert c.b * a + c.b * b == c.b * (a + b);
  }

  lemma DivUndoesScale(c: Vec3, w: real)
    requires w != 0.0
    ensures Div(Scale(c, w), w) == c
  {
    assert c.r * w / w == c.r && c.g * w / w == c.g && c.b * w / w == c.b;
  }

  predicate AllOfColour(ss: seq<Sample>, c: Vec3) {
    forall i :: 0 <= i < |ss| ==> ss[i].colour == c
  }

  /** All samples of a sector read a texture of one colour `c`. */
  lemma {:induction false} SamplesOfUniformTexture(m: Mat2, angle: real, rings: nat,
                                                   dirOf: real -> Vec2, colourAt: Vec2 -> Vec3, c: Vec3)
    requires forall o :: colourAt(o) == c
    ensures AllOfColour(SectorSamples(m, angle, rings, dirOf, colourAt), c)
  {
    if rings > 0 {
      SamplesOfUniformTexture(m, angle, rings - 1, dirOf, colourAt, c);
      var done := SectorSamples(m, angle, rings - 1, dirOf, colourAt);
      var ring := Ring(m, angle, rings, dirOf, colourAt);
      assert AllOfColour(ring, c) by {
        forall k | 0 <= k < |ring| ensures ring[k].colour == c {
          assert ring[k] == SampleAt(m, angle, rings, AngleStart + k as real * AngleStep, dirOf, colourAt);
        }
      }
      assert SectorSamples(m, angle, rings, dirOf, colourAt) == done + ring;
    }
  }

  /** A sector whose samples all have colour `c` sums to `c` and `c^2` times its
      total weight. */
  lemma {:induction false} UniformAccumulate(ss: seq<Sample>, c: Vec3)
    requires AllOfColour(ss, c)
    ensures Accumulate(ss).colour == Scale(c, Accumulate(ss).weight)
    ensures Accumulate(ss).squared == Scale(Mul(c, c), Accumulate(ss).weight)
  {
    if |ss| > 0 {
      var prefix := ss[..|ss| - 1];
      UniformAccumulate(prefix, c);
      ScaleDistributes(c, Accumulate(prefix).weight, ss[|ss| - 1].weight);
      ScaleDistributes(Mul(c, c), Accumulate(prefix).weight, ss[|ss| - 1].weight);
    }
  }

  /** In a sector of one colour that carries weight, the average is that
      colour and the variance is zero. */
  lemma UniformSector(ss: seq<Sample>, c: Vec3)
    requires AllOfColour(ss, c)
    requires Accumulate(ss).weight > 0.0
    ensures Summarise(Accumulate(ss)) == SectorStats(c, 0.0)
  {
    UniformAccumulate(ss, c);
    var w := Accumulate(ss).weight;
    DivUndoesScale(c, w);
    DivUndoesScale(Mul(c, c), w);
    assert Sub(Mul(c, c), Mul(c, c)) == Black;
  }

  /** The weighted sums of one channel of a sector. */
  function ColourSum(acc: Sums, i: nat): real { Channel(acc.colour, i) }
  function SquaredSum(acc: Sums, i: nat): real { Channel(acc.squared, i) }

  /** How one sample of colour channel `c` and weight `w` moves a channel's sums. */
  lemma ChannelSums(acc: Sums, s: Sample, i: nat)
    ensures ColourSum(AddSample(acc, s), i) == ColourSum(acc, i) + Channel(s.colour, i) * s.weight
    ensures SquaredSum(AddSample(acc, s), i)
            == SquaredSum(acc, i) + Channel(s.colour, i) * Channel(s.colour, i) * s.weight
    ensures AddSample(acc, s).weight == acc.weight + s.weight
  {
  }

  /** `Q - 2 x S + x^2 W`: for sums `S`, `Q`, `W` of `w c`, `w c^2` and `w`,
      the weighted sum of `(c - x)^2`. */
  function SpreadOf(S: real, Q: real, W: real, x: real): real {
    Q - 2.0 * x * S + x * x * W
  }

  /** `W Q - S^2`. */
  function GapOf(S: real, Q: real, W: real): real {
    W * Q - S * S
  }

  /** `Q / W - (S / W)^2`: one channel of the variance term. */
  function VarianceOf(S: real, Q: real, W: real): real
    requires W != 0.0
  {
    Q / W - (S / W) * (S / W)
  }

  /** One sample keeps the spread non-negative: it adds `w (c - x)^2`. The
      sums after the sample are `S1`, `Q1` and `W1`. */
  lemma SpreadStep(S: real, Q: real, W: real, c: real, w: real, x: real, S1: real, Q1: real, W1: real)
    requires SpreadOf(S, Q, W, x) >= 0.0 && w >= 0.0
    requires S1 == S + c * w && Q1 == Q + c * c * w && W1 == W + w
    ensures SpreadOf(S1, Q1, W1, x) >= 0.0
  {
    MulNonNegative(w, (c - x) * (c - x));
    assert SpreadOf(S1, Q1, W1, x) == SpreadOf(S, Q, W, x) + w * ((c - x) * (c - x));
  }

  /** One sample keeps `S^2 <= W Q`: the gap grows by `w` times the spread
      around the sample's own value. */
  lemma GapStep(S: real, Q: real, W: real, c: real, w: real, S1: real, Q1: real, W1: real)
    requires GapOf(S, Q, W) >= 0.0 && w >= 0.0 && SpreadOf(S, Q, W, c) >= 0.0
    requires S1 == S + c * w && Q1 == Q + c * c * w && W1 == W + w
    ensures GapOf(S1, Q1, W1) >= 0.0
  {
    MulNonNegative(w, SpreadOf(S, Q, W, c));
    assert GapOf(S1, Q1, W1) == GapOf(S, Q, W) + w * SpreadOf(S, Q, W, c);
  }

  lemma DivNonNegative(g: real, W: real)
    requires g >= 0.0 && W > 0.0
    ensures g / W >= 0.0
  {
  }

  lemma DivOfGap(S: real, Q: real, W: real)
    requires W > 0.0
    ensures GapOf(S, Q, W) / W == Q - (S * S) / W
  {
  }

  lemma DivOfSquare(S: real, W: real)
    requires W > 0.0
    ensures ((S * S) / W) / W == (S / W) * (S / W)
  {
    var a := S / W;
    assert S == a * W;
    assert S * S == (a * a) * W * W;
    assert (S * S) / W == (a * a) * W;
  }

  /** With positive weight, `S^2 <= W Q` makes the variance term non-negative. */
  lemma VarianceFromGap(S: real, Q: real, W: real)
    requires W > 0.0 && GapOf(S, Q, W) >= 0.0
    ensures VarianceOf(S, Q, W) >= 0.0
  {
    DivNonNegative(GapOf(S, Q, W), W);
    DivOfGap(S, Q, W);
    DivNonNegative(Q - (S * S) / W, W);
    DivOfSquare(S, W);
    assert (Q - (S * S) / W) / W == Q / W - ((S * S) / W) / W;
  }

  /** The spread of one channel of the sums of `ss`. */
  function Spread(acc: Sums, i: nat, x: real): real {
    SpreadOf(ColourSum(acc, i), SquaredSum(acc, i), acc.weight, x)
  }

  /** The gap of one channel of the sums of `ss`. */
  function Gap(acc: Sums, i: nat): real {
    GapOf(ColourSum(acc, i), SquaredSum(acc, i), acc.weight)
  }

  lemma SpreadAddSample(acc: Sums, s: Sample, i: nat, x: real)
    requires Spread(acc, i, x) >= 0.0
    ensures Spread(AddSample(acc, s), i, x) >= 0.0
  {
    var next := AddSample(acc, s);
    ChannelSums(acc, s, i);
    SpreadStep(ColourSum(acc, i), SquaredSum(acc, i), acc.weight, Channel(s.colour, i), s.weight, x,
               ColourSum(next, i), SquaredSum(next, i), next.weight);
  }

  /** `sum w (c - x)^2 >= 0`: for any `x`, one channel's spread around `x` is not
      negative. */
  lemma {:induction false} SpreadNonNegative(ss: seq<Sample>, i: nat, x: real)
    ensures Spread(Accumulate(ss), i, x) >= 0.0
  {
    if |ss| > 0 {
      var prefix := ss[..|ss| - 1];
      SpreadNonNegative(prefix, i, x);
      SpreadAddSample(Accumulate(prefix), ss[|ss| - 1], i, x);
    }
  }

  lemma GapAddSample(acc: Sums, s: Sample, i: nat)
    requires Gap(acc, i) >= 0.0 && Spread(acc, i, Channel(s.colour, i)) >= 0.0
    ensures Gap(AddSample(acc, s), i) >= 0.0
  {
    var next := AddSample(acc, s);
    ChannelSums(acc, s, i);
    GapStep(ColourSum(acc, i), SquaredSum(acc, i), acc.weight, Channel(s.colour, i), s.weight,
            ColourSum(next, i), SquaredSum(next, i), next.weight);
  }

  /** The Cauchy-Schwarz inequality `S^2 <= W Q` for one channel of a sector. */
  lemma {:induction false} WeightedCauchySchwarz(ss: seq<Sample>, i: nat)
    ensures Gap(Accumulate(ss), i) >= 0.0
  {
    if |ss| > 0 {
      var prefix := ss[..|ss| - 1];
      var s := ss[|ss| - 1];
      WeightedCauchySchwarz(prefix, i);
      SpreadNonNegative(prefix, i, Channel(s.colour, i));
      GapAddSample(Accumulate(prefix), s, i);
    }
  }

  /** A sector's variance is never negative, so the minimum over the sectors
      is not either. */
  lemma SectorVarianceNonNegative(ss: seq<Sample>)
    ensures Summarise(Accumulate(ss)).variance >= 0.0
  {
    var acc := Accumulate(ss);
    if acc.weight > 0.0 {
      WeightedCauchySchwarz(ss, 0);
      WeightedCauchySchwarz(ss, 1);
      WeightedCauchySchwarz(ss, 2);
      VarianceFromGap(acc.colour.r, acc.squared.r, acc.weight);
      VarianceFromGap(acc.colour.g, acc.squared.g, acc.weight);
      VarianceFromGap(acc.colour.b, acc.squared.b, acc.weight);
      SummarisedVariance(acc);
      LumaOfNonNegative(ChannelVariances(acc));
    }
  }

  /** The per-channel variance terms of sums with positive weight. */
  function ChannelVariances(acc: Sums): Vec3
    requires acc.weight > 0.0
  {
    Vec3(VarianceOf(acc.colour.r, acc.squared.r, acc.weight),
         VarianceOf(acc.colour.g, acc.squared.g, acc.weight),
         VarianceOf(acc.colour.b, acc.squared.b, acc.weight))
  }

  /** The variance `Summarise` reports is the luminance of the per-channel terms. */
  lemma SummarisedVariance(acc: Sums)
    requires acc.weight > 0.0
    ensures Summarise(acc).variance == Dot(ChannelVariances(acc), Luma)
  {
    var average := Div(acc.colour, acc.weight);
    assert Sub(Div(acc.squared, acc.weight), Mul(average, average)) == ChannelVariances(acc);
  }

  /** The luminance of a colour with no negative channel is not negative. */
  lemma LumaOfNonNegative(v: Vec3)
    requires v.r >= 0.0 && v.g >= 0.0 && v.b >= 0.0
    ensures Dot(v, Luma) >= 0.0
  {
  }

  /** The index the selection loop of `main` settles on: the first sector of
      least variance. */
  function FirstMinIndex(vs: seq<real>): (k: nat)
    requires |vs| > 0
    ensures k < |vs|
    ensures forall j :: 0 <= j < |vs| ==> vs[k] <= vs[j]
    ensures forall j :: 0 <= j < k ==> vs[j] > vs[k]
  {
    if |vs| == 1 then 0
    else
      var k := FirstMinIndex(vs[..|vs| - 1]);
      if vs[|vs| - 1] < vs[k] then |vs| - 1 else k
  }

  /** When every variance is the same, the first sector is chosen. */
  lemma FirstMinOfConstant(vs: seq<real>)
    requires |vs| > 0 && forall i :: 0 <= i < |vs| ==> vs[i] == vs[0]
    ensures FirstMinIndex(vs) == 0
  {
  }

  /** The selection loop of `main`: a strict `<` keeps the earliest of equal
      variances. */
  method SelectSector(sectorVariances: seq<real>, sectorAvgColors: seq<Vec3>)
    returns (minVariance: real, finalColor: Vec3)
    requires |sectorVariances| == SectorCount && |sectorAvgColors| == SectorCount
    ensures minVariance == sectorVariances[FirstMinIndex(sectorVariances)]
    ensures finalColor == sectorAvgColors[FirstMinIndex(sectorVariances)]
    ensures forall j :: 0 <= j < SectorCount ==> minVariance <= sectorVariances[j]
  {
    minVariance := sectorVariances[0];
    finalColor := sectorAvgColors[0];
    for i := 1 to SectorCount
      invariant minVariance == sectorVariances[FirstMinIndex(sectorVariances[..i])]
      invariant finalColor == sectorAvgColors[FirstMinIndex(sectorVariances[..i])]
    {
      assert sectorVariances[..i + 1][..i] == sectorVariances[..i];
      if sectorVariances[i] < minVariance {
        minVariance := sectorVariances[i];
        finalColor := sectorAvgColors[i];
      }
    }
    assert sectorVariances[..SectorCount] == sectorVariances;
  }

  /** The centre angle of sector `i`. */
  function SectorAngle(i: nat): real {
    i as real * TwoPi / 8.0
  }

  /** The sampling transform `main` derives from the pixel's tensor. */
  function PixelMatrix(t: Tensor, root: real, orientation: Vec2): Mat2
    requires t.jxx >= 0.0 && t.jyy >= 0.0 && root >= 0.0
  {
    SamplingMatrix(orientation, Anisotropy(t, root))
  }

  /** The statistics of all eight sectors around a pixel sampled through `m`. */
  function Sectors(m: Mat2, radius: int, dirOf: real -> Vec2, colourAt: Vec2 -> Vec3): (st: seq<SectorStats>)
    ensures |st| == SectorCount
  {
    seq(SectorCount, i requires 0 <= i < SectorCount => SectorOf(m, SectorAngle(i), radius, dirOf, colourAt))
  }

  function Variances(st: seq<SectorStats>): (vs: seq<real>)
    ensures |vs| == |st|
  {
    seq(|st|, i requires 0 <= i < |st| => st[i].variance)
  }

  /** The average of the first sector of least variance. */
  function ChosenColour(st: seq<SectorStats>): Vec3
    requires |st| > 0
  {
    st[FirstMinIndex(Variances(st))].average
  }

  /** The colour `main` computes for a pixel, before `fromLinear`. The
      `alpha` uniform is a parameter that nothing reads. */
  function KuwaharaColour(t: Tensor, root: real, orientation: Vec2, radius: int, alpha: real,
                          dirOf: real -> Vec2, colourAt: Vec2 -> Vec3): (c: Vec3)
    requires t.jxx >= 0.0 && t.jyy >= 0.0 && root >= 0.0
    ensures exists i :: 0 <= i < SectorCount &&
              c == Sectors(PixelMatrix(t, root, orientation), radius, dirOf, colourAt)[i].average
  {
    var st := Sectors(PixelMatrix(t, root, orientation), radius, dirOf, colourAt);
    assert st[FirstMinIndex(Variances(st))].average == ChosenColour(st);
    ChosenColour(st)
  }

  /** Below this linear value `fromLinear` scales a channel instead of
      applying the sRGB power curve. */
  const LinearCutoff := 0.0031308

  /** One channel of `fromLinear`. `gammaRoot` is `pow(x, 1.0 / 2.4)`, which
      stays abstract. */
  function EncodeChannel(x: real, gammaRoot: real -> real): (e: real)
    ensures x == 0.0 ==> e == 0.0
    ensures 0.0 <= x < LinearCutoff ==> 0.0 <= e < 0.04045
  {
    if x < LinearCutoff then x * 12.92 else 1.055 * gammaRoot(x) - 0.055
  }

  /** `fromLinear`: the sRGB encoding of each colour channel; alpha passes
      through. */
  function FromLinear(v: Vec4, gammaRoot: real -> real): (w: Vec4)
    ensures w.a == v.a
    ensures v.rgb.r == v.rgb.g == v.rgb.b ==> w.rgb.r == w.rgb.g == w.rgb.b
  {
    Vec4(Vec3(EncodeChannel(v.rgb.r, gammaRoot), EncodeChannel(v.rgb.g, gammaRoot),
              EncodeChannel(v.rgb.b, gammaRoot)),
         v.a)
  }

  /** Black is below the cut-off on every channel, so it is encoded as black
      whatever the power curve is. */
  lemma FromLinearKeepsBlack(a: real, gammaRoot: real -> real)
    ensures FromLinear(Vec4(Black, a), gammaRoot) == Vec4(Black, a)
  {
  }

  /** The pixel `main` writes: the chosen colour, opaque, through `fromLinear`. */
  function KuwaharaFragment(t: Tensor, root: real, orientation: Vec2, radius: int, alpha: real,
                            dirOf: real -> Vec2, colourAt: Vec2 -> Vec3, gammaRoot: real -> real): (frag: Vec4)
    requires t.jxx >= 0.0 && t.jyy >= 0.0 && root >= 0.0
    ensures frag.a == 1.0
  {
    FromLinear(Vec4(KuwaharaColour(t, root, orientation, radius, alpha, dirOf, colourAt), 1.0), gammaRoot)
  }

  /** Whatever the `alpha` uniform is set to, every pixel comes out the same:
      the anisotropy strength is the constant `AlphaValue`. */
  lemma AlphaUniformIsIgnored(t: Tensor, root: real, orientation: Vec2, radius: int,
                              alpha1: real, alpha2: real, dirOf: real -> Vec2, colourAt: Vec2 -> Vec3)
    requires t.jxx >= 0.0 && t.jyy >= 0.0 && root >= 0.0
    ensures KuwaharaColour(t, root, orientation, radius, alpha1, dirOf, colourAt)
            == KuwaharaColour(t, root, orientation, radius, alpha2, dirOf, colourAt)
  {
  }

  /** The Kuwahara shader's `main` for one pixel: the value it writes to
      `gl_FragColor`. `t` is the texel of the tensor texture, whose diagonal
      entries are not negative. */
  method KuwaharaMain(t: Tensor, root: real, orientation: Vec2, radius: int, alpha: real,
                      dirOf: real -> Vec2, colourAt: Vec2 -> Vec3, gammaRoot: real -> real)
    returns (fragColor: Vec4)
    requires t.jxx >= 0.0 && t.jyy >= 0.0 && root >= 0.0
    ensures fragColor == KuwaharaFragment(t, root, orientation, radius, alpha, dirOf, colourAt, gammaRoot)
  {
    var anisotropy := Anisotropy(t, root);
    var anisotropyMat := SamplingMatrix(orientation, anisotropy);
    ghost var expected := Sectors(anisotropyMat, radius, dirOf, colourAt);
    var sectorAvgColors: seq<Vec3> := [];
    var sectorVariances: seq<real> := [];
    for i := 0 to SectorCount
      invariant |sectorAvgColors| == |sectorVariances| == i
      invariant forall j :: 0 <= j < i ==> SectorStats(sectorAvgColors[j], sectorVariances[j]) == expected[j]
    {
      var avg, variance := SectorVarianceAndAverage(anisotropyMat, SectorAngle(i), radius, dirOf, colourAt);
      sectorAvgColors := sectorAvgColors + [avg];
      sectorVariances := sectorVariances + [variance];
    }
    assert sectorVariances == Variances(expected);
    var minVariance, finalColor := SelectSector(sectorVariances, sectorAvgColors);
    fragColor := FromLinear(Vec4(finalColor, 1.0), gammaRoot);
  }

  /** With a radius below one no ring is sampled and every pixel is opaque
      black. */
  lemma NoRingsGiveBlack(t: Tensor, root: real, orientation: Vec2, radius: int, alpha: real,
                         dirOf: real -> Vec2, colourAt: Vec2 -> Vec3, gammaRoot: real -> real)
    requires t.jxx >= 0.0 && t.jyy >= 0.0 && root >= 0.0
    requires radius < 1
    ensures KuwaharaColour(t, root, orientation, radius, alpha, dirOf, colourAt) == Black
    ensures KuwaharaFragment(t, root, orientation, radius, alpha, dirOf, colourAt, gammaRoot) == Vec4(Black, 1.0)
  {
    var st := Sectors(PixelMatrix(t, root, orientation), radius, dirOf, colourAt);
    assert st[FirstMinIndex(Variances(st))] == SectorStats(Black, 0.0);
    FromLinearKeepsBlack(1.0, gammaRoot);
  }

  /** Over a texture of one colour `c`, every sector has variance 0, so the
      first sector wins and its average, `c`, is chosen (black if that sector
      carried no weight). */
  lemma UniformTextureChoosesFirst(m: Mat2, radius: int, dirOf: real -> Vec2,
                                   colourAt: Vec2 -> Vec3, c: Vec3)
    requires forall o :: colourAt(o) == c
    ensures var first := Accumulate(SectorSamples(m, SectorAngle(0), RingCount(radius), dirOf, colourAt));
            ChosenColour(Sectors(m, radius, dirOf, colourAt)) == if first.weight > 0.0 then c else Black
  {
    var st := Sectors(m, radius, dirOf, colourAt);
    var vs := Variances(st);
    forall i | 0 <= i < SectorCount
      ensures vs[i] == 0.0
    {
      var ss := SectorSamples(m, SectorAngle(i), RingCount(radius), dirOf, colourAt);
      SamplesOfUniformTexture(m, SectorAngle(i), RingCount(radius), dirOf, colourAt, c);
      if Accumulate(ss).weight > 0.0 {
        UniformSector(ss, c);
      }
    }
    FirstMinOfConstant(vs);
    var first := SectorSamples(m, SectorAngle(0), RingCount(radius), dirOf, colourAt);
    SamplesOfUniformTexture(m, SectorAngle(0), RingCount(radius), dirOf, colourAt, c);
    if Accumulate(first).weight > 0.0 {
      UniformSector(first, c);
    }
  }

  /** Over a texture of one colour the pixel keeps that colour, written
      opaque and sRGB-encoded; if the first sector carried no weight the
      pixel is opaque black. */
  lemma UniformTextureKeepsColour(t: Tensor, root: real, orientation: Vec2, radius: int, alpha: real,
                                 dirOf: real -> Vec2, colourAt: Vec2 -> Vec3, gammaRoot: real -> real, c: Vec3)
    requires t.jxx >= 0.0 && t.jyy >= 0.0 && root >= 0.0
    requires forall o :: colourAt(o) == c
    ensures var m := PixelMatrix(t, root, orientation);
            var first := Accumulate(SectorSamples(m, SectorAngle(0), RingCount(radius), dirOf, colourAt));
            && KuwaharaColour(t, root, orientation, radius, alpha, dirOf, colourAt)
               == (if first.weight > 0.0 then c else Black)
            && KuwaharaFragment(t, root, orientation, radius, alpha, dirOf, colourAt, gammaRoot)
               == (if first.weight > 0.0 then FromLinear(Vec4(c, 1.0), gammaRoot) else Vec4(Black, 1.0))
  {
    UniformTextureChoosesFirst(PixelMatrix(t, root, orientation), radius, dirOf, colourAt, c);
    FromLinearKeepsBlack(1.0, gammaRoot);
  }

  /** The chosen sector has a variance no greater than any other sector's,
      and that variance is not negative. */
  lemma ChosenSectorHasLeastVariance(m: Mat2, radius: int, dirOf: real -> Vec2, colourAt: Vec2 -> Vec3)
    ensures var vs := Variances(Sectors(m, radius, dirOf, colourAt));
            0.0 <= vs[FirstMinIndex(vs)] && forall j :: 0 <= j < |vs| ==> vs[FirstMinIndex(vs)] <= vs[j]
  {
    var vs := Variances(Sectors(m, radius, dirOf, colourAt));
    var k := FirstMinIndex(vs);
    SectorVarianceNonNegative(SectorSamples(m, SectorAngle(k), RingCount(radius), dirOf, colourAt));
  }
}
