/** The final composition pass of src/components/PostProcessing.tsx: tonal
    posterisation of the filtered image, a saturation boost, ACES tone
    mapping, and modulation by the paper texture, with transparency wherever
    the filtered image is black. */
module Composition {
  import opened Colour

  /** `n` in the shader: sixteen grey levels, so steps of 1/15. */
  const Levels := 16
  const PosterLow := 0.2
  const PosterHigh := 0.7
  /** The grey the dark half of the tone curve blends from. */
  const Shadow := 0.1
  /** The saturation adjustment `main` applies. */
  const Saturation := 1.5
  /** The luminance weights of `sat` (ITU-R BT.709). */
  const SatLuma := Vec3(0.2125, 0.7154, 0.0721)
  /** `step(0.001, length(color))`, compared on squared lengths. */
  const MinContentSquared := 0.000001

  /** A GLSL `vec4`'s four components, multiplied component-wise
      (`outputColor *= watercolorColor`). */
  function Modulate(u: Vec4, v: Vec4): (w: Vec4)
    ensures InUnitCube(u.rgb) && InUnitRange(u.a) && InUnitCube(v.rgb) && InUnitRange(v.a)
            ==> InUnitCube(w.rgb) && InUnitRange(w.a)
  {
    ProductInUnitRange(u.rgb.r, v.rgb.r);
    ProductInUnitRange(u.rgb.g, v.rgb.g);
    ProductInUnitRange(u.rgb.b, v.rgb.b);
    ProductInUnitRange(u.a, v.a);
    Vec4(Mul(u.rgb, v.rgb), u.a * v.a)
  }

  /** GLSL `step(edge, x)`. */
  function Step(edge: real, x: real): (s: real)
    ensures s == 0.0 || s == 1.0
    ensures s == 1.0 <==> x >= edge
  {
    if x < edge then 0.0 else 1.0
  }

  /** `contentMask`: 1 where the filtered pixel has length at least 0.001,
      else 0. Both sides of the comparison are squared, which keeps the
      square root out of the model. */
  function ContentMask(c: Vec3): (mask: real)
    ensures mask == 0.0 || mask == 1.0
    ensures c == Black ==> mask == 0.0
  {
    Step(MinContentSquared, Dot(c, c))
  }

  /** `qn`: the grey level rounded to the nearest of sixteen levels, then
      clamped to [0.2, 0.7]. */
  function Posterise(x: real): (qn: real)
    ensures PosterLow <= qn <= PosterHigh
  {
    var n := Levels;
    var q := (x * (n - 1) as real + 0.5).Floor as real / (n - 1) as real;
    Clamp(q, PosterLow, PosterHigh)
  }

  /** Posterisation keeps the order of grey levels. */
  lemma PosteriseMonotone(x: real, y: real)
    requires x <= y
    ensures Posterise(x) <= Posterise(y)
  {
    assert (x * 15.0 + 0.5).Floor <= (y * 15.0 + 0.5).Floor;
  }

  /** Every grey becomes one of nine tones: a multiple of 1/15 from 3/15
      to 10/15, or the upper clamp 0.7. */
  lemma PosteriseIsQuantised(x: real)
    ensures var qn := Posterise(x);
            qn == PosterHigh || (qn * 15.0).Floor as real == qn * 15.0
  {
    var k := (x * 15.0 + 0.5).Floor;
    assert (k as real / 15.0) * 15.0 == k as real;
  }

  /** A grey within half a level of a multiple of 1/15 inside the clamp
      range is sent to that multiple. */
  lemma PosteriseRoundsToNearest(x: real, k: int)
    requires 3 <= k <= 10
    requires k as real / 15.0 - 0.5 / 15.0 <= x < k as real / 15.0 + 0.5 / 15.0
    ensures Posterise(x) == k as real / 15.0
  {
    assert k as real <= x * 15.0 + 0.5 < k as real + 1.0;
    assert (x * 15.0 + 0.5).Floor == k;
  }

  /** The tone curve: below the middle grey the colour is blended up from a
      dark grey, above it towards white. */
  function Tone(color: Vec3, qn: real): (r: Vec3)
    ensures qn == 0.0 ==> r == Splat(Shadow)
    ensures qn == 0.5 ==> r == color
    ensures qn == 1.0 ==> r == Splat(1.0)
  {
    if qn < 0.5 then Mix(Splat(Shadow), color, qn * 2.0)
    else Mix(color, Splat(1.0), (qn - 0.5) * 2.0)
  }

  /** For a posterised level both blend factors lie in [0, 1], so a colour
      of the unit cube stays in it. */
  lemma ToneStaysInUnitCube(color: Vec3, qn: real)
    requires InUnitCube(color) && PosterLow <= qn <= PosterHigh
    ensures InUnitCube(Tone(color, qn))
  {
    if qn < 0.5 {
      MixInUnitCube(Splat(Shadow), color, qn * 2.0);
    } else {
      MixInUnitCube(color, Splat(1.0), (qn - 0.5) * 2.0);
    }
  }

  /** `sat`: blend away from (or, above 1, beyond) the colour's own grey. */
  function Sat(rgb: Vec3, adjustment: real): (r: Vec3)
    ensures adjustment == 1.0 ==> r == rgb
    ensures adjustment == 0.0 ==> r == Splat(Dot(rgb, SatLuma))
  {
    var intensity := Splat(Dot(rgb, SatLuma));
    Mix(intensity, rgb, adjustment)
  }

  /** Saturation changes chroma only: the weights sum to one, so the
      weighted luminance of the result is that of the input. */
  lemma SatKeepsLuminance(rgb: Vec3, adjustment: real)
    ensures Dot(Sat(rgb, adjustment), SatLuma) == Dot(rgb, SatLuma)
  {
    var l := Dot(rgb, SatLuma);
    assert Dot(Sat(rgb, adjustment), SatLuma)
           == l * (1.0 - adjustment) * 1.0 + adjustment * l;
  }

  /** A grey has nothing to saturate. */
  lemma SatOfGrey(g: real, adjustment: real)
    ensures Sat(Splat(g), adjustment) == Splat(g)
  {
    assert Dot(Splat(g), SatLuma) == g;
  }

  lemma SquareNonNegative(y: real)
    ensures y * y >= 0.0
  {
  }

  /** The denominator of the ACES fit, `2.43 x^2 + 0.59 x + 0.14`, has no real
      root, so the fit is defined for every input. */
  lemma AcesDenominatorPositive(x: real)
    ensures x * (2.43 * x + 0.59) + 0.14 > 0.0
  {
    var y := x + 0.59 / 4.86;
    SquareNonNegative(y);
    assert x * (2.43 * x + 0.59) + 0.14 == 2.43 * (y * y) + (0.14 - 0.3481 / 9.72);
  }

  /** `ACESFilm` on one channel: the rational fit, clamped to [0, 1]. */
  function AcesChannel(x: real): (y: real)
    ensures InUnitRange(y)
    ensures x == 0.0 ==> y == 0.0
  {
    var a, b, c, d, e := 2.51, 0.03, 2.43, 0.59, 0.14;
    AcesDenominatorPositive(x);
    Clamp((x * (a * x + b)) / (x * (c * x + d) + e), 0.0, 1.0)
  }

  /** `ACESFilm`, channel by channel. */
  function AcesFilm(x: Vec3): (y: Vec3)
    ensures InUnitCube(y)
  {
    Vec3(AcesChannel(x.r), AcesChannel(x.g), AcesChannel(x.b))
  }

  /** The colour steps of the composition shader's `main`: posterise by
      luminance, tone, saturate, tone-map. The result is displayable. */
  function Grade(color: Vec3): (graded: Vec3)
    ensures InUnitCube(graded)
  {
    var grayscale := Splat(Dot(color, Luma));
    var qn := Posterise(grayscale.r);
    AcesFilm(Sat(Tone(color, qn), Saturation))
  }

  /** The composition shader's `main` for one pixel: `input` is the
      Kuwahara output, `paper` the paper texture at the same place. */
  function Composite(input: Vec4, paper: Vec4): (out: Vec4)
    ensures out.a == ContentMask(input.rgb) * paper.a
  {
    var color := input.rgb;
    var contentMask := ContentMask(color);
    Modulate(Vec4(Grade(color), contentMask), paper)
  }

  /** Where the filtered image is black the output is fully transparent,
      whatever the paper. */
  lemma EmptyPixelsAreTransparent(input: Vec4, paper: Vec4)
    requires input.rgb == Black
    ensures Composite(input, paper).a == 0.0
  {
  }

  /** Over paper whose texels lie in the unit cube, every output channel is a
      displayable value in [0, 1]. */
  lemma CompositeIsDisplayable(input: Vec4, paper: Vec4)
    requires InUnitCube(paper.rgb) && InUnitRange(paper.a)
    ensures InUnitCube(Composite(input, paper).rgb) && InUnitRange(Composite(input, paper).a)
  {
    assert InUnitCube(Grade(input.rgb)) && InUnitRange(ContentMask(input.rgb));
  }

  /** The product of two values in [0, 1] stays in [0, 1]. */
  lemma ProductInUnitRange(a: real, b: real)
    ensures InUnitRange(a) && InUnitRange(b) ==> InUnitRange(a * b)
  {
    if InUnitRange(a) && InUnitRange(b) {
      MulNonNegative(a, b);
      MulNonNegative(1.0 - a, b);
    }
  }
}
