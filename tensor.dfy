/** The structure-tensor pass of src/components/PostProcessing.tsx: Sobel
    gradients of the scene and the per-pixel tensor built from them. The
    texture reads are the inputs: the eight neighbours and the centre texel. */
module TensorPass {
  import opened Colour

  /** The eight texels `sobel` reads around a pixel, one texel apart; `t`/`b`
      are the rows at -y/+y, `l`/`r` the columns at -x/+x. */
  datatype Neighbourhood = Neighbourhood(tl: Vec3, tm: Vec3, tr: Vec3,
                                         ml: Vec3, mr: Vec3,
                                         bl: Vec3, bm: Vec3, br: Vec3)

  /** The per-pixel output `vec4(Jxx, Jyy, Jxy, luminance)`. */
  datatype Tensor = Tensor(jxx: real, jyy: real, jxy: real, luminance: real)

  /** Every neighbour of colour `c`. */
  function Uniform(c: Vec3): Neighbourhood {
    Neighbourhood(c, c, c, c, c, c, c, c)
  }

  /** The horizontal Sobel kernel, on every channel. A neighbourhood that is
      the same on its left and right has no horizontal gradient. */
  function SobelX(n: Neighbourhood): (g: Vec3)
    ensures n.tl == n.tr && n.ml == n.mr && n.bl == n.br ==> g == Black
  {
    Add(Add(Add(Scale(n.tl, -1.0), Scale(n.tr, 1.0)),
            Add(Scale(n.ml, -2.0), Scale(n.mr, 2.0))),
        Add(Scale(n.bl, -1.0), Scale(n.br, 1.0)))
  }

  /** The vertical Sobel kernel, on every channel. A neighbourhood that is
      the same above and below has no vertical gradient. */
  function SobelY(n: Neighbourhood): (g: Vec3)
    ensures n.tl == n.bl && n.tm == n.bm && n.tr == n.br ==> g == Black
  {
    Add(Add(Add(Scale(n.tl, -1.0), Scale(n.tm, -2.0)), Scale(n.tr, -1.0)),
        Add(Add(Scale(n.bl, 1.0), Scale(n.bm, 2.0)), Scale(n.br, 1.0)))
  }

  /** `sobel`: the red channel's two gradients, and the green channel's
      horizontal gradient, which the pass does not use. */
  function Sobel(n: Neighbourhood): (s: Vec3)
    ensures n.tl.r == n.tr.r && n.ml.r == n.mr.r && n.bl.r == n.br.r ==> s.r == 0.0
    ensures n.tl.r == n.bl.r && n.tm.r == n.bm.r && n.tr.r == n.br.r ==> s.g == 0.0
  {
    Vec3(SobelX(n).r, SobelY(n).r, SobelX(n).g)
  }

  /** The tensor pass's `main` for one pixel. The tensor is the outer product
      of the red-channel gradient with itself, so it is positive semi-definite
      and singular. */
  function StructureTensor(n: Neighbourhood, centre: Vec3): (t: Tensor)
    ensures t.jxx >= 0.0 && t.jyy >= 0.0
    ensures t.jxx * t.jyy - t.jxy * t.jxy == 0.0
    ensures t.jxy * t.jxy <= t.jxx * t.jyy
  {
    var gradient := Sobel(n);
    var luminance := Dot(centre, Luma);
    Tensor(gradient.r * gradient.r, gradient.g * gradient.g, gradient.r * gradient.g, luminance)
  }

  /** A pixel with no red-channel gradient gets a zero tensor. */
  lemma ZeroGradientGivesZeroTensor(n: Neighbourhood, centre: Vec3)
    requires Sobel(n).r == 0.0 && Sobel(n).g == 0.0
    ensures var t := StructureTensor(n, centre);
            t.jxx == 0.0 && t.jyy == 0.0 && t.jxy == 0.0
  {
  }

  /** Both kernels sum to zero, so a region of one colour has no gradient and
      a zero tensor. */
  lemma UniformRegionHasZeroTensor(c: Vec3, centre: Vec3)
    ensures SobelX(Uniform(c)) == Black && SobelY(Uniform(c)) == Black
    ensures var t := StructureTensor(Uniform(c), centre);
            t.jxx == 0.0 && t.jyy == 0.0 && t.jxy == 0.0
  {
    ZeroGradientGivesZeroTensor(Uniform(c), centre);
  }

  /** The red channel of every neighbour. */
  function Reds(n: Neighbourhood): seq<real> {
    [n.tl.r, n.tm.r, n.tr.r, n.ml.r, n.mr.r, n.bl.r, n.bm.r, n.br.r]
  }

  /** Only the red channel of the neighbourhood reaches the tensor: green and
      blue edges are invisible to it. */
  lemma TensorSeesOnlyRed(n1: Neighbourhood, n2: Neighbourhood, centre: Vec3)
    requires Reds(n1) == Reds(n2)
    ensures StructureTensor(n1, centre).jxx == StructureTensor(n2, centre).jxx
    ensures StructureTensor(n1, centre).jyy == StructureTensor(n2, centre).jyy
    ensures StructureTensor(n1, centre).jxy == StructureTensor(n2, centre).jxy
  {
    assert n1.tl.r == Reds(n1)[0] && n1.tm.r == Reds(n1)[1] && n1.tr.r == Reds(n1)[2];
    assert n1.ml.r == Reds(n1)[3] && n1.mr.r == Reds(n1)[4];
    assert n1.bl.r == Reds(n1)[5] && n1.bm.r == Reds(n1)[6] && n1.br.r == Reds(n1)[7];
  }

  /** A neighbourhood whose red channel rises by `d` per column: the gradient
      is `8 d` along x and none along y. */
  function HorizontalRamp(base: real, d: real): Neighbourhood {
    Neighbourhood(Vec3(base - d, 0.0, 0.0), Vec3(base, 0.0, 0.0), Vec3(base + d, 0.0, 0.0),
                  Vec3(base - d, 0.0, 0.0), Vec3(base + d, 0.0, 0.0),
                  Vec3(base - d, 0.0, 0.0), Vec3(base, 0.0, 0.0), Vec3(base + d, 0.0, 0.0))
  }

  lemma HorizontalRampTensor(base: real, d: real, centre: Vec3)
    ensures var t := StructureTensor(HorizontalRamp(base, d), centre);
            t.jxx == 64.0 * d * d && t.jyy == 0.0 && t.jxy == 0.0
  {
    assert Sobel(HorizontalRamp(base, d)).r == 8.0 * d;
    assert Sobel(HorizontalRamp(base, d)).g == 0.0;
  }
}
