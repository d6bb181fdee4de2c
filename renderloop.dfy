/** The frame loop of src/components/PostProcessing.tsx: `createFramebuffer`,
    `resizeCanvas` and the pass plan of `render`. The WebGL context is reduced
    to the objects it hands out; each draw is recorded as the pass it performs:
    which program runs, which textures it samples on which unit, where it
    renders and whether blending is on. */
module RenderLoop {
  import opened Wrappers
  import opened Framebuffers

  /** A framebuffer with its colour texture, as `createFramebuffer` returns it,
      and the bytes uploaded to that texture when it was made. */
  datatype Framebuffer = Framebuffer(fb: nat, texture: nat, width: nat, height: nat,
                                     initial: seq<Byte>)

  /** What the WebGL context does during one `createFramebuffer`: whether
      `gl.createFramebuffer` and `gl.createTexture` return an object, and
      whether the assembled framebuffer is complete. */
  datatype GlOutcome = GlOutcome(framebufferMade: bool, textureMade: bool, complete: bool)

  datatype Program = PlanetProgram | TensorProgram | KuwaharaProgram | FinalProgram

  /** A texture a pass samples: a framebuffer's colour texture or the paper. */
  datatype Source = FramebufferTexture(texture: nat) | PaperTexture

  /** Where a pass renders: a framebuffer, or the canvas (`bindFramebuffer(null)`). */
  datatype Target = ToFramebuffer(fb: nat) | ToScreen

  /** One draw: `inputs[u]` is bound to texture unit `u`. */
  datatype Pass = Pass(program: Program, inputs: seq<Source>, target: Target, blend: bool)

  /** The frame `render` draws for the framebuffers and paper texture it
      finds, on a context whose `BLEND` capability is `blend` when the frame
      starts. The painterly passes each switch blending on or off; the direct
      planet pass touches neither, so it draws with whatever state the context
      was left in. */
  function PassPlan(painterly: bool, planet: Option<Framebuffer>, tensor: Option<Framebuffer>,
                    kuwahara: Option<Framebuffer>, paper: bool, blend: bool): (plan: seq<Pass>)
    ensures |plan| == 4 || |plan| == 1
    ensures |plan| == 4 <==> painterly && planet.Some? && tensor.Some? && kuwahara.Some? && paper
    ensures plan[0].program == PlanetProgram && plan[0].inputs == []
    ensures plan[|plan| - 1].target == ToScreen
    ensures plan[|plan| - 1].blend == (|plan| == 4 || blend)
  {
    if painterly && planet.Some? && tensor.Some? && kuwahara.Some? && paper then
      var p, t, k := planet.value, tensor.value, kuwahara.value;
      [ Pass(PlanetProgram, [], ToFramebuffer(p.fb), true),
        Pass(TensorProgram, [FramebufferTexture(p.texture)], ToFramebuffer(t.fb), false),
        Pass(KuwaharaProgram, [FramebufferTexture(t.texture), FramebufferTexture(p.texture)],
             ToFramebuffer(k.fb), false),
        Pass(FinalProgram, [FramebufferTexture(k.texture), PaperTexture], ToScreen, true) ]
    else
      [Pass(PlanetProgram, [], ToScreen, blend)]
  }

  /** The texture behind framebuffer `fb`, among the given framebuffers. */
  predicate Renders(fbs: seq<Framebuffer>, fb: nat, texture: nat) {
    exists i :: 0 <= i < |fbs| && fbs[i].fb == fb && fbs[i].texture == texture
  }

  /** Every framebuffer texture a pass samples was rendered by an earlier
      pass of the same frame. */
  predicate FeedsForward(plan: seq<Pass>, fbs: seq<Framebuffer>) {
    forall j, u :: 0 <= j < |plan| && 0 <= u < |plan[j].inputs| && plan[j].inputs[u].FramebufferTexture? ==>
      exists i :: 0 <= i < j && plan[i].target.ToFramebuffer? &&
                  Renders(fbs, plan[i].target.fb, plan[j].inputs[u].texture)
  }

  /** No pass samples the texture it renders into. */
  predicate NoFeedback(plan: seq<Pass>, fbs: seq<Framebuffer>) {
    forall j, u :: 0 <= j < |plan| && 0 <= u < |plan[j].inputs| &&
                   plan[j].inputs[u].FramebufferTexture? && plan[j].target.ToFramebuffer? ==>
      !Renders(fbs, plan[j].target.fb, plan[j].inputs[u].texture)
  }

  /** Framebuffers made by separate calls: no two share a framebuffer or a texture. */
  predicate Separate(fbs: seq<Framebuffer>) {
    forall i, j :: 0 <= i < j < |fbs| ==> fbs[i].fb != fbs[j].fb && fbs[i].texture != fbs[j].texture
  }

  /** The framebuffers among three variables, in declaration order. */
  function HeldOf(planet: Option<Framebuffer>, tensor: Option<Framebuffer>,
                  kuwahara: Option<Framebuffer>): (fbs: seq<Framebuffer>)
    ensures |fbs| <= 3
    ensures forall fb :: fb in fbs <==> (planet == Some(fb) || tensor == Some(fb) || kuwahara == Some(fb))
  {
    (if planet.Some? then [planet.value] else []) +
    (if tensor.Some? then [tensor.value] else []) +
    (if kuwahara.Some? then [kuwahara.value] else [])
  }

  /** `o`, if present, was made at size `width` x `height` by a call that
      found the context's counters at `fbLo` and `texLo` and left them at no
      more than `fbHi` and `texHi`. */
  predicate MadeBetween(o: Option<Framebuffer>, fbLo: nat, fbHi: nat, texLo: nat, texHi: nat,
                       width: nat, height: nat) {
    o.Some? ==>
      && fbLo <= o.value.fb < fbHi && texLo <= o.value.texture < texHi
      && o.value.width == width && o.value.height == height
      && o.value.initial == Transparent(width * height)
  }

  /** Two framebuffer variables do not share an object. */
  predicate Apart(a: Option<Framebuffer>, b: Option<Framebuffer>) {
    a.Some? && b.Some? ==> a.value.fb != b.value.fb && a.value.texture != b.value.texture
  }

  /** No two of the three framebuffer variables share an object. */
  predicate Apart3(planet: Option<Framebuffer>, tensor: Option<Framebuffer>, kuwahara: Option<Framebuffer>) {
    Apart(planet, tensor) && Apart(planet, kuwahara) && Apart(tensor, kuwahara)
  }

  /** Variables that share no object hold a separate run of framebuffers. */
  lemma ApartIsSeparate(planet: Option<Framebuffer>, tensor: Option<Framebuffer>, kuwahara: Option<Framebuffer>)
    requires Apart3(planet, tensor, kuwahara)
    ensures Separate(HeldOf(planet, tensor, kuwahara))
  {
    if planet.Some? && tensor.Some? && kuwahara.Some? {
      assert HeldOf(planet, tensor, kuwahara) == [planet.value, tensor.value, kuwahara.value];
    } else if planet.Some? && tensor.Some? {
      assert HeldOf(planet, tensor, kuwahara) == [planet.value, tensor.value];
    } else if planet.Some? && kuwahara.Some? {
      assert HeldOf(planet, tensor, kuwahara) == [planet.value, kuwahara.value];
    } else if tensor.Some? && kuwahara.Some? {
      assert HeldOf(planet, tensor, kuwahara) == [tensor.value, kuwahara.value];
    }
  }

  /** Framebuffers made one after another share no object, and each was made
      before the context's counters reached `f3` and `t3`. */
  lemma MadeInTurn(planet: Option<Framebuffer>, tensor: Option<Framebuffer>, kuwahara: Option<Framebuffer>,
                   f0: nat, f1: nat, f2: nat, f3: nat, t0: nat, t1: nat, t2: nat, t3: nat,
                   width: nat, height: nat)
    requires f0 <= f1 <= f2 <= f3 && t0 <= t1 <= t2 <= t3
    requires MadeBetween(planet, f0, f1, t0, t1, width, height)
    requires MadeBetween(tensor, f1, f2, t1, t2, width, height)
    requires MadeBetween(kuwahara, f2, f3, t2, t3, width, height)
    ensures Apart3(planet, tensor, kuwahara)
    ensures MadeBetween(planet, f0, f3, t0, t3, width, height)
    ensures MadeBetween(tensor, f0, f3, t0, t3, width, height)
    ensures MadeBetween(kuwahara, f0, f3, t0, t3, width, height)
  {
  }

  /** Painterly frame: the planet is drawn off screen with blending, its edges
      are measured from it, the Kuwahara pass reads the tensor on unit 0 and the
      original planet on unit 1, and only the final pass, which lays the
      filtered image over the paper, reaches the screen. */
  lemma PainterlyFrame(planet: Framebuffer, tensor: Framebuffer, kuwahara: Framebuffer, blend: bool)
    requires Separate([planet, tensor, kuwahara])
    ensures var plan := PassPlan(true, Some(planet), Some(tensor), Some(kuwahara), true, blend);
            && |plan| == 4
            && [plan[0].program, plan[1].program, plan[2].program, plan[3].program]
                 == [PlanetProgram, TensorProgram, KuwaharaProgram, FinalProgram]
            && plan[0].target == ToFramebuffer(planet.fb)
            && plan[1].inputs == [FramebufferTexture(planet.texture)]
            && plan[1].target == ToFramebuffer(tensor.fb)
            && plan[2].inputs == [FramebufferTexture(tensor.texture), FramebufferTexture(planet.texture)]
            && plan[2].target == ToFramebuffer(kuwahara.fb)
            && plan[3].inputs == [FramebufferTexture(kuwahara.texture), PaperTexture]
            && (forall j :: 0 <= j < 3 ==> plan[j].target != ToScreen)
            && [plan[0].blend, plan[1].blend, plan[2].blend, plan[3].blend] == [true, false, false, true]
            && FeedsForward(plan, [planet, tensor, kuwahara])
            && NoFeedback(plan, [planet, tensor, kuwahara])
  {
    var fbs := [planet, tensor, kuwahara];
    var plan := PassPlan(true, Some(planet), Some(tensor), Some(kuwahara), true, blend);
    assert Renders(fbs, planet.fb, planet.texture) by { assert fbs[0] == planet; }
    assert Renders(fbs, tensor.fb, tensor.texture) by { assert fbs[1] == tensor; }
    forall j, u | 0 <= j < |plan| && 0 <= u < |plan[j].inputs| && plan[j].inputs[u].FramebufferTexture?
      ensures exists i :: 0 <= i < j && plan[i].target.ToFramebuffer? &&
                          Renders(fbs, plan[i].target.fb, plan[j].inputs[u].texture)
    {
      if j == 1 || (j == 2 && u == 1) {
        assert plan[0].target.fb == planet.fb;
      } else if j == 2 {
        assert plan[1].target.fb == tensor.fb;
      } else {
        assert fbs[2] == kuwahara;
        assert plan[2].target.fb == kuwahara.fb;
      }
    }
    assert fbs[0] == planet && fbs[1] == tensor && fbs[2] == kuwahara;
    assert planet.fb != tensor.fb && planet.texture != tensor.texture;
    assert planet.fb != kuwahara.fb && planet.texture != kuwahara.texture;
    assert tensor.fb != kuwahara.fb && tensor.texture != kuwahara.texture;
    forall j, u | 0 <= j < |plan| && 0 <= u < |plan[j].inputs| &&
                  plan[j].inputs[u].FramebufferTexture? && plan[j].target.ToFramebuffer?
      ensures !Renders(fbs, plan[j].target.fb, plan[j].inputs[u].texture)
    {
      forall i | 0 <= i < |fbs|
        ensures !(fbs[i].fb == plan[j].target.fb && fbs[i].texture == plan[j].inputs[u].texture)
      {
      }
    }
  }

  /** Without the painterly effect, or with any of its framebuffers or the
      paper missing, the frame is one planet draw straight to the screen,
      blended exactly when the context was left blending. */
  lemma DirectFrame(painterly: bool, planet: Option<Framebuffer>, tensor: Option<Framebuffer>,
                    kuwahara: Option<Framebuffer>, paper: bool, blend: bool)
    requires !(painterly && planet.Some? && tensor.Some? && kuwahara.Some? && paper)
    ensures PassPlan(painterly, planet, tensor, kuwahara, paper, blend) == [Pass(PlanetProgram, [], ToScreen, blend)]
  {
  }

  /** A painterly frame leaves the context blending, so a direct frame drawn
      after it, on whatever framebuffers remain, blends the planet over the
      canvas, whatever the state before the painterly frame. */
  lemma DirectFrameAfterPainterlyBlends(planet: Framebuffer, tensor: Framebuffer, kuwahara: Framebuffer,
                                        blend: bool, painterly: bool, planet2: Option<Framebuffer>,
                                        tensor2: Option<Framebuffer>, kuwahara2: Option<Framebuffer>, paper: bool)
    requires !(painterly && planet2.Some? && tensor2.Some? && kuwahara2.Some? && paper)
    ensures var first := PassPlan(true, Some(planet), Some(tensor), Some(kuwahara), true, blend);
            var second := PassPlan(painterly, planet2, tensor2, kuwahara2, paper, first[|first| - 1].blend);
            second == [Pass(PlanetProgram, [], ToScreen, true)]
  {
    DirectFrame(painterly, planet2, tensor2, kuwahara2, paper, true);
  }

  /** The direct frame does not draw as the scene stage does: on a context
      that has never blended it writes the planet unblended, while the scene
      stage of a painterly frame and a direct frame drawn after one both
      blend. Which of the two a direct frame does depends on what ran before. */
  lemma DirectFrameDependsOnHistory(painterly: bool, planet: Option<Framebuffer>, tensor: Option<Framebuffer>,
                                    kuwahara: Option<Framebuffer>, paper: bool, fb: Framebuffer)
    requires !(painterly && planet.Some? && tensor.Some? && kuwahara.Some? && paper)
    ensures var scene := PassPlan(true, Some(fb), Some(fb), Some(fb), true, false)[0];
            && PassPlan(painterly, planet, tensor, kuwahara, paper, false)[0].blend != scene.blend
            && PassPlan(painterly, planet, tensor, kuwahara, paper, false)
               != PassPlan(painterly, planet, tensor, kuwahara, paper, true)
  {
    DirectFrame(painterly, planet, tensor, kuwahara, paper, false);
    DirectFrame(painterly, planet, tensor, kuwahara, paper, true);
  }

  /** The frame with the direct branch switching blending on as the scene
      stage does (`enable(BLEND)` with `SRC_ALPHA`, `ONE_MINUS_SRC_ALPHA`),
      so that it no longer depends on the state left by earlier frames. */
  function SettledPassPlan(painterly: bool, planet: Option<Framebuffer>, tensor: Option<Framebuffer>,
                           kuwahara: Option<Framebuffer>, paper: bool): (plan: seq<Pass>)
    ensures |plan| > 0 && plan[0].blend
    ensures forall blend :: |PassPlan(painterly, planet, tensor, kuwahara, paper, blend)| == 4 ==>
              plan == PassPlan(painterly, planet, tensor, kuwahara, paper, blend)
  {
    PassPlan(painterly, planet, tensor, kuwahara, paper, true)
  }

  /** With the settled plan, a direct frame draws the planet exactly as the
      scene stage of a painterly frame does, only to the screen, whatever
      state the context was left in; painterly frames are unchanged. */
  lemma SettledDirectFrameMatchesSceneStage(painterly: bool, planet: Option<Framebuffer>,
                                            tensor: Option<Framebuffer>, kuwahara: Option<Framebuffer>,
                                            paper: bool, p: Framebuffer, t: Framebuffer, k: Framebuffer,
                                            blend: bool)
    requires !(painterly && planet.Some? && tensor.Some? && kuwahara.Some? && paper)
    ensures var scene := PassPlan(true, Some(p), Some(t), Some(k), true, blend)[0];
            SettledPassPlan(painterly, planet, tensor, kuwahara, paper)
            == [Pass(scene.program, scene.inputs, ToScreen, scene.blend)]
  {
    DirectFrame(painterly, planet, tensor, kuwahara, paper, true);
  }

  /** Whatever framebuffers exist, as long as they share no object, the frame
      only samples textures rendered earlier in it and never the one it is
      rendering into. */
  lemma PlanIsSound(painterly: bool, planet: Option<Framebuffer>, tensor: Option<Framebuffer>,
                    kuwahara: Option<Framebuffer>, paper: bool, blend: bool)
    requires Separate(HeldOf(planet, tensor, kuwahara))
    ensures var plan := PassPlan(painterly, planet, tensor, kuwahara, paper, blend);
            FeedsForward(plan, HeldOf(planet, tensor, kuwahara)) &&
            NoFeedback(plan, HeldOf(planet, tensor, kuwahara))
  {
    if painterly && planet.Some? && tensor.Some? && kuwahara.Some? && paper {
      assert HeldOf(planet, tensor, kuwahara) == [planet.value, tensor.value, kuwahara.value];
      PainterlyFrame(planet.value, tensor.value, kuwahara.value, blend);
    }
  }

  /** The state `render` and `resizeCanvas` share: the canvas size, the three
      framebuffer variables, the context's `BLEND` capability and the objects
      the WebGL context has handed out, none of which is ever deleted. */
  class Renderer {
    const enablePainterly: bool
    /** Whether `createPaperTexture` produced a texture. */
    const paperTexture: bool
    var canvasWidth: nat
    var canvasHeight: nat
    var planetFB: Option<Framebuffer>
    var tensorFB: Option<Framebuffer>
    var kuwaharaFB: Option<Framebuffer>
    /** Framebuffer and texture objects `createFramebuffer` has made so far; object `n` is the `n`-th. */
    var framebuffersMade: nat
    var texturesMade: nat
    /** Whether the context's `BLEND` capability is on; it outlives a frame. */
    var blendEnabled: bool

    /** The framebuffers currently held. */
    function Held(): (fbs: seq<Framebuffer>)
      reads this
      ensures fbs == HeldOf(planetFB, tensorFB, kuwaharaFB)
    {
      HeldOf(planetFB, tensorFB, kuwaharaFB)
    }

    /** Every held framebuffer was made by the context at the canvas's size,
        started transparent, and shares no object with another; without the
        painterly effect none is ever made. */
    predicate Valid()
      reads this
    {
      && (!enablePainterly ==> planetFB.None? && tensorFB.None? && kuwaharaFB.None?)
      && Apart3(planetFB, tensorFB, kuwaharaFB)
      && MadeBetween(planetFB, 0, framebuffersMade, 0, texturesMade, canvasWidth, canvasHeight)
      && MadeBetween(tensorFB, 0, framebuffersMade, 0, texturesMade, canvasWidth, canvasHeight)
      && MadeBetween(kuwaharaFB, 0, framebuffersMade, 0, texturesMade, canvasWidth, canvasHeight)
    }

    /** The effect's set-up: the three framebuffer variables start `null`.
        `blend` is the `BLEND` state of the context `getContext` returns: off
        for a new context, whatever the last frame left when the effect runs
        again on the same canvas. */
    constructor (enablePainterly: bool, paperTexture: bool, width: nat, height: nat, blend: bool)
      ensures Valid()
      ensures this.enablePainterly == enablePainterly && this.paperTexture == paperTexture
      ensures canvasWidth == width && canvasHeight == height
      ensures planetFB.None? && tensorFB.None? && kuwaharaFB.None?
      ensures framebuffersMade == 0 && texturesMade == 0
      ensures blendEnabled == blend
    {
      this.enablePainterly := enablePainterly;
      this.paperTexture := paperTexture;
      canvasWidth, canvasHeight := width, height;
      planetFB, tensorFB, kuwaharaFB := None, None, None;
      framebuffersMade, texturesMade := 0, 0;
      blendEnabled := blend;
    }

    /** `createFramebuffer`: asks the context for a framebuffer and a texture,
        gives up if either is missing, uploads a cleared buffer and gives up
        if the result is incomplete. Objects made before giving up stay made. */
    method CreateFramebuffer(width: nat, height: nat, gl: GlOutcome) returns (r: Option<Framebuffer>)
      modifies this`framebuffersMade, this`texturesMade
      ensures framebuffersMade == old(framebuffersMade) + (if gl.framebufferMade then 1 else 0)
      ensures texturesMade == old(texturesMade) + (if gl.textureMade then 1 else 0)
      ensures r.Some? <==> gl.framebufferMade && gl.textureMade && gl.complete
      ensures r.Some? ==> r.value == Framebuffer(old(framebuffersMade), old(texturesMade),
                                                 width, height, Transparent(width * height))
    {
      var framebuffer := framebuffersMade;
      var texture := texturesMade;
      if gl.framebufferMade {
        framebuffersMade := framebuffersMade + 1;
      }
      if gl.textureMade {
        texturesMade := texturesMade + 1;
      }
      if !gl.framebufferMade || !gl.textureMade {
        return None;
      }
      var emptyData := ZeroFilledData(width, height);
      ClearedBufferIsTransparent(emptyData[..], width, height);
      if !gl.complete {
        return None;
      }
      r := Some(Framebuffer(framebuffer, texture, width, height, emptyData[..]));
    }

    /** The painterly branch of `resizeCanvas`: three new framebuffers of
        the given size, made in turn, replace the old ones. */
    method RecreateFramebuffers(width: nat, height: nat, gl: (GlOutcome, GlOutcome, GlOutcome))
      modifies this`planetFB, this`tensorFB, this`kuwaharaFB, this`framebuffersMade, this`texturesMade
      ensures planetFB.Some? == (gl.0.framebufferMade && gl.0.textureMade && gl.0.complete)
      ensures tensorFB.Some? == (gl.1.framebufferMade && gl.1.textureMade && gl.1.complete)
      ensures kuwaharaFB.Some? == (gl.2.framebufferMade && gl.2.textureMade && gl.2.complete)
      ensures Apart3(planetFB, tensorFB, kuwaharaFB)
      ensures MadeBetween(planetFB, old(framebuffersMade), framebuffersMade, old(texturesMade), texturesMade, width, height)
      ensures MadeBetween(tensorFB, old(framebuffersMade), framebuffersMade, old(texturesMade), texturesMade, width, height)
      ensures MadeBetween(kuwaharaFB, old(framebuffersMade), framebuffersMade, old(texturesMade), texturesMade, width, height)
      ensures framebuffersMade == old(framebuffersMade) + Made(gl, true)
      ensures texturesMade == old(texturesMade) + Made(gl, false)
    {
      ghost var f0, t0 := framebuffersMade, texturesMade;
      var planet := CreateFramebuffer(width, height, gl.0);
      ghost var f1, t1 := framebuffersMade, texturesMade;
      var tensor := CreateFramebuffer(width, height, gl.1);
      ghost var f2, t2 := framebuffersMade, texturesMade;
      var kuwahara := CreateFramebuffer(width, height, gl.2);
      planetFB, tensorFB, kuwaharaFB := planet, tensor, kuwahara;
      MadeInTurn(planet, tensor, kuwahara, f0, f1, f2, framebuffersMade,
                 t0, t1, t2, texturesMade, width, height);
    }

    /** `resizeCanvas`. Without a mounted canvas it does nothing; otherwise the
        canvas's backing store becomes `width` x `height` (its CSS size times
        the device pixel ratio) and, with the painterly effect on, all three
        framebuffers are made anew, whether or not the size changed, and the
        old ones are dropped without being deleted. */
    method ResizeCanvas(mounted: bool, width: nat, height: nat, gl: (GlOutcome, GlOutcome, GlOutcome))
      requires Valid()
      modifies this
      ensures Valid()
      ensures !mounted ==> unchanged(this)
      ensures mounted ==> canvasWidth == width && canvasHeight == height
      ensures blendEnabled == old(blendEnabled)
      ensures mounted && !enablePainterly ==>
                unchanged(this`planetFB, this`tensorFB, this`kuwaharaFB, this`framebuffersMade, this`texturesMade)
      ensures mounted && enablePainterly ==>
                && planetFB.Some? == (gl.0.framebufferMade && gl.0.textureMade && gl.0.complete)
                && tensorFB.Some? == (gl.1.framebufferMade && gl.1.textureMade && gl.1.complete)
                && kuwaharaFB.Some? == (gl.2.framebufferMade && gl.2.textureMade && gl.2.complete)
                && MadeBetween(planetFB, old(framebuffersMade), framebuffersMade, old(texturesMade), texturesMade, width, height)
                && MadeBetween(tensorFB, old(framebuffersMade), framebuffersMade, old(texturesMade), texturesMade, width, height)
                && MadeBetween(kuwaharaFB, old(framebuffersMade), framebuffersMade, old(texturesMade), texturesMade, width, height)
                && framebuffersMade == old(framebuffersMade) + Made(gl, true)
                && texturesMade == old(texturesMade) + Made(gl, false)
    {
      if !mounted {
        return;
      }
      canvasWidth, canvasHeight := width, height;
      if enablePainterly {
        RecreateFramebuffers(width, height, gl);
      }
    }

    /** One frame of `render`: nothing without a mounted canvas; otherwise
        resize, then draw the pass plan for whatever framebuffers the resize
        left, starting from the blend state the last frame left. A painterly
        frame leaves blending on; a direct frame leaves it as it was. The next
        frame is requested by the caller. */
    method Render(mounted: bool, width: nat, height: nat, gl: (GlOutcome, GlOutcome, GlOutcome))
      returns (plan: seq<Pass>)
      requires Valid()
      modifies this
      ensures Valid()
      ensures !mounted ==> plan == [] && unchanged(this)
      ensures mounted ==> canvasWidth == width && canvasHeight == height
      ensures mounted ==> plan == PassPlan(enablePainterly, planetFB, tensorFB, kuwaharaFB, paperTexture, old(blendEnabled))
      ensures mounted ==> blendEnabled == (|plan| == 4 || old(blendEnabled))
      ensures FeedsForward(plan, Held()) && NoFeedback(plan, Held())
      ensures mounted && enablePainterly ==>
                && framebuffersMade == old(framebuffersMade) + Made(gl, true)
                && texturesMade == old(texturesMade) + Made(gl, false)
                && MadeBetween(planetFB, old(framebuffersMade), framebuffersMade, old(texturesMade), texturesMade, width, height)
                && MadeBetween(tensorFB, old(framebuffersMade), framebuffersMade, old(texturesMade), texturesMade, width, height)
                && MadeBetween(kuwaharaFB, old(framebuffersMade), framebuffersMade, old(texturesMade), texturesMade, width, height)
      ensures !enablePainterly ==>
                |plan| <= 1 && framebuffersMade == old(framebuffersMade) && texturesMade == old(texturesMade)
    {
      if !mounted {
        return [];
      }
      ResizeCanvas(mounted, width, height, gl);
      plan := PassPlan(enablePainterly, planetFB, tensorFB, kuwaharaFB, paperTexture, blendEnabled);
      blendEnabled := plan[|plan| - 1].blend;
      ApartIsSeparate(planetFB, tensorFB, kuwaharaFB);
      PlanIsSound(enablePainterly, planetFB, tensorFB, kuwaharaFB, paperTexture, old(blendEnabled));
    }

    /** The effect's start-up, `resizeCanvas(); render();`: the first resize
        makes a set of framebuffers that the first frame's own resize
        replaces at once, without deleting them. */
    method Start(mounted: bool, width: nat, height: nat,
                 first: (GlOutcome, GlOutcome, GlOutcome), second: (GlOutcome, GlOutcome, GlOutcome))
      returns (plan: seq<Pass>)
      requires Valid()
      modifies this
      ensures Valid()
      ensures !mounted ==> plan == [] && unchanged(this)
      ensures mounted ==> plan == PassPlan(enablePainterly, planetFB, tensorFB, kuwaharaFB, paperTexture, old(blendEnabled))
      ensures mounted && enablePainterly ==>
                && framebuffersMade == old(framebuffersMade) + Made(first, true) + Made(second, true)
                && texturesMade == old(texturesMade) + Made(first, false) + Made(second, false)
                && MadeBetween(planetFB, old(framebuffersMade) + Made(first, true), framebuffersMade,
                               old(texturesMade) + Made(first, false), texturesMade, width, height)
                && MadeBetween(tensorFB, old(framebuffersMade) + Made(first, true), framebuffersMade,
                               old(texturesMade) + Made(first, false), texturesMade, width, height)
                && MadeBetween(kuwaharaFB, old(framebuffersMade) + Made(first, true), framebuffersMade,
                               old(texturesMade) + Made(first, false), texturesMade, width, height)
    {
      ResizeCanvas(mounted, width, height, first);
      plan := Render(mounted, width, height, second);
    }
  }

  /** How many framebuffer objects (`framebuffers`) or texture objects (not
      `framebuffers`) the three `createFramebuffer` calls of one resize make. */
  function Made(gl: (GlOutcome, GlOutcome, GlOutcome), framebuffers: bool): (n: nat)
    ensures n <= 3
    ensures (gl.0.framebufferMade && gl.1.framebufferMade && gl.2.framebufferMade) ==>
              (framebuffers ==> n == 3)
  {
    if framebuffers then
      (if gl.0.framebufferMade then 1 else 0) + (if gl.1.framebufferMade then 1 else 0)
        + (if gl.2.framebufferMade then 1 else 0)
    else
      (if gl.0.textureMade then 1 else 0) + (if gl.1.textureMade then 1 else 0)
        + (if gl.2.textureMade then 1 else 0)
  }
}
