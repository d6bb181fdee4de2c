# Fundraiser site core: handlers, painterly filter, scroll reveal

This project models, in Dafny, the logic of a fundraiser website's three
self-contained pieces and proves what they promise.

- **The serverless handlers.** `api/create-checkout-session.js` turns a donation request into a card-payment
  checkout session. `api/subscribe.js` adds an address to the mailing list. Each handler is a
  pure function of the HTTP method, the request body, the environment and
  what the payment or mailing-list provider did. It returns the provider call
  it makes (if any) and the response it writes. JavaScript values that may be
  `undefined` or `null` are kept as such (`Http.Js`), with JavaScript
  truthiness, `||` defaults and destructuring defaults.
- **The painterly post-processing of `src/components/PostProcessing.tsx`.**
  - The Sobel structure tensor (`TensorPass`).
  - The anisotropic Kuwahara filter (`KuwaharaPass`). This covers the
    polynomial sample weights, the per-sector weighted mean and variance
    accumulated by nested loops, the selection of the sector with least
    variance, and the sRGB encoding `fromLinear` of the written pixel.
  - The composition grade (`Composition`): posterise, tone mix, saturation,
    ACES tone curve, content mask and paper modulation.
  - The zero-filled initial contents of each framebuffer (`Framebuffers`).
  - The frame loop (`RenderLoop`). Framebuffer creation, canvas resizing
    and the pass plan of each frame are modelled on a `Renderer` class whose
    framebuffer variables and the context's `BLEND` state are updated in
    place.

  Shader arithmetic is over exact reals. Colours are `Vec3` triples.
- **The scroll-reveal footer progress and the responsive planet scale** of
  `src/App.tsx` (`ScrollReveal`).

Texture reads and trigonometry are parameters of the filter functions:
- `colourAt` stands for `sampleColor`;
- `dirOf` stands for `vec2(cos θ, sin θ)`;
- `gammaRoot` stands for `pow(x, 1.0 / 2.4)` inside `fromLinear`;
- the normalised dominant orientation and the eigenvalue square root are inputs.

The WebGL context is reduced to what it hands out: whether each
`createFramebuffer` call gets its objects and a complete framebuffer is a
`GlOutcome` input.

## Model

| member | source | states |
|---|---|---|
| CheckoutSession.Handle | api/create-checkout-session.js:3-48 | a method other than POST gives 405 with no session; a session is requested exactly when the method is POST, the body is an object and the amount is truthy and at least 1; a null or undefined body gives the 500 error with the destructuring TypeError's message; an invalid amount gives 400 "Invalid amount"; a created session gives 200 with its id and url; a provider error gives the 500 error; the status is 200 exactly when a session was created |
| CheckoutSession.AmountGuardRejectsInvalid | api/create-checkout-session.js:11-13 | the guard `!amount \|\| amount < 1` rejects exactly the amounts that are missing, null, NaN, zero or below one |
| CheckoutSession.MathRound | api/create-checkout-session.js:25 | `Math.round` gives the integer within half of its argument, rounding halves up |
| CheckoutSession.BaseUrl | api/create-checkout-session.js:31-32 | `VITE_APP_URL` when it is set and non-empty, so the URL is not empty; otherwise the Origin header as a template literal renders it, which is the text "undefined" or "null" when the header is missing or null |
| CheckoutSession.SessionRequest | api/create-checkout-session.js:15-39 | card payment in "payment" mode; one line item of quantity 1; currency defaults to "usd" only when undefined; the fixed product name and description; unit amount is the amount in cents, rounded, and at least 100; success and cancel URLs are built on `VITE_APP_URL` or else the Origin header; customer email is the donor's email or undefined; metadata fields are the donor's fields or "" |
| CheckoutSession.WholeAmountInCents | api/create-checkout-session.js:25 | a whole-dollar amount `n` is charged exactly `100 n` cents |
| CheckoutSession.ErrorDetailOnlyInDevelopment | api/create-checkout-session.js:42-47 | a provider error's message reaches the client only when `NODE_ENV` is "development"; otherwise the client sees "Internal server error" |
| CheckoutSession.DonationOfTwentyFive | api/create-checkout-session.js:8-41 | a 25-dollar donation with only an email is charged 2500 cents; its success URL is built on the Origin header; the email is the customer email and the only non-empty metadata; the response is 200 with the session id and url |
| Subscribe.Configure | api/subscribe.js:3-6 | the client uses the configured API key and the server prefix, or "us1" when it is unset or empty |
| Subscribe.TagsToSend | api/subscribe.js:32 | non-empty tags are sent as given; an empty list becomes `["fundraiser-donor"]` |
| Subscribe.NewMember | api/subscribe.js:25-33 | the member has the given address, status "subscribed", first and last names or "", and the request tags (absent tags default to the single default tag) |
| Subscribe.Handle | api/subscribe.js:8-55 | a method other than POST gives 405 with no call; the provider is called exactly when the method is POST, the body is an object, the email is truthy, a list ID is configured and tags are not null; a missing email gives 400 before the list ID is checked; a missing list ID gives 500 "Mailchimp list ID not configured"; a null or undefined body and null tags give the 500 error; an added member gives 200 with its id; "Member Exists" with status 400 gives 200 `alreadyExists`; every other provider error gives the 500 error with detail only in development |
| Subscribe.SuccessExactlyWhenAddedOrExisting | api/subscribe.js:35-54 | the response is 200 exactly when the provider was called and either added the member or reported it already exists |
| Subscribe.RepeatSignupIsSuccess | api/subscribe.js:43-49 | signing the same address up twice makes the same provider call both times, and both attempts succeed, the second as "already subscribed" |
| ScrollReveal.RevealDistance | src/App.tsx:69 | the reveal zone is 150 pixels on windows at least 768 wide, else 100 |
| ScrollReveal.StartReveal | src/App.tsx:70 | the reveal start is `max(0, docHeight - revealDistance)`, never negative |
| ScrollReveal.Smoothstep | src/App.tsx:79 | the easing maps [0, 1] into [0, 1] and fixes 0 and 1 |
| ScrollReveal.LinearProgress | src/App.tsx:74-77 | past the reveal start, the linear progress is capped to [0, 1] |
| ScrollReveal.FooterProgress | src/App.tsx:72-83 | the footer progress lies in [0, 1] and is exactly 0 before the reveal start |
| ScrollReveal.ScrollTop | src/App.tsx:63-64 | `pageYOffset || scrollTop`: one of the two offsets, never negative when neither is |
| ScrollReveal.DocHeight | src/App.tsx:65-66 | the scrollable height, not negative when the document is at least as tall as the window |
| ScrollReveal.HandleScroll | src/App.tsx:62-84 | the progress handed to the state setter lies in [0, 1] |
| ScrollReveal.SmoothstepMonotone | src/App.tsx:79 | the easing is non-decreasing on [0, 1] |
| ScrollReveal.FooterProgressMonotone | src/App.tsx:69-83 | for a fixed page and width, scrolling further never lowers the progress |
| ScrollReveal.FooterFullyRevealedAtEnd | src/App.tsx:65-79 | on a page at least one reveal zone long, the progress is 1 once the scroll position reaches the document's end |
| ScrollReveal.PlanetScale | src/App.tsx:44-53 | the scale is 0.5 from 1024 up, 0.75 from 768 below 1024, and 0.95 below 768 |
| ScrollReveal.PlanetScaleNonIncreasing | src/App.tsx:46-52 | a wider window never gets a larger planet |
| Colour.MixInUnitCube | src/components/PostProcessing.tsx:583-585 | `mix` of two colours of the unit cube with a factor in [0, 1] stays in the unit cube |
| TensorPass.SobelX | src/components/PostProcessing.tsx:395-397 | the horizontal kernel, zero on a neighbourhood that is the same on its left and right |
| TensorPass.SobelY | src/components/PostProcessing.tsx:399-400 | the vertical kernel, zero on a neighbourhood that is the same above and below |
| TensorPass.Sobel | src/components/PostProcessing.tsx:402 | the red channel's horizontal and vertical gradients, each zero when the red channel is mirror-symmetric along that axis |
| TensorPass.StructureTensor | src/components/PostProcessing.tsx:405-415 | the tensor has non-negative diagonal entries and zero determinant, so `Jxy² <= Jxx Jyy` |
| TensorPass.ZeroGradientGivesZeroTensor | src/components/PostProcessing.tsx:410-412 | no red-channel gradient gives a zero tensor |
| TensorPass.UniformRegionHasZeroTensor | src/components/PostProcessing.tsx:395-414 | both Sobel kernels vanish on a region of one colour, so its tensor is zero |
| TensorPass.TensorSeesOnlyRed | src/components/PostProcessing.tsx:402 | two neighbourhoods with the same red channel give the same tensor, whatever their green and blue |
| TensorPass.HorizontalRampTensor | src/components/PostProcessing.tsx:395-412 | a red ramp rising by `d` per column gives `Jxx = 64 d²` and `Jyy = Jxy = 0` |
| KuwaharaPass.PolynomialWeight | src/components/PostProcessing.tsx:470-473 | a sample weight is never negative and is zero on the parabola `x + eta = lambda y²` |
| KuwaharaPass.WeightIsSymmetric | src/components/PostProcessing.tsx:470-473 | mirroring a sample across the sector axis keeps its weight |
| KuwaharaPass.AngleLoopRunsFiveTimes | src/components/PostProcessing.tsx:485 | the angular loop's `k`-th value passes its guard exactly when `k < 5` |
| KuwaharaPass.Eigenvalues | src/components/PostProcessing.tsx:452-456 | the eigenvalues sum to the trace, and `lambda1 >= lambda2` for a non-negative square root |
| KuwaharaPass.Anisotropy | src/components/PostProcessing.tsx:517 | the anisotropy of a tensor with non-negative diagonal is not negative |
| KuwaharaPass.SamplingMatrix | src/components/PostProcessing.tsx:523 | `anisotropyMat`, the orientation's rotation times the axis scales; with zero anisotropy it is the bare rotation |
| KuwaharaPass.AxisScales | src/components/PostProcessing.tsx:519-521 | `scaleX scaleY = 1` whenever `anisotropy + 25 != 0`; for non-negative anisotropy the sampling ellipse is squeezed along x and stretched along y |
| KuwaharaPass.SamplingMatrixPreservesArea | src/components/PostProcessing.tsx:523 | the sampling matrix's determinant is the squared length of the orientation, so a unit orientation keeps areas |
| KuwaharaPass.SampleAt | src/components/PostProcessing.tsx:486-490 | one sample: its colour and its polynomial weight are taken at the same offset |
| KuwaharaPass.Ring | src/components/PostProcessing.tsx:485-495 | each ring holds the five samples of the angular loop |
| KuwaharaPass.SectorSamples | src/components/PostProcessing.tsx:483-496 | a sector of `n` rings holds `5 n` samples |
| KuwaharaPass.RingCount | src/components/PostProcessing.tsx:483-484 | rings run for r = 1 to min(radius, 10); none for a radius below 1 |
| KuwaharaPass.Accumulate | src/components/PostProcessing.tsx:492-494 | the accumulated total weight is never negative |
| KuwaharaPass.AccumulateSnoc | src/components/PostProcessing.tsx:492-494 | accumulating one more sample adds its weighted colour, weighted squared colour and weight |
| KuwaharaPass.Summarise | src/components/PostProcessing.tsx:498-505 | with no total weight the sector is black with variance 0; otherwise its average times the total weight is the weighted colour sum |
| KuwaharaPass.RingAt | src/components/PostProcessing.tsx:485-490 | the `k`-th sample of a ring is the colour and polynomial weight read at the offset for the angle `a = -0.392699 + k 0.196349` |
| KuwaharaPass.AccumulateRing | src/components/PostProcessing.tsx:485-495 | the angular loop adds exactly one ring's samples to the running sums |
| KuwaharaPass.SectorSums | src/components/PostProcessing.tsx:483-496 | the ring loop with its early `break` leaves the sums of exactly the samples of rings 1 to min(radius, 10) |
| KuwaharaPass.SectorVarianceAndAverage | src/components/PostProcessing.tsx:475-506 | the function yields the average and variance of the sector's samples over min(radius, 10) rings, or black and 0 with no weight |
| KuwaharaPass.UniformAccumulate | src/components/PostProcessing.tsx:492-494 | over samples of one colour `c`, the sums are `c` and `c²` times the total weight |
| KuwaharaPass.UniformSector | src/components/PostProcessing.tsx:498-501 | a sector of one colour with positive weight has that colour as average and variance 0 |
| KuwaharaPass.WeightedCauchySchwarz | src/components/PostProcessing.tsx:492-501 | per channel, `(Σ w c)² <= (Σ w)(Σ w c²)` over any sample sequence |
| KuwaharaPass.SummarisedVariance | src/components/PostProcessing.tsx:498-501 | with positive weight, the variance is the luma-weighted sum of the per-channel variances `Σ w c² / Σ w - (Σ w c / Σ w)²` |
| KuwaharaPass.SectorVarianceNonNegative | src/components/PostProcessing.tsx:498-505 | a sector's variance is never negative |
| KuwaharaPass.FirstMinIndex | src/components/PostProcessing.tsx:530-538 | the index of the least variance, and every earlier variance is strictly greater |
| KuwaharaPass.SelectSector | src/components/PostProcessing.tsx:530-538 | the strict-`<` loop picks the first sector of least variance, its variance no greater than any other's |
| KuwaharaPass.Sectors | src/components/PostProcessing.tsx:525-528 | one statistic per sector, eight in all |
| KuwaharaPass.EncodeChannel | src/components/PostProcessing.tsx:431-438 | one channel of `fromLinear`: 0 stays 0, and a value below the cut-off 0.0031308 is encoded below 0.04045, the knee of the sRGB curve |
| KuwaharaPass.KuwaharaColour | src/components/PostProcessing.tsx:508-538 | the colour `main` chooses before encoding is the average of one of the eight sectors |
| KuwaharaPass.FromLinear | src/components/PostProcessing.tsx:430-440 | `fromLinear` keeps alpha and encodes the three channels alike, so a grey stays grey |
| KuwaharaPass.FromLinearKeepsBlack | src/components/PostProcessing.tsx:430-440 | black lies below the linear cut-off and is encoded as black, whatever the power curve |
| KuwaharaPass.KuwaharaFragment | src/components/PostProcessing.tsx:540-541 | the written pixel is always opaque |
| KuwaharaPass.KuwaharaMain | src/components/PostProcessing.tsx:508-541 | the shader's `main` writes the average of the first least-variance sector among the eight, made opaque and passed through `fromLinear` |
| KuwaharaPass.AlphaUniformIsIgnored | src/components/PostProcessing.tsx:519-521 | the colour does not depend on the `alpha` uniform |
| KuwaharaPass.NoRingsGiveBlack | src/components/PostProcessing.tsx:483-505 | with a radius below 1 every pixel is opaque black, before and after `fromLinear` |
| KuwaharaPass.UniformTextureChoosesFirst | src/components/PostProcessing.tsx:525-538 | over a texture of one colour, every sector has variance 0 and the first sector's average is chosen |
| KuwaharaPass.UniformTextureKeepsColour | src/components/PostProcessing.tsx:508-541 | over a texture of one colour the pixel keeps that colour and is written as it, opaque and sRGB-encoded; if the first sector carries no weight the pixel is opaque black |
| KuwaharaPass.ChosenSectorHasLeastVariance | src/components/PostProcessing.tsx:530-538 | the chosen variance is not negative and no greater than any sector's |
| Composition.Step | src/components/PostProcessing.tsx:573 | `step` is 0 or 1, and 1 exactly when the value reaches the edge |
| Composition.ContentMask | src/components/PostProcessing.tsx:573 | the content mask is 0 or 1, and 0 for black |
| Composition.Posterise | src/components/PostProcessing.tsx:577-580 | the posterised level lies in [0.2, 0.7] |
| Composition.PosteriseMonotone | src/components/PostProcessing.tsx:579-580 | a brighter pixel never gets a lower level |
| Composition.PosteriseIsQuantised | src/components/PostProcessing.tsx:579-580 | the level is a multiple of 1/15 or the 0.7 clamp |
| Composition.PosteriseRoundsToNearest | src/components/PostProcessing.tsx:579 | between the clamps, the level is the nearest multiple of 1/15 |
| Composition.Tone | src/components/PostProcessing.tsx:582-586 | level 0 gives the shadow grey 0.1, level 0.5 keeps the colour, level 1 gives white |
| Composition.ToneStaysInUnitCube | src/components/PostProcessing.tsx:582-586 | both tone mixes have factors in [0, 1], so a colour of the unit cube stays in it |
| Composition.Sat | src/components/PostProcessing.tsx:561-565 | adjustment 1 keeps the colour, adjustment 0 gives its grey |
| Composition.SatKeepsLuminance | src/components/PostProcessing.tsx:561-565 | `sat` keeps the weighted luminance of the colour |
| Composition.SatOfGrey | src/components/PostProcessing.tsx:561-565 | `sat` leaves greys unchanged |
| Composition.AcesDenominatorPositive | src/components/PostProcessing.tsx:558 | the ACES curve's denominator is positive for every input |
| Composition.AcesChannel | src/components/PostProcessing.tsx:552-558 | the ACES curve lies in [0, 1] and maps 0 to 0 |
| Composition.AcesFilm | src/components/PostProcessing.tsx:552-559 | `ACESFilm` gives a colour of the unit cube |
| Composition.Grade | src/components/PostProcessing.tsx:575-589 | the graded colour lies in the unit cube |
| Composition.Composite | src/components/PostProcessing.tsx:567-594 | the output alpha is the content mask times the paper's alpha |
| Composition.EmptyPixelsAreTransparent | src/components/PostProcessing.tsx:572-593 | black input gives a transparent output |
| Composition.CompositeIsDisplayable | src/components/PostProcessing.tsx:567-594 | with a paper texel in range, the output colour and alpha lie in [0, 1] |
| Composition.Modulate | src/components/PostProcessing.tsx:591 | multiplying a colour and alpha in [0, 1] by a paper texel in [0, 1] keeps every channel in [0, 1] |
| Framebuffers.Transparent | src/components/PostProcessing.tsx:656-662 | the transparent image has four bytes per texel, all zero |
| Framebuffers.ZeroFilledData | src/components/PostProcessing.tsx:656-662 | a fresh buffer of `width height 4` bytes, every byte zero after the texel loop |
| Framebuffers.ClearedBufferIsTransparent | src/components/PostProcessing.tsx:656-662 | the cleared buffer is the transparent image, so every texel's alpha is 0 |
| RenderLoop.PassPlan | src/components/PostProcessing.tsx:890-1045 | four passes exactly when painterly is on and all three framebuffers and the paper exist, else one; the planet is drawn first with no inputs, and the last pass reaches the screen; after the frame blending is on if it was a painterly frame and otherwise as it was before |
| RenderLoop.PainterlyFrame | src/components/PostProcessing.tsx:890-1018 | planet, tensor, Kuwahara and final passes, in that order; the planet pass renders into the planet framebuffer; the tensor pass reads the planet and renders into the tensor framebuffer; the Kuwahara pass reads the tensor on unit 0 and the planet on unit 1 and renders into the Kuwahara framebuffer; the final pass reads the Kuwahara texture on unit 0 and the paper on unit 1; only the final pass reaches the screen; the planet and final passes blend and the other two do not; every texture read was rendered by an earlier pass; no pass reads its own target |
| RenderLoop.DirectFrame | src/components/PostProcessing.tsx:1019-1045 | otherwise one planet pass to the screen, which sets no blend state and so blends exactly when the context was left blending |
| RenderLoop.DirectFrameAfterPainterlyBlends | src/components/PostProcessing.tsx:904-1045 | a direct frame drawn after a painterly frame blends the planet onto the canvas, since the final painterly pass left `BLEND` on |
| RenderLoop.DirectFrameDependsOnHistory | src/components/PostProcessing.tsx:1022-1047 | on a context that has never blended, the direct frame's planet pass does not blend while the scene stage does, and it differs from the same frame drawn after a painterly one |
| RenderLoop.SettledPassPlan | src/components/PostProcessing.tsx:890-1047 | the frame with the direct branch enabling blending: it begins with a blended planet draw and equals the plan as written for every painterly frame |
| RenderLoop.SettledDirectFrameMatchesSceneStage | src/components/PostProcessing.tsx:898-1047 | with the settled plan, a direct frame is the scene stage's pass sent to the screen, whatever the context's previous blend state |
| RenderLoop.MadeInTurn | src/components/PostProcessing.tsx:877-881 | three framebuffers made one after another, each from GL objects newer than the previous one's, share no framebuffer or texture; all were made in the combined interval, at the canvas size, with transparent contents |
| RenderLoop.PlanIsSound | src/components/PostProcessing.tsx:884-1045 | when the held framebuffers share no framebuffer or texture, every plan of a frame feeds forward and no pass reads its own target |
| RenderLoop.Renderer.constructor | src/components/PostProcessing.tsx:852-860 | the framebuffer variables start null, no framebuffer or texture has yet been made by `createFramebuffer`, and `BLEND` has the state of the context `getContext` returned |
| RenderLoop.Renderer.CreateFramebuffer | src/components/PostProcessing.tsx:645-708 | null when the framebuffer or texture is missing or incomplete; otherwise new objects of the requested size with transparent contents; objects made before failing stay made |
| RenderLoop.Renderer.RecreateFramebuffers | src/components/PostProcessing.tsx:877-881 | each of the three framebuffer variables is non-null exactly when its `createFramebuffer` call succeeded; the three share no framebuffer or texture, are new objects of the requested size with transparent contents, and the GL object counts grow by exactly what the three calls made |
| RenderLoop.Renderer.ResizeCanvas | src/components/PostProcessing.tsx:862-882 | nothing without a canvas; otherwise the canvas takes the new size, the blend state is untouched and, with painterly on, all three framebuffers are remade even at an unchanged size, none of the old ones surviving; the renderer's invariant is kept |
| RenderLoop.Renderer.Render | src/components/PostProcessing.tsx:884-1048 | nothing without a canvas; otherwise it resizes and draws the pass plan of the framebuffers it finds, starting from the blend state the previous frame left, which feeds forward with no feedback; blending is on after a painterly frame and unchanged after a direct one; with painterly on, every frame remakes all three framebuffers and the framebuffer and texture counts each grow by what those three `createFramebuffer` calls made; with painterly off, at most one pass and no framebuffer or texture is made |
| RenderLoop.Renderer.Start | src/components/PostProcessing.tsx:1053-1054 | the start-up `resizeCanvas(); render();` makes two sets of framebuffers, keeps only the second, and draws the first frame from the initial blend state |

## Left out

- The planet scene shaders and `src/components/PlanetShader.tsx`. They are GPU floating-point numerics (a `sin`-based hash, `atan`, `acos`, `sqrt`, `exp`).
- `getDominantOrientation`'s normalisation and square root, `cos`/`sin`, `texture2D` sampling, and the power `pow(x, 1.0 / 2.4)` inside `fromLinear` (the sRGB encoding of IEC 61966-2-1). They are parameters: the orientation and the eigenvalue square root are inputs; `dirOf`, `colourAt` and `gammaRoot` are functions. `fromLinear`'s cut-off, linear segment, scale and offset are modelled.
- Shader precision. Arithmetic is over exact reals, not `mediump` floats. Texture writes are not clamped or quantised to 8-bit RGBA.
- The GLSL `for (float a ...)` loop's float stepping. The angular loop is modelled as five iterations; `AngleLoopRunsFiveTimes` shows five is what the guard allows over reals.
- Composition.ContentMask: it compares the squared length of the colour with 0.001², which equals `step(0.001, length(color))` because the square root is monotone.
- KuwaharaPass.PolynomialWeight: states non-negativity and zero on the parabola; positivity off the parabola is not stated.
- The `kuwaharaSamples` and `clearStrength` props. No shader or draw reads them; they are only dependencies of the effect (src/components/PostProcessing.tsx:1092-1093), so changing either one re-runs the whole effect on the same context, which the constructor's `blend` parameter covers. The sector count is the constant 8.
- All WebGL calls other than framebuffer creation: shader compile and link, uniform and attribute set-up, texture binding, draw calls, the blend function (always `SRC_ALPHA`, `ONE_MINUS_SRC_ALPHA` when set; the model tracks only whether `BLEND` is on), `requestAnimationFrame` and clean-up.
- Canvas sizing by `devicePixelRatio`. The new backing-store size is a parameter of `ResizeCanvas`.
- `Date.now` time uniforms.
- Paper texture generation, which uses `Math.random` and a 2D canvas. Only whether the paper texture exists is modelled.
- The Stripe and Mailchimp SDKs. Their behaviour is an outcome parameter.
- JavaScript coercions beyond those modelled. The amount is `undefined`, `null`, NaN or a finite number; string or boolean amounts are not modelled. In api/subscribe.js, `email`, `firstName` and `lastName` are strings when present; a truthy non-string, which the handler would forward as it is, is not modelled, nor a falsy non-string such as `0`. `tags` is an array of strings when present; a non-array is not modelled, though a string would be sent as it is (it has a `length`) and a number would fall back to the default tag. In api/create-checkout-session.js, the `donorInfo` fields are strings when present; other types, which would reach Stripe as they are, are not modelled.
- Float rounding of `amount * 100`. `Math.round` is over exact reals.
- The exact V8 TypeError wording. It is a fixed string in the model.
- `api/health.js`, the UI components, the confetti effect and the scroll throttling in `src/App.tsx`.

## Findings

| source | as written | input that shows it | evidently intended | confidence | as-written member | corrected member |
|---|---|---|---|---|---|---|
| src/components/PostProcessing.tsx:1022-1047 | the direct branch never sets `BLEND`, so the planet is drawn with whatever blend state earlier frames left | switch `enablePainterly` from true to false on a mounted canvas: the effect re-runs on the same context, `BLEND` is still on from the final pass (:999), and the planet is blended onto the cleared canvas; on a page that never had the effect on, the same frame is written unblended | the unstylised frame shows the scene exactly as the scene stage draws it (:902-905, blending on over a cleared target), whatever ran before | medium, not executed | RenderLoop.DirectFrameDependsOnHistory | RenderLoop.SettledPassPlan |

`Renderer` draws the plan as written, so that its frames match the code; `SettledPassPlan` and `SettledDirectFrameMatchesSceneStage` state the repaired behaviour, which enables blending at the start of the direct branch.
