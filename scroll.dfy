/** The footer scroll-reveal progress (`handleScroll`) and the responsive planet
    scale (`updateScale`) of src/App.tsx, as functions of the window's
    measurements. The state setters they feed are left to the caller. */
module ScrollReveal {
  import Colour

  /** The measurements `handleScroll` reads from `window` and the document. */
  datatype Viewport = Viewport(pageYOffset: real, elementScrollTop: real,
                               scrollHeight: real, innerHeight: real, innerWidth: real)

  const TabletWidth := 768.0
  const DesktopWidth := 1024.0

  /** `window.pageYOffset || document.documentElement.scrollTop`. */
  function ScrollTop(v: Viewport): (t: real)
    ensures t == v.pageYOffset || t == v.elementScrollTop
    ensures v.pageYOffset >= 0.0 && v.elementScrollTop >= 0.0 ==> t >= 0.0
  {
    if v.pageYOffset != 0.0 then v.pageYOffset else v.elementScrollTop
  }

  /** `scrollHeight - innerHeight`: how far the document can scroll. */
  function DocHeight(v: Viewport): (h: real)
    ensures v.scrollHeight >= v.innerHeight ==> h >= 0.0
  {
    v.scrollHeight - v.innerHeight
  }

  /** The length of the reveal zone: the last 150 pixels on wide windows, the
      last 100 on narrow ones. */
  function RevealDistance(innerWidth: real): (d: real)
    ensures d > 0.0
    ensures innerWidth >= TabletWidth ==> d == 150.0
    ensures innerWidth < TabletWidth ==> d == 100.0
  {
    if innerWidth >= TabletWidth then 150.0 else 100.0
  }

  /** Where the reveal zone starts, never above the top of the page. */
  function StartReveal(docHeight: real, innerWidth: real): (s: real)
    ensures s >= 0.0 && s >= docHeight - RevealDistance(innerWidth)
    ensures s == 0.0 || s == docHeight - RevealDistance(innerWidth)
  {
    if docHeight - RevealDistance(innerWidth) > 0.0 then docHeight - RevealDistance(innerWidth) else 0.0
  }

  /** The smoothstep easing `p * p * (3 - 2 * p)`: it maps [0, 1] onto [0, 1]
      and fixes both ends. */
  function Smoothstep(p: real): (e: real)
    requires 0.0 <= p <= 1.0
    ensures 0.0 <= e <= 1.0
    ensures p == 0.0 ==> e == 0.0
    ensures p == 1.0 ==> e == 1.0
  {
    Colour.MulNonNegative(p * p, 3.0 - 2.0 * p);
    Colour.MulNonNegative((1.0 - p) * (1.0 - p), 1.0 + 2.0 * p);
    assert 1.0 - p * p * (3.0 - 2.0 * p) == (1.0 - p) * (1.0 - p) * (1.0 + 2.0 * p);
    p * p * (3.0 - 2.0 * p)
  }

  /** The linear progress through the reveal zone, capped at 1. */
  function LinearProgress(scrollTop: real, docHeight: real, innerWidth: real): (p: real)
    requires scrollTop >= StartReveal(docHeight, innerWidth)
    ensures 0.0 <= p <= 1.0
  {
    var p := (scrollTop - StartReveal(docHeight, innerWidth)) / RevealDistance(innerWidth);
    if p < 1.0 then p else 1.0
  }

  /** The eased footer progress `handleScroll` hands to the state setter. */
  function FooterProgress(scrollTop: real, docHeight: real, innerWidth: real): (e: real)
    ensures 0.0 <= e <= 1.0
    ensures scrollTop < StartReveal(docHeight, innerWidth) ==> e == 0.0
    ensures scrollTop == StartReveal(docHeight, innerWidth) ==> e == 0.0
  {
    if scrollTop >= StartReveal(docHeight, innerWidth) then
      Smoothstep(LinearProgress(scrollTop, docHeight, innerWidth))
    else
      0.0
  }

  /** `handleScroll` on the current window. */
  function HandleScroll(v: Viewport): (e: real)
    ensures 0.0 <= e <= 1.0
  {
    FooterProgress(ScrollTop(v), DocHeight(v), v.innerWidth)
  }

  /** The easing never reverses: a later point of [0, 1] is eased no lower. */
  lemma SmoothstepMonotone(p: real, q: real)
    requires 0.0 <= p <= q <= 1.0
    ensures Smoothstep(p) <= Smoothstep(q)
  {
    var spread := 3.0 * (p + q) - 2.0 * (p * p + p * q + q * q);
    assert spread == p * (3.0 - 2.0 * p - q) + q * (3.0 - 2.0 * q - p);
    Colour.MulNonNegative(p, 3.0 - 2.0 * p - q);
    Colour.MulNonNegative(q, 3.0 - 2.0 * q - p);
    Colour.MulNonNegative(q - p, spread);
    assert Smoothstep(q) - Smoothstep(p) == (q - p) * spread;
  }

  /** For a fixed page and window width, scrolling further down never lowers
      the footer progress. */
  lemma FooterProgressMonotone(s1: real, s2: real, docHeight: real, innerWidth: real)
    requires s1 <= s2
    ensures FooterProgress(s1, docHeight, innerWidth) <= FooterProgress(s2, docHeight, innerWidth)
  {
    var start := StartReveal(docHeight, innerWidth);
    if s1 >= start {
      var d := RevealDistance(innerWidth);
      assert (s1 - start) / d <= (s2 - start) / d;
      SmoothstepMonotone(LinearProgress(s1, docHeight, innerWidth), LinearProgress(s2, docHeight, innerWidth));
    }
  }

  /** On a page at least one reveal zone long, the footer is fully revealed
      once the scroll position reaches the end of the document. */
  lemma FooterFullyRevealedAtEnd(scrollTop: real, docHeight: real, innerWidth: real)
    requires docHeight >= RevealDistance(innerWidth) && scrollTop >= docHeight
    ensures FooterProgress(scrollTop, docHeight, innerWidth) == 1.0
  {
    var d := RevealDistance(innerWidth);
    assert StartReveal(docHeight, innerWidth) == docHeight - d;
    assert (scrollTop - (docHeight - d)) / d >= d / d;
  }

  /** The planet's scale for a window width: 50% on desktops, 75% on tablets,
      95% on phones. */
  function PlanetScale(width: real): (s: real)
    ensures width >= DesktopWidth ==> s == 0.5
    ensures TabletWidth <= width < DesktopWidth ==> s == 0.75
    ensures width < TabletWidth ==> s == 0.95
  {
    if width >= DesktopWidth then 0.5
    else if width >= TabletWidth then 0.75
    else 0.95
  }

  /** A wider window never shows a larger planet. */
  lemma PlanetScaleNonIncreasing(w1: real, w2: real)
    requires w1 <= w2
    ensures PlanetScale(w2) <= PlanetScale(w1)
  {
  }
}
