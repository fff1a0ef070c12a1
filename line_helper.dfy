/** The line-metre helper of the calculator (app/page.tsx:219-226): silicone
    and miter lengths estimated from the room's dimensions.  Writing the
    rounded results into the calculator is `Calculator.ApplyHelper`. */
module LineHelper {
  import opened Pricing

  /** The helper's inputs (the `useState` fields at app/page.tsx:166-174):
      floor width and depth, wall height, number of external corners,
      whether the floor perimeter is sealed, the bath edge and two free
      additions, all in metres. */
  datatype HelperInputs = HelperInputs(
    width: real,
    depth: real,
    height: real,
    extCorners: real,
    perimeterOn: bool,
    bathEdge: real,
    customSilicone: real,
    customMiter: real)

  /** The helper's inputs when the page opens: a 1.7 x 1.7 m room, 2.5 m
      high, no external corners, perimeter sealed, nothing else. */
  const InitialHelper := HelperInputs(1.7, 1.7, 2.5, 0.0, true, 0.0, 0.0, 0.0)

  /** The floor perimeter, each side clamped at zero. */
  function FloorPerimeter(h: HelperInputs): (r: real)
    ensures r >= 0.0
    ensures r >= 2.0 * Clamp(h.width) && r >= 2.0 * Clamp(h.depth)
  {
    2.0 * (Clamp(h.width) + Clamp(h.depth))
  }

  /** Silicone metres: the floor perimeter when it is sealed, plus the bath
      edge and the free addition, each clamped at zero. */
  function SiliconeFromHelper(h: HelperInputs): (r: real)
    ensures r >= 0.0
    ensures r >= Clamp(h.bathEdge) && r >= Clamp(h.customSilicone)
    ensures h.perimeterOn ==> r >= FloorPerimeter(h)
  {
    (if h.perimeterOn then FloorPerimeter(h) else 0.0) + Clamp(h.bathEdge) + Clamp(h.customSilicone)
  }

  /** Miter metres: two edges of wall height per external corner, plus the
      free addition, each clamped at zero. */
  function MiterFromHelper(h: HelperInputs): (r: real)
    ensures r >= 0.0
    ensures r >= Clamp(h.customMiter)
  {
    MulNonNegative(Clamp(h.extCorners), Clamp(h.height));
    Clamp(h.extCorners) * Clamp(h.height) * 2.0 + Clamp(h.customMiter)
  }

  /** The inputs with every quantity clamped at zero. */
  function ClampedHelper(h: HelperInputs): HelperInputs {
    HelperInputs(Clamp(h.width), Clamp(h.depth), Clamp(h.height), Clamp(h.extCorners),
                 h.perimeterOn, Clamp(h.bathEdge), Clamp(h.customSilicone), Clamp(h.customMiter))
  }

  /** Negative dimensions count as zero: clamping the inputs first changes
      neither estimate. */
  lemma HelperClampingIsTransparent(h: HelperInputs)
    ensures SiliconeFromHelper(ClampedHelper(h)) == SiliconeFromHelper(h)
    ensures MiterFromHelper(ClampedHelper(h)) == MiterFromHelper(h)
  {
  }

  /** The silicone estimate ignores the corner count, the height and the
      miter addition; the miter estimate ignores the floor, the perimeter
      switch, the bath edge and the silicone addition. */
  lemma HelperOutputsIndependent(h: HelperInputs, g: HelperInputs)
    ensures h.width == g.width && h.depth == g.depth && h.perimeterOn == g.perimeterOn
            && h.bathEdge == g.bathEdge && h.customSilicone == g.customSilicone
            ==> SiliconeFromHelper(h) == SiliconeFromHelper(g)
    ensures h.extCorners == g.extCorners && h.height == g.height && h.customMiter == g.customMiter
            ==> MiterFromHelper(h) == MiterFromHelper(g)
  {
  }

  /** A wider or deeper floor never needs less silicone. */
  lemma SiliconeMonotoneInFloor(h: HelperInputs, w: real, d: real)
    requires h.width <= w && h.depth <= d
    ensures SiliconeFromHelper(h) <= SiliconeFromHelper(h.(width := w, depth := d))
  {
  }

  /** More external corners or a higher wall never need less miter. */
  lemma MiterMonotone(h: HelperInputs, corners: real, height: real)
    requires h.extCorners <= corners && h.height <= height
    ensures MiterFromHelper(h) <= MiterFromHelper(h.(extCorners := corners, height := height))
  {
    ProductMonotone(Clamp(h.extCorners), Clamp(corners), Clamp(h.height), Clamp(height));
  }

  lemma ProductMonotone(a1: real, a2: real, b1: real, b2: real)
    requires 0.0 <= a1 <= a2 && 0.0 <= b1 <= b2
    ensures a1 * b1 <= a2 * b2
  {
    MulNonNegative(a2 - a1, b1);
    MulNonNegative(a2, b2 - b1);
    assert a2 * b2 - a1 * b1 == (a2 - a1) * b1 + a2 * (b2 - b1);
  }

  /** When the page opens the helper proposes 6.8 m of silicone (the
      perimeter of the 1.7 x 1.7 m floor) and no miter. */
  lemma InitialHelperValues()
    ensures FloorPerimeter(InitialHelper) == 6.8
    ensures SiliconeFromHelper(InitialHelper) == 6.8
    ensures MiterFromHelper(InitialHelper) == 0.0
  {
  }

  /** Two external corners on a 2.5 m wall give 10 m of miter. */
  lemma TwoCornersExample(h: HelperInputs)
    requires h.extCorners == 2.0 && h.height == 2.5 && h.customMiter <= 0.0
    ensures MiterFromHelper(h) == 10.0
  {
  }
}
