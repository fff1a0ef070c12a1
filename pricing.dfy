/** The pricing block of the calculator (app/page.tsx:233-268): from the
    current price table and the visitor's selection to an itemised quote,
    with the turnkey discount, the minimum-job floor and the informational
    price per square metre. */
module Pricing {
  import opened PriceTable
  import opened Rounding

  /** The calculator's inputs (the `useState` fields at app/page.tsx:146-163).
      Quantities are JavaScript numbers and may be negative. */
  datatype Selection = Selection(
    areaType: AreaType,
    material: MaterialType,
    tileSize: TileSize,
    area: real,
    complexity: Complexity,
    withDemolition: bool,
    withPrep: bool,
    withAdhesive: bool,
    withGrout: bool,
    withWaterproofing: bool,
    waterproofingArea: real,
    linkWpToArea: bool,
    miterLm: real,
    siliconeLm: real,
    holes: real,
    gklBoxes: real,
    turnkey: bool)

  /** The cost lines of a quote, with the rate, coefficient, multiplier and
      areas they were computed from. */
  datatype Lines = Lines(
    baseRate: real,
    coeff: real,
    sizeMult: real,
    safeArea: real,
    baseCost: real,
    demolitionCost: real,
    prepCost: real,
    adhesiveCost: real,
    groutCost: real,
    wpArea: real,
    waterproofingCost: real,
    miterCost: real,
    siliconeCost: real,
    holesCost: real,
    gklCost: real)

  /** The bottom of a quote: subtotal, turnkey discount (a whole amount),
      total before and after the minimum-job floor, and whether the floor
      was applied. */
  datatype Totals = Totals(subtotal: real, discount: int, total: real, finalTotal: real, minApplied: bool)

  /** The itemised quote and the informational per-square-metre rate. */
  datatype Quote = Quote(lines: Lines, totals: Totals, perM2Work: real)

  /** `Math.max(0, x || 0)`: a quantity clamped at zero. */
  function Clamp(x: real): (r: real)
    ensures r >= 0.0
    ensures x >= 0.0 ==> r == x
    ensures x <= 0.0 ==> r == 0.0
  {
    if x > 0.0 then x else 0.0
  }

  /** The calculator's selection when the page opens: a 6 m2 bathroom in
      ceramic tile of medium size, standard layout, turnkey, with
      preparation, adhesive, grout and waterproofing (linked to the area). */
  const InitialSelection := Selection(
    Bathroom, Tile, Medium, 6.0, Normal,
    false, true, true, true, true, 6.0, true,
    0.0, 0.0, 0.0, 0.0, true)

  /** The waterproofed area: none when waterproofing is off, the main area
      when it is linked to it, its own clamped area otherwise. */
  function WaterproofingArea(s: Selection): (w: real)
    ensures !s.withWaterproofing ==> w == 0.0
    ensures s.withWaterproofing && s.linkWpToArea ==> w == Clamp(s.area)
    ensures s.withWaterproofing && !s.linkWpToArea ==> w == Clamp(s.waterproofingArea)
  {
    if s.withWaterproofing then (if s.linkWpToArea then Clamp(s.area) else Clamp(s.waterproofingArea))
    else 0.0
  }

  /** The informational work rate per square metre: the base rate with its
      coefficients plus the enabled per-area extras, waterproofing counted
      only when it follows the main area. */
  function PerM2Work(p: Prices, s: Selection): real {
    BaseRate(p, s.areaType, s.material) * Coefficient(p, s.complexity) * SizeMultiplier(p, s.tileSize)
      + AreaRate(s, p.extras)
  }

  /** The per-square-metre rates of the enabled per-area extras,
      waterproofing counted only when it follows the main area. */
  function AreaRate(s: Selection, e: Extras): real {
    (if s.withDemolition then e.demolitionPerM2 else 0.0)
    + (if s.withPrep then e.prepPerM2 else 0.0)
    + (if s.withAdhesive then e.adhesivePerM2 else 0.0)
    + (if s.withGrout then e.groutPerM2 else 0.0)
    + (if s.withWaterproofing && s.linkWpToArea then e.waterproofingPerM2 else 0.0)
  }

  /** A per-area line: area times rate when the work is selected. */
  function AreaLine(selected: bool, safeArea: real, rate: real): real {
    if selected then safeArea * rate else 0.0
  }

  /** The cost lines for a selection under a price table.  The size
      multiplier's `?? 1` fallback cannot apply here: a `Prices` value has
      every key. */
  function LineItems(p: Prices, s: Selection): (l: Lines)
    ensures l.safeArea == Clamp(s.area) && l.wpArea == WaterproofingArea(s)
  {
    var e := p.extras;
    var baseRate := BaseRate(p, s.areaType, s.material);
    var sizeMult := SizeMultiplier(p, s.tileSize);
    var coeff := Coefficient(p, s.complexity);
    var safeArea := Clamp(s.area);
    var wpArea := WaterproofingArea(s);
    Lines(
      baseRate, coeff, sizeMult, safeArea,
      safeArea * baseRate * coeff * sizeMult,
      AreaLine(s.withDemolition, safeArea, e.demolitionPerM2),
      AreaLine(s.withPrep, safeArea, e.prepPerM2),
      AreaLine(s.withAdhesive, safeArea, e.adhesivePerM2),
      AreaLine(s.withGrout, safeArea, e.groutPerM2),
      wpArea,
      wpArea * e.waterproofingPerM2,
      Clamp(s.miterLm) * e.miterPerLm,
      Clamp(s.siliconeLm) * e.siliconePerLm,
      Clamp(s.holes) * e.holePerEach,
      Clamp(s.gklBoxes) * e.gklBoxPerEach)
  }

  /** The sum of the five per-area extras. */
  function AreaExtras(l: Lines): real {
    l.demolitionCost + l.prepCost + l.adhesiveCost + l.groutCost + l.waterproofingCost
  }

  /** The sum of the four linear and count extras. */
  function UnitExtras(l: Lines): real {
    l.miterCost + l.siliconeCost + l.holesCost + l.gklCost
  }

  function Subtotal(l: Lines): real {
    l.baseCost + AreaExtras(l) + UnitExtras(l)
  }

  /** Discount, total and minimum-job floor (app/page.tsx:255-258).  The
      discount is `Math.round(subtotal * pct / 100)` for a turnkey job and 0
      otherwise; the total never goes below 0; the final total never goes
      below the minimum job, and the floor is reported exactly when it
      raised the price. */
  function Settle(subtotal: real, e: Extras, turnkey: bool): (t: Totals)
    ensures t.subtotal == subtotal
    ensures !turnkey ==> t.discount == 0
    ensures turnkey ==> t.discount as real - 0.5 <= subtotal * e.packageDiscountPct / 100.0 < t.discount as real + 0.5
    ensures t.total >= 0.0 && t.total >= subtotal - t.discount as real
    ensures t.total == 0.0 || t.total == subtotal - t.discount as real
    ensures t.finalTotal >= t.total && t.finalTotal >= e.minJob
    ensures t.finalTotal == t.total || t.finalTotal == e.minJob
    ensures t.minApplied <==> t.total < e.minJob
    ensures t.minApplied ==> t.finalTotal == e.minJob
    ensures !t.minApplied ==> t.finalTotal == t.total
  {
    var discount := if turnkey then RoundHalfUp(subtotal * e.packageDiscountPct / 100.0) else 0;
    var total := if subtotal - discount as real > 0.0 then subtotal - discount as real else 0.0;
    var finalTotal := if total >= e.minJob then total else e.minJob;
    Totals(subtotal, discount, total, finalTotal, finalTotal > total)
  }

  /** The quote for a selection under a price table. */
  function ComputeQuote(p: Prices, s: Selection): Quote {
    var l := LineItems(p, s);
    Quote(l, Settle(Subtotal(l), p.extras, s.turnkey), PerM2Work(p, s))
  }

  /** The selection with every numeric input clamped at zero. */
  function Clamped(s: Selection): Selection {
    s.(area := Clamp(s.area), waterproofingArea := Clamp(s.waterproofingArea),
       miterLm := Clamp(s.miterLm), siliconeLm := Clamp(s.siliconeLm),
       holes := Clamp(s.holes), gklBoxes := Clamp(s.gklBoxes))
  }

  /** Negative quantities are never rejected: they price exactly like 0. */
  lemma ClampingIsTransparent(p: Prices, s: Selection)
    ensures ComputeQuote(p, Clamped(s)) == ComputeQuote(p, s)
  {
    assert WaterproofingArea(Clamped(s)) == WaterproofingArea(s);
    assert LineItems(p, Clamped(s)) == LineItems(p, s);
    PerM2WorkIndependent(p, Clamped(s), s);
    SameLinesSameQuote(p, Clamped(s), s);
  }

  /** A quote is fixed by its cost lines, its per-square-metre rate and the
      turnkey flag. */
  lemma SameLinesSameQuote(p: Prices, s: Selection, t: Selection)
    requires LineItems(p, s) == LineItems(p, t) && PerM2Work(p, s) == PerM2Work(p, t)
    requires s.turnkey == t.turnkey
    ensures ComputeQuote(p, s) == ComputeQuote(p, t)
  {
  }

  /** In particular a negative area gives the quote of area 0. */
  lemma NegativeAreaIsZero(p: Prices, s: Selection)
    requires s.area <= 0.0
    ensures ComputeQuote(p, s) == ComputeQuote(p, s.(area := 0.0))
  {
    ClampingIsTransparent(p, s);
    ClampingIsTransparent(p, s.(area := 0.0));
  }

  /** A product of four non-negative factors is non-negative. */
  lemma NonNegativeProduct(a: real, b: real, c: real, d: real)
    requires a >= 0.0 && b >= 0.0 && c >= 0.0 && d >= 0.0
    ensures a * b * c * d >= 0.0
  {
    assert a * b >= 0.0;
    assert a * b * c >= 0.0;
  }

  /** The entries of a valid table the pricing reads are non-negative. */
  lemma ValidRates(p: Prices, s: Selection)
    requires ValidTable(p)
    ensures BaseRate(p, s.areaType, s.material) >= 0.0
    ensures Coefficient(p, s.complexity) >= 0.0 && SizeMultiplier(p, s.tileSize) >= 0.0
    ensures var e := p.extras;
      e.demolitionPerM2 >= 0.0 && e.prepPerM2 >= 0.0 && e.adhesivePerM2 >= 0.0
      && e.groutPerM2 >= 0.0 && e.waterproofingPerM2 >= 0.0
      && e.miterPerLm >= 0.0 && e.siliconePerLm >= 0.0 && e.holePerEach >= 0.0
      && e.gklBoxPerEach >= 0.0 && 0.0 <= e.packageDiscountPct <= 100.0 && e.minJob >= 0.0
  {
    assert Get(p, BaseKey(s.areaType, s.material)) >= 0.0;
    assert Get(p, CoefficientKey(s.complexity)) >= 0.0;
    assert Get(p, SizeKey(s.tileSize)) >= 0.0;
    forall n ensures Extra(p.extras, n) >= 0.0 {
      assert Get(p, ExtraKey(n)) >= 0.0;
    }
    assert Extra(p.extras, DemolitionPerM2) >= 0.0 && Extra(p.extras, PrepPerM2) >= 0.0;
    assert Extra(p.extras, AdhesivePerM2) >= 0.0 && Extra(p.extras, GroutPerM2) >= 0.0;
    assert Extra(p.extras, WaterproofingPerM2) >= 0.0 && Extra(p.extras, MiterPerLm) >= 0.0;
    assert Extra(p.extras, SiliconePerLm) >= 0.0 && Extra(p.extras, HolePerEach) >= 0.0;
    assert Extra(p.extras, GklBoxPerEach) >= 0.0 && Extra(p.extras, PackageDiscountPct) >= 0.0;
    assert Extra(p.extras, MinJob) >= 0.0;
  }

  /** With a valid table every cost line is non-negative. */
  lemma LinesNonNegative(p: Prices, s: Selection)
    requires ValidTable(p)
    ensures var l := LineItems(p, s);
      l.baseCost >= 0.0 && l.demolitionCost >= 0.0 && l.prepCost >= 0.0
      && l.adhesiveCost >= 0.0 && l.groutCost >= 0.0 && l.waterproofingCost >= 0.0
      && l.miterCost >= 0.0 && l.siliconeCost >= 0.0 && l.holesCost >= 0.0 && l.gklCost >= 0.0
  {
    var l := LineItems(p, s);
    var e := p.extras;
    ValidRates(p, s);
    NonNegativeProduct(l.safeArea, l.baseRate, l.coeff, l.sizeMult);
  }

  /** With a valid table the subtotal, the discount and the per-square-metre
      rate are non-negative too. */
  lemma QuoteNonNegative(p: Prices, s: Selection)
    requires ValidTable(p)
    ensures var q := ComputeQuote(p, s);
      q.totals.subtotal >= 0.0 && q.totals.discount >= 0 && q.perM2Work >= 0.0
  {
    var q := ComputeQuote(p, s);
    var e := p.extras;
    LinesNonNegative(p, s);
    ValidRates(p, s);
    assert q.totals.subtotal >= 0.0;
    if s.turnkey {
      MulNonNegative(q.totals.subtotal, e.packageDiscountPct);
    }
    NonNegativeProduct(1.0, q.lines.baseRate, q.lines.coeff, q.lines.sizeMult);
  }

  /** When waterproofing is linked to the main area, the separately entered
      waterproofing area has no effect on the quote. */
  lemma LinkedWaterproofingIgnoresOwnArea(p: Prices, s: Selection, w: real)
    requires s.linkWpToArea
    ensures ComputeQuote(p, s.(waterproofingArea := w)) == ComputeQuote(p, s)
  {
    var t := s.(waterproofingArea := w);
    assert WaterproofingArea(t) == WaterproofingArea(s);
    assert LineItems(p, t) == LineItems(p, s);
    PerM2WorkIndependent(p, t, s);
    SameLinesSameQuote(p, t, s);
  }

  /** Waterproofing costs nothing when switched off, whatever the areas. */
  lemma WaterproofingOffIsFree(p: Prices, s: Selection)
    requires !s.withWaterproofing
    ensures ComputeQuote(p, s).lines.waterproofingCost == 0.0
  {
  }

  /** Linking waterproofing to a 10 m2 area charges 10 m2 of waterproofing
      even when the separate waterproofing area holds 3. */
  lemma LinkedWaterproofingExample(p: Prices, s: Selection)
    requires s.withWaterproofing && s.linkWpToArea && s.area == 10.0 && s.waterproofingArea == 3.0
    ensures ComputeQuote(p, s).lines.waterproofingCost == 10.0 * p.extras.waterproofingPerM2
  {
  }

  /** Two selections that differ at most in the quantities the display rate
      leaves out (area, the separate waterproofing area, the linear and count
      quantities and the turnkey flag). */
  predicate SameRateInputs(s: Selection, t: Selection) {
    s.areaType == t.areaType && s.material == t.material && s.tileSize == t.tileSize
    && s.complexity == t.complexity && s.withDemolition == t.withDemolition
    && s.withPrep == t.withPrep && s.withAdhesive == t.withAdhesive
    && s.withGrout == t.withGrout && s.withWaterproofing == t.withWaterproofing
    && s.linkWpToArea == t.linkWpToArea
  }

  /** The per-square-metre rate does not depend on miter or silicone metres,
      holes, boxes, the separate waterproofing area, the area or the package. */
  lemma PerM2WorkIndependent(p: Prices, s: Selection, t: Selection)
    requires SameRateInputs(s, t)
    ensures PerM2Work(p, s) == PerM2Work(p, t)
  {
  }

  /** When waterproofing follows the main area (or is off), area times the
      per-square-metre rate is exactly the base cost plus the five per-area
      extras: the display rate and the quote do not drift apart. */
  lemma PerM2WorkMatchesAreaCosts(p: Prices, s: Selection)
    requires !s.withWaterproofing || s.linkWpToArea
    ensures var l := LineItems(p, s);
      l.safeArea * PerM2Work(p, s) == l.baseCost + AreaExtras(l)
  {
    var l := LineItems(p, s);
    var a := l.safeArea;
    var r := l.baseRate * l.coeff * l.sizeMult;
    Associate(a, l.baseRate, l.coeff, l.sizeMult);
    AreaExtrasOfLines(p, s);
    AreaCostsAtRate(s, p.extras, a, l.wpArea);
    assert a * (r + AreaRate(s, p.extras)) == a * r + a * AreaRate(s, p.extras);
  }

  /** With waterproofing following the main area (or off), the per-area
      extras are the area times their combined rate. */
  lemma AreaCostsAtRate(s: Selection, e: Extras, a: real, w: real)
    requires !s.withWaterproofing || s.linkWpToArea
    requires w == if s.withWaterproofing then a else 0.0
    ensures AreaCosts(s, e, a, w) == a * AreaRate(s, e)
  {
    AreaLineScales(s.withDemolition, a, e.demolitionPerM2);
    AreaLineScales(s.withPrep, a, e.prepPerM2);
    AreaLineScales(s.withAdhesive, a, e.adhesivePerM2);
    AreaLineScales(s.withGrout, a, e.groutPerM2);
    AreaLineScales(s.withWaterproofing, a, e.waterproofingPerM2);
    assert w * e.waterproofingPerM2 == AreaLine(s.withWaterproofing, a, e.waterproofingPerM2);
    Distribute(a, if s.withDemolition then e.demolitionPerM2 else 0.0,
               if s.withPrep then e.prepPerM2 else 0.0,
               if s.withAdhesive then e.adhesivePerM2 else 0.0,
               if s.withGrout then e.groutPerM2 else 0.0,
               if s.withWaterproofing then e.waterproofingPerM2 else 0.0);
  }

  lemma AreaLineScales(selected: bool, a: real, rate: real)
    ensures AreaLine(selected, a, rate) == a * (if selected then rate else 0.0)
  {
  }

  lemma Associate(a: real, b: real, c: real, d: real)
    ensures a * b * c * d == a * (b * c * d)
  {
  }

  lemma Distribute(a: real, x1: real, x2: real, x3: real, x4: real, x5: real)
    ensures a * (x1 + x2 + x3 + x4 + x5) == a * x1 + a * x2 + a * x3 + a * x4 + a * x5
  {
  }

  /** Everything but the area held fixed, a larger area never lowers the
      subtotal (with a valid table). */
  lemma SubtotalMonotoneInArea(p: Prices, s: Selection, a1: real, a2: real)
    requires ValidTable(p) && a1 <= a2
    ensures Subtotal(LineItems(p, s.(area := a1))) <= Subtotal(LineItems(p, s.(area := a2)))
  {
    var l1, l2 := LineItems(p, s.(area := a1)), LineItems(p, s.(area := a2));
    ValidRates(p, s);
    BaseCostMonotone(p, s, a1, a2);
    AreaExtrasMonotone(p, s, a1, a2);
    assert UnitExtras(l1) == UnitExtras(l2);
  }

  lemma BaseCostMonotone(p: Prices, s: Selection, a1: real, a2: real)
    requires ValidTable(p) && a1 <= a2
    ensures LineItems(p, s.(area := a1)).baseCost <= LineItems(p, s.(area := a2)).baseCost
  {
    var l1, l2 := LineItems(p, s.(area := a1)), LineItems(p, s.(area := a2));
    ValidRates(p, s);
    var r := l1.baseRate * l1.coeff * l1.sizeMult;
    NonNegativeProduct(1.0, l1.baseRate, l1.coeff, l1.sizeMult);
    Associate(l1.safeArea, l1.baseRate, l1.coeff, l1.sizeMult);
    Associate(l2.safeArea, l2.baseRate, l2.coeff, l2.sizeMult);
    ScaleMonotone(l1.safeArea, l2.safeArea, r);
  }

  lemma AreaExtrasMonotone(p: Prices, s: Selection, a1: real, a2: real)
    requires ValidTable(p) && a1 <= a2
    ensures AreaExtras(LineItems(p, s.(area := a1))) <= AreaExtras(LineItems(p, s.(area := a2)))
  {
    var s1, s2 := s.(area := a1), s.(area := a2);
    ValidRates(p, s);
    assert Clamp(a1) <= Clamp(a2);
    assert WaterproofingArea(s1) <= WaterproofingArea(s2);
    AreaExtrasOfLines(p, s1);
    AreaExtrasOfLines(p, s2);
    AreaCostsMonotone(s, p.extras, Clamp(a1), Clamp(a2), WaterproofingArea(s1), WaterproofingArea(s2));
  }

  /** The five per-area extras of a selection, for given main and
      waterproofing areas. */
  function AreaCosts(s: Selection, e: Extras, safeArea: real, wpArea: real): real {
    AreaLine(s.withDemolition, safeArea, e.demolitionPerM2)
    + AreaLine(s.withPrep, safeArea, e.prepPerM2)
    + AreaLine(s.withAdhesive, safeArea, e.adhesivePerM2)
    + AreaLine(s.withGrout, safeArea, e.groutPerM2)
    + wpArea * e.waterproofingPerM2
  }

  lemma AreaExtrasOfLines(p: Prices, s: Selection)
    ensures AreaExtras(LineItems(p, s)) == AreaCosts(s, p.extras, Clamp(s.area), WaterproofingArea(s))
  {
  }

  lemma AreaCostsMonotone(s: Selection, e: Extras, a1: real, a2: real, w1: real, w2: real)
    requires a1 <= a2 && w1 <= w2
    requires e.demolitionPerM2 >= 0.0 && e.prepPerM2 >= 0.0 && e.adhesivePerM2 >= 0.0
    requires e.groutPerM2 >= 0.0 && e.waterproofingPerM2 >= 0.0
    ensures AreaCosts(s, e, a1, w1) <= AreaCosts(s, e, a2, w2)
  {
    AreaLineMonotone(s.withDemolition, a1, a2, e.demolitionPerM2);
    AreaLineMonotone(s.withPrep, a1, a2, e.prepPerM2);
    AreaLineMonotone(s.withAdhesive, a1, a2, e.adhesivePerM2);
    AreaLineMonotone(s.withGrout, a1, a2, e.groutPerM2);
    ScaleMonotone(w1, w2, e.waterproofingPerM2);
    SumMonotone(AreaLine(s.withDemolition, a1, e.demolitionPerM2), AreaLine(s.withDemolition, a2, e.demolitionPerM2),
                AreaLine(s.withPrep, a1, e.prepPerM2), AreaLine(s.withPrep, a2, e.prepPerM2),
                AreaLine(s.withAdhesive, a1, e.adhesivePerM2), AreaLine(s.withAdhesive, a2, e.adhesivePerM2),
                AreaLine(s.withGrout, a1, e.groutPerM2), AreaLine(s.withGrout, a2, e.groutPerM2),
                w1 * e.waterproofingPerM2, w2 * e.waterproofingPerM2);
  }

  lemma SumMonotone(u1: real, v1: real, u2: real, v2: real, u3: real, v3: real,
                    u4: real, v4: real, u5: real, v5: real)
    requires u1 <= v1 && u2 <= v2 && u3 <= v3 && u4 <= v4 && u5 <= v5
    ensures u1 + u2 + u3 + u4 + u5 <= v1 + v2 + v3 + v4 + v5
  {
  }

  lemma ScaleMonotone(a1: real, a2: real, rate: real)
    requires a1 <= a2 && rate >= 0.0
    ensures a1 * rate <= a2 * rate
  {
    MulNonNegative(a2 - a1, rate);
  }

  lemma AreaLineMonotone(selected: bool, a1: real, a2: real, rate: real)
    requires a1 <= a2 && rate >= 0.0
    ensures AreaLine(selected, a1, rate) <= AreaLine(selected, a2, rate)
  {
    ScaleMonotone(a1, a2, rate);
  }

  /** The pre-floor total can fall when the area grows (the rounded discount
      may jump by one), but by less than one currency unit; so can the final
      total. */
  lemma TotalNearlyMonotoneInArea(p: Prices, s: Selection, a1: real, a2: real)
    requires ValidTable(p) && a1 <= a2
    ensures ComputeQuote(p, s.(area := a2)).totals.total > ComputeQuote(p, s.(area := a1)).totals.total - 1.0
    ensures ComputeQuote(p, s.(area := a2)).totals.finalTotal > ComputeQuote(p, s.(area := a1)).totals.finalTotal - 1.0
  {
    var x1, x2 := Subtotal(LineItems(p, s.(area := a1))), Subtotal(LineItems(p, s.(area := a2)));
    SubtotalMonotoneInArea(p, s, a1, a2);
    ValidRates(p, s);
    SettleNearlyMonotone(x1, x2, p.extras, s.turnkey);
  }

  /** Settling a larger subtotal never gives a total lower by one unit or
      more, provided the discount is between 0% and 100%. */
  lemma SettleNearlyMonotone(x1: real, x2: real, e: Extras, turnkey: bool)
    requires x1 <= x2 && 0.0 <= e.packageDiscountPct <= 100.0
    ensures Settle(x2, e, turnkey).total > Settle(x1, e, turnkey).total - 1.0
    ensures Settle(x2, e, turnkey).finalTotal > Settle(x1, e, turnkey).finalTotal - 1.0
  {
    var t1, t2 := Settle(x1, e, turnkey), Settle(x2, e, turnkey);
    SettleDiscountGap(x1, x2, e, turnkey);
    FloorNearlyMonotone(x1, x2, t1.discount as real, t2.discount as real,
                        t1.total, t2.total, t1.finalTotal, t2.finalTotal, e.minJob);
  }

  /** The discounts of two subtotals differ by less than the subtotals plus
      one. */
  lemma SettleDiscountGap(x1: real, x2: real, e: Extras, turnkey: bool)
    requires x1 <= x2 && 0.0 <= e.packageDiscountPct <= 100.0
    ensures (Settle(x2, e, turnkey).discount - Settle(x1, e, turnkey).discount) as real < x2 - x1 + 1.0
  {
    if turnkey {
      var pct := e.packageDiscountPct;
      var y1, y2 := x1 * pct / 100.0, x2 * pct / 100.0;
      DiscountGap(x1, x2, pct, y1, y2);
      RoundHalfUpGap(y1, y2);
      assert Settle(x1, e, turnkey).discount == RoundHalfUp(y1);
      assert Settle(x2, e, turnkey).discount == RoundHalfUp(y2);
    }
  }

  /** The arithmetic of the floors, once the discounts are known to differ
      by less than the subtotals plus one. */
  lemma FloorNearlyMonotone(x1: real, x2: real, d1: real, d2: real,
                            t1: real, t2: real, f1: real, f2: real, m: real)
    requires x2 - d2 > x1 - d1 - 1.0
    requires t1 >= 0.0 && t1 >= x1 - d1 && (t1 == 0.0 || t1 == x1 - d1)
    requires t2 >= 0.0 && t2 >= x2 - d2
    requires f1 >= t1 && f1 >= m && (f1 == t1 || f1 == m)
    requires f2 >= t2 && f2 >= m
    ensures t2 > t1 - 1.0 && f2 > f1 - 1.0
  {
  }

  /** A share of at most 100% of a gap is no larger than the gap. */
  lemma DiscountGap(x1: real, x2: real, pct: real, y1: real, y2: real)
    requires x1 <= x2 && 0.0 <= pct <= 100.0
    requires y1 == x1 * pct / 100.0 && y2 == x2 * pct / 100.0
    ensures y1 <= y2 && y2 - y1 <= x2 - x1
  {
    MulNonNegative(x2 - x1, pct);
    MulNonNegative(x2 - x1, 100.0 - pct);
    assert y2 - y1 == (x2 - x1) * pct / 100.0;
  }

  lemma MulNonNegative(a: real, b: real)
    requires a >= 0.0 && b >= 0.0
    ensures a * b >= 0.0
  {
  }

  /** A concrete case where a larger area gives a lower final price: with the
      defaults, a bare turnkey bathroom tiling of 10.5751 m2 costs 12055.12,
      one of 10.5749 m2 costs 12055.88 (the 5% discount rounds from 634.49
      down to 634 but from 634.51 up to 635). */
  lemma FinalTotalNotMonotoneInArea()
    ensures ComputeQuote(InitialPrices, BareBathroom.(area := 10.5749)).totals.finalTotal == 12055.88
    ensures ComputeQuote(InitialPrices, BareBathroom.(area := 10.5751)).totals.finalTotal == 12055.12
  {
    SmallerBareBathroom();
    LargerBareBathroom();
  }

  lemma SmallerBareBathroom()
    ensures ComputeQuote(InitialPrices, BareBathroom.(area := 10.5749)).totals.finalTotal == 12055.88
  {
    assert 10.5749 * 1200.0 == 12689.88;
    BareBathroomFinal(10.5749, 12689.88, 634);
  }

  lemma LargerBareBathroom()
    ensures ComputeQuote(InitialPrices, BareBathroom.(area := 10.5751)).totals.finalTotal == 12055.12
  {
    assert 10.5751 * 1200.0 == 12690.12;
    BareBathroomFinal(10.5751, 12690.12, 635);
  }

  /** Ceramic bathroom tiling, standard layout, medium tiles, turnkey, with no
      extras (area 0). */
  const BareBathroom := Selection(Bathroom, Tile, Medium, 0.0, Normal,
                                  false, false, false, false, false, 0.0, true,
                                  0.0, 0.0, 0.0, 0.0, true)

  /** With the defaults such a job is settled on 1200 per square metre. */
  lemma BareBathroomTotals(a: real)
    requires a >= 0.0
    ensures ComputeQuote(InitialPrices, BareBathroom.(area := a)).totals
         == Settle(a * 1200.0, InitialPrices.extras, true)
  {
    assert LineItems(InitialPrices, BareBathroom.(area := a))
        == Lines(1200.0, 1.0, 1.0, a, a * 1200.0, 0.0, 0.0, 0.0, 0.0, 0.0, 0.0, 0.0, 0.0, 0.0, 0.0);
  }

  /** With the defaults, a turnkey subtotal whose 5% rounds to `d` and that
      stays above the minimum job once `d` is taken off. */
  lemma SettleAtDefaults(x: real, d: int)
    requires d as real - 0.5 <= x * 5.0 / 100.0 < d as real + 0.5
    requires x - d as real >= 12000.0
    ensures Settle(x, InitialPrices.extras, true) == Totals(x, d, x - d as real, x - d as real, false)
  {
    RoundHalfUpUnique(x * 5.0 / 100.0, d);
  }

  lemma BareBathroomFinal(a: real, x: real, d: int)
    requires a >= 0.0 && x == a * 1200.0
    requires d as real - 0.5 <= x * 5.0 / 100.0 < d as real + 0.5
    requires x - d as real >= 12000.0
    ensures ComputeQuote(InitialPrices, BareBathroom.(area := a)).totals.finalTotal == x - d as real
  {
    BareBathroomTotals(a);
    SettleAtDefaults(x, d);
  }

  /** Any table whose standard coefficient and medium multiplier are 1 (the
      defaults are) prices a standard, medium-tile job at area times rate. */
  lemma NeutralBaseCost(p: Prices, s: Selection)
    requires Coefficient(p, Normal) == 1.0 && SizeMultiplier(p, Medium) == 1.0
    requires s.complexity == Normal && s.tileSize == Medium
    ensures ComputeQuote(p, s).lines.baseCost == Clamp(s.area) * BaseRate(p, s.areaType, s.material)
  {
  }

  /** With the defaults, a job with no area and no linear or count work is
      priced at the minimum job, 12000, and the floor is reported. */
  lemma MinimumJobApplies(s: Selection)
    requires s.area <= 0.0 && s.miterLm <= 0.0 && s.siliconeLm <= 0.0
    requires s.holes <= 0.0 && s.gklBoxes <= 0.0
    requires !s.withWaterproofing || s.linkWpToArea || s.waterproofingArea <= 0.0
    ensures ComputeQuote(InitialPrices, s).totals.finalTotal == 12000.0
    ensures ComputeQuote(InitialPrices, s).totals.minApplied
  {
    var l := LineItems(InitialPrices, s);
    assert l.safeArea == 0.0 && l.wpArea == 0.0;
    assert l.baseCost == 0.0;
    assert AreaExtras(l) == 0.0;
    assert UnitExtras(l) == 0.0;
    var t := Settle(0.0, InitialPrices.extras, s.turnkey);
    assert t.total == 0.0;
  }

  /** The quote shown when the page opens, with the default prices:
      7200 base, 7500 in extras, 735 off, 13965 to pay, no floor. */
  lemma InitialQuote()
    ensures var q := ComputeQuote(InitialPrices, InitialSelection);
      q.lines.baseCost == 7200.0 && AreaExtras(q.lines) == 7500.0
      && q.totals.subtotal == 14700.0 && q.totals.discount == 735
      && q.totals.total == 13965.0 && q.totals.finalTotal == 13965.0 && !q.totals.minApplied
  {
    assert LineItems(InitialPrices, InitialSelection)
        == Lines(1200.0, 1.0, 1.0, 6.0, 7200.0, 0.0, 2700.0, 1500.0, 1200.0, 6.0, 2100.0, 0.0, 0.0, 0.0, 0.0);
    RoundHalfUpUnique(14700.0 * 5.0 / 100.0, 735);
    assert Settle(14700.0, InitialPrices.extras, true) == Totals(14700.0, 735, 13965.0, 13965.0, false);
  }

  /** The same job with demolition too: 17700 before the discount of 885,
      16815 to pay. */
  lemma InitialQuoteWithDemolition()
    ensures var q := ComputeQuote(InitialPrices, InitialSelection.(withDemolition := true));
      q.totals.subtotal == 17700.0 && q.totals.discount == 885
      && q.totals.total == 16815.0 && q.totals.finalTotal == 16815.0 && !q.totals.minApplied
  {
    assert LineItems(InitialPrices, InitialSelection.(withDemolition := true))
        == Lines(1200.0, 1.0, 1.0, 6.0, 7200.0, 3000.0, 2700.0, 1500.0, 1200.0, 6.0, 2100.0, 0.0, 0.0, 0.0, 0.0);
    RoundHalfUpUnique(17700.0 * 5.0 / 100.0, 885);
    assert Settle(17700.0, InitialPrices.extras, true) == Totals(17700.0, 885, 16815.0, 16815.0, false);
  }
}
