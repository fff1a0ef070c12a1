/** The price table of the calculator (lib/initialPrices.ts): the four
    enumerations a selection is made of, the shape of the `Prices` record,
    and the built-in default table `initialPrices`.

    Every section of the record is a datatype with one field per key, so a
    lookup by an enumeration value is total.  `Key` names each of the 25
    numeric entries of the table, so that properties that hold "key by key"
    (the merge over the defaults, the admin editor, non-negativity) can be
    stated once for all of them. */
module PriceTable {

  datatype AreaType = Bathroom | Backsplash | Floor
  datatype MaterialType = Tile | Porcelain
  datatype Complexity = Normal | Diagonal | LargeFormat | Mosaic
  datatype TileSize = Small | Medium | Large60x120 | Xl120Plus

  /** The eleven keys of the `extras` section. */
  datatype ExtraName =
    | DemolitionPerM2 | PrepPerM2 | AdhesivePerM2 | GroutPerM2 | WaterproofingPerM2
    | MiterPerLm | SiliconePerLm | HolePerEach | GklBoxPerEach
    | PackageDiscountPct | MinJob

  datatype MaterialRates = MaterialRates(tile: real, porcelain: real)

  datatype BaseRates = BaseRates(bathroom: MaterialRates, backsplash: MaterialRates, floor: MaterialRates)

  datatype Coefficients = Coefficients(normal: real, diagonal: real, largeFormat: real, mosaic: real)

  datatype SizeMultipliers = SizeMultipliers(small: real, medium: real, large60x120: real, xl120plus: real)

  datatype Extras = Extras(
    demolitionPerM2: real,
    prepPerM2: real,
    adhesivePerM2: real,
    groutPerM2: real,
    waterproofingPerM2: real,
    miterPerLm: real,
    siliconePerLm: real,
    holePerEach: real,
    gklBoxPerEach: real,
    packageDiscountPct: real,
    minJob: real)

  datatype Prices = Prices(
    base: BaseRates,
    coefficients: Coefficients,
    sizeMultipliers: SizeMultipliers,
    extras: Extras)

  /** One numeric entry of the table. */
  datatype Key =
    | BaseKey(area: AreaType, material: MaterialType)
    | CoefficientKey(complexity: Complexity)
    | SizeKey(size: TileSize)
    | ExtraKey(name: ExtraName)

  // Lookups by enumeration value (`prices.base[areaType][material]`, ...).

  function MaterialRate(r: MaterialRates, m: MaterialType): real {
    match m
    case Tile => r.tile
    case Porcelain => r.porcelain
  }

  function AreaRates(b: BaseRates, a: AreaType): MaterialRates {
    match a
    case Bathroom => b.bathroom
    case Backsplash => b.backsplash
    case Floor => b.floor
  }

  function BaseRate(p: Prices, a: AreaType, m: MaterialType): real {
    MaterialRate(AreaRates(p.base, a), m)
  }

  function Coefficient(p: Prices, c: Complexity): real {
    match c
    case Normal => p.coefficients.normal
    case Diagonal => p.coefficients.diagonal
    case LargeFormat => p.coefficients.largeFormat
    case Mosaic => p.coefficients.mosaic
  }

  function SizeMultiplier(p: Prices, t: TileSize): real {
    match t
    case Small => p.sizeMultipliers.small
    case Medium => p.sizeMultipliers.medium
    case Large60x120 => p.sizeMultipliers.large60x120
    case Xl120Plus => p.sizeMultipliers.xl120plus
  }

  function Extra(e: Extras, n: ExtraName): real {
    match n
    case DemolitionPerM2 => e.demolitionPerM2
    case PrepPerM2 => e.prepPerM2
    case AdhesivePerM2 => e.adhesivePerM2
    case GroutPerM2 => e.groutPerM2
    case WaterproofingPerM2 => e.waterproofingPerM2
    case MiterPerLm => e.miterPerLm
    case SiliconePerLm => e.siliconePerLm
    case HolePerEach => e.holePerEach
    case GklBoxPerEach => e.gklBoxPerEach
    case PackageDiscountPct => e.packageDiscountPct
    case MinJob => e.minJob
  }

  /** The entry of the table at a key. */
  function Get(p: Prices, k: Key): real {
    match k
    case BaseKey(a, m) => BaseRate(p, a, m)
    case CoefficientKey(c) => Coefficient(p, c)
    case SizeKey(t) => SizeMultiplier(p, t)
    case ExtraKey(n) => Extra(p.extras, n)
  }

  // Single-entry updates, as the admin editor's field setters do them
  // (`{ ...p, extras: { ...p.extras, minJob: v } }` and the like).

  function SetMaterialRate(r: MaterialRates, m: MaterialType, v: real): MaterialRates {
    match m
    case Tile => r.(tile := v)
    case Porcelain => r.(porcelain := v)
  }

  function SetBaseRate(b: BaseRates, a: AreaType, m: MaterialType, v: real): BaseRates {
    match a
    case Bathroom => b.(bathroom := SetMaterialRate(b.bathroom, m, v))
    case Backsplash => b.(backsplash := SetMaterialRate(b.backsplash, m, v))
    case Floor => b.(floor := SetMaterialRate(b.floor, m, v))
  }

  function SetCoefficient(c: Coefficients, x: Complexity, v: real): Coefficients {
    match x
    case Normal => c.(normal := v)
    case Diagonal => c.(diagonal := v)
    case LargeFormat => c.(largeFormat := v)
    case Mosaic => c.(mosaic := v)
  }

  function SetSizeMultiplier(s: SizeMultipliers, t: TileSize, v: real): SizeMultipliers {
    match t
    case Small => s.(small := v)
    case Medium => s.(medium := v)
    case Large60x120 => s.(large60x120 := v)
    case Xl120Plus => s.(xl120plus := v)
  }

  function SetExtra(e: Extras, n: ExtraName, v: real): Extras {
    match n
    case DemolitionPerM2 => e.(demolitionPerM2 := v)
    case PrepPerM2 => e.(prepPerM2 := v)
    case AdhesivePerM2 => e.(adhesivePerM2 := v)
    case GroutPerM2 => e.(groutPerM2 := v)
    case WaterproofingPerM2 => e.(waterproofingPerM2 := v)
    case MiterPerLm => e.(miterPerLm := v)
    case SiliconePerLm => e.(siliconePerLm := v)
    case HolePerEach => e.(holePerEach := v)
    case GklBoxPerEach => e.(gklBoxPerEach := v)
    case PackageDiscountPct => e.(packageDiscountPct := v)
    case MinJob => e.(minJob := v)
  }

  /** The table with the entry at `k` replaced by `v`. */
  function Set(p: Prices, k: Key, v: real): Prices {
    match k
    case BaseKey(a, m) => p.(base := SetBaseRate(p.base, a, m, v))
    case CoefficientKey(c) => p.(coefficients := SetCoefficient(p.coefficients, c, v))
    case SizeKey(t) => p.(sizeMultipliers := SetSizeMultiplier(p.sizeMultipliers, t, v))
    case ExtraKey(n) => p.(extras := SetExtra(p.extras, n, v))
  }

  /** Setting an entry changes that entry and no other. */
  lemma GetSet(p: Prices, k: Key, v: real, j: Key)
    ensures Get(Set(p, k, v), j) == if j == k then v else Get(p, j)
  {
    match k
    case BaseKey(a, m) =>
      match j {
        case BaseKey(a', m') =>
          match a { case Bathroom => case Backsplash => case Floor => }
          match m { case Tile => case Porcelain => }
        case _ =>
      }
    case _ =>
  }

  /** Two tables that agree at every key are the same table: the 25 keys
      cover the whole record. */
  lemma Extensionality(p: Prices, q: Prices)
    requires forall k :: Get(p, k) == Get(q, k)
    ensures p == q
  {
    BaseAgree(p, q);
    CoefficientsAgree(p, q);
    SizeMultipliersAgree(p, q);
    ExtrasAgree(p, q);
  }

  lemma BaseAgree(p: Prices, q: Prices)
    requires forall k :: Get(p, k) == Get(q, k)
    ensures p.base == q.base
  {
    assert Get(p, BaseKey(Bathroom, Tile)) == Get(q, BaseKey(Bathroom, Tile));
    assert Get(p, BaseKey(Bathroom, Porcelain)) == Get(q, BaseKey(Bathroom, Porcelain));
    assert Get(p, BaseKey(Backsplash, Tile)) == Get(q, BaseKey(Backsplash, Tile));
    assert Get(p, BaseKey(Backsplash, Porcelain)) == Get(q, BaseKey(Backsplash, Porcelain));
    assert Get(p, BaseKey(Floor, Tile)) == Get(q, BaseKey(Floor, Tile));
    assert Get(p, BaseKey(Floor, Porcelain)) == Get(q, BaseKey(Floor, Porcelain));
  }

  lemma CoefficientsAgree(p: Prices, q: Prices)
    requires forall k :: Get(p, k) == Get(q, k)
    ensures p.coefficients == q.coefficients
  {
    assert Get(p, CoefficientKey(Normal)) == Get(q, CoefficientKey(Normal));
    assert Get(p, CoefficientKey(Diagonal)) == Get(q, CoefficientKey(Diagonal));
    assert Get(p, CoefficientKey(LargeFormat)) == Get(q, CoefficientKey(LargeFormat));
    assert Get(p, CoefficientKey(Mosaic)) == Get(q, CoefficientKey(Mosaic));
  }

  lemma SizeMultipliersAgree(p: Prices, q: Prices)
    requires forall k :: Get(p, k) == Get(q, k)
    ensures p.sizeMultipliers == q.sizeMultipliers
  {
    assert Get(p, SizeKey(Small)) == Get(q, SizeKey(Small));
    assert Get(p, SizeKey(Medium)) == Get(q, SizeKey(Medium));
    assert Get(p, SizeKey(Large60x120)) == Get(q, SizeKey(Large60x120));
    assert Get(p, SizeKey(Xl120Plus)) == Get(q, SizeKey(Xl120Plus));
  }

  lemma ExtrasAgree(p: Prices, q: Prices)
    requires forall k :: Get(p, k) == Get(q, k)
    ensures p.extras == q.extras
  {
    assert Get(p, ExtraKey(DemolitionPerM2)) == Get(q, ExtraKey(DemolitionPerM2));
    assert Get(p, ExtraKey(PrepPerM2)) == Get(q, ExtraKey(PrepPerM2));
    assert Get(p, ExtraKey(AdhesivePerM2)) == Get(q, ExtraKey(AdhesivePerM2));
    assert Get(p, ExtraKey(GroutPerM2)) == Get(q, ExtraKey(GroutPerM2));
    assert Get(p, ExtraKey(WaterproofingPerM2)) == Get(q, ExtraKey(WaterproofingPerM2));
    assert Get(p, ExtraKey(MiterPerLm)) == Get(q, ExtraKey(MiterPerLm));
    assert Get(p, ExtraKey(SiliconePerLm)) == Get(q, ExtraKey(SiliconePerLm));
    assert Get(p, ExtraKey(HolePerEach)) == Get(q, ExtraKey(HolePerEach));
    assert Get(p, ExtraKey(GklBoxPerEach)) == Get(q, ExtraKey(GklBoxPerEach));
    assert Get(p, ExtraKey(PackageDiscountPct)) == Get(q, ExtraKey(PackageDiscountPct));
    assert Get(p, ExtraKey(MinJob)) == Get(q, ExtraKey(MinJob));
  }

  /** Every key of the table, each once: 3 x 2 base rates, 4 complexity
      coefficients, 4 size multipliers and 11 extras. */
  const AllKeys: seq<Key> := [
    BaseKey(Bathroom, Tile), BaseKey(Bathroom, Porcelain),
    BaseKey(Backsplash, Tile), BaseKey(Backsplash, Porcelain),
    BaseKey(Floor, Tile), BaseKey(Floor, Porcelain),
    CoefficientKey(Normal), CoefficientKey(Diagonal), CoefficientKey(LargeFormat), CoefficientKey(Mosaic),
    SizeKey(Small), SizeKey(Medium), SizeKey(Large60x120), SizeKey(Xl120Plus),
    ExtraKey(DemolitionPerM2), ExtraKey(PrepPerM2), ExtraKey(AdhesivePerM2), ExtraKey(GroutPerM2),
    ExtraKey(WaterproofingPerM2), ExtraKey(MiterPerLm), ExtraKey(SiliconePerLm), ExtraKey(HolePerEach),
    ExtraKey(GklBoxPerEach), ExtraKey(PackageDiscountPct), ExtraKey(MinJob)
  ]

  /** The position of a key in `AllKeys`: every key has one. */
  function KeyIndex(k: Key): (i: nat)
    ensures i < |AllKeys| && AllKeys[i] == k
  {
    match k
    case BaseKey(a, m) =>
      (match a case Bathroom => 0 case Backsplash => 2 case Floor => 4)
      + (match m case Tile => 0 case Porcelain => 1)
    case CoefficientKey(c) =>
      (match c case Normal => 6 case Diagonal => 7 case LargeFormat => 8 case Mosaic => 9)
    case SizeKey(t) =>
      (match t case Small => 10 case Medium => 11 case Large60x120 => 12 case Xl120Plus => 13)
    case ExtraKey(n) =>
      match n
      case DemolitionPerM2 => 14 case PrepPerM2 => 15 case AdhesivePerM2 => 16
      case GroutPerM2 => 17 case WaterproofingPerM2 => 18 case MiterPerLm => 19
      case SiliconePerLm => 20 case HolePerEach => 21 case GklBoxPerEach => 22
      case PackageDiscountPct => 23 case MinJob => 24
  }

  /** The shape of `Prices` fixes the size of the table exactly: `AllKeys`
      lists 25 keys, each once, and every key is among them. */
  lemma AllKeysExact()
    ensures |AllKeys| == 25
    ensures forall k :: k in AllKeys
    ensures forall i, j :: 0 <= i < j < |AllKeys| ==> AllKeys[i] != AllKeys[j]
  {
    forall k ensures k in AllKeys {
      var i := KeyIndex(k);
    }
    forall i | 0 <= i < |AllKeys| ensures KeyIndex(AllKeys[i]) == i {
    }
  }

  /** `initialPrices`, the table used until (and unless) a stored one loads. */
  const InitialPrices: Prices := Prices(
    BaseRates(
      MaterialRates(1200.0, 1400.0),
      MaterialRates(900.0, 1100.0),
      MaterialRates(1100.0, 1300.0)),
    Coefficients(1.00, 1.10, 1.15, 1.30),
    SizeMultipliers(0.95, 1.00, 1.08, 1.15),
    Extras(
      500.0, 450.0, 250.0, 200.0, 350.0,
      650.0, 120.0, 250.0, 1500.0,
      5.0, 12000.0))

  /** A table the calculator can price with: no negative rate, coefficient,
      multiplier, percentage or minimum, and a discount of at most 100%. */
  ghost predicate ValidTable(p: Prices) {
    (forall k :: Get(p, k) >= 0.0) && p.extras.packageDiscountPct <= 100.0
  }

  /** The defaults are a valid table. */
  lemma InitialPricesValid()
    ensures ValidTable(InitialPrices)
  {
    forall k ensures Get(InitialPrices, k) >= 0.0 {
      match k
      case BaseKey(a, m) =>
        match a { case Bathroom => case Backsplash => case Floor => }
      case _ =>
    }
  }

  /** The defaults' standard layout and medium tile are neutral, the
      turnkey discount is 5% and the minimum job is 12000. */
  lemma InitialPricesConstants()
    ensures Coefficient(InitialPrices, Normal) == 1.0
    ensures SizeMultiplier(InitialPrices, Medium) == 1.0
    ensures InitialPrices.extras.packageDiscountPct == 5.0
    ensures InitialPrices.extras.minJob == 12000.0
    ensures InitialPrices.extras.minJob > 0.0
  {
  }
}
