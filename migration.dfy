/** The "migration" of a fetched price document (app/page.tsx:194-210, and
    again in `adminLogin` at 296-305): the JSON the store returns may miss
    whole sections or single keys, so the client spreads it over
    `initialPrices` section by section, the `base` section one area type at
    a time.  A fetched document is a record whose every section and every
    key is optional. */
module Migration {
  import opened Wrappers
  import opened PriceTable

  datatype PartialMaterialRates = PartialMaterialRates(tile: Option<real>, porcelain: Option<real>)

  datatype PartialBaseRates = PartialBaseRates(
    bathroom: Option<PartialMaterialRates>,
    backsplash: Option<PartialMaterialRates>,
    floor: Option<PartialMaterialRates>)

  datatype PartialCoefficients = PartialCoefficients(
    normal: Option<real>, diagonal: Option<real>, largeFormat: Option<real>, mosaic: Option<real>)

  datatype PartialSizeMultipliers = PartialSizeMultipliers(
    small: Option<real>, medium: Option<real>, large60x120: Option<real>, xl120plus: Option<real>)

  datatype PartialExtras = PartialExtras(
    demolitionPerM2: Option<real>,
    prepPerM2: Option<real>,
    adhesivePerM2: Option<real>,
    groutPerM2: Option<real>,
    waterproofingPerM2: Option<real>,
    miterPerLm: Option<real>,
    siliconePerLm: Option<real>,
    holePerEach: Option<real>,
    gklBoxPerEach: Option<real>,
    packageDiscountPct: Option<real>,
    minJob: Option<real>)

  /** A price document as stored and fetched: any section, and any key of a
      present section, may be absent. */
  datatype Document = Document(
    base: Option<PartialBaseRates>,
    coefficients: Option<PartialCoefficients>,
    sizeMultipliers: Option<PartialSizeMultipliers>,
    extras: Option<PartialExtras>)

  /** The document with no keys at all (`{}`, or any JSON without the four
      sections). */
  const EmptyDocument := Document(None, None, None, None)

  // Key-wise reading of a document: `json?.section?.key`.

  function DocMaterialRate(r: Option<PartialMaterialRates>, m: MaterialType): Option<real> {
    match r
    case None => None
    case Some(x) => match m case Tile => x.tile case Porcelain => x.porcelain
  }

  function DocAreaRates(b: Option<PartialBaseRates>, a: AreaType): Option<PartialMaterialRates> {
    match b
    case None => None
    case Some(x) =>
      match a case Bathroom => x.bathroom case Backsplash => x.backsplash case Floor => x.floor
  }

  function DocCoefficient(c: Option<PartialCoefficients>, x: Complexity): Option<real> {
    match c
    case None => None
    case Some(y) =>
      match x
      case Normal => y.normal case Diagonal => y.diagonal
      case LargeFormat => y.largeFormat case Mosaic => y.mosaic
  }

  function DocSizeMultiplier(s: Option<PartialSizeMultipliers>, t: TileSize): Option<real> {
    match s
    case None => None
    case Some(y) =>
      match t
      case Small => y.small case Medium => y.medium
      case Large60x120 => y.large60x120 case Xl120Plus => y.xl120plus
  }

  function DocExtra(e: Option<PartialExtras>, n: ExtraName): Option<real> {
    match e
    case None => None
    case Some(y) =>
      match n
      case DemolitionPerM2 => y.demolitionPerM2
      case PrepPerM2 => y.prepPerM2
      case AdhesivePerM2 => y.adhesivePerM2
      case GroutPerM2 => y.groutPerM2
      case WaterproofingPerM2 => y.waterproofingPerM2
      case MiterPerLm => y.miterPerLm
      case SiliconePerLm => y.siliconePerLm
      case HolePerEach => y.holePerEach
      case GklBoxPerEach => y.gklBoxPerEach
      case PackageDiscountPct => y.packageDiscountPct
      case MinJob => y.minJob
  }

  /** The value a document holds at a key, if any. */
  function DocGet(d: Document, k: Key): Option<real> {
    match k
    case BaseKey(a, m) => DocMaterialRate(DocAreaRates(d.base, a), m)
    case CoefficientKey(c) => DocCoefficient(d.coefficients, c)
    case SizeKey(t) => DocSizeMultiplier(d.sizeMultipliers, t)
    case ExtraKey(n) => DocExtra(d.extras, n)
  }

  /** A complete table written out as a document (what `JSON.stringify`
      of a `Prices` value holds). */
  function ToDocument(p: Prices): Document {
    Document(
      Some(PartialBaseRates(
        Some(PartialMaterialRates(Some(p.base.bathroom.tile), Some(p.base.bathroom.porcelain))),
        Some(PartialMaterialRates(Some(p.base.backsplash.tile), Some(p.base.backsplash.porcelain))),
        Some(PartialMaterialRates(Some(p.base.floor.tile), Some(p.base.floor.porcelain))))),
      Some(PartialCoefficients(
        Some(p.coefficients.normal), Some(p.coefficients.diagonal),
        Some(p.coefficients.largeFormat), Some(p.coefficients.mosaic))),
      Some(PartialSizeMultipliers(
        Some(p.sizeMultipliers.small), Some(p.sizeMultipliers.medium),
        Some(p.sizeMultipliers.large60x120), Some(p.sizeMultipliers.xl120plus))),
      Some(PartialExtras(
        Some(p.extras.demolitionPerM2), Some(p.extras.prepPerM2), Some(p.extras.adhesivePerM2),
        Some(p.extras.groutPerM2), Some(p.extras.waterproofingPerM2),
        Some(p.extras.miterPerLm), Some(p.extras.siliconePerLm),
        Some(p.extras.holePerEach), Some(p.extras.gklBoxPerEach),
        Some(p.extras.packageDiscountPct), Some(p.extras.minJob))))
  }

  // The spreads `{ ...initialPrices.section, ...(json?.section || {}) }`:
  // a key of the fetched section wins, an absent one keeps the default.

  function MergeMaterialRates(def: MaterialRates, o: Option<PartialMaterialRates>): MaterialRates {
    match o
    case None => def
    case Some(x) => MaterialRates(x.tile.GetOr(def.tile), x.porcelain.GetOr(def.porcelain))
  }

  function MergeCoefficients(def: Coefficients, o: Option<PartialCoefficients>): Coefficients {
    match o
    case None => def
    case Some(x) =>
      Coefficients(
        x.normal.GetOr(def.normal), x.diagonal.GetOr(def.diagonal),
        x.largeFormat.GetOr(def.largeFormat), x.mosaic.GetOr(def.mosaic))
  }

  function MergeSizeMultipliers(def: SizeMultipliers, o: Option<PartialSizeMultipliers>): SizeMultipliers {
    match o
    case None => def
    case Some(x) =>
      SizeMultipliers(
        x.small.GetOr(def.small), x.medium.GetOr(def.medium),
        x.large60x120.GetOr(def.large60x120), x.xl120plus.GetOr(def.xl120plus))
  }

  function MergeExtras(def: Extras, o: Option<PartialExtras>): Extras {
    match o
    case None => def
    case Some(x) =>
      Extras(
        x.demolitionPerM2.GetOr(def.demolitionPerM2),
        x.prepPerM2.GetOr(def.prepPerM2),
        x.adhesivePerM2.GetOr(def.adhesivePerM2),
        x.groutPerM2.GetOr(def.groutPerM2),
        x.waterproofingPerM2.GetOr(def.waterproofingPerM2),
        x.miterPerLm.GetOr(def.miterPerLm),
        x.siliconePerLm.GetOr(def.siliconePerLm),
        x.holePerEach.GetOr(def.holePerEach),
        x.gklBoxPerEach.GetOr(def.gklBoxPerEach),
        x.packageDiscountPct.GetOr(def.packageDiscountPct),
        x.minJob.GetOr(def.minJob))
  }

  /** The migrated table built from a fetched document. */
  function Migrate(d: Document): Prices {
    var def := InitialPrices;
    Prices(
      BaseRates(
        MergeMaterialRates(def.base.bathroom, DocAreaRates(d.base, Bathroom)),
        MergeMaterialRates(def.base.backsplash, DocAreaRates(d.base, Backsplash)),
        MergeMaterialRates(def.base.floor, DocAreaRates(d.base, Floor))),
      MergeCoefficients(def.coefficients, d.coefficients),
      MergeSizeMultipliers(def.sizeMultipliers, d.sizeMultipliers),
      MergeExtras(def.extras, d.extras))
  }

  /** The merge works key by key: a key present in the document overrides
      the default, an absent key takes the value of `initialPrices`. */
  lemma MigrateKeyByKey(d: Document, k: Key)
    ensures Get(Migrate(d), k) == DocGet(d, k).GetOr(Get(InitialPrices, k))
  {
    match k
    case BaseKey(a, m) =>
      match a { case Bathroom => case Backsplash => case Floor => }
    case _ =>
  }

  /** Reading back a complete table written out as a document gives every
      entry of the table. */
  lemma DocGetToDocument(p: Prices, k: Key)
    ensures DocGet(ToDocument(p), k) == Some(Get(p, k))
  {
    match k
    case BaseKey(a, m) =>
      match a { case Bathroom => case Backsplash => case Floor => }
    case _ =>
  }

  /** A complete document is taken over unchanged: the defaults show
      through only where keys are missing. */
  lemma MigrateComplete(p: Prices)
    ensures Migrate(ToDocument(p)) == p
  {
    forall k ensures Get(Migrate(ToDocument(p)), k) == Get(p, k) {
      MigrateKeyByKey(ToDocument(p), k);
      DocGetToDocument(p, k);
    }
    Extensionality(Migrate(ToDocument(p)), p);
  }

  /** Migrating an already migrated table changes nothing. */
  lemma MigrateIdempotent(d: Document)
    ensures Migrate(ToDocument(Migrate(d))) == Migrate(d)
  {
    MigrateComplete(Migrate(d));
  }

  /** An empty document migrates to the defaults. */
  lemma MigrateEmpty()
    ensures Migrate(EmptyDocument) == InitialPrices
  {
    forall k ensures Get(Migrate(EmptyDocument), k) == Get(InitialPrices, k) {
      MigrateKeyByKey(EmptyDocument, k);
    }
    Extensionality(Migrate(EmptyDocument), InitialPrices);
  }

  /** A document that only lacks `extras.minJob` migrates to a table that has
      the default minimum job (12000) and every other value of the document. */
  lemma MigrateMissingMinJob(p: Prices)
    ensures Migrate(ToDocument(p).(extras := Some(ToDocument(p).extras.value.(minJob := None))))
         == Set(p, ExtraKey(MinJob), 12000.0)
  {
    var d := ToDocument(p).(extras := Some(ToDocument(p).extras.value.(minJob := None)));
    forall k ensures Get(Migrate(d), k) == Get(Set(p, ExtraKey(MinJob), 12000.0), k) {
      MigrateKeyByKey(d, k);
      DocGetToDocument(p, k);
      GetSet(p, ExtraKey(MinJob), 12000.0, k);
    }
    Extensionality(Migrate(d), Set(p, ExtraKey(MinJob), 12000.0));
  }

  /** A document whose values are all admissible migrates to a valid table. */
  lemma MigrateValid(d: Document)
    requires forall k :: DocGet(d, k).Some? ==> DocGet(d, k).value >= 0.0
    requires DocGet(d, ExtraKey(PackageDiscountPct)).Some? ==> DocGet(d, ExtraKey(PackageDiscountPct)).value <= 100.0
    ensures ValidTable(Migrate(d))
  {
    InitialPricesValid();
    forall k ensures Get(Migrate(d), k) >= 0.0 {
      MigrateKeyByKey(d, k);
    }
    MigrateKeyByKey(d, ExtraKey(PackageDiscountPct));
  }

  /** `prices.sizeMultipliers?.[tileSize] ?? 1` read straight from a
      document: an absent section or key gives 1. */
  function RawSizeMultiplier(d: Document, t: TileSize): real {
    DocSizeMultiplier(d.sizeMultipliers, t).GetOr(1.0)
  }

  /** On a complete table the `?? 1` fallback never applies. */
  lemma RawSizeMultiplierComplete(p: Prices, t: TileSize)
    ensures RawSizeMultiplier(ToDocument(p), t) == SizeMultiplier(p, t)
  {
    DocGetToDocument(p, SizeKey(t));
  }

  /** Reading a raw document with `?? 1` and reading the migrated table agree
      exactly when the key is present or the tile size is `medium` (whose
      default is 1): the two fallback policies differ for the other sizes. */
  lemma RawSizeMultiplierVsMigrate(d: Document, t: TileSize)
    ensures RawSizeMultiplier(d, t) == SizeMultiplier(Migrate(d), t)
        <==> DocSizeMultiplier(d.sizeMultipliers, t).Some? || t == Medium
  {
    MigrateKeyByKey(d, SizeKey(t));
  }
}
