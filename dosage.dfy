/** The dosage recommendation engine (`calculerDosages`): five independent rule
    checks on a water reading, each adding at most one treatment, in a fixed order. */
module Dosage {
  import opened Wrappers
  import opened JsMath
  import opened PoolConfig

  datatype Product = PhMinus | PhPlus | Bromine | Shock | AntiFoam | ClarifierCurative

  /** A quantity is a number and its unit; the display string is not modelled. */
  datatype Quantity = Quantity(amount: real, unit: Unit)

  /** Why a product is recommended, with the measured value the message cites. */
  datatype Reason =
    | PhTooHigh(ph: real)
    | PhTooLow(ph: real)
    | BromineTooLow(level: real)
    | GreenWater
    | FoamPresent
    | Cloudy(transparence: int)

  datatype Recommendation = Recommendation(product: Product, quantity: Quantity, reason: Reason)

  /** The product name shown to the user. */
  function ProductName(p: Product): string {
    match p
    case PhMinus => "pH moins"
    case PhPlus => "pH plus"
    case Bromine => "Brome"
    case Shock => "Choc sans chlore"
    case AntiFoam => "Anti-écume"
    case ClarifierCurative => "Eau éclatante (curatif)"
  }

  /** No two products share a displayed name. */
  lemma ProductNameInjective(p: Product, q: Product)
    ensures ProductName(p) == ProductName(q) ==> p == q
  {
  }

  /** The colour value that means green water. */
  const Green: string := "verte"

  /** pH change of one dose of each corrector. */
  const PhMinusStep: real := 0.4
  const PhPlusStep: real := 0.2

  /** Transparence values above this one (on the 1..5 scale) need clarifier. */
  const ClearEnough: int := 2

  /** Number of pH-minus doses: the fewest whose combined effect brings `ph` back
      to the top of the ideal range. */
  function PhMinusDoses(cfg: Config, ph: real): (n: int)
    requires ph > cfg.phMax
    ensures n >= 1
    ensures ph - n as real * PhMinusStep <= cfg.phMax
    ensures cfg.phMax < ph - (n - 1) as real * PhMinusStep
  {
    Ceil((ph - cfg.phMax) / PhMinusStep)
  }

  /** Number of pH-plus doses: the fewest whose combined effect brings `ph` up to
      the bottom of the ideal range. */
  function PhPlusDoses(cfg: Config, ph: real): (n: int)
    requires ph < cfg.phMin
    ensures n >= 1
    ensures ph + n as real * PhPlusStep >= cfg.phMin
    ensures cfg.phMin > ph + (n - 1) as real * PhPlusStep
  {
    Ceil((cfg.phMin - ph) / PhPlusStep)
  }

  /** Rule 1: pH outside the ideal range. */
  function PhRule(cfg: Config, ph: Option<real>): (r: Option<Recommendation>)
    ensures r.Some? <==> ph.Some? && (ph.value > cfg.phMax || ph.value < cfg.phMin)
    ensures r.Some? && ph.value > cfg.phMax ==>
      r.value.product == PhMinus && r.value.reason == PhTooHigh(ph.value) && r.value.quantity.unit == cfg.phMinus.unit
    ensures r.Some? && ph.value <= cfg.phMax ==>
      r.value.product == PhPlus && r.value.reason == PhTooLow(ph.value) && r.value.quantity.unit == cfg.phPlus.unit
  {
    match ph
    case None => None
    case Some(v) =>
      if v > cfg.phMax then
        Some(Recommendation(PhMinus,
          Quantity(PhMinusDoses(cfg, v) as real * cfg.ForPool(cfg.phMinus), cfg.phMinus.unit),
          PhTooHigh(v)))
      else if v < cfg.phMin then
        Some(Recommendation(PhPlus,
          Quantity(PhPlusDoses(cfg, v) as real * cfg.ForPool(cfg.phPlus), cfg.phPlus.unit),
          PhTooLow(v)))
      else None
  }

  /** Rule 2: bromine below the ideal range; tablets are rounded to a whole number. */
  function BromineRule(cfg: Config, bromine: Option<real>): (r: Option<Recommendation>)
    ensures r.Some? <==> bromine.Some? && bromine.value < cfg.bromineMin
    ensures r.Some? ==>
      && r.value.product == Bromine && r.value.reason == BromineTooLow(bromine.value)
      && r.value.quantity.unit == Tablets
      && r.value.quantity.amount == r.value.quantity.amount.Floor as real
      && cfg.ForPool(cfg.bromine) - 0.5 < r.value.quantity.amount <= cfg.ForPool(cfg.bromine) + 0.5
  {
    match bromine
    case None => None
    case Some(v) =>
      if v < cfg.bromineMin then
        Some(Recommendation(Bromine,
          Quantity(Round(cfg.ForPool(cfg.bromine)) as real, Tablets),
          BromineTooLow(v)))
      else None
  }

  /** Rule 3: green water. */
  function ShockRule(cfg: Config, couleur: string): (r: Option<Recommendation>)
    ensures r.Some? <==> couleur == Green
    ensures r.Some? ==>
      && r.value.product == Shock && r.value.reason == GreenWater
      && r.value.quantity == Quantity(cfg.ForPool(cfg.shock), cfg.shock.unit)
  {
    if couleur == Green then
      Some(Recommendation(Shock, Quantity(cfg.ForPool(cfg.shock), cfg.shock.unit), GreenWater))
    else None
  }

  /** Rule 4: foam. */
  function AntiFoamRule(cfg: Config, ecume: bool): (r: Option<Recommendation>)
    ensures r.Some? <==> ecume
    ensures r.Some? ==>
      && r.value.product == AntiFoam && r.value.reason == FoamPresent
      && r.value.quantity == Quantity(cfg.ForPool(cfg.antiFoam), cfg.antiFoam.unit)
  {
    if ecume then
      Some(Recommendation(AntiFoam, Quantity(cfg.ForPool(cfg.antiFoam), cfg.antiFoam.unit), FoamPresent))
    else None
  }

  /** Rule 5: cloudy water. */
  function ClarityRule(cfg: Config, transparence: int): (r: Option<Recommendation>)
    ensures r.Some? <==> transparence > ClearEnough
    ensures r.Some? ==>
      && r.value.product == ClarifierCurative && r.value.reason == Cloudy(transparence)
      && r.value.quantity == Quantity(cfg.ForPool(cfg.clarifierCurative), cfg.clarifierCurative.unit)
  {
    if transparence > ClearEnough then
      Some(Recommendation(ClarifierCurative,
        Quantity(cfg.ForPool(cfg.clarifierCurative), cfg.clarifierCurative.unit),
        Cloudy(transparence)))
    else None
  }

  /** The recommendations for one reading: each rule's entry, if any, in rule order. */
  function Recommendations(cfg: Config, ph: Option<real>, bromine: Option<real>,
                           couleur: string, ecume: bool, transparence: int): (ds: seq<Recommendation>)
    ensures |ds| <= 5
  {
    ToSeq(PhRule(cfg, ph)) + ToSeq(BromineRule(cfg, bromine)) + ToSeq(ShockRule(cfg, couleur))
    + ToSeq(AntiFoamRule(cfg, ecume)) + ToSeq(ClarityRule(cfg, transparence))
  }

  /** `calculerDosages`: builds the list by appending under five successive checks. */
  method CalculateDosages(cfg: Config, ph: Option<real>, bromine: Option<real>,
                          couleur: string, ecume: bool, transparence: int)
    returns (dosages: seq<Recommendation>)
    ensures dosages == Recommendations(cfg, ph, bromine, couleur, ecume, transparence)
  {
    dosages := [];
    var vol := cfg.volume;

    if ph.Some? {
      var v := ph.value;
      if v > cfg.phMax {
        var ecart := v - cfg.phMax;
        var doses := Ceil(ecart / PhMinusStep);
        var quantite := doses as real * cfg.phMinus.perM3 * vol;
        assert doses == PhMinusDoses(cfg, v);
        assert quantite == doses as real * cfg.ForPool(cfg.phMinus);
        assert PhRule(cfg, ph).value.quantity.amount == quantite;
        dosages := dosages + [Recommendation(PhMinus, Quantity(quantite, cfg.phMinus.unit), PhTooHigh(v))];
      } else if v < cfg.phMin {
        var ecart := cfg.phMin - v;
        var doses := Ceil(ecart / PhPlusStep);
        var quantite := doses as real * cfg.phPlus.perM3 * vol;
        assert doses == PhPlusDoses(cfg, v);
        assert quantite == doses as real * cfg.ForPool(cfg.phPlus);
        assert PhRule(cfg, ph).value.quantity.amount == quantite;
        dosages := dosages + [Recommendation(PhPlus, Quantity(quantite, cfg.phPlus.unit), PhTooLow(v))];
      }
    }

    assert dosages == ToSeq(PhRule(cfg, ph));

    if bromine.Some? && bromine.value < cfg.bromineMin {
      var quantite := cfg.bromine.perM3 * vol;
      assert quantite == cfg.ForPool(cfg.bromine);
      dosages := dosages + [Recommendation(Bromine, Quantity(Round(quantite) as real, Tablets), BromineTooLow(bromine.value))];
    }

    assert dosages == ToSeq(PhRule(cfg, ph)) + ToSeq(BromineRule(cfg, bromine));

    if couleur == Green {
      var quantite := cfg.shock.perM3 * vol;
      assert quantite == cfg.ForPool(cfg.shock);
      dosages := dosages + [Recommendation(Shock, Quantity(quantite, cfg.shock.unit), GreenWater)];
    }

    assert dosages == ToSeq(PhRule(cfg, ph)) + ToSeq(BromineRule(cfg, bromine)) + ToSeq(ShockRule(cfg, couleur));

    if ecume {
      var quantite := cfg.antiFoam.perM3 * vol;
      assert quantite == cfg.ForPool(cfg.antiFoam);
      dosages := dosages + [Recommendation(AntiFoam, Quantity(quantite, cfg.antiFoam.unit), FoamPresent)];
    }

    assert dosages == ToSeq(PhRule(cfg, ph)) + ToSeq(BromineRule(cfg, bromine)) + ToSeq(ShockRule(cfg, couleur))
      + ToSeq(AntiFoamRule(cfg, ecume));

    if transparence > ClearEnough {
      var quantite := cfg.clarifierCurative.perM3 * vol;
      assert quantite == cfg.ForPool(cfg.clarifierCurative);
      dosages := dosages + [Recommendation(ClarifierCurative,
        Quantity(quantite, cfg.clarifierCurative.unit), Cloudy(transparence))];
    }
  }
}
