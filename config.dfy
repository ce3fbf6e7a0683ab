/** The application's constant configuration (`CONFIG`): pool volume, ideal ranges,
    maintenance cycles and the per-cubic-metre product rates. */
module PoolConfig {

  /** Unit labels of the product rates. */
  datatype Unit = Grams | Tablets | Caps

  /** A dosage rate: amount of product per cubic metre of water, and its unit. */
  datatype Rate = Rate(perM3: real, unit: Unit)

  datatype Config = Config(
    volume: real,               // pool volume in cubic metres
    phMin: real, phMax: real,   // ideal pH range
    bromineMin: real, bromineMax: real, // ideal bromine range, mg/L
    activatorCycleDays: int,    // activator is added every this many days
    ballCycleDays: int,         // filter balls are cleaned every this many days
    phMinus: Rate,
    phPlus: Rate,
    bromine: Rate,
    activator: Rate,
    shock: Rate,
    antiFoam: Rate,
    clarifierPreventive: Rate,
    clarifierCurative: Rate)
  {
    /** What the rules rely on: a positive volume, non-empty ideal ranges of
        positive quantities, positive cycle lengths and non-negative rates. */
    predicate Valid() {
      volume > 0.0 &&
      0.0 < phMin <= phMax &&
      0.0 < bromineMin <= bromineMax &&
      activatorCycleDays > 0 && ballCycleDays > 0 &&
      phMinus.perM3 >= 0.0 && phPlus.perM3 >= 0.0 && bromine.perM3 >= 0.0 &&
      activator.perM3 >= 0.0 && shock.perM3 >= 0.0 && antiFoam.perM3 >= 0.0 &&
      clarifierPreventive.perM3 >= 0.0 && clarifierCurative.perM3 >= 0.0
    }

    /** The amount of `rate` a full pool needs. */
    function ForPool(rate: Rate): real {
      rate.perM3 * volume
    }
  }

  /** The values the application ships with. */
  const Default: Config := Config(
    1.5,
    7.2, 7.6,
    2.0, 4.0,
    14,
    30,
    Rate(30.0, Grams),
    Rate(15.0, Grams),
    Rate(2.0, Tablets),
    Rate(15.0, Grams),
    Rate(20.0, Grams),
    Rate(1.0, Caps),
    Rate(2.0, Caps),
    Rate(4.0, Caps))

  lemma DefaultValid()
    ensures Default.Valid()
  {
  }
}
