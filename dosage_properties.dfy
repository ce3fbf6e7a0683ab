/** What the dosage engine guarantees about the list it returns. */
module DosageProperties {
  import opened Wrappers
  import opened PoolConfig
  import opened Dosage

  /** How many entries of `ds` recommend product `p`. */
  function Occurrences(ds: seq<Recommendation>, p: Product): nat {
    if ds == [] then 0
    else (if ds[0].product == p then 1 else 0) + Occurrences(ds[1..], p)
  }

  lemma {:induction false} OccurrencesAppend(a: seq<Recommendation>, b: seq<Recommendation>, p: Product)
    ensures Occurrences(a + b, p) == Occurrences(a, p) + Occurrences(b, p)
  {
    if a != [] {
      assert (a + b)[0] == a[0];
      assert (a + b)[1..] == a[1..] + b;
      OccurrencesAppend(a[1..], b, p);
    } else {
      assert a + b == b;
    }
  }

  /** The count of `p` among the five rules' entries. */
  lemma OccurrencesOfRules(cfg: Config, ph: Option<real>, bromine: Option<real>,
                           couleur: string, ecume: bool, transparence: int, p: Product)
    ensures Occurrences(Recommendations(cfg, ph, bromine, couleur, ecume, transparence), p)
         == Occurrences(ToSeq(PhRule(cfg, ph)), p) + Occurrences(ToSeq(BromineRule(cfg, bromine)), p)
          + Occurrences(ToSeq(ShockRule(cfg, couleur)), p) + Occurrences(ToSeq(AntiFoamRule(cfg, ecume)), p)
          + Occurrences(ToSeq(ClarityRule(cfg, transparence)), p)
  {
    var s1, s2, s3, s4, s5 := ToSeq(PhRule(cfg, ph)), ToSeq(BromineRule(cfg, bromine)),
      ToSeq(ShockRule(cfg, couleur)), ToSeq(AntiFoamRule(cfg, ecume)), ToSeq(ClarityRule(cfg, transparence));
    OccurrencesAppend(s1, s2, p);
    OccurrencesAppend(s1 + s2, s3, p);
    OccurrencesAppend(s1 + s2 + s3, s4, p);
    OccurrencesAppend(s1 + s2 + s3 + s4, s5, p);
  }

  /** Rule 1: at most one pH entry; "pH moins" exactly when the pH is above the
      ideal range, "pH plus" exactly when it is below it. */
  lemma PhEntries(cfg: Config, ph: Option<real>, bromine: Option<real>,
                  couleur: string, ecume: bool, transparence: int)
    requires cfg.Valid()
    ensures var ds := Recommendations(cfg, ph, bromine, couleur, ecume, transparence);
      && Occurrences(ds, PhMinus) == (if ph.Some? && ph.value > cfg.phMax then 1 else 0)
      && Occurrences(ds, PhPlus) == (if ph.Some? && ph.value < cfg.phMin then 1 else 0)
      && Occurrences(ds, PhMinus) + Occurrences(ds, PhPlus) <= 1
  {
    OccurrencesOfRules(cfg, ph, bromine, couleur, ecume, transparence, PhMinus);
    OccurrencesOfRules(cfg, ph, bromine, couleur, ecume, transparence, PhPlus);
  }

  /** Rule 2: bromine is recommended exactly when a reading below the ideal
      minimum is present; a high reading never triggers anything. */
  lemma BromineEntry(cfg: Config, ph: Option<real>, bromine: Option<real>,
                     couleur: string, ecume: bool, transparence: int)
    ensures Occurrences(Recommendations(cfg, ph, bromine, couleur, ecume, transparence), Bromine)
         == (if bromine.Some? && bromine.value < cfg.bromineMin then 1 else 0)
  {
    OccurrencesOfRules(cfg, ph, bromine, couleur, ecume, transparence, Bromine);
  }

  /** Rules 3 to 5 each depend on their own input only. */
  lemma VisualEntries(cfg: Config, ph: Option<real>, bromine: Option<real>,
                      couleur: string, ecume: bool, transparence: int)
    ensures var ds := Recommendations(cfg, ph, bromine, couleur, ecume, transparence);
      && Occurrences(ds, Shock) == (if couleur == Green then 1 else 0)
      && Occurrences(ds, AntiFoam) == (if ecume then 1 else 0)
      && Occurrences(ds, ClarifierCurative) == (if transparence > ClearEnough then 1 else 0)
  {
    OccurrencesOfRules(cfg, ph, bromine, couleur, ecume, transparence, Shock);
    OccurrencesOfRules(cfg, ph, bromine, couleur, ecume, transparence, AntiFoam);
    OccurrencesOfRules(cfg, ph, bromine, couleur, ecume, transparence, ClarifierCurative);
  }

  /** Position of each product's rule in the evaluation order. */
  function Rank(p: Product): nat {
    match p
    case PhMinus => 0
    case PhPlus => 0
    case Bromine => 1
    case Shock => 2
    case AntiFoam => 3
    case ClarifierCurative => 4
  }

  /** Entries appear in strictly increasing rule order. */
  predicate InRuleOrder(ds: seq<Recommendation>) {
    forall i, j :: 0 <= i < j < |ds| ==> Rank(ds[i].product) < Rank(ds[j].product)
  }

  predicate RanksBelow(ds: seq<Recommendation>, k: nat) {
    forall i :: 0 <= i < |ds| ==> Rank(ds[i].product) < k
  }

  /** Appending at most one entry of rank `k` after entries of lower rank keeps the order. */
  lemma AppendRule(a: seq<Recommendation>, o: Option<Recommendation>, k: nat)
    requires InRuleOrder(a) && RanksBelow(a, k)
    requires o.Some? ==> Rank(o.value.product) == k
    ensures InRuleOrder(a + ToSeq(o)) && RanksBelow(a + ToSeq(o), k + 1)
  {
  }

  /** The list is a subsequence of [pH entry, Brome, Choc, Anti-écume, Eau éclatante]:
      rule order is kept and no product appears twice. */
  lemma RecommendationOrder(cfg: Config, ph: Option<real>, bromine: Option<real>,
                            couleur: string, ecume: bool, transparence: int)
    ensures var ds := Recommendations(cfg, ph, bromine, couleur, ecume, transparence);
      && (forall i, j :: 0 <= i < j < |ds| ==> Rank(ds[i].product) < Rank(ds[j].product))
      && (forall i, j :: 0 <= i < j < |ds| ==> ds[i].product != ds[j].product)
  {
    var s1 := ToSeq(PhRule(cfg, ph));
    assert InRuleOrder(s1) && RanksBelow(s1, 1);
    AppendRule(s1, BromineRule(cfg, bromine), 1);
    var s2 := s1 + ToSeq(BromineRule(cfg, bromine));
    AppendRule(s2, ShockRule(cfg, couleur), 2);
    var s3 := s2 + ToSeq(ShockRule(cfg, couleur));
    AppendRule(s3, AntiFoamRule(cfg, ecume), 3);
    var s4 := s3 + ToSeq(AntiFoamRule(cfg, ecume));
    AppendRule(s4, ClarityRule(cfg, transparence), 4);
  }

  /** No product name is displayed twice in the list. */
  lemma DistinctProductNames(cfg: Config, ph: Option<real>, bromine: Option<real>,
                             couleur: string, ecume: bool, transparence: int)
    ensures var ds := Recommendations(cfg, ph, bromine, couleur, ecume, transparence);
      forall i, j :: 0 <= i < j < |ds| ==> ProductName(ds[i].product) != ProductName(ds[j].product)
  {
    var ds := Recommendations(cfg, ph, bromine, couleur, ecume, transparence);
    RecommendationOrder(cfg, ph, bromine, couleur, ecume, transparence);
    forall i, j | 0 <= i < j < |ds|
      ensures ProductName(ds[i].product) != ProductName(ds[j].product)
    {
      ProductNameInjective(ds[i].product, ds[j].product);
    }
  }

  /** Nothing is recommended exactly when every rule is satisfied. */
  lemma NoTreatmentNeeded(cfg: Config, ph: Option<real>, bromine: Option<real>,
                          couleur: string, ecume: bool, transparence: int)
    ensures Recommendations(cfg, ph, bromine, couleur, ecume, transparence) == [] <==>
      ((ph.None? || cfg.phMin <= ph.value <= cfg.phMax)
       && (bromine.None? || bromine.value >= cfg.bromineMin)
       && couleur != Green && !ecume && transparence <= ClearEnough)
  {
  }

  /** A pH correction is always a whole, positive number of doses, and that number
      is the least that brings the pH back into the ideal range. */
  lemma PhCorrectionIsWholeDoses(cfg: Config, ph: Option<real>, bromine: Option<real>,
                                 couleur: string, ecume: bool, transparence: int, i: int)
    requires cfg.Valid()
    requires var ds := Recommendations(cfg, ph, bromine, couleur, ecume, transparence);
      0 <= i < |ds| && ds[i].product in {PhMinus, PhPlus}
    ensures var d := Recommendations(cfg, ph, bromine, couleur, ecume, transparence)[i];
      && ph.Some? && i == 0
      && (d.product == PhMinus ==>
            ph.value > cfg.phMax && d.reason == PhTooHigh(ph.value) && d.quantity.unit == cfg.phMinus.unit
            && d.quantity.amount == PhMinusDoses(cfg, ph.value) as real * cfg.ForPool(cfg.phMinus)
            && d.quantity.amount >= cfg.ForPool(cfg.phMinus))
      && (d.product == PhPlus ==>
            ph.value < cfg.phMin && d.reason == PhTooLow(ph.value) && d.quantity.unit == cfg.phPlus.unit
            && d.quantity.amount == PhPlusDoses(cfg, ph.value) as real * cfg.ForPool(cfg.phPlus)
            && d.quantity.amount >= cfg.ForPool(cfg.phPlus))
  {
    var ds := Recommendations(cfg, ph, bromine, couleur, ecume, transparence);
    EntryOrigin(cfg, ph, bromine, couleur, ecume, transparence, i);
    assert PhRule(cfg, ph) == Some(ds[i]);
    assert ds[0] == ds[i];
    RecommendationOrder(cfg, ph, bromine, couleur, ecume, transparence);
    assert i == 0;
    var v := ph.value;
    if v > cfg.phMax {
      var n, f := PhMinusDoses(cfg, v), cfg.ForPool(cfg.phMinus);
      AtLeastOneDose(n, f);
    } else if v < cfg.phMin {
      var n, f := PhPlusDoses(cfg, v), cfg.ForPool(cfg.phPlus);
      AtLeastOneDose(n, f);
    }
  }

  /** A positive number of doses is at least one dose. */
  lemma AtLeastOneDose(n: int, f: real)
    requires n >= 1 && f >= 0.0
    ensures n as real * f >= f
  {
    assert (n - 1) as real >= 0.0;
    assert (n - 1) as real * f >= 0.0;
    assert n as real * f == (n - 1) as real * f + f;
  }

  /** The visual rules' entries are one full-pool dose of their product, in its
      unit, citing the observation that triggered them. */
  lemma VisualEntryContents(cfg: Config, ph: Option<real>, bromine: Option<real>,
                            couleur: string, ecume: bool, transparence: int, i: int)
    requires var ds := Recommendations(cfg, ph, bromine, couleur, ecume, transparence);
      0 <= i < |ds| && ds[i].product in {Shock, AntiFoam, ClarifierCurative}
    ensures var d := Recommendations(cfg, ph, bromine, couleur, ecume, transparence)[i];
      && (d.product == Shock ==>
            couleur == Green && d.reason == GreenWater
            && d.quantity == Quantity(cfg.ForPool(cfg.shock), cfg.shock.unit))
      && (d.product == AntiFoam ==>
            ecume && d.reason == FoamPresent
            && d.quantity == Quantity(cfg.ForPool(cfg.antiFoam), cfg.antiFoam.unit))
      && (d.product == ClarifierCurative ==>
            transparence > ClearEnough && d.reason == Cloudy(transparence)
            && d.quantity == Quantity(cfg.ForPool(cfg.clarifierCurative), cfg.clarifierCurative.unit))
  {
    EntryOrigin(cfg, ph, bromine, couleur, ecume, transparence, i);
  }

  /** Bromine is always whole tablets, the pool rate rounded. */
  lemma BromineIsWholeTablets(cfg: Config, ph: Option<real>, bromine: Option<real>,
                              couleur: string, ecume: bool, transparence: int, i: int)
    requires var ds := Recommendations(cfg, ph, bromine, couleur, ecume, transparence);
      0 <= i < |ds| && ds[i].product == Bromine
    ensures var d := Recommendations(cfg, ph, bromine, couleur, ecume, transparence)[i];
      && bromine.Some? && bromine.value < cfg.bromineMin
      && d.quantity.unit == Tablets && d.reason == BromineTooLow(bromine.value)
      && d.quantity.amount == d.quantity.amount.Floor as real
      && cfg.ForPool(cfg.bromine) - 0.5 < d.quantity.amount <= cfg.ForPool(cfg.bromine) + 0.5
  {
    EntryOrigin(cfg, ph, bromine, couleur, ecume, transparence, i);
  }

  /** Every entry of the list is the entry of one of the five rules. */
  lemma EntryOrigin(cfg: Config, ph: Option<real>, bromine: Option<real>,
                    couleur: string, ecume: bool, transparence: int, i: int)
    requires 0 <= i < |Recommendations(cfg, ph, bromine, couleur, ecume, transparence)|
    ensures var d := Recommendations(cfg, ph, bromine, couleur, ecume, transparence)[i];
      || PhRule(cfg, ph) == Some(d) || BromineRule(cfg, bromine) == Some(d)
      || ShockRule(cfg, couleur) == Some(d) || AntiFoamRule(cfg, ecume) == Some(d)
      || ClarityRule(cfg, transparence) == Some(d)
  {
    var ds := Recommendations(cfg, ph, bromine, couleur, ecume, transparence);
    assert ds[i] in ds;
  }
}
