/** The measurement form's live preview (`updateDosagesPreview`): show the list,
    say that no treatment is needed, or hide the panel. */
module Preview {
  import opened Wrappers
  import opened PoolConfig
  import opened Dosage

  datatype Panel = ShowList(items: seq<Recommendation>) | NoTreatment | Hidden

  /** JavaScript truthiness of a parsed reading: NaN (`None`) and 0 are falsy. */
  predicate Truthy(x: Option<real>): (b: bool)
    ensures b ==> x.Some?
    ensures x.Some? && !b ==> x.value == 0.0
    ensures x == Some(0.0) ==> !b
  {
    x.Some? && x.value != 0.0
  }

  function PreviewPanel(cfg: Config, ph: Option<real>, bromine: Option<real>,
                        couleur: string, ecume: bool, transparence: int): (p: Panel)
    ensures p.ShowList? <==> Recommendations(cfg, ph, bromine, couleur, ecume, transparence) != []
    ensures p.ShowList? ==> p.items == Recommendations(cfg, ph, bromine, couleur, ecume, transparence)
  {
    var dosages := Recommendations(cfg, ph, bromine, couleur, ecume, transparence);
    if |dosages| > 0 then ShowList(dosages)
    else if Truthy(ph) || Truthy(bromine) then NoTreatment
    else Hidden
  }

  /** Truthiness only differs from presence on a zero reading, and a zero pH or
      bromine is below its ideal range, so it already produces a recommendation:
      the panel is "no treatment" exactly when a reading is present and nothing is
      recommended, and hidden exactly when nothing was measured or observed. */
  lemma PanelCases(cfg: Config, ph: Option<real>, bromine: Option<real>,
                   couleur: string, ecume: bool, transparence: int)
    requires cfg.Valid()
    ensures var ds := Recommendations(cfg, ph, bromine, couleur, ecume, transparence);
      && (PreviewPanel(cfg, ph, bromine, couleur, ecume, transparence) == NoTreatment <==>
            ds == [] && (ph.Some? || bromine.Some?))
      && (PreviewPanel(cfg, ph, bromine, couleur, ecume, transparence) == Hidden <==>
            ph.None? && bromine.None? && couleur != Green && !ecume && transparence <= ClearEnough)
  {
  }

  /** "No treatment" means every present reading is within its rule's bounds. */
  lemma NoTreatmentMeansBalanced(cfg: Config, ph: Option<real>, bromine: Option<real>,
                                 couleur: string, ecume: bool, transparence: int)
    requires PreviewPanel(cfg, ph, bromine, couleur, ecume, transparence) == NoTreatment
    ensures ph.Some? || bromine.Some?
    ensures ph.Some? ==> cfg.phMin <= ph.value <= cfg.phMax
    ensures bromine.Some? ==> bromine.value >= cfg.bromineMin
    ensures couleur != Green && !ecume && transparence <= ClearEnough
  {
  }
}
