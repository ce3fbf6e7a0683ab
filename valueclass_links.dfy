/** How the colour coding of readings relates to the dosage rules on the
    application's ranges. */
module ValueClassLinks {
  import opened Wrappers
  import opened PoolConfig
  import opened Dosage
  import opened ValueClass

  /** A pH reading is colour-coded ok exactly when the pH rule recommends nothing. */
  lemma PhOkIffNoCorrection(cfg: Config, v: real)
    requires cfg.Valid()
    ensures Classify(Some(v), cfg.phMin, cfg.phMax) == Ok <==> PhRule(cfg, Some(v)).None?
  {
  }

  /** Low bromine is never coded ok; high bromine can be coded danger and still
      trigger no recommendation, since the rule has no upper bound. */
  lemma BromineCodingVsRule(cfg: Config, v: real)
    requires cfg.Valid()
    ensures BromineRule(cfg, Some(v)).Some? ==> Classify(Some(v), cfg.bromineMin, cfg.bromineMax) in {Warning, Danger}
    ensures v > cfg.bromineMax + Tolerance ==>
      Classify(Some(v), cfg.bromineMin, cfg.bromineMax) == Danger && BromineRule(cfg, Some(v)).None?
  {
  }
}
