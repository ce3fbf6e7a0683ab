/** The engine on the shipped configuration, for a few concrete readings. */
module DosageExamples {
  import opened Wrappers
  import opened PoolConfig
  import opened Dosage

  /** Any colour value other than green. */
  const Clear: string := "normale"

  /** Over exact reals, pH 8.4 is 0.8 above 7.6: two doses of 30 g/m3 for 1.5 m3. */
  lemma HighPh()
    ensures Recommendations(Default, Some(8.4), None, Clear, false, 1)
         == [Recommendation(PhMinus, Quantity(90.0, Grams), PhTooHigh(8.4))]
  {
  }

  /** pH 6.9 is 0.3 below 7.2: two doses of 15 g/m3 for 1.5 m3. */
  lemma LowPh()
    ensures Recommendations(Default, Some(6.9), None, Clear, false, 1)
         == [Recommendation(PhPlus, Quantity(45.0, Grams), PhTooLow(6.9))]
  {
  }

  /** Over exact reals 8.0 is exactly one 0.4 step above 7.6, so one dose. */
  lemma OneStepAbove()
    ensures Recommendations(Default, Some(8.0), None, Clear, false, 1)
         == [Recommendation(PhMinus, Quantity(45.0, Grams), PhTooHigh(8.0))]
  {
  }

  /** Bromine 1.0 is below 2: round(2 * 1.5) = 3 tablets. */
  lemma LowBromine()
    ensures Recommendations(Default, None, Some(1.0), Clear, false, 1)
         == [Recommendation(Bromine, Quantity(3.0, Tablets), BromineTooLow(1.0))]
  {
  }

  /** Green water alone: only the shock treatment, 20 g/m3 for 1.5 m3. */
  lemma GreenWaterOnly()
    ensures Recommendations(Default, Some(7.4), Some(3.0), Green, false, 1)
         == [Recommendation(Shock, Quantity(30.0, Grams), GreenWater)]
  {
  }

  /** Transparence 3 triggers the clarifier; 2 does not. */
  lemma ClarityThreshold()
    ensures Recommendations(Default, None, None, Clear, false, 3)
         == [Recommendation(ClarifierCurative, Quantity(6.0, Caps), Cloudy(3))]
    ensures Recommendations(Default, None, None, Clear, false, 2) == []
  {
  }

  /** Every rule firing at once, in rule order, with pH quantities over exact reals. */
  lemma AllRules()
    ensures Recommendations(Default, Some(8.4), Some(1.0), Green, true, 5)
         == [Recommendation(PhMinus, Quantity(90.0, Grams), PhTooHigh(8.4)),
             Recommendation(Bromine, Quantity(3.0, Tablets), BromineTooLow(1.0)),
             Recommendation(Shock, Quantity(30.0, Grams), GreenWater),
             Recommendation(AntiFoam, Quantity(1.5, Caps), FoamPresent),
             Recommendation(ClarifierCurative, Quantity(6.0, Caps), Cloudy(5))]
  {
  }
}
