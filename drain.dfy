/** The management page's estimate of when the water should be changed
    (`updateGestion`): a fold of person-minutes over the bathing sessions and
    a three-way classification against fixed thresholds. */
module Drain {
  import opened Wrappers

  /** One bathing session: number of people and duration in minutes. */
  datatype Session = Session(persons: int, minutes: int)

  /** What the estimate shows: "-", "Bientôt recommandée", "Recommandée" or "~n jours". */
  datatype Estimate = NoDate | Soon | Recommended | DaysLeft(days: int)

  /** Thresholds, in person-minutes and in days since filling. */
  const SoonLoad: int := 1500
  const ChangeLoad: int := 2000
  const SoonAge: int := 75
  const ChangeAge: int := 90

  /** Total person-minutes: the left fold (`reduce`) over the sessions, starting from 0. */
  function PersonMinutes(sessions: seq<Session>): (total: int)
    ensures Plausible(sessions) ==> total >= 0
  {
    if sessions == [] then 0
    else
      var last := sessions[|sessions| - 1];
      assert Plausible(sessions) ==> Plausible(sessions[..|sessions| - 1]) && last.persons * last.minutes >= 0;
      PersonMinutes(sessions[..|sessions| - 1]) + last.persons * last.minutes
  }

  /** The total over two lists of sessions is the sum of their totals. */
  lemma {:induction false} PersonMinutesAppend(a: seq<Session>, b: seq<Session>)
    ensures PersonMinutes(a + b) == PersonMinutes(a) + PersonMinutes(b)
  {
    if b == [] {
      assert a + b == a;
    } else {
      var b' := b[..|b| - 1];
      assert (a + b)[..|a + b| - 1] == a + b';
      assert (a + b)[|a + b| - 1] == b[|b| - 1];
      PersonMinutesAppend(a, b');
    }
  }

  /** Sessions that really happened have a non-negative number of people and minutes. */
  predicate Plausible(sessions: seq<Session>) {
    forall i :: 0 <= i < |sessions| ==> sessions[i].persons >= 0 && sessions[i].minutes >= 0
  }

  /** The classification as the code is written: the "Recommandée" test comes
      after a test that every one of its cases already passes. */
  function EstimateAsWritten(load: int, age: int): (e: Estimate)
    ensures e == Soon <==> load > SoonLoad || age > SoonAge
    ensures e.DaysLeft? ==> e.days == ChangeAge - age
    ensures e != NoDate
  {
    if load > SoonLoad || age > SoonAge then Soon
    else if load > ChangeLoad || age > ChangeAge then Recommended
    else DaysLeft(ChangeAge - age)
  }

  /** As written, "Recommandée" is never shown, however heavy the use. */
  lemma RecommendedUnreachable(load: int, age: int)
    ensures EstimateAsWritten(load, age) != Recommended
    ensures EstimateAsWritten(load, age).DaysLeft? ==>
      load <= SoonLoad && age <= SoonAge && EstimateAsWritten(load, age).days >= ChangeAge - SoonAge
  {
  }

  /** A concrete case: 2500 person-minutes after 100 days still reads "Bientôt recommandée". */
  lemma HeavyUseNotEscalated()
    ensures EstimateAsWritten(2500, 100) == Soon
  {
  }

  /** The classification with the stronger test first, so that each band is reachable. */
  function ClassifyLoad(load: int, age: int): (e: Estimate)
    ensures e == Recommended <==> load > ChangeLoad || age > ChangeAge
    ensures e == Soon <==> !(load > ChangeLoad || age > ChangeAge) && (load > SoonLoad || age > SoonAge)
    ensures e.DaysLeft? <==> load <= SoonLoad && age <= SoonAge
    ensures e.DaysLeft? ==> e.days == ChangeAge - age && e.days >= ChangeAge - SoonAge
    ensures e != NoDate
  {
    if load > ChangeLoad || age > ChangeAge then Recommended
    else if load > SoonLoad || age > SoonAge then Soon
    else DaysLeft(ChangeAge - age)
  }

  /** How urgent an estimate is. */
  function Urgency(e: Estimate): nat {
    match e
    case NoDate => 0
    case DaysLeft(_) => 1
    case Soon => 2
    case Recommended => 3
  }

  /** More use or older water never makes the estimate less urgent. */
  lemma UrgencyMonotone(load: int, age: int, load': int, age': int)
    requires load <= load' && age <= age'
    ensures Urgency(ClassifyLoad(load, age)) <= Urgency(ClassifyLoad(load', age'))
  {
  }

  /** The two versions differ only where the water is due for a change. */
  lemma CorrectionOnlyEscalates(load: int, age: int)
    ensures ClassifyLoad(load, age) != Recommended ==> EstimateAsWritten(load, age) == ClassifyLoad(load, age)
    ensures ClassifyLoad(load, age) == Recommended ==> EstimateAsWritten(load, age) == Soon
  {
  }

  /** The management page's estimate as the code is written: "-" until a filling
      date is set, and never "Recommandée". */
  function DrainEstimateAsWritten(age: Option<int>, sessions: seq<Session>): (e: Estimate)
    ensures e == NoDate <==> age.None?
    ensures e != Recommended
    ensures e == Soon <==> age.Some? && (PersonMinutes(sessions) > SoonLoad || age.value > SoonAge)
    ensures e.DaysLeft? ==> e.days == ChangeAge - age.value && e.days >= ChangeAge - SoonAge
  {
    match age
    case None => NoDate
    case Some(days) => EstimateAsWritten(PersonMinutes(sessions), days)
  }

  /** The estimate with the corrected classification: "-" until a filling date is set. */
  function DrainEstimate(age: Option<int>, sessions: seq<Session>): (e: Estimate)
    ensures e == NoDate <==> age.None?
    ensures age.Some? ==> e == ClassifyLoad(PersonMinutes(sessions), age.value)
  {
    match age
    case None => NoDate
    case Some(days) => ClassifyLoad(PersonMinutes(sessions), days)
  }

  /** Logging one more session never makes the estimate less urgent. */
  lemma NewSessionNeverRelaxes(age: Option<int>, sessions: seq<Session>, s: Session)
    requires s.persons >= 0 && s.minutes >= 0
    ensures Urgency(DrainEstimate(age, sessions)) <= Urgency(DrainEstimate(age, sessions + [s]))
  {
  }
}
