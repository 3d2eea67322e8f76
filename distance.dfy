/**
 * The distance presenter (components/distance.tsx): from one route leg, the
 * yearly commute time in whole days and the yearly fuel cost.
 *
 * The source computes with JavaScript numbers and `Math.floor`. Here the leg's
 * distance (meters) and duration (seconds) are natural numbers, and the
 * arithmetic is carried out exactly as written, over exact reals, before
 * taking the floor. The contracts then state the same quantities as
 * natural-number divisions.
 */
module Distance {

  import opened Wrappers

  /** Two trips (there and back) on each of 260 working days. */
  const CommutesPerYear: nat := 260 * 2
  /** Fuel consumption: 10 litres per 100 km. */
  const LitresPerKm: real := 10.0 / 100.0
  /** Price of one litre of fuel. */
  const GasLitreCost: real := 1.5
  /** Fuel cost of one kilometre. */
  const LitreCostKm: real := LitresPerKm * GasLitreCost
  const SecondsPerDay: nat := 60 * 60 * 24

  /** A distance or a duration of a leg: its display text and its numeric value. */
  datatype Quantity = Quantity(text: string, value: nat)

  /** A route leg; either part may be missing while the route is not yet known. */
  datatype Leg = Leg(distance: Option<Quantity>, duration: Option<Quantity>)

  /** What the presenter derives from a leg. */
  datatype Estimate = Estimate(days: nat, cost: nat)

  /** The floor of an exact ratio of naturals is natural-number division. */
  lemma FloorOfRatio(a: nat, b: nat)
    requires b > 0
    ensures (a as real / b as real).Floor == a / b
  {
    var q, r := a / b, a % b;
    assert a == q * b + r;
    assert a as real == q as real * b as real + r as real;
    assert a as real / b as real == q as real + r as real / b as real;
    assert 0.0 <= r as real / b as real < 1.0;
  }

  /** Whole days per year spent commuting, for a one-way trip of `seconds`. */
  function AnnualDays(seconds: nat): (days: nat)
    ensures days == CommutesPerYear * seconds / SecondsPerDay
  {
    FloorOfRatio(CommutesPerYear * seconds, SecondsPerDay);
    ((CommutesPerYear * seconds) as real / SecondsPerDay as real).Floor
  }

  /** Yearly fuel cost, in whole currency units, for a one-way trip of `meters`. */
  function AnnualCost(meters: nat): (cost: nat)
    ensures cost == 78 * meters / 1000
  {
    var exact := (meters as real / 1000.0) * LitreCostKm * CommutesPerYear as real;
    assert exact == (78 * meters) as real / 1000 as real;
    FloorOfRatio(78 * meters, 1000);
    exact.Floor
  }

  /**
   * The presenter, the component `Distance` of components/distance.tsx:
   * nothing when the leg lacks its distance or its duration object,
   * otherwise the two estimates.
   */
  function Commute(leg: Leg): (r: Option<Estimate>)
    ensures r.None? <==> leg.distance.None? || leg.duration.None?
    ensures r.Some? ==> r.value.days == CommutesPerYear * leg.duration.value.value / SecondsPerDay
    ensures r.Some? ==> r.value.cost == 78 * leg.distance.value.value / 1000
  {
    if leg.distance.None? || leg.duration.None? then None
    else Some(Estimate(AnnualDays(leg.duration.value.value), AnnualCost(leg.distance.value.value)))
  }

  /** The guard tests that the objects are present, not that their values are non-zero. */
  lemma ZeroLegIsShown(distanceText: string, durationText: string)
    ensures Commute(Leg(Some(Quantity(distanceText, 0)), Some(Quantity(durationText, 0))))
            == Some(Estimate(0, 0))
  {
  }

  /** A 20 km, 30 minute commute costs 10 days and 1560 per year. */
  lemma WorkedExample()
    ensures Commute(Leg(Some(Quantity("20 km", 20000)), Some(Quantity("30 mins", 1800))))
            == Some(Estimate(10, 1560))
  {
  }

  /** The days depend on the duration alone, the cost on the distance alone. */
  lemma EstimatesAreIndependent(leg1: Leg, leg2: Leg)
    requires Commute(leg1).Some? && Commute(leg2).Some?
    ensures leg1.duration.value.value == leg2.duration.value.value ==>
            Commute(leg1).value.days == Commute(leg2).value.days
    ensures leg1.distance.value.value == leg2.distance.value.value ==>
            Commute(leg1).value.cost == Commute(leg2).value.cost
  {
  }

  /** A longer trip never yields fewer days. */
  lemma DaysAreMonotone(seconds1: nat, seconds2: nat)
    requires seconds1 <= seconds2
    ensures AnnualDays(seconds1) <= AnnualDays(seconds2)
  {
  }

  /** A farther trip never costs less. */
  lemma CostIsMonotone(meters1: nat, meters2: nat)
    requires meters1 <= meters2
    ensures AnnualCost(meters1) <= AnnualCost(meters2)
  {
  }
}
