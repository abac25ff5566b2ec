/** The hourly-margin formula of the calculator, its tier-2 (EBITDA) variant
    and the algebraic facts the charts rely on. Every quantity is an exact
    `real`; speed is in units per minute, setup time in minutes, the unit
    margin in currency per thousand units. */
module MarginEngine {

  /** The unit margin is quoted per thousand units. */
  const UnitsPerMarginQuote: real := 1000.0

  /** Speed is per minute and the margin is per hour. */
  const MinutesPerHour: real := 60.0

  /** Time, in minutes, that one unit costs: its share of running time plus
      its share of the batch's setup time. Defined only when both divisors
      are non-zero, which the guard of `HourlyMargin` establishes. */
  function UnitTime(speed: real, setup: real, batch: real): real
    requires speed != 0.0 && batch != 0.0
  {
    1.0 / (MinutesPerHour * speed) + setup / batch
  }

  /** The tier-1 (contribution) hourly margin. A zero speed or batch size is
      a degenerate input and yields 0 rather than an error; so does a zero
      unit time, which only negative inputs can produce. */
  function HourlyMargin(unitMargin: real, speed: real, setup: real, batch: real): (r: real)
    ensures speed == 0.0 || batch == 0.0 ==> r == 0.0
    ensures unitMargin == 0.0 ==> r == 0.0
  {
    if speed == 0.0 || batch == 0.0 then 0.0
    else
      var part1 := 1.0 / (MinutesPerHour * speed);
      var part2 := setup / batch;
      if part1 + part2 == 0.0 then 0.0
      else (1.0 / (part1 + part2)) * (unitMargin / UnitsPerMarginQuote)
  }

  /** The inputs the dashboard can produce: every quantity non-negative. */
  predicate NonNegativeInputs(unitMargin: real, speed: real, setup: real, batch: real)
  {
    unitMargin >= 0.0 && speed >= 0.0 && setup >= 0.0 && batch >= 0.0
  }

  // ---------------------------------------------------------------------
  // Tier 2: the fixed-cost discount

  /** The one plant whose fixed cost differs, matched by exact name. */
  const ChillanPlant: string := "Chillán"
  const ChillanDiscount: real := 317.26
  const DefaultDiscount: real := 295.29

  /** The fixed cost per hour that separates the tier-1 margin from the
      tier-2 margin: a two-way rule on the exact plant name. */
  function Discount(plant: string): (d: real)
    ensures d == ChillanDiscount <==> plant == ChillanPlant
    ensures d == DefaultDiscount <==> plant != ChillanPlant
    ensures d > 0.0
  {
    if plant == ChillanPlant then ChillanDiscount else DefaultDiscount
  }

  /** Both margins shown for one (plant, line) at its current inputs: the
      tier-1 (contribution) margin and the tier-2 (EBITDA) margin, which is
      the tier-1 margin less the plant's discount. */
  datatype MarginResult = MarginResult(tier1: real, tier2: real)

  function Evaluate(plant: string, unitMargin: real, speed: real, setup: real, batch: real): (r: MarginResult)
    ensures r.tier1 == HourlyMargin(unitMargin, speed, setup, batch)
    ensures r.tier1 - r.tier2 == Discount(plant)
    ensures r.tier2 < r.tier1
  {
    var tier1 := HourlyMargin(unitMargin, speed, setup, batch);
    MarginResult(tier1, tier1 - Discount(plant))
  }
}
