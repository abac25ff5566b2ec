/** The two sensitivity sweeps behind the charts: 50 evenly spaced values of
    the unit margin or of the batch size, and for each value the tier-2
    margin at the current inputs (the centre line) and at the pessimistic
    and optimistic parameter combinations (the band). */
module Sweep {
  import opened MarginEngine
  import opened Percent

  /** Number of points of each sweep domain. */
  const SweepPoints: nat := 50

  /** Point `i` of `n` evenly spaced values from `lo` to `hi`, both ends
      included; a one-point range holds just `lo`. */
  function LinspacePoint(lo: real, hi: real, n: nat, i: nat): real
  {
    if n <= 1 then lo else lo + (i as real) * ((hi - lo) / ((n - 1) as real))
  }

  /** `n` evenly spaced values from `lo` to `hi`, endpoints included. */
  function Linspace(lo: real, hi: real, n: nat): (xs: seq<real>)
    ensures |xs| == n
    ensures n >= 1 ==> xs[0] == lo
    ensures n >= 2 ==> xs[n - 1] == hi
    ensures n >= 2 ==> forall i :: 0 <= i < n - 1 ==> xs[i + 1] - xs[i] == (hi - lo) / ((n - 1) as real)
  {
    var xs := seq(n, i requires 0 <= i < n => LinspacePoint(lo, hi, n, i));
    assert n >= 2 ==> xs[n - 1] == hi by {
      if n >= 2 {
        var step := (hi - lo) / ((n - 1) as real);
        assert ((n - 1) as real) * step == hi - lo;
      }
    }
    xs
  }

  /** Unit-margin axis: from half to one and a half times the current value. */
  function MarginDomain(unitMargin: real): (xs: seq<real>)
    ensures |xs| == SweepPoints
  {
    Linspace(unitMargin * 0.5, unitMargin * 1.5, SweepPoints)
  }

  /** Batch-size axis: from half to four times the current value. */
  function BatchDomain(batch: real): (xs: seq<real>)
    ensures |xs| == SweepPoints
  {
    Linspace(batch * 0.5, batch * 4.0, SweepPoints)
  }

  /** Speed and setup time at the two ends of the variation band. */
  datatype Band = Band(speedLow: real, speedHigh: real, setupLow: real, setupHigh: real)

  /** The band for a speed variation of `speedPct` percent and a setup
      variation of `setupPct` percent, either way of the current value. */
  function Variation(speed: real, setup: real, speedPct: int, setupPct: int): (b: Band)
    ensures b.speedLow + b.speedHigh == 2.0 * speed
    ensures b.setupLow + b.setupHigh == 2.0 * setup
    ensures b.speedHigh - b.speedLow == 2.0 * speed * ((speedPct as real) / 100.0)
    ensures b.setupHigh - b.setupLow == 2.0 * setup * ((setupPct as real) / 100.0)
  {
    Band(Scale(speed, -speedPct), Scale(speed, speedPct), Scale(setup, -setupPct), Scale(setup, setupPct))
  }

  /** One chart's data: the x values, the three aligned y series and the
      highlighted current point. */
  datatype Series = Series(domain: seq<real>, center: seq<real>, bandMin: seq<real>, bandMax: seq<real>,
                           highlightX: real, highlightY: real)
  {
    predicate Aligned()
    {
      |domain| == |center| == |bandMin| == |bandMax| == SweepPoints
    }
  }

  /** The margin-versus-unit-margin chart. The band's lower curve pairs the
      low speed with the high setup time, the upper curve the high speed
      with the low setup time. */
  function MarginSweep(plant: string, unitMargin: real, speed: real, setup: real, batch: real,
                       speedPct: int, setupPct: int): (w: Series)
    ensures w.Aligned()
    ensures w.domain == MarginDomain(unitMargin)
    ensures var b := Variation(speed, setup, speedPct, setupPct);
            forall i :: 0 <= i < SweepPoints ==>
              && w.center[i] == Evaluate(plant, w.domain[i], speed, setup, batch).tier2
              && w.bandMin[i] == Evaluate(plant, w.domain[i], b.speedLow, b.setupHigh, batch).tier2
              && w.bandMax[i] == Evaluate(plant, w.domain[i], b.speedHigh, b.setupLow, batch).tier2
    ensures w.highlightX == unitMargin
    ensures w.highlightY == Evaluate(plant, unitMargin, speed, setup, batch).tier2
  {
    var xs := MarginDomain(unitMargin);
    var band := Variation(speed, setup, speedPct, setupPct);
    Series(xs,
           seq(SweepPoints, i requires 0 <= i < SweepPoints => Evaluate(plant, xs[i], speed, setup, batch).tier2),
           seq(SweepPoints, i requires 0 <= i < SweepPoints => Evaluate(plant, xs[i], band.speedLow, band.setupHigh, batch).tier2),
           seq(SweepPoints, i requires 0 <= i < SweepPoints => Evaluate(plant, xs[i], band.speedHigh, band.setupLow, batch).tier2),
           unitMargin, Evaluate(plant, unitMargin, speed, setup, batch).tier2)
  }

  /** The margin-versus-batch-size chart, unit margin held at its current
      value, with the same band pairing. */
  function BatchSweep(plant: string, unitMargin: real, speed: real, setup: real, batch: real,
                      speedPct: int, setupPct: int): (w: Series)
    ensures w.Aligned()
    ensures w.domain == BatchDomain(batch)
    ensures var b := Variation(speed, setup, speedPct, setupPct);
            forall i :: 0 <= i < SweepPoints ==>
              && w.center[i] == Evaluate(plant, unitMargin, speed, setup, w.domain[i]).tier2
              && w.bandMin[i] == Evaluate(plant, unitMargin, b.speedLow, b.setupHigh, w.domain[i]).tier2
              && w.bandMax[i] == Evaluate(plant, unitMargin, b.speedHigh, b.setupLow, w.domain[i]).tier2
    ensures w.highlightX == batch
    ensures w.highlightY == Evaluate(plant, unitMargin, speed, setup, batch).tier2
  {
    var xs := BatchDomain(batch);
    var band := Variation(speed, setup, speedPct, setupPct);
    Series(xs,
           seq(SweepPoints, i requires 0 <= i < SweepPoints => Evaluate(plant, unitMargin, speed, setup, xs[i]).tier2),
           seq(SweepPoints, i requires 0 <= i < SweepPoints => Evaluate(plant, unitMargin, band.speedLow, band.setupHigh, xs[i]).tier2),
           seq(SweepPoints, i requires 0 <= i < SweepPoints => Evaluate(plant, unitMargin, band.speedHigh, band.setupLow, xs[i]).tier2),
           batch, Evaluate(plant, unitMargin, speed, setup, batch).tier2)
  }
}
