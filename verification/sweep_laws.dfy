/** Properties of the sweep domains and of the three series of each chart. */
module SweepLaws {
  import opened MarginEngine
  import opened MarginMonotonicity
  import opened Sweep

  /** Between any two points the distance is the number of steps times the
      step. */
  lemma LinspaceDistance(lo: real, hi: real, n: nat, i: nat, j: nat)
    requires 2 <= n && i <= j < n
    ensures Linspace(lo, hi, n)[j] - Linspace(lo, hi, n)[i] == ((j - i) as real) * ((hi - lo) / ((n - 1) as real))
  {
  }

  /** An increasing range gives strictly increasing points, all within the
      range; an empty range gives `n` copies of its one value. */
  lemma LinspaceOrder(lo: real, hi: real, n: nat)
    requires lo <= hi
    ensures forall i :: 0 <= i < n ==> lo <= Linspace(lo, hi, n)[i] <= hi
    ensures lo < hi ==> forall i, j :: 0 <= i < j < n ==> Linspace(lo, hi, n)[i] < Linspace(lo, hi, n)[j]
    ensures lo == hi ==> forall i :: 0 <= i < n ==> Linspace(lo, hi, n)[i] == lo
  {
    var xs := Linspace(lo, hi, n);
    if n >= 2 {
      var step := (hi - lo) / ((n - 1) as real);
      assert step >= 0.0;
      assert ((n - 1) as real) * step == hi - lo;
      forall i | 0 <= i < n
        ensures lo <= xs[i] <= hi
      {
        LinspaceDistance(lo, hi, n, 0, i);
        LinspaceDistance(lo, hi, n, i, n - 1);
        assert (((n - 1 - i) as real)) * step >= 0.0;
      }
      if lo < hi {
        assert step > 0.0;
        forall i, j | 0 <= i < j < n
          ensures xs[i] < xs[j]
        {
          LinspaceDistance(lo, hi, n, i, j);
          assert ((j - i) as real) * step > 0.0;
        }
      }
    }
  }

  /** The unit-margin axis: 50 points from 0.5 m to 1.5 m in steps of m/49,
      strictly increasing when m > 0 and all 0 when m = 0. */
  lemma MarginDomainShape(unitMargin: real)
    ensures MarginDomain(unitMargin)[0] == 0.5 * unitMargin
    ensures MarginDomain(unitMargin)[SweepPoints - 1] == 1.5 * unitMargin
    ensures forall i :: 0 <= i < SweepPoints - 1 ==>
              MarginDomain(unitMargin)[i + 1] - MarginDomain(unitMargin)[i] == unitMargin / 49.0
    ensures unitMargin > 0.0 ==> forall i, j :: 0 <= i < j < SweepPoints ==>
              MarginDomain(unitMargin)[i] < MarginDomain(unitMargin)[j]
    ensures unitMargin == 0.0 ==> forall i :: 0 <= i < SweepPoints ==> MarginDomain(unitMargin)[i] == 0.0
    ensures unitMargin >= 0.0 ==> forall i :: 0 <= i < SweepPoints ==> MarginDomain(unitMargin)[i] >= 0.0
  {
    if unitMargin >= 0.0 {
      LinspaceOrder(unitMargin * 0.5, unitMargin * 1.5, SweepPoints);
    }
  }

  /** The batch axis: 50 points from 0.5 b to 4 b in steps of b/14,
      strictly increasing when b > 0 and all 0 when b = 0. */
  lemma BatchDomainShape(batch: real)
    ensures BatchDomain(batch)[0] == 0.5 * batch
    ensures BatchDomain(batch)[SweepPoints - 1] == 4.0 * batch
    ensures forall i :: 0 <= i < SweepPoints - 1 ==>
              BatchDomain(batch)[i + 1] - BatchDomain(batch)[i] == batch / 14.0
    ensures batch > 0.0 ==> forall i, j :: 0 <= i < j < SweepPoints ==>
              BatchDomain(batch)[i] < BatchDomain(batch)[j]
    ensures batch == 0.0 ==> forall i :: 0 <= i < SweepPoints ==> BatchDomain(batch)[i] == 0.0
    ensures batch >= 0.0 ==> forall i :: 0 <= i < SweepPoints ==> BatchDomain(batch)[i] >= 0.0
  {
    if batch >= 0.0 {
      LinspaceOrder(batch * 0.5, batch * 4.0, SweepPoints);
    }
  }
}

/** Ordering of the band around the centre line, and where the highlighted
    point sits on each chart. */
module BandLaws {
  import opened MarginEngine
  import opened MarginMonotonicity
  import opened Sweep
  import opened SweepLaws

  lemma ProductNonNegative(a: real, b: real)
    requires a >= 0.0 && b >= 0.0
    ensures a * b >= 0.0
  {
  }

  /** With variations between 0 and 100 percent the band brackets the
      current speed and setup time and stays non-negative. */
  lemma VariationBrackets(speed: real, setup: real, speedPct: int, setupPct: int)
    requires speed >= 0.0 && setup >= 0.0
    requires 0 <= speedPct <= 100 && 0 <= setupPct <= 100
    ensures var b := Variation(speed, setup, speedPct, setupPct);
            0.0 <= b.speedLow <= speed <= b.speedHigh && 0.0 <= b.setupLow <= setup <= b.setupHigh
  {
    var p, q := (speedPct as real) / 100.0, (setupPct as real) / 100.0;
    assert 0.0 <= p <= 1.0 && 0.0 <= q <= 1.0;
    ProductNonNegative(speed, 1.0 - p);
    ProductNonNegative(speed, p);
    ProductNonNegative(setup, 1.0 - q);
    ProductNonNegative(setup, q);
  }

  /** At one x value, the pessimistic pairing (low speed, high setup) never
      beats the current inputs and the optimistic pairing (high speed, low
      setup) never falls below them. */
  lemma PairingOrdered(plant: string, unitMargin: real, speed: real, setup: real, batch: real, b: Band)
    requires NonNegativeInputs(unitMargin, speed, setup, batch)
    requires 0.0 <= b.speedLow <= speed <= b.speedHigh && 0.0 <= b.setupLow <= setup <= b.setupHigh
    ensures Evaluate(plant, unitMargin, b.speedLow, b.setupHigh, batch).tier2
         <= Evaluate(plant, unitMargin, speed, setup, batch).tier2
         <= Evaluate(plant, unitMargin, b.speedHigh, b.setupLow, batch).tier2
  {
    MonotoneInSpeed(unitMargin, b.speedLow, speed, b.setupHigh, batch);
    AntitoneInSetup(unitMargin, speed, setup, b.setupHigh, batch);
    MonotoneInSpeed(unitMargin, speed, b.speedHigh, setup, batch);
    AntitoneInSetup(unitMargin, b.speedHigh, b.setupLow, setup, batch);
  }

  /** Band ordering on the unit-margin chart: at every index the lower
      curve is at most the centre line, which is at most the upper curve. */
  lemma MarginSweepBandOrdered(plant: string, unitMargin: real, speed: real, setup: real, batch: real,
                               speedPct: int, setupPct: int)
    requires NonNegativeInputs(unitMargin, speed, setup, batch)
    requires 0 <= speedPct <= 100 && 0 <= setupPct <= 100
    ensures var w := MarginSweep(plant, unitMargin, speed, setup, batch, speedPct, setupPct);
            forall i :: 0 <= i < SweepPoints ==> w.bandMin[i] <= w.center[i] <= w.bandMax[i]
  {
    var w := MarginSweep(plant, unitMargin, speed, setup, batch, speedPct, setupPct);
    var band := Variation(speed, setup, speedPct, setupPct);
    VariationBrackets(speed, setup, speedPct, setupPct);
    MarginDomainShape(unitMargin);
    forall i | 0 <= i < SweepPoints
      ensures w.bandMin[i] <= w.center[i] <= w.bandMax[i]
    {
      PairingOrdered(plant, w.domain[i], speed, setup, batch, band);
    }
  }

  /** Band ordering on the batch-size chart. */
  lemma BatchSweepBandOrdered(plant: string, unitMargin: real, speed: real, setup: real, batch: real,
                              speedPct: int, setupPct: int)
    requires NonNegativeInputs(unitMargin, speed, setup, batch)
    requires 0 <= speedPct <= 100 && 0 <= setupPct <= 100
    ensures var w := BatchSweep(plant, unitMargin, speed, setup, batch, speedPct, setupPct);
            forall i :: 0 <= i < SweepPoints ==> w.bandMin[i] <= w.center[i] <= w.bandMax[i]
  {
    var w := BatchSweep(plant, unitMargin, speed, setup, batch, speedPct, setupPct);
    var band := Variation(speed, setup, speedPct, setupPct);
    VariationBrackets(speed, setup, speedPct, setupPct);
    BatchDomainShape(batch);
    forall i | 0 <= i < SweepPoints
      ensures w.bandMin[i] <= w.center[i] <= w.bandMax[i]
    {
      PairingOrdered(plant, unitMargin, speed, setup, w.domain[i], band);
    }
  }

  /** A 100 percent speed variation slows the pessimistic line to a halt:
      the zero-speed guard makes the lower curve exactly minus the discount
      on both charts. */
  lemma FullSpeedVariationFloorsBand(plant: string, unitMargin: real, speed: real, setup: real, batch: real,
                                     setupPct: int)
    ensures var w := MarginSweep(plant, unitMargin, speed, setup, batch, 100, setupPct);
            forall i :: 0 <= i < SweepPoints ==> w.bandMin[i] == -Discount(plant)
    ensures var w := BatchSweep(plant, unitMargin, speed, setup, batch, 100, setupPct);
            forall i :: 0 <= i < SweepPoints ==> w.bandMin[i] == -Discount(plant)
  {
    assert Variation(speed, setup, 100, setupPct).speedLow == 0.0;
  }

  /** With no variation the band collapses onto the centre line. */
  lemma NoVariationCollapsesBand(plant: string, unitMargin: real, speed: real, setup: real, batch: real)
    ensures var w := MarginSweep(plant, unitMargin, speed, setup, batch, 0, 0);
            w.bandMin == w.center == w.bandMax
    ensures var w := BatchSweep(plant, unitMargin, speed, setup, batch, 0, 0);
            w.bandMin == w.center == w.bandMax
  {
    var b := Variation(speed, setup, 0, 0);
    assert b.speedLow == speed == b.speedHigh && b.setupLow == setup == b.setupHigh;
  }

  /** The current unit margin lies half-way between domain points 24 and 25,
      and the margin is linear in the unit margin, so the highlighted point
      sits on the centre line: it is the mean of centre values 24 and 25. */
  lemma MarginHighlightOnCenter(plant: string, unitMargin: real, speed: real, setup: real, batch: real,
                                speedPct: int, setupPct: int)
    ensures var w := MarginSweep(plant, unitMargin, speed, setup, batch, speedPct, setupPct);
            && (w.domain[24] + w.domain[25]) / 2.0 == w.highlightX
            && (w.center[24] + w.center[25]) / 2.0 == w.highlightY
  {
    var w := MarginSweep(plant, unitMargin, speed, setup, batch, speedPct, setupPct);
    var x24, x25 := w.domain[24], w.domain[25];
    MarginDomainShape(unitMargin);
    LinspaceDistance(unitMargin * 0.5, unitMargin * 1.5, SweepPoints, 0, 24);
    assert x24 + x25 == 2.0 * unitMargin;
    LinearInUnitMargin(2.0, unitMargin, unitMargin, speed, setup, batch);
    LinearInUnitMargin(1.0, x24, x25, speed, setup, batch);
  }

  /** The current batch size is domain point 7 (0.5 b + 7 * b/14), so the
      highlighted point on the batch chart is centre value 7. */
  lemma BatchHighlightOnCenter(plant: string, unitMargin: real, speed: real, setup: real, batch: real,
                               speedPct: int, setupPct: int)
    ensures var w := BatchSweep(plant, unitMargin, speed, setup, batch, speedPct, setupPct);
            w.domain[7] == batch && w.center[7] == w.highlightY
  {
    BatchDomainShape(batch);
    LinspaceDistance(batch * 0.5, batch * 4.0, SweepPoints, 0, 7);
  }

  /** On the unit-margin chart the centre line rises strictly when speed,
      batch and the current unit margin are positive. */
  lemma MarginCenterIncreasing(plant: string, unitMargin: real, speed: real, setup: real, batch: real,
                               speedPct: int, setupPct: int)
    requires unitMargin > 0.0 && speed > 0.0 && batch > 0.0 && setup >= 0.0
    ensures var w := MarginSweep(plant, unitMargin, speed, setup, batch, speedPct, setupPct);
            forall i, j :: 0 <= i < j < SweepPoints ==> w.center[i] < w.center[j]
  {
    var w := MarginSweep(plant, unitMargin, speed, setup, batch, speedPct, setupPct);
    MarginDomainShape(unitMargin);
    forall i, j | 0 <= i < j < SweepPoints
      ensures w.center[i] < w.center[j]
    {
      StrictlyIncreasingInUnitMargin(w.domain[i], w.domain[j], speed, setup, batch);
    }
  }

  /** On the batch chart the centre line rises strictly when setup time is
      positive, and is flat when there is no setup time. */
  lemma BatchCenterShape(plant: string, unitMargin: real, speed: real, setup: real, batch: real,
                         speedPct: int, setupPct: int)
    requires unitMargin > 0.0 && speed > 0.0 && batch > 0.0 && setup >= 0.0
    ensures var w := BatchSweep(plant, unitMargin, speed, setup, batch, speedPct, setupPct);
            setup > 0.0 ==> forall i, j :: 0 <= i < j < SweepPoints ==> w.center[i] < w.center[j]
    ensures var w := BatchSweep(plant, unitMargin, speed, setup, batch, speedPct, setupPct);
            setup == 0.0 ==> forall i :: 0 <= i < SweepPoints ==> w.center[i] == w.highlightY
  {
    var w := BatchSweep(plant, unitMargin, speed, setup, batch, speedPct, setupPct);
    BatchDomainShape(batch);
    if setup > 0.0 {
      forall i, j | 0 <= i < j < SweepPoints
        ensures w.center[i] < w.center[j]
      {
        MonotoneInBatch(unitMargin, speed, setup, w.domain[i], w.domain[j]);
      }
    } else {
      forall i | 0 <= i < SweepPoints
        ensures w.center[i] == w.highlightY
      {
        IndependentOfBatchWithoutSetup(unitMargin, speed, w.domain[i]);
        IndependentOfBatchWithoutSetup(unitMargin, speed, batch);
      }
    }
  }
}
