/** Algebraic laws of the hourly-margin formula: the degenerate guard, the
    closed form, linearity in the unit margin and monotonicity in speed,
    setup time and batch size. */
module MarginLaws {
  import opened MarginEngine

  /** On the dashboard's domain the defensive `part1 + part2 == 0` branch is
      dead: the unit time is strictly positive. */
  lemma UnitTimePositive(speed: real, setup: real, batch: real)
    requires speed > 0.0 && batch > 0.0 && setup >= 0.0
    ensures UnitTime(speed, setup, batch) > 0.0
  {
    assert 1.0 / (MinutesPerHour * speed) > 0.0;
    assert setup / batch >= 0.0;
  }

  /** The defensive branch is not dead over all reals: a negative speed can
      cancel the setup share exactly, and the margin is then 0 whatever the
      unit margin. */
  lemma DefensiveBranchReachable()
    ensures UnitTime(-1.0 / 60.0, 1.0, 1.0) == 0.0
    ensures HourlyMargin(1000.0, -1.0 / 60.0, 1.0, 1.0) == 0.0
  {
  }

  /** On the normal domain the margin is the unit margin divided by the unit
      time (per thousand). */
  lemma MarginAsQuotient(unitMargin: real, speed: real, setup: real, batch: real)
    requires speed > 0.0 && batch > 0.0 && setup >= 0.0
    ensures UnitTime(speed, setup, batch) > 0.0
    ensures HourlyMargin(unitMargin, speed, setup, batch)
         == (unitMargin / UnitsPerMarginQuote) / UnitTime(speed, setup, batch)
  {
    UnitTimePositive(speed, setup, batch);
  }

  /** Closed form without nested fractions. */
  lemma ClosedForm(unitMargin: real, speed: real, setup: real, batch: real)
    requires speed > 0.0 && batch > 0.0 && setup >= 0.0
    ensures HourlyMargin(unitMargin, speed, setup, batch)
         == unitMargin * 60.0 * speed * batch / (1000.0 * (batch + 60.0 * speed * setup))
  {
    var d := UnitTime(speed, setup, batch);
    var n := batch + 60.0 * speed * setup;
    UnitTimePositive(speed, setup, batch);
    assert n > 0.0;
    assert d == n / (60.0 * speed * batch);
    assert 1.0 / d == 60.0 * speed * batch / n;
  }

  /** The worked example: 1000 per thousand, 100 units/min, 1 min setup,
      batch 500 gives 6000/13 (about 461.54) per hour. */
  lemma WorkedExample()
    ensures HourlyMargin(1000.0, 100.0, 1.0, 500.0) == 6000.0 / 13.0
  {
    ClosedForm(1000.0, 100.0, 1.0, 500.0);
  }
}

module MarginMonotonicity {
  import opened MarginEngine
  import opened MarginLaws

  /** The margin is linear in the unit margin, on every input: scaling the
      unit margin scales the result, and unit margins add. */
  lemma LinearInUnitMargin(k: real, m1: real, m2: real, speed: real, setup: real, batch: real)
    ensures HourlyMargin(k * m1, speed, setup, batch) == k * HourlyMargin(m1, speed, setup, batch)
    ensures HourlyMargin(m1 + m2, speed, setup, batch)
         == HourlyMargin(m1, speed, setup, batch) + HourlyMargin(m2, speed, setup, batch)
  {
    if speed != 0.0 && batch != 0.0 && UnitTime(speed, setup, batch) != 0.0 {
      var c := 1.0 / UnitTime(speed, setup, batch);
      assert HourlyMargin(k * m1, speed, setup, batch) == c * ((k * m1) / 1000.0);
      assert HourlyMargin(m1, speed, setup, batch) == c * (m1 / 1000.0);
      assert HourlyMargin(m2, speed, setup, batch) == c * (m2 / 1000.0);
      assert HourlyMargin(m1 + m2, speed, setup, batch) == c * ((m1 + m2) / 1000.0);
    }
  }

  /** Non-negative inputs give a non-negative margin. */
  lemma NonNegative(unitMargin: real, speed: real, setup: real, batch: real)
    requires NonNegativeInputs(unitMargin, speed, setup, batch)
    ensures HourlyMargin(unitMargin, speed, setup, batch) >= 0.0
  {
    if speed > 0.0 && batch > 0.0 {
      MarginAsQuotient(unitMargin, speed, setup, batch);
    }
  }

  /** `k / d` falls as a positive `d` grows, strictly when `k > 0`. */
  lemma QuotientAntitone(k: real, d1: real, d2: real)
    requires k >= 0.0 && 0.0 < d1 <= d2
    ensures k / d2 <= k / d1
    ensures k > 0.0 && d1 < d2 ==> k / d2 < k / d1
  {
    var q1, q2 := k / d1, k / d2;
    assert q1 * d1 == k && q2 * d2 == k;
    assert q1 >= 0.0;
    assert q1 * d1 <= q1 * d2;
    assert (q1 - q2) * d2 >= 0.0;
    if k > 0.0 && d1 < d2 {
      assert q1 > 0.0;
      assert q1 * d1 < q1 * d2;
      assert (q1 - q2) * d2 > 0.0;
    }
  }

  /** Dividing by a positive number keeps order, strictly for strict order. */
  lemma QuotientMonotone(a: real, b: real, c: real)
    requires a <= b && c > 0.0
    ensures a / c <= b / c
    ensures a < b ==> a / c < b / c
  {
    assert b / c - a / c == (b - a) / c;
  }

  /** With speed and batch positive and a non-negative setup, a larger unit
      margin gives a strictly larger margin. */
  lemma StrictlyIncreasingInUnitMargin(m1: real, m2: real, speed: real, setup: real, batch: real)
    requires speed > 0.0 && batch > 0.0 && setup >= 0.0 && m1 < m2
    ensures HourlyMargin(m1, speed, setup, batch) < HourlyMargin(m2, speed, setup, batch)
  {
    MarginAsQuotient(m1, speed, setup, batch);
    MarginAsQuotient(m2, speed, setup, batch);
    var d := UnitTime(speed, setup, batch);
    assert m1 / 1000.0 < m2 / 1000.0;
    assert (m1 / 1000.0) / d < (m2 / 1000.0) / d;
  }

  /** A faster line earns more per hour: non-strictly on the non-negative
      domain, strictly once unit margin and batch are positive. A zero speed
      earns nothing, so the comparison also covers a speed slowed to 0. */
  lemma MonotoneInSpeed(unitMargin: real, s1: real, s2: real, setup: real, batch: real)
    requires NonNegativeInputs(unitMargin, s1, setup, batch) && s1 <= s2
    ensures HourlyMargin(unitMargin, s1, setup, batch) <= HourlyMargin(unitMargin, s2, setup, batch)
    ensures unitMargin > 0.0 && batch > 0.0 && s1 < s2 ==>
              HourlyMargin(unitMargin, s1, setup, batch) < HourlyMargin(unitMargin, s2, setup, batch)
  {
    if batch == 0.0 {
    } else if s1 == 0.0 {
      NonNegative(unitMargin, s2, setup, batch);
      if unitMargin > 0.0 && s1 < s2 {
        MarginAsQuotient(unitMargin, s2, setup, batch);
        assert (unitMargin / 1000.0) / UnitTime(s2, setup, batch) > 0.0;
      }
    } else {
      MarginAsQuotient(unitMargin, s1, setup, batch);
      MarginAsQuotient(unitMargin, s2, setup, batch);
      assert 1.0 / (60.0 * s2) <= 1.0 / (60.0 * s1) by {
        QuotientAntitone(1.0, 60.0 * s1, 60.0 * s2);
      }
      QuotientAntitone(unitMargin / 1000.0, UnitTime(s2, setup, batch), UnitTime(s1, setup, batch));
    }
  }

  /** A longer setup costs margin: non-strictly on the non-negative domain,
      strictly once unit margin, speed and batch are positive. */
  lemma AntitoneInSetup(unitMargin: real, speed: real, t1: real, t2: real, batch: real)
    requires NonNegativeInputs(unitMargin, speed, t1, batch) && t1 <= t2
    ensures HourlyMargin(unitMargin, speed, t2, batch) <= HourlyMargin(unitMargin, speed, t1, batch)
    ensures unitMargin > 0.0 && speed > 0.0 && batch > 0.0 && t1 < t2 ==>
              HourlyMargin(unitMargin, speed, t2, batch) < HourlyMargin(unitMargin, speed, t1, batch)
  {
    if speed > 0.0 && batch > 0.0 {
      MarginAsQuotient(unitMargin, speed, t1, batch);
      MarginAsQuotient(unitMargin, speed, t2, batch);
      QuotientMonotone(t1, t2, batch);
      QuotientAntitone(unitMargin / 1000.0, UnitTime(speed, t1, batch), UnitTime(speed, t2, batch));
    }
  }

  /** A larger batch spreads the setup over more units: non-strictly on the
      non-negative domain, strictly when unit margin, speed and setup are
      positive. A batch grown from 0 also gains strictly. */
  lemma MonotoneInBatch(unitMargin: real, speed: real, setup: real, b1: real, b2: real)
    requires NonNegativeInputs(unitMargin, speed, setup, b1) && b1 <= b2
    ensures HourlyMargin(unitMargin, speed, setup, b1) <= HourlyMargin(unitMargin, speed, setup, b2)
    ensures unitMargin > 0.0 && speed > 0.0 && setup > 0.0 && b1 < b2 ==>
              HourlyMargin(unitMargin, speed, setup, b1) < HourlyMargin(unitMargin, speed, setup, b2)
    ensures unitMargin > 0.0 && speed > 0.0 && b1 == 0.0 < b2 ==>
              HourlyMargin(unitMargin, speed, setup, b1) < HourlyMargin(unitMargin, speed, setup, b2)
  {
    if speed == 0.0 {
    } else if b1 == 0.0 {
      NonNegative(unitMargin, speed, setup, b2);
      if unitMargin > 0.0 && b1 < b2 {
        MarginAsQuotient(unitMargin, speed, setup, b2);
        assert (unitMargin / 1000.0) / UnitTime(speed, setup, b2) > 0.0;
      }
    } else {
      MarginAsQuotient(unitMargin, speed, setup, b1);
      MarginAsQuotient(unitMargin, speed, setup, b2);
      QuotientAntitone(setup, b1, b2);
      QuotientAntitone(unitMargin / 1000.0, UnitTime(speed, setup, b2), UnitTime(speed, setup, b1));
    }
  }

  /** Without setup time the batch size does not matter: every positive
      batch gives the pure running-time margin, 60 * speed * m / 1000. */
  lemma IndependentOfBatchWithoutSetup(unitMargin: real, speed: real, batch: real)
    requires speed > 0.0 && batch > 0.0
    ensures HourlyMargin(unitMargin, speed, 0.0, batch) == 60.0 * speed * unitMargin / 1000.0
  {
    ClosedForm(unitMargin, speed, 0.0, batch);
  }
}
