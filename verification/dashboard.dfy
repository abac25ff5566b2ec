/** The calculation pass behind the "calculate and plot" button: for every
    selected (plant, line) it reads the adjusted speed and setup time from
    the store, computes both margins and builds both charts. The speed and
    setup number boxes shown beside the sliders are never read, so they do
    not appear here: the calculation's inputs are the stored adjusted
    values, the global unit margin and batch size, and the two band
    variation percentages. */
module Dashboard {
  import opened Options
  import opened MarginEngine
  import opened Sweep
  import opened ParameterStore

  /** Everything shown for one (plant, line). */
  datatype LineReport = LineReport(plant: string, line: string, result: MarginResult,
                                   marginChart: Series, batchChart: Series)

  /** The plants picked, in order, each with the lines picked for it. */
  type Selection = seq<(string, seq<string>)>

  /** Inputs shared by every line of one calculation pass. */
  datatype GlobalInputs = GlobalInputs(unitMargin: real, batch: real, speedVariationPct: int, setupVariationPct: int)

  /** The calculation for one (plant, line). The adjusted values are read by
      key, so a line that was never initialised is an error. */
  function CalculateLine(store: Store, plant: string, line: string, g: GlobalInputs): (r: Option<LineReport>)
    ensures r.Some? <==> (plant, line) in store
    ensures r.Some? ==>
              var e := store[(plant, line)];
              && r.value.plant == plant && r.value.line == line
              && r.value.result == Evaluate(plant, g.unitMargin, e.adjustedSpeed, e.adjustedSetup, g.batch)
              && r.value.marginChart.highlightY == r.value.result.tier2
              && r.value.batchChart.highlightY == r.value.result.tier2
              && r.value.marginChart.highlightX == g.unitMargin
              && r.value.batchChart.highlightX == g.batch
    ensures r.Some? ==>
              var e := store[(plant, line)];
              && r.value.marginChart == MarginSweep(plant, g.unitMargin, e.adjustedSpeed, e.adjustedSetup, g.batch,
                                                    g.speedVariationPct, g.setupVariationPct)
              && r.value.batchChart == BatchSweep(plant, g.unitMargin, e.adjustedSpeed, e.adjustedSetup, g.batch,
                                                  g.speedVariationPct, g.setupVariationPct)
  {
    if (plant, line) !in store then None
    else
      var e := store[(plant, line)];
      var speed, setup := e.adjustedSpeed, e.adjustedSetup;
      Some(LineReport(plant, line,
                      Evaluate(plant, g.unitMargin, speed, setup, g.batch),
                      MarginSweep(plant, g.unitMargin, speed, setup, g.batch, g.speedVariationPct, g.setupVariationPct),
                      BatchSweep(plant, g.unitMargin, speed, setup, g.batch, g.speedVariationPct, g.setupVariationPct)))
  }

  /** Number of (plant, line) pairs a selection asks for. */
  function TotalLines(selection: Selection): nat
  {
    if |selection| == 0 then 0 else |selection[0].1| + TotalLines(selection[1..])
  }

  /** The (plant, line) pairs of a selection in processing order: plants in
      selection order, each plant's lines in order. */
  function Pairs(selection: Selection): (ps: seq<(string, string)>)
    ensures |ps| == TotalLines(selection)
    decreases |selection|
  {
    if |selection| == 0 then [] else PlantPairs(selection[0].0, selection[0].1) + Pairs(selection[1..])
  }

  /** The (plant, line) pairs of one plant's lines, in order. */
  function PlantPairs(plant: string, lines: seq<string>): (ps: seq<(string, string)>)
    ensures |ps| == |lines| && forall j :: 0 <= j < |lines| ==> ps[j] == (plant, lines[j])
  {
    seq(|lines|, j requires 0 <= j < |lines| => (plant, lines[j]))
  }

  /** Every selected line has an entry in the store. */
  predicate Covers(store: Store, selection: Selection)
  {
    forall i, l :: 0 <= i < |selection| && l in selection[i].1 ==> (selection[i].0, l) in store
  }

  /** The calculations for one plant's lines, in order. */
  function CalculatePlant(store: Store, plant: string, lines: seq<string>, g: GlobalInputs): (r: Option<seq<LineReport>>)
    ensures r.Some? <==> forall l :: l in lines ==> (plant, l) in store
    ensures r.Some? ==> |r.value| == |lines|
    ensures r.Some? ==> forall j :: 0 <= j < |lines| ==>
              Some(r.value[j]) == CalculateLine(store, plant, lines[j], g)
    decreases |lines|
  {
    if |lines| == 0 then Some([])
    else match CalculateLine(store, plant, lines[0], g)
      case None => None
      case Some(report) =>
        match CalculatePlant(store, plant, lines[1..], g)
        case None =>
          assert forall l :: l in lines[1..] ==> l in lines;
          None
        case Some(reports) =>
          assert forall l :: l in lines ==> l == lines[0] || l in lines[1..];
          Some([report] + reports)
  }

  /** Covering a selection is covering its first plant's lines and the rest. */
  lemma CoversSplit(store: Store, selection: Selection)
    requires |selection| > 0
    ensures Covers(store, selection) <==>
              (forall l :: l in selection[0].1 ==> (selection[0].0, l) in store) && Covers(store, selection[1..])
  {
    assert forall i :: 1 <= i < |selection| ==> selection[i] == selection[1..][i - 1];
  }

  /** `reports` holds, position by position, the calculation for `pairs`. */
  predicate ReportsMatch(store: Store, pairs: seq<(string, string)>, reports: seq<LineReport>, g: GlobalInputs)
  {
    |reports| == |pairs|
    && forall k :: 0 <= k < |reports| ==> Some(reports[k]) == CalculateLine(store, pairs[k].0, pairs[k].1, g)
  }

  lemma ReportsMatchConcat(store: Store, p1: seq<(string, string)>, r1: seq<LineReport>,
                           p2: seq<(string, string)>, r2: seq<LineReport>, g: GlobalInputs)
    requires ReportsMatch(store, p1, r1, g) && ReportsMatch(store, p2, r2, g)
    ensures ReportsMatch(store, p1 + p2, r1 + r2, g)
  {
    var ps, rs := p1 + p2, r1 + r2;
    forall k | |r1| <= k < |rs|
      ensures rs[k] == r2[k - |r1|] && ps[k] == p2[k - |p1|]
    {
    }
  }

  /** The whole pass: plants in selection order, each plant's lines in order.
      One missing line aborts the pass. */
  function CalculateSelection(store: Store, selection: Selection, g: GlobalInputs): (r: Option<seq<LineReport>>)
    ensures r.Some? <==> Covers(store, selection)
    ensures r.Some? ==> |r.value| == TotalLines(selection) == |Pairs(selection)|
    ensures r.Some? ==> ReportsMatch(store, Pairs(selection), r.value, g)
    decreases |selection|
  {
    if |selection| == 0 then Some([])
    else
      CoversSplit(store, selection);
      match CalculatePlant(store, selection[0].0, selection[0].1, g)
      case None => None
      case Some(first) =>
        match CalculateSelection(store, selection[1..], g)
        case None => None
        case Some(rest) =>
          ReportsMatchConcat(store, PlantPairs(selection[0].0, selection[0].1), first, Pairs(selection[1..]), rest, g);
          Some(first + rest)
  }

  /** Every entry of `after` missing from `before` belongs to a selected
      (plant, line) and is fresh from that pair's seed row. */
  predicate AddedFromSelection(after: Store, before: Store, table: seq<SeedRow>, selection: Selection)
  {
    forall k :: k in after && k !in before ==>
      && (exists i :: 0 <= i < |selection| && k.0 == selection[i].0 && k.1 in selection[i].1)
      && SeededEntry(after, table, k.0, k.1)
  }

  /** `k` is a line of a plant selected before plant `i`, or one of the
      first `j` lines of plant `i`. */
  predicate EarlierSelected(selection: Selection, i: nat, j: nat, k: Key)
    requires i < |selection| && j <= |selection[i].1|
  {
    || (exists q :: 0 <= q < i && k.0 == selection[q].0 && k.1 in selection[q].1)
    || (k.0 == selection[i].0 && k.1 in selection[i].1[..j])
  }

  /** A reported missing line is a selected line, line `j` of plant `i`,
      with neither an entry nor a seed row; every plant selected before
      that one is fully initialised, and so is every line listed before it;
      and every entry added to `before` is for one of those earlier lines. */
  predicate MissingFromSelection(r: InitOutcome, before: Store, table: seq<SeedRow>, selection: Selection)
  {
    r.missing.Some? ==>
      exists i: nat, j: nat :: i < |selection| && j < |selection[i].1| && selection[i].1[j] == r.missing.value
        && (selection[i].0, r.missing.value) !in r.store
        && FindSeed(table, selection[i].0, r.missing.value).None?
        && Covers(r.store, selection[..i])
        && (forall l :: 0 <= l < j ==> (selection[i].0, selection[i].1[l]) in r.store)
        && (forall k :: k in r.store && k !in before ==> EarlierSelected(selection, i, j, k))
  }

  /** The outcome when the first plant's initialisation stops early. */
  lemma InitialiseSelectionStops(store: Store, table: seq<SeedRow>, selection: Selection)
    requires |selection| > 0
    requires Initialise(store, table, selection[0].0, selection[0].1).missing.Some?
    ensures var first := Initialise(store, table, selection[0].0, selection[0].1);
            AddedFromSelection(first.store, store, table, selection)
    ensures var first := Initialise(store, table, selection[0].0, selection[0].1);
            MissingFromSelection(first, store, table, selection)
  {
    var plant, lines := selection[0].0, selection[0].1;
    var first := Initialise(store, table, plant, lines);
    forall k | k in first.store && k !in store
      ensures k.0 == plant && k.1 in lines && SeededEntry(first.store, table, k.0, k.1)
    {
    }
    var j :| 0 <= j < |lines| && lines[j] == first.missing.value
             && (forall i :: 0 <= i < j ==> (plant, lines[i]) in first.store)
             && (forall k :: k in first.store && k !in store ==> k.1 in lines[..j]);
    forall k | k in first.store && k !in store
      ensures EarlierSelected(selection, 0, j, k)
    {
      assert k.0 == plant && k.1 in lines[..j];
    }
    assert Covers(first.store, selection[..0]);
    assert (plant, first.missing.value) !in first.store && FindSeed(table, plant, first.missing.value).None?;
  }

  /** A line reported missing by the rest of the selection, after a first
      plant whose lines all have entries, is reported correctly for the
      whole selection. */
  lemma MissingShifts(table: seq<SeedRow>, before: Store, mid: Store, selection: Selection, r: InitOutcome)
    requires |selection| > 0
    requires forall l :: l in selection[0].1 ==> (selection[0].0, l) in r.store
    requires forall k :: k in mid && k !in before ==> k.0 == selection[0].0 && k.1 in selection[0].1
    requires MissingFromSelection(r, mid, table, selection[1..])
    ensures MissingFromSelection(r, before, table, selection)
  {
    if r.missing.Some? {
      var rest := selection[1..];
      var i: nat, j: nat :| i < |rest| && j < |rest[i].1| && rest[i].1[j] == r.missing.value
               && (rest[i].0, r.missing.value) !in r.store
               && FindSeed(table, rest[i].0, r.missing.value).None?
               && Covers(r.store, rest[..i])
               && (forall l :: 0 <= l < j ==> (rest[i].0, rest[i].1[l]) in r.store)
               && (forall k :: k in r.store && k !in mid ==> EarlierSelected(rest, i, j, k));
      var prior := selection[..i + 1];
      assert selection[i + 1] == rest[i];
      assert prior[0] == selection[0] && prior[1..] == rest[..i];
      CoversSplit(r.store, prior);
      forall k | k in r.store && k !in before
        ensures EarlierSelected(selection, i + 1, j, k)
      {
        if k in mid {
          assert k.0 == selection[0].0 && k.1 in selection[0].1;
        } else if q :| 0 <= q < i && k.0 == rest[q].0 && k.1 in rest[q].1 {
          assert selection[q + 1] == rest[q];
        }
      }
    }
  }

  /** The outcome when the first plant's initialisation goes through and the
      rest of the selection follows from the store it leaves. */
  lemma InitialiseSelectionContinues(store: Store, table: seq<SeedRow>, selection: Selection, r: InitOutcome)
    requires |selection| > 0
    requires Initialise(store, table, selection[0].0, selection[0].1).missing.None?
    requires var first := Initialise(store, table, selection[0].0, selection[0].1);
             && Extends(r.store, first.store)
             && AddedFromSelection(r.store, first.store, table, selection[1..])
             && (r.missing.None? ==> Covers(r.store, selection[1..]))
             && MissingFromSelection(r, first.store, table, selection[1..])
    ensures AddedFromSelection(r.store, store, table, selection)
    ensures r.missing.None? ==> Covers(r.store, selection)
    ensures MissingFromSelection(r, store, table, selection)
  {
    var first := Initialise(store, table, selection[0].0, selection[0].1);
    assert forall i :: 1 <= i < |selection| ==> selection[i] == selection[1..][i - 1];
    forall k | k in r.store && k !in store
      ensures && (exists i :: 0 <= i < |selection| && k.0 == selection[i].0 && k.1 in selection[i].1)
              && SeededEntry(r.store, table, k.0, k.1)
    {
      if k in first.store {
        assert SeededEntry(first.store, table, k.0, k.1);
      } else {
        var i :| 0 <= i < |selection[1..]| && k.0 == selection[1..][i].0 && k.1 in selection[1..][i].1;
        assert selection[i + 1] == selection[1..][i];
      }
    }
    if r.missing.None? {
      CoversSplit(r.store, selection);
    } else {
      MissingShifts(table, store, first.store, selection, r);
    }
  }

  /** Initialisation for a whole selection: each plant's lines in order, as
      the input panel does before any calculation. It stops at the first
      line with no seed row. */
  function InitialiseSelection(store: Store, table: seq<SeedRow>, selection: Selection): (r: InitOutcome)
    ensures Extends(r.store, store)
    ensures AddedFromSelection(r.store, store, table, selection)
    ensures r.missing.None? ==> Covers(r.store, selection)
    ensures MissingFromSelection(r, store, table, selection)
    decreases |selection|
  {
    if |selection| == 0 then InitOutcome(store, None)
    else
      var first := Initialise(store, table, selection[0].0, selection[0].1);
      if first.missing.Some? then
        InitialiseSelectionStops(store, table, selection);
        first
      else
        var r := InitialiseSelection(first.store, table, selection[1..]);
        InitialiseSelectionContinues(store, table, selection, r);
        r
  }
}
