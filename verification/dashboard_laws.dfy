/** End-to-end properties of a calculation pass. */
module DashboardLaws {
  import opened Options
  import opened MarginEngine
  import opened MarginLaws
  import opened ParameterStore
  import opened Dashboard
  import opened StoreLaws

  /** A selection whose initialisation went through can always be
      calculated: the pass that follows yields one report per selected
      line. */
  lemma InitialisedSelectionCalculates(store: Store, table: seq<SeedRow>, selection: Selection, g: GlobalInputs)
    requires InitialiseSelection(store, table, selection).missing.None?
    ensures var r := CalculateSelection(InitialiseSelection(store, table, selection).store, selection, g);
            r.Some? && |r.value| == TotalLines(selection)
  {
  }

  /** The calculation reads only the adjusted values: two stores that agree
      on them give the same report, whatever their base values. */
  lemma AdjustedValuesOnly(s1: Store, s2: Store, plant: string, line: string, g: GlobalInputs)
    requires (plant, line) in s1 && (plant, line) in s2
    requires s1[(plant, line)].adjustedSpeed == s2[(plant, line)].adjustedSpeed
    requires s1[(plant, line)].adjustedSetup == s2[(plant, line)].adjustedSetup
    ensures CalculateLine(s1, plant, line, g) == CalculateLine(s2, plant, line, g)
  {
  }

  /** The seed row of Guadalajara L4 is speed 89.68, setup 3.15. */
  lemma GuadalajaraL4Seed()
    ensures FindSeed(SeedTable, "Guadalajara", "L4") == Some(SeedRow("Guadalajara", "L4", 89.68, 3.15))
  {
    assert forall j :: 0 <= j < 7 ==> !Matches(SeedTable[j], "Guadalajara", "L4");
    FindSeedFirstMatch(SeedTable, 7, "Guadalajara", "L4");
  }

  /** Guadalajara L4 from a fresh session, sliders untouched, unit margin
      1000 and batch 500: the tier-1 margin is the formula at speed 89.68
      and setup 3.15, exactly 2690400 / 17449.52 (about 154.18), and the
      tier-2 margin is that less the default discount 295.29. */
  lemma GuadalajaraL4Scenario()
    ensures var init := Initialise(map[], SeedTable, "Guadalajara", ["L4"]);
            && init.missing.None?
            && var r := CalculateLine(init.store, "Guadalajara", "L4", GlobalInputs(1000.0, 500.0, 0, 0));
            && r.Some?
            && r.value.result.tier1 == HourlyMargin(1000.0, 89.68, 3.15, 500.0)
            && r.value.result.tier1 == 2690400.0 / 17449.52
            && r.value.result.tier2 == r.value.result.tier1 - 295.29
  {
    GuadalajaraL4Init();
    GuadalajaraL4Margin();
  }

  lemma GuadalajaraL4Init()
    ensures Initialise(map[], SeedTable, "Guadalajara", ["L4"])
         == InitOutcome(map[("Guadalajara", "L4") := Entry(89.68, 3.15, 89.68, 3.15)], None)
  {
    GuadalajaraL4Seed();
    assert ["L4"][1..] == [];
  }

  lemma GuadalajaraL4Margin()
    ensures HourlyMargin(1000.0, 89.68, 3.15, 500.0) == 2690400.0 / 17449.52
  {
    ClosedForm(1000.0, 89.68, 3.15, 500.0);
  }
}
