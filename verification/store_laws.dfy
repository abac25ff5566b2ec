/** Properties of the parameter store: the seed table, idempotent
    initialisation, and slider updates that never compound and never touch
    the base values. */
module StoreLaws {
  import opened Options
  import opened Percent
  import opened ParameterStore

  /** The seed table: twelve rows over three plants, positive speeds and
      setup times, and no (plant, line) pair listed twice. */
  lemma SeedTableWellFormed()
    ensures |SeedTable| == 12
    ensures forall i :: 0 <= i < |SeedTable| ==> SeedTable[i].speed > 0.0 && SeedTable[i].setup > 0.0
    ensures forall i :: 0 <= i < |SeedTable| ==>
              SeedTable[i].plant in {"Chillán", "Guadalajara", "Irapuato"}
    ensures forall i, j :: 0 <= i < j < |SeedTable| ==>
              !Matches(SeedTable[j], SeedTable[i].plant, SeedTable[i].line)
  {
  }

  /** The lookup returns the first matching row, whichever it is. */
  lemma FindSeedFirstMatch(table: seq<SeedRow>, i: nat, plant: string, line: string)
    requires i < |table| && Matches(table[i], plant, line)
    requires forall j :: 0 <= j < i ==> !Matches(table[j], plant, line)
    ensures FindSeed(table, plant, line) == Some(table[i])
  {
    var found := FindSeed(table, plant, line);
    var k :| 0 <= k < |table| && table[k] == found.value && Matches(table[k], plant, line)
             && forall j :: 0 <= j < k ==> !Matches(table[j], plant, line);
    assert k == i;
  }

  /** Initialisation succeeds exactly when every requested line is already
      present or has a seed row. */
  lemma InitialiseSucceedsIff(store: Store, table: seq<SeedRow>, plant: string, lines: seq<string>)
    ensures Initialise(store, table, plant, lines).missing.None?
        <==> forall l :: l in lines ==> (plant, l) in store || FindSeed(table, plant, l).Some?
  {
  }

  /** The abort leaves later lines alone: when the first listed line has
      no seed row, a later line that has one still gets no entry. */
  lemma AbortSkipsLaterLines()
    ensures Initialise(map[], [SeedRow("P", "B", 1.0, 1.0)], "P", ["A", "B"]) == InitOutcome(map[], Some("A"))
  {
    var r := Initialise(map[], [SeedRow("P", "B", 1.0, 1.0)], "P", ["A", "B"]);
    assert r.missing.Some? ==> r.missing.value == "A";
  }

  /** Running initialisation from any store that lies between the original
      and the result of a first run gives that same result again. */
  lemma {:induction false} InitialiseStable(s: Store, t: Store, table: seq<SeedRow>, plant: string, lines: seq<string>)
    requires Extends(t, s) && Extends(Initialise(s, table, plant, lines).store, t)
    ensures Initialise(t, table, plant, lines) == Initialise(s, table, plant, lines)
    decreases |lines|
  {
    var r := Initialise(s, table, plant, lines);
    if |lines| == 0 {
      assert t.Keys == s.Keys;
      assert t == s;
    } else {
      var k := (plant, lines[0]);
      var rest := lines[1..];
      if k in s {
        InitialiseStable(s, t, table, plant, rest);
      } else {
        match FindSeed(table, plant, lines[0])
        case None =>
          assert t.Keys == s.Keys;
          assert t == s;
        case Some(row) =>
          var s1 := s[k := Fresh(row)];
          if k in t {
            assert Extends(t, s1);
            InitialiseStable(s1, t, table, plant, rest);
          } else {
            InitialiseStable(s1, t[k := Fresh(row)], table, plant, rest);
          }
      }
    }
  }

  /** Initialisation is idempotent: a second run with the same lines
      changes nothing and ends the same way. */
  lemma InitialiseIdempotent(store: Store, table: seq<SeedRow>, plant: string, lines: seq<string>)
    ensures var r := Initialise(store, table, plant, lines);
            Initialise(r.store, table, plant, lines) == r
  {
    var r := Initialise(store, table, plant, lines);
    InitialiseStable(store, r.store, table, plant, lines);
  }

  /** Every line listed in the seed table initialises, from any store. */
  lemma SeededLinesInitialise(store: Store, plant: string, lines: seq<string>)
    requires forall l :: l in lines ==> exists i :: 0 <= i < |SeedTable| && Matches(SeedTable[i], plant, l)
    ensures Initialise(store, SeedTable, plant, lines).missing.None?
  {
    InitialiseSucceedsIff(store, SeedTable, plant, lines);
  }

  /** A fresh entry is explained by both sliders at 0 percent. */
  lemma FreshExplained(row: SeedRow)
    ensures Explained(Fresh(row), 0, 0)
  {
  }

  /** A speed update re-establishes the invariant with the new speed
      percentage, and a setup update with the new setup percentage; the
      other slider's percentage is kept. */
  lemma UpdatesKeepExplained(store: Store, plant: string, line: string, speedPct: int, setupPct: int, pct: int)
    requires (plant, line) in store && Explained(store[(plant, line)], speedPct, setupPct)
    ensures Explained(UpdateSpeed(store, plant, line, pct).value[(plant, line)], pct, setupPct)
    ensures Explained(UpdateSetup(store, plant, line, pct).value[(plant, line)], speedPct, pct)
  {
  }

  /** Updates never compound: each recomputes from the base value, so only
      the last percentage counts. */
  lemma LastUpdateWins(store: Store, plant: string, line: string, p1: int, p2: int)
    requires (plant, line) in store
    ensures UpdateSpeed(UpdateSpeed(store, plant, line, p1).value, plant, line, p2)
         == UpdateSpeed(store, plant, line, p2)
    ensures UpdateSetup(UpdateSetup(store, plant, line, p1).value, plant, line, p2)
         == UpdateSetup(store, plant, line, p2)
  {
    var k, e := (plant, line), store[(plant, line)];
    var once := store[k := e.(adjustedSpeed := Scale(e.baseSpeed, p2))];
    var twice := UpdateSpeed(UpdateSpeed(store, plant, line, p1).value, plant, line, p2).value;
    assert twice.Keys == once.Keys;
    assert twice == once;
    var onceT := store[k := e.(adjustedSetup := Scale(e.baseSetup, p2))];
    var twiceT := UpdateSetup(UpdateSetup(store, plant, line, p1).value, plant, line, p2).value;
    assert twiceT.Keys == onceT.Keys;
    assert twiceT == onceT;
  }

  /** The two sliders act independently: their updates commute. */
  lemma UpdatesCommute(store: Store, plant: string, line: string, speedPct: int, setupPct: int)
    requires (plant, line) in store
    ensures UpdateSetup(UpdateSpeed(store, plant, line, speedPct).value, plant, line, setupPct)
         == UpdateSpeed(UpdateSetup(store, plant, line, setupPct).value, plant, line, speedPct)
  {
    var k, e := (plant, line), store[(plant, line)];
    var both := store[k := e.(adjustedSpeed := Scale(e.baseSpeed, speedPct), adjustedSetup := Scale(e.baseSetup, setupPct))];
    var a := UpdateSetup(UpdateSpeed(store, plant, line, speedPct).value, plant, line, setupPct).value;
    var b := UpdateSpeed(UpdateSetup(store, plant, line, setupPct).value, plant, line, speedPct).value;
    assert a.Keys == both.Keys == b.Keys;
    assert a == both;
    assert b == both;
  }

  /** Within the speed slider's range (0 to 100 percent) the adjusted speed
      lies between the base speed and twice it. */
  lemma SpeedAdjustmentBounds(base: real, pct: int)
    requires base >= 0.0 && 0 <= pct <= 100
    ensures base <= Scale(base, pct) <= 2.0 * base
  {
    var f := (pct as real) / 100.0;
    assert 0.0 <= f <= 1.0;
    assert Scale(base, pct) == base + base * f;
    assert base * f <= base * 1.0;
  }

  /** Within the setup slider's range (-100 to 0 percent) the adjusted setup
      time lies between 0 and the base setup time. */
  lemma SetupAdjustmentBounds(base: real, pct: int)
    requires base >= 0.0 && -100 <= pct <= 0
    ensures 0.0 <= Scale(base, pct) <= base
  {
    var f := (pct as real) / 100.0;
    assert -1.0 <= f <= 0.0;
    assert Scale(base, pct) == base + base * f;
    assert base * f >= base * -1.0;
    assert base * f <= 0.0;
  }
}
