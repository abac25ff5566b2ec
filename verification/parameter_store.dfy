/** The per-(plant, line) parameter store of the session: base speed and
    setup time copied once from the seed table, and the adjusted values the
    percentage sliders recompute from them. */
module ParameterStore {
  import opened Options
  import opened Percent

  /** One row of the seed table: speed in units per minute, setup in minutes. */
  datatype SeedRow = SeedRow(plant: string, line: string, speed: real, setup: real)

  /** The reference data the session starts from. */
  const SeedTable: seq<SeedRow> := [
    SeedRow("Chillán", "L4", 180.95, 0.8),
    SeedRow("Chillán", "L1", 147.88, 1.08),
    SeedRow("Chillán", "L3", 141.31, 1.02),
    SeedRow("Chillán", "L5", 116.21, 1.08),
    SeedRow("Guadalajara", "L1", 90.41, 3.23),
    SeedRow("Guadalajara", "L2", 113.01, 3.17),
    SeedRow("Guadalajara", "L3", 93.42, 3.17),
    SeedRow("Guadalajara", "L4", 89.68, 3.15),
    SeedRow("Guadalajara", "L5", 198.46, 3.13),
    SeedRow("Guadalajara", "L6", 198.34, 3.12),
    SeedRow("Irapuato", "L1", 124.6, 2.34),
    SeedRow("Irapuato", "L2", 63.56, 2.6)
  ]

  /** What the session keeps for one (plant, line). */
  datatype Entry = Entry(baseSpeed: real, baseSetup: real, adjustedSpeed: real, adjustedSetup: real)

  type Key = (string, string)
  type Store = map<Key, Entry>

  predicate Matches(row: SeedRow, plant: string, line: string)
  {
    row.plant == plant && row.line == line
  }

  /** The first seed row for (plant, line), if any. */
  function FindSeed(table: seq<SeedRow>, plant: string, line: string): (r: Option<SeedRow>)
    ensures r.Some? <==> exists i :: 0 <= i < |table| && Matches(table[i], plant, line)
    ensures r.Some? ==> exists i :: 0 <= i < |table| && table[i] == r.value
                          && Matches(table[i], plant, line)
                          && forall j :: 0 <= j < i ==> !Matches(table[j], plant, line)
  {
    if |table| == 0 then None
    else if Matches(table[0], plant, line) then Some(table[0])
    else
      var r := FindSeed(table[1..], plant, line);
      assert forall i :: 1 <= i < |table| ==> table[i] == table[1..][i - 1];
      r
  }

  /** A freshly initialised entry: adjusted values equal the base values. */
  function Fresh(row: SeedRow): (e: Entry)
    ensures e.adjustedSpeed == e.baseSpeed == row.speed
    ensures e.adjustedSetup == e.baseSetup == row.setup
  {
    Entry(row.speed, row.setup, row.speed, row.setup)
  }

  /** `big` keeps every key of `small` with the same entry. */
  predicate Extends(big: Store, small: Store)
  {
    forall k :: k in small ==> k in big && big[k] == small[k]
  }

  /** The entry for (plant, line) was initialised from its seed row. */
  predicate SeededEntry(store: Store, table: seq<SeedRow>, plant: string, line: string)
  {
    (plant, line) in store && FindSeed(table, plant, line).Some?
    && store[(plant, line)] == Fresh(FindSeed(table, plant, line).value)
  }

  /** Initialising `lines` from `before` stopped at `line`: it occurs in
      `lines`, every line listed before that occurrence has an entry for
      `plant`, and every entry added to `before` is for one of those earlier
      lines, none for a line listed at or after it. */
  predicate StoppedAt(store: Store, before: Store, plant: string, lines: seq<string>, line: string)
  {
    exists j :: 0 <= j < |lines| && lines[j] == line
      && (forall i :: 0 <= i < j ==> (plant, lines[i]) in store)
      && (forall k :: k in store && k !in before ==> k.1 in lines[..j])
  }

  /** Stopping on the rest of the lines, after the first line got or kept
      its entry, is stopping on all of them. */
  lemma StoppedAtLater(r: InitOutcome, mid: Store, before: Store, plant: string, lines: seq<string>)
    requires |lines| > 0 && (plant, lines[0]) in r.store
    requires forall k :: k in mid && k !in before ==> k == (plant, lines[0])
    requires r.missing.Some? ==> StoppedAt(r.store, mid, plant, lines[1..], r.missing.value)
    ensures r.missing.Some? ==> StoppedAt(r.store, before, plant, lines, r.missing.value)
  {
    if r.missing.Some? {
      var rest := lines[1..];
      var j :| 0 <= j < |rest| && rest[j] == r.missing.value
               && (forall i :: 0 <= i < j ==> (plant, rest[i]) in r.store)
               && (forall k :: k in r.store && k !in mid ==> k.1 in rest[..j]);
      assert lines[j + 1] == r.missing.value;
      assert lines[..j + 1] == [lines[0]] + rest[..j];
      forall i | 0 <= i < j + 1
        ensures (plant, lines[i]) in r.store
      {
        if i > 0 {
          assert lines[i] == rest[i - 1];
        }
      }
      forall k | k in r.store && k !in before
        ensures k.1 in lines[..j + 1]
      {
        if k !in mid {
          assert k.1 in rest[..j];
        }
      }
    }
  }

  /** The store after initialisation, and the line whose seed row was
      missing when initialisation stopped early. */
  datatype InitOutcome = InitOutcome(store: Store, missing: Option<string>)

  /** Initialises the entries of `plant` for `lines`, in order. A line that
      already has an entry is left alone; a line without one gets a fresh
      entry from its first seed row. A line with no seed row stops the
      initialisation, keeping the entries written before it. */
  function Initialise(store: Store, table: seq<SeedRow>, plant: string, lines: seq<string>): (r: InitOutcome)
    ensures Extends(r.store, store)
    ensures forall k :: k in r.store && k !in store ==>
              k.0 == plant && k.1 in lines && SeededEntry(r.store, table, plant, k.1)
    ensures r.missing.None? ==> forall l :: l in lines ==> (plant, l) in r.store
    ensures r.missing.Some? ==>
              r.missing.value in lines && (plant, r.missing.value) !in r.store
              && FindSeed(table, plant, r.missing.value).None?
    ensures r.missing.Some? ==> StoppedAt(r.store, store, plant, lines, r.missing.value)
    decreases |lines|
  {
    if |lines| == 0 then InitOutcome(store, None)
    else if (plant, lines[0]) in store then
      var r := Initialise(store, table, plant, lines[1..]);
      StoppedAtLater(r, store, store, plant, lines);
      r
    else match FindSeed(table, plant, lines[0])
      case None => InitOutcome(store, Some(lines[0]))
      case Some(row) =>
        var mid := store[(plant, lines[0]) := Fresh(row)];
        var r := Initialise(mid, table, plant, lines[1..]);
        StoppedAtLater(r, mid, store, plant, lines);
        r
  }

  /** The slider callback for speed: the adjusted speed becomes the base
      speed scaled by the percentage; nothing else changes. The callback
      reads the base value by key, so an uninitialised line is an error. */
  function UpdateSpeed(store: Store, plant: string, line: string, pct: int): (r: Option<Store>)
    ensures r.Some? <==> (plant, line) in store
    ensures r.Some? ==> r.value.Keys == store.Keys
    ensures r.Some? ==> forall k :: k in store && k != (plant, line) ==> r.value[k] == store[k]
    ensures r.Some? ==>
              var e, e' := store[(plant, line)], r.value[(plant, line)];
              e'.baseSpeed == e.baseSpeed && e'.baseSetup == e.baseSetup
              && e'.adjustedSetup == e.adjustedSetup
              && e'.adjustedSpeed == Scale(e.baseSpeed, pct)
  {
    if (plant, line) !in store then None
    else
      var e := store[(plant, line)];
      Some(store[(plant, line) := e.(adjustedSpeed := Scale(e.baseSpeed, pct))])
  }

  /** The slider callback for setup time, symmetric to `UpdateSpeed`. */
  function UpdateSetup(store: Store, plant: string, line: string, pct: int): (r: Option<Store>)
    ensures r.Some? <==> (plant, line) in store
    ensures r.Some? ==> r.value.Keys == store.Keys
    ensures r.Some? ==> forall k :: k in store && k != (plant, line) ==> r.value[k] == store[k]
    ensures r.Some? ==>
              var e, e' := store[(plant, line)], r.value[(plant, line)];
              e'.baseSpeed == e.baseSpeed && e'.baseSetup == e.baseSetup
              && e'.adjustedSpeed == e.adjustedSpeed
              && e'.adjustedSetup == Scale(e.baseSetup, pct)
  {
    if (plant, line) !in store then None
    else
      var e := store[(plant, line)];
      Some(store[(plant, line) := e.(adjustedSetup := Scale(e.baseSetup, pct))])
  }

  /** The store invariant: each adjusted value is its base value scaled by
      the percentage its slider currently shows. */
  predicate Explained(e: Entry, speedPct: int, setupPct: int)
  {
    e.adjustedSpeed == Scale(e.baseSpeed, speedPct) && e.adjustedSetup == Scale(e.baseSetup, setupPct)
  }
}
