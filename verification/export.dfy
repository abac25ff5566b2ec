/** The columns of the per-line block of the downloadable table. The block
    is built from a dictionary literal, and a dictionary literal that names
    a key twice keeps only the last value for it. */
module Export {
  import opened Dashboard
  import opened Sweep

  /** A column: the repeated plant or line name, or a numeric series. */
  datatype Column = Text(texts: seq<string>) | Numbers(values: seq<real>)

  const PlantColumn := "Planta"
  const LineColumn := "Línea"
  const UnitMarginColumn := "Margen Unitario ($)"
  const MarginCenterColumn := "Margen Hora  (vs Margen Unitario)"
  const MarginMinColumn := "Margen Hora  Min (vs Margen Unitario)"
  const MarginMaxColumn := "Margen Hora Max (vs Margen Unitario)"
  const BatchColumn := "Tamaño de Lote (Proyección)"
  const BatchCenterColumn := "Margen Hora (vs Tamaño de Lote)"
  /** The name the dashboard's table gives to both the batch-size min and max series. */
  const BatchBandColumn := "Margen Hora  (vs Tamaño de Lote)"
  const BatchMinColumn := "Margen Hora Min (vs Tamaño de Lote)"
  const BatchMaxColumn := "Margen Hora Max (vs Tamaño de Lote)"

  function Repeat(s: string, n: nat): (r: seq<string>)
    ensures |r| == n && forall i :: 0 <= i < n ==> r[i] == s
  {
    seq(n, i => s)
  }

  /** The eight columns shared by both versions of the block. */
  function CommonColumns(report: LineReport): map<string, Column>
  {
    var m, b := report.marginChart, report.batchChart;
    map[PlantColumn := Text(Repeat(report.plant, |m.domain|)),
        LineColumn := Text(Repeat(report.line, |m.domain|)),
        UnitMarginColumn := Numbers(m.domain),
        MarginCenterColumn := Numbers(m.center),
        MarginMinColumn := Numbers(m.bandMin),
        MarginMaxColumn := Numbers(m.bandMax),
        BatchColumn := Numbers(b.domain),
        BatchCenterColumn := Numbers(b.center)]
  }

  /** The names of the shared columns. */
  const CommonNames: set<string> := {PlantColumn, LineColumn, UnitMarginColumn, MarginCenterColumn,
                                     MarginMinColumn, MarginMaxColumn, BatchColumn, BatchCenterColumn}

  /** Adding a name not yet present grows a set of names by one. */
  lemma AddName(names: set<string>, name: string)
    requires name !in names
    ensures |names + {name}| == |names| + 1
  {
  }

  /** The lengths of the column names: all differ except the batch-size
      min and max names, which differ in their fourteenth character. */
  lemma ColumnNameLengths()
    ensures |PlantColumn| == 6 && |LineColumn| == 5 && |UnitMarginColumn| == 19
    ensures |MarginCenterColumn| == 33 && |MarginMinColumn| == 37 && |MarginMaxColumn| == 36
    ensures |BatchColumn| == 27 && |BatchCenterColumn| == 31 && |BatchBandColumn| == 32
    ensures |BatchMinColumn| == 35 && |BatchMaxColumn| == 35
    ensures BatchMinColumn[13] != BatchMaxColumn[13]
  {
  }

  /** The shared column names are eight distinct names. */
  lemma CommonNamesCount()
    ensures |CommonNames| == 8
  {
    ColumnNameLengths();
    var s0: set<string> := {};
    AddName(s0, PlantColumn);
    var s1 := s0 + {PlantColumn};
    AddName(s1, LineColumn);
    var s2 := s1 + {LineColumn};
    AddName(s2, UnitMarginColumn);
    var s3 := s2 + {UnitMarginColumn};
    AddName(s3, MarginCenterColumn);
    var s4 := s3 + {MarginCenterColumn};
    AddName(s4, MarginMinColumn);
    var s5 := s4 + {MarginMinColumn};
    AddName(s5, MarginMaxColumn);
    var s6 := s5 + {MarginMaxColumn};
    AddName(s6, BatchColumn);
    var s7 := s6 + {BatchColumn};
    AddName(s7, BatchCenterColumn);
    assert s7 + {BatchCenterColumn} == CommonNames;
  }

  /** The shared column names are eight distinct names, and the band
      column names differ from them and from each other. */
  lemma ColumnNamesDistinct()
    ensures |CommonNames| == 8
    ensures BatchBandColumn !in CommonNames
    ensures BatchMinColumn !in CommonNames && BatchMaxColumn !in CommonNames && BatchMinColumn != BatchMaxColumn
  {
    ColumnNameLengths();
    CommonNamesCount();
  }

  /** The block as the dashboard writes it. A dictionary literal that repeats a
      key keeps the last value written for it, so the literal is the shared
      columns followed by two writes to one name: the batch-size max series
      overwrites the min series, and the block has nine columns, not ten. */
  function BlockAsWritten(report: LineReport): (d: map<string, Column>)
    ensures d.Keys == CommonNames + {BatchBandColumn}
    ensures |d.Keys| == 9
    ensures BatchBandColumn !in CommonNames
    ensures d[BatchBandColumn] == Numbers(report.batchChart.bandMax)
    ensures forall k :: k in d && d[k] == Numbers(report.batchChart.bandMin) ==>
              report.batchChart.bandMin in
                {report.marginChart.domain, report.marginChart.center, report.marginChart.bandMin,
                 report.marginChart.bandMax, report.batchChart.domain, report.batchChart.center,
                 report.batchChart.bandMax}
  {
    var b := report.batchChart;
    ColumnNamesDistinct();
    AddName(CommonNames, BatchBandColumn);
    CommonColumns(report)[BatchBandColumn := Numbers(b.bandMin)][BatchBandColumn := Numbers(b.bandMax)]
  }

  /** The block as evidently intended: the batch-size band under distinct
      min and max names, mirroring the unit-margin columns, so all ten
      columns survive. */
  function BlockCorrected(report: LineReport): (d: map<string, Column>)
    ensures d.Keys == CommonNames + {BatchMinColumn, BatchMaxColumn}
    ensures |d.Keys| == 10
    ensures BatchMinColumn !in CommonNames && BatchMaxColumn !in CommonNames && BatchMinColumn != BatchMaxColumn
    ensures d[BatchMinColumn] == Numbers(report.batchChart.bandMin)
    ensures d[BatchMaxColumn] == Numbers(report.batchChart.bandMax)
    ensures d[BatchCenterColumn] == Numbers(report.batchChart.center)
    ensures d[MarginMinColumn] == Numbers(report.marginChart.bandMin)
    ensures d[MarginMaxColumn] == Numbers(report.marginChart.bandMax)
    ensures d[MarginCenterColumn] == Numbers(report.marginChart.center)
  {
    var b := report.batchChart;
    ColumnNamesDistinct();
    AddName(CommonNames, BatchMinColumn);
    AddName(CommonNames + {BatchMinColumn}, BatchMaxColumn);
    assert CommonNames + {BatchMinColumn, BatchMaxColumn} == CommonNames + {BatchMinColumn} + {BatchMaxColumn};
    CommonColumns(report)[BatchMinColumn := Numbers(b.bandMin)][BatchMaxColumn := Numbers(b.bandMax)]
  }
}

module ExportLaws {
  import opened MarginEngine
  import opened MarginMonotonicity
  import opened Sweep
  import opened SweepLaws
  import opened BandLaws
  import opened ParameterStore
  import opened Dashboard
  import opened Export

  lemma ProductPositive(a: real, b: real)
    requires a > 0.0 && b > 0.0
    ensures 2.0 * a * b > 0.0
  {
  }

  /** The overwrite loses real data: for any initialised line with positive
      inputs and a positive speed variation, the batch-size min series
      differs from the max series that the shared column shows (already at
      the first batch size), so the written block carries no min series. */
  lemma AsWrittenLosesBatchMin(store: Store, plant: string, line: string, g: GlobalInputs)
    requires (plant, line) in store
    requires store[(plant, line)].adjustedSpeed > 0.0 && store[(plant, line)].adjustedSetup >= 0.0
    requires g.unitMargin > 0.0 && g.batch > 0.0
    requires 0 < g.speedVariationPct <= 100 && 0 <= g.setupVariationPct <= 100
    ensures var w := CalculateLine(store, plant, line, g).value.batchChart;
            && w.bandMin != w.bandMax
            && BlockAsWritten(CalculateLine(store, plant, line, g).value)[BatchBandColumn] == Numbers(w.bandMax)
  {
    var e := store[(plant, line)];
    var report := CalculateLine(store, plant, line, g).value;
    var w := report.batchChart;
    var band := Variation(e.adjustedSpeed, e.adjustedSetup, g.speedVariationPct, g.setupVariationPct);
    assert w == BatchSweep(plant, g.unitMargin, e.adjustedSpeed, e.adjustedSetup, g.batch,
                           g.speedVariationPct, g.setupVariationPct);
    VariationBrackets(e.adjustedSpeed, e.adjustedSetup, g.speedVariationPct, g.setupVariationPct);
    BatchDomainShape(g.batch);
    var x := w.domain[0];
    assert x > 0.0;
    var p := (g.speedVariationPct as real) / 100.0;
    assert p > 0.0;
    ProductPositive(e.adjustedSpeed, p);
    assert band.speedLow < band.speedHigh;
    AntitoneInSetup(g.unitMargin, band.speedLow, band.setupLow, band.setupHigh, x);
    MonotoneInSpeed(g.unitMargin, band.speedLow, band.speedHigh, band.setupLow, x);
    assert w.bandMin[0] < w.bandMax[0];
  }
}
