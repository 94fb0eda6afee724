/**
 Read planning: a row span becomes row bands under a cell cap and a byte estimate, and
 the bands are packed into requests. The calibration ratio is a real number.
 */
module ReadPlan {
  import opened Text

  const MAX_READ_CELLS_PER_RANGE: int := 9500
  const MAX_READ_RANGES_PER_REQUEST: int := 40
  const READ_SOFT_TARGET_BYTES: int := 3000000
  const READ_HARD_MAX_BYTES: int := 5000000
  const CALIBRATION_SAFETY: real := 1.5
  const CALIBRATION_MAX_RATIO: real := 20.0

  datatype BandEvidence = ValuesOnly | RowChecks | ValuesAndFormats | RenderingComplete

  function BytesPerCell(evidence: BandEvidence): (bytes: int)
    ensures 120 <= bytes <= 450
  {
    match evidence
    case ValuesOnly => 120
    case RowChecks => 400
    case ValuesAndFormats => 400
    case RenderingComplete => 450
  }

  // ---- Calibration ----

  function Min(a: real, b: real): real {
    if a <= b then a else b
  }

  function Max(a: real, b: real): real {
    if a >= b then a else b
  }

  /** Observed bytes per cell over the class constant. */
  function ObservedRatio(evidence: BandEvidence, cells: int, responseBytes: int): real
    requires cells > 0
  {
    responseBytes as real / cells as real / BytesPerCell(evidence) as real
  }

  function Recalibrated(ratio: real, evidence: BandEvidence, cells: int, responseBytes: int): real {
    if cells <= 0 || responseBytes <= 0 then ratio
    else Min(CALIBRATION_MAX_RATIO, Max(ratio, ObservedRatio(evidence, cells, responseBytes) * CALIBRATION_SAFETY))
  }

  predicate ReachableRatio(ratio: real) {
    1.0 <= ratio <= CALIBRATION_MAX_RATIO
  }

  class ReadCalibration {
    var ratios: map<BandEvidence, real>

    ghost predicate Valid()
      reads this
    {
      forall e :: e in ratios ==> ReachableRatio(ratios[e])
    }

    function RatioFor(evidence: BandEvidence): (ratio: real)
      reads this
      ensures Valid() ==> ReachableRatio(ratio)
    {
      if evidence in ratios then ratios[evidence] else 1.0
    }

    constructor ()
      ensures Valid() && forall e :: RatioFor(e) == 1.0
    {
      ratios := map[];
    }

    /** One observation moves only its own class, never down, and keeps every ratio in range. */
    method Observe(evidence: BandEvidence, cellsRequested: int, responseBytes: int)
      requires Valid()
      modifies this
      ensures Valid()
      ensures RatioFor(evidence) == Recalibrated(old(RatioFor(evidence)), evidence, cellsRequested, responseBytes)
      ensures old(RatioFor(evidence)) <= RatioFor(evidence)
      ensures forall e :: e != evidence ==> RatioFor(e) == old(RatioFor(e))
    {
      if cellsRequested <= 0 || responseBytes <= 0 {
        return;
      }
      var observed := responseBytes as real / cellsRequested as real / BytesPerCell(evidence) as real;
      var next := Min(CALIBRATION_MAX_RATIO, Max(RatioFor(evidence), observed * CALIBRATION_SAFETY));
      ratios := ratios[evidence := next];
    }
  }

  /** One response: requested cells and measured bytes. */
  type Sample = (int, int)

  function AfterSamples(ratio: real, evidence: BandEvidence, samples: seq<Sample>): real {
    if samples == [] then ratio
    else Recalibrated(AfterSamples(ratio, evidence, samples[..|samples| - 1]), evidence,
                      samples[|samples| - 1].0, samples[|samples| - 1].1)
  }

  /** After any observations the ratio is in range, never below its start, and at or above every sample it saw (up to the cap). */
  lemma {:induction false} CalibrationBounds(ratio: real, evidence: BandEvidence, samples: seq<Sample>, k: nat)
    requires ReachableRatio(ratio)
    ensures ReachableRatio(AfterSamples(ratio, evidence, samples))
    ensures ratio <= AfterSamples(ratio, evidence, samples)
    ensures k < |samples| && samples[k].0 > 0 && samples[k].1 > 0 ==>
              AfterSamples(ratio, evidence, samples)
                >= Min(CALIBRATION_MAX_RATIO, ObservedRatio(evidence, samples[k].0, samples[k].1) * CALIBRATION_SAFETY)
  {
    if samples != [] {
      CalibrationBounds(ratio, evidence, samples[..|samples| - 1], k);
    }
  }

  /** What one usable sample asks for. */
  function Asked(evidence: BandEvidence, s: Sample): real
    requires s.0 > 0
  {
    Min(CALIBRATION_MAX_RATIO, ObservedRatio(evidence, s.0, s.1) * CALIBRATION_SAFETY)
  }

  /** The ratio is one of its samples or its start: with the bounds above, it is exactly the largest of them. */
  lemma {:induction false} CalibrationAttained(ratio: real, evidence: BandEvidence, samples: seq<Sample>)
    requires ReachableRatio(ratio)
    ensures var now := AfterSamples(ratio, evidence, samples);
            now == ratio || exists k :: 0 <= k < |samples| && samples[k].0 > 0 && samples[k].1 > 0 && now == Asked(evidence, samples[k])
  {
    if samples != [] {
      var n := |samples| - 1;
      CalibrationAttained(ratio, evidence, samples[..n]);
      CalibrationBounds(ratio, evidence, samples[..n], 0);
      var before := AfterSamples(ratio, evidence, samples[..n]);
      if before != ratio {
        var k :| 0 <= k < n && samples[..n][k].0 > 0 && samples[..n][k].1 > 0 && before == Asked(evidence, samples[..n][k]);
        assert samples[k] == samples[..n][k];
      }
    }
  }

  // ---- Estimates ----

  /** Requested sheet range. `lastRow` is the closing row of the address. */
  datatype Address = Address(prefix: string, firstColumn: string, firstRow: int, lastColumn: string, lastRow: int)

  datatype BandRange = BandRange(address: Address, cells: int)

  function EstimatedBytes(cells: int, evidence: BandEvidence, ratio: real): real {
    cells as real * BytesPerCell(evidence) as real * ratio
  }

  function EstimatedRangeBytes(item: BandRange, evidence: BandEvidence, ratio: real): real {
    EstimatedBytes(item.cells, evidence, ratio)
  }

  /** Cells one band may plan under the byte target. */
  function CellBudget(evidence: BandEvidence, ratio: real): int
    requires ReachableRatio(ratio)
  {
    (READ_SOFT_TARGET_BYTES as real / (BytesPerCell(evidence) as real * ratio)).Floor
  }

  /** Cells one band may plan under both caps. */
  function BandCap(evidence: BandEvidence, ratio: real): int
    requires ReachableRatio(ratio)
  {
    if MAX_READ_CELLS_PER_RANGE <= CellBudget(evidence, ratio) then MAX_READ_CELLS_PER_RANGE else CellBudget(evidence, ratio)
  }

  function RowsPerBand(columnCount: nat, evidence: BandEvidence, ratio: real): (rows: int)
    requires ReachableRatio(ratio)
    ensures rows >= 1
  {
    var fit := BandCap(evidence, ratio) / (if columnCount > 1 then columnCount else 1);
    if fit > 1 then fit else 1
  }

  predicate WithinCaps(cells: int, evidence: BandEvidence, ratio: real) {
    cells <= MAX_READ_CELLS_PER_RANGE && EstimatedBytes(cells, evidence, ratio) <= READ_SOFT_TARGET_BYTES as real
  }

  lemma FloorAdjoint(n: int, x: real)
    ensures n as real <= x <==> n <= x.Floor
  {
  }

  lemma DivisionAdjoint(a: real, b: real, c: real)
    requires c > 0.0
    ensures a * c <= b <==> a <= b / c
  {
    assert b == (b / c) * c;
  }

  /** The integer cap is exactly the two caps together. */
  lemma CapMeaning(cells: int, evidence: BandEvidence, ratio: real)
    requires ReachableRatio(ratio)
    ensures WithinCaps(cells, evidence, ratio) <==> cells <= BandCap(evidence, ratio)
  {
    var perCell := BytesPerCell(evidence) as real * ratio;
    assert perCell > 0.0;
    assert EstimatedBytes(cells, evidence, ratio) == cells as real * perCell;
    DivisionAdjoint(cells as real, READ_SOFT_TARGET_BYTES as real, perCell);
    FloorAdjoint(cells, READ_SOFT_TARGET_BYTES as real / perCell);
  }

  /** 333 cells fit under both caps at every reachable calibration of every class. */
  lemma CapAtLeast333(evidence: BandEvidence, ratio: real)
    requires ReachableRatio(ratio)
    ensures BandCap(evidence, ratio) >= 333
  {
    var perCell := BytesPerCell(evidence) as real * ratio;
    assert perCell <= 9000.0 by {
      assert BytesPerCell(evidence) as real * ratio <= 450.0 * ratio;
    }
    assert EstimatedBytes(333, evidence, ratio) == 333.0 * perCell;
    CapMeaning(333, evidence, ratio);
  }

  /** A band takes as many rows as both caps allow, and one row in any case. */
  lemma RowsPerBandMeaning(columnCount: nat, evidence: BandEvidence, ratio: real, rows: nat)
    requires ReachableRatio(ratio) && rows >= 1
    ensures rows <= RowsPerBand(columnCount, evidence, ratio) <==>
              rows == 1 || WithinCaps(rows * (if columnCount > 1 then columnCount else 1), evidence, ratio)
  {
    var width, cap := if columnCount > 1 then columnCount else 1, BandCap(evidence, ratio);
    CapAtLeast333(evidence, ratio);
    CapMeaning(rows * width, evidence, ratio);
    assert cap == (cap / width) * width + cap % width;
    QuotientAdjoint(rows, width, cap);
  }

  lemma QuotientAdjoint(a: nat, b: nat, c: nat)
    requires b >= 1
    ensures a <= c / b <==> a * b <= c
  {
    assert c == (c / b) * b + c % b;
    if a <= c / b {
      ScaleUp(a, c / b, b);
    } else {
      ScaleUp(c / b + 1, a, b);
      SplitProduct(c / b, 1, b);
    }
  }

  // ---- Row bands ----

  function Least(a: int, b: int): int {
    if a <= b then a else b
  }

  datatype RowBandPlan = RowBandPlan(
    addressPrefix: string, firstColumn: string, lastColumn: string, columnCount: nat,
    fromRow: int, rowBound: Option<int>, exactLastRow: Option<int>, openEndRow: int, evidence: BandEvidence)
  {
    function Range(first: int, last: int): Address {
      Address(addressPrefix, firstColumn, first, lastColumn, last)
    }

    /** The last row the plan counts on: the proven extent, else the bound. */
    function LastRow(): Option<int> {
      if exactLastRow.Some? then exactLastRow else rowBound
    }

    /** The row the whole plan reads to: the proven extent, else the open end. */
    function EndRow(): int {
      if exactLastRow.Some? then exactLastRow.value else openEndRow
    }

    /** True when the plan chunks into bands instead of keeping one open band. */
    predicate Banded() {
      LastRow().Some? && LastRow().value >= fromRow
    }
  }

  /** The bands from row `start` on, `rows` rows each, the last one closed at the plan's end row. */
  function BandsFrom(plan: RowBandPlan, start: int, rows: int): (items: seq<BandRange>)
    requires rows >= 1 && plan.Banded()
    ensures items != []
    decreases plan.LastRow().value - start
  {
    var last := plan.LastRow().value;
    if start + rows - 1 < last then
      [BandRange(plan.Range(start, start + rows - 1), rows * plan.columnCount)] + BandsFrom(plan, start + rows, rows)
    else
      [BandRange(plan.Range(start, plan.EndRow()), (last - start + 1) * plan.columnCount)]
  }

  /** The single open band of a plan without a usable bound. */
  function OpenBand(plan: RowBandPlan): BandRange {
    BandRange(plan.Range(plan.fromRow, plan.openEndRow),
      if plan.rowBound.Some? && plan.rowBound.value >= plan.fromRow then
        (Least(plan.rowBound.value, plan.LastRow().value) - plan.fromRow + 1) * plan.columnCount
      else 0)
  }

  method PlanRowBands(plan: RowBandPlan, calibration: ReadCalibration) returns (items: seq<BandRange>)
    requires calibration.Valid()
    ensures !plan.Banded() ==> items == [OpenBand(plan)]
    ensures plan.Banded() ==>
              items == BandsFrom(plan, plan.fromRow, RowsPerBand(plan.columnCount, plan.evidence, calibration.RatioFor(plan.evidence)))
  {
    var lastRow := if plan.exactLastRow.Some? then plan.exactLastRow else plan.rowBound;
    if lastRow.None? || lastRow.value < plan.fromRow {
      var cells := 0;
      if plan.rowBound.Some? && plan.rowBound.value >= plan.fromRow {
        cells := (Least(plan.rowBound.value, lastRow.value) - plan.fromRow + 1) * plan.columnCount;
      }
      return [BandRange(plan.Range(plan.fromRow, plan.openEndRow), cells)];
    }
    var rows := RowsPerBand(plan.columnCount, plan.evidence, calibration.RatioFor(plan.evidence));
    items := [];
    var start := plan.fromRow;
    while start + rows - 1 < lastRow.value
      invariant plan.fromRow <= start <= lastRow.value
      invariant items + BandsFrom(plan, start, rows) == BandsFrom(plan, plan.fromRow, rows)
      decreases lastRow.value - start
    {
      var end := start + rows - 1;
      var item := BandRange(plan.Range(start, end), rows * plan.columnCount);
      assert (items + [item]) + BandsFrom(plan, end + 1, rows) == items + BandsFrom(plan, start, rows);
      items := items + [item];
      start := end + 1;
    }
    var remainingRows := lastRow.value - start + 1;
    var closing := if plan.exactLastRow.None? then plan.openEndRow else lastRow.value;
    items := items + [BandRange(plan.Range(start, closing), remainingRows * plan.columnCount)];
  }

  function TotalCells(items: seq<BandRange>): int {
    if items == [] then 0 else items[0].cells + TotalCells(items[1..])
  }

  /**
   Bands follow one another without gap or overlap, over the plan's columns, from `start` to the proven extent, or to
   the open end without one.
   */
  ghost predicate Contiguous(items: seq<BandRange>, plan: RowBandPlan, start: int) {
    && items != []
    && (forall i :: 0 <= i < |items| ==>
          items[i].address == plan.Range(items[i].address.firstRow, items[i].address.lastRow))
    && items[0].address.firstRow == start
    && (forall i :: 0 <= i < |items| - 1 ==>
          items[i].address.firstRow <= items[i].address.lastRow && items[i + 1].address.firstRow == items[i].address.lastRow + 1)
    && items[|items| - 1].address.lastRow == (match plan.exactLastRow case Some(last) => last case None => plan.openEndRow)
  }

  lemma {:induction false} BandsContiguous(plan: RowBandPlan, start: int, rows: int)
    requires rows >= 1 && plan.Banded() && start <= plan.LastRow().value
    ensures Contiguous(BandsFrom(plan, start, rows), plan, start)
    decreases plan.LastRow().value - start
  {
    var items := BandsFrom(plan, start, rows);
    if start + rows - 1 < plan.LastRow().value {
      BandsContiguous(plan, start + rows, rows);
      var rest := BandsFrom(plan, start + rows, rows);
      assert forall i :: 1 <= i < |items| ==> items[i] == rest[i - 1];
    }
  }

  /** The planned cells add up to the whole planned span. */
  lemma {:induction false} BandsTotal(plan: RowBandPlan, start: int, rows: int)
    requires rows >= 1 && plan.Banded() && start <= plan.LastRow().value
    ensures TotalCells(BandsFrom(plan, start, rows)) == (plan.LastRow().value - start + 1) * plan.columnCount
    decreases plan.LastRow().value - start
  {
    if start + rows - 1 < plan.LastRow().value {
      BandsTotal(plan, start + rows, rows);
      var items := BandsFrom(plan, start, rows);
      assert items[1..] == BandsFrom(plan, start + rows, rows);
      SplitProduct(rows, plan.LastRow().value - start - rows + 1, plan.columnCount);
    }
  }

  lemma SplitProduct(a: int, b: int, c: int)
    ensures a * c + b * c == (a + b) * c
  {
  }

  lemma {:induction false} BandsAtMost(plan: RowBandPlan, start: int, rows: int)
    requires rows >= 1 && plan.Banded() && start <= plan.LastRow().value
    ensures forall i :: 0 <= i < |BandsFrom(plan, start, rows)| ==>
              plan.columnCount <= BandsFrom(plan, start, rows)[i].cells <= rows * plan.columnCount
    decreases plan.LastRow().value - start
  {
    if start + rows - 1 < plan.LastRow().value {
      BandsAtMost(plan, start + rows, rows);
    } else {
      ScaleUp(1, plan.LastRow().value - start + 1, plan.columnCount);
    }
    ScaleUp(1, rows, plan.columnCount);
    if plan.LastRow().value - start + 1 <= rows {
      ScaleUp(plan.LastRow().value - start + 1, rows, plan.columnCount);
    }
  }

  lemma ScaleUp(a: int, b: int, c: nat)
    requires a <= b
    ensures a * c <= b * c
  {
  }

  /**
   Every planned band stays within both caps exactly when one row does: a row wider than the cap
   is planned as a band of its own and is the only way to exceed it.
   */
  lemma BandsWithinCaps(plan: RowBandPlan, ratio: real)
    requires ReachableRatio(ratio) && plan.Banded()
    ensures AllWithinCaps(BandsFrom(plan, plan.fromRow, RowsPerBand(plan.columnCount, plan.evidence, ratio)), plan.evidence, ratio)
            <==> plan.columnCount <= BandCap(plan.evidence, ratio)
    ensures plan.columnCount <= 333 ==> plan.columnCount <= BandCap(plan.evidence, ratio)
  {
    var cap := BandCap(plan.evidence, ratio);
    var rows := RowsPerBand(plan.columnCount, plan.evidence, ratio);
    var items := BandsFrom(plan, plan.fromRow, rows);
    CapAtLeast333(plan.evidence, ratio);
    BandsAtMost(plan, plan.fromRow, rows);
    AllCapped(items, plan.evidence, ratio);
    if plan.columnCount <= cap {
      RowsFit(plan.columnCount, cap, rows);
    } else {
      assert items[0].cells >= plan.columnCount;
    }
  }

  predicate AllWithinCaps(items: seq<BandRange>, evidence: BandEvidence, ratio: real) {
    forall i :: 0 <= i < |items| ==> WithinCaps(items[i].cells, evidence, ratio)
  }

  lemma AllCapped(items: seq<BandRange>, evidence: BandEvidence, ratio: real)
    requires ReachableRatio(ratio)
    ensures AllWithinCaps(items, evidence, ratio) <==> forall i :: 0 <= i < |items| ==> items[i].cells <= BandCap(evidence, ratio)
  {
    forall i | 0 <= i < |items|
      ensures WithinCaps(items[i].cells, evidence, ratio) <==> items[i].cells <= BandCap(evidence, ratio)
    {
      CapMeaning(items[i].cells, evidence, ratio);
    }
  }

  lemma RowsFit(columnCount: nat, cap: int, rows: int)
    requires cap >= 1 && columnCount <= cap
    requires rows == var fit := cap / (if columnCount > 1 then columnCount else 1); if fit > 1 then fit else 1
    ensures rows * columnCount <= cap
  {
    if columnCount > 1 && cap / columnCount > 1 {
      assert cap == (cap / columnCount) * columnCount + cap % columnCount;
    }
  }

  /**
   The cell count of a planned band is negative exactly when the caller proves an extent that ends before
   the row above the first one although the bound reaches the first row, over at least one column.
   */
  lemma OpenBandCells(plan: RowBandPlan)
    requires !plan.Banded()
    ensures OpenBand(plan).cells < 0 <==>
              plan.rowBound.Some? && plan.rowBound.value >= plan.fromRow && plan.exactLastRow.Some? &&
              plan.exactLastRow.value < plan.fromRow - 1 && plan.columnCount > 0
  {
    if plan.rowBound.Some? && plan.rowBound.value >= plan.fromRow {
      var span := plan.exactLastRow.value - plan.fromRow + 1;
      assert OpenBand(plan).cells == span * plan.columnCount;
      if span < 0 && plan.columnCount > 0 {
        ScaleUp(1, plan.columnCount, -span);
      }
    }
  }

  /** A concrete plan whose open band counts minus two cells. */
  lemma NegativeCellsWitness()
    ensures OpenBand(RowBandPlan("'T'!", "A", "A", 1, 5, Some(9), Some(2), 1048576, ValuesOnly)).cells == -2
  {
  }

  /** The limits at work: rows per band of every class at the start, and what one sample makes of a ratio. */
  lemma PlannedSizes()
    ensures RowsPerBand(1, ValuesOnly, 1.0) == 9500 && RowsPerBand(1, RowChecks, 1.0) == 7500
    ensures RowsPerBand(1, ValuesAndFormats, 1.0) == 7500 && RowsPerBand(1, RenderingComplete, 1.0) == 6666
    ensures RowsPerBand(3, ValuesOnly, 1.0) == 3166 && RowsPerBand(0, ValuesOnly, 20.0) == 1250 && RowsPerBand(20000, ValuesOnly, 1.0) == 1
    ensures Recalibrated(1.0, ValuesOnly, 100, 24000) == 3.0 && Recalibrated(1.0, ValuesOnly, 1, 1000000) == 20.0
  {
    assert (3000000.0 / 120.0).Floor == 25000 && (3000000.0 / 400.0).Floor == 7500;
    assert (3000000.0 / 450.0).Floor == 6666 && (3000000.0 / 2400.0).Floor == 1250;
  }
}
