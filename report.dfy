/**
 * What the analyzer reports about the augmented table: the summary block
 * (column totals and the net FAVORABLE/UNFAVORABLE tag) and the list of
 * products needing management attention. The text layout and currency
 * formatting of the printed report are not part of this model.
 */
module Report {
  import opened Rounding
  import opened Variance

  /** The numeric derived columns that the report adds up. */
  datatype Column =
    | PpvColumn | UsageColumn | LaborRateColumn | LaborEffColumn | OverheadColumn
    | TotalVarianceColumn | TotalStdCostColumn | TotalActCostColumn

  function Cell(row: Row, c: Column): real {
    match c
    case PpvColumn => row.derived.ppv
    case UsageColumn => row.derived.usageVar
    case LaborRateColumn => row.derived.laborRateVar
    case LaborEffColumn => row.derived.laborEffVar
    case OverheadColumn => row.derived.overheadVar
    case TotalVarianceColumn => row.derived.totalVariance
    case TotalStdCostColumn => row.derived.totalStdCost
    case TotalActCostColumn => row.derived.totalActCost
  }

  /** A column's `.sum()`; zero on an empty table. */
  function ColumnSum(rows: seq<Row>, c: Column): real {
    if rows == [] then 0.0 else Cell(rows[0], c) + ColumnSum(rows[1..], c)
  }

  lemma {:induction false} ColumnSumAppend(a: seq<Row>, b: seq<Row>, c: Column)
    ensures ColumnSum(a + b, c) == ColumnSum(a, c) + ColumnSum(b, c)
  {
    if a != [] {
      assert (a + b)[1..] == a[1..] + b;
      ColumnSumAppend(a[1..], b, c);
    } else {
      assert a + b == b;
    }
  }

  /** Every cell non-negative gives a non-negative total. */
  lemma {:induction false} ColumnSumNonNegative(rows: seq<Row>, c: Column)
    requires forall i :: 0 <= i < |rows| ==> Cell(rows[i], c) >= 0.0
    ensures ColumnSum(rows, c) >= 0.0
  {
    if rows != [] {
      ColumnSumNonNegative(rows[1..], c);
    }
  }

  /** Every cell negative in a non-empty table gives a negative total. */
  lemma {:induction false} ColumnSumNegative(rows: seq<Row>, c: Column)
    requires |rows| > 0
    requires forall i :: 0 <= i < |rows| ==> Cell(rows[i], c) < 0.0
    ensures ColumnSum(rows, c) < 0.0
  {
    if |rows| > 1 {
      ColumnSumNegative(rows[1..], c);
    }
  }

  /** The net tag printed after the net variance. */
  datatype NetStatus = NetFavorable | NetUnfavorable

  /** The text printed in brackets after the net variance. */
  function NetLabel(s: NetStatus): (t: string)
    ensures t == "FAVORABLE" <==> s == NetFavorable
    ensures t == "UNFAVORABLE" <==> s == NetUnfavorable
  {
    match s
    case NetFavorable => "FAVORABLE"
    case NetUnfavorable => "UNFAVORABLE"
  }

  datatype Summary = Summary(
    totalStdCost: real,
    totalActCost: real,
    netVariance: real,
    tag: NetStatus)

  /** The summary block: the three column totals and the net tag. */
  function Summarize(rows: seq<Row>): (s: Summary)
    ensures s.totalStdCost == ColumnSum(rows, TotalStdCostColumn)
    ensures s.totalActCost == ColumnSum(rows, TotalActCostColumn)
    ensures s.netVariance == ColumnSum(rows, TotalVarianceColumn)
    ensures s.tag == NetFavorable <==> s.netVariance >= 0.0
  {
    var net := ColumnSum(rows, TotalVarianceColumn);
    Summary(
      ColumnSum(rows, TotalStdCostColumn),
      ColumnSum(rows, TotalActCostColumn),
      net,
      if net >= 0.0 then NetFavorable else NetUnfavorable)
  }

  /** The net variance is the sum of the five component variance totals. */
  lemma {:induction false} NetVarianceDecomposes(rows: seq<Row>)
    requires forall i :: 0 <= i < |rows| ==> WellFormed(rows[i])
    ensures Summarize(rows).netVariance
         == ColumnSum(rows, PpvColumn) + ColumnSum(rows, UsageColumn)
          + ColumnSum(rows, LaborRateColumn) + ColumnSum(rows, LaborEffColumn)
          + ColumnSum(rows, OverheadColumn)
  {
    if rows != [] {
      NetVarianceDecomposes(rows[1..]);
    }
  }

  /** When every row is favorable the net tag is FAVORABLE. */
  lemma AllFavorableNetFavorable(rows: seq<Row>)
    requires forall i :: 0 <= i < |rows| ==> WellFormed(rows[i]) && rows[i].derived.status == Favorable
    ensures Summarize(rows).tag == NetFavorable
  {
    ColumnSumNonNegative(rows, TotalVarianceColumn);
  }

  /** When every row of a non-empty table is unfavorable the net tag is UNFAVORABLE. */
  lemma AllUnfavorableNetUnfavorable(rows: seq<Row>)
    requires |rows| > 0
    requires forall i :: 0 <= i < |rows| ==> WellFormed(rows[i]) && rows[i].derived.status == Unfavorable
    ensures Summarize(rows).tag == NetUnfavorable
  {
    ColumnSumNegative(rows, TotalVarianceColumn);
  }

  /**
   * On a table whose book costs agree with its quantities, the net variance
   * is total standard cost less total actual cost, so the tag is FAVORABLE
   * exactly when the actual total does not exceed the standard total.
   */
  lemma {:induction false} NetVarianceIsSaving(rows: seq<Row>)
    requires forall i :: 0 <= i < |rows| ==> WellFormed(rows[i]) && CostsConsistent(rows[i].input)
    ensures Summarize(rows).netVariance == Summarize(rows).totalStdCost - Summarize(rows).totalActCost
    ensures Summarize(rows).tag == NetFavorable <==> Summarize(rows).totalActCost <= Summarize(rows).totalStdCost
  {
    if rows != [] {
      TotalVarianceIsSaving(rows[0].input);
      NetVarianceIsSaving(rows[1..]);
    }
  }

  /** The alert threshold: |Variance_%| strictly above 2. NaN never compares above it. */
  predicate NeedsAttention(p: Percent) {
    match p
    case Finite(v) => Abs(v) > 2.0
    case Infinite(_) => true
    case NotANumber => false
  }

  /** The rows kept by the alert mask, in table order. */
  function Flagged(rows: seq<Row>): (kept: seq<Row>)
    ensures |kept| <= |rows|
    ensures forall x :: x in kept ==> x in rows && NeedsAttention(x.derived.variancePct)
    ensures forall x :: x in rows && NeedsAttention(x.derived.variancePct) ==> x in kept
  {
    if rows == [] then []
    else if NeedsAttention(rows[0].derived.variancePct) then [rows[0]] + Flagged(rows[1..])
    else Flagged(rows[1..])
  }

  /** The mask keeps order: filtering a table in two parts gives the two filtered parts. */
  lemma {:induction false} FlaggedAppend(a: seq<Row>, b: seq<Row>)
    ensures Flagged(a + b) == Flagged(a) + Flagged(b)
  {
    if a != [] {
      assert (a + b)[0] == a[0];
      assert (a + b)[1..] == a[1..] + b;
      FlaggedAppend(a[1..], b);
    } else {
      assert a + b == b;
    }
  }

  /** Flagged is empty exactly when no row crosses the threshold. */
  lemma {:induction false} FlaggedEmpty(rows: seq<Row>)
    ensures Flagged(rows) == [] <==> forall i :: 0 <= i < |rows| ==> !NeedsAttention(rows[i].derived.variancePct)
  {
    if rows != [] {
      FlaggedEmpty(rows[1..]);
      assert forall i :: 1 <= i < |rows| ==> rows[i] == rows[1..][i - 1];
    }
  }

  /** The columns of an alert line: product, Variance_% and Status. */
  datatype Alert = Alert(product: string, variancePct: Percent, status: Status)

  function Alerts(rows: seq<Row>): (alerts: seq<Alert>)
    ensures |alerts| == |Flagged(rows)|
    ensures forall i :: 0 <= i < |alerts| ==>
      var row := Flagged(rows)[i];
      alerts[i] == Alert(row.input.product, row.derived.variancePct, row.derived.status)
  {
    var kept := Flagged(rows);
    seq(|kept|, i requires 0 <= i < |kept| =>
      Alert(kept[i].input.product, kept[i].derived.variancePct, kept[i].derived.status))
  }

  /** The attention section: a "none" message, or the alert lines. */
  datatype AttentionSection = AllWithinThreshold | Attention(alerts: seq<Alert>)

  function AttentionItems(rows: seq<Row>): (s: AttentionSection)
    ensures s == AllWithinThreshold <==> forall i :: 0 <= i < |rows| ==> !NeedsAttention(rows[i].derived.variancePct)
    ensures s.Attention? ==> |s.alerts| > 0 && s.alerts == Alerts(rows)
  {
    FlaggedEmpty(rows);
    var alerts := Alerts(rows);
    if alerts == [] then AllWithinThreshold else Attention(alerts)
  }

  /**
   * Because the percentage is rounded before the comparison, a row with a
   * non-zero standard cost is flagged exactly when its unrounded percent
   * change exceeds 2.005 in magnitude; a row with zero standard cost is
   * flagged exactly when its actual cost is non-zero.
   */
  lemma ThresholdOnUnroundedChange(r: Record)
    ensures TotalStandardCost(r) != 0.0 ==>
      (NeedsAttention(Derive(r).variancePct) <==>
       Abs(PercentChange(TotalStandardCost(r), TotalActualCost(r))) > 2.005)
    ensures TotalStandardCost(r) == 0.0 ==>
      (NeedsAttention(Derive(r).variancePct) <==> TotalActualCost(r) != 0.0)
  {
    if TotalStandardCost(r) != 0.0 {
      AbsRound2AboveTwo(PercentChange(TotalStandardCost(r), TotalActualCost(r)));
    }
  }
}
