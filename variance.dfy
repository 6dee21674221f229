/**
 * The variance calculation of the cost variance analyzer: one product
 * row of standard and actual figures, the columns derived from it, and
 * the derivation over the whole table.
 *
 * The table holds Python numbers (integers and binary floats); here every
 * figure is a `real`, so sums and products are exact.
 */
module Variance {
  import opened Rounding

  /** One product row with its twelve standard/actual input figures. */
  datatype Record = Record(
    product: string,
    stdMaterialCost: real, actMaterialCost: real,
    stdMaterialQty: real, actMaterialQty: real,
    stdMaterialPrice: real, actMaterialPrice: real,
    stdLaborCost: real, actLaborCost: real,
    stdLaborHours: real, actLaborHours: real,
    stdLaborRate: real, actLaborRate: real,
    stdOverhead: real, actOverhead: real)

  /** The `Status` column; its two text values are given by `Label`. */
  datatype Status = Favorable | Unfavorable

  /**
   * The `Variance_%` column. The division by the total standard cost is
   * not guarded: with a zero divisor the table holds an infinity (signed
   * like the actual cost) or, when the actual cost is zero too, NaN.
   */
  datatype Percent = Finite(value: real) | Infinite(positive: bool) | NotANumber

  /** The ten columns appended to a row, in the order they are computed. */
  datatype Derived = Derived(
    ppv: real,
    usageVar: real,
    laborRateVar: real,
    laborEffVar: real,
    overheadVar: real,
    totalVariance: real,
    totalStdCost: real,
    totalActCost: real,
    variancePct: Percent,
    status: Status)

  /** A row of the augmented table: the input columns, untouched, plus the derived ones. */
  datatype Row = Row(input: Record, derived: Derived)

  /** Material purchase price variance: (standard price - actual price) x actual quantity. */
  function PurchasePriceVariance(r: Record): (v: real)
    ensures v == 0.0 <==> r.stdMaterialPrice == r.actMaterialPrice || r.actMaterialQty == 0.0
    ensures r.actMaterialQty > 0.0 ==> (v > 0.0 <==> r.actMaterialPrice < r.stdMaterialPrice)
  {
    (r.stdMaterialPrice - r.actMaterialPrice) * r.actMaterialQty
  }

  /** Material usage variance: (standard quantity - actual quantity) x standard price. */
  function UsageVariance(r: Record): (v: real)
    ensures v == 0.0 <==> r.stdMaterialQty == r.actMaterialQty || r.stdMaterialPrice == 0.0
    ensures r.stdMaterialPrice > 0.0 ==> (v > 0.0 <==> r.actMaterialQty < r.stdMaterialQty)
  {
    (r.stdMaterialQty - r.actMaterialQty) * r.stdMaterialPrice
  }

  /** Labor rate variance: (standard rate - actual rate) x actual hours. */
  function LaborRateVariance(r: Record): (v: real)
    ensures v == 0.0 <==> r.stdLaborRate == r.actLaborRate || r.actLaborHours == 0.0
    ensures r.actLaborHours > 0.0 ==> (v > 0.0 <==> r.actLaborRate < r.stdLaborRate)
  {
    (r.stdLaborRate - r.actLaborRate) * r.actLaborHours
  }

  /** Labor efficiency variance: (standard hours - actual hours) x standard rate. */
  function LaborEfficiencyVariance(r: Record): (v: real)
    ensures v == 0.0 <==> r.stdLaborHours == r.actLaborHours || r.stdLaborRate == 0.0
    ensures r.stdLaborRate > 0.0 ==> (v > 0.0 <==> r.actLaborHours < r.stdLaborHours)
  {
    (r.stdLaborHours - r.actLaborHours) * r.stdLaborRate
  }

  /** Overhead variance: standard overhead less actual overhead. */
  function OverheadVariance(r: Record): (v: real)
    ensures v > 0.0 <==> r.actOverhead < r.stdOverhead
    ensures v == 0.0 <==> r.actOverhead == r.stdOverhead
    ensures r.actOverhead + v == r.stdOverhead
  {
    r.stdOverhead - r.actOverhead
  }

  function TotalStandardCost(r: Record): real {
    r.stdMaterialCost + r.stdLaborCost + r.stdOverhead
  }

  function TotalActualCost(r: Record): real {
    r.actMaterialCost + r.actLaborCost + r.actOverhead
  }

  /** Relative overrun of actual over standard cost, in percent, before rounding. */
  function PercentChange(totalStd: real, totalAct: real): (p: real)
    requires totalStd != 0.0
    ensures totalStd > 0.0 ==> (p > 0.0 <==> totalAct > totalStd) && (p < 0.0 <==> totalAct < totalStd)
    ensures totalStd < 0.0 ==> (p > 0.0 <==> totalAct < totalStd) && (p < 0.0 <==> totalAct > totalStd)
    ensures p == 0.0 <==> totalAct == totalStd
  {
    (totalAct - totalStd) / totalStd * 100.0
  }

  /**
   * The `Variance_%` column: the percent change rounded to two decimals,
   * or an infinity / NaN when the standard cost is zero.
   */
  function VariancePercent(totalStd: real, totalAct: real): (p: Percent)
    ensures totalStd != 0.0 ==> p.Finite? && Abs(p.value - PercentChange(totalStd, totalAct)) <= 0.005
    ensures totalStd != 0.0 ==> (p.value * 100.0).Floor as real == p.value * 100.0
    ensures totalStd > 0.0 ==>
      (p.value > 0.0 ==> totalAct > totalStd) && (p.value < 0.0 ==> totalAct < totalStd)
      && (totalAct == totalStd ==> p.value == 0.0)
    ensures totalStd == 0.0 ==>
      (p == NotANumber <==> totalAct == 0.0) && (p.Infinite? <==> totalAct != 0.0)
      && (p.Infinite? ==> (p.positive <==> totalAct > 0.0))
  {
    if totalStd != 0.0 then
      var change := PercentChange(totalStd, totalAct);
      Round2KeepsSign(change);
      Finite(Round2(change))
    else if totalAct > 0.0 then Infinite(true)
    else if totalAct < 0.0 then Infinite(false)
    else NotANumber
  }

  /** A total variance of exactly zero counts as favorable. */
  function StatusOf(totalVariance: real): (s: Status)
    ensures s == Favorable <==> totalVariance >= 0.0
    ensures s == Unfavorable <==> totalVariance < 0.0
  {
    if totalVariance >= 0.0 then Favorable else Unfavorable
  }

  /** The text written into the `Status` column. */
  function Label(s: Status): (t: string)
    ensures t == "Favorable" <==> s == Favorable
    ensures t == "Unfavorable" <==> s == Unfavorable
  {
    match s
    case Favorable => "Favorable"
    case Unfavorable => "Unfavorable"
  }

  /** The derived columns of one row, each a function of that row alone. */
  function Derive(r: Record): (d: Derived)
    ensures d.ppv == PurchasePriceVariance(r) && d.usageVar == UsageVariance(r)
    ensures d.laborRateVar == LaborRateVariance(r) && d.laborEffVar == LaborEfficiencyVariance(r)
    ensures d.overheadVar == OverheadVariance(r)
    ensures d.totalVariance == d.ppv + d.usageVar + d.laborRateVar + d.laborEffVar + d.overheadVar
    ensures d.totalStdCost == r.stdMaterialCost + r.stdLaborCost + r.stdOverhead
    ensures d.totalActCost == r.actMaterialCost + r.actLaborCost + r.actOverhead
    ensures d.variancePct == VariancePercent(d.totalStdCost, d.totalActCost)
    ensures d.status == Favorable <==> d.totalVariance >= 0.0
  {
    var ppv := PurchasePriceVariance(r);
    var usage := UsageVariance(r);
    var rate := LaborRateVariance(r);
    var eff := LaborEfficiencyVariance(r);
    var overhead := OverheadVariance(r);
    var total := ppv + usage + rate + eff + overhead;
    var totalStd := TotalStandardCost(r);
    var totalAct := TotalActualCost(r);
    Derived(ppv, usage, rate, eff, overhead, total, totalStd, totalAct,
            VariancePercent(totalStd, totalAct), StatusOf(total))
  }

  /** A row whose derived columns are the ones its input figures give. */
  predicate WellFormed(row: Row) {
    row.derived == Derive(row.input)
  }

  /**
   * Appending the derived columns to the whole table: same number of rows,
   * same order, input columns unchanged, each row derived from itself only.
   */
  function Analyze(records: seq<Record>): (rows: seq<Row>)
    ensures |rows| == |records|
    ensures forall i :: 0 <= i < |records| ==> rows[i].input == records[i] && WellFormed(rows[i])
  {
    if records == [] then []
    else [Row(records[0], Derive(records[0]))] + Analyze(records[1..])
  }

  /** Analysing a table in two parts gives the two analysed parts. */
  lemma {:induction false} AnalyzeAppend(a: seq<Record>, b: seq<Record>)
    ensures Analyze(a + b) == Analyze(a) + Analyze(b)
  {
    var lhs, rhs := Analyze(a + b), Analyze(a) + Analyze(b);
    assert |lhs| == |rhs|;
    forall i | 0 <= i < |lhs| ensures lhs[i] == rhs[i] {
      if i < |a| {
        assert (a + b)[i] == a[i];
      } else {
        assert (a + b)[i] == b[i - |a|];
      }
    }
  }

  /**
   * A row whose book costs agree with its quantities: material cost is
   * quantity x unit price and labor cost is hours x rate, on both the
   * standard and the actual side.
   */
  predicate CostsConsistent(r: Record) {
    && r.stdMaterialCost == r.stdMaterialQty * r.stdMaterialPrice
    && r.actMaterialCost == r.actMaterialQty * r.actMaterialPrice
    && r.stdLaborCost == r.stdLaborHours * r.stdLaborRate
    && r.actLaborCost == r.actLaborHours * r.actLaborRate
  }

  /** Price and usage variance together account for the whole material cost difference. */
  lemma MaterialVarianceSplit(r: Record)
    ensures PurchasePriceVariance(r) + UsageVariance(r)
         == r.stdMaterialQty * r.stdMaterialPrice - r.actMaterialQty * r.actMaterialPrice
  {
  }

  /** Rate and efficiency variance together account for the whole labor cost difference. */
  lemma LaborVarianceSplit(r: Record)
    ensures LaborRateVariance(r) + LaborEfficiencyVariance(r)
         == r.stdLaborHours * r.stdLaborRate - r.actLaborHours * r.actLaborRate
  {
  }

  /**
   * On a row with consistent costs the total variance is the saving of
   * actual against standard cost, so the status is favorable exactly when
   * the actual cost does not exceed the standard cost.
   */
  lemma TotalVarianceIsSaving(r: Record)
    requires CostsConsistent(r)
    ensures Derive(r).totalVariance == Derive(r).totalStdCost - Derive(r).totalActCost
    ensures Derive(r).status == Favorable <==> Derive(r).totalActCost <= Derive(r).totalStdCost
  {
    MaterialVarianceSplit(r);
    LaborVarianceSplit(r);
  }
}
