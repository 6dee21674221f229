# Cost variance analyzer — Dafny model

The analyzer takes a table of manufacturing product lines. Each row holds a
standard and an actual figure for material cost, quantity and unit price, for
labor cost, hours and rate, and for overhead. From these it appends ten
columns:

- five component variances: purchase price (PPV), material usage, labor rate,
  labor efficiency and overhead;
- the total variance;
- total standard cost and total actual cost;
- the variance percentage, rounded to two decimals;
- a Favorable/Unfavorable status.

It then reports a summary block and an attention list. The summary block holds
the column totals and a net FAVORABLE/UNFAVORABLE tag. The attention list holds
the products whose |Variance_%| exceeds 2, or a "none" message.

The model is pure, as the calculation is:

- `rounding.dfy` (module `Rounding`): pandas' `round(2)`, that is round half to
  even on the value scaled by 100, over `real`.
- `variance.dfy` (module `Variance`): the input record, the derived columns, one
  function per formula, and `Analyze`, which appends the columns to every row
  of the table.
- `report.dfy` (module `Report`): column totals, the summary block with its net
  tag, the alert mask and the attention section.
- `sample.dfy` (module `SampleData`): the five embedded product lines and the
  report they produce, worked out exactly.

Design points:

- **Numbers.** Every figure is a `real`, so sums, products and the percentage
  are exact.
- **Division by zero.** The percentage divides by the total standard cost
  without a guard. Pandas does not raise on a zero divisor: the column gets
  +inf or -inf (signed like the actual cost), or NaN when both totals are zero.
  The model carries this as `Percent = Finite | Infinite | NotANumber` rather
  than a precondition. Under the strict `> 2` comparison an infinity is flagged
  and NaN is not.
- **Rounding before the threshold.** The alert threshold is applied to the
  rounded percentage. So a row is flagged exactly when its unrounded percent
  change exceeds 2.005 in magnitude: 2.005 itself rounds to the even 2.00 and
  is not flagged (`Report.ThresholdOnUnroundedChange`).
- **Consistent rows.** The input costs are independent columns, so the total
  variance is in general not the cost difference. On a row whose costs equal
  quantity x price and hours x rate, it is exactly total standard cost less
  total actual cost. There, Favorable means "actual did not exceed standard"
  (`Variance.TotalVarianceIsSaving`, `Report.NetVarianceIsSaving`).

## Model

| member | source | states |
|---|---|---|
| `Rounding.RoundHalfEven` | cost_variance_analyzer.py:81 | the result is an integer within 1/2 of the input, and at exactly 1/2 it is even |
| `Rounding.RoundHalfEvenUnique` | cost_variance_analyzer.py:81 | any integer within 1/2 of the input, even at a tie, is the rounded value, so the two properties define the rounding |
| `Rounding.Round2` | cost_variance_analyzer.py:81 | `round(2)` lands on a whole number of hundredths within 0.005 of its input |
| `Rounding.Round2Idempotent` | cost_variance_analyzer.py:81 | rounding an already rounded value changes nothing |
| `Rounding.Round2KeepsSign` | cost_variance_analyzer.py:81 | rounding never flips the sign, and zero stays zero |
| `Rounding.AbsRound2AboveTwo` | cost_variance_analyzer.py:109 | the rounded value exceeds 2 in magnitude exactly when the unrounded one exceeds 2.005 |
| `Variance.PurchasePriceVariance` | cost_variance_analyzer.py:62-63 | PPV is zero exactly when prices agree or nothing was bought; for a positive actual quantity it is positive exactly when the actual price is below standard |
| `Variance.UsageVariance` | cost_variance_analyzer.py:65-66 | usage variance is zero exactly when quantities agree or the standard price is zero; for a positive standard price it is positive exactly when less material was used than standard |
| `Variance.LaborRateVariance` | cost_variance_analyzer.py:68-69 | rate variance is zero exactly when rates agree or no hours were worked; for positive actual hours it is positive exactly when the actual rate is below standard |
| `Variance.LaborEfficiencyVariance` | cost_variance_analyzer.py:71-72 | efficiency variance is zero exactly when hours agree or the standard rate is zero; for a positive standard rate it is positive exactly when fewer hours were worked than standard |
| `Variance.OverheadVariance` | cost_variance_analyzer.py:74-75 | overhead variance is what the actual overhead falls short of standard; it is positive exactly when actual overhead is below standard |
| `Variance.PercentChange` | cost_variance_analyzer.py:81 | the unrounded percentage is zero exactly when the totals agree; with a positive standard total it is positive exactly when actual exceeds standard (negative exactly when below), and reversed for a negative standard total |
| `Variance.VariancePercent` | cost_variance_analyzer.py:81 | with a non-zero standard total, Variance_% is finite, on whole hundredths and within 0.005 of the percent change, and with a positive standard total its sign never contradicts the cost overrun; with a zero standard total it is NaN exactly when the actual total is zero and an infinity signed like the actual total exactly when it is not |
| `Variance.StatusOf` | cost_variance_analyzer.py:82 | Favorable exactly when the total variance is at least zero, so zero counts as Favorable; Unfavorable exactly when it is negative |
| `Variance.Label` | cost_variance_analyzer.py:82 | the Status column holds "Favorable" exactly for Favorable and "Unfavorable" exactly for Unfavorable |
| `Variance.Derive` | cost_variance_analyzer.py:62-82 | each component column is its formula; the total variance is the sum of the five components; the cost totals sum material, labor and overhead; Variance_% comes from those totals; the status is Favorable exactly when the total variance is at least zero |
| `Variance.Analyze` | cost_variance_analyzer.py:58-82 | the augmented table has as many rows as the input, in the same order, with input columns unchanged and each row's derived columns computed from that row alone |
| `Variance.AnalyzeAppend` | cost_variance_analyzer.py:58-82 | deriving a table in two parts gives the concatenation of the derived parts |
| `Variance.MaterialVarianceSplit` | cost_variance_analyzer.py:62-66 | PPV plus usage variance equals standard quantity x standard price less actual quantity x actual price |
| `Variance.LaborVarianceSplit` | cost_variance_analyzer.py:68-72 | rate plus efficiency variance equals standard hours x standard rate less actual hours x actual rate |
| `Variance.TotalVarianceIsSaving` | cost_variance_analyzer.py:78-82 | on a row whose costs match quantity x price and hours x rate, the total variance is total standard cost less total actual cost, and the status is Favorable exactly when actual does not exceed standard |
| `Report.ColumnSumAppend` | cost_variance_analyzer.py:100-102 | a column total over two stacked tables is the sum of their totals |
| `Report.ColumnSumNonNegative` | cost_variance_analyzer.py:102-103 | a column with no negative cell has a non-negative total |
| `Report.ColumnSumNegative` | cost_variance_analyzer.py:102-103 | a non-empty column of negative cells has a negative total |
| `Report.Summarize` | cost_variance_analyzer.py:100-104 | the summary holds the totals of Total_Std_Cost, Total_Act_Cost and Total_Variance over all rows; the net tag is FAVORABLE exactly when the net variance is at least zero |
| `Report.NetLabel` | cost_variance_analyzer.py:103-104 | the net tag is printed as "FAVORABLE" exactly for NetFavorable and "UNFAVORABLE" exactly for NetUnfavorable |
| `Report.NetVarianceDecomposes` | cost_variance_analyzer.py:102 | over a derived table, the net variance is the sum of the five component column totals |
| `Report.AllFavorableNetFavorable` | cost_variance_analyzer.py:102-103 | when every row is Favorable the net tag is FAVORABLE |
| `Report.AllUnfavorableNetUnfavorable` | cost_variance_analyzer.py:102-103 | when every row of a non-empty table is Unfavorable the net tag is UNFAVORABLE |
| `Report.NetVarianceIsSaving` | cost_variance_analyzer.py:100-103 | on a table of rows whose costs match their quantities, the net variance is the standard total less the actual total, and the tag is FAVORABLE exactly when actual does not exceed standard |
| `Report.Flagged` | cost_variance_analyzer.py:109 | the alert mask keeps only rows whose Variance_% exceeds 2 in magnitude, keeps every such row, and never lengthens the table |
| `Report.FlaggedAppend` | cost_variance_analyzer.py:109 | the mask preserves order: masking a table in two parts gives the two masked parts in sequence |
| `Report.FlaggedEmpty` | cost_variance_analyzer.py:109-110 | the mask is empty exactly when no row's Variance_% exceeds 2 in magnitude |
| `Report.Alerts` | cost_variance_analyzer.py:109 | one alert line per kept row, in mask order, holding its product, Variance_% and Status |
| `Report.AttentionItems` | cost_variance_analyzer.py:109-114 | the "none" message appears exactly when no row crosses the threshold; otherwise the non-empty list of alert lines is shown |
| `Report.ThresholdOnUnroundedChange` | cost_variance_analyzer.py:109 | with a non-zero standard total a row is flagged exactly when its unrounded percent change exceeds 2.005 in magnitude; with a zero standard total exactly when its actual total is non-zero |
| `SampleData.SampleIsSample` | cost_variance_analyzer.py:26-56 | the embedded table is the five product lines in their listed order |
| `SampleData.ControlBoardRow` | cost_variance_analyzer.py:38-82 | row 1: PPV -54, usage -96, labor rate 0, labor efficiency -20, overhead -10, total -180, costs 1800/1980, 10.00 %, Unfavorable |
| `SampleData.PowerSupplyRow` | cost_variance_analyzer.py:38-82 | row 2: 9.36, 21.26, -5.04, 20, 5, total 50.58, costs 1300/1250, -3.85 %, Favorable |
| `SampleData.SensorModuleRow` | cost_variance_analyzer.py:38-82 | row 3: 4.3, -255, -9.87, -40, -30, total -330.57, costs 4750/5080, 6.95 %, Unfavorable |
| `SampleData.CommunicationInterfaceRow` | cost_variance_analyzer.py:38-82 | row 4: -60.8, -140, 0, 20, -10, total -190.8, costs 3000/3190, 6.33 %, Unfavorable |
| `SampleData.MotorDriveRow` | cost_variance_analyzer.py:38-82 | row 5: 14.5, 186.7, 0, -100, 20, total 121.2, costs 7850/7730, -1.53 %, Favorable |
| `SampleData.SampleAnalyzed` | cost_variance_analyzer.py:26-82 | the embedded table derives to the five rows above, with their product names |
| `SampleData.SampleSummary` | cost_variance_analyzer.py:100-104 | the sample summary is standard 18700, actual 19230, net variance -529.59, UNFAVORABLE |
| `SampleData.SampleAlerts` | cost_variance_analyzer.py:109-114 | the sample attention list is the first four products, in table order; the motor drive at -1.53 % is not listed |
| `SampleData.SampleReport` | cost_variance_analyzer.py:26-114 | for the embedded table (`SampleIsSample`), deriving the columns and reporting gives standard 18700, actual 19230, net -529.59 UNFAVORABLE, and attention lines for the first four products in table order |

## Left out

- Console report layout: the banner, the pandas table rendering and the `$` currency formatting with thousands separators (cost_variance_analyzer.py:86-105, :113-114). The model stops at the values shown: the summary totals and tag, and the alert lines.
- Spreadsheet export with `to_excel` (cost_variance_analyzer.py:117-118). This is file I/O through a foreign library. The exported columns are the `Derived` fields of each `Row` plus its product name, in `Analyze` order.
- Binary floating point. Figures are exact reals, so the model ignores float rounding in the formulas and in the scaling inside `round(2)`. It also ignores 64-bit integer overflow of the integer columns.
- Ties in `round(2)`: the model applies numpy's round-half-to-even to the exact scaled value. With binary floats, a value such as 2.005 is not exactly representable, and the tie may fall either way.
