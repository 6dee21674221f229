/**
 * The five product lines embedded in the analyzer, and the report they
 * produce, worked out exactly.
 */
module SampleData {
  import opened Rounding
  import opened Variance
  import opened Report

  function ControlBoard(): Record {
    Record("Control Board Assembly",
           1200.0, 1350.0, 100.0, 108.0, 12.00, 12.50,
           400.0, 420.0, 20.0, 21.0, 20.00, 20.00,
           200.0, 210.0)
  }

  function PowerSupply(): Record {
    Record("Power Supply Unit",
           850.0, 820.0, 80.0, 78.0, 10.63, 10.51,
           300.0, 285.0, 15.0, 14.0, 20.00, 20.36,
           150.0, 145.0)
  }

  function SensorModule(): Record {
    Record("Sensor Module",
           3400.0, 3650.0, 200.0, 215.0, 17.00, 16.98,
           900.0, 950.0, 45.0, 47.0, 20.00, 20.21,
           450.0, 480.0)
  }

  function CommunicationInterface(): Record {
    Record("Communication Interface",
           2100.0, 2300.0, 150.0, 160.0, 14.00, 14.38,
           600.0, 580.0, 30.0, 29.0, 20.00, 20.00,
           300.0, 310.0)
  }

  function MotorDrive(): Record {
    Record("Motor Drive Assembly",
           5600.0, 5400.0, 300.0, 290.0, 18.67, 18.62,
           1500.0, 1600.0, 75.0, 80.0, 20.00, 20.00,
           750.0, 730.0)
  }

  /** The embedded table, in its row order. */
  function Sample(): seq<Record> {
    [ControlBoard(), PowerSupply(), SensorModule(), CommunicationInterface(), MotorDrive()]
  }

  /** A table holding the five embedded product lines in their order. */
  predicate IsSample(records: seq<Record>) {
    && |records| == 5
    && records[0] == ControlBoard() && records[1] == PowerSupply() && records[2] == SensorModule()
    && records[3] == CommunicationInterface() && records[4] == MotorDrive()
  }

  lemma SampleIsSample()
    ensures IsSample(Sample())
  {
  }

  /** Control board: PPV (12.00 - 12.50) x 108 = -54, efficiency (20 - 21) x 20 = -20. */
  lemma ControlBoardRow(records: seq<Record>)
    requires IsSample(records)
    ensures Analyze(records)[0].derived
         == Derived(-54.0, -96.0, 0.0, -20.0, -10.0, -180.0, 1800.0, 1980.0, Finite(10.0), Unfavorable)
  {
    assert VariancePercent(1800.0, 1980.0) == Finite(10.0) by {
      assert PercentChange(1800.0, 1980.0) == 10.0;
      assert RoundHalfEven(1000.0) == 1000;
    }
  }

  /** Power supply: cheaper material and fewer hours outweigh the dearer labor rate. */
  lemma PowerSupplyRow(records: seq<Record>)
    requires IsSample(records)
    ensures Analyze(records)[1].derived
         == Derived(9.36, 21.26, -5.04, 20.0, 5.0, 50.58, 1300.0, 1250.0, Finite(-3.85), Favorable)
  {
    assert VariancePercent(1300.0, 1250.0) == Finite(-3.85) by {
      assert PercentChange(1300.0, 1250.0) == -50.0 / 13.0;
      assert RoundHalfEven(-5000.0 / 13.0) == -385;
    }
  }

  /** Sensor module: -330.57 net; 132/19 % = 6.947... rounds to 6.95. */
  lemma SensorModuleRow(records: seq<Record>)
    requires IsSample(records)
    ensures Analyze(records)[2].derived
         == Derived(4.3, -255.0, -9.87, -40.0, -30.0, -330.57, 4750.0, 5080.0, Finite(6.95), Unfavorable)
  {
    assert VariancePercent(4750.0, 5080.0) == Finite(6.95) by {
      assert PercentChange(4750.0, 5080.0) == 132.0 / 19.0;
      assert RoundHalfEven(13200.0 / 19.0) == 695;
    }
  }

  /** Communication interface: 19/3 % = 6.333... rounds to 6.33. */
  lemma CommunicationInterfaceRow(records: seq<Record>)
    requires IsSample(records)
    ensures Analyze(records)[3].derived
         == Derived(-60.8, -140.0, 0.0, 20.0, -10.0, -190.8, 3000.0, 3190.0, Finite(6.33), Unfavorable)
  {
    assert VariancePercent(3000.0, 3190.0) == Finite(6.33) by {
      assert PercentChange(3000.0, 3190.0) == 19.0 / 3.0;
      assert RoundHalfEven(1900.0 / 3.0) == 633;
    }
  }

  /** Motor drive: favorable, and -240/157 % = -1.528... rounds to -1.53, inside the threshold. */
  lemma MotorDriveRow(records: seq<Record>)
    requires IsSample(records)
    ensures Analyze(records)[4].derived
         == Derived(14.5, 186.7, 0.0, -100.0, 20.0, 121.2, 7850.0, 7730.0, Finite(-1.53), Favorable)
  {
    assert VariancePercent(7850.0, 7730.0) == Finite(-1.53) by {
      assert PercentChange(7850.0, 7730.0) == -240.0 / 157.0;
      assert RoundHalfEven(-24000.0 / 157.0) == -153;
    }
  }

  /** A column total of a five-row table, written out. */
  lemma {:induction false} ColumnSumOfFive(rows: seq<Row>, c: Column)
    requires |rows| == 5
    ensures ColumnSum(rows, c)
         == Cell(rows[0], c) + Cell(rows[1], c) + Cell(rows[2], c) + Cell(rows[3], c) + Cell(rows[4], c)
  {
    var t1 := rows[1..];
    var t2 := t1[1..];
    var t3 := t2[1..];
    var t4 := t3[1..];
    assert t4[1..] == [];
    assert ColumnSum(t4, c) == Cell(rows[4], c);
    assert ColumnSum(t3, c) == Cell(rows[3], c) + ColumnSum(t4, c);
    assert ColumnSum(t2, c) == Cell(rows[2], c) + ColumnSum(t3, c);
    assert ColumnSum(t1, c) == Cell(rows[1], c) + ColumnSum(t2, c);
  }

  /** The derived columns the five embedded product lines receive, with their product names. */
  predicate SampleDerived(rows: seq<Row>) {
    && |rows| == 5
    && rows[0].input.product == "Control Board Assembly"
    && rows[1].input.product == "Power Supply Unit"
    && rows[2].input.product == "Sensor Module"
    && rows[3].input.product == "Communication Interface"
    && rows[4].input.product == "Motor Drive Assembly"
    && rows[0].derived == Derived(-54.0, -96.0, 0.0, -20.0, -10.0, -180.0, 1800.0, 1980.0, Finite(10.0), Unfavorable)
    && rows[1].derived == Derived(9.36, 21.26, -5.04, 20.0, 5.0, 50.58, 1300.0, 1250.0, Finite(-3.85), Favorable)
    && rows[2].derived == Derived(4.3, -255.0, -9.87, -40.0, -30.0, -330.57, 4750.0, 5080.0, Finite(6.95), Unfavorable)
    && rows[3].derived == Derived(-60.8, -140.0, 0.0, 20.0, -10.0, -190.8, 3000.0, 3190.0, Finite(6.33), Unfavorable)
    && rows[4].derived == Derived(14.5, 186.7, 0.0, -100.0, 20.0, 121.2, 7850.0, 7730.0, Finite(-1.53), Favorable)
  }

  lemma SampleAnalyzed(records: seq<Record>)
    requires IsSample(records)
    ensures SampleDerived(Analyze(records))
  {
    ControlBoardRow(records);
    PowerSupplyRow(records);
    SensorModuleRow(records);
    CommunicationInterfaceRow(records);
    MotorDriveRow(records);
  }

  /** Summary block of the sample: net variance -529.59, UNFAVORABLE. */
  lemma SampleSummary(rows: seq<Row>)
    requires SampleDerived(rows)
    ensures Summarize(rows) == Summary(18700.0, 19230.0, -529.59, NetUnfavorable)
  {
    ColumnSumOfFive(rows, TotalStdCostColumn);
    ColumnSumOfFive(rows, TotalActCostColumn);
    ColumnSumOfFive(rows, TotalVarianceColumn);
  }

  /** All but the motor drive assembly (-1.53%) exceed the 2% threshold. */
  lemma SampleAlerts(rows: seq<Row>)
    requires SampleDerived(rows)
    ensures AttentionItems(rows) == Attention([
      Alert("Control Board Assembly", Finite(10.0), Unfavorable),
      Alert("Power Supply Unit", Finite(-3.85), Favorable),
      Alert("Sensor Module", Finite(6.95), Unfavorable),
      Alert("Communication Interface", Finite(6.33), Unfavorable)])
  {
    assert NeedsAttention(rows[0].derived.variancePct);
    assert NeedsAttention(rows[1].derived.variancePct);
    assert NeedsAttention(rows[2].derived.variancePct);
    assert NeedsAttention(rows[3].derived.variancePct);
    assert !NeedsAttention(rows[4].derived.variancePct);
    assert Flagged(rows[4..]) == [] by {
      assert rows[4..][1..] == [];
    }
    assert Flagged(rows[3..]) == [rows[3]] by {
      assert rows[3..][1..] == rows[4..];
    }
    assert Flagged(rows[2..]) == [rows[2], rows[3]] by {
      assert rows[2..][1..] == rows[3..];
    }
    assert Flagged(rows[1..]) == [rows[1], rows[2], rows[3]] by {
      assert rows[1..][1..] == rows[2..];
    }
    assert Flagged(rows) == [rows[0], rows[1], rows[2], rows[3]];
  }

  /** The report of the embedded table, end to end: its summary block and its attention list. */
  lemma SampleReport(records: seq<Record>)
    requires IsSample(records)
    ensures Summarize(Analyze(records)) == Summary(18700.0, 19230.0, -529.59, NetUnfavorable)
    ensures AttentionItems(Analyze(records)) == Attention([
      Alert("Control Board Assembly", Finite(10.0), Unfavorable),
      Alert("Power Supply Unit", Finite(-3.85), Favorable),
      Alert("Sensor Module", Finite(6.95), Unfavorable),
      Alert("Communication Interface", Finite(6.33), Unfavorable)])
  {
    var rows := Analyze(records);
    assert SampleDerived(rows) by {
      SampleAnalyzed(records);
    }
    SampleSummary(rows);
    SampleAlerts(rows);
  }
}
