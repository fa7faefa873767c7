/**
 Concrete hours worked through the model: the boundary cases of each mode with
 lossless conversion, and a run in which a partial charge overfills the battery.
 */
module Scenarios {
  import opened Energy
  import opened Dispatch
  import opened Simulation

  /** A 10-unit battery with a floor of 2, a charge rate of 3 and lossless
      battery and inverter. */
  const Lossless := Params(10.0, 2.0, 3.0, Efficiency(1.0, 1.0), Efficiency(1.0, 1.0))

  /** Each of the five modes fires on its boundary case and writes the
      expected level and flows. */
  lemma LosslessScenarios(usage: real)
    ensures var o := Step(Lossless, "peak", 5.0, 10.0);
            SelectMode(Lossless, "peak", 5.0, 10.0) == BatteryOnly
            && o.next == 5.0 && o.flows.gridToDemandPeak == 0.0
    ensures var o := Step(Lossless, "int", 12.0, 10.0);
            SelectMode(Lossless, "int", 12.0, 10.0) == BatteryAndGrid
            && o.next == 2.0 && o.flows.inverterToDemand == 8.0 && o.flows.gridToDemandPeak == 4.0
    ensures var o := Step(Lossless, "off-peak", usage, 8.0);
            SelectMode(Lossless, "off-peak", usage, 8.0) == StoreToCap
            && o.next == 10.0 && o.flows.gridToDemandOffpeak == usage
    ensures SelectMode(Lossless, "off-peak", usage, 3.0) == StorePartial
            && Step(Lossless, "off-peak", usage, 3.0).next == 6.0
    ensures var o := Step(Lossless, "off-peak", usage, 10.0);
            SelectMode(Lossless, "off-peak", usage, 10.0) == BatteryFull
            && o.next == 10.0 && o.flows.inverterToStorage == 0.0 && o.flows.gridToInverter == 0.0
  {
  }

  /** A lossy inverter (charging efficiency 0.5) and a charge rate of 8 on a
      10-unit battery with floor 2. */
  const LossyInverter := Params(10.0, 2.0, 8.0, Efficiency(1.0, 1.0), Efficiency(0.5, 1.0))

  /** A peak hour drains the battery to 3; the next off-peak hour's headroom
      of 7 exceeds the top-off limit 0.5 * 8 = 4, so it charges by the full
      rate of 8 and the third hour starts at 11, above the capacity of 10. */
  lemma PartialChargeOverfills()
    ensures var rows := Run(LossyInverter, [Hour(7.0, "peak"), Hour(0.0, "off"), Hour(0.0, "off")]);
            rows[1].storage == 3.0 && rows[2].storage == 11.0
            && rows[2].storage > LossyInverter.storageSize
  {
    var hours := [Hour(7.0, "peak"), Hour(0.0, "off"), Hour(0.0, "off")];
    var o0 := Step(LossyInverter, "peak", 7.0, 10.0);
    assert o0.next == 3.0;
    var o1 := Step(LossyInverter, "off", 0.0, 3.0);
    assert SelectMode(LossyInverter, "off", 0.0, 3.0) == StorePartial;
    assert o1.next == 11.0;
    assert hours[1..] == [Hour(0.0, "off"), Hour(0.0, "off")];
    assert hours[1..][1..] == [Hour(0.0, "off")];
  }
}
