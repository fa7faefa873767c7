/**
 The per-hour decision of storage_logic.py: which of the five handlers runs
 for an hour, what each handler writes, and the facts that follow from the
 guard that selected it.
 */
module Dispatch {
  import opened Energy

  /** The five handlers, one per operating mode. */
  datatype Mode = BatteryOnly | BatteryAndGrid | StoreToCap | StorePartial | BatteryFull

  /** What a handler writes for hour i: the hour's flows and the charge level
      'storage_available[i+1]' handed to the next hour. */
  datatype Outcome = Outcome(flows: Flows, next: real)

  /** Energy the battery can deliver above the depleted floor, after the
      battery and inverter discharge losses, as the peak guard computes it. */
  function Deliverable(p: Params, start: real): real {
    (start - p.batDepleted) * p.battery.At(Discharging) * p.inverter.At(Discharging)
  }

  /** Room left in the battery below its capacity. */
  function Headroom(p: Params, start: real): real {
    p.storageSize - start
  }

  /** The most the off-peak guard lets the battery take in one hour before it
      switches from topping off to charging at the full rate. */
  function TopOffLimit(p: Params): real {
    p.inverter.At(Charging) * p.maxChargeRate
  }

  /** The guards of the dispatch loop, in the decision order of storage_logic.py. Each
      mode is characterised by its own flat condition, so exactly one holds. */
  function SelectMode(p: Params, period: string, usage: real, start: real): (m: Mode)
    ensures m == BatteryOnly <==> IsPeak(period) && Deliverable(p, start) >= usage
    ensures m == BatteryAndGrid <==> IsPeak(period) && Deliverable(p, start) < usage
    ensures m == StoreToCap <==>
              !IsPeak(period) && start < p.storageSize && Headroom(p, start) <= TopOffLimit(p)
    ensures m == StorePartial <==>
              !IsPeak(period) && start < p.storageSize && Headroom(p, start) > TopOffLimit(p)
    ensures m == BatteryFull <==> !IsPeak(period) && start >= p.storageSize
  {
    if IsPeak(period) then
      if Deliverable(p, start) >= usage then BatteryOnly else BatteryAndGrid
    else if start < p.storageSize then
      if Headroom(p, start) <= TopOffLimit(p) then StoreToCap else StorePartial
    else
      BatteryFull
  }

  /** peak_battery_only: the battery alone serves the hour. The inverter output
      is the usage divided by the inverter's discharging efficiency, and the
      level drops by what leaves the battery. */
  function PeakBatteryOnly(p: Params, usage: real, start: real): (o: Outcome)
    requires p.battery.At(Discharging) != 0.0 && p.inverter.At(Discharging) != 0.0
    ensures o.flows.inverterToDemand * p.inverter.At(Discharging) == usage
    ensures o.flows.storageToInverter * p.battery.At(Discharging) == o.flows.inverterToDemand
    ensures o.next + o.flows.storageToInverter == start
    ensures ChargesNothing(o.flows) && o.flows.gridToDemandPeak == 0.0
  {
    var toDemand := usage / p.inverter.At(Discharging);
    var fromStorage := toDemand / p.battery.At(Discharging);
    Outcome(
      Flows(inverterToStorage := 0.0, storageToInverter := fromStorage,
            inverterToDemand := toDemand, gridToInverter := 0.0,
            gridToDemandPeak := 0.0, gridToDemandOffpeak := 0.0),
      start - fromStorage)
  }

  /** peak_battery_and_grid: the battery is drained to the depleted floor and
      the grid supplies whatever the inverter output leaves uncovered. */
  function PeakBatteryAndGrid(p: Params, usage: real, start: real): (o: Outcome)
    ensures o.next == p.batDepleted
    ensures o.flows.storageToInverter == (start - o.next) * p.battery.At(Discharging)
    ensures o.flows.inverterToDemand == Deliverable(p, start)
    ensures o.flows.inverterToDemand + o.flows.gridToDemandPeak == usage
    ensures ChargesNothing(o.flows)
  {
    var fromStorage := (start - p.batDepleted) * p.battery.At(Discharging);
    var toDemand := fromStorage * p.inverter.At(Discharging);
    Outcome(
      Flows(inverterToStorage := 0.0, storageToInverter := fromStorage,
            inverterToDemand := toDemand, gridToInverter := 0.0,
            gridToDemandPeak := usage - toDemand, gridToDemandOffpeak := 0.0),
      p.batDepleted)
  }

  /** offpeak_store_to_cap: the battery is filled exactly to capacity; the grid
      buys the stored energy grossed up by both charging efficiencies. */
  function OffpeakStoreToCap(p: Params, usage: real, start: real): (o: Outcome)
    requires p.battery.At(Charging) != 0.0 && p.inverter.At(Charging) != 0.0
    ensures o.next == p.storageSize
    ensures o.flows.inverterToStorage * p.battery.At(Charging) == o.next - start
    ensures o.flows.gridToInverter * p.inverter.At(Charging) == o.flows.inverterToStorage
    ensures DischargesNothing(o.flows, usage)
  {
    var toStorage := (p.storageSize - start) / p.battery.At(Charging);
    Outcome(
      Flows(inverterToStorage := toStorage, storageToInverter := 0.0,
            inverterToDemand := 0.0, gridToInverter := toStorage / p.inverter.At(Charging),
            gridToDemandPeak := 0.0, gridToDemandOffpeak := usage),
      p.storageSize)
  }

  /** offpeak_store_partial: the level rises by the full maximum charge rate. */
  function OffpeakStorePartial(p: Params, usage: real, start: real): (o: Outcome)
    requires p.battery.At(Charging) != 0.0 && p.inverter.At(Charging) != 0.0
    ensures o.next - start == p.maxChargeRate
    ensures o.flows.inverterToStorage * p.battery.At(Charging) == o.next - start
    ensures o.flows.gridToInverter * p.inverter.At(Charging) == o.flows.inverterToStorage
    ensures DischargesNothing(o.flows, usage)
  {
    var toStorage := p.maxChargeRate / p.battery.At(Charging);
    Outcome(
      Flows(inverterToStorage := toStorage, storageToInverter := 0.0,
            inverterToDemand := 0.0, gridToInverter := toStorage / p.inverter.At(Charging),
            gridToDemandPeak := 0.0, gridToDemandOffpeak := usage),
      start + p.maxChargeRate)
  }

  /** offpeak_battery_full: nothing is stored and the level is set to capacity. */
  function OffpeakBatteryFull(p: Params, usage: real, start: real): (o: Outcome)
    ensures o.next == p.storageSize
    ensures o.flows.inverterToStorage == 0.0 && o.flows.gridToInverter == 0.0
    ensures DischargesNothing(o.flows, usage)
  {
    Outcome(
      Flows(inverterToStorage := 0.0, storageToInverter := 0.0,
            inverterToDemand := 0.0, gridToInverter := 0.0,
            gridToDemandPeak := 0.0, gridToDemandOffpeak := usage),
      p.storageSize)
  }

  /** One iteration of the dispatch loop: run the handler the guards select. */
  function Step(p: Params, period: string, usage: real, start: real): (o: Outcome)
    requires NonZeroEfficiencies(p)
    ensures IsPeak(period) ==> ChargesNothing(o.flows)
    ensures !IsPeak(period) ==> DischargesNothing(o.flows, usage)
  {
    match SelectMode(p, period, usage, start)
    case BatteryOnly => PeakBatteryOnly(p, usage, start)
    case BatteryAndGrid => PeakBatteryAndGrid(p, usage, start)
    case StoreToCap => OffpeakStoreToCap(p, usage, start)
    case StorePartial => OffpeakStorePartial(p, usage, start)
    case BatteryFull => OffpeakBatteryFull(p, usage, start)
  }

  /** A non-zero factor cancels from both sides of an equation. */
  lemma CancelFactor(a: real, b: real, k: real)
    requires k != 0.0 && a * k == b * k
    ensures a == b
  {
    assert a == (a * k) / k;
    assert b == (b * k) / k;
  }

  /** Under the battery-only guard with positive discharging efficiencies the
      level never falls below the depleted floor, and with a non-negative
      usage it never rises. */
  lemma BatteryOnlyStaysAboveFloor(p: Params, usage: real, start: real)
    requires p.battery.At(Discharging) > 0.0 && p.inverter.At(Discharging) > 0.0
    requires Deliverable(p, start) >= usage
    ensures PeakBatteryOnly(p, usage, start).next >= p.batDepleted
    ensures usage >= 0.0 ==> PeakBatteryOnly(p, usage, start).next <= start
  {
  }

  /** When the battery-only guard fails the grid buys a strictly positive
      amount; from a level at or above the floor the battery still delivers a
      non-negative amount and the level does not rise. */
  lemma BatteryAndGridBuysShortfall(p: Params, usage: real, start: real)
    requires Deliverable(p, start) < usage
    ensures PeakBatteryAndGrid(p, usage, start).flows.gridToDemandPeak > 0.0
    ensures p.battery.At(Discharging) >= 0.0 && p.inverter.At(Discharging) >= 0.0 && start >= p.batDepleted ==>
              var o := PeakBatteryAndGrid(p, usage, start);
              && o.flows.storageToInverter >= 0.0
              && 0.0 <= o.flows.inverterToDemand < usage
              && o.next <= start
  {
  }

  /** At the boundary of the peak guard, where the deliverable energy equals
      the usage exactly, both peak handlers leave the battery at the floor.
      Their flows still differ there: with a lossy inverter, battery-only
      reports a larger inverter output than battery-plus-grid does. */
  lemma PeakModesMeetAtBoundary(p: Params, usage: real, start: real)
    requires p.battery.At(Discharging) != 0.0 && p.inverter.At(Discharging) != 0.0
    requires Deliverable(p, start) == usage
    ensures PeakBatteryOnly(p, usage, start).next == PeakBatteryAndGrid(p, usage, start).next
    ensures 0.0 < p.inverter.At(Discharging) < 1.0 && usage > 0.0 ==>
              PeakBatteryOnly(p, usage, start).flows.inverterToDemand
                > PeakBatteryAndGrid(p, usage, start).flows.inverterToDemand
  {
    var be := p.battery.At(Discharging);
    var ie := p.inverter.At(Discharging);
    var o := PeakBatteryOnly(p, usage, start);
    var drawn := o.flows.storageToInverter;
    assert drawn * (be * ie) == usage;
    assert (start - p.batDepleted) * (be * ie) == usage;
    CancelFactor(drawn, start - p.batDepleted, be * ie);
  }

  /** The charging modes of an off-peak hour below capacity: both stored and
      purchased energy are non-negative, the grid purchase is the stored energy
      divided by the inverter's charging efficiency, and the level never drops. */
  lemma OffpeakChargingFlows(p: Params, period: string, usage: real, start: real)
    requires Sensible(p)
    requires !IsPeak(period) && start < p.storageSize
    ensures var o := Step(p, period, usage, start);
            && o.flows.inverterToStorage >= 0.0
            && o.flows.gridToInverter >= 0.0
            && o.flows.gridToInverter == o.flows.inverterToStorage / p.inverter.At(Charging)
            && start <= o.next
  {
  }

  /** Every off-peak mode ends at capacity or charges by the full rate. */
  lemma OffpeakNextLevel(p: Params, period: string, usage: real, start: real)
    requires NonZeroEfficiencies(p)
    requires !IsPeak(period)
    ensures var o := Step(p, period, usage, start);
            if start < p.storageSize && Headroom(p, start) > TopOffLimit(p)
            then o.next == start + p.maxChargeRate
            else o.next == p.storageSize
  {
  }

  /** A partial charge overfills the battery exactly when the full rate exceeds
      the headroom, which the guard allows whenever the inverter's charging
      efficiency is below one. */
  lemma PartialChargeOverfillsIff(p: Params, period: string, usage: real, start: real)
    requires NonZeroEfficiencies(p)
    requires SelectMode(p, period, usage, start) == StorePartial
    ensures Step(p, period, usage, start).next > p.storageSize <==> p.maxChargeRate > Headroom(p, start)
  {
  }

  /** With a lossy inverter (charging efficiency at most one) one hour started
      at or below capacity overshoots it by at most the share of the charge
      rate that the top-off guard discounts. */
  lemma StepOvershootBound(p: Params, period: string, usage: real, start: real)
    requires Sensible(p)
    requires usage >= 0.0 && p.inverter.At(Charging) <= 1.0
    requires start <= p.storageSize
    ensures Step(p, period, usage, start).next
              <= p.storageSize + (1.0 - p.inverter.At(Charging)) * p.maxChargeRate
  {
    var slack := (1.0 - p.inverter.At(Charging)) * p.maxChargeRate;
    assert slack >= 0.0;
    match SelectMode(p, period, usage, start)
    case BatteryOnly =>
      BatteryOnlyStaysAboveFloor(p, usage, start);
    case StorePartial =>
      assert start + p.maxChargeRate == start + TopOffLimit(p) + slack;
    case _ =>
  }

  /** One hour never takes the level below the depleted floor. */
  lemma StepKeepsFloor(p: Params, period: string, usage: real, start: real)
    requires Sensible(p)
    requires start >= p.batDepleted
    ensures Step(p, period, usage, start).next >= p.batDepleted
  {
  }

  /** One hour never takes the level above capacity, provided the usage is
      non-negative and the inverter's charging efficiency is at least one (so
      the top-off guard cannot admit a partial charge larger than the room). */
  lemma StepKeepsCeiling(p: Params, period: string, usage: real, start: real)
    requires Sensible(p)
    requires usage >= 0.0 && p.inverter.At(Charging) >= 1.0
    requires start <= p.storageSize
    ensures Step(p, period, usage, start).next <= p.storageSize
  {
  }
}
