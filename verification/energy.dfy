/**
 The vocabulary of the hourly storage dispatch: system parameters, the
 per-hour input record and the six energy-flow channels written each hour.
 Quantities are exact reals; storage_logic.py computes them in floating point.
 */
module Energy {

  /** The argument storage_logic.py passes to its efficiency callables. */
  datatype Direction = Charging | Discharging

  /** One efficiency callable of storage_logic.py, as its two possible values. */
  datatype Efficiency = Efficiency(charging: real, discharging: real) {
    function At(d: Direction): real {
      match d
      case Charging => charging
      case Discharging => discharging
    }
  }

  /** The system parameters: 'Storage Size', 'Bat Depleted', 'Max Charge Rate',
      'Battery Efficiency' and 'Inverter Efficiency'. */
  datatype Params = Params(
    storageSize: real,
    batDepleted: real,
    maxChargeRate: real,
    battery: Efficiency,
    inverter: Efficiency)

  /** Every efficiency the engine may divide by is non-zero. */
  predicate NonZeroEfficiencies(p: Params) {
    && p.battery.At(Charging) != 0.0
    && p.battery.At(Discharging) != 0.0
    && p.inverter.At(Charging) != 0.0
    && p.inverter.At(Discharging) != 0.0
  }

  /** The physical parameter ranges: a depleted floor inside the capacity, a
      non-negative charge rate and positive efficiencies. */
  predicate Sensible(p: Params) {
    && 0.0 <= p.batDepleted <= p.storageSize
    && p.maxChargeRate >= 0.0
    && p.battery.At(Charging) > 0.0
    && p.battery.At(Discharging) > 0.0
    && p.inverter.At(Charging) > 0.0
    && p.inverter.At(Discharging) > 0.0
  }

  /** One row of the input table: the hour's 'USAGE' and its 'period' label. */
  datatype Hour = Hour(usage: real, period: string)

  /** storage_logic.py sends 'peak' and 'int' (intermediate) hours to the peak
      branch and every other label to the off-peak branch. */
  predicate IsPeak(period: string) {
    period == "peak" || period == "int"
  }

  /** The six flow channels the engine writes for one hour. */
  datatype Flows = Flows(
    inverterToStorage: real,
    storageToInverter: real,
    inverterToDemand: real,
    gridToInverter: real,
    gridToDemandPeak: real,
    gridToDemandOffpeak: real)

  /** The zero-initialised channels of an hour the engine never visits. */
  const NoFlow := Flows(0.0, 0.0, 0.0, 0.0, 0.0, 0.0)

  /** No energy is bought for the battery: the charging-side channels and the
      off-peak grid purchase are zero. */
  predicate ChargesNothing(f: Flows) {
    f.inverterToStorage == 0.0 && f.gridToInverter == 0.0 && f.gridToDemandOffpeak == 0.0
  }

  /** Nothing leaves the battery and the whole usage is bought off-peak. */
  predicate DischargesNothing(f: Flows, usage: real) {
    && f.storageToInverter == 0.0
    && f.inverterToDemand == 0.0
    && f.gridToDemandPeak == 0.0
    && f.gridToDemandOffpeak == usage
  }
}
