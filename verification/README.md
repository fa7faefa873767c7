# Hourly battery dispatch under time-of-use pricing

A Dafny model of the dispatch engine in `storage_logic.py`. It simulates a
building battery hour by hour across a year. Each hour carries a usage and a
pricing-period label. The engine carries one scalar from hour to hour, the
battery level `storage_available`. From the period label and that level it
picks one of five handlers:

- `peak_battery_only`
- `peak_battery_and_grid`
- `offpeak_store_to_cap`
- `offpeak_store_partial`
- `offpeak_battery_full`

The chosen handler writes the hour's six energy-flow channels and the next
hour's level.

Files:

- `energy.dfy` (module `Energy`) holds the vocabulary. `Params` holds
  'Storage Size', 'Bat Depleted', 'Max Charge Rate' and the battery and
  inverter efficiencies. Each efficiency callable becomes an `Efficiency`
  pair indexed by `Direction`. `Hour` is one input row (usage and period
  label), and `Flows` holds the six channels.
- `dispatch.dfy` (module `Dispatch`) holds the five handlers, the guard
  selection `SelectMode`, one loop iteration `Step`, and the per-hour
  lemmas.
- `simulation.dfy` (module `Simulation`) holds the loop of `main`. `Scan`
  is a recursive fold over the hours. `IsScanFrom` describes the same loop
  hour by hour, and two lemmas show that this description and the fold
  determine each other. `RunLoop` is the imperative loop over columns,
  break included, proved equal to the fold. The file also holds the
  floor and ceiling invariants of a whole run.
- `scenarios.dfy` (module `Scenarios`) works through concrete hours: the
  boundary case of each mode, and a run in which a partial charge
  overfills the battery.

Quantities are exact `real`s. Period labels stay strings: `"peak"` and
`"int"` take the peak branch, and every other label takes the off-peak
branch, as in the code.

Conventions the code fixes, which the model follows:

- Battery-only mode sets `inverter_to_demand` to the usage divided by the
  inverter's discharging efficiency, not to the usage itself. The level
  then drops by `storage_to_inverter`, which is that value divided by the
  battery's discharging efficiency.
- In battery-plus-grid mode the level drops by
  `storage_to_inverter / battery efficiency`. The two peak modes therefore
  account for battery losses differently. Where their guards meet, both
  still leave the level at the floor, but with a lossy inverter
  battery-only reports a strictly larger inverter output
  (`PeakModesMeetAtBoundary`).
- The partial-charge guard compares the headroom with
  `inverter charging efficiency × Max Charge Rate`, but then adds the full
  `Max Charge Rate` to the level. So the level stays at or below capacity
  only when that efficiency is at least one. `PartialChargeOverfillsIff`
  characterises when the capacity is exceeded, and
  `Scenarios.PartialChargeOverfills` shows a run reaching 11 on a 10-unit
  battery. For a lossy inverter, `StepOvershootBound` bounds the overshoot
  of one hour by `(1 − efficiency) × Max Charge Rate`. The capacity bound
  itself is proved only under that efficiency condition
  (`RunWithinCapacity`). Once the level is above capacity, the
  next off-peak hour resets it to capacity through the battery-full
  handler.
- The code does not validate parameters or labels, and it raises no error
  of its own. One division can still raise: line 93 divides
  'Max Charge Rate' by the battery charging efficiency. Both are plain
  parameters, so a zero efficiency raises ZeroDivisionError in a
  partial-charge hour. The other divisions (lines 55-56, 80-81 and 94)
  divide a table value and give inf or nan instead. The model excludes
  both cases by `requires`. Ranges become `requires` clauses:
  `NonZeroEfficiencies` where the model divides, and `Sensible` for the
  invariants. `Sensible` asks for positive efficiencies but does not cap
  them at one. Within the physical range (0, 1], the condition "inverter
  charging efficiency ≥ 1" used by the capacity lemmas therefore means
  exactly a lossless inverter.
- The last hour is never dispatched. Its flows stay zero, and its level is
  the one carried in from the hour before. An empty series yields no rows.

## Model

| member | source | states |
|---|---|---|
| Dispatch.SelectMode | storage_logic.py:134-161 | Exactly one mode is chosen. Battery-only iff the period is peak/int and the deliverable energy above the floor covers the usage. Battery-plus-grid iff peak/int and it does not. Top-off iff off-peak, below capacity, and headroom ≤ inverter charging efficiency × charge rate. Partial iff off-peak, below capacity, and headroom above that limit. Battery-full iff off-peak and level ≥ capacity. |
| Dispatch.PeakBatteryOnly | storage_logic.py:53-63 | inverter_to_demand × inverter discharging efficiency = usage. storage_to_inverter × battery discharging efficiency = inverter_to_demand. The level drops by exactly storage_to_inverter. No grid purchase and no charging. |
| Dispatch.PeakBatteryAndGrid | storage_logic.py:65-75 | The next level is the depleted floor. storage_to_inverter is the drop times the battery discharging efficiency. The inverter delivers the deliverable energy, and inverter plus grid-peak purchase equals the usage. No charging. |
| Dispatch.OffpeakStoreToCap | storage_logic.py:77-87 | The next level is the capacity. Stored energy × battery charging efficiency = the rise in level. Grid-to-inverter × inverter charging efficiency = the stored energy. The whole usage is bought off-peak, and nothing is discharged. |
| Dispatch.OffpeakStorePartial | storage_logic.py:89-99 | The level rises by exactly the maximum charge rate. It has the same charging-efficiency relations and the same off-peak purchase as top-off. Nothing is discharged. |
| Dispatch.OffpeakBatteryFull | storage_logic.py:101-111 | The next level is the capacity. Nothing is stored or bought for the battery. The whole usage is bought off-peak, and nothing is discharged. |
| Dispatch.Step | storage_logic.py:134-161 | Peak/int hours never charge: inverter_to_storage, grid_to_inverter and grid_to_demand_offpeak are 0. Off-peak hours never discharge: storage_to_inverter, inverter_to_demand and grid_to_demand_peak are 0, and grid_to_demand_offpeak = usage. |
| Dispatch.BatteryOnlyStaysAboveFloor | storage_logic.py:138-139 | Take positive discharging efficiencies and the battery-only guard. Then the next level is at least the depleted floor. With non-negative usage it is also at most the starting level. |
| Dispatch.BatteryAndGridBuysShortfall | storage_logic.py:138-143 | When the battery-only guard fails, the grid-peak purchase is strictly positive. Starting at or above the floor, the battery's share is non-negative and below the usage, and the level does not rise. |
| Dispatch.PeakModesMeetAtBoundary | storage_logic.py:135-143 | When the deliverable energy equals the usage exactly, both peak handlers leave the same level, the floor. With inverter discharging efficiency in (0, 1) and positive usage, battery-only's inverter_to_demand is strictly larger than battery-plus-grid's, so the flows differ there. |
| Dispatch.StepOvershootBound | storage_logic.py:134-161 | Take sensible parameters, non-negative usage, inverter charging efficiency ≤ 1 and a start at most the capacity. Then the next level is at most capacity + (1 − inverter charging efficiency) × charge rate. |
| Dispatch.OffpeakChargingFlows | storage_logic.py:146-157 | Take an off-peak hour below capacity with sensible parameters. Stored and purchased energy are non-negative, and grid_to_inverter = inverter_to_storage / inverter charging efficiency. The level does not drop. |
| Dispatch.OffpeakNextLevel | storage_logic.py:146-161 | Off-peak, the next level is start + charge rate in partial mode, and the capacity in the other two modes. |
| Dispatch.PartialChargeOverfillsIff | storage_logic.py:149-157 | In partial mode the next level exceeds the capacity iff the charge rate exceeds the headroom. |
| Dispatch.StepKeepsFloor | storage_logic.py:134-161 | With sensible parameters, one hour started at or above the floor ends at or above the floor. |
| Dispatch.StepKeepsCeiling | storage_logic.py:134-161 | Take sensible parameters, non-negative usage and inverter charging efficiency ≥ 1. Then one hour started at or below capacity ends at or below capacity. |
| Simulation.Scan | storage_logic.py:128-161 | The rows have the input's length and carry the input hours in order. The first row has the entry level, and the last row has no flow. |
| Simulation.Run | storage_logic.py:115-126 | There is one row per hour, and the battery starts the year at capacity. |
| Simulation.ScanIsHourByHour | storage_logic.py:126-161 | The fold meets the hour-by-hour description. Row i's flows and row i+1's level are what Step computes from row i's level, for every hour but the last. The last row's flows stay zero. |
| Simulation.HourByHourIsScan | storage_logic.py:126-161 | Any rows meeting the hour-by-hour description equal the fold, so every level and flow is determined by a single write. |
| Simulation.ScanKeepsFloor | storage_logic.py:128-161 | With sensible parameters and an entry level at or above the floor, every row's level is at or above the floor. |
| Simulation.ScanKeepsCeiling | storage_logic.py:128-161 | Take non-negative usages, inverter charging efficiency ≥ 1 and an entry level at most the capacity. Then every row's level is at most the capacity. |
| Simulation.RunKeepsFloor | storage_logic.py:126-161 | With sensible parameters, every level of a run is at or above the depleted floor. |
| Simulation.RunWithinCapacity | storage_logic.py:126-161 | Take sensible parameters, non-negative usages and inverter charging efficiency ≥ 1. Then every level of a run lies between the floor and the capacity. |
| Simulation.RunMeetsDemand | storage_logic.py:134-161 | In every dispatched hour of a run, off-peak hours buy the whole usage from the grid and never discharge. Peak hours never charge. A peak hour either serves the usage from the battery alone (inverter output × efficiency = usage, no grid) or splits it between a non-negative battery share and a positive grid purchase. |
| Simulation.RunLoop | storage_logic.py:113-164 | The imperative loop (zeroed columns, first level at capacity, break at the last index) produces exactly the rows of the fold. |
| Scenarios.LosslessScenarios | storage_logic.py:134-161 | With lossless conversion, size 10, floor 2 and rate 3, each mode fires on its boundary case. Peak usage 5 from 10 leaves 5. Usage 12 leaves 2 with 8 from the inverter and 4 from the grid. Off-peak 8 tops off to 10, 3 charges to 6, and 10 stays full. |
| Scenarios.PartialChargeOverfills | storage_logic.py:149-157 | With inverter charging efficiency 0.5 and rate 8, a peak hour leaves 3 and the following off-peak hour charges to 11, above the capacity of 10. |

## Left out

- The pandas and numpy plumbing is modelled as sequences of rows and columns. This covers `np.zeros_like`, column indexing, and the in-place mutation of the caller's frame that `results = demand_costs` causes.
- Floating-point rounding is not modelled. Arithmetic is exact over the reals. If the usage column had an integer dtype, `np.zeros_like` would make integer columns and truncate every written value; the model assumes real-valued columns.
- Division by a zero efficiency is excluded by `requires`. At line 93 both operands are parameters, so Python raises ZeroDivisionError. At lines 55-56, 80-81 and 94 a table value is divided, and numpy gives inf or nan. Each handler requires only the efficiencies it divides by to be non-zero.
- Pandas chained-assignment semantics (`results[col][i] = v` writing through to the frame) are taken as plain element writes.
- The `TOU_pricing` import and the `__main__` block, which calls `main()` without arguments, are I/O glue. The commented-out CSV write is persistence.
- Parameter and record validation is absent from the code, so no error paths are modelled. The ranges the invariants need are stated as `requires` clauses (`Sensible`, non-negative usage).
- Simulation.ScanKeepsCeiling: the capacity bound is stated only for inverter charging efficiency ≥ 1, because the code's partial charge exceeds the capacity otherwise (see `Scenarios.PartialChargeOverfills`).
- Simulation.RunWithinCapacity: same restriction as `ScanKeepsCeiling`, for the same reason.
