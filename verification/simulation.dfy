/**
 The year-long scan of storage_logic.py's main: the level starts at capacity,
 every hour but the last runs one Step and hands its level to the next hour,
 and the last hour keeps its zero-initialised flows.
 */
module Simulation {
  import opened Energy
  import opened Dispatch

  /** One annotated row of the result table: the input hour, the level
      'storage_available' at the start of the hour, and the hour's flows. */
  datatype Row = Row(hour: Hour, storage: real, flows: Flows)

  /** The dispatch loop over `hours`, entered with level `start`. */
  function Scan(p: Params, hours: seq<Hour>, start: real): (rows: seq<Row>)
    requires NonZeroEfficiencies(p)
    ensures |rows| == |hours|
    ensures forall i :: 0 <= i < |rows| ==> rows[i].hour == hours[i]
    ensures |rows| > 0 ==> rows[0].storage == start && rows[|rows| - 1].flows == NoFlow
    decreases |hours|
  {
    if |hours| == 0 then []
    else if |hours| == 1 then [Row(hours[0], start, NoFlow)]
    else
      var o := Step(p, hours[0].period, hours[0].usage, start);
      [Row(hours[0], start, o.flows)] + Scan(p, hours[1..], o.next)
  }

  /** main: the battery starts the year fully charged. */
  function Run(p: Params, hours: seq<Hour>): (rows: seq<Row>)
    requires NonZeroEfficiencies(p)
    ensures |rows| == |hours|
    ensures |rows| > 0 ==> rows[0].storage == p.storageSize
  {
    Scan(p, hours, p.storageSize)
  }

  /** Row i's flows are what Step writes for hour i, and row i+1's level is
      the level Step hands on. */
  ghost predicate Carries(p: Params, hours: seq<Hour>, rows: seq<Row>, i: int)
    requires NonZeroEfficiencies(p)
    requires |rows| == |hours| && 0 <= i < |rows| - 1
  {
    var o := Step(p, hours[i].period, hours[i].usage, rows[i].storage);
    rows[i].flows == o.flows && rows[i + 1].storage == o.next
  }

  /** The loop described hour by hour: same length and inputs, the given
      starting level, every hour but the last carried by Step, and the last
      hour left with no flow. */
  ghost predicate IsScanFrom(p: Params, hours: seq<Hour>, start: real, rows: seq<Row>)
    requires NonZeroEfficiencies(p)
  {
    && |rows| == |hours|
    && (forall i :: 0 <= i < |rows| ==> rows[i].hour == hours[i])
    && (|rows| > 0 ==> rows[0].storage == start && rows[|rows| - 1].flows == NoFlow)
    && (forall i :: 0 <= i < |rows| - 1 ==> Carries(p, hours, rows, i))
  }

  /** The recursive scan meets the hour-by-hour description. */
  lemma {:induction false} ScanIsHourByHour(p: Params, hours: seq<Hour>, start: real)
    requires NonZeroEfficiencies(p)
    ensures IsScanFrom(p, hours, start, Scan(p, hours, start))
    decreases |hours|
  {
    if |hours| > 1 {
      var rows := Scan(p, hours, start);
      var o := Step(p, hours[0].period, hours[0].usage, start);
      var rest := Scan(p, hours[1..], o.next);
      ScanIsHourByHour(p, hours[1..], o.next);
      assert rows == [Row(hours[0], start, o.flows)] + rest;
      assert Carries(p, hours, rows, 0);
      forall i | 1 <= i < |rows| - 1
        ensures Carries(p, hours, rows, i)
      {
        assert Carries(p, hours[1..], rest, i - 1);
        assert rows[i] == rest[i - 1] && rows[i + 1] == rest[i];
      }
    }
  }

  /** The hour-by-hour description determines the rows: each level and each
      hour's flows are written exactly once, by the only value they can take. */
  lemma {:induction false} HourByHourIsScan(p: Params, hours: seq<Hour>, start: real, rows: seq<Row>)
    requires NonZeroEfficiencies(p)
    requires IsScanFrom(p, hours, start, rows)
    ensures rows == Scan(p, hours, start)
    decreases |hours|
  {
    if |hours| > 1 {
      var o := Step(p, hours[0].period, hours[0].usage, start);
      assert Carries(p, hours, rows, 0);
      var rest := rows[1..];
      forall i | 0 <= i < |rest| - 1
        ensures Carries(p, hours[1..], rest, i)
      {
        assert Carries(p, hours, rows, i + 1);
      }
      assert IsScanFrom(p, hours[1..], o.next, rest);
      HourByHourIsScan(p, hours[1..], o.next, rest);
      assert rows == [rows[0]] + rest;
    } else if |hours| == 1 {
      assert rows == [rows[0]];
    }
  }

  /** The scan never takes the level below the depleted floor. */
  lemma {:induction false} ScanKeepsFloor(p: Params, hours: seq<Hour>, start: real)
    requires Sensible(p)
    requires start >= p.batDepleted
    ensures forall i :: 0 <= i < |hours| ==> Scan(p, hours, start)[i].storage >= p.batDepleted
    decreases |hours|
  {
    if |hours| > 1 {
      var o := Step(p, hours[0].period, hours[0].usage, start);
      StepKeepsFloor(p, hours[0].period, hours[0].usage, start);
      ScanKeepsFloor(p, hours[1..], o.next);
      var rows := Scan(p, hours, start);
      assert rows == [Row(hours[0], start, o.flows)] + Scan(p, hours[1..], o.next);
    }
  }

  /** The scan never takes the level above capacity when every usage is
      non-negative and the inverter's charging efficiency is at least one. */
  lemma {:induction false} ScanKeepsCeiling(p: Params, hours: seq<Hour>, start: real)
    requires Sensible(p)
    requires p.inverter.At(Charging) >= 1.0
    requires forall i :: 0 <= i < |hours| ==> hours[i].usage >= 0.0
    requires start <= p.storageSize
    ensures forall i :: 0 <= i < |hours| ==> Scan(p, hours, start)[i].storage <= p.storageSize
    decreases |hours|
  {
    if |hours| > 1 {
      var o := Step(p, hours[0].period, hours[0].usage, start);
      StepKeepsCeiling(p, hours[0].period, hours[0].usage, start);
      ScanKeepsCeiling(p, hours[1..], o.next);
      var rows := Scan(p, hours, start);
      assert rows == [Row(hours[0], start, o.flows)] + Scan(p, hours[1..], o.next);
    }
  }

  /** Over a whole run with sensible parameters every level is at or above
      the depleted floor. */
  lemma RunKeepsFloor(p: Params, hours: seq<Hour>)
    requires Sensible(p)
    ensures forall i :: 0 <= i < |hours| ==> Run(p, hours)[i].storage >= p.batDepleted
  {
    ScanKeepsFloor(p, hours, p.storageSize);
  }

  /** With non-negative usages and an inverter charging efficiency of at least
      one, every level of a run lies between the floor and the capacity. */
  lemma RunWithinCapacity(p: Params, hours: seq<Hour>)
    requires Sensible(p)
    requires p.inverter.At(Charging) >= 1.0
    requires forall i :: 0 <= i < |hours| ==> hours[i].usage >= 0.0
    ensures forall i :: 0 <= i < |hours| ==>
              p.batDepleted <= Run(p, hours)[i].storage <= p.storageSize
  {
    ScanKeepsFloor(p, hours, p.storageSize);
    ScanKeepsCeiling(p, hours, p.storageSize);
  }

  /** How every processed hour of a run meets its usage: off-peak hours buy it
      all from the grid and never discharge; peak hours never charge and either
      serve it from the battery alone, or split it between a non-negative
      battery share and a positive grid purchase. */
  lemma RunMeetsDemand(p: Params, hours: seq<Hour>)
    requires Sensible(p)
    ensures var rows := Run(p, hours);
            forall i :: 0 <= i < |rows| - 1 ==>
              var f := rows[i].flows;
              var u := hours[i].usage;
              if IsPeak(hours[i].period) then
                && ChargesNothing(f)
                && ((f.gridToDemandPeak == 0.0 && f.inverterToDemand * p.inverter.At(Discharging) == u)
                    || (f.gridToDemandPeak > 0.0 && f.inverterToDemand >= 0.0
                        && f.inverterToDemand + f.gridToDemandPeak == u))
              else
                DischargesNothing(f, u)
  {
    var rows := Run(p, hours);
    ScanIsHourByHour(p, hours, p.storageSize);
    ScanKeepsFloor(p, hours, p.storageSize);
    forall i | 0 <= i < |rows| - 1
      ensures var f := rows[i].flows;
              var u := hours[i].usage;
              if IsPeak(hours[i].period) then
                && ChargesNothing(f)
                && ((f.gridToDemandPeak == 0.0 && f.inverterToDemand * p.inverter.At(Discharging) == u)
                    || (f.gridToDemandPeak > 0.0 && f.inverterToDemand >= 0.0
                        && f.inverterToDemand + f.gridToDemandPeak == u))
              else
                DischargesNothing(f, u)
    {
      assert Carries(p, hours, rows, i);
      var h := hours[i];
      if SelectMode(p, h.period, h.usage, rows[i].storage) == BatteryAndGrid {
        BatteryAndGridBuysShortfall(p, h.usage, rows[i].storage);
      }
    }
  }

  /** The loop of main as written, over columns: allocate zeroed columns, set
      the first level to capacity, and for every hour but the last write the
      hour's flows and the next hour's level. */
  method RunLoop(p: Params, hours: seq<Hour>) returns (storage: seq<real>, flows: seq<Flows>)
    requires NonZeroEfficiencies(p)
    ensures |storage| == |hours| && |flows| == |hours|
    ensures forall i :: 0 <= i < |hours| ==> Run(p, hours)[i] == Row(hours[i], storage[i], flows[i])
  {
    var n := |hours|;
    storage := seq(n, _ => 0.0);
    flows := seq(n, _ => NoFlow);
    if n == 0 {
      return;
    }
    storage := storage[0 := p.storageSize];
    ghost var rows := Run(p, hours);
    ScanIsHourByHour(p, hours, p.storageSize);
    var i := 0;
    while i < n
      invariant 0 <= i <= n - 1
      invariant |storage| == n && |flows| == n
      invariant forall j :: 0 <= j <= i ==> storage[j] == rows[j].storage
      invariant forall j :: 0 <= j < i ==> flows[j] == rows[j].flows
      invariant forall j :: i <= j < n ==> flows[j] == NoFlow
    {
      if i == n - 1 {
        break;
      }
      assert Carries(p, hours, rows, i);
      var o := Step(p, hours[i].period, hours[i].usage, storage[i]);
      flows := flows[i := o.flows];
      storage := storage[i + 1 := o.next];
      i := i + 1;
    }
  }
}
