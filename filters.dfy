/** The change-detection filter classes of sch_app_a.py (lines 223-418).
    Each filter keeps the fields the source updates in place; its `process`
    method returns the batches it hands to the DataManager, one Batch per
    `storeX` call, in call order. Thresholds come in through the constructor
    instead of the global `config`, and the clock read by the constructors of
    TemperatureMeasure, IrTemperatureMeasure and Power is the parameter `now`. */
module Filters {
  import opened Telemetry
  import opened FilterSpec

  /** The loop shared by processAccel, processGyro and processMagnet: does some
      axis differ by strictly more than the threshold? Stops at the first one. */
  method AnyAxisExceeds(minChange: real, previous: seq<real>, cur: seq<real>) returns (event: bool)
    requires |previous| == 3 && |cur| == 3
    ensures event <==> Tripped(minChange, previous, cur)
  {
    event := false;
    var a := 0;
    while a < 3
      invariant 0 <= a <= 3
      invariant !event ==> forall j :: 0 <= j < a ==> Abs(cur[j] - previous[j]) <= minChange
      invariant event ==> Tripped(minChange, previous, cur)
    {
      if Abs(cur[a] - previous[a]) > minChange {
        event := true;
        break;
      }
      a := a + 1;
    }
  }

  class Accelerometer {
    const id: DeviceId
    const minChange: real
    var previous: seq<real>

    ghost predicate Valid() reads this { |previous| == 3 }

    constructor (id: DeviceId, minChange: real)
      ensures Valid() && this.id == id && this.minChange == minChange
      ensures previous == [0.0, 0.0, 0.0]
    {
      this.id := id;
      this.minChange := minChange;
      previous := [0.0, 0.0, 0.0];
    }

    method ProcessAccel(t: real, x: real, y: real, z: real) returns (out: seq<Batch>)
      requires Valid()
      modifies this
      ensures Valid()
      ensures var r := VectorStep("accel", minChange, old(previous), t, [x, y, z]);
        out == r.out && previous == r.next
    {
      var accel := [x, y, z];
      var event := AnyAxisExceeds(minChange, previous, accel);
      out := [];
      if event {
        out := [AxisBatch("accel", t, accel)];
        previous := accel;
      }
    }
  }

  class Gyro {
    const id: DeviceId
    const minChange: real
    var previous: seq<real>

    ghost predicate Valid() reads this { |previous| == 3 }

    constructor (id: DeviceId, minChange: real)
      ensures Valid() && this.id == id && this.minChange == minChange
      ensures previous == [0.0, 0.0, 0.0]
    {
      this.id := id;
      this.minChange := minChange;
      previous := [0.0, 0.0, 0.0];
    }

    method ProcessGyro(t: real, x: real, y: real, z: real) returns (out: seq<Batch>)
      requires Valid()
      modifies this
      ensures Valid()
      ensures var r := VectorStep("gyro", minChange, old(previous), t, [x, y, z]);
        out == r.out && previous == r.next
    {
      var gyro := [x, y, z];
      var event := AnyAxisExceeds(minChange, previous, gyro);
      out := [];
      if event {
        out := [AxisBatch("gyro", t, gyro)];
        previous := gyro;
      }
    }
  }

  class Magnet {
    const id: DeviceId
    const minChange: real
    var previous: seq<real>

    ghost predicate Valid() reads this { |previous| == 3 }

    constructor (id: DeviceId, minChange: real)
      ensures Valid() && this.id == id && this.minChange == minChange
      ensures previous == [0.0, 0.0, 0.0]
    {
      this.id := id;
      this.minChange := minChange;
      previous := [0.0, 0.0, 0.0];
    }

    method ProcessMagnet(t: real, x: real, y: real, z: real) returns (out: seq<Batch>)
      requires Valid()
      modifies this
      ensures Valid()
      ensures var r := VectorStep("magnet", minChange, old(previous), t, [x, y, z]);
        out == r.out && previous == r.next
    {
      var mag := [x, y, z];
      var event := AnyAxisExceeds(minChange, previous, mag);
      out := [];
      if event {
        out := [AxisBatch("magnet", t, mag)];
        previous := mag;
      }
    }
  }

  /** The mode is fixed to on-change by the constructor; the regular branch
      is kept as the source writes it. */
  class TemperatureMeasure {
    const id: DeviceId
    const minChange: real
    var mode: Mode
    var prevEpochMin: int
    var powerTemp: real

    constructor (id: DeviceId, minChange: real, now: real)
      ensures this.id == id && this.minChange == minChange
      ensures mode == OnChange && prevEpochMin == EpochMinute(now) && powerTemp == 0.0
    {
      this.id := id;
      this.minChange := minChange;
      mode := OnChange;
      prevEpochMin := EpochMinute(now);
      powerTemp := 0.0;
    }

    method ProcessTemp(t: real, temp: real) returns (out: seq<Batch>)
      modifies this
      ensures mode == old(mode)
      ensures var r := TempStep(Temperature, mode, minChange, old(TempState(prevEpochMin, powerTemp)), Reading(t, temp));
        out == r.out && TempState(prevEpochMin, powerTemp) == r.next
    {
      out := [];
      if mode == Regular {
        var epochMin := EpochMinute(t);
        if epochMin != prevEpochMin {
          out := [ScalarBatch(Temperature, prevEpochMin as real, temp)];
          prevEpochMin := epochMin;
        }
      } else {
        if Abs(temp - powerTemp) >= minChange {
          out := [ScalarBatch(Temperature, t, temp)];
          powerTemp := temp;
        }
      }
    }
  }

  class IrTemperatureMeasure {
    const id: DeviceId
    const minChange: real
    var mode: Mode
    var prevEpochMin: int
    var powerTemp: real

    constructor (id: DeviceId, minChange: real, now: real)
      ensures this.id == id && this.minChange == minChange
      ensures mode == OnChange && prevEpochMin == EpochMinute(now) && powerTemp == 0.0
    {
      this.id := id;
      this.minChange := minChange;
      mode := OnChange;
      prevEpochMin := EpochMinute(now);
      powerTemp := 0.0;
    }

    method ProcessIrTemp(t: real, temp: real) returns (out: seq<Batch>)
      modifies this
      ensures mode == old(mode)
      ensures var r := TempStep(IrTemperature, mode, minChange, old(TempState(prevEpochMin, powerTemp)), Reading(t, temp));
        out == r.out && TempState(prevEpochMin, powerTemp) == r.next
    {
      out := [];
      if mode == Regular {
        var epochMin := EpochMinute(t);
        if epochMin != prevEpochMin {
          out := [ScalarBatch(IrTemperature, prevEpochMin as real, temp)];
          prevEpochMin := epochMin;
        }
      } else {
        if Abs(temp - powerTemp) >= minChange {
          out := [ScalarBatch(IrTemperature, t, temp)];
          powerTemp := temp;
        }
      }
    }
  }

  class Buttons {
    const id: DeviceId

    constructor (id: DeviceId)
      ensures this.id == id
    {
      this.id := id;
    }

    /** Reports every sample; `left` and `right` are the `leftButton` and
        `rightButton` entries of the reading. */
    method ProcessButtons(t: real, left: real, right: real) returns (out: seq<Batch>)
      ensures out == ButtonsStep(t, left, right)
    {
      out := [ButtonsBatch(t, left, right)];
    }
  }

  class Humid {
    const id: DeviceId
    const minChange: real
    var previous: real

    constructor (id: DeviceId, minChange: real)
      ensures this.id == id && this.minChange == minChange && previous == 0.0
    {
      this.id := id;
      this.minChange := minChange;
      previous := 0.0;
    }

    method ProcessHumidity(t: real, h: real) returns (out: seq<Batch>)
      modifies this
      ensures var r := HumidStep(minChange, old(previous), Reading(t, h));
        out == r.out && previous == r.next
    {
      out := [];
      if Abs(previous) >= minChange {
        out := [ScalarBatch(Humidity, t, h)];
        previous := h;
      }
    }
  }

  class Binary {
    const id: DeviceId
    var previous: Level

    constructor (id: DeviceId)
      ensures this.id == id && previous == 0
    {
      this.id := id;
      previous := 0;
    }

    method ProcessBinary(t: real, b: string) returns (out: seq<Batch>)
      modifies this
      ensures var r := EdgeStep(BinaryName, old(previous), Edge(t, BinaryLevel(b)));
        out == r.out && previous == r.next
    {
      var bi: Level := if b == "on" then 1 else 0;
      out := [];
      if bi != previous {
        out := [ScalarBatch(BinaryName, t - 1.0, previous as real)];
        out := out + [ScalarBatch(BinaryName, t, bi as real)];
        previous := bi;
      }
    }
  }

  class Luminance {
    const id: DeviceId
    const minChange: real
    var previous: real

    constructor (id: DeviceId, minChange: real)
      ensures this.id == id && this.minChange == minChange && previous == 0.0
    {
      this.id := id;
      this.minChange := minChange;
      previous := 0.0;
    }

    method ProcessLuminance(t: real, v: real) returns (out: seq<Batch>)
      modifies this
      ensures var r := ScalarStep(LuminanceName, minChange, old(previous), Reading(t, v));
        out == r.out && previous == r.next
    {
      out := [];
      if Abs(v - previous) >= minChange {
        out := [ScalarBatch(LuminanceName, t, v)];
        previous := v;
      }
    }
  }

  class Power {
    const id: DeviceId
    const minChange: real
    var previous: real
    var previousTime: real

    constructor (id: DeviceId, minChange: real, now: real)
      ensures this.id == id && this.minChange == minChange
      ensures previous == 0.0 && previousTime == now
    {
      this.id := id;
      this.minChange := minChange;
      previous := 0.0;
      previousTime := now;
    }

    method ProcessPower(t: real, v: real) returns (out: seq<Batch>)
      modifies this
      ensures var r := PowerStep(minChange, old(PowerState(previous, previousTime)), Reading(t, v));
        out == r.out && PowerState(previous, previousTime) == r.next
    {
      out := [];
      if Abs(v - previous) >= minChange {
        if t - previousTime > 2.0 {
          out := [ScalarBatch(PowerName, t - 1.0, previous)];
        }
        out := out + [ScalarBatch(PowerName, t, v)];
        previous := v;
        previousTime := t;
      }
    }
  }

  class Battery {
    const id: DeviceId
    const minChange: real
    var previous: real

    constructor (id: DeviceId, minChange: real)
      ensures this.id == id && this.minChange == minChange && previous == 0.0
    {
      this.id := id;
      this.minChange := minChange;
      previous := 0.0;
    }

    method ProcessBattery(t: real, v: real) returns (out: seq<Batch>)
      modifies this
      ensures var r := ScalarStep(BatteryName, minChange, old(previous), Reading(t, v));
        out == r.out && previous == r.next
    {
      out := [];
      if Abs(v - previous) >= minChange {
        out := [ScalarBatch(BatteryName, t, v)];
        previous := v;
      }
    }
  }

  class Connected {
    const id: DeviceId
    var previous: Level

    constructor (id: DeviceId)
      ensures this.id == id && previous == 0
    {
      this.id := id;
      previous := 0;
    }

    /** `v` is the truth value Python gives the reading. */
    method ProcessConnected(t: real, v: bool) returns (out: seq<Batch>)
      modifies this
      ensures var r := EdgeStep(ConnectedName, old(previous), Edge(t, ConnectedLevel(v)));
        out == r.out && previous == r.next
    {
      var b: Level := if v then 1 else 0;
      out := [];
      if b != previous {
        out := [ScalarBatch(ConnectedName, t - 1.0, previous as real)];
        out := out + [ScalarBatch(ConnectedName, t, b as real)];
        previous := b;
      }
    }
  }
}
