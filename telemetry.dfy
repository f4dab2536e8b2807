/** The event records `{n, v, t}` that every filter produces and that the
    DataManager buffers and posts, and the record builders of the DataManager
    (`storeAccel`, `storeTemp`, ... in sch_app_a.py). */
module Telemetry {

  type DeviceId = string

  /** One reportable event: name `n`, value `v`, epoch time `t`. Readings and
      timestamps are reals; the 0/1 of binary, connected and entry/exit events
      are 0.0 and 1.0. */
  datatype Record = Record(n: string, v: real, t: real)

  /** One `storeX` call hands the DataManager a list of records. */
  type Batch = seq<Record>

  /** An element of a DataManager buffer. A device's first batch becomes the
      buffer itself; later batches are appended with `list.append`, each as ONE
      nested element, so a buffer is a tree of records. */
  datatype Item = Rec(r: Record) | Nested(items: seq<Item>)

  function Abs(x: real): (r: real)
    ensures r >= 0.0 && (r == x || r == -x)
  {
    if x < 0.0 then -x else x
  }

  /** A batch as the flat list the DataManager stores. */
  function Items(b: Batch): (r: seq<Item>)
    ensures |r| == |b|
    ensures forall k :: 0 <= k < |b| ==> r[k] == Rec(b[k])
  {
    seq(|b|, k requires 0 <= k < |b| => Rec(b[k]))
  }

  /** Every record held by a buffer, in order, whatever its nesting. */
  function Flatten(items: seq<Item>): seq<Record>
    decreases items
  {
    if items == [] then []
    else
      (match items[0]
       case Rec(r) => [r]
       case Nested(inner) => Flatten(inner))
      + Flatten(items[1..])
  }

  lemma {:induction false} FlattenAppend(a: seq<Item>, b: seq<Item>)
    ensures Flatten(a + b) == Flatten(a) + Flatten(b)
    decreases a
  {
    if a == [] {
      assert a + b == b;
    } else {
      assert (a + b)[0] == a[0];
      assert (a + b)[1..] == a[1..] + b;
      FlattenAppend(a[1..], b);
    }
  }

  /** Lifting a batch and flattening it gives the batch back. */
  lemma {:induction false} FlattenItems(b: Batch)
    ensures Flatten(Items(b)) == b
    decreases b
  {
    if b != [] {
      assert Items(b)[1..] == Items(b[1..]);
      FlattenItems(b[1..]);
    }
  }

  // Record names used by the builders (sch_app_a.py:138-221).
  const Temperature := "temperature"
  const IrTemperature := "ir_temperature"
  const Humidity := "humidity"
  const BinaryName := "binary"
  const LuminanceName := "luminance"
  const PowerName := "power"
  const BatteryName := "battery"
  const ConnectedName := "connected"

  /** The one-record builders: storeTemp, storeIrTemp, storeHumidity,
      storeBinary, storeLuminance, storePower, storeBattery, storeConnected,
      storeEntryExit. */
  function ScalarBatch(name: string, t: real, v: real): (b: Batch)
    ensures |b| == 1 && b[0].n == name && b[0].v == v && b[0].t == t
  {
    [Record(name, v, t)]
  }

  /** The three names of a vector reading: `<prefix>_x`, `_y`, `_z`. */
  function AxisNames(prefix: string): (r: seq<string>)
    ensures |r| == 3
  {
    [prefix + "_x", prefix + "_y", prefix + "_z"]
  }

  /** storeAccel, storeGyro, storeMagnet: one record per axis, all stamped `t`. */
  function AxisBatch(prefix: string, t: real, a: seq<real>): (b: Batch)
    requires |a| == 3
    ensures |b| == 3
    ensures forall k :: 0 <= k < 3 ==> b[k].n == AxisNames(prefix)[k] && b[k].t == t
  {
    [Record(prefix + "_x", a[0], t), Record(prefix + "_y", a[1], t), Record(prefix + "_z", a[2], t)]
  }

  /** Reads the values back out of a batch. */
  function Values(b: Batch): (r: seq<real>)
    ensures |r| == |b|
  {
    seq(|b|, k requires 0 <= k < |b| => b[k].v)
  }

  /** A vector batch carries exactly the three axis values, in order. */
  lemma AxisBatchValues(prefix: string, t: real, a: seq<real>)
    requires |a| == 3
    ensures Values(AxisBatch(prefix, t, a)) == a
  {
  }

  /** storeButtons: left then right button state, both stamped `t`. */
  function ButtonsBatch(t: real, left: real, right: real): (b: Batch)
    ensures Values(b) == [left, right]
    ensures |b| == 2 && b[0].n == "left_button" && b[1].n == "right_button"
    ensures b[0].t == t && b[1].t == t
  {
    [Record("left_button", left, t), Record("right_button", right, t)]
  }
}
