/** What one change-detection filter of sch_app_a.py (lines 223-418) does
    with one sample, as pure functions: the batches it hands to the
    DataManager (one Batch per `storeX` call) and its next remembered state.
    The classes in module Filters are proved against these functions; the
    lemmas here state what the filters promise over whole runs of samples. */
module FilterSpec {
  import opened Telemetry

  /** What one call of a filter produces: the batches stored, then the state. */
  datatype Step<S> = Step(out: seq<Batch>, next: S)

  /** A scalar sample: timestamp and reading. */
  datatype Reading = Reading(t: real, v: real)

  /** All records of a list of batches, in order. */
  function Concat(bs: seq<Batch>): seq<Record>
    decreases bs
  {
    if bs == [] then [] else bs[0] + Concat(bs[1..])
  }

  lemma {:induction false} ConcatAppend(a: seq<Batch>, b: seq<Batch>)
    ensures Concat(a + b) == Concat(a) + Concat(b)
    decreases a
  {
    if a == [] {
      assert a + b == b;
    } else {
      assert (a + b)[1..] == a[1..] + b;
      ConcatAppend(a[1..], b);
    }
  }

  // ---------------------------------------------------------------------------
  // Threshold filters: TemperatureMeasure/IrTemperatureMeasure (on_change),
  // Luminance, Battery (sch_app_a.py:251-263, 368-373, 396-401).

  /** One record when the reading moved by at least `minChange` from the last
      reported value, which then becomes the reading; otherwise nothing. */
  function ScalarStep(name: string, minChange: real, previous: real, s: Reading): (r: Step<real>)
    ensures |r.out| <= 1
    ensures r.out != [] <==> Abs(s.v - previous) >= minChange
    ensures r.out != [] ==> r.out == [ScalarBatch(name, s.t, s.v)] && r.next == s.v
    ensures r.out == [] ==> r.next == previous
  {
    if Abs(s.v - previous) >= minChange then Step([ScalarBatch(name, s.t, s.v)], s.v)
    else Step([], previous)
  }

  /** A threshold filter fed a run of samples, first sample first. */
  function ScalarRun(name: string, minChange: real, previous: real, ss: seq<Reading>): Step<real>
    decreases ss
  {
    if ss == [] then Step([], previous)
    else
      var first := ScalarStep(name, minChange, previous, ss[0]);
      var rest := ScalarRun(name, minChange, first.next, ss[1..]);
      Step(first.out + rest.out, rest.next)
  }

  /** Every record carries `name` and moved by at least `minChange` from the
      record before it (the first from `previous`). */
  ghost predicate ReportsChanges(name: string, minChange: real, previous: real, es: seq<Record>) {
    && (forall k :: 0 <= k < |es| ==> es[k].n == name)
    && (|es| > 0 ==> Abs(es[0].v - previous) >= minChange)
    && (forall k :: 0 < k < |es| ==> Abs(es[k].v - es[k - 1].v) >= minChange)
  }

  lemma ReportsChangesCons(name: string, minChange: real, previous: real, e: Record, es: seq<Record>)
    requires e.n == name && Abs(e.v - previous) >= minChange
    requires ReportsChanges(name, minChange, e.v, es)
    ensures ReportsChanges(name, minChange, previous, [e] + es)
  {
    var all := [e] + es;
    assert all[0] == e;
    forall k | 0 < k < |all|
      ensures all[k].n == name && Abs(all[k].v - all[k - 1].v) >= minChange
    {
      assert all[k] == es[k - 1];
      assert all[k - 1] == (if k == 1 then e else es[k - 2]);
    }
  }

  /** Over any run, the remembered value is the most recently reported value
      (never an unreported sample), and every reported value carries the
      filter's name and moved by at least `minChange` from the one reported
      before it. */
  lemma {:induction false} ScalarRunReportsChanges(name: string, minChange: real, previous: real, ss: seq<Reading>)
    ensures var r := ScalarRun(name, minChange, previous, ss);
      var es := Concat(r.out);
      && r.next == (if es == [] then previous else es[|es| - 1].v)
      && ReportsChanges(name, minChange, previous, es)
    decreases ss
  {
    if ss != [] {
      var r := ScalarRun(name, minChange, previous, ss);
      var first := ScalarStep(name, minChange, previous, ss[0]);
      var rest := ScalarRun(name, minChange, first.next, ss[1..]);
      assert r == Step(first.out + rest.out, rest.next);
      var tail := Concat(rest.out);
      ScalarRunReportsChanges(name, minChange, first.next, ss[1..]);
      ConcatAppend(first.out, rest.out);
      if first.out != [] {
        var e := Record(name, ss[0].v, ss[0].t);
        assert Concat(first.out) == [e] + Concat([]);
        assert Concat(r.out) == [e] + tail;
        ReportsChangesCons(name, minChange, previous, e, tail);
      } else {
        assert Concat(r.out) == tail;
      }
    }
  }

  // ---------------------------------------------------------------------------
  // Humid (sch_app_a.py:339-344): the test is on abs(previous), not on the
  // difference between the reading and the previous value.

  function HumidStep(minChange: real, previous: real, s: Reading): (r: Step<real>)
    ensures r.out != [] <==> Abs(previous) >= minChange
    ensures r.out != [] ==> r.out == [ScalarBatch(Humidity, s.t, s.v)] && r.next == s.v
    ensures r.out == [] ==> r.next == previous
  {
    if Abs(previous) >= minChange then Step([ScalarBatch(Humidity, s.t, s.v)], s.v)
    else Step([], previous)
  }

  function HumidRun(minChange: real, previous: real, ss: seq<Reading>): Step<real>
    decreases ss
  {
    if ss == [] then Step([], previous)
    else
      var first := HumidStep(minChange, previous, ss[0]);
      var rest := HumidRun(minChange, first.next, ss[1..]);
      Step(first.out + rest.out, rest.next)
  }

  /** Started below the threshold (the constructor's 0.0 against a positive
      humidity_min_change), the humidity filter reports nothing, ever. */
  lemma {:induction false} HumidNeverReports(minChange: real, previous: real, ss: seq<Reading>)
    requires Abs(previous) < minChange
    ensures HumidRun(minChange, previous, ss) == Step([], previous)
    decreases ss
  {
    if ss != [] {
      HumidNeverReports(minChange, previous, ss[1..]);
    }
  }

  // ---------------------------------------------------------------------------
  // TemperatureMeasure / IrTemperatureMeasure (sch_app_a.py:240-288).

  datatype Mode = Regular | OnChange

  datatype TempState = TempState(prevEpochMin: int, powerTemp: real)

  /** `int(t - t % 60)`: the start of t's minute (Python's float `%` floors). */
  function EpochMinute(t: real): (m: int)
    ensures (m as real) <= t < (m as real) + 60.0
    ensures m % 60 == 0
  {
    60 * (t / 60.0).Floor
  }

  /** Regular mode reports once per new minute, stamping the CURRENT reading
      with the PREVIOUS minute; on-change mode is the threshold filter on
      `powerTemp` and never touches the minute. */
  function TempStep(name: string, mode: Mode, minChange: real, st: TempState, s: Reading): (r: Step<TempState>)
    ensures mode == Regular ==>
      && r.next.powerTemp == st.powerTemp
      && r.next.prevEpochMin == EpochMinute(s.t)
      && (r.out != [] <==> EpochMinute(s.t) != st.prevEpochMin)
      && (r.out != [] ==> r.out == [ScalarBatch(name, st.prevEpochMin as real, s.v)])
    ensures mode == OnChange ==>
      var sc := ScalarStep(name, minChange, st.powerTemp, s);
      r.out == sc.out && r.next == TempState(st.prevEpochMin, sc.next)
  {
    match mode
    case Regular =>
      var m := EpochMinute(s.t);
      if m != st.prevEpochMin then Step([ScalarBatch(name, st.prevEpochMin as real, s.v)], TempState(m, st.powerTemp))
      else Step([], st)
    case OnChange =>
      var sc := ScalarStep(name, minChange, st.powerTemp, s);
      Step(sc.out, TempState(st.prevEpochMin, sc.next))
  }

  // ---------------------------------------------------------------------------
  // Power (sch_app_a.py:381-389).

  datatype PowerState = PowerState(previous: real, previousTime: real)

  /** Threshold filter with a back-fill: when it reports and more than 2 s
      passed since the last report, it first re-reports the old value at t-1. */
  function PowerStep(minChange: real, st: PowerState, s: Reading): (r: Step<PowerState>)
    ensures r.out != [] <==> Abs(s.v - st.previous) >= minChange
    ensures r.out != [] ==>
      && r.next == PowerState(s.v, s.t)
      && r.out[|r.out| - 1] == ScalarBatch(PowerName, s.t, s.v)
      && |r.out| <= 2
      && (|r.out| == 2 <==> s.t - st.previousTime > 2.0)
      && (|r.out| == 2 ==> r.out[0] == ScalarBatch(PowerName, s.t - 1.0, st.previous))
    ensures r.out == [] ==> r.next == st
  {
    if Abs(s.v - st.previous) >= minChange then
      var fill := if s.t - st.previousTime > 2.0 then [ScalarBatch(PowerName, s.t - 1.0, st.previous)] else [];
      Step(fill + [ScalarBatch(PowerName, s.t, s.v)], PowerState(s.v, s.t))
    else Step([], st)
  }

  function PowerRun(minChange: real, st: PowerState, ss: seq<Reading>): Step<PowerState>
    decreases ss
  {
    if ss == [] then Step([], st)
    else
      var first := PowerStep(minChange, st, ss[0]);
      var rest := PowerRun(minChange, first.next, ss[1..]);
      Step(first.out + rest.out, rest.next)
  }

  /** The back-fill and the time bookkeeping never change WHICH samples the
      power filter reports: over any run it remembers the same value as a
      plain threshold filter, and reports at least the records that one does. */
  lemma {:induction false} PowerRunDecidesLikeThreshold(minChange: real, st: PowerState, ss: seq<Reading>)
    ensures PowerRun(minChange, st, ss).next.previous == ScalarRun(PowerName, minChange, st.previous, ss).next
    ensures |Concat(PowerRun(minChange, st, ss).out)| >= |Concat(ScalarRun(PowerName, minChange, st.previous, ss).out)|
    decreases ss
  {
    if ss != [] {
      var first := PowerStep(minChange, st, ss[0]);
      var sfirst := ScalarStep(PowerName, minChange, st.previous, ss[0]);
      PowerRunDecidesLikeThreshold(minChange, first.next, ss[1..]);
      var rest := PowerRun(minChange, first.next, ss[1..]);
      var srest := ScalarRun(PowerName, minChange, sfirst.next, ss[1..]);
      ConcatAppend(first.out, rest.out);
      ConcatAppend(sfirst.out, srest.out);
      if first.out != [] {
        if |first.out| == 2 {
          assert Concat(first.out) == first.out[0] + (first.out[1] + Concat([]));
        } else {
          assert Concat(first.out) == first.out[0] + Concat([]);
        }
        assert Concat(sfirst.out) == sfirst.out[0] + Concat([]);
      }
    }
  }

  // ---------------------------------------------------------------------------
  // Edge filters: Binary and Connected (sch_app_a.py:351-361, 408-418).

  type Level = x: int | 0 <= x <= 1

  /** processBinary: "on" is 1, anything else 0. */
  function BinaryLevel(value: string): (b: Level)
    ensures b == 1 <==> value == "on"
  {
    if value == "on" then 1 else 0
  }

  /** processConnected: Python truthiness of the reading. */
  function ConnectedLevel(value: bool): (b: Level)
    ensures b == 1 <==> value
  {
    if value then 1 else 0
  }

  datatype Edge = Edge(t: real, level: Level)

  /** On a flip: the old level at t-1, then the new one at t, as two separate
      store calls; the new level is remembered. On no flip: nothing. */
  function EdgeStep(name: string, previous: Level, e: Edge): (r: Step<Level>)
    ensures r.next == e.level
    ensures r.out == [] <==> e.level == previous
    ensures r.out != [] ==>
      r.out == [ScalarBatch(name, e.t - 1.0, previous as real), ScalarBatch(name, e.t, e.level as real)]
  {
    if e.level != previous then
      Step([ScalarBatch(name, e.t - 1.0, previous as real), ScalarBatch(name, e.t, e.level as real)], e.level)
    else Step([], previous)
  }

  function EdgeRun(name: string, previous: Level, es: seq<Edge>): Step<Level>
    decreases es
  {
    if es == [] then Step([], previous)
    else
      var first := EdgeStep(name, previous, es[0]);
      var rest := EdgeRun(name, first.next, es[1..]);
      Step(first.out + rest.out, rest.next)
  }

  /** The records come in pairs (old level at t-1, new level at t) whose
      levels differ, and each pair starts at the level where the previous one
      ended (the first at `previous`). */
  ghost predicate StepPairs(previous: real, rs: seq<Record>) {
    && |rs| % 2 == 0
    && (forall k :: 0 <= k < |rs| / 2 ==>
          rs[2 * k].t == rs[2 * k + 1].t - 1.0 && rs[2 * k].v != rs[2 * k + 1].v)
    && (forall k :: 0 <= k < |rs| / 2 ==>
          rs[2 * k].v == (if k == 0 then previous else rs[2 * k - 1].v))
  }

  lemma StepPairsCons(previous: real, a: Record, b: Record, rs: seq<Record>)
    requires a.t == b.t - 1.0 && a.v != b.v && a.v == previous
    requires StepPairs(b.v, rs)
    ensures StepPairs(previous, [a, b] + rs)
  {
    var all := [a, b] + rs;
    forall k | 0 <= k < |all| / 2
      ensures all[2 * k].t == all[2 * k + 1].t - 1.0 && all[2 * k].v != all[2 * k + 1].v
      ensures all[2 * k].v == (if k == 0 then previous else all[2 * k - 1].v)
    {
      if k > 0 {
        assert all[2 * k] == rs[2 * (k - 1)];
        assert all[2 * k + 1] == rs[2 * (k - 1) + 1];
        assert all[2 * k - 1] == (if k == 1 then b else rs[2 * (k - 1) - 1]);
      }
    }
  }

  /** The records of an edge filter, over any run, form a step function
      (StepPairs from the initial level), and the filter remembers the last
      level it reported. */
  lemma {:induction false} EdgeRunIsStepFunction(name: string, previous: Level, es: seq<Edge>)
    ensures var r := EdgeRun(name, previous, es);
      var rs := Concat(r.out);
      && StepPairs(previous as real, rs)
      && r.next as real == (if rs == [] then previous as real else rs[|rs| - 1].v)
    decreases es
  {
    if es != [] {
      var r := EdgeRun(name, previous, es);
      var first := EdgeStep(name, previous, es[0]);
      var rest := EdgeRun(name, first.next, es[1..]);
      assert r == Step(first.out + rest.out, rest.next);
      var tail := Concat(rest.out);
      EdgeRunIsStepFunction(name, first.next, es[1..]);
      ConcatAppend(first.out, rest.out);
      if first.out != [] {
        var a := Record(name, previous as real, es[0].t - 1.0);
        var b := Record(name, es[0].level as real, es[0].t);
        assert Concat(first.out) == [a] + ([b] + Concat([]));
        assert Concat(r.out) == [a, b] + tail;
        StepPairsCons(previous as real, a, b, tail);
      } else {
        assert Concat(r.out) == tail;
      }
    }
  }

  // ---------------------------------------------------------------------------
  // Vector filters: Accelerometer, Gyro, Magnet (sch_app_a.py:228-238, 304-331).

  /** Some axis moved by strictly more than the threshold. */
  predicate Tripped(minChange: real, previous: seq<real>, cur: seq<real>)
    requires |previous| == 3 && |cur| == 3
  {
    exists a :: 0 <= a < 3 && Abs(cur[a] - previous[a]) > minChange
  }

  /** One three-record batch and all three axes replaced when some axis
      tripped; otherwise nothing and nothing changes. */
  function VectorStep(prefix: string, minChange: real, previous: seq<real>, t: real, cur: seq<real>): (r: Step<seq<real>>)
    requires |previous| == 3 && |cur| == 3
    ensures |r.next| == 3
    ensures r.out != [] <==> Tripped(minChange, previous, cur)
    ensures r.out != [] ==> r.out == [AxisBatch(prefix, t, cur)] && r.next == cur
    ensures r.out == [] ==> r.next == previous
  {
    if Tripped(minChange, previous, cur) then Step([AxisBatch(prefix, t, cur)], cur)
    else Step([], previous)
  }

  datatype VectorSample = VectorSample(t: real, axes: seq<real>)

  predicate WellFormed(vs: seq<VectorSample>) {
    forall k :: 0 <= k < |vs| ==> |vs[k].axes| == 3
  }

  function VectorRun(prefix: string, minChange: real, previous: seq<real>, vs: seq<VectorSample>): (r: Step<seq<real>>)
    requires |previous| == 3 && WellFormed(vs)
    ensures |r.next| == 3
    decreases vs
  {
    if vs == [] then Step([], previous)
    else
      var first := VectorStep(prefix, minChange, previous, vs[0].t, vs[0].axes);
      var rest := VectorRun(prefix, minChange, first.next, vs[1..]);
      Step(first.out + rest.out, rest.next)
  }

  /** Every batch is a full three-axis batch that tripped against the batch
      before it (the first against `previous`). */
  ghost predicate ReportsTrips(minChange: real, previous: seq<real>, bs: seq<Batch>)
    requires |previous| == 3
  {
    && (forall k :: 0 <= k < |bs| ==> |bs[k]| == 3)
    && (|bs| > 0 ==> Tripped(minChange, previous, Values(bs[0])))
    && (forall k :: 0 < k < |bs| ==> Tripped(minChange, Values(bs[k - 1]), Values(bs[k])))
  }

  lemma ReportsTripsCons(minChange: real, previous: seq<real>, b: Batch, bs: seq<Batch>)
    requires |previous| == 3 && |b| == 3
    requires Tripped(minChange, previous, Values(b))
    requires ReportsTrips(minChange, Values(b), bs)
    ensures ReportsTrips(minChange, previous, [b] + bs)
  {
    var all := [b] + bs;
    assert all[0] == b;
    forall k | 0 < k < |all|
      ensures Tripped(minChange, Values(all[k - 1]), Values(all[k]))
    {
      assert all[k] == bs[k - 1];
      assert all[k - 1] == (if k == 1 then b else bs[k - 2]);
    }
  }

  /** Over any run, every batch is a full three-axis batch that tripped
      against the batch reported before it, and the filter remembers the axes
      of the last batch. */
  lemma {:induction false} VectorRunReportsChanges(prefix: string, minChange: real, previous: seq<real>, vs: seq<VectorSample>)
    requires |previous| == 3 && WellFormed(vs)
    ensures var r := VectorRun(prefix, minChange, previous, vs);
      && ReportsTrips(minChange, previous, r.out)
      && r.next == (if r.out == [] then previous else Values(r.out[|r.out| - 1]))
    decreases vs
  {
    if vs != [] {
      var r := VectorRun(prefix, minChange, previous, vs);
      var first := VectorStep(prefix, minChange, previous, vs[0].t, vs[0].axes);
      assert WellFormed(vs[1..]);
      var rest := VectorRun(prefix, minChange, first.next, vs[1..]);
      assert r == Step(first.out + rest.out, rest.next);
      VectorRunReportsChanges(prefix, minChange, first.next, vs[1..]);
      if first.out != [] {
        var b := AxisBatch(prefix, vs[0].t, vs[0].axes);
        AxisBatchValues(prefix, vs[0].t, vs[0].axes);
        assert first.next == Values(b);
        assert r.out == [b] + rest.out;
        ReportsTripsCons(minChange, previous, b, rest.out);
        if rest.out != [] {
          assert r.out[|r.out| - 1] == rest.out[|rest.out| - 1];
        }
      } else {
        assert first.next == previous;
        assert r.out == rest.out;
      }
    }
  }

  // ---------------------------------------------------------------------------
  // Buttons (sch_app_a.py:294-297): every sample is reported.

  function ButtonsStep(t: real, left: real, right: real): (out: seq<Batch>)
    ensures |out| == 1 && Values(out[0]) == [left, right]
  {
    [ButtonsBatch(t, left, right)]
  }
}
