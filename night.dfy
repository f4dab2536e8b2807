/** Night-wandering alarms of sch_app_a.py: `betweenTimes` (lines 66-93),
    the `Client` that numbers and queues outgoing alarms (lines 420-442) and
    `NightWander` (lines 454-511). The local midnight of the event's day,
    which the source derives with `localtime`/`mktime`, is a parameter. */
module NightWatch {
  import opened Text
  import opened Telemetry

  const Day: real := 86400.0
  /** Boundaries further back than this many seconds are ignored. */
  const Horizon: real := 50000.0

  /** A time of day "HH:MM" as seconds after midnight, (60*HH + MM) * 60;
      only the first two ':'-separated fields are read, and None stands for
      the ValueError or IndexError Python raises on a malformed string. */
  function ClockSeconds(hhmm: string): Option<int> {
    var parts := Split(hhmm, ':');
    if |parts| < 2 then None
    else
      match (ParseInt(parts[0]), ParseInt(parts[1]))
      case (Some(h), Some(m)) => Some((60 * h + m) * 60)
      case _ => None
  }

  function Digit(n: nat): char
    requires n < 10
  {
    ('0' as int + n) as char
  }

  /** A number below 100 written with two digits, as in "07". */
  function TwoDigits(n: nat): (r: string)
    requires n < 100
    ensures |r| == 2 && AllDigits(r)
  {
    [Digit(n / 10), Digit(n % 10)]
  }

  lemma TwoDigitsValue(n: nat)
    requires n < 100
    ensures DigitsValue(TwoDigits(n)) == n
  {
    var ds := TwoDigits(n);
    assert ds[..1][..0] == [];
    assert DigitsValue(ds[..1]) == n / 10;
  }

  /** Reading a well-formed "HH:MM" gives back the hours and minutes. */
  lemma ClockSecondsOfTwoDigits(h: nat, m: nat)
    requires h < 24 && m < 60
    ensures ClockSeconds(TwoDigits(h) + ":" + TwoDigits(m)) == Some((60 * h + m) * 60)
  {
    var hs, ms := TwoDigits(h), TwoDigits(m);
    assert ':' !in hs && ':' !in ms;
    SplitAtSeparator(hs, ms, ':');
    SplitNoSeparator(ms, ':');
    assert hs + ":" + ms == hs + [':'] + ms;
    TwoDigitsValue(h);
    TwoDigitsValue(m);
  }

  // The defaults of the `night_start`, `night_end` and `night_ignore_time`
  // settings (sch_app_a.py:57-60).
  const NightStart := "00:30"
  const NightEnd := "07:00"
  const NightIgnoreTime := 600.0

  lemma NightStartText()
    ensures TwoDigits(0) + ":" + TwoDigits(30) == NightStart
  {
    assert TwoDigits(0) == [Digit(0), Digit(0)] && TwoDigits(30) == [Digit(3), Digit(0)];
  }

  lemma NightEndText()
    ensures TwoDigits(7) + ":" + TwoDigits(0) == NightEnd
  {
    assert TwoDigits(7) == [Digit(0), Digit(7)] && TwoDigits(0) == [Digit(0), Digit(0)];
  }

  lemma NightStartSeconds()
    ensures ClockSeconds(NightStart) == Some(1800)
  {
    ClockSecondsOfTwoDigits(0, 30);
    NightStartText();
  }

  lemma NightEndSeconds()
    ensures ClockSeconds(NightEnd) == Some(25200)
  {
    ClockSecondsOfTwoDigits(7, 0);
    NightEndText();
  }

  /** One of the four comparisons: a boundary `at` that lies strictly before
      `t` and nearer than the best so far becomes the best, and its kind
      (start or end) the decision. */
  function Consider(t: real, at: real, opens: bool, best: (real, bool)): (real, bool) {
    if t - at < best.0 && t - at > 0.0 then (t - at, opens) else best
  }

  /** `betweenTimes` once both times are in seconds: yesterday's start and
      end, then today's start and end, starting from (50000, False). */
  function BetweenSecs(t: real, midnight: real, startSecs: int, endSecs: int): bool {
    var yesterday := midnight - Day;
    var best := Consider(t, yesterday + startSecs as real, true, (Horizon, false));
    var best := Consider(t, yesterday + endSecs as real, false, best);
    var best := Consider(t, midnight + startSecs as real, true, best);
    var best := Consider(t, midnight + endSecs as real, false, best);
    best.1
  }

  /** `betweenTimes(t, start, end)`; None when a time does not parse. */
  function BetweenTimes(t: real, midnight: real, start: string, end: string): Option<bool> {
    match (ClockSeconds(start), ClockSeconds(end))
    case (Some(s), Some(e)) => Some(BetweenSecs(t, midnight, s, e))
    case _ => None
  }

  /** The reference meaning: the time of day lies after the start and no
      later than the end, the window wrapping past midnight when the start
      is the later time. */
  predicate InWindow(tod: real, startSecs: int, endSecs: int) {
    if startSecs < endSecs then startSecs as real < tod <= endSecs as real
    else startSecs as real < tod || tod <= endSecs as real
  }

  /** How long the window stays open, in seconds. */
  function WindowLength(startSecs: int, endSecs: int): int {
    if startSecs < endSecs then endSecs - startSecs else 86400 - startSecs + endSecs
  }

  predicate ValidWindow(startSecs: int, endSecs: int) {
    0 <= startSecs < 86400 && 0 <= endSecs < 86400 && startSecs != endSecs
  }

  /** Outside the window the answer is always False, whatever its length. */
  lemma BetweenSecsOnlyInside(t: real, midnight: real, startSecs: int, endSecs: int)
    requires midnight <= t < midnight + Day && ValidWindow(startSecs, endSecs)
    ensures BetweenSecs(t, midnight, startSecs, endSecs) ==> InWindow(t - midnight, startSecs, endSecs)
  {
  }

  /** For windows shorter than the 50000-second horizon the answer is
      exactly whether the time of day is inside the window. */
  lemma BetweenSecsIsWindow(t: real, midnight: real, startSecs: int, endSecs: int)
    requires midnight <= t < midnight + Day && ValidWindow(startSecs, endSecs)
    requires WindowLength(startSecs, endSecs) < 50000
    ensures BetweenSecs(t, midnight, startSecs, endSecs) <==> InWindow(t - midnight, startSecs, endSecs)
  {
  }

  /** A window longer than the horizon is missed near its end: from 08:00
      to 23:00, ten minutes before the end is reported as outside. */
  lemma LongWindowMissedNearEnd(midnight: real)
    ensures InWindow(82200.0, 28800, 82800)
    ensures !BetweenSecs(midnight + 82200.0, midnight, 28800, 82800)
  {
  }

  /** The default night: 06:59 is inside, 07:01 and 00:29 are not. */
  lemma DefaultNightDecisions(midnight: real)
    ensures BetweenTimes(midnight + 25140.0, midnight, NightStart, NightEnd) == Some(true)
    ensures BetweenTimes(midnight + 25260.0, midnight, NightStart, NightEnd) == Some(false)
    ensures BetweenTimes(midnight + 1740.0, midnight, NightStart, NightEnd) == Some(false)
  {
    NightStartSeconds();
    NightEndSeconds();
  }

  // ---------------------------------------------------------------------------
  // Client.

  /** The alarm NightWander builds: source, destination and the body's
      sensor name "s" and time "t" (its "m" is always "alarm"). */
  datatype Alarm = Alarm(source: string, destination: string, sensor: string, t: real)

  /** An alarm once `send` has stamped the body's sequence number "n". */
  datatype Message = Message(alarm: Alarm, n: int)

  /** A message from the client: whether it has a body, and whether that
      body carries an acknowledged number "n". */
  datatype Incoming = Incoming(hasBody: bool, ack: Option<int>)

  class Client {
    const aid: string
    var count: int
    var messages: seq<Message>
    /** The messages handed to `sendMessage(message, "conc")`, in order. */
    var sent: seq<Message>

    /** Messages are numbered 0, 1, 2, ... in the order they were sent. */
    ghost predicate Valid()
      reads this
    {
      count == |messages| && forall k :: 0 <= k < |messages| ==> messages[k].n == k
    }

    constructor (aid: string)
      ensures Valid() && this.aid == aid && count == 0 && messages == [] && sent == []
    {
      this.aid := aid;
      count := 0;
      messages := [];
      sent := [];
    }

    /** Stamps the next number, queues the message and sends it. */
    method Send(a: Alarm)
      requires Valid()
      modifies this
      ensures Valid()
      ensures count == old(count) + 1
      ensures messages == old(messages) + [Message(a, old(count))]
      ensures sent == old(sent) + [Message(a, old(count))]
    {
      var m := Message(a, count);
      count := count + 1;
      messages := messages + [m];
      sent := sent + [m];
    }

    /** An acknowledgement is meant to dequeue the message it numbers, but
        the loop compares each queued message's number with the message
        itself, an int with a dict, which is never equal: nothing changes. */
    method Receive(msg: Incoming)
      modifies this
      ensures count == old(count) && messages == old(messages) && sent == old(sent)
    {
    }
  }

  // ---------------------------------------------------------------------------
  // NightWander.

  /** The first id with the given friendly name, in dictionary order. */
  function IdOfName(names: seq<(DeviceId, string)>, n: string): (r: Option<DeviceId>)
    ensures r.Some? ==> exists j :: 0 <= j < |names| && names[j] == (r.value, n)
    ensures r.None? ==> forall j :: 0 <= j < |names| ==> names[j].1 != n
    decreases |names|
  {
    if names == [] then None
    else if names[0].1 == n then Some(names[0].0)
    else IdOfName(names[1..], n)
  }

  /** The loop breaks at the first entry with that name: the id found is
      that of an entry with the name, and no earlier entry has it. */
  lemma {:induction false} IdOfNameIsFirst(names: seq<(DeviceId, string)>, n: string)
    requires IdOfName(names, n).Some?
    ensures exists j :: 0 <= j < |names| && names[j] == (IdOfName(names, n).value, n) && (forall j2 :: 0 <= j2 < j ==> names[j2].1 != n)
    decreases |names|
  {
    if names[0].1 != n {
      IdOfNameIsFirst(names[1..], n);
      var j :| 0 <= j < |names[1..]| && names[1..][j] == (IdOfName(names, n).value, n)
        && forall j2 :: 0 <= j2 < j ==> names[1..][j2].1 != n;
      assert names[j + 1] == names[1..][j];
    } else {
      assert names[0] == (IdOfName(names, n).value, n);
    }
  }

  /** `idToName[devID]`; None is the KeyError. */
  function NameOf(names: seq<(DeviceId, string)>, d: DeviceId): (r: Option<string>)
    ensures r.Some? ==> exists j :: 0 <= j < |names| && names[j] == (d, r.value)
    ensures r.None? ==> forall j :: 0 <= j < |names| ==> names[j].0 != d
    decreases |names|
  {
    if names == [] then None
    else if names[0].0 == d then Some(names[0].1)
    else NameOf(names[1..], d)
  }

  /** `list.index`: the first position holding x. */
  function IndexOf(xs: seq<string>, x: string): (r: nat)
    requires x in xs
    ensures r < |xs| && xs[r] == x && x !in xs[..r]
  {
    if xs[0] == x then 0 else 1 + IndexOf(xs[1..], x)
  }

  /** The in-place pass of `setNames` from position i on: each entry that
      is some device's friendly name has its first occurrence in the list
      replaced by that device's id. */
  function Rename(sensors: seq<string>, names: seq<(DeviceId, string)>, i: nat): (r: seq<string>)
    requires i <= |sensors|
    ensures |r| == |sensors|
    decreases |sensors| - i
  {
    if i == |sensors| then sensors
    else
      match IdOfName(names, sensors[i])
      case None => Rename(sensors, names, i + 1)
      case Some(d) => Rename(sensors[IndexOf(sensors, sensors[i]) := d], names, i + 1)
  }

  function Ids(names: seq<(DeviceId, string)>): (r: seq<DeviceId>)
    ensures |r| == |names| && forall j :: 0 <= j < |names| ==> r[j] == names[j].0
  {
    seq(|names|, j requires 0 <= j < |names| => names[j].0)
  }

  /** `setNames` on the night-sensor list: unchanged when night wandering is
      off; every device id when the list is empty; otherwise names to ids. */
  function SetNamesSpec(sensors: seq<string>, names: seq<(DeviceId, string)>, enabled: bool): seq<string> {
    if !enabled then sensors
    else if sensors == [] then Ids(names)
    else Rename(sensors, names, 0)
  }

  /** The entry at position k once renamed. */
  function Renamed(names: seq<(DeviceId, string)>, n: string): string {
    match IdOfName(names, n)
    case Some(d) => d
    case None => n
  }

  /** When the listed names are distinct and none of them is itself a device
      id, every entry ends up as the id of the device with that name, or
      stays as it was when no device has it. */
  lemma {:induction false} RenameMapsNames(sensors: seq<string>, cur: seq<string>, names: seq<(DeviceId, string)>, i: nat)
    requires i <= |sensors| == |cur|
    requires forall a, b :: 0 <= a < b < |sensors| ==> sensors[a] != sensors[b]
    requires forall a, j :: 0 <= a < |sensors| && 0 <= j < |names| ==> sensors[a] != names[j].0
    requires forall k :: 0 <= k < i ==> cur[k] == Renamed(names, sensors[k])
    requires forall k :: i <= k < |sensors| ==> cur[k] == sensors[k]
    ensures forall k :: 0 <= k < |sensors| ==> Rename(cur, names, i)[k] == Renamed(names, sensors[k])
    decreases |sensors| - i
  {
    if i < |sensors| {
      var next := RenameStep(sensors, cur, names, i);
      RenameMapsNames(sensors, next, names, i + 1);
    }
  }

  /** One pass of the outer loop: entry i becomes its renamed form and
      nothing else changes. */
  lemma RenameStep(sensors: seq<string>, cur: seq<string>, names: seq<(DeviceId, string)>, i: nat)
    returns (next: seq<string>)
    requires i < |sensors| == |cur|
    requires forall a, b :: 0 <= a < b < |sensors| ==> sensors[a] != sensors[b]
    requires forall a, j :: 0 <= a < |sensors| && 0 <= j < |names| ==> sensors[a] != names[j].0
    requires forall k :: 0 <= k < i ==> cur[k] == Renamed(names, sensors[k])
    requires forall k :: i <= k < |sensors| ==> cur[k] == sensors[k]
    ensures |next| == |sensors| && Rename(cur, names, i) == Rename(next, names, i + 1)
    ensures forall k :: 0 <= k < i + 1 ==> next[k] == Renamed(names, sensors[k])
    ensures forall k :: i + 1 <= k < |sensors| ==> next[k] == sensors[k]
  {
    var n := sensors[i];
    assert cur[i] == n;
    match IdOfName(names, n)
    case None =>
      next := cur;
    case Some(d) =>
      FirstOccurrenceIsHere(sensors, cur, names, i);
      next := cur[i := d];
  }

  /** Under the same conditions, the name at position i has not occurred
      before i, so `index` finds it at i. */
  lemma FirstOccurrenceIsHere(sensors: seq<string>, cur: seq<string>, names: seq<(DeviceId, string)>, i: nat)
    requires i < |sensors| == |cur|
    requires forall a, b :: 0 <= a < b < |sensors| ==> sensors[a] != sensors[b]
    requires forall a, j :: 0 <= a < |sensors| && 0 <= j < |names| ==> sensors[a] != names[j].0
    requires forall k :: 0 <= k < i ==> cur[k] == Renamed(names, sensors[k])
    requires cur[i] == sensors[i]
    ensures sensors[i] in cur && IndexOf(cur, sensors[i]) == i
  {
    var n := sensors[i];
    forall k | 0 <= k < i ensures cur[k] != n {
      if IdOfName(names, sensors[k]).Some? {
        var j :| 0 <= j < |names| && names[j] == (IdOfName(names, sensors[k]).value, sensors[k]);
        assert cur[k] == names[j].0;
      }
    }
    var r := IndexOf(cur, n);
    assert n !in cur[..i];
    assert forall k :: 0 <= k < r ==> cur[..r][k] == cur[k];
  }

  /** What one `onChange` does: the sensor name of the alarm to send, if
      any, the new `lastActive`, and whether it raised (a time that does not
      parse, or an alarming device missing from `idToName`). */
  datatype Wander = Wander(alarm: Option<string>, lastActive: real, raised: bool)

  function WanderStep(lastActive: real, names: seq<(DeviceId, string)>, devID: DeviceId, t: real, value: string,
                      midnight: real, start: string, end: string, ignore: real): (r: Wander)
    ensures r.alarm.Some? ==> !r.raised && r.lastActive == t && t - lastActive > ignore
    ensures r.lastActive == lastActive || r.lastActive == t
    ensures value != "on" ==> r == Wander(None, lastActive, false)
    ensures r.alarm.Some? ==> value == "on" && BetweenTimes(t, midnight, start, end) == Some(true)
    ensures BetweenTimes(t, midnight, start, end) == Some(false) ==> r == Wander(None, lastActive, false)
    ensures r.raised <==>
      (value == "on" && (BetweenTimes(t, midnight, start, end).None? ||
        (BetweenTimes(t, midnight, start, end) == Some(true) && t - lastActive > ignore && NameOf(names, devID).None?)))
    ensures r.raised ==> r.lastActive == lastActive && r.alarm.None?
  {
    if value != "on" then Wander(None, lastActive, false)
    else
      match BetweenTimes(t, midnight, start, end)
      case None => Wander(None, lastActive, true)
      case Some(alarm) =>
        if !alarm then Wander(None, lastActive, false)
        else if t - lastActive > ignore then
          match NameOf(names, devID)
          case None => Wander(None, lastActive, true)
          case Some(name) => Wander(Some(name), t, false)
        else Wander(None, t, false)
  }

  /** Any "on" inside the window restarts the quiet period, alarm or not. */
  lemma WanderStepRestartsQuietPeriod(lastActive: real, names: seq<(DeviceId, string)>, devID: DeviceId, t: real,
                                      midnight: real, start: string, end: string, ignore: real)
    requires BetweenTimes(t, midnight, start, end) == Some(true)
    requires NameOf(names, devID).Some?
    ensures var r := WanderStep(lastActive, names, devID, t, "on", midnight, start, end, ignore);
      r.lastActive == t && (r.alarm.Some? <==> t - lastActive > ignore)
  {
  }

  /** The same event delivered twice, as happens when a device id is listed
      twice among the night sensors, alarms at most once. */
  lemma RepeatedEventAlarmsOnce(lastActive: real, names: seq<(DeviceId, string)>, devID: DeviceId, t: real,
                                value: string, midnight: real, start: string, end: string, ignore: real)
    requires ignore >= 0.0
    ensures var r1 := WanderStep(lastActive, names, devID, t, value, midnight, start, end, ignore);
      var r2 := WanderStep(r1.lastActive, names, devID, t, value, midnight, start, end, ignore);
      r1.alarm.Some? ==> r2.alarm.None? && r2.lastActive == t
  {
  }

  /** An event as NightWander receives it: device, time and value. */
  datatype Event = Event(devID: DeviceId, t: real, value: string)

  /** The times of the alarms a run of events sends, and the final
      `lastActive`. */
  function WanderRun(lastActive: real, names: seq<(DeviceId, string)>, es: seq<Event>,
                     midnight: real, start: string, end: string, ignore: real): (seq<real>, real)
    decreases |es|
  {
    if es == [] then ([], lastActive)
    else
      var r := WanderStep(lastActive, names, es[0].devID, es[0].t, es[0].value, midnight, start, end, ignore);
      var rest := WanderRun(r.lastActive, names, es[1..], midnight, start, end, ignore);
      ((if r.alarm.Some? then [es[0].t] else []) + rest.0, rest.1)
  }

  ghost predicate Spaced(last: real, ts: seq<real>, ignore: real) {
    && (|ts| > 0 ==> ts[0] - last > ignore)
    && (forall k :: 0 < k < |ts| ==> ts[k] - ts[k - 1] > ignore)
  }

  /** With events in time order, alarms are more than the ignore time apart
      (and the first is that far after the initial `lastActive`). */
  lemma {:induction false} WanderRunIsDebounced(lastActive: real, names: seq<(DeviceId, string)>, es: seq<Event>,
                                                midnight: real, start: string, end: string, ignore: real)
    requires forall k :: 0 <= k < |es| ==> lastActive <= es[k].t
    requires forall a, b :: 0 <= a < b < |es| ==> es[a].t <= es[b].t
    ensures Spaced(lastActive, WanderRun(lastActive, names, es, midnight, start, end, ignore).0, ignore)
    decreases |es|
  {
    if es != [] {
      var r := WanderStep(lastActive, names, es[0].devID, es[0].t, es[0].value, midnight, start, end, ignore);
      var rest := WanderRun(r.lastActive, names, es[1..], midnight, start, end, ignore);
      WanderRunIsDebounced(r.lastActive, names, es[1..], midnight, start, end, ignore);
      var out := WanderRun(lastActive, names, es, midnight, start, end, ignore).0;
      if r.alarm.Some? {
        assert out == [es[0].t] + rest.0;
        assert out[1..] == rest.0;
      } else {
        assert out == rest.0;
      }
    }
  }

  lemma TenPmText()
    ensures TwoDigits(22) + ":" + TwoDigits(0) == "22:00"
  {
    assert TwoDigits(22) == [Digit(2), Digit(2)] && TwoDigits(0) == [Digit(0), Digit(0)];
  }

  lemma SixAmText()
    ensures TwoDigits(6) + ":" + TwoDigits(0) == "06:00"
  {
    assert TwoDigits(6) == [Digit(0), Digit(6)] && TwoDigits(0) == [Digit(0), Digit(0)];
  }

  lemma TenPmSeconds()
    ensures ClockSeconds("22:00") == Some(79200)
  {
    ClockSecondsOfTwoDigits(22, 0);
    TenPmText();
  }

  lemma SixAmSeconds()
    ensures ClockSeconds("06:00") == Some(21600)
  {
    ClockSecondsOfTwoDigits(6, 0);
    SixAmText();
  }

  /** With a night from 22:00 to 06:00 (`start` and `end` read as those
      times, as "22:00" and "06:00" do) and a 600-second ignore time, motion
      at 23:00, 23:05 and 23:11 sends one alarm, at 23:00: each motion
      restarts the quiet period. */
  lemma NightScenario(devID: DeviceId, name: string, midnight: real, start: string, end: string)
    requires midnight >= 0.0
    requires ClockSeconds(start) == Some(79200) && ClockSeconds(end) == Some(21600)
    ensures var names := [(devID, name)];
      var es := [Event(devID, midnight + 82800.0, "on"), Event(devID, midnight + 83100.0, "on"),
                 Event(devID, midnight + 83460.0, "on")];
      WanderRun(0.0, names, es, midnight, start, end, 600.0) == ([midnight + 82800.0], midnight + 83460.0)
  {
    var names := [(devID, name)];
    var e3 := [Event(devID, midnight + 83460.0, "on")];
    var e2 := [Event(devID, midnight + 83100.0, "on")] + e3;
    var e1 := [Event(devID, midnight + 82800.0, "on")] + e2;
    assert e1[1..] == e2 && e2[1..] == e3 && e3[1..] == [];
    assert BetweenTimes(midnight + 82800.0, midnight, start, end) == Some(true);
    assert BetweenTimes(midnight + 83100.0, midnight, start, end) == Some(true);
    assert BetweenTimes(midnight + 83460.0, midnight, start, end) == Some(true);
    assert WanderStep(0.0, names, devID, midnight + 82800.0, "on", midnight, start, end, 600.0)
      == Wander(Some(name), midnight + 82800.0, false);
    assert WanderStep(midnight + 82800.0, names, devID, midnight + 83100.0, "on", midnight, start, end, 600.0)
      == Wander(None, midnight + 83100.0, false);
    assert WanderStep(midnight + 83100.0, names, devID, midnight + 83460.0, "on", midnight, start, end, 600.0)
      == Wander(None, midnight + 83460.0, false);
    var r4 := WanderRun(midnight + 83460.0, names, [], midnight, start, end, 600.0);
    assert r4.0 == [] && r4.1 == midnight + 83460.0;
    var r3 := WanderRun(midnight + 83100.0, names, e3, midnight, start, end, 600.0);
    assert r3.0 == [] && r3.1 == midnight + 83460.0;
    var r2 := WanderRun(midnight + 82800.0, names, e2, midnight, start, end, 600.0);
    assert r2.0 == [] && r2.1 == midnight + 83460.0;
    var r1 := WanderRun(0.0, names, e1, midnight, start, end, 600.0);
    assert r1.0 == [midnight + 82800.0] && r1.1 == midnight + 83460.0;
  }

  class NightWander {
    const aid: string
    const client: Client
    var lastActive: real
    var idToName: seq<(DeviceId, string)>
    /** The `night_sensors` list of the configuration, which `setNames`
        rewrites in place. */
    var nightSensors: seq<string>

    constructor (aid: string, client: Client, nightSensors: seq<string>)
      ensures this.aid == aid && this.client == client
      ensures lastActive == 0.0 && idToName == [] && this.nightSensors == nightSensors
    {
      this.aid := aid;
      this.client := client;
      lastActive := 0.0;
      idToName := [];
      this.nightSensors := nightSensors;
    }

    /** `setNames`; `enabled` is the truth value of the `night_wandering`
        setting. */
    method SetNames(names: seq<(DeviceId, string)>, enabled: bool)
      modifies this
      ensures idToName == names && lastActive == old(lastActive)
      ensures nightSensors == SetNamesSpec(old(nightSensors), names, enabled)
    {
      idToName := names;
      if enabled {
        if nightSensors == [] {
          var j := 0;
          while j < |names|
            invariant 0 <= j <= |names| && nightSensors == Ids(names[..j])
            invariant idToName == names && lastActive == old(lastActive)
          {
            nightSensors := nightSensors + [names[j].0];
            j := j + 1;
            assert names[..j] == names[..j - 1] + [names[j - 1]];
          }
          assert names[..j] == names;
        } else {
          ghost var original := nightSensors;
          var i := 0;
          while i < |nightSensors|
            invariant 0 <= i <= |nightSensors| == |original|
            invariant Rename(original, names, 0) == Rename(nightSensors, names, i)
            invariant idToName == names && lastActive == old(lastActive)
          {
            var n := nightSensors[i];
            var found := false;
            var j := 0;
            while j < |names|
              invariant 0 <= j <= |names|
              invariant IdOfName(names, n) == IdOfName(names[j..], n)
              invariant idToName == names && lastActive == old(lastActive)
            {
              if n == names[j].1 {
                var loc := IndexOf(nightSensors, n);
                nightSensors := nightSensors[loc := names[j].0];
                found := true;
                break;
              }
              j := j + 1;
            }
            i := i + 1;
          }
        }
      }
    }

    /** `onChange`: `midnight` is the local midnight of `t`'s day; `start`,
        `end`, `ignore` and `cid` are the `night_start`, `night_end`,
        `night_ignore_time` and `cid` settings. */
    method OnChange(devID: DeviceId, t: real, value: string, midnight: real,
                    start: string, end: string, ignore: real, cid: string) returns (raised: bool)
      requires client.Valid()
      modifies this, client
      ensures client.Valid()
      ensures idToName == old(idToName) && nightSensors == old(nightSensors)
      ensures var r := WanderStep(old(lastActive), idToName, devID, t, value, midnight, start, end, ignore);
        && lastActive == r.lastActive && raised == r.raised
        && client.messages == old(client.messages) +
             (if r.alarm.Some? then [Message(Alarm(aid, cid, r.alarm.value, t), old(client.count))] else [])
        && client.sent == old(client.sent) +
             (if r.alarm.Some? then [Message(Alarm(aid, cid, r.alarm.value, t), old(client.count))] else [])
    {
      raised := false;
      if value == "on" {
        var alarm := BetweenTimes(t, midnight, start, end);
        if alarm.None? {
          return true;
        }
        if alarm.value {
          if t - lastActive > ignore {
            var name := NameOf(idToName, devID);
            if name.None? {
              return true;
            }
            client.Send(Alarm(aid, cid, name.value, t));
          }
          lastActive := t;
        }
      }
    }
  }
}
