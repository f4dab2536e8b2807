/** The DataManager of sch_app_a.py (lines 95-221): per-device buffers, one
    delayed flush per armed device, asynchronous POST, and re-storing a batch
    whose POST failed.

    The Twisted reactor is made explicit: `timers` lists the scheduled
    `sendValues` calls in the order they fire (every one is armed with the
    same SEND_DELAY, so they fire first-armed first), and `inFlight` lists the
    batches handed to a worker thread whose POST has not finished yet. The
    POST itself is an outcome `ok` (HTTP status 200 and no exception)
    supplied by the caller; successful posts are logged in `delivered`. */
module Delivery {
  import opened Telemetry

  const Series := "http://geras.1248.io/series/"

  /** Python slicing `bridge_id[3:]`: empty when the string is shorter. */
  function DropThree(s: string): (r: string)
    ensures |s| >= 3 ==> r == s[3..]
    ensures |s| < 3 ==> r == ""
  {
    if |s| >= 3 then s[3..] else ""
  }

  function BaseUrl(bridgeId: string): string { Series + bridgeId + "/" }

  function DaUrl(bridgeId: string): string { Series + "DA" + DropThree(bridgeId) + "/" }

  /** The URL sendValuesThread posts to. */
  function PostUrl(baseurl: string, daurl: string, deviceID: DeviceId, da: bool): string {
    (if da then daurl else baseurl) + deviceID
  }

  /** On one bridge, two devices never share a URL of the same kind. */
  lemma PostUrlInjective(bridgeId: string, d1: DeviceId, d2: DeviceId, da: bool)
    requires PostUrl(BaseUrl(bridgeId), DaUrl(bridgeId), d1, da) == PostUrl(BaseUrl(bridgeId), DaUrl(bridgeId), d2, da)
    ensures d1 == d2
  {
    var p := if da then DaUrl(bridgeId) else BaseUrl(bridgeId);
    assert (p + d1)[|p|..] == d1;
    assert (p + d2)[|p|..] == d2;
  }

  /** For a bridge identifier of at least three characters and without a
      slash, DA events and ordinary telemetry never reach the same URL: the
      DA series segment is one character shorter than the bridge identifier. */
  lemma DaUrlsAreSeparate(bridgeId: string, d1: DeviceId, d2: DeviceId)
    requires |bridgeId| >= 3 && '/' !in bridgeId
    ensures PostUrl(BaseUrl(bridgeId), DaUrl(bridgeId), d1, false) != PostUrl(BaseUrl(bridgeId), DaUrl(bridgeId), d2, true)
  {
    var plain := Series + bridgeId + "/" + d1;
    var da := Series + "DA" + bridgeId[3..] + "/" + d2;
    var k := |Series| + |bridgeId| - 1;
    assert da[k] == '/';
    assert plain[k] == bridgeId[|bridgeId| - 1];
    assert bridgeId[|bridgeId| - 1] in bridgeId;
  }

  /** A scheduled `sendValues(deviceID, da)`. */
  datatype Timer = Timer(device: DeviceId, da: bool)

  /** A POST handed to a worker thread: the device, the detached buffer and
      the URL chosen from the `da` flag. */
  datatype Post = Post(device: DeviceId, values: seq<Item>, url: string)

  /** The whole state of a DataManager and of its pending reactor work. */
  datatype Sink = Sink(
    baseurl: string,
    daurl: string,
    s: map<DeviceId, seq<Item>>,
    waiting: seq<DeviceId>,
    timers: seq<Timer>,
    inFlight: seq<Post>,
    delivered: seq<Post>)

  predicate NoDuplicates<T(==)>(xs: seq<T>) {
    forall i, j :: 0 <= i < j < |xs| ==> xs[i] != xs[j]
  }

  /** The first position holding x. */
  function FirstPos<T(==)>(xs: seq<T>, x: T): (p: nat)
    requires x in xs
    ensures p < |xs| && xs[p] == x && x !in xs[..p]
    decreases xs
  {
    if xs[0] == x then 0
    else
      var p := FirstPos(xs[1..], x);
      assert xs[..p + 1] == [xs[0]] + xs[1..][..p];
      p + 1
  }

  /** `list.remove(x)`: drops the first occurrence, if any. */
  function RemoveFirst<T(==)>(xs: seq<T>, x: T): (r: seq<T>)
    ensures x in xs ==> |r| == |xs| - 1
    ensures x !in xs ==> r == xs
    ensures forall y :: y in r ==> y in xs
    decreases xs
  {
    if xs == [] then []
    else if xs[0] == x then xs[1..]
    else [xs[0]] + RemoveFirst(xs[1..], x)
  }

  /** `list.remove(x)` drops exactly the first occurrence of x and keeps
      the other elements in their order. */
  lemma {:induction false} RemoveFirstDropsFirst<T>(xs: seq<T>, x: T)
    requires x in xs
    ensures RemoveFirst(xs, x) == xs[..FirstPos(xs, x)] + xs[FirstPos(xs, x) + 1..]
    decreases xs
  {
    if xs[0] == x {
      assert xs[..0] + xs[1..] == xs[1..];
    } else {
      var rest := RemoveFirst(xs[1..], x);
      assert RemoveFirst(xs, x) == [xs[0]] + rest;
      RemoveFirstDropsFirst(xs[1..], x);
      RemoveFirstPastHead(xs, x, rest);
    }
  }

  /** Dropping the first x after a different head keeps the head in front. */
  lemma RemoveFirstPastHead<T>(xs: seq<T>, x: T, rest: seq<T>)
    requires xs != [] && xs[0] != x && x in xs[1..]
    requires rest == xs[1..][..FirstPos(xs[1..], x)] + xs[1..][FirstPos(xs[1..], x) + 1..]
    ensures [xs[0]] + rest == xs[..FirstPos(xs, x)] + xs[FirstPos(xs, x) + 1..]
  {
    var i := FirstPos(xs[1..], x);
    assert FirstPos(xs, x) == i + 1;
    var front, back := xs[1..][..i], xs[1..][i + 1..];
    assert xs[..i + 1] == [xs[0]] + front;
    assert xs[i + 2..] == back;
    assert [xs[0]] + (front + back) == ([xs[0]] + front) + back;
  }

  /** The idle/armed invariant: `waiting` holds each armed device once, a
      device is armed exactly when it has a buffer, and each armed device
      has exactly one scheduled send, in arming order. */
  ghost predicate Inv(k: Sink) {
    && NoDuplicates(k.waiting)
    && (forall d :: d in k.waiting <==> d in k.s)
    && |k.timers| == |k.waiting|
    && (forall i :: 0 <= i < |k.timers| ==> k.timers[i].device == k.waiting[i])
  }

  /** storeValues (sch_app_a.py:129-136). */
  function Store(k: Sink, values: seq<Item>, deviceID: DeviceId, da: bool): (r: Sink)
    ensures r.baseurl == k.baseurl && r.daurl == k.daurl
    ensures r.inFlight == k.inFlight && r.delivered == k.delivered
  {
    var s := if deviceID !in k.s then k.s[deviceID := values] else k.s[deviceID := k.s[deviceID] + [Nested(values)]];
    if deviceID !in k.waiting then
      k.(s := s, timers := k.timers + [Timer(deviceID, da)], waiting := k.waiting + [deviceID])
    else
      k.(s := s)
  }

  /** sendValues (sch_app_a.py:122-127): detach the buffer, disarm the device
      and hand the batch to a worker thread. */
  function Send(k: Sink, deviceID: DeviceId, da: bool): (r: Sink)
    requires deviceID in k.s
  {
    k.(s := k.s - {deviceID},
       waiting := RemoveFirst(k.waiting, deviceID),
       inFlight := k.inFlight + [Post(deviceID, k.s[deviceID], PostUrl(k.baseurl, k.daurl, deviceID, da))])
  }

  /** The reactor runs the earliest scheduled sendValues. */
  function Fire(k: Sink): (r: Sink)
    requires Inv(k) && k.timers != []
  {
    Send(k.(timers := k.timers[1..]), k.timers[0].device, k.timers[0].da)
  }

  /** sendValuesThread (sch_app_a.py:103-120) finishing POST number i: on
      success the batch is delivered; on failure it is stored again through
      storeValues WITHOUT the `da` argument, so with `da` false. */
  function Finish(k: Sink, i: nat, ok: bool): (r: Sink)
    requires i < |k.inFlight|
  {
    var p := k.inFlight[i];
    var rest := k.(inFlight := k.inFlight[..i] + k.inFlight[i + 1..]);
    if ok then rest.(delivered := k.delivered + [p])
    else Store(rest, p.values, p.device, false)
  }

  // ---------------------------------------------------------------------------
  // The invariant is kept by every step.

  lemma {:induction false} StoreKeepsInv(k: Sink, values: seq<Item>, deviceID: DeviceId, da: bool)
    requires Inv(k)
    ensures Inv(Store(k, values, deviceID, da))
  {
    var r := Store(k, values, deviceID, da);
    if deviceID !in k.waiting {
      forall i, j | 0 <= i < j < |r.waiting| ensures r.waiting[i] != r.waiting[j] {
        if j == |k.waiting| {
          assert r.waiting[i] == k.waiting[i];
        }
      }
    }
  }

  lemma RemoveFirstOfHead<T>(xs: seq<T>)
    requires xs != [] && NoDuplicates(xs)
    ensures RemoveFirst(xs, xs[0]) == xs[1..]
    ensures xs[0] !in xs[1..]
  {
  }

  lemma {:induction false} FireKeepsInv(k: Sink)
    requires Inv(k) && k.timers != []
    ensures Inv(Fire(k))
  {
    var d := k.timers[0].device;
    RemoveFirstOfHead(k.waiting);
    var r := Fire(k);
    assert r.waiting == k.waiting[1..];
    forall e ensures e in r.waiting <==> e in r.s {
      if e in r.waiting {
        assert e in k.waiting && e != d;
      }
      if e in r.s {
        assert e in k.s && e != d;
        var j :| 0 <= j < |k.waiting| && k.waiting[j] == e;
        assert j != 0;
        assert r.waiting[j - 1] == e;
      }
    }
  }

  lemma {:induction false} FinishKeepsInv(k: Sink, i: nat, ok: bool)
    requires Inv(k) && i < |k.inFlight|
    ensures Inv(Finish(k, i, ok))
  {
    var p := k.inFlight[i];
    var rest := k.(inFlight := k.inFlight[..i] + k.inFlight[i + 1..]);
    assert Inv(rest);
    if !ok {
      StoreKeepsInv(rest, p.values, p.device, false);
    }
  }

  // ---------------------------------------------------------------------------
  // What each step does.

  /** Storing on an armed device schedules nothing and appends the batch as
      ONE nested element; storing on an idle device makes the batch the
      buffer and schedules exactly one send. Either way the buffer gains
      exactly the batch's records, after the ones it held. */
  lemma StoreEffect(k: Sink, values: seq<Item>, deviceID: DeviceId, da: bool)
    requires Inv(k)
    ensures var r := Store(k, values, deviceID, da);
      && deviceID in r.s && deviceID in r.waiting
      && (deviceID in k.s ==>
            r.s[deviceID] == k.s[deviceID] + [Nested(values)] && r.timers == k.timers && r.waiting == k.waiting)
      && (deviceID !in k.s ==>
            r.s[deviceID] == values && r.timers == k.timers + [Timer(deviceID, da)])
      && Flatten(r.s[deviceID]) == (if deviceID in k.s then Flatten(k.s[deviceID]) else []) + Flatten(values)
      && (forall d :: d != deviceID ==> (d in r.s <==> d in k.s) && (d in k.s ==> r.s[d] == k.s[d]))
  {
    var r := Store(k, values, deviceID, da);
    if deviceID in k.s {
      FlattenAppend(k.s[deviceID], [Nested(values)]);
      assert Flatten([Nested(values)]) == Flatten(values) + Flatten([]);
    }
  }

  /** Firing sends the earliest armed device's whole buffer to the URL its
      `da` flag selects and removes the device from both `s` and `waiting`. */
  lemma FireEffect(k: Sink)
    requires Inv(k) && k.timers != []
    ensures var d := k.timers[0].device;
      var r := Fire(k);
      && d in k.s && d !in r.s && d !in r.waiting
      && r.inFlight == k.inFlight + [Post(d, k.s[d], PostUrl(k.baseurl, k.daurl, d, k.timers[0].da))]
      && r.timers == k.timers[1..] && r.delivered == k.delivered
  {
    RemoveFirstOfHead(k.waiting);
  }

  /** A failed POST puts back exactly the batch it carried, re-arming the
      device with `da` false when it was idle. */
  lemma RetryRestoresBatch(k: Sink, i: nat)
    requires Inv(k) && i < |k.inFlight|
    ensures var p := k.inFlight[i];
      var r := Finish(k, i, false);
      && p.device in r.s
      && |r.inFlight| == |k.inFlight| - 1
      && r.delivered == k.delivered
      && (p.device !in k.s ==> r.s[p.device] == p.values && r.timers == k.timers + [Timer(p.device, false)])
      && (p.device in k.s ==> r.s[p.device] == k.s[p.device] + [Nested(p.values)] && r.timers == k.timers)
  {
  }

  // ---------------------------------------------------------------------------
  // Nothing is lost or duplicated.

  /** The records of `d` in a list of posts. */
  function PostedRecords(posts: seq<Post>, d: DeviceId): multiset<Record>
    decreases posts
  {
    if posts == [] then multiset{}
    else
      (if posts[0].device == d then multiset(Flatten(posts[0].values)) else multiset{})
      + PostedRecords(posts[1..], d)
  }

  lemma {:induction false} PostedRecordsAppend(a: seq<Post>, b: seq<Post>, d: DeviceId)
    ensures PostedRecords(a + b, d) == PostedRecords(a, d) + PostedRecords(b, d)
    decreases a
  {
    if a == [] {
      assert a + b == b;
    } else {
      assert (a + b)[1..] == a[1..] + b;
      PostedRecordsAppend(a[1..], b, d);
    }
  }

  /** Every record of device `d` the DataManager is responsible for: in its
      buffer, in flight, or delivered. */
  function Held(k: Sink, d: DeviceId): multiset<Record> {
    (if d in k.s then multiset(Flatten(k.s[d])) else multiset{})
    + PostedRecords(k.inFlight, d) + PostedRecords(k.delivered, d)
  }

  function Own(p: Post, d: DeviceId): multiset<Record> {
    if p.device == d then multiset(Flatten(p.values)) else multiset{}
  }

  /** Storing adds exactly the stored records to that device and nothing to
      any other. */
  lemma StoreHeld(k: Sink, values: seq<Item>, deviceID: DeviceId, da: bool, d: DeviceId)
    requires Inv(k)
    ensures Held(Store(k, values, deviceID, da), d) ==
      Held(k, d) + (if d == deviceID then multiset(Flatten(values)) else multiset{})
  {
    StoreEffect(k, values, deviceID, da);
  }

  /** Firing a timer only moves records from a buffer to the in-flight list. */
  lemma FireHeld(k: Sink, d: DeviceId)
    requires Inv(k) && k.timers != []
    ensures Held(Fire(k), d) == Held(k, d)
  {
    FireEffect(k);
    var e := k.timers[0].device;
    var r := Fire(k);
    PostedRecordsAppend(k.inFlight, [r.inFlight[|r.inFlight| - 1]], d);
    assert PostedRecords([r.inFlight[|r.inFlight| - 1]], d) == Own(r.inFlight[|r.inFlight| - 1], d) + PostedRecords([], d);
    if d != e {
      assert (d in r.s) == (d in k.s);
      assert d in k.s ==> r.s[d] == k.s[d];
    }
  }

  lemma PostedRecordsRemove(posts: seq<Post>, i: nat, d: DeviceId)
    requires i < |posts|
    ensures PostedRecords(posts, d) == PostedRecords(posts[..i] + posts[i + 1..], d) + Own(posts[i], d)
  {
    var p := posts[i];
    assert posts == (posts[..i] + [p]) + posts[i + 1..];
    PostedRecordsAppend(posts[..i] + [p], posts[i + 1..], d);
    PostedRecordsAppend(posts[..i], [p], d);
    PostedRecordsAppend(posts[..i], posts[i + 1..], d);
    assert PostedRecords([p], d) == Own(p, d) + PostedRecords([], d);
  }

  /** Taking a POST off the in-flight list withdraws exactly its records. */
  lemma WithdrawHeld(k: Sink, i: nat, d: DeviceId)
    requires i < |k.inFlight|
    ensures Held(k, d) == Held(k.(inFlight := k.inFlight[..i] + k.inFlight[i + 1..]), d) + Own(k.inFlight[i], d)
  {
    PostedRecordsRemove(k.inFlight, i, d);
  }

  /** Recording a POST as delivered adds exactly its records. */
  lemma DeliverHeld(k: Sink, p: Post, d: DeviceId)
    ensures Held(k.(delivered := k.delivered + [p]), d) == Held(k, d) + Own(p, d)
  {
    PostedRecordsAppend(k.delivered, [p], d);
    assert PostedRecords([p], d) == Own(p, d) + PostedRecords([], d);
  }

  /** Finishing a POST either delivers its records or puts them back in the
      buffer: no record is dropped or duplicated by the retry. */
  lemma FinishHeld(k: Sink, i: nat, ok: bool, d: DeviceId)
    requires Inv(k) && i < |k.inFlight|
    ensures Held(Finish(k, i, ok), d) == Held(k, d)
  {
    var p := k.inFlight[i];
    var rest := k.(inFlight := k.inFlight[..i] + k.inFlight[i + 1..]);
    WithdrawHeld(k, i, d);
    if ok {
      DeliverHeld(rest, p, d);
    } else {
      assert Inv(rest);
      StoreHeld(rest, p.values, p.device, false, d);
    }
  }

  // ---------------------------------------------------------------------------
  // The round trip of one batch through a failed and a successful POST.

  /** A batch stored on an idle device, sent, failed, re-sent and delivered
      arrives exactly once with all its records; because the retry drops the
      `da` flag, a DA batch ends up on the ordinary telemetry URL. */
  lemma RetryThenDeliver(baseurl: string, daurl: string, b: Batch, deviceID: DeviceId, da: bool)
    ensures var k0 := Sink(baseurl, daurl, map[], [], [], [], []);
      var k1 := Fire(Store(k0, Items(b), deviceID, da));
      && Inv(k1) && |k1.inFlight| == 1
      && var k2 := Fire(Finish(k1, 0, false));
         Inv(Finish(k1, 0, false)) && Finish(k1, 0, false).timers != []
         && |k2.inFlight| == 1
         && Finish(k2, 0, true).delivered == [Post(deviceID, Items(b), baseurl + deviceID)]
         && Flatten(Finish(k2, 0, true).delivered[0].values) == b
         && Finish(k2, 0, true).s == map[]
  {
    var k0 := Sink(baseurl, daurl, map[], [], [], [], []);
    var k1a := Store(k0, Items(b), deviceID, da);
    StoreKeepsInv(k0, Items(b), deviceID, da);
    FireKeepsInv(k1a);
    var k1 := Fire(k1a);
    FinishKeepsInv(k1, 0, false);
    var k2 := Fire(Finish(k1, 0, false));
    FlattenItems(b);
  }

  // ---------------------------------------------------------------------------
  // The DataManager object.

  class DataManager {
    const baseurl: string
    const daurl: string
    var s: map<DeviceId, seq<Item>>
    var waiting: seq<DeviceId>
    var timers: seq<Timer>
    var inFlight: seq<Post>
    var delivered: seq<Post>

    function State(): Sink
      reads this
    {
      Sink(baseurl, daurl, s, waiting, timers, inFlight, delivered)
    }

    ghost predicate Valid()
      reads this
    {
      Inv(State())
    }

    constructor (bridgeId: string)
      ensures Valid()
      ensures State() == Sink(BaseUrl(bridgeId), DaUrl(bridgeId), map[], [], [], [], [])
    {
      baseurl := Series + bridgeId + "/";
      daurl := Series + "DA" + DropThree(bridgeId) + "/";
      s := map[];
      waiting := [];
      timers := [];
      inFlight := [];
      delivered := [];
    }

    method StoreValues(values: seq<Item>, deviceID: DeviceId, da: bool)
      requires Valid()
      modifies this
      ensures Valid()
      ensures State() == Store(old(State()), values, deviceID, da)
    {
      StoreKeepsInv(State(), values, deviceID, da);
      if deviceID !in s {
        s := s[deviceID := values];
      } else {
        s := s[deviceID := s[deviceID] + [Nested(values)]];
      }
      if deviceID !in waiting {
        timers := timers + [Timer(deviceID, da)];
        waiting := waiting + [deviceID];
      }
    }

    /** storeAccel, storeTemp, ... storeConnected: store a filter's batch as
        ordinary telemetry. */
    method StoreBatch(deviceID: DeviceId, b: Batch)
      requires Valid()
      modifies this
      ensures Valid()
      ensures State() == Store(old(State()), Items(b), deviceID, false)
    {
      StoreValues(Items(b), deviceID, false);
    }

    /** storeEntryExit: one synthetic event, stored with `da` true. */
    method StoreEntryExit(location: string, t: real, action: string, v: real)
      requires Valid()
      modifies this
      ensures Valid()
      ensures State() == Store(old(State()), Items(ScalarBatch(action, t, v)), location, true)
    {
      StoreValues(Items(ScalarBatch(action, t, v)), location, true);
    }

    method SendValues(deviceID: DeviceId, da: bool)
      requires deviceID in s
      modifies this
      ensures State() == Send(old(State()), deviceID, da)
    {
      var values := s[deviceID];
      waiting := RemoveFirst(waiting, deviceID);
      s := s - {deviceID};
      inFlight := inFlight + [Post(deviceID, values, PostUrl(baseurl, daurl, deviceID, da))];
    }

    /** The reactor runs the earliest scheduled sendValues. */
    method FireTimer()
      requires Valid() && timers != []
      modifies this
      ensures Valid()
      ensures State() == Fire(old(State()))
    {
      FireKeepsInv(State());
      var t := timers[0];
      timers := timers[1..];
      SendValues(t.device, t.da);
    }

    /** The worker thread's POST number i finished with outcome `ok`. */
    method SendValuesThread(i: nat, ok: bool)
      requires Valid() && i < |inFlight|
      modifies this
      ensures Valid()
      ensures State() == Finish(old(State()), i, ok)
    {
      FinishKeepsInv(State(), i, ok);
      var p := inFlight[i];
      inFlight := inFlight[..i] + inFlight[i + 1..];
      if ok {
        delivered := delivered + [p];
      } else {
        StoreValues(p.values, p.device, false);
      }
    }
  }
}
