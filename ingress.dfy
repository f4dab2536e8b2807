/** The App's routing of adaptor messages in sch_app_a.py: which filter a
    data message reaches (`onAdaptorData`, lines 678-749) and which filters
    and service requests an adaptor's service list produces
    (`onAdaptorService`, lines 751-833). */
module Ingress {
  import opened Text
  import opened Telemetry

  /** The App's `idToName` entry: the friendly name with spaces replaced
      by underscores. */
  function Underscored(name: string): (r: string)
    ensures |r| == |name|
    ensures forall k :: 0 <= k < |name| ==> r[k] == (if name[k] == ' ' then '_' else name[k])
  {
    seq(|name|, k requires 0 <= k < |name| => if name[k] == ' ' then '_' else name[k])
  }

  /** Names that differ only by spaces against underscores get the same
      key, so their devices share a filter. */
  lemma UnderscoredCollides(a: string, b: string)
    requires |a| == |b|
    requires forall k :: 0 <= k < |a| ==> a[k] == b[k] || (a[k] == ' ' && b[k] == '_') || (a[k] == '_' && b[k] == ' ')
    ensures Underscored(a) == Underscored(b)
  {
  }

  /** The position of the first filter whose id is `name`. */
  function FirstIndex(ids: seq<string>, name: string): (r: Option<nat>)
    ensures r.Some? ==> r.value < |ids| && ids[r.value] == name && forall j :: 0 <= j < r.value ==> ids[j] != name
    ensures r.None? ==> forall j :: 0 <= j < |ids| ==> ids[j] != name
    decreases |ids|
  {
    if ids == [] then None
    else if ids[0] == name then Some(0)
    else
      match FirstIndex(ids[1..], name)
      case None => None
      case Some(k) => Some(k + 1)
  }

  /** Where a data message goes: the filter at some position, no filter, or
      the KeyError of looking up an unknown device id, which only happens
      when the list of filters for its characteristic is not empty. */
  datatype Route = ToFilter(index: nat) | NoFilter | KeyError

  function RouteOf(ids: seq<string>, idToName: map<DeviceId, string>, msgId: DeviceId): Route {
    if ids == [] then NoFilter
    else if msgId !in idToName then KeyError
    else
      match FirstIndex(ids, idToName[msgId])
      case None => NoFilter
      case Some(k) => ToFilter(k)
  }

  /** The `for ... if x.id == self.idToName[message["id"]]: ... break` loop. */
  method FindFilter(ids: seq<string>, idToName: map<DeviceId, string>, msgId: DeviceId) returns (r: Route)
    ensures r == RouteOf(ids, idToName, msgId)
  {
    var i := 0;
    while i < |ids|
      invariant 0 <= i <= |ids|
      invariant i > 0 ==> msgId in idToName
      invariant msgId in idToName ==> forall j :: 0 <= j < i ==> ids[j] != idToName[msgId]
    {
      if msgId !in idToName {
        return KeyError;
      }
      if ids[i] == idToName[msgId] {
        return ToFilter(i);
      }
      i := i + 1;
    }
    return NoFilter;
  }

  /** Two devices with the same name reach the same filter. */
  lemma SameNameSameFilter(ids: seq<string>, idToName: map<DeviceId, string>, a: DeviceId, b: DeviceId)
    requires a in idToName && b in idToName && idToName[a] == idToName[b]
    ensures RouteOf(ids, idToName, a) == RouteOf(ids, idToName, b)
  {
  }

  /** How often a binary_sensor message is forwarded by the loops over
      `entryExitIDs` and `night_sensors`: once per occurrence of its id. */
  method ForwardCount(ids: seq<DeviceId>, msgId: DeviceId) returns (n: nat)
    ensures n == multiset(ids)[msgId]
  {
    n := 0;
    var i := 0;
    while i < |ids|
      invariant 0 <= i <= |ids|
      invariant n == multiset(ids[..i])[msgId]
    {
      if ids[i] == msgId {
        n := n + 1;
      }
      assert ids[..i + 1] == ids[..i] + [ids[i]];
      i := i + 1;
    }
    assert ids[..i] == ids;
  }

  // ---------------------------------------------------------------------------
  // onAdaptorService.

  /** The settings `onAdaptorService` reads: the enabling flags as the
      strings they are in the configuration, and the polling intervals. */
  datatype Settings = Settings(
    temperature: string, irtemperature: string, accel: string, gyro: string,
    magnet: string, buttons: string, humidity: string, binary: string,
    power: string, battery: string, connected: string, luminance: string,
    slowPolling: real, accelPolling: real, gyroPolling: real, magnetPolling: real)

  /** The defaults of sch_app_a.py:29-57. */
  const Defaults := Settings(
    "True", "False", "False", "False",
    "False", "False", "True", "True",
    "True", "True", "True", "True",
    600.0, 3.0, 3.0, 3.0)

  /** The filter classes a service can create. */
  datatype Kind = TemperatureKind | IrTemperatureKind | AccelKind | GyroKind | MagnetKind | ButtonsKind
                | HumidKind | BinaryKind | PowerKind | BatteryKind | ConnectedKind | LuminanceKind

  /** One entry of the service request: a characteristic and its interval. */
  datatype Request = Request(characteristic: string, interval: real)

  /** What one offered characteristic produces: a filter and a request
      entry when its flag is exactly "True", nothing otherwise. */
  function Offer(cfg: Settings, c: string): (r: Option<(Kind, Request)>)
    ensures r.Some? ==> r.value.1.characteristic == c
  {
    if c == "temperature" then
      (if cfg.temperature == "True" then Some((TemperatureKind, Request(c, cfg.slowPolling))) else None)
    else if c == "ir_temperature" then
      (if cfg.irtemperature == "True" then Some((IrTemperatureKind, Request(c, cfg.slowPolling))) else None)
    else if c == "acceleration" then
      (if cfg.accel == "True" then Some((AccelKind, Request(c, cfg.accelPolling))) else None)
    else if c == "gyro" then
      (if cfg.gyro == "True" then Some((GyroKind, Request(c, cfg.gyroPolling))) else None)
    else if c == "magnetometer" then
      (if cfg.magnet == "True" then Some((MagnetKind, Request(c, cfg.magnetPolling))) else None)
    else if c == "buttons" then
      (if cfg.buttons == "True" then Some((ButtonsKind, Request(c, 0.0))) else None)
    else if c == "humidity" then
      (if cfg.humidity == "True" then Some((HumidKind, Request(c, cfg.slowPolling))) else None)
    else if c == "binary_sensor" then
      (if cfg.binary == "True" then Some((BinaryKind, Request(c, 0.0))) else None)
    else if c == "power" then
      (if cfg.power == "True" then Some((PowerKind, Request(c, 0.0))) else None)
    else if c == "battery" then
      (if cfg.battery == "True" then Some((BatteryKind, Request(c, 0.0))) else None)
    else if c == "connected" then
      (if cfg.connected == "True" then Some((ConnectedKind, Request(c, 0.0))) else None)
    else if c == "luminance" then
      (if cfg.luminance == "True" then Some((LuminanceKind, Request(c, 0.0))) else None)
    else None
  }

  /** The filters made and the request built for a service list, in order. */
  function Serve(cfg: Settings, offered: seq<string>): (r: (seq<Kind>, seq<Request>))
    ensures |r.0| == |r.1| <= |offered|
    decreases |offered|
  {
    if offered == [] then ([], [])
    else
      var init := Serve(cfg, offered[..|offered| - 1]);
      match Offer(cfg, offered[|offered| - 1])
      case None => init
      case Some(p) => (init.0 + [p.0], init.1 + [p.1])
  }

  /** A characteristic is requested exactly when it was offered and its
      flag is "True", and every request carries its table interval. */
  lemma {:induction false} ServeRequestsEnabled(cfg: Settings, offered: seq<string>, c: string)
    ensures (exists q :: q in Serve(cfg, offered).1 && q.characteristic == c) <==> c in offered && Offer(cfg, c).Some?
    ensures forall q :: q in Serve(cfg, offered).1 ==> Offer(cfg, q.characteristic).Some? && Offer(cfg, q.characteristic).value.1 == q
    decreases |offered|
  {
    if offered != [] {
      var init := offered[..|offered| - 1];
      var last := offered[|offered| - 1];
      ServeRequestsEnabled(cfg, init, c);
      assert offered == init + [last];
      assert c in offered <==> c in init || c == last;
    }
  }

  /** What `onAdaptorService` ends with: the filters made and the request
      sent, or the KeyError of naming the filter of an unknown device. The
      first enabled characteristic raises it before its filter is appended,
      so no filter is made and no request is sent. */
  datatype Service = Served(made: seq<Kind>, req: seq<Request>) | ServiceKeyError

  function ServiceOf(cfg: Settings, offered: seq<string>, idToName: map<DeviceId, string>, msgId: DeviceId): Service {
    var s := Serve(cfg, offered);
    if msgId !in idToName && s.0 != [] then ServiceKeyError else Served(s.0, s.1)
  }

  /** An unknown device raises exactly when one of its characteristics is
      enabled; a known one always gets the request of `Serve`. */
  lemma {:induction false} ServiceKeyErrorIff(cfg: Settings, offered: seq<string>, idToName: map<DeviceId, string>, msgId: DeviceId)
    ensures ServiceOf(cfg, offered, idToName, msgId).ServiceKeyError? <==>
      msgId !in idToName && exists c :: c in offered && Offer(cfg, c).Some?
    ensures msgId in idToName ==> ServiceOf(cfg, offered, idToName, msgId) == Served(Serve(cfg, offered).0, Serve(cfg, offered).1)
  {
    var s := Serve(cfg, offered);
    if s.1 != [] {
      var q := s.1[0];
      ServeRequestsEnabled(cfg, offered, q.characteristic);
      assert q in s.1;
    }
    forall c | c in offered && Offer(cfg, c).Some?
      ensures s.1 != []
    {
      ServeRequestsEnabled(cfg, offered, c);
    }
  }

  /** `onAdaptorService`'s loop over the offered services. */
  method ServiceRequest(cfg: Settings, offered: seq<string>, idToName: map<DeviceId, string>, msgId: DeviceId)
    returns (r: Service)
    ensures r == ServiceOf(cfg, offered, idToName, msgId)
  {
    var made, req := [], [];
    var i := 0;
    while i < |offered|
      invariant 0 <= i <= |offered|
      invariant (made, req) == Serve(cfg, offered[..i])
      invariant msgId !in idToName ==> made == []
    {
      var c := offered[i];
      var o := Offer(cfg, c);
      if o.Some? {
        if msgId !in idToName {
          ServeRequestsEnabled(cfg, offered, c);
          assert |Serve(cfg, offered).1| > 0;
          return ServiceKeyError;
        }
        made := made + [o.value.0];
        req := req + [o.value.1];
      }
      assert offered[..i + 1][..i] == offered[..i];
      i := i + 1;
    }
    assert offered[..i] == offered;
    return Served(made, req);
  }

  /** With the default settings a sensor tag offering temperature,
      humidity, acceleration and buttons gets temperature and humidity,
      both polled every 600 seconds. */
  lemma DefaultsServeSlowSensors()
    ensures Serve(Defaults, ["temperature", "humidity", "acceleration", "buttons"]).1
      == [Request("temperature", 600.0), Request("humidity", 600.0)]
  {
    var o4 := ["temperature", "humidity", "acceleration", "buttons"];
    var o3, o2, o1 := o4[..3], o4[..2], o4[..1];
    assert o3[..2] == o2 && o2[..1] == o1 && o1[..0] == [];
    assert Serve(Defaults, o1).1 == [Request("temperature", 600.0)];
    assert Serve(Defaults, o2).1 == [Request("temperature", 600.0), Request("humidity", 600.0)];
    assert Serve(Defaults, o3).1 == Serve(Defaults, o2).1;
  }
}
