/** Entry/exit detection of sch_app_a.py (lines 513-639): the per-doorway
    state machine CheckExit, polled once a second, and EntryExit, which pairs
    each door contact ("magsw ...") with the inside motion sensor
    ("pir inside ...") of the same location and forwards sensor changes. */
module Occupancy {
  import opened Telemetry
  import opened Text
  import opened Delivery

  // Timings of sch_app_a.py:23-26, in seconds.
  const InPirToDoorTime: real := 30.0
  const DoorCloseToInPirTime: real := 10.0
  const DoorOpenToInPirTime: real := 15.0
  const MaxDoorOpenTime: real := 60.0

  /** The state strings of CheckExit. The source's `fsm` has two branches for
      "wait_door_close" and none for "wait_long_door_open", so that state is
      handled by the "impossible state" branch. */
  datatype FsmState = Idle | CheckGoingOut | CheckWentOut | CheckComingIn | WaitDoorClose | WaitLongDoorOpen

  datatype Action = NoAction | AnsweredDoor | WentOut | CameIn | OpenAndClose | DoorOpenTooLong

  function ActionName(a: Action): string {
    match a
    case NoAction => "none"
    case AnsweredDoor => "answered_door"
    case WentOut => "went_out"
    case CameIn => "came_in"
    case OpenAndClose => "open_and_close"
    case DoorOpenTooLong => "door_open_too_long"
  }

  /** Which of a doorway's two sensors changed. */
  datatype Sensor = Magsw | Ipir

  /** The fields of one CheckExit besides its location. */
  datatype Exit = Exit(
    state: FsmState,
    doorOpen: bool, doorOpenTime: real, doorCloseTime: real,
    pirOn: bool, pirOnTime: real, pirOffTime: real)

  const Initial := Exit(Idle, false, 0.0, 0.0, false, 0.0, 0.0)

  /** CheckExit.onChange: "on" opens the door or switches the motion sensor
      on, anything else closes or switches off, stamping the time. */
  function Sense(c: Exit, sensor: Sensor, t: real, value: string): (r: Exit)
    ensures r.state == c.state
    ensures sensor == Ipir ==> r.doorOpen == c.doorOpen && r.doorOpenTime == c.doorOpenTime && r.doorCloseTime == c.doorCloseTime
    ensures sensor == Magsw ==> r.pirOn == c.pirOn && r.pirOnTime == c.pirOnTime && r.pirOffTime == c.pirOffTime
    ensures sensor == Magsw && value == "on" ==> r.doorOpen && r.doorOpenTime == t && r.doorCloseTime == c.doorCloseTime
    ensures sensor == Magsw && value != "on" ==> !r.doorOpen && r.doorCloseTime == t && r.doorOpenTime == c.doorOpenTime
    ensures sensor == Ipir && value == "on" ==> r.pirOn && r.pirOnTime == t && r.pirOffTime == c.pirOffTime
    ensures sensor == Ipir && value != "on" ==> !r.pirOn && r.pirOffTime == t && r.pirOnTime == c.pirOnTime
  {
    match sensor
    case Ipir =>
      if value == "on" then c.(pirOnTime := t, pirOn := true) else c.(pirOffTime := t, pirOn := false)
    case Magsw =>
      if value == "on" then c.(doorOpen := true, doorOpenTime := t) else c.(doorOpen := false, doorCloseTime := t)
  }

  /** A change delivered twice, as happens when a device id is listed twice
      among the entry/exit devices, leaves the same state as once. */
  lemma SenseIsIdempotent(c: Exit, sensor: Sensor, t: real, value: string)
    ensures Sense(Sense(c, sensor, t, value), sensor, t, value) == Sense(c, sensor, t, value)
  {
  }

  datatype TickResult = TickResult(next: Exit, action: Action)

  /** One call of CheckExit.fsm at time `now`. */
  function Tick(c: Exit, now: real): TickResult {
    match c.state
    case Idle =>
      if c.doorOpen then
        if c.doorOpenTime - c.pirOnTime < InPirToDoorTime || c.pirOn then TickResult(c.(state := CheckGoingOut), NoAction)
        else TickResult(c.(state := CheckComingIn), NoAction)
      else TickResult(c, NoAction)
    case CheckGoingOut =>
      if !c.doorOpen then TickResult(c.(state := CheckWentOut), NoAction) else TickResult(c, NoAction)
    case CheckWentOut =>
      if now - c.doorCloseTime > DoorCloseToInPirTime then
        if c.pirOn || now - c.pirOffTime < DoorCloseToInPirTime - 4.0 then TickResult(c.(state := Idle), AnsweredDoor)
        else TickResult(c.(state := Idle), WentOut)
      else TickResult(c, NoAction)
    case CheckComingIn =>
      if c.pirOn then TickResult(c.(state := WaitDoorClose), CameIn)
      else if now - c.doorOpenTime > DoorOpenToInPirTime then TickResult(c.(state := WaitDoorClose), OpenAndClose)
      else TickResult(c, NoAction)
    case WaitDoorClose =>
      if !c.doorOpen then TickResult(c.(state := Idle), NoAction)
      else if now - c.doorOpenTime > MaxDoorOpenTime then TickResult(c.(state := WaitLongDoorOpen), DoorOpenTooLong)
      else TickResult(c, NoAction)
    case WaitLongDoorOpen =>
      TickResult(c.(state := Idle), NoAction)
  }

  /** The edges one tick may take, with the action each one reports. */
  ghost predicate Edge(from: FsmState, to: FsmState, a: Action) {
    match from
    case Idle => a == NoAction && (to == Idle || to == CheckGoingOut || to == CheckComingIn)
    case CheckGoingOut => a == NoAction && (to == CheckGoingOut || to == CheckWentOut)
    case CheckWentOut => (to == CheckWentOut && a == NoAction) || (to == Idle && (a == AnsweredDoor || a == WentOut))
    case CheckComingIn => (to == CheckComingIn && a == NoAction) || (to == WaitDoorClose && (a == CameIn || a == OpenAndClose))
    case WaitDoorClose =>
      (to == WaitDoorClose && a == NoAction) || (to == Idle && a == NoAction) || (to == WaitLongDoorOpen && a == DoorOpenTooLong)
    case WaitLongDoorOpen => to == Idle && a == NoAction
  }

  /** A tick moves along an edge and changes nothing but the state. */
  lemma TickFollowsEdges(c: Exit, now: real)
    ensures Edge(c.state, Tick(c, now).next.state, Tick(c, now).action)
    ensures Tick(c, now).next == c.(state := Tick(c, now).next.state)
  {
  }

  /** When each edge is taken, both ways round. */
  lemma TickConditions(c: Exit, now: real)
    ensures var r := Tick(c, now);
      && (c.state == Idle ==>
            && (r.next.state == CheckGoingOut <==> c.doorOpen && (c.doorOpenTime - c.pirOnTime < 30.0 || c.pirOn))
            && (r.next.state == CheckComingIn <==> c.doorOpen && !(c.doorOpenTime - c.pirOnTime < 30.0 || c.pirOn)))
      && (c.state == CheckGoingOut ==> (r.next.state == CheckWentOut <==> !c.doorOpen))
      && (c.state == CheckWentOut ==>
            && (r.action == AnsweredDoor <==> now - c.doorCloseTime > 10.0 && (c.pirOn || now - c.pirOffTime < 6.0))
            && (r.action == WentOut <==> now - c.doorCloseTime > 10.0 && !(c.pirOn || now - c.pirOffTime < 6.0)))
      && (c.state == CheckComingIn ==>
            && (r.action == CameIn <==> c.pirOn)
            && (r.action == OpenAndClose <==> !c.pirOn && now - c.doorOpenTime > 15.0))
      && (c.state == WaitDoorClose ==>
            && (r.next.state == Idle <==> !c.doorOpen)
            && (r.action == DoorOpenTooLong <==> c.doorOpen && now - c.doorOpenTime > 60.0))
      && (c.state == WaitLongDoorOpen ==> r.next.state == Idle && r.action == NoAction)
  {
  }

  /** The three DA events of an action: 0, 1, 0 at the door-open time and
      one and two seconds later; none for NoAction. */
  function ActionEvents(c: Exit, a: Action): (bs: seq<Batch>)
    ensures a == NoAction ==> bs == []
    ensures a != NoAction ==>
      && |bs| == 3
      && (forall k :: 0 <= k < 3 ==> |bs[k]| == 1 && bs[k][0].n == ActionName(a) && bs[k][0].t == c.doorOpenTime + k as real)
      && bs[0][0].v == 0.0 && bs[1][0].v == 1.0 && bs[2][0].v == 0.0
  {
    if a == NoAction then []
    else
      var n := ActionName(a);
      [ScalarBatch(n, c.doorOpenTime, 0.0), ScalarBatch(n, c.doorOpenTime + 1.0, 1.0), ScalarBatch(n, c.doorOpenTime + 2.0, 0.0)]
  }

  /** storeEntryExit for each event in turn: stored under the location, DA. */
  function StoreDa(k: Sink, location: string, bs: seq<Batch>): Sink
    decreases |bs|
  {
    if bs == [] then k else StoreDa(Store(k, Items(bs[0]), location, true), location, bs[1..])
  }

  // ---------------------------------------------------------------------------
  // Runs of ticks.

  /** The actions of successive ticks at the given times. */
  function Ticks(c: Exit, nows: seq<real>): (r: (Exit, seq<Action>))
    ensures |r.1| == |nows|
    decreases nows
  {
    if nows == [] then (c, [])
    else
      var first := Tick(c, nows[0]);
      var rest := Ticks(first.next, nows[1..]);
      (rest.0, [first.action] + rest.1)
  }

  lemma TicksCons(c: Exit, now: real, nows: seq<real>)
    ensures var r := Ticks(Tick(c, now).next, nows);
      Ticks(c, [now] + nows) == (r.0, [Tick(c, now).action] + r.1)
  {
    assert ([now] + nows)[1..] == nows;
  }

  function CountActions(acts: seq<Action>): nat
    decreases acts
  {
    if acts == [] then 0 else (if acts[0] == NoAction then 0 else 1) + CountActions(acts[1..])
  }

  /** With the door shut, Idle, WaitDoorClose and WaitLongDoorOpen lead to
      Idle and stay there, silently. */
  lemma {:induction false} ClosedDoorSettles(c: Exit, nows: seq<real>)
    requires !c.doorOpen && (c.state == Idle || c.state == WaitDoorClose || c.state == WaitLongDoorOpen)
    ensures CountActions(Ticks(c, nows).1) == 0
    ensures nows != [] ==> Ticks(c, nows).0.state == Idle
    decreases nows
  {
    if nows != [] {
      ClosedDoorSettles(Tick(c, nows[0]).next, nows[1..]);
    }
  }

  /** While the door stays shut, a doorway reports at most one action,
      whatever state it starts in and however long it is polled. */
  lemma {:induction false} ClosedDoorActsAtMostOnce(c: Exit, nows: seq<real>)
    requires !c.doorOpen
    ensures CountActions(Ticks(c, nows).1) <= 1
    decreases nows
  {
    if nows != [] {
      var first := Tick(c, nows[0]);
      if first.action == NoAction {
        ClosedDoorActsAtMostOnce(first.next, nows[1..]);
      } else {
        ClosedDoorSettles(first.next, nows[1..]);
      }
    }
  }

  /** Because "wait_long_door_open" falls into the reset branch, a door held
      open with nobody inside is re-classified every four ticks: the FSM goes
      back to idle, then to check_coming_in, reports open_and_close, then
      door_open_too_long, and is back where it started. */
  lemma DoorHeldOpenRepeats(c: Exit, now: real)
    requires c.state == WaitLongDoorOpen && c.doorOpen && !c.pirOn
    requires c.doorOpenTime - c.pirOnTime >= InPirToDoorTime
    requires now - c.doorOpenTime > MaxDoorOpenTime
    ensures var r := Ticks(c, [now, now + 1.0, now + 2.0, now + 3.0]);
      r.0 == c && r.1 == [NoAction, NoAction, OpenAndClose, DoorOpenTooLong]
  {
    var c1 := c.(state := Idle);
    var c2 := c.(state := CheckComingIn);
    var c3 := c.(state := WaitDoorClose);
    var n3 := [now + 3.0];
    var n2 := [now + 2.0] + n3;
    var n1 := [now + 1.0] + n2;
    var n0 := [now] + n1;
    assert n0 == [now, now + 1.0, now + 2.0, now + 3.0];
    assert n3[1..] == [] && n2[1..] == n3 && n1[1..] == n2 && n0[1..] == n1;
    assert Tick(c, now) == TickResult(c1, NoAction);
    assert Tick(c1, now + 1.0) == TickResult(c2, NoAction);
    assert Tick(c2, now + 2.0) == TickResult(c3, OpenAndClose);
    assert Tick(c3, now + 3.0) == TickResult(c, DoorOpenTooLong);
    TicksCons(c3, now + 3.0, []);
    assert [now + 3.0] + [] == n3;
    assert Ticks(c, []).0 == c && Ticks(c, []).1 == [];
    assert Ticks(c3, n3).0 == c && Ticks(c3, n3).1 == [DoorOpenTooLong];
    TicksCons(c2, now + 2.0, n3);
    assert Ticks(c2, n2).0 == c && Ticks(c2, n2).1 == [OpenAndClose, DoorOpenTooLong];
    TicksCons(c1, now + 1.0, n2);
    assert Ticks(c1, n1).0 == c && Ticks(c1, n1).1 == [NoAction, OpenAndClose, DoorOpenTooLong];
    TicksCons(c, now, n1);
  }

  /** Someone leaves: door opens with the motion sensor on, closes two
      seconds later, and more than ten seconds after the close the motion
      sensor is still on, so the door was answered. */
  lemma AnsweredDoorScenario()
    ensures var c0 := Sense(Sense(Initial, Ipir, 0.0, "on"), Magsw, 0.0, "on");
      var r1 := Tick(c0, 1.0);
      var c2 := Sense(r1.next, Magsw, 2.0, "off");
      var r2 := Tick(c2, 3.0);
      var r3 := Tick(r2.next, 12.5);
      && r1.next.state == CheckGoingOut && r2.next.state == CheckWentOut
      && r3.next.state == Idle && r3.action == AnsweredDoor
  {
  }

  /** Someone comes in: door opens with no recent motion, motion at t=5
      gives came_in and wait_door_close; closing the door returns to idle. */
  lemma CameInScenario()
    ensures var c0 := Sense(Initial.(pirOnTime := -100.0), Magsw, 0.0, "on");
      var r1 := Tick(c0, 1.0);
      var c2 := Sense(r1.next, Ipir, 5.0, "on");
      var r2 := Tick(c2, 5.0);
      var c3 := Sense(r2.next, Magsw, 8.0, "off");
      var r3 := Tick(c3, 8.0);
      && r1.next.state == CheckComingIn
      && r2.action == CameIn && r2.next.state == WaitDoorClose
      && r3.next.state == Idle && r3.action == NoAction
  {
  }

  // ---------------------------------------------------------------------------
  // The CheckExit object.

  class CheckExit {
    const location: string
    const dm: DataManager
    var state: FsmState
    var doorOpen: bool
    var doorOpenTime: real
    var doorCloseTime: real
    var pirOn: bool
    var pirOnTime: real
    var pirOffTime: real

    function Snap(): Exit
      reads this
    {
      Exit(state, doorOpen, doorOpenTime, doorCloseTime, pirOn, pirOnTime, pirOffTime)
    }

    constructor (location: string, dm: DataManager)
      ensures this.location == location && this.dm == dm
      ensures Snap() == Initial
    {
      this.location := location;
      this.dm := dm;
      state := Idle;
      doorOpen, doorOpenTime, doorCloseTime := false, 0.0, 0.0;
      pirOn, pirOnTime, pirOffTime := false, 0.0, 0.0;
    }

    method OnChange(sensor: Sensor, t: real, value: string)
      modifies this
      ensures Snap() == Sense(old(Snap()), sensor, t, value)
    {
      if sensor == Ipir {
        if value == "on" {
          pirOnTime := t;
          pirOn := true;
        } else {
          pirOffTime := t;
          pirOn := false;
        }
      }
      if sensor == Magsw {
        if value == "on" {
          doorOpen := true;
          doorOpenTime := t;
        } else {
          doorOpen := false;
          doorCloseTime := t;
        }
      }
    }

    /** One poll at time `now`; an action is stored as three DA events. */
    method Fsm(now: real) returns (action: Action)
      requires dm.Valid()
      modifies this, dm
      ensures dm.Valid()
      ensures Snap() == Tick(old(Snap()), now).next && action == Tick(old(Snap()), now).action
      ensures dm.State() == StoreDa(old(dm.State()), location, ActionEvents(Snap(), action))
    {
      action := Transition(now);
      Report(action);
    }

    /** The state switch of `fsm`. */
    method Transition(now: real) returns (action: Action)
      modifies this
      ensures Snap() == Tick(old(Snap()), now).next && action == Tick(old(Snap()), now).action
    {
      action := NoAction;
      if state == Idle {
        if doorOpen {
          if doorOpenTime - pirOnTime < InPirToDoorTime || pirOn {
            state := CheckGoingOut;
          } else {
            state := CheckComingIn;
          }
        }
      } else if state == CheckGoingOut {
        if !doorOpen {
          state := CheckWentOut;
        }
      } else if state == CheckWentOut {
        var t := now;
        if t - doorCloseTime > DoorCloseToInPirTime {
          if pirOn || t - pirOffTime < DoorCloseToInPirTime - 4.0 {
            action := AnsweredDoor;
            state := Idle;
          } else {
            action := WentOut;
            state := Idle;
          }
        }
      } else if state == CheckComingIn {
        if pirOn {
          action := CameIn;
          state := WaitDoorClose;
        } else if now - doorOpenTime > DoorOpenToInPirTime {
          action := OpenAndClose;
          state := WaitDoorClose;
        }
      } else if state == WaitDoorClose {
        if !doorOpen {
          state := Idle;
        } else if now - doorOpenTime > MaxDoorOpenTime {
          action := DoorOpenTooLong;
          state := WaitLongDoorOpen;
        }
      } else {
        state := Idle;
      }
    }

    /** The reporting tail of `fsm`: three storeEntryExit calls. */
    method Report(action: Action)
      requires dm.Valid()
      modifies dm
      ensures dm.Valid()
      ensures dm.State() == StoreDa(old(dm.State()), location, ActionEvents(Snap(), action))
    {
      if action != NoAction {
        var n := ActionName(action);
        ghost var bs := ActionEvents(Snap(), action);
        ghost var k0 := dm.State();
        dm.StoreEntryExit(location, doorOpenTime, n, 0.0);
        ghost var k1 := dm.State();
        dm.StoreEntryExit(location, doorOpenTime + 1.0, n, 1.0);
        ghost var k2 := dm.State();
        dm.StoreEntryExit(location, doorOpenTime + 2.0, n, 0.0);
        assert StoreDa(k2, location, bs[2..]) == dm.State() by {
          assert bs[2..][1..] == [];
        }
        assert StoreDa(k1, location, bs[1..]) == dm.State() by {
          assert bs[1..][1..] == bs[2..];
        }
      }
    }
  }

  // ---------------------------------------------------------------------------
  // Pairing door contacts with inside motion sensors (EntryExit.initExits).

  /** One doorway: the location as spelt in the door contact's name, and the
      ids of the door contact and of the inside motion sensor. */
  datatype Location = Location(location: string, magsw: DeviceId, ipir: DeviceId)

  /** A friendly name split on spaces, or on hyphens when it has no space. */
  function Tokens(name: string): (r: seq<string>)
    ensures |r| >= 1
    ensures |Split(name, ' ')| != 1 ==> r == Split(name, ' ')
    ensures |Split(name, ' ')| == 1 ==> r == Split(name, '-')
  {
    var bySpace := Split(name, ' ');
    if |bySpace| == 1 then Split(name, '-') else bySpace
  }

  predicate WellSplit(splits: seq<(DeviceId, seq<string>)>) {
    forall i :: 0 <= i < |splits| ==> |splits[i].1| >= 1
  }

  /** The `splits` dictionary, in the order of the id-to-name dictionary. */
  function SplitAll(names: seq<(DeviceId, string)>): (r: seq<(DeviceId, seq<string>)>)
    ensures |r| == |names| && WellSplit(r)
    ensures forall i :: 0 <= i < |names| ==> r[i] == (names[i].0, Tokens(names[i].1))
  {
    seq(|names|, i requires 0 <= i < |names| => (names[i].0, Tokens(names[i].1)))
  }

  /** A door contact: first token starts with "magsw", in any case. */
  predicate IsMagsw(toks: seq<string>)
    requires |toks| >= 1
  {
    Lower(Prefix(toks[0], 5)) == "magsw"
  }

  /** A motion sensor: first token starts with "pir", in any case. */
  predicate IsPir(toks: seq<string>)
    requires |toks| >= 1
  {
    Lower(Prefix(toks[0], 3)) == "pir"
  }

  /** An inside motion sensor at location `loc` (already lower-cased). */
  predicate PirInside(toks: seq<string>, loc: string) {
    |toks| >= 3 && IsPir(toks) && Lower(toks[1]) == "inside" && Lower(toks[2]) == loc
  }

  /** The outcome of the inner loop: a match, none, or an IndexError on a
      motion sensor name with too few tokens. */
  datatype Found = Match(d2: DeviceId) | NoMatch | Raised

  function FindPir(splits: seq<(DeviceId, seq<string>)>, j: nat, loc: string): Found
    requires WellSplit(splits) && j <= |splits|
    decreases |splits| - j
  {
    if j == |splits| then NoMatch
    else
      var toks := splits[j].1;
      if IsPir(toks) then
        if |toks| < 2 then Raised
        else if Lower(toks[1]) == "inside" then
          if |toks| < 3 then Raised
          else if Lower(toks[2]) == loc then Match(splits[j].0)
          else FindPir(splits, j + 1, loc)
        else FindPir(splits, j + 1, loc)
      else FindPir(splits, j + 1, loc)
  }

  /** The doorways found, and whether an IndexError ended the search; the
      doorways found before the error stay appended. */
  datatype Pairing = Pairing(found: seq<Location>, raised: bool)

  function PairFrom(splits: seq<(DeviceId, seq<string>)>, i: nat): Pairing
    requires WellSplit(splits) && i <= |splits|
    decreases |splits| - i
  {
    if i == |splits| then Pairing([], false)
    else
      var toks := splits[i].1;
      if IsMagsw(toks) then
        if |toks| < 3 then Pairing([], true)
        else
          match FindPir(splits, 0, Lower(toks[2]))
          case Raised => Pairing([], true)
          case NoMatch => PairFrom(splits, i + 1)
          case Match(d2) =>
            var rest := PairFrom(splits, i + 1);
            Pairing([Location(toks[2], splits[i].0, d2)] + rest.found, rest.raised)
      else PairFrom(splits, i + 1)
  }

  function Pair(names: seq<(DeviceId, string)>): Pairing {
    PairFrom(SplitAll(names), 0)
  }

  /** A match is an inside motion sensor at that location, and the first one. */
  lemma {:induction false} FindPirMatch(splits: seq<(DeviceId, seq<string>)>, j: nat, loc: string)
    requires WellSplit(splits) && j <= |splits|
    ensures FindPir(splits, j, loc).Match? ==>
      exists k :: j <= k < |splits| && splits[k].0 == FindPir(splits, j, loc).d2 && PirInside(splits[k].1, loc)
        && forall k2 :: j <= k2 < k ==> !PirInside(splits[k2].1, loc)
    ensures FindPir(splits, j, loc).Raised? ==>
      exists k :: j <= k < |splits| && IsPir(splits[k].1)
        && (|splits[k].1| < 2 || (Lower(splits[k].1[1]) == "inside" && |splits[k].1| < 3))
        && forall k2 :: j <= k2 < k ==> !PirInside(splits[k2].1, loc)
    ensures FindPir(splits, j, loc).NoMatch? ==> forall k :: j <= k < |splits| ==> !PirInside(splits[k].1, loc)
    decreases |splits| - j
  {
    if j < |splits| {
      FindPirMatch(splits, j + 1, loc);
    }
  }

  /** Every doorway found joins a door contact with at least three name
      tokens to an inside motion sensor of the same location, ignoring case. */
  lemma {:induction false} PairedAreDoorways(splits: seq<(DeviceId, seq<string>)>, i: nat)
    requires WellSplit(splits) && i <= |splits|
    ensures forall l :: l in PairFrom(splits, i).found ==>
      && (exists m :: i <= m < |splits| && splits[m].0 == l.magsw && |splits[m].1| >= 3
            && IsMagsw(splits[m].1) && splits[m].1[2] == l.location)
      && (exists k :: 0 <= k < |splits| && splits[k].0 == l.ipir && PirInside(splits[k].1, Lower(l.location)))
    decreases |splits| - i
  {
    if i < |splits| {
      PairedAreDoorways(splits, i + 1);
      var toks := splits[i].1;
      if IsMagsw(toks) && |toks| >= 3 {
        FindPirMatch(splits, 0, Lower(toks[2]));
      }
    }
  }

  /** Unless an IndexError ended it, the search finds every door contact that
      has an inside motion sensor at its location. */
  lemma {:induction false} PairingIsComplete(splits: seq<(DeviceId, seq<string>)>, i: nat, m: nat, k: nat)
    requires WellSplit(splits) && i <= m < |splits| && k < |splits|
    requires !PairFrom(splits, i).raised
    requires |splits[m].1| >= 3 && IsMagsw(splits[m].1)
    requires PirInside(splits[k].1, Lower(splits[m].1[2]))
    ensures exists l :: l in PairFrom(splits, i).found && l.magsw == splits[m].0 && l.location == splits[m].1[2]
    decreases |splits| - i
  {
    var toks := splits[i].1;
    if i == m {
      FindPirMatch(splits, 0, Lower(toks[2]));
      var d2 := FindPir(splits, 0, Lower(toks[2])).d2;
      assert Location(toks[2], splits[i].0, d2) in PairFrom(splits, i).found;
    } else {
      PairingIsComplete(splits, i + 1, m, k);
      if IsMagsw(toks) && |toks| >= 3 {
        FindPirMatch(splits, 0, Lower(toks[2]));
      }
    }
  }

  /** The first loop of `initExits`: the `splits` dictionary. */
  method SplitNames(names: seq<(DeviceId, string)>) returns (splits: seq<(DeviceId, seq<string>)>)
    ensures splits == SplitAll(names)
  {
    splits := [];
    var n := 0;
    while n < |names|
      invariant 0 <= n <= |names|
      invariant splits == SplitAll(names[..n])
    {
      var toks := Split(names[n].1, ' ');
      if |toks| == 1 {
        toks := Split(names[n].1, '-');
      }
      splits := splits + [(names[n].0, toks)];
      n := n + 1;
      assert names[..n] == names[..n - 1] + [names[n - 1]];
    }
    assert names[..n] == names;
  }

  /** The inner loop of `initExits`, up to its `break` or IndexError. */
  method FindInsidePir(splits: seq<(DeviceId, seq<string>)>, location: string) returns (f: Found)
    requires WellSplit(splits)
    ensures f == FindPir(splits, 0, location)
  {
    var j := 0;
    while j < |splits|
      invariant 0 <= j <= |splits|
      invariant FindPir(splits, 0, location) == FindPir(splits, j, location)
    {
      var t2 := splits[j].1;
      if IsPir(t2) {
        if |t2| < 2 {
          return Raised;
        }
        if Lower(t2[1]) == "inside" {
          if |t2| < 3 {
            return Raised;
          }
          if Lower(t2[2]) == location {
            return Match(splits[j].0);
          }
        }
      }
      j := j + 1;
    }
    return NoMatch;
  }

  /** One step of the search past a name that is not a door contact. */
  lemma PairFromSkip(splits: seq<(DeviceId, seq<string>)>, i: nat)
    requires WellSplit(splits) && i < |splits| && !IsMagsw(splits[i].1)
    ensures PairFrom(splits, i) == PairFrom(splits, i + 1)
  {
  }

  /** One step of the search at a door contact, given the inner search's
      outcome `f` (`Raised` also stands for a contact name too short). */
  lemma PairFromContact(splits: seq<(DeviceId, seq<string>)>, i: nat, f: Found)
    requires WellSplit(splits) && i < |splits| && IsMagsw(splits[i].1)
    requires |splits[i].1| < 3 ==> f == Raised
    requires |splits[i].1| >= 3 ==> f == FindPir(splits, 0, Lower(splits[i].1[2]))
    ensures f == Raised ==> PairFrom(splits, i) == Pairing([], true)
    ensures f == NoMatch ==> PairFrom(splits, i) == PairFrom(splits, i + 1)
    ensures f.Match? ==>
      && |splits[i].1| >= 3
      && PairFrom(splits, i).found == [Location(splits[i].1[2], splits[i].0, f.d2)] + PairFrom(splits, i + 1).found
      && PairFrom(splits, i).raised == PairFrom(splits, i + 1).raised
  {
  }

  /** `initExits`' search: for each door contact, the first inside motion
      sensor of the same location. */
  method PairDoorways(names: seq<(DeviceId, string)>) returns (found: seq<Location>, raised: bool)
    ensures Pairing(found, raised) == Pair(names)
  {
    var splits := SplitNames(names);
    found, raised := PairSplits(splits);
  }

  /** The outer loop of the search, over the split names. */
  method PairSplits(splits: seq<(DeviceId, seq<string>)>) returns (found: seq<Location>, raised: bool)
    requires WellSplit(splits)
    ensures Pairing(found, raised) == PairFrom(splits, 0)
  {
    found, raised := [], false;
    var i := 0;
    while i < |splits|
      invariant 0 <= i <= |splits|
      invariant PairFrom(splits, 0).found == found + PairFrom(splits, i).found
      invariant PairFrom(splits, 0).raised == PairFrom(splits, i).raised
    {
      ghost var next := PairFrom(splits, i + 1);
      var stop, hit := PairAt(splits, i);
      if stop {
        raised := true;
        return;
      }
      if hit.Some? {
        assert found + ([hit.value] + next.found) == (found + [hit.value]) + next.found;
        found := found + [hit.value];
      }
      i := i + 1;
    }
  }

  /** One pass of the outer loop's body: whether an IndexError stops the
      search, and the doorway found at position `i`, if any. */
  method PairAt(splits: seq<(DeviceId, seq<string>)>, i: nat) returns (stop: bool, hit: Option<Location>)
    requires WellSplit(splits) && i < |splits|
    ensures stop ==> PairFrom(splits, i) == Pairing([], true)
    ensures !stop && hit.None? ==> PairFrom(splits, i) == PairFrom(splits, i + 1)
    ensures !stop && hit.Some? ==>
      && PairFrom(splits, i).found == [hit.value] + PairFrom(splits, i + 1).found
      && PairFrom(splits, i).raised == PairFrom(splits, i + 1).raised
  {
    stop, hit := false, None;
    var toks := splits[i].1;
    if IsMagsw(toks) {
      if |toks| < 3 {
        PairFromContact(splits, i, Raised);
        return true, None;
      }
      var f := FindInsidePir(splits, Lower(toks[2]));
      PairFromContact(splits, i, f);
      match f
      case Raised =>
        stop := true;
      case NoMatch =>
      case Match(d2) =>
        hit := Some(Location(toks[2], splits[i].0, d2));
    } else {
      PairFromSkip(splits, i);
    }
  }

  /** The ids `initExits` returns: door contact then motion sensor, per doorway. */
  function Devs(locs: seq<Location>): (r: seq<DeviceId>)
    ensures |r| == 2 * |locs|
    ensures forall k :: 0 <= k < |locs| ==> r[2 * k] == locs[k].magsw && r[2 * k + 1] == locs[k].ipir
    decreases |locs|
  {
    if locs == [] then [] else Devs(locs[..|locs| - 1]) + [locs[|locs| - 1].magsw, locs[|locs| - 1].ipir]
  }

  // ---------------------------------------------------------------------------
  // Forwarding sensor changes (EntryExit.onChange).

  /** The sensor changes one doorway's CheckExit receives for `devID`: the
      door contact is checked before the motion sensor. */
  function HitOf(l: Location, devID: DeviceId): seq<Sensor> {
    if devID == l.magsw then [Magsw] else if devID == l.ipir then [Ipir] else []
  }

  /** What the CheckExit stored under `key` receives, in order, when
      `onChange` walks `locs`. */
  function Hits(locs: seq<Location>, key: string, devID: DeviceId): seq<Sensor>
    decreases |locs|
  {
    if locs == [] then []
    else
      var l := locs[|locs| - 1];
      Hits(locs[..|locs| - 1], key, devID) + (if l.location == key then HitOf(l, devID) else [])
  }

  /** A doorway's CheckExit is told something exactly when one of the
      locations stored under its key names `devID` as a sensor. */
  lemma {:induction false} HitsIff(locs: seq<Location>, key: string, devID: DeviceId)
    ensures Hits(locs, key, devID) != [] <==>
      exists l :: l in locs && l.location == key && (devID == l.magsw || devID == l.ipir)
    decreases |locs|
  {
    if locs != [] {
      var init := locs[..|locs| - 1];
      HitsIff(init, key, devID);
      assert locs == init + [locs[|locs| - 1]];
      if exists l :: l in init && l.location == key && (devID == l.magsw || devID == l.ipir) {
        var l :| l in init && l.location == key && (devID == l.magsw || devID == l.ipir);
        assert l in locs;
      }
    }
  }

  /** Several `onChange` calls in a row with the same time and value. */
  function SenseAll(c: Exit, sensors: seq<Sensor>, t: real, value: string): Exit
    decreases |sensors|
  {
    if sensors == [] then c
    else Sense(SenseAll(c, sensors[..|sensors| - 1], t, value), sensors[|sensors| - 1], t, value)
  }

  lemma {:induction false} SenseAllAppend(c: Exit, s1: seq<Sensor>, s2: seq<Sensor>, t: real, value: string)
    ensures SenseAll(c, s1 + s2, t, value) == SenseAll(SenseAll(c, s1, t, value), s2, t, value)
    decreases |s2|
  {
    if s2 == [] {
      assert s1 + s2 == s1;
    } else {
      assert (s1 + s2)[..|s1 + s2| - 1] == s1 + s2[..|s2| - 1];
      SenseAllAppend(c, s1, s2[..|s2| - 1], t, value);
    }
  }

  /** The keys `initExits` gives the CheckExit dictionary. */
  function LocationKeys(locs: seq<Location>): (r: set<string>)
    ensures forall k :: 0 <= k < |locs| ==> locs[k].location in r
    decreases |locs|
  {
    if locs == [] then {} else LocationKeys(locs[..|locs| - 1]) + {locs[|locs| - 1].location}
  }

  /** The keys are exactly the doorways' locations. */
  lemma {:induction false} LocationKeysAreLocations(locs: seq<Location>)
    ensures forall key :: key in LocationKeys(locs) <==> exists k :: 0 <= k < |locs| && locs[k].location == key
    decreases |locs|
  {
    if locs != [] {
      var init := locs[..|locs| - 1];
      LocationKeysAreLocations(init);
      assert forall k :: 0 <= k < |init| ==> init[k] == locs[k];
    }
  }

  class EntryExit {
    const dm: DataManager
    var locations: seq<Location>
    var checkExit: map<string, CheckExit>

    /** Each CheckExit sits under its own location and shares the manager,
        so distinct keys hold distinct objects. */
    ghost predicate Valid()
      reads this, checkExit.Values
    {
      forall key :: key in checkExit ==> checkExit[key].location == key && checkExit[key].dm == dm
    }

    /** Every doorway has its CheckExit, as after a successful `initExits`. */
    predicate Ready()
      reads this
    {
      forall l :: l in locations ==> l.location in checkExit
    }

    constructor (dm: DataManager)
      ensures Valid() && this.dm == dm && locations == [] && checkExit == map[]
    {
      this.dm := dm;
      locations := [];
      checkExit := map[];
    }

    /** `initExits`: appends the doorways found; unless an IndexError ended
        the search, gives every doorway a new CheckExit (a later doorway with
        the same location replaces an earlier one's) and returns their ids. */
    method InitExits(names: seq<(DeviceId, string)>) returns (devs: seq<DeviceId>, raised: bool)
      requires Valid()
      modifies this
      ensures Valid()
      ensures raised == Pair(names).raised && locations == old(locations) + Pair(names).found
      ensures raised ==> checkExit == old(checkExit) && devs == []
      ensures !raised ==> Ready() && devs == Devs(locations)
      ensures !raised ==> checkExit.Keys == old(checkExit.Keys) + LocationKeys(locations)
      ensures !raised ==> forall key :: key in old(checkExit) && key !in LocationKeys(locations) ==>
        checkExit[key] == old(checkExit[key])
      ensures !raised ==> forall key :: key in LocationKeys(locations) ==>
        fresh(checkExit[key]) && checkExit[key].Snap() == Initial
    {
      var found;
      found, raised := PairDoorways(names);
      locations := locations + found;
      devs := [];
      if raised {
        return;
      }
      devs := CreateCheckExits();
    }

    /** The second loop of `initExits`. */
    method CreateCheckExits() returns (devs: seq<DeviceId>)
      requires Valid()
      modifies this
      ensures Valid() && Ready() && locations == old(locations) && devs == Devs(locations)
      ensures checkExit.Keys == old(checkExit.Keys) + LocationKeys(locations)
      ensures forall key :: key in old(checkExit) && key !in LocationKeys(locations) ==> checkExit[key] == old(checkExit[key])
      ensures forall key :: key in LocationKeys(locations) ==> fresh(checkExit[key]) && checkExit[key].Snap() == Initial
    {
      devs := [];
      var i := 0;
      while i < |locations|
        invariant 0 <= i <= |locations|
        invariant Valid() && locations == old(locations)
        invariant devs == Devs(locations[..i])
        invariant checkExit.Keys == old(checkExit.Keys) + LocationKeys(locations[..i])
        invariant forall key :: key in old(checkExit) && key !in LocationKeys(locations[..i]) ==> checkExit[key] == old(checkExit[key])
        invariant forall key :: key in LocationKeys(locations[..i]) ==> fresh(checkExit[key]) && checkExit[key].Snap() == Initial
      {
        var l := locations[i];
        ghost var before := checkExit;
        var ce := new CheckExit(l.location, dm);
        checkExit := checkExit[l.location := ce];
        devs := devs + [l.magsw, l.ipir];
        assert locations[..i + 1][..i] == locations[..i];
        assert LocationKeys(locations[..i + 1]) == LocationKeys(locations[..i]) + {l.location};
        forall key | key in LocationKeys(locations[..i + 1])
          ensures fresh(checkExit[key]) && checkExit[key].Snap() == Initial
        {
          if key != l.location {
            assert checkExit[key] == before[key];
          }
        }
        i := i + 1;
      }
      assert locations[..i] == locations;
      forall l | l in locations
        ensures l.location in checkExit
      {
        var k :| 0 <= k < |locations| && locations[k] == l;
      }
    }

    /** `onChange`: every doorway naming `devID` passes the change to its
        CheckExit, in the order of `locations`. */
    method OnChange(devID: DeviceId, t: real, value: string)
      requires Valid() && Ready()
      modifies checkExit.Values
      ensures forall key :: key in checkExit ==>
        checkExit[key].Snap() == SenseAll(old(checkExit[key].Snap()), Hits(locations, key, devID), t, value)
    {
      var i := 0;
      while i < |locations|
        invariant 0 <= i <= |locations|
        invariant forall key :: key in checkExit ==>
          checkExit[key].Snap() == SenseAll(old(checkExit[key].Snap()), Hits(locations[..i], key, devID), t, value)
      {
        var l := locations[i];
        assert locations[..i + 1][..i] == locations[..i];
        assert locations[..i + 1][i] == l;
        ForwardTo(l, devID, t, value);
        forall key | key in checkExit
          ensures checkExit[key].Snap() == SenseAll(old(checkExit[key].Snap()), Hits(locations[..i + 1], key, devID), t, value)
        {
          var part := if l.location == key then HitOf(l, devID) else [];
          assert Hits(locations[..i + 1], key, devID) == Hits(locations[..i], key, devID) + part;
          SenseAllAppend(old(checkExit[key].Snap()), Hits(locations[..i], key, devID), part, t, value);
        }
        i := i + 1;
      }
      assert locations[..i] == locations;
    }

    /** One doorway of `onChange`'s loop: the door contact is checked before
        the motion sensor, and only that doorway's CheckExit changes. */
    method ForwardTo(l: Location, devID: DeviceId, t: real, value: string)
      requires Valid() && l.location in checkExit
      modifies checkExit.Values
      ensures forall key :: key in checkExit ==>
        checkExit[key].Snap() == SenseAll(old(checkExit[key].Snap()), if key == l.location then HitOf(l, devID) else [], t, value)
    {
      if devID == l.magsw {
        checkExit[l.location].OnChange(Magsw, t, value);
        assert [Magsw][..0] == [];
      } else if devID == l.ipir {
        checkExit[l.location].OnChange(Ipir, t, value);
        assert [Ipir][..0] == [];
      }
    }
  }
}
