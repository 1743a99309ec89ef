/** The connection slot table `ble_peri_slots` of ble/ble.c and
    app/ble.c: a fixed number of slots, each owning a TMOS task, that are
    taken by a link when it is established and given back when it ends; the
    lookups over it; and the two link handlers of the GAP state callback. */
module SlotTable {
  import opened Common
  import opened Tmos
  import opened Events

  /** `STATE_DEV_CONNECTED`, the only state bit the firmware sets. */
  const STATE_DEV_CONNECTED: uint16 := 1
  /** `GAP_CONNHANDLE_INIT`: the handle of a slot with no link. */
  const GAP_CONNHANDLE_INIT: uint16 := 0xFFFE
  /** Largest handle a link layer connection can have (Bluetooth Core
      Specification v5.x, Vol 4, Part E, section 5.4.2: 0x0000 to 0x0EFF). */
  const MAX_CONN_HANDLE: nat := 0x0EFF

  /** `struct ble_peri_slot` without the two console FIFOs, which
      ble_state.dfy keeps beside the table. */
  datatype Slot = Slot(state: uint16, taskID: byte, connHandle: uint16,
                       periodicCnt: uint32, periodicDelay: uint32)

  /** What a lookup looks for. */
  datatype Key = FreeSlot | ConnHandle(handle: int) | TaskId(task: int)

  predicate Matches(s: Slot, key: Key)
  {
    match key
    case FreeSlot => s.state == 0
    case ConnHandle(h) => s.connHandle == h
    case TaskId(t) => s.taskID == t
  }

  /** The index the scans return: the lowest slot matching `key`, or -1. */
  function FirstMatch(s: seq<Slot>, key: Key): (r: int)
    ensures -1 <= r < |s|
    ensures r >= 0 ==> Matches(s[r], key) && forall j :: 0 <= j < r ==> !Matches(s[j], key)
    ensures r < 0 <==> forall j :: 0 <= j < |s| ==> !Matches(s[j], key)
  {
    if |s| == 0 then -1
    else if Matches(s[0], key) then 0
    else
      var r := FirstMatch(s[1..], key);
      if r < 0 then -1 else r + 1
  }

  /** 1 for an occupied slot, 0 for a free one. */
  function Occupied(s: Slot): nat
  {
    if s.state != 0 then 1 else 0
  }

  /** The number of occupied slots. */
  function CountUsed(s: seq<Slot>): (n: nat)
    ensures n <= |s|
  {
    if |s| == 0 then 0 else CountUsed(s[..|s| - 1]) + Occupied(s[|s| - 1])
  }

  /** Every slot is in use exactly when the count reaches the table size,
      and none is exactly when it is zero. */
  lemma {:induction false} CountUsedExtremes(s: seq<Slot>)
    ensures CountUsed(s) == |s| <==> forall j :: 0 <= j < |s| ==> s[j].state != 0
    ensures CountUsed(s) == 0 <==> forall j :: 0 <= j < |s| ==> s[j].state == 0
  {
    if |s| > 0 {
      var p := s[..|s| - 1];
      CountUsedExtremes(p);
      assert forall j :: 0 <= j < |p| ==> p[j] == s[j];
    }
  }

  /** The table is full, by `ble_peri_slots_is_full`'s scan for a free
      slot, exactly when `ble_peri_slots_used` reports every slot in use. */
  lemma FullIffAllUsed(s: seq<Slot>)
    ensures FirstMatch(s, FreeSlot) < 0 <==> CountUsed(s) == |s|
  {
    CountUsedExtremes(s);
  }

  /** The handles of the links the table holds. */
  function Links(s: seq<Slot>): set<int>
  {
    if |s| == 0 then {}
    else Links(s[..|s| - 1]) + (if s[|s| - 1].state != 0 then {s[|s| - 1].connHandle} else {})
  }

  /** No two occupied slots hold the same link. */
  predicate DistinctLinks(s: seq<Slot>)
  {
    forall i, j :: 0 <= i < j < |s| && s[i].state != 0 && s[j].state != 0 ==> s[i].connHandle != s[j].connHandle
  }

  /** A handle is a link of the table exactly when an occupied slot holds it. */
  lemma {:induction false} LinksHaveSlots(s: seq<Slot>, h: int)
    ensures h in Links(s) <==> exists j :: 0 <= j < |s| && s[j].state != 0 && s[j].connHandle == h
  {
    if |s| > 0 {
      var p := s[..|s| - 1];
      LinksHaveSlots(p, h);
      if h in Links(p) {
        var j :| 0 <= j < |p| && p[j].state != 0 && p[j].connHandle == h;
        assert s[j] == p[j];
      }
      if j :| 0 <= j < |s| - 1 && s[j].state != 0 && s[j].connHandle == h {
        assert p[j] == s[j];
      }
    }
  }

  /** A handle no occupied slot holds is not a link. */
  lemma NotInLinks(s: seq<Slot>, h: int)
    requires forall j :: 0 <= j < |s| && s[j].state != 0 ==> s[j].connHandle != h
    ensures h !in Links(s)
  {
    LinksHaveSlots(s, h);
  }

  /** With every link in one slot only, the count of occupied slots is the
      number of live links: what `ble_peri_slots_used` reports is how many
      centrals are connected. */
  lemma {:induction false} UsedCountsLinks(s: seq<Slot>)
    requires DistinctLinks(s)
    ensures |Links(s)| == CountUsed(s)
  {
    if |s| > 0 {
      var p := s[..|s| - 1];
      assert DistinctLinks(p);
      UsedCountsLinks(p);
      var last := s[|s| - 1];
      if last.state != 0 {
        NotInLinks(p, last.connHandle) by {
          forall j | 0 <= j < |p| && p[j].state != 0
            ensures p[j].connHandle != last.connHandle
          {
            assert s[j] == p[j];
          }
        }
      }
    }
  }

  /** Replacing one slot changes the count by the difference in occupancy. */
  lemma {:induction false} CountUsedUpdate(s: seq<Slot>, i: int, v: Slot)
    requires 0 <= i < |s|
    ensures CountUsed(s[i := v]) == CountUsed(s) - Occupied(s[i]) + Occupied(v)
  {
    var t := s[i := v];
    if i < |s| - 1 {
      CountUsedUpdate(s[..|s| - 1], i, v);
      assert t[..|t| - 1] == s[..|s| - 1][i := v];
    } else {
      assert t[..|t| - 1] == s[..|s| - 1];
    }
  }

  /** Giving a free slot to link `h` adds `h` to the links. */
  lemma {:induction false} LinksTake(s: seq<Slot>, i: int, v: Slot)
    requires 0 <= i < |s| && s[i].state == 0 && v.state != 0
    ensures Links(s[i := v]) == Links(s) + {v.connHandle}
  {
    var t := s[i := v];
    if i < |s| - 1 {
      LinksTake(s[..|s| - 1], i, v);
      assert t[..|t| - 1] == s[..|s| - 1][i := v];
    } else {
      assert t[..|t| - 1] == s[..|s| - 1];
    }
  }

  /** Freeing the only slot that holds `h` removes `h` from the links. */
  lemma {:induction false} LinksRelease(s: seq<Slot>, i: int, v: Slot)
    requires 0 <= i < |s| && DistinctLinks(s) && v.state == 0
    ensures Links(s[i := v]) == Links(s) - (if s[i].state != 0 then {s[i].connHandle} else {})
  {
    var t := s[i := v];
    var p := s[..|s| - 1];
    if i < |s| - 1 {
      assert DistinctLinks(p);
      LinksRelease(p, i, v);
      assert t[..|t| - 1] == p[i := v];
      var last := s[|s| - 1];
      if last.state != 0 && s[i].state != 0 {
        assert last.connHandle != s[i].connHandle;
      }
    } else {
      assert t[..|t| - 1] == p;
      if s[i].state != 0 {
        NotInLinks(p, s[i].connHandle) by {
          forall j | 0 <= j < |p| && p[j].state != 0
            ensures p[j].connHandle != s[i].connHandle
          {
            assert s[j] == p[j];
          }
        }
      }
    }
  }

  /** What every slot satisfies between callbacks: it is free with no
      handle, or connected with a real link handle. */
  predicate SlotOk(s: Slot)
  {
    && (s.state == 0 || s.state == STATE_DEV_CONNECTED)
    && (s.state == 0 ==> s.connHandle == GAP_CONNHANDLE_INIT)
    && (s.state != 0 ==> s.connHandle <= MAX_CONN_HANDLE)
  }

  /** The table invariant: at least one slot, every slot well formed, and no
      link in two slots. */
  predicate TableOk(s: seq<Slot>)
  {
    && |s| > 0
    && (forall i :: 0 <= i < |s| ==> SlotOk(s[i]))
    && DistinctLinks(s)
  }

  /** A slot as `Peripheral_Init` leaves it: zeroed, with its own task and no link. */
  function InitialSlot(task: byte): Slot
  {
    Slot(0, task, GAP_CONNHANDLE_INIT, 0, 0)
  }

  /** A free slot taken by link `h`: `state |= STATE_DEV_CONNECTED` on a
      state of 0, and the handle recorded. */
  function Take(s: Slot, h: uint16): Slot
  {
    s.(state := STATE_DEV_CONNECTED, connHandle := h)
  }

  /** A slot given back: state 0 and no handle; its TMOS task, the periodic
      counter and the periodic delay stay as they were. */
  function Release(s: Slot): Slot
  {
    s.(state := 0, connHandle := GAP_CONNHANDLE_INIT)
  }

  /** Tasks armed for a new link on its slot's task: the parameter update,
      the PHY update and the first RSSI read. */
  function ArmNewLink(task: byte): seq<Effect>
  {
    [StartTask(task, PARAM_UPDATE_EVT, PARAM_UPDATE_DELAY),
     StartTask(task, PHY_UPDATE_EVT, PHY_UPDATE_DELAY),
     StartTask(task, READ_RSSI_EVT, PERIOD_READ_RSSI)]
  }

  /** A handle that is not a live link is in no occupied slot. */
  lemma LinkHandleIsNew(s: seq<Slot>, h: int)
    requires h !in Links(s)
    ensures forall j :: 0 <= j < |s| && s[j].state != 0 ==> s[j].connHandle != h
  {
    forall j | 0 <= j < |s| && s[j].state != 0
      ensures s[j].connHandle != h
    {
      LinksHaveSlots(s, h);
    }
  }

  /** Giving a free slot to a new link keeps the table invariant, uses one
      more slot and adds exactly that link. */
  lemma TakeKeepsTable(s: seq<Slot>, i: int, h: uint16)
    requires TableOk(s) && 0 <= i < |s| && s[i].state == 0
    requires h <= MAX_CONN_HANDLE && h !in Links(s)
    ensures TableOk(s[i := Take(s[i], h)])
    ensures CountUsed(s[i := Take(s[i], h)]) == CountUsed(s) + 1
    ensures Links(s[i := Take(s[i], h)]) == Links(s) + {h}
  {
    var t := s[i := Take(s[i], h)];
    LinkHandleIsNew(s, h);
    assert DistinctLinks(t) by {
      forall a, b | 0 <= a < b < |t| && t[a].state != 0 && t[b].state != 0
        ensures t[a].connHandle != t[b].connHandle
      {
        if a != i && b != i {
          assert t[a] == s[a] && t[b] == s[b];
        }
      }
    }
    CountUsedUpdate(s, i, Take(s[i], h));
    LinksTake(s, i, Take(s[i], h));
  }

  /** Freeing a slot keeps the table invariant, uses one slot fewer if it
      was occupied, and drops its handle from the links. */
  lemma ReleaseKeepsTable(s: seq<Slot>, i: int)
    requires TableOk(s) && 0 <= i < |s|
    ensures TableOk(s[i := Release(s[i])])
    ensures CountUsed(s[i := Release(s[i])]) == CountUsed(s) - Occupied(s[i])
    ensures Links(s[i := Release(s[i])]) == Links(s) - {s[i].connHandle}
  {
    var t := s[i := Release(s[i])];
    assert DistinctLinks(t) by {
      forall a, b | 0 <= a < b < |t| && t[a].state != 0 && t[b].state != 0
        ensures t[a].connHandle != t[b].connHandle
      {
        assert t[a] == s[a] && t[b] == s[b];
      }
    }
    CountUsedUpdate(s, i, Release(s[i]));
    LinksRelease(s, i, Release(s[i]));
    if s[i].state == 0 {
      NotInLinks(s, GAP_CONNHANDLE_INIT);
    }
  }

  /** Rewriting a slot's periodic fields keeps its state and handle, so the
      table invariant, the count and the links stay as they were. */
  lemma SameLinkKeepsTable(s: seq<Slot>, i: int, v: Slot)
    requires TableOk(s) && 0 <= i < |s|
    requires v.state == s[i].state && v.connHandle == s[i].connHandle
    ensures TableOk(s[i := v])
    ensures CountUsed(s[i := v]) == CountUsed(s)
    ensures Links(s[i := v]) == Links(s)
  {
    var t := s[i := v];
    assert DistinctLinks(t) by {
      forall a, b | 0 <= a < b < |t| && t[a].state != 0 && t[b].state != 0
        ensures t[a].connHandle != t[b].connHandle
      {
        assert s[a].state != 0 && s[b].state != 0;
      }
    }
    CountUsedUpdate(s, i, v);
    forall h
      ensures h in Links(t) <==> h in Links(s)
    {
      LinksHaveSlots(s, h);
      LinksHaveSlots(t, h);
      if j :| 0 <= j < |t| && t[j].state != 0 && t[j].connHandle == h {
        assert s[j].state != 0 && s[j].connHandle == h;
      }
      if j :| 0 <= j < |s| && s[j].state != 0 && s[j].connHandle == h {
        assert t[j].state != 0 && t[j].connHandle == h;
      }
    }
  }

  /** Looking up an occupied slot's own handle finds that slot: free slots
      hold a handle no link can have, and no other occupied slot holds it. So
      the periodic task of a connected slot, which looks its slot up by
      handle, always counts on its own slot. */
  lemma OwnHandleFindsOwnSlot(s: seq<Slot>, k: int)
    requires TableOk(s) && 0 <= k < |s| && s[k].state != 0
    ensures FirstMatch(s, ConnHandle(s[k].connHandle)) == k
  {
  }

  /** A lookup by handle finds the same slot after a rewrite that keeps
      every handle. */
  lemma FirstMatchKeepsHandles(s: seq<Slot>, i: int, v: Slot, h: int)
    requires 0 <= i < |s| && v.connHandle == s[i].connHandle
    ensures FirstMatch(s[i := v], ConnHandle(h)) == FirstMatch(s, ConnHandle(h))
  {
    var t := s[i := v];
    assert forall j :: 0 <= j < |s| ==> (Matches(t[j], ConnHandle(h)) <==> Matches(s[j], ConnHandle(h)));
  }

  /** One tick of the 0.625 ms TMOS clock and one unit of connection interval,
      in microseconds. */
  const TICK_US: nat := 625
  const INTERVAL_UNIT_US: nat := 1250

  /** The periodic delay of ble/ble.c, `interval + (interval >> 1)` ticks:
      three quarters of the connection interval, rounded down to a whole
      tick; never 0 for a real interval. */
  function BleDelay(interval: uint16): (d: uint32)
    ensures 4 * d * TICK_US <= 3 * interval * INTERVAL_UNIT_US < 4 * (d + 1) * TICK_US
    ensures interval > 0 ==> d > 0
  {
    interval + interval / 2
  }

  /** The periodic delay of app/ble.c, `interval * 2 + 1` ticks: one
      connection interval and one tick more; never 0. */
  function AppDelay(interval: uint16): (d: uint32)
    ensures d * TICK_US == interval * INTERVAL_UNIT_US + TICK_US
    ensures d > 0
  {
    interval * 2 + 1
  }

  /** The timers `peripheralParamUpdateCB` arms on a slot's task: a new
      parameter update request exactly when the central chose an interval
      outside the range the device asks for, and in every case the periodic
      task after `delay` ticks. */
  function ParamUpdateTimers(task: byte, interval: uint16, delay: uint32): (r: seq<Effect>)
    ensures 1 <= |r| <= 2 && r[|r| - 1] == StartTask(task, PERIODIC_EVT, delay)
    ensures |r| == 2 <==> !(CONNECTION_INTERVAL_MIN <= interval <= CONNECTION_INTERVAL_MAX)
    ensures |r| == 2 ==> r[0] == StartTask(task, PARAM_UPDATE_EVT, PARAM_UPDATE_DELAY)
  {
    (if interval < CONNECTION_INTERVAL_MIN || interval > CONNECTION_INTERVAL_MAX
     then [StartTask(task, PARAM_UPDATE_EVT, PARAM_UPDATE_DELAY)] else [])
    + [StartTask(task, PERIODIC_EVT, delay)]
  }

  /** A 32-bit counter incremented by one, wrapping to 0. */
  function Inc32(x: uint32): (y: uint32)
    ensures x < 0xFFFF_FFFF ==> y == x + 1
    ensures x == 0xFFFF_FFFF ==> y == 0
  {
    (x + 1) % 0x1_0000_0000
  }

  class ConnTable {
    const slots: array<Slot>
    /** The stack the handlers call into. */
    const engine: Engine

    ghost predicate Valid()
      reads this, slots
    {
      TableOk(slots[..])
    }

    /** The slot part of the initialisation loop of `Peripheral_Init`: one
        slot per registered task, in order. */
    constructor (tasks: seq<byte>, engine: Engine)
      requires |tasks| > 0
      ensures Valid() && fresh(slots) && this.engine == engine
      ensures slots[..] == seq(|tasks|, i requires 0 <= i < |tasks| => InitialSlot(tasks[i]))
    {
      var a := new Slot[|tasks|](_ => Slot(0, 0, 0, 0, 0));
      var i := 0;
      while i < a.Length
        invariant 0 <= i <= a.Length
        invariant forall j :: 0 <= j < i ==> a[j] == InitialSlot(tasks[j])
        invariant forall j :: i <= j < a.Length ==> a[j] == Slot(0, 0, 0, 0, 0)
      {
        a[i] := a[i].(taskID := tasks[i], connHandle := GAP_CONNHANDLE_INIT);
        i := i + 1;
      }
      slots := a;
      this.engine := engine;
    }

    /** The loop the scans share: the first slot matching `key`, or -1. */
    method Find(key: Key) returns (r: int)
      ensures r == FirstMatch(slots[..], key)
    {
      var i := 0;
      while i < slots.Length
        invariant 0 <= i <= slots.Length
        invariant forall j :: 0 <= j < i ==> !Matches(slots[j], key)
      {
        if Matches(slots[i], key) {
          return i;
        }
        i := i + 1;
      }
      return -1;
    }

    /** `ble_peri_slots_find_free`. */
    method FindFree() returns (r: int)
      ensures r == FirstMatch(slots[..], FreeSlot)
    {
      r := Find(FreeSlot);
    }

    /** `ble_peri_slots_find_by_connHandle`: looks at the handle only, not
        at the state. */
    method FindByConnHandle(h: int) returns (r: int)
      ensures r == FirstMatch(slots[..], ConnHandle(h))
    {
      r := Find(ConnHandle(h));
    }

    /** `ble_peri_slots_find_by_taskID`. */
    method FindByTaskID(t: int) returns (r: int)
      ensures r == FirstMatch(slots[..], TaskId(t))
    {
      r := Find(TaskId(t));
    }

    /** `ble_peri_slots_is_full`: no slot is free. */
    method IsFull() returns (full: bool)
      ensures full <==> CountUsed(slots[..]) == slots.Length
    {
      var r := Find(FreeSlot);
      full := r < 0;
      FullIffAllUsed(slots[..]);
    }

    /** `ble_peri_slots_used`. */
    method Used() returns (n: nat)
      ensures n == CountUsed(slots[..])
    {
      n := 0;
      var i := 0;
      while i < slots.Length
        invariant 0 <= i <= slots.Length
        invariant n == CountUsed(slots[..i])
      {
        assert slots[..i + 1][..i] == slots[..i];
        if slots[i].state != 0 {
          n := n + 1;
        }
        i := i + 1;
      }
      assert slots[..i] == slots[..];
    }

    /** `ble_peri_slots_free`. */
    method FreeCount() returns (n: nat)
      ensures n == slots.Length - CountUsed(slots[..])
    {
      var used := Used();
      n := slots.Length - used;
    }

    /** `Peripheral_LinkEstablished` for a link with handle `h`: with every
        slot taken the link is refused; otherwise the first free slot takes
        it and its task arms the parameter update, PHY update and RSSI timers.
        One more slot is in use and `h` joins the live links. */
    method LinkEstablished(h: uint16)
      requires Valid() && h <= MAX_CONN_HANDLE && h !in Links(slots[..])
      modifies slots, engine
      ensures Valid()
      ensures FirstMatch(old(slots[..]), FreeSlot) < 0 ==>
          && slots[..] == old(slots[..])
          && engine.log == old(engine.log) + [TerminateLink(h)]
      ensures var i := FirstMatch(old(slots[..]), FreeSlot);
        i >= 0 ==>
          && slots[..] == old(slots[..])[i := Take(old(slots[i]), h)]
          && engine.log == old(engine.log) + ArmNewLink(old(slots[i]).taskID)
      ensures FirstMatch(old(slots[..]), FreeSlot) >= 0 ==>
          && CountUsed(slots[..]) == CountUsed(old(slots[..])) + 1
          && Links(slots[..]) == Links(old(slots[..])) + {h}
    {
      ghost var s0 := slots[..];
      var full := IsFull();
      FullIffAllUsed(s0);
      if full {
        engine.Request(TerminateLink(h));
        return;
      }
      var i := FindFree();
      assert 0 <= i < |s0| && s0[i].state == 0;
      TakeKeepsTable(s0, i, h);
      var task := slots[i].taskID;
      slots[i] := Take(slots[i], h);
      assert slots[..] == s0[i := Take(s0[i], h)];
      engine.Request(StartTask(task, PARAM_UPDATE_EVT, PARAM_UPDATE_DELAY));
      engine.Request(StartTask(task, PHY_UPDATE_EVT, PHY_UPDATE_DELAY));
      engine.Request(StartTask(task, READ_RSSI_EVT, PERIOD_READ_RSSI));
    }

    /** `Peripheral_LinkTerminated` for handle `h`: an unknown handle changes
        nothing; otherwise the slot's periodic task is stopped, the slot is
        freed (its task, counter and delay stay), and advertising is switched
        on again, which always happens since a slot has just been freed. */
    method LinkTerminated(h: int)
      requires Valid()
      modifies slots, engine
      ensures Valid()
      ensures FirstMatch(old(slots[..]), ConnHandle(h)) < 0 ==>
          && slots[..] == old(slots[..])
          && engine.log == old(engine.log)
      ensures var i := FirstMatch(old(slots[..]), ConnHandle(h));
        i >= 0 ==>
          && slots[..] == old(slots[..])[i := Release(old(slots[i]))]
          && engine.log == old(engine.log) + [StopTask(old(slots[i]).taskID, PERIODIC_EVT), EnableAdvertising]
      ensures var i := FirstMatch(old(slots[..]), ConnHandle(h));
        i >= 0 ==>
          && CountUsed(slots[..]) == CountUsed(old(slots[..])) - Occupied(old(slots[i]))
          && Links(slots[..]) == Links(old(slots[..])) - {h}
    {
      var i := FindByConnHandle(h);
      if i < 0 {
        return;
      }
      ReleaseKeepsTable(slots[..], i);
      engine.Request(StopTask(slots[i].taskID, PERIODIC_EVT));
      slots[i] := Release(slots[i]);
      CountUsedExtremes(slots[..]);
      var free := FreeCount();
      if free > 0 {
        engine.Request(EnableAdvertising);
      }
    }

    /** `peripheralParamUpdateCB` for link `conn` with the new interval, once
        the variant has turned it into a periodic delay: the slot records the
        delay, its task gets the timers of `ParamUpdateTimers`, and nothing
        else changes. The callback does not check its lookup, so it needs a
        slot holding `conn`. */
    method ParamUpdate(conn: int, interval: uint16, delay: uint32)
      requires Valid() && FirstMatch(slots[..], ConnHandle(conn)) >= 0
      modifies slots, engine
      ensures Valid()
      ensures var i := FirstMatch(old(slots[..]), ConnHandle(conn));
        && slots[..] == old(slots[..])[i := old(slots[i]).(periodicDelay := delay)]
        && engine.log == old(engine.log) + ParamUpdateTimers(old(slots[i]).taskID, interval, delay)
      ensures Links(slots[..]) == Links(old(slots[..])) && CountUsed(slots[..]) == CountUsed(old(slots[..]))
    {
      var i := FindByConnHandle(conn);
      SameLinkKeepsTable(slots[..], i, slots[i].(periodicDelay := delay));
      var task := slots[i].taskID;
      if interval < CONNECTION_INTERVAL_MIN || interval > CONNECTION_INTERVAL_MAX {
        engine.Request(StartTask(task, PARAM_UPDATE_EVT, PARAM_UPDATE_DELAY));
      }
      slots[i] := slots[i].(periodicDelay := delay);
      engine.Request(StartTask(task, PERIODIC_EVT, delay));
    }

    /** The counting step of `performPeriodicTask`: the periodic counter of
        the first slot holding `h` goes up by one, wrapping at 2^32. */
    method Tick(h: int)
      requires Valid() && FirstMatch(slots[..], ConnHandle(h)) >= 0
      modifies slots
      ensures Valid()
      ensures var i := FirstMatch(old(slots[..]), ConnHandle(h));
        slots[..] == old(slots[..])[i := old(slots[i]).(periodicCnt := Inc32(old(slots[i]).periodicCnt))]
      ensures Links(slots[..]) == Links(old(slots[..])) && CountUsed(slots[..]) == CountUsed(old(slots[..]))
    {
      var i := FindByConnHandle(h);
      SameLinkKeepsTable(slots[..], i, slots[i].(periodicCnt := Inc32(slots[i].periodicCnt)));
      slots[i] := slots[i].(periodicCnt := Inc32(slots[i].periodicCnt));
    }
  }
}
