/** The TMOS-task side of ble/ble.c: the connection-interval callback, the
    periodic task and the two event handlers TMOS calls, over the state of
    `BleState.Peripheral`. */
module BleEvents {
  import opened Common
  import opened Tmos
  import opened Events
  import opened Att
  import opened SlotTable
  import opened Dispatch
  import opened BleState
  import opened ConsoleService
  import opened SysInfoService

  /** What the handlers learn from outside the application while serving an
      event: the system clock, the client configurations the stack holds
      for the link served (system clock and console), the compile-time
      `ATT_MTU_SIZE`, and what the stack answers to a notification. */
  datatype Env = Env(clock: uint32, clockCcc: uint16, consoleCcc: uint16, attMtuSize: nat, sendStatus: Status)

  /** `peripheralParamUpdateCB`: the slot of link `conn` takes a periodic
      delay of three quarters of the new interval (`BleDelay`), and the
      timers of `ParamUpdateTimers` are armed on its task. */
  method ParamUpdateCB(p: Peripheral, conn: uint16, interval: uint16)
    requires p.Valid() && FirstMatch(p.table.slots[..], ConnHandle(conn)) >= 0
    modifies p.table.slots, p.table.engine
    ensures p.Valid()
    ensures var i := FirstMatch(old(p.table.slots[..]), ConnHandle(conn));
      && p.table.slots[..] == old(p.table.slots[..])[i := old(p.table.slots[i]).(periodicDelay := BleDelay(interval))]
      && p.table.engine.log == old(p.table.engine.log) + ParamUpdateTimers(old(p.table.slots[i]).taskID, interval, BleDelay(interval))
  {
    p.table.ParamUpdate(conn, interval, BleDelay(interval));
  }

  /** `performPeriodicTask` for link `conn`: the counter of its slot goes up
      (wrapping at 2^32), the clock is notified if the client asked for it,
      then the console output goes out as `NotifyStep` says. */
  method PeriodicTask(p: Peripheral, conn: uint16, env: Env)
    requires p.Valid() && env.attMtuSize >= 4
    requires FirstMatch(p.table.slots[..], ConnHandle(conn)) >= 0
    modifies p.table.slots, p.table.engine, p.tx
    ensures p.Valid()
    ensures forall j :: 0 <= j < |p.rx| ==> p.rx[j].Contents == old(p.rx[j].Contents)
    ensures var i := FirstMatch(old(p.table.slots[..]), ConnHandle(conn));
      && p.table.slots[..] == old(p.table.slots[..])[i := old(p.table.slots[i]).(periodicCnt := Inc32(old(p.table.slots[i]).periodicCnt))]
      && (forall j :: 0 <= j < |p.tx| && j != i ==> p.tx[j].Contents == old(p.tx[j].Contents))
      && var (effects, q) := NotifyStep(old(SlotQueues(p, i)), conn, env.consoleCcc, env.attMtuSize);
         && p.tx[i].Contents == q.tx
         && p.table.engine.log == old(p.table.engine.log) + ClockEffects(conn, SYSCLOCK_UUID, env.clockCcc, env.clock) + effects
  {
    ghost var s0 := p.table.slots[..];
    ghost var i := FirstMatch(s0, ConnHandle(conn));
    p.table.Tick(conn);
    FirstMatchKeepsHandles(s0, i, s0[i].(periodicCnt := Inc32(s0[i].periodicCnt)), conn);
    ClockNotify(p.table.engine, conn, SYSCLOCK_UUID, env.clockCcc, env.clock, env.sendStatus);
    RnwNotify(p, conn, env.consoleCcc, env.attMtuSize, env.sendStatus);
  }

  /** The periodic event of slot `k`: re-arm it, then run the periodic
      task on the slot's link, which looks its slot up again by handle
      (the same slot when it is connected, see `OwnHandleFindsOwnSlot`). */
  method ServePeriodic(p: Peripheral, k: int, env: Env)
    requires p.Valid() && env.attMtuSize >= 4 && 0 <= k < p.table.slots.Length
    modifies p.table.slots, p.table.engine, p.tx
    ensures p.Valid()
    ensures forall j :: 0 <= j < |p.rx| ==> p.rx[j].Contents == old(p.rx[j].Contents)
    ensures var conn := old(p.table.slots[k]).connHandle;
      var i := FirstMatch(old(p.table.slots[..]), ConnHandle(conn));
      && 0 <= i <= k
      && p.table.slots[..] == old(p.table.slots[..])[i := old(p.table.slots[i]).(periodicCnt := Inc32(old(p.table.slots[i]).periodicCnt))]
      && (forall j :: 0 <= j < |p.tx| && j != i ==> p.tx[j].Contents == old(p.tx[j].Contents))
      && var (effects, q) := NotifyStep(old(SlotQueues(p, i)), conn, env.consoleCcc, env.attMtuSize);
         && p.tx[i].Contents == q.tx
         && p.table.engine.log == old(p.table.engine.log) + PeriodicRearm(old(p.table.slots[k]))
                                  + ClockEffects(conn, SYSCLOCK_UUID, env.clockCcc, env.clock) + effects
  {
    RearmPeriodic(p.table, k);
    var conn := p.table.slots[k].connHandle;
    PeriodicTask(p, conn, env);
  }

  /** A timer event `e` on slot `k`: the requests of `TimerRequests`, and
      no change to the table or the FIFOs. */
  method ServeTimer(p: Peripheral, k: int, e: bv16)
    requires p.Valid() && 0 <= k < p.table.slots.Length && TimerEvent(e)
    modifies p.table.engine
    ensures p.Valid()
    ensures p.table.slots[..] == old(p.table.slots[..])
    ensures forall j :: 0 <= j < |p.rx| ==> p.rx[j].Contents == old(p.rx[j].Contents)
    ensures forall j :: 0 <= j < |p.tx| ==> p.tx[j].Contents == old(p.tx[j].Contents)
    ensures p.table.engine.log == old(p.table.engine.log) + TimerRequests(old(p.table.slots[k]), e)
  {
    if e == FORTH_EVT {
      ServeForth(p.table, k);
    } else {
      ServeLinkEvent(p.table, k, e);
    }
  }

  /** Slot `k` serves the event at position `n` of `BLE_CONNECT_ORDER`:
      the periodic event (position 3) as `ServePeriodic`, any other as
      `ServeTimer`. */
  method ServeEvent(p: Peripheral, k: int, n: int, env: Env)
    requires p.Valid() && env.attMtuSize >= 4 && 0 <= k < p.table.slots.Length && 0 <= n < |BLE_CONNECT_ORDER|
    modifies p.table.slots, p.table.engine, p.tx
    ensures p.Valid()
    ensures forall j :: 0 <= j < |p.rx| ==> p.rx[j].Contents == old(p.rx[j].Contents)
    ensures n != 3 ==>
      && p.table.slots[..] == old(p.table.slots[..])
      && (forall j :: 0 <= j < |p.tx| ==> p.tx[j].Contents == old(p.tx[j].Contents))
      && p.table.engine.log == old(p.table.engine.log) + TimerRequests(old(p.table.slots[k]), BLE_CONNECT_ORDER[n])
    ensures n == 3 ==>
      var conn := old(p.table.slots[k]).connHandle;
      var i := FirstMatch(old(p.table.slots[..]), ConnHandle(conn));
      && 0 <= i <= k
      && p.table.slots[..] == old(p.table.slots[..])[i := old(p.table.slots[i]).(periodicCnt := Inc32(old(p.table.slots[i]).periodicCnt))]
      && (forall j :: 0 <= j < |p.tx| && j != i ==> p.tx[j].Contents == old(p.tx[j].Contents))
      && var (effects, q) := NotifyStep(old(SlotQueues(p, i)), conn, env.consoleCcc, env.attMtuSize);
         && p.tx[i].Contents == q.tx
         && p.table.engine.log == old(p.table.engine.log) + PeriodicRearm(old(p.table.slots[k]))
                                  + ClockEffects(conn, SYSCLOCK_UUID, env.clockCcc, env.clock) + effects
  {
    if n == 3 {
      ServePeriodic(p, k, env);
    } else {
      ServeTimer(p, k, BLE_CONNECT_ORDER[n]);
    }
  }

  /** `peri_connect_ProcessEvent`: the slot of `task` serves the first
      pending event of `BLE_CONNECT_ORDER` and hands back the mask with that
      bit flipped; an unknown task, or a mask with none of those events,
      gets 0 and changes nothing. */
  method ConnectProcessEvent(p: Peripheral, task: int, events: bv16, env: Env) returns (rest: bv16)
    requires p.Valid() && env.attMtuSize >= 4
    modifies p.table.slots, p.table.engine, p.tx
    ensures p.Valid()
    ensures rest == ConnectResult(BLE_CONNECT_ORDER, FirstMatch(old(p.table.slots[..]), TaskId(task)) >= 0, events)
    ensures forall j :: 0 <= j < |p.rx| ==> p.rx[j].Contents == old(p.rx[j].Contents)
    ensures FirstMatch(old(p.table.slots[..]), TaskId(task)) < 0 || FirstSet(BLE_CONNECT_ORDER, events) < 0 ==>
      && p.table.slots[..] == old(p.table.slots[..])
      && (forall j :: 0 <= j < |p.tx| ==> p.tx[j].Contents == old(p.tx[j].Contents))
      && p.table.engine.log == old(p.table.engine.log)
    ensures var k := FirstMatch(old(p.table.slots[..]), TaskId(task));
            var e := FirstSet(BLE_CONNECT_ORDER, events);
      k >= 0 && e >= 0 && e != 3 ==>
        && p.table.slots[..] == old(p.table.slots[..])
        && (forall j :: 0 <= j < |p.tx| ==> p.tx[j].Contents == old(p.tx[j].Contents))
        && p.table.engine.log == old(p.table.engine.log) + TimerRequests(old(p.table.slots[k]), BLE_CONNECT_ORDER[e])
    ensures var k := FirstMatch(old(p.table.slots[..]), TaskId(task));
      k >= 0 && FirstSet(BLE_CONNECT_ORDER, events) == 3 ==>
        var conn := old(p.table.slots[k]).connHandle;
        var i := FirstMatch(old(p.table.slots[..]), ConnHandle(conn));
        && 0 <= i <= k
        && p.table.slots[..] == old(p.table.slots[..])[i := old(p.table.slots[i]).(periodicCnt := Inc32(old(p.table.slots[i]).periodicCnt))]
        && (forall j :: 0 <= j < |p.tx| && j != i ==> p.tx[j].Contents == old(p.tx[j].Contents))
        && var (effects, q) := NotifyStep(old(SlotQueues(p, i)), conn, env.consoleCcc, env.attMtuSize);
           && p.tx[i].Contents == q.tx
           && p.table.engine.log == old(p.table.engine.log) + PeriodicRearm(old(p.table.slots[k]))
                                    + ClockEffects(conn, SYSCLOCK_UUID, env.clockCcc, env.clock) + effects
  {
    var k := FirstMatch(p.table.slots[..], TaskId(task));
    if k < 0 {
      return 0;
    }
    var n := FirstSet(BLE_CONNECT_ORDER, events);
    if n < 0 {
      return 0;
    }
    rest := events ^ BLE_CONNECT_ORDER[n];
    ServeEvent(p, k, n, env);
  }

  /** `Peripheral_ProcessEvent`, the handler of every task of the
      application: a system message first (an MTU exchange stores the
      central's receive MTU into the 8-bit `peripheralMTU`, truncating it),
      then the start-device event, then the slot events as
      `ConnectProcessEvent` serves them. */
  method ProcessEvent(p: Peripheral, task: int, events: bv16, msg: Option<Msg>, env: Env) returns (rest: bv16)
    requires p.Valid() && env.attMtuSize >= 4
    modifies p, p.table.slots, p.table.engine, p.tx
    ensures p.Valid()
    ensures rest == ProcessResult(BLE_CONNECT_ORDER, FirstMatch(old(p.table.slots[..]), TaskId(task)) >= 0, events)
    ensures forall j :: 0 <= j < |p.rx| ==> p.rx[j].Contents == old(p.rx[j].Contents)
    ensures Pending(events, SYS_EVENT_MSG) ==>
      && p.mtu == (if msg.Some? && msg.value.MtuUpdated? then msg.value.clientRxMtu % 0x100 else old(p.mtu))
      && p.table.slots[..] == old(p.table.slots[..])
      && (forall j :: 0 <= j < |p.tx| ==> p.tx[j].Contents == old(p.tx[j].Contents))
      && p.table.engine.log == old(p.table.engine.log)
    ensures !Pending(events, SYS_EVENT_MSG) ==> p.mtu == old(p.mtu)
    ensures !Pending(events, SYS_EVENT_MSG) && Pending(events, START_DEVICE_EVT) ==>
      && p.table.slots[..] == old(p.table.slots[..])
      && (forall j :: 0 <= j < |p.tx| ==> p.tx[j].Contents == old(p.tx[j].Contents))
      && p.table.engine.log == old(p.table.engine.log) + [StartDevice(p.mainTask)]
    ensures !Pending(events, SYS_EVENT_MSG) && !Pending(events, START_DEVICE_EVT) ==>
      (FirstMatch(old(p.table.slots[..]), TaskId(task)) < 0 || FirstSet(BLE_CONNECT_ORDER, events) < 0 ==>
        && p.table.slots[..] == old(p.table.slots[..])
        && (forall j :: 0 <= j < |p.tx| ==> p.tx[j].Contents == old(p.tx[j].Contents))
        && p.table.engine.log == old(p.table.engine.log))
    ensures var k := FirstMatch(old(p.table.slots[..]), TaskId(task));
            var e := FirstSet(BLE_CONNECT_ORDER, events);
      !Pending(events, SYS_EVENT_MSG) && !Pending(events, START_DEVICE_EVT) && k >= 0 && e >= 0 && e != 3 ==>
        && p.table.slots[..] == old(p.table.slots[..])
        && (forall j :: 0 <= j < |p.tx| ==> p.tx[j].Contents == old(p.tx[j].Contents))
        && p.table.engine.log == old(p.table.engine.log) + TimerRequests(old(p.table.slots[k]), BLE_CONNECT_ORDER[e])
    ensures var k := FirstMatch(old(p.table.slots[..]), TaskId(task));
      !Pending(events, SYS_EVENT_MSG) && !Pending(events, START_DEVICE_EVT) && k >= 0 && FirstSet(BLE_CONNECT_ORDER, events) == 3 ==>
        var conn := old(p.table.slots[k]).connHandle;
        var i := FirstMatch(old(p.table.slots[..]), ConnHandle(conn));
        && 0 <= i <= k
        && p.table.slots[..] == old(p.table.slots[..])[i := old(p.table.slots[i]).(periodicCnt := Inc32(old(p.table.slots[i]).periodicCnt))]
        && (forall j :: 0 <= j < |p.tx| && j != i ==> p.tx[j].Contents == old(p.tx[j].Contents))
        && var (effects, q) := NotifyStep(old(SlotQueues(p, i)), conn, env.consoleCcc, env.attMtuSize);
           && p.tx[i].Contents == q.tx
           && p.table.engine.log == old(p.table.engine.log) + PeriodicRearm(old(p.table.slots[k]))
                                    + ClockEffects(conn, SYSCLOCK_UUID, env.clockCcc, env.clock) + effects
  {
    if events & SYS_EVENT_MSG != 0 {
      if msg.Some? && msg.value.MtuUpdated? {
        p.mtu := msg.value.clientRxMtu % 0x100;
      }
      return events ^ SYS_EVENT_MSG;
    }
    if events & START_DEVICE_EVT != 0 {
      p.table.engine.Request(StartDevice(p.mainTask));
      return events ^ START_DEVICE_EVT;
    }
    rest := ConnectProcessEvent(p, task, events, env);
  }
}
