/** The TMOS-task side of app/ble.c: the connection-interval callback, the
    periodic task and the two event handlers TMOS calls, over the state of
    `AppState.AppPeripheral`; and the two places where app/ble.c does not do
    what it evidently means to, each modelled as written next to the
    corrected behaviour the rest of the model uses. */
module AppEvents {
  import opened Common
  import opened Tmos
  import opened Events
  import opened Att
  import opened SlotTable
  import opened Dispatch
  import opened AppState
  import opened AppServices
  import opened SysInfoService

  /** What the handlers learn from outside the application while serving an
      event: the system clock, the clock's client configuration for the
      link served, and what the stack answers to a notification. */
  datatype Env = Env(clock: uint32, clockCcc: uint16, sendStatus: Status)

  /** `peripheralParamUpdateCB`: the slot of link `conn` takes a periodic
      delay of one interval and one tick (`AppDelay`), and the timers of
      `ParamUpdateTimers` are armed on its task. */
  method ParamUpdateCB(p: AppPeripheral, conn: uint16, interval: uint16)
    requires p.Valid() && FirstMatch(p.table.slots[..], ConnHandle(conn)) >= 0
    modifies p.table.slots, p.table.engine
    ensures p.Valid()
    ensures var i := FirstMatch(old(p.table.slots[..]), ConnHandle(conn));
      && p.table.slots[..] == old(p.table.slots[..])[i := old(p.table.slots[i]).(periodicDelay := AppDelay(interval))]
      && p.table.engine.log == old(p.table.engine.log) + ParamUpdateTimers(old(p.table.slots[i]).taskID, interval, AppDelay(interval))
  {
    p.table.ParamUpdate(conn, interval, AppDelay(interval));
  }

  /** `performPeriodicTask` for link `conn`, with the notification handle
      corrected: the counter of its slot goes up (wrapping at 2^32) and the
      clock is notified on the clock characteristic if the client asked for
      it. */
  method PeriodicTask(p: AppPeripheral, conn: uint16, env: Env)
    requires p.Valid() && FirstMatch(p.table.slots[..], ConnHandle(conn)) >= 0
    modifies p.table.slots, p.table.engine
    ensures p.Valid()
    ensures var i := FirstMatch(old(p.table.slots[..]), ConnHandle(conn));
      && p.table.slots[..] == old(p.table.slots[..])[i := old(p.table.slots[i]).(periodicCnt := Inc32(old(p.table.slots[i]).periodicCnt))]
      && p.table.engine.log == old(p.table.engine.log) + ClockEffects(conn, APP_SYSCLOCK_UUID, env.clockCcc, env.clock)
  {
    p.table.Tick(conn);
    ClockNotify(p.table.engine, conn, APP_SYSCLOCK_UUID, env.clockCcc, env.clock, env.sendStatus);
  }

  /** The periodic event of slot `k`: re-arm it, then run the periodic
      task on the slot's link. */
  method ServePeriodic(p: AppPeripheral, k: int, env: Env)
    requires p.Valid() && 0 <= k < p.table.slots.Length
    modifies p.table.slots, p.table.engine
    ensures p.Valid()
    ensures var conn := old(p.table.slots[k]).connHandle;
      var i := FirstMatch(old(p.table.slots[..]), ConnHandle(conn));
      && 0 <= i <= k
      && p.table.slots[..] == old(p.table.slots[..])[i := old(p.table.slots[i]).(periodicCnt := Inc32(old(p.table.slots[i]).periodicCnt))]
      && p.table.engine.log == old(p.table.engine.log) + PeriodicRearm(old(p.table.slots[k]))
                               + ClockEffects(conn, APP_SYSCLOCK_UUID, env.clockCcc, env.clock)
  {
    RearmPeriodic(p.table, k);
    var conn := p.table.slots[k].connHandle;
    PeriodicTask(p, conn, env);
  }

  /** Slot `k` serves the event at position `n` of `APP_CONNECT_ORDER`:
      the periodic event (position 3) as `ServePeriodic`, a link event as
      `ServeLinkEvent`. */
  method ServeEvent(p: AppPeripheral, k: int, n: int, env: Env)
    requires p.Valid() && 0 <= k < p.table.slots.Length && 0 <= n < |APP_CONNECT_ORDER|
    modifies p.table.slots, p.table.engine
    ensures p.Valid()
    ensures n < 3 ==>
      && p.table.slots[..] == old(p.table.slots[..])
      && p.table.engine.log == old(p.table.engine.log) + LinkRequests(old(p.table.slots[k]), APP_CONNECT_ORDER[n])
    ensures n == 3 ==>
      var conn := old(p.table.slots[k]).connHandle;
      var i := FirstMatch(old(p.table.slots[..]), ConnHandle(conn));
      && 0 <= i <= k
      && p.table.slots[..] == old(p.table.slots[..])[i := old(p.table.slots[i]).(periodicCnt := Inc32(old(p.table.slots[i]).periodicCnt))]
      && p.table.engine.log == old(p.table.engine.log) + PeriodicRearm(old(p.table.slots[k]))
                               + ClockEffects(conn, APP_SYSCLOCK_UUID, env.clockCcc, env.clock)
  {
    if n == 3 {
      ServePeriodic(p, k, env);
    } else {
      ServeLinkEvent(p.table, k, APP_CONNECT_ORDER[n]);
    }
  }

  /** `peri_connect_ProcessEvent`: the slot of `task` serves the first
      pending event of `APP_CONNECT_ORDER` and hands back the mask with that
      bit flipped; an unknown task, or a mask with none of those events,
      gets 0 and changes nothing. */
  method ConnectProcessEvent(p: AppPeripheral, task: int, events: bv16, env: Env) returns (rest: bv16)
    requires p.Valid()
    modifies p.table.slots, p.table.engine
    ensures p.Valid()
    ensures rest == ConnectResult(APP_CONNECT_ORDER, FirstMatch(old(p.table.slots[..]), TaskId(task)) >= 0, events)
    ensures FirstMatch(old(p.table.slots[..]), TaskId(task)) < 0 || FirstSet(APP_CONNECT_ORDER, events) < 0 ==>
      && p.table.slots[..] == old(p.table.slots[..])
      && p.table.engine.log == old(p.table.engine.log)
    ensures var k := FirstMatch(old(p.table.slots[..]), TaskId(task));
            var e := FirstSet(APP_CONNECT_ORDER, events);
      k >= 0 && 0 <= e < 3 ==>
        && p.table.slots[..] == old(p.table.slots[..])
        && p.table.engine.log == old(p.table.engine.log) + LinkRequests(old(p.table.slots[k]), APP_CONNECT_ORDER[e])
    ensures var k := FirstMatch(old(p.table.slots[..]), TaskId(task));
      k >= 0 && FirstSet(APP_CONNECT_ORDER, events) == 3 ==>
        var conn := old(p.table.slots[k]).connHandle;
        var i := FirstMatch(old(p.table.slots[..]), ConnHandle(conn));
        && 0 <= i <= k
        && p.table.slots[..] == old(p.table.slots[..])[i := old(p.table.slots[i]).(periodicCnt := Inc32(old(p.table.slots[i]).periodicCnt))]
        && p.table.engine.log == old(p.table.engine.log) + PeriodicRearm(old(p.table.slots[k]))
                                 + ClockEffects(conn, APP_SYSCLOCK_UUID, env.clockCcc, env.clock)
  {
    var k := FirstMatch(p.table.slots[..], TaskId(task));
    if k < 0 {
      return 0;
    }
    var n := FirstSet(APP_CONNECT_ORDER, events);
    if n < 0 {
      return 0;
    }
    rest := events ^ APP_CONNECT_ORDER[n];
    ServeEvent(p, k, n, env);
  }

  /** `Peripheral_ProcessEvent`: a system message first (an MTU exchange
      stores the central's receive MTU, whole), then the start-device
      event, then the slot events as `ConnectProcessEvent` serves them. The
      pads are not touched. */
  method ProcessEvent(p: AppPeripheral, task: int, events: bv16, msg: Option<Msg>, env: Env) returns (rest: bv16)
    requires p.Valid()
    modifies p, p.table.slots, p.table.engine
    ensures p.Valid()
    ensures rest == ProcessResult(APP_CONNECT_ORDER, FirstMatch(old(p.table.slots[..]), TaskId(task)) >= 0, events)
    ensures Pending(events, SYS_EVENT_MSG) ==>
      && p.mtu == (if msg.Some? && msg.value.MtuUpdated? then msg.value.clientRxMtu else old(p.mtu))
      && p.table.slots[..] == old(p.table.slots[..])
      && p.table.engine.log == old(p.table.engine.log)
    ensures !Pending(events, SYS_EVENT_MSG) ==> p.mtu == old(p.mtu)
    ensures !Pending(events, SYS_EVENT_MSG) && Pending(events, START_DEVICE_EVT) ==>
      && p.table.slots[..] == old(p.table.slots[..])
      && p.table.engine.log == old(p.table.engine.log) + [StartDevice(p.mainTask)]
    ensures !Pending(events, SYS_EVENT_MSG) && !Pending(events, START_DEVICE_EVT) ==>
      (FirstMatch(old(p.table.slots[..]), TaskId(task)) < 0 || FirstSet(APP_CONNECT_ORDER, events) < 0 ==>
        && p.table.slots[..] == old(p.table.slots[..])
        && p.table.engine.log == old(p.table.engine.log))
    ensures var k := FirstMatch(old(p.table.slots[..]), TaskId(task));
            var e := FirstSet(APP_CONNECT_ORDER, events);
      !Pending(events, SYS_EVENT_MSG) && !Pending(events, START_DEVICE_EVT) && k >= 0 && 0 <= e < 3 ==>
        && p.table.slots[..] == old(p.table.slots[..])
        && p.table.engine.log == old(p.table.engine.log) + LinkRequests(old(p.table.slots[k]), APP_CONNECT_ORDER[e])
    ensures var k := FirstMatch(old(p.table.slots[..]), TaskId(task));
      !Pending(events, SYS_EVENT_MSG) && !Pending(events, START_DEVICE_EVT) && k >= 0 && FirstSet(APP_CONNECT_ORDER, events) == 3 ==>
        var conn := old(p.table.slots[k]).connHandle;
        var i := FirstMatch(old(p.table.slots[..]), ConnHandle(conn));
        && 0 <= i <= k
        && p.table.slots[..] == old(p.table.slots[..])[i := old(p.table.slots[i]).(periodicCnt := Inc32(old(p.table.slots[i]).periodicCnt))]
        && p.table.engine.log == old(p.table.engine.log) + PeriodicRearm(old(p.table.slots[k]))
                                 + ClockEffects(conn, APP_SYSCLOCK_UUID, env.clockCcc, env.clock)
  {
    if events & SYS_EVENT_MSG != 0 {
      if msg.Some? && msg.value.MtuUpdated? {
        p.mtu := msg.value.clientRxMtu;
      }
      return events ^ SYS_EVENT_MSG;
    }
    if events & START_DEVICE_EVT != 0 {
      p.table.engine.Request(StartDevice(p.mainTask));
      return events ^ START_DEVICE_EVT;
    }
    rest := ConnectProcessEvent(p, task, events, env);
  }

  /** The MTU `Peripheral_ProcessTMOSMsg` stores as written: the central's
      16-bit receive MTU assigned to the 8-bit `peripheralMTU`, which keeps
      it only when it is below 256. */
  function MtuAsWritten(clientRxMtu: uint16): (m: byte)
    ensures m == clientRxMtu <==> clientRxMtu < 0x100
    ensures m < clientRxMtu ==> m == clientRxMtu - 0x100 * (clientRxMtu / 0x100)
  {
    clientRxMtu % 0x100
  }

  /** With the MTU stored as written, a central that reports a receive MTU
      of 256 gets no echo of any pad write, not even of one byte, where the
      whole MTU would let it through; one that reports 517 (the largest the
      Core Specification allows) gets no echo of a three-byte write. */
  lemma TruncatedMtuDropsEcho(conn: uint16, x: byte)
    ensures MtuAsWritten(256) == 0
    ensures PadNotifyEffects(conn, [x], MtuAsWritten(256), 1) == []
    ensures PadNotifyEffects(conn, [x], 256, 1) == [Notification(conn, PAD_N_UUID, [x])]
    ensures MtuAsWritten(517) == 5
    ensures PadNotifyEffects(conn, [x, x, x], MtuAsWritten(517), 1) == []
    ensures PadNotifyEffects(conn, [x, x, x], 517, 1) == [Notification(conn, PAD_N_UUID, [x, x, x])]
  {
  }

  /** With the MTU kept whole, as `ProcessEvent` keeps it, a central that
      reported a receive MTU with room for a full pad gets every write the
      pad accepts echoed back, once it has notifications on. */
  lemma WholeMtuEchoesEveryWrite(conn: uint16, clientRxMtu: uint16, uuid: uint16, data: seq<byte>,
                                 offset: nat, cccStatus: Status, ccc: uint16)
    requires PadWrite(uuid) && PadWriteStatus(true, uuid, |data|, offset, cccStatus) == Success
    requires clientRxMtu >= PAD_BUF_SIZE + 3 && NotifyEnabled(ccc)
    ensures PadNotifyEffects(conn, data, clientRxMtu, ccc) == [Notification(conn, PAD_N_UUID, data)]
  {
    PadEchoFitsMtu(conn, data, clientRxMtu, ccc);
  }

  /** The requests of the clock notification as written: the handle set in
      `SysInfoSysClock_Notify` is that of entry 11 of the test service's
      table, the pad echo's value, not the clock's. */
  function ClockEffectsAsWritten(conn: uint16, ccc: uint16, clock: uint32): (r: seq<Effect>)
    ensures forall e :: e in r ==> e.Notification? && e.attr == PAD_N_UUID
  {
    ClockEffects(conn, PAD_N_UUID, ccc, clock)
  }

  /** As written, the clock a client subscribed to never arrives on the
      clock characteristic: it arrives on the pad echo, exactly as the echo
      of a four-byte pad write holding the clock's bytes would, so the
      client cannot tell the two apart. */
  lemma ClockArrivesAsPadEcho(conn: uint16, ccc: uint16, clock: uint32, mtu: int)
    requires NotifyEnabled(ccc) && mtu >= 7
    ensures forall e :: e in ClockEffectsAsWritten(conn, ccc, clock) ==> e.attr != APP_SYSCLOCK_UUID
    ensures ClockEffectsAsWritten(conn, ccc, clock) == PadNotifyEffects(conn, LittleEndian(clock, 4), mtu, ccc)
  {
  }

  /** Corrected, as `PeriodicTask` sends it: a client with notifications on
      gets one notification per periodic event, on the clock characteristic,
      from which it reads the clock back; with notifications off it gets
      none. */
  lemma ClockArrivesOnClock(conn: uint16, ccc: uint16, clock: uint32)
    ensures |ClockEffects(conn, APP_SYSCLOCK_UUID, ccc, clock)| == (if NotifyEnabled(ccc) then 1 else 0)
    ensures forall e :: e in ClockEffects(conn, APP_SYSCLOCK_UUID, ccc, clock) ==>
      e.Notification? && e.conn == conn && e.attr == APP_SYSCLOCK_UUID && FromLittleEndian(e.payload) == clock
  {
  }
}
