/** The parts of `peri_connect_ProcessEvent` that ble/ble.c and app/ble.c
    share: the requests a slot's task makes for the parameter update, PHY
    update and RSSI events, the re-arming of the periodic event, and (in
    ble/ble.c only) the interpreter tick. */
module Dispatch {
  import opened Common
  import opened Tmos
  import opened Events
  import opened SlotTable

  /** The link events served by calls into the stack alone. */
  predicate LinkEvent(e: bv16)
  {
    e == PARAM_UPDATE_EVT || e == PHY_UPDATE_EVT || e == READ_RSSI_EVT
  }

  /** The requests slot `s` makes for link event `e`: ask the central for
      the device's connection parameters, switch the link to the 2M PHY, or
      read the RSSI and arm the next read. */
  function LinkRequests(s: Slot, e: bv16): seq<Effect>
    requires LinkEvent(e)
  {
    if e == PARAM_UPDATE_EVT then
      [ConnParamUpdateRequest(s.connHandle, CONNECTION_INTERVAL_MIN, CONNECTION_INTERVAL_MAX,
                              SLAVE_LATENCY, CONNECTION_TIMEOUT, s.taskID)]
    else if e == PHY_UPDATE_EVT then
      [PhyUpdateRequest(s.connHandle)]
    else
      [ReadRssi(s.connHandle), StartTask(s.taskID, READ_RSSI_EVT, PERIOD_READ_RSSI)]
  }

  /** The periodic event re-arms itself with the slot's periodic delay,
      unless that delay is 0. */
  function PeriodicRearm(s: Slot): (r: seq<Effect>)
    ensures r == [] <==> s.periodicDelay == 0
  {
    if s.periodicDelay != 0 then [StartTask(s.taskID, PERIODIC_EVT, s.periodicDelay)] else []
  }

  /** Once the central has reported a connection interval, the periodic
      event keeps re-arming itself: always in app/ble.c, and in ble/ble.c
      for every interval but 0, which stops it after one run. */
  lemma ParamUpdateKeepsPeriodicRunning(s: Slot, interval: uint16)
    ensures PeriodicRearm(s.(periodicDelay := AppDelay(interval))) ==
              [StartTask(s.taskID, PERIODIC_EVT, AppDelay(interval))]
    ensures interval > 0 <==>
              PeriodicRearm(s.(periodicDelay := BleDelay(interval))) ==
              [StartTask(s.taskID, PERIODIC_EVT, BleDelay(interval))]
  {
  }

  /** The number of `stepforth` calls per interpreter event: the do-while
      loop on `cnt--` from 100 runs its body 101 times. */
  const FORTH_STEPS: nat := 101

  /** `n` interpreter steps. */
  function StepForths(n: nat): (r: seq<Effect>)
    ensures |r| == n && forall j :: 0 <= j < n ==> r[j] == StepForth
  {
    seq(n, _ => StepForth)
  }

  /** The requests slot `s` makes for the interpreter event: re-arm it
      (`FORTH_DELAY` is not 0, so always) and run the interpreter. */
  function ForthRequests(s: Slot): seq<Effect>
  {
    [StartTask(s.taskID, FORTH_EVT, FORTH_DELAY)] + StepForths(FORTH_STEPS)
  }

  /** The events a slot serves by calls into the stack and the scheduler
      alone: every event but the periodic one. */
  predicate TimerEvent(e: bv16)
  {
    LinkEvent(e) || e == FORTH_EVT
  }

  /** The requests slot `s` makes for such an event. */
  function TimerRequests(s: Slot, e: bv16): seq<Effect>
    requires TimerEvent(e)
  {
    if e == FORTH_EVT then ForthRequests(s) else LinkRequests(s, e)
  }

  /** Serves link event `e` on slot `k`; the table does not change. */
  method ServeLinkEvent(t: ConnTable, k: int, e: bv16)
    requires t.Valid() && 0 <= k < t.slots.Length && LinkEvent(e)
    modifies t.engine
    ensures t.slots[..] == old(t.slots[..])
    ensures t.engine.log == old(t.engine.log) + LinkRequests(t.slots[k], e)
  {
    var s := t.slots[k];
    if e == PARAM_UPDATE_EVT {
      t.engine.Request(ConnParamUpdateRequest(s.connHandle, CONNECTION_INTERVAL_MIN, CONNECTION_INTERVAL_MAX,
                                              SLAVE_LATENCY, CONNECTION_TIMEOUT, s.taskID));
    } else if e == PHY_UPDATE_EVT {
      t.engine.Request(PhyUpdateRequest(s.connHandle));
    } else {
      t.engine.Request(ReadRssi(s.connHandle));
      t.engine.Request(StartTask(s.taskID, READ_RSSI_EVT, PERIOD_READ_RSSI));
    }
  }

  /** Re-arms the periodic event of slot `k`. */
  method RearmPeriodic(t: ConnTable, k: int)
    requires t.Valid() && 0 <= k < t.slots.Length
    modifies t.engine
    ensures t.slots[..] == old(t.slots[..])
    ensures t.engine.log == old(t.engine.log) + PeriodicRearm(t.slots[k])
  {
    var s := t.slots[k];
    if s.periodicDelay != 0 {
      t.engine.Request(StartTask(s.taskID, PERIODIC_EVT, s.periodicDelay));
    }
  }

  /** The interpreter event of slot `k`: re-arm it, then step the
      interpreter in the loop `do stepforth(NULL); while (cnt--);` with `cnt`
      starting at 100. */
  method ServeForth(t: ConnTable, k: int)
    requires t.Valid() && 0 <= k < t.slots.Length
    modifies t.engine
    ensures t.slots[..] == old(t.slots[..])
    ensures t.engine.log == old(t.engine.log) + ForthRequests(t.slots[k])
  {
    var engine := t.engine;
    engine.Request(StartTask(t.slots[k].taskID, FORTH_EVT, FORTH_DELAY));
    ghost var armed := engine.log;
    var cnt := 100;
    engine.Request(StepForth);
    while cnt != 0
      invariant 0 <= cnt <= 100
      invariant engine.log == armed + StepForths(FORTH_STEPS - cnt)
      decreases cnt
    {
      cnt := cnt - 1;
      engine.Request(StepForth);
    }
  }
}
