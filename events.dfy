/** The TMOS events of ble/ble.c and app/ble.c (the same bits in both; only
    ble/ble.c has the interpreter tick) and the rule by which an event handler
    picks the one event it serves per call: the first bit, in a fixed priority
    order, that is set in the mask TMOS delivers. The handler returns the mask
    with that bit flipped, and TMOS redelivers what is left. */
module Events {

  /** TMOS's system-message event, the top bit of the 16-bit mask. */
  const SYS_EVENT_MSG: bv16 := 0x8000

  const START_DEVICE_EVT: bv16 := 0x01
  const PERIODIC_EVT: bv16 := 0x02
  const READ_RSSI_EVT: bv16 := 0x04
  const PARAM_UPDATE_EVT: bv16 := 0x08
  const PHY_UPDATE_EVT: bv16 := 0x10
  const FORTH_EVT: bv16 := 0x20

  /** Timer delays, in 0.625 ms ticks. */
  const PARAM_UPDATE_DELAY: nat := 6400
  const PHY_UPDATE_DELAY: nat := 3200
  const PERIOD_READ_RSSI: nat := 3200
  const FORTH_DELAY: nat := 2

  /** The connection parameters the device asks for: interval in 1.25 ms
      units, supervision timeout in the unit the stack takes, no latency. */
  const CONNECTION_INTERVAL_MIN: nat := 9
  const CONNECTION_INTERVAL_MAX: nat := 100
  const CONNECTION_TIMEOUT: nat := 100
  const SLAVE_LATENCY: nat := 0

  /** Priority order of `peri_connect_ProcessEvent` in ble/ble.c. */
  const BLE_CONNECT_ORDER: seq<bv16> :=
    [PARAM_UPDATE_EVT, PHY_UPDATE_EVT, READ_RSSI_EVT, PERIODIC_EVT, FORTH_EVT]

  /** Priority order of `peri_connect_ProcessEvent` in app/ble.c. */
  const APP_CONNECT_ORDER: seq<bv16> :=
    [PARAM_UPDATE_EVT, PHY_UPDATE_EVT, READ_RSSI_EVT, PERIODIC_EVT]

  /** Event `e` is pending in the mask `events`. */
  predicate Pending(events: bv16, e: bv16)
  {
    events & e != 0
  }

  /** `e` is a single bit. */
  predicate SingleBit(e: bv16)
  {
    e in {0x1, 0x2, 0x4, 0x8, 0x10, 0x20, 0x40, 0x80,
          0x100, 0x200, 0x400, 0x800, 0x1000, 0x2000, 0x4000, 0x8000}
  }

  /** Each event is one bit of its own. */
  predicate DisjointBits(order: seq<bv16>)
  {
    && (forall j :: 0 <= j < |order| ==> SingleBit(order[j]))
    && (forall i, j :: 0 <= i < j < |order| ==> order[i] != order[j])
  }

  /** Position in `order` of the event a handler serves: the first one set in
      `events`, or -1 when none of them is. */
  function FirstSet(order: seq<bv16>, events: bv16): (k: int)
    ensures -1 <= k < |order|
    ensures k >= 0 ==> Pending(events, order[k]) && forall j :: 0 <= j < k ==> !Pending(events, order[j])
    ensures k < 0 <==> forall j :: 0 <= j < |order| ==> !Pending(events, order[j])
  {
    if |order| == 0 then -1
    else if Pending(events, order[0]) then 0
    else
      var k := FirstSet(order[1..], events);
      if k < 0 then -1 else k + 1
  }

  /** The mask `peri_connect_ProcessEvent` hands back: 0 for a task that is
      not a slot's (`known` false) and when no event of `order` is set (so the
      other bits are dropped); otherwise `events` with the served bit flipped. */
  function ConnectResult(order: seq<bv16>, known: bool, events: bv16): bv16
  {
    if !known then 0
    else
      var k := FirstSet(order, events);
      if k < 0 then 0 else events ^ order[k]
  }

  /** The mask `Peripheral_ProcessEvent` hands back: the system message comes
      first, then the start-device event, then the slot events. */
  function ProcessResult(order: seq<bv16>, known: bool, events: bv16): bv16
  {
    if Pending(events, SYS_EVENT_MSG) then events ^ SYS_EVENT_MSG
    else if Pending(events, START_DEVICE_EVT) then events ^ START_DEVICE_EVT
    else ConnectResult(order, known, events)
  }

  /** Flipping a pending single bit clears it ... */
  lemma FlipClears(events: bv16, e: bv16)
    requires Pending(events, e) && SingleBit(e)
    ensures !Pending(events ^ e, e) && (events ^ e) | e == events
  {
  }

  /** ... and leaves every bit disjoint from it as it was. */
  lemma FlipKeeps(events: bv16, e: bv16, other: bv16)
    requires SingleBit(e) && SingleBit(other) && e != other
    ensures Pending(events ^ e, other) == Pending(events, other)
  {
  }

  /** Flipping the event at `k` leaves every other event of the order as it was. */
  lemma FlipKeepsOthers(order: seq<bv16>, events: bv16, k: int)
    requires DisjointBits(order) && 0 <= k < |order|
    ensures forall j :: 0 <= j < |order| && j != k ==>
              Pending(events ^ order[k], order[j]) == Pending(events, order[j])
  {
    forall j | 0 <= j < |order| && j != k
      ensures Pending(events ^ order[k], order[j]) == Pending(events, order[j])
    {
      FlipKeeps(events, order[k], order[j]);
    }
  }

  /** If a mask differs from `events` only in having the bit at `k` cleared,
      and nothing before `k` was pending in `events`, its first pending event
      comes after `k`. */
  lemma NextServedIsLater(order: seq<bv16>, events: bv16, rest: bv16, k: int)
    requires 0 <= k < |order|
    requires forall j :: 0 <= j < k ==> !Pending(events, order[j])
    requires forall j :: 0 <= j < |order| && j != k ==> Pending(rest, order[j]) == Pending(events, order[j])
    requires !Pending(rest, order[k])
    ensures FirstSet(order, rest) < 0 || FirstSet(order, rest) > k
  {
  }

  /** With `k` the position of the event served and `rest` the mask handed
      back: one call serves exactly one event. Its bit is cleared, every other
      event of the order stays pending exactly when it was, and the next call
      on the redelivered mask serves an event strictly later in the order. So
      repeated redelivery serves the pending events one at a time, in priority
      order, each of them once. */
  lemma ConnectServesOneEventInOrder(order: seq<bv16>, events: bv16, k: int, rest: bv16)
    requires DisjointBits(order)
    requires k == FirstSet(order, events) && k >= 0
    requires rest == ConnectResult(order, true, events)
    ensures !Pending(rest, order[k])
    ensures forall j :: 0 <= j < |order| && j != k ==> Pending(rest, order[j]) == Pending(events, order[j])
    ensures FirstSet(order, rest) < 0 || FirstSet(order, rest) > k
  {
    assert rest == events ^ order[k];
    FlipClears(events, order[k]);
    FlipKeepsOthers(order, events, k);
    NextServedIsLater(order, events, rest, k);
  }

  /** Both orders are made of distinct single bits. */
  lemma OrdersAreDisjoint()
    ensures DisjointBits(BLE_CONNECT_ORDER) && DisjointBits(APP_CONNECT_ORDER)
  {
  }

  /** Which event `peri_connect_ProcessEvent` of ble/ble.c serves, as the
      chain of tests it makes: position 0 to 4 of its order, or -1. */
  lemma BleOrderServes(events: bv16)
    ensures FirstSet(BLE_CONNECT_ORDER, events) ==
      if Pending(events, PARAM_UPDATE_EVT) then 0
      else if Pending(events, PHY_UPDATE_EVT) then 1
      else if Pending(events, READ_RSSI_EVT) then 2
      else if Pending(events, PERIODIC_EVT) then 3
      else if Pending(events, FORTH_EVT) then 4
      else -1
  {
    var o := BLE_CONNECT_ORDER;
    assert o[0] == PARAM_UPDATE_EVT && o[1] == PHY_UPDATE_EVT && o[2] == READ_RSSI_EVT;
    assert o[3] == PERIODIC_EVT && o[4] == FORTH_EVT;
  }

  /** The same for app/ble.c, which has no interpreter event. */
  lemma AppOrderServes(events: bv16)
    ensures FirstSet(APP_CONNECT_ORDER, events) ==
      if Pending(events, PARAM_UPDATE_EVT) then 0
      else if Pending(events, PHY_UPDATE_EVT) then 1
      else if Pending(events, READ_RSSI_EVT) then 2
      else if Pending(events, PERIODIC_EVT) then 3
      else -1
  {
    var o := APP_CONNECT_ORDER;
    assert o[0] == PARAM_UPDATE_EVT && o[1] == PHY_UPDATE_EVT && o[2] == READ_RSSI_EVT;
    assert o[3] == PERIODIC_EVT;
  }
}
