/** The vendor BLE stack and its task scheduler (TMOS), seen from the
    application: every call the application makes into them is recorded, in
    order, in a ghost log of effects. What the stack then does with a request
    (timers firing, links dropping, packets going out) is not modelled. */
module Tmos {
  import opened Common

  /** One request the application made to the stack. */
  datatype Effect =
    | StartTask(task: nat, event: bv16, delay: nat)       // tmos_start_task: (re-)arm a one-shot timer
    | StopTask(task: nat, event: bv16)                    // tmos_stop_task
    | SetEvent(task: nat, event: bv16)                    // tmos_set_event: raise an event at once
    | TerminateLink(conn: nat)                            // GAPRole_TerminateLink
    | EnableAdvertising                                   // GAPRole_SetParameter(GAPROLE_ADVERT_ENABLED, TRUE)
    | StartDevice(task: nat)                              // GAPRole_PeripheralStartDevice
    | ConnParamUpdateRequest(conn: nat, intervalMin: nat, intervalMax: nat,
                             latency: nat, timeout: nat, task: nat)  // GAPRole_PeripheralConnParamUpdateReq
    | PhyUpdateRequest(conn: nat)                         // GAPRole_UpdatePHY to LE 2M both ways
    | ReadRssi(conn: nat)                                 // GAPRole_ReadRssiCmd
    | StepForth                                           // one stepforth(NULL) call
    | Notification(conn: nat, attr: nat, payload: seq<byte>)
      // GATT_Notification on the handle of the value attribute whose type UUID is `attr`

  /** The TMOS message a system-message event delivers, if any: an ATT MTU
      exchange with the central's receive MTU, or anything else (GAP
      messages only log). */
  datatype Msg = MtuUpdated(clientRxMtu: uint16) | OtherMsg

  /** The stack, as far as the application can tell: the requests it was given. */
  class Engine {
    ghost var log: seq<Effect>

    constructor ()
      ensures log == []
    {
      log := [];
    }

    /** Hands one request to the stack. */
    method Request(e: Effect)
      modifies this
      ensures log == old(log) + [e]
    {
      log := log + [e];
    }
  }
}
