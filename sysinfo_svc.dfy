/** The system information service of ble/ble_sysinfo_svc.c: the 32-bit
    system clock (readable and notifiable) and the 8-byte chip UID. Its
    callbacks change no application state; the clock and the UID come from
    outside the model and are parameters. The clock read and notification
    are shared with the system information service of app/ble.c. */
module SysInfoService {
  import opened Common
  import opened Tmos
  import opened Att
  import opened SlotTable

  const SYSINFO_SVC_UUID: uint16 := 0xFFE0
  /** Declared by the service but not in its attribute table, so never served. */
  const CHIPNAME_UUID: uint16 := 0xFFE1
  const SYSCLOCK_UUID: uint16 := 0xFFE2
  const CHIPUID_UUID: uint16 := 0xFFE3

  /** `sizeof(chip_uid)`. */
  const CHIP_UID_SIZE: nat := 8

  /** A read of the system clock value: a long read is refused; otherwise
      the leading `min(maxLen, 4)` bytes of the clock in memory order. */
  function ClockRead(offset: nat, maxLen: nat, clock: uint32): (r: ReadOut)
    ensures offset != 0 <==> r == ReadOut(AttrNotLong, None)
    ensures offset == 0 ==>
      && r.status == Success && r.value.Some?
      && r.value.value <= LittleEndian(clock, 4)
      && |r.value.value| == Min(maxLen, 4)
  {
    if offset != 0 then ReadOut(AttrNotLong, None)
    else ReadOut(Success, Some(LittleEndian(clock, 4)[..Min(maxLen, 4)]))
  }

  /** A client that can take 4 bytes in one read gets the clock back whole. */
  lemma ClockReadRoundTrip(maxLen: nat, clock: uint32)
    requires maxLen >= 4
    ensures FromLittleEndian(ClockRead(0, maxLen, clock).value.value) == clock
  {
    assert LittleEndian(clock, 4)[..4] == LittleEndian(clock, 4);
    LittleEndianRoundTrip(clock, 4);
  }

  /** `SysInfo_ReadAttrCB`: the clock, the chip UID under the firmware's
      fixed-value rule, and Attribute Not Found with no bytes for anything
      else. No connection lookup is made. */
  function ReadAttr(uuid: uint16, offset: nat, maxLen: nat, clock: uint32, chipUid: seq<byte>): (r: ReadOut)
    requires |chipUid| == CHIP_UID_SIZE
    ensures uuid == SYSCLOCK_UUID ==> r == ClockRead(offset, maxLen, clock)
    ensures uuid == CHIPUID_UUID ==>
      && (r.status == InvalidOffset <==> offset >= CHIP_UID_SIZE)
      && (offset < CHIP_UID_SIZE ==>
            r == ReadOut(Success, Some(chipUid[offset..offset + Min(maxLen, CHIP_UID_SIZE - offset)])))
    ensures uuid != SYSCLOCK_UUID && uuid != CHIPUID_UUID ==> r == ReadOut(AttrNotFound, Some([]))
  {
    if uuid == SYSCLOCK_UUID then ClockRead(offset, maxLen, clock)
    else if uuid == CHIPUID_UUID then FixedValueRead(chipUid, offset, maxLen)
    else ReadOut(AttrNotFound, Some([]))
  }

  /** A client reading the chip UID with the smallest ATT_MTU (23, so 22
      bytes per read) or any larger one gets all 8 bytes in one read, and its
      long read completes. */
  lemma ChipUidLongReadCompletes(chipUid: seq<byte>, maxLen: nat)
    requires |chipUid| == CHIP_UID_SIZE && maxLen > CHIP_UID_SIZE
    ensures LongRead(FirmwareRule, chipUid, 0, maxLen) == Complete(chipUid)
  {
    LongReadFirmware(chipUid, 0, maxLen);
    assert !WholeReads(CHIP_UID_SIZE, maxLen);
  }

  /** `SysInfo_WriteAttrCB`: a connection no slot holds gets Invalid PDU;
      only the clock's client configuration can be written, with the result
      the stack's CCC handling reports (`cccStatus`); anything else is not
      found. */
  function WriteAttr(slots: seq<Slot>, conn: uint16, uuid: uint16, cccStatus: Status): (st: Status)
    ensures (forall j :: 0 <= j < |slots| ==> slots[j].connHandle != conn) ==> st == InvalidPdu
    ensures (exists j :: 0 <= j < |slots| && slots[j].connHandle == conn) ==>
      st == (if uuid == CLIENT_CHAR_CFG_UUID then cccStatus else AttrNotFound)
  {
    if FirstMatch(slots, ConnHandle(conn)) < 0 then InvalidPdu
    else if uuid == CLIENT_CHAR_CFG_UUID then cccStatus
    else AttrNotFound
  }

  /** The payload of a clock notification: none while the client has
      notifications off, otherwise the 4 bytes of the clock, from which the
      client recovers it. */
  function ClockNotification(ccc: uint16, clock: uint32): (n: Option<seq<byte>>)
    ensures n.None? <==> !NotifyEnabled(ccc)
    ensures n.Some? ==> |n.value| == 4 && FromLittleEndian(n.value) == clock
  {
    if !NotifyEnabled(ccc) then None
    else
      LittleEndianRoundTrip(clock, 4);
      Some(LittleEndian(clock, 4))
  }

  /** The requests a clock notification on the value attribute of type
      `attr` makes. */
  function ClockEffects(conn: uint16, attr: uint16, ccc: uint16, clock: uint32): seq<Effect>
  {
    match ClockNotification(ccc, clock)
    case None => []
    case Some(b) => [Notification(conn, attr, b)]
  }

  /** `peripheralSysInfoSysClockNotify` and the gate `SysInfoSysClock_Notify`
      it calls, sending on the value attribute of type `attr` (the clock
      value, `SYSCLOCK_UUID` here): with notifications on, the clock goes
      out; the result of the send only decides whether the buffer is handed
      back, which is not modelled. */
  method ClockNotify(engine: Engine, conn: uint16, attr: uint16, ccc: uint16, clock: uint32, sendStatus: Status)
    modifies engine
    ensures engine.log == old(engine.log) + ClockEffects(conn, attr, ccc, clock)
  {
    if !NotifyEnabled(ccc) {
      return;
    }
    var payload := LittleEndian(clock, 4);
    var _ := NotifyGate(engine, conn, attr, ccc, payload, sendStatus);
  }
}
