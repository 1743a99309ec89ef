/** The two GATT services of app/ble.c: the test service, whose per-slot
    scratch pad a central can write, read back, checksum and fill with
    random bytes, and which echoes each write back as a notification; and
    the system-information service, with the chip name and the system
    clock. */
module AppServices {
  import opened Common
  import opened Tmos
  import opened Att
  import opened SlotTable
  import opened AppState
  import opened SysInfoService

  const TEST_SVC_UUID: uint16 := 0xFF00
  /** Read the pad. */
  const PAD_R_UUID: uint16 := 0xFF01
  /** Write the pad, with and without response. */
  const PAD_W_UUID: uint16 := 0xFF02
  const PAD_W_NO_RSP_UUID: uint16 := 0xFF03
  /** The echo of each pad write. */
  const PAD_N_UUID: uint16 := 0xFF04
  /** The byte sum of the pad. */
  const PAD_SUM_UUID: uint16 := 0xFF05
  /** Fill the pad with random bytes. */
  const PAD_RAND_UUID: uint16 := 0xFF06

  const APP_SYSINFO_SVC_UUID: uint16 := 0xFF10
  const APP_CHIPNAME_UUID: uint16 := 0xFF11
  const APP_SYSCLOCK_UUID: uint16 := 0xFF12

  /** The read of the pad characteristic on the bytes in use: an empty pad
      answers with no bytes whatever the offset; otherwise the offset rule
      for fixed-size values applies. */
  function PadRead(data: seq<byte>, offset: nat, maxLen: nat): (r: ReadOut)
    ensures r.status == Success || r == ReadOut(InvalidOffset, None)
    ensures r.status == InvalidOffset <==> data != [] && offset >= |data|
    ensures data == [] ==> r == ReadOut(Success, Some([]))
    ensures r.status == Success && data != [] ==>
      offset < |data| && r.value == Some(Window(data, offset, maxLen))
  {
    if data == [] then ReadOut(Success, Some([]))
    else FixedValueRead(data, offset, maxLen)
  }

  /** Against the Read Blob rule of the Core Specification the pad read
      differs in exactly two cases: a read at the end of a non-empty pad,
      which it refuses, and a read past the end of an empty one, which it
      answers. */
  lemma PadReadMatchesReference(data: seq<byte>, offset: nat, maxLen: nat)
    ensures PadRead(data, offset, maxLen) != ReadBlobReference(data, offset, maxLen)
      <==> (data != [] && offset == |data|) || (data == [] && offset > 0)
  {
    FixedReadMatchesReference(data, offset, maxLen);
  }

  /** What is written to the pad is what a read from offset 0 returns, for
      a read that can take it all. */
  lemma PadWriteReadBack(data: seq<byte>, maxLen: nat)
    requires maxLen >= |data|
    ensures PadRead(data, 0, maxLen) == ReadOut(Success, Some(data))
  {
    assert data[0..|data|] == data;
  }

  /** The sum of the bytes of `s`, unbounded. */
  function ByteSum(s: seq<byte>): nat
  {
    if s == [] then 0 else ByteSum(s[..|s| - 1]) + s[|s| - 1]
  }

  /** The sum of two runs of bytes put together is the sum of their sums:
      the pad checksum of a write is the checksum of its parts added
      modulo 256. */
  lemma {:induction false} ByteSumConcat(a: seq<byte>, b: seq<byte>)
    ensures ByteSum(a + b) == ByteSum(a) + ByteSum(b)
    decreases |b|
  {
    if b == [] {
      assert a + b == a;
    } else {
      var b' := b[..|b| - 1];
      assert (a + b)[..|a + b| - 1] == a + b';
      ByteSumConcat(a, b');
    }
  }

  /** The `for` loop of the pad sum read: adds the bytes in use into a
      `uint8_t`, so the sum wraps modulo 256. */
  method PadSum(pad: Pad) returns (sum: byte)
    requires pad.Valid()
    ensures sum == ByteSum(pad.Data()) % 0x100
  {
    sum := 0;
    var i := 0;
    while i < pad.used
      invariant 0 <= i <= pad.used
      invariant sum == ByteSum(pad.buf[..i]) % 0x100
    {
      assert pad.buf[..i + 1][..i] == pad.buf[..i];
      sum := (sum + pad.buf[i]) % 0x100;
      i := i + 1;
    }
    assert pad.buf[..i] == pad.Data();
  }

  /** The low bytes of the first `n` random numbers of `draws`. */
  function RandomBytes(draws: seq<uint32>, n: nat): (r: seq<byte>)
    requires n <= |draws|
    ensures |r| == n
  {
    seq(n, j requires 0 <= j < n => draws[j] % 0x100)
  }

  /** The pad random read's update, with `draws` the numbers `tmos_rand`
      returns in turn: the first, modulo `PAD_BUF_SIZE`, is the new number of
      bytes in use, and the next ones, truncated to a byte, fill them; the
      bytes past them keep their old values. */
  method Randomise(pad: Pad, draws: seq<uint32>)
    requires pad.Valid() && |draws| >= PAD_BUF_SIZE
    modifies pad, pad.buf
    ensures pad.Valid() && pad.used == draws[0] % PAD_BUF_SIZE
    ensures pad.Data() == RandomBytes(draws[1..], pad.used)
    ensures forall j :: pad.used <= j < PAD_BUF_SIZE ==> pad.buf[j] == old(pad.buf[j])
  {
    pad.used := draws[0] % PAD_BUF_SIZE;
    var i := 0;
    while i < pad.used
      invariant pad.Valid() && pad.used == draws[0] % PAD_BUF_SIZE
      invariant 0 <= i <= pad.used
      invariant pad.buf[..i] == RandomBytes(draws[1..], i)
      invariant forall j :: i <= j < PAD_BUF_SIZE ==> pad.buf[j] == old(pad.buf[j])
    {
      pad.buf[i] := draws[1 + i] % 0x100;
      i := i + 1;
    }
  }

  /** The `tmos_memcpy` of a pad write: `data` becomes the bytes in use;
      the bytes past them keep their old values. */
  method Store(pad: Pad, data: seq<byte>)
    requires pad.Valid() && |data| <= PAD_BUF_SIZE
    modifies pad, pad.buf
    ensures pad.Valid() && pad.used == |data| && pad.Data() == data
    ensures forall j :: |data| <= j < PAD_BUF_SIZE ==> pad.buf[j] == old(pad.buf[j])
  {
    pad.used := |data|;
    forall j | 0 <= j < |data| {
      pad.buf[j] := data[j];
    }
  }

  /** The pad read of `Test_ReadAttrCB` on the buffer itself: it answers
      what `PadRead` says of the bytes in use and changes nothing. */
  method ReadPad(pad: Pad, offset: nat, maxLen: nat) returns (r: ReadOut)
    requires pad.Valid()
    ensures r == PadRead(pad.Data(), offset, maxLen)
  {
    if pad.used == 0 {
      return ReadOut(Success, Some([]));
    }
    if offset >= pad.used {
      return ReadOut(InvalidOffset, None);
    }
    var n := Min(maxLen, pad.used - offset);
    assert pad.buf[offset..offset + n] == pad.Data()[offset..offset + n];
    return ReadOut(Success, Some(pad.buf[offset..offset + n]));
  }

  /** `Test_ReadAttrCB`: a connection no slot holds gets Invalid PDU.
      Otherwise the pad read goes by `PadRead`, the sum read answers the
      byte sum of the pad modulo 256 whatever the offset, and the random
      read refills the pad as `Randomise` says and answers the new number of
      bytes in use as two little-endian bytes; only that read changes a
      pad. Any other attribute is not found. */
  method ReadAttr(p: AppPeripheral, conn: uint16, uuid: uint16, offset: nat, maxLen: nat, draws: seq<uint32>)
    returns (r: ReadOut)
    requires p.Valid() && |draws| >= PAD_BUF_SIZE
    modifies p.pads, set pd | pd in p.pads :: pd.buf
    ensures p.Valid()
    ensures var i := FirstMatch(p.table.slots[..], ConnHandle(conn));
      forall j :: 0 <= j < |p.pads| && !(j == i && uuid == PAD_RAND_UUID) ==>
        p.pads[j].used == old(p.pads[j].used) && p.pads[j].buf[..] == old(p.pads[j].buf[..])
    ensures FirstMatch(p.table.slots[..], ConnHandle(conn)) < 0 ==> r == ReadOut(InvalidPdu, None)
    ensures var i := FirstMatch(p.table.slots[..], ConnHandle(conn));
      i >= 0 ==>
        && (uuid == PAD_R_UUID ==> r == PadRead(old(p.pads[i].Data()), offset, maxLen))
        && (uuid == PAD_SUM_UUID ==> r == ReadOut(Success, Some([ByteSum(old(p.pads[i].Data())) % 0x100])))
        && (uuid == PAD_RAND_UUID ==>
              && p.pads[i].used == draws[0] % PAD_BUF_SIZE
              && p.pads[i].Data() == RandomBytes(draws[1..], p.pads[i].used)
              && (forall j :: p.pads[i].used <= j < PAD_BUF_SIZE ==> p.pads[i].buf[j] == old(p.pads[i].buf[j]))
              && r.status == Success && r.value.Some? && |r.value.value| == 2
              && FromLittleEndian(r.value.value) == p.pads[i].used)
        && (uuid != PAD_R_UUID && uuid != PAD_SUM_UUID && uuid != PAD_RAND_UUID ==>
              r == ReadOut(AttrNotFound, Some([])))
  {
    var i := p.table.FindByConnHandle(conn);
    if i < 0 {
      return ReadOut(InvalidPdu, None);
    }
    var pad := p.pads[i];
    if uuid == PAD_R_UUID {
      r := ReadPad(pad, offset, maxLen);
      return;
    }
    if uuid == PAD_SUM_UUID {
      var sum := PadSum(pad);
      return ReadOut(Success, Some([sum]));
    }
    if uuid == PAD_RAND_UUID {
      assert pad.buf in set pd | pd in p.pads :: pd.buf;
      Randomise(pad, draws);
      LittleEndianRoundTrip(pad.used, 2);
      return ReadOut(Success, Some(LittleEndian(pad.used, 2)));
    }
    return ReadOut(AttrNotFound, Some([]));
  }

  /** What the pad echo of `data` requests, with `mtu` the MTU the
      firmware holds: nothing when `data` does not fit in a notification
      (more than `mtu - 3` bytes, compared as signed integers) or when the
      client has notifications off; otherwise one notification of `data` on
      the echo characteristic. */
  function PadNotifyEffects(conn: uint16, data: seq<byte>, mtu: int, ccc: uint16): (r: seq<Effect>)
    ensures r != [] <==> |data| <= mtu - 3 && NotifyEnabled(ccc)
    ensures r != [] ==> r == [Notification(conn, PAD_N_UUID, data)]
  {
    if |data| > mtu - 3 || !NotifyEnabled(ccc) then [] else [Notification(conn, PAD_N_UUID, data)]
  }

  /** Every echo the firmware sends fits in a Handle Value Notification of
      an ATT_MTU of `mtu` (Bluetooth Core Specification v5.x, Vol 3, Part F,
      section 3.4.7.1: at most ATT_MTU - 3 bytes of value), and a write
      that fits is echoed whole once the client has notifications on. */
  lemma PadEchoFitsMtu(conn: uint16, data: seq<byte>, mtu: int, ccc: uint16)
    ensures forall e :: e in PadNotifyEffects(conn, data, mtu, ccc) ==>
      e.Notification? && |e.payload| <= mtu - 3 && e.payload == data
    ensures NotifyEnabled(ccc) && |data| <= mtu - 3 ==>
      PadNotifyEffects(conn, data, mtu, ccc) == [Notification(conn, PAD_N_UUID, data)]
  {
  }

  /** `peripheralTestPadnNotify` and the gate `TestPadn_Notify` it calls. */
  method PadNotify(engine: Engine, conn: uint16, data: seq<byte>, mtu: int, ccc: uint16, sendStatus: Status)
    modifies engine
    ensures engine.log == old(engine.log) + PadNotifyEffects(conn, data, mtu, ccc)
  {
    if |data| > mtu - 3 {
      return;
    }
    var _ := NotifyGate(engine, conn, PAD_N_UUID, ccc, data, sendStatus);
  }

  /** The two pad write characteristics. */
  predicate PadWrite(uuid: uint16)
  {
    uuid == PAD_W_UUID || uuid == PAD_W_NO_RSP_UUID
  }

  /** The status `Test_WriteAttrCB` answers: Invalid PDU for a connection
      without a slot; for a pad write, success exactly when the data fits
      the pad and starts at offset 0, Invalid Value when it does not fit
      (whatever the offset), Attribute Not Long when it fits at a non-zero
      offset; for the echo's client configuration, the stack's CCC status;
      otherwise Attribute Not Found. */
  function PadWriteStatus(known: bool, uuid: uint16, len: nat, offset: nat, cccStatus: Status): (st: Status)
    ensures !known ==> st == InvalidPdu
    ensures known && PadWrite(uuid) ==>
      && (st == Success <==> len <= PAD_BUF_SIZE && offset == 0)
      && (len > PAD_BUF_SIZE ==> st == InvalidValue)
      && (len <= PAD_BUF_SIZE && offset > 0 ==> st == AttrNotLong)
    ensures known && uuid == CLIENT_CHAR_CFG_UUID ==> st == cccStatus
    ensures known && !PadWrite(uuid) && uuid != CLIENT_CHAR_CFG_UUID ==> st == AttrNotFound
  {
    if !known then InvalidPdu
    else if PadWrite(uuid) then
      if len > PAD_BUF_SIZE then InvalidValue
      else if offset > 0 then AttrNotLong
      else Success
    else if uuid == CLIENT_CHAR_CFG_UUID then cccStatus
    else AttrNotFound
  }

  /** `Test_WriteAttrCB`: answers `PadWriteStatus`; a pad write that
      succeeds stores `data` in the slot's pad as `Store` says and echoes it
      as `PadNotifyEffects` says, under the MTU the firmware holds and the
      echo's client configuration `padCcc`. Nothing else changes a pad or
      reaches the stack. */
  method WriteAttr(p: AppPeripheral, conn: uint16, uuid: uint16, data: seq<byte>, offset: nat,
                   cccStatus: Status, padCcc: uint16, sendStatus: Status)
    returns (st: Status)
    requires p.Valid()
    modifies p.pads, set pd | pd in p.pads :: pd.buf, p.table.engine
    ensures p.Valid()
    ensures st == PadWriteStatus(FirstMatch(p.table.slots[..], ConnHandle(conn)) >= 0, uuid, |data|, offset, cccStatus)
    ensures var i := FirstMatch(p.table.slots[..], ConnHandle(conn));
      forall j :: 0 <= j < |p.pads| && !(j == i && PadWrite(uuid) && st == Success) ==>
        p.pads[j].used == old(p.pads[j].used) && p.pads[j].buf[..] == old(p.pads[j].buf[..])
    ensures !(PadWrite(uuid) && st == Success) ==> p.table.engine.log == old(p.table.engine.log)
    ensures var i := FirstMatch(p.table.slots[..], ConnHandle(conn));
      PadWrite(uuid) && st == Success ==>
        && 0 <= i < |p.pads|
        && p.pads[i].used == |data| && p.pads[i].Data() == data
        && (forall j :: |data| <= j < PAD_BUF_SIZE ==> p.pads[i].buf[j] == old(p.pads[i].buf[j]))
        && p.table.engine.log == old(p.table.engine.log) + PadNotifyEffects(conn, data, p.mtu, padCcc)
  {
    var i := p.table.FindByConnHandle(conn);
    if i < 0 {
      return InvalidPdu;
    }
    if PadWrite(uuid) {
      st := Success;
      if offset > 0 {
        st := AttrNotLong;
      }
      if |data| > PAD_BUF_SIZE {
        st := InvalidValue;
      }
      if st == Success {
        var pad := p.pads[i];
        assert pad.buf in set pd | pd in p.pads :: pd.buf;
        Store(pad, data);
        PadNotify(p.table.engine, conn, data, p.mtu, padCcc, sendStatus);
      }
      return;
    }
    if uuid == CLIENT_CHAR_CFG_UUID {
      return cccStatus;
    }
    return AttrNotFound;
  }

  /** `SysInfo_ReadAttrCB` of app/ble.c, which looks no slot up: the chip
      name by the offset rule for fixed-size values, the clock as
      `ClockRead` says, and any other attribute not found. */
  function SysInfoRead(uuid: uint16, offset: nat, maxLen: nat, clock: uint32, chipName: seq<byte>): (r: ReadOut)
    ensures uuid == APP_CHIPNAME_UUID ==> r == FixedValueRead(chipName, offset, maxLen)
    ensures uuid == APP_CHIPNAME_UUID ==>
      && (r.status == InvalidOffset <==> offset >= |chipName|)
      && (r.status == Success ==> r.value == Some(Window(chipName, offset, maxLen)))
    ensures uuid == APP_SYSCLOCK_UUID ==> r == ClockRead(offset, maxLen, clock)
    ensures uuid != APP_CHIPNAME_UUID && uuid != APP_SYSCLOCK_UUID ==> r == ReadOut(AttrNotFound, Some([]))
  {
    if uuid == APP_CHIPNAME_UUID then FixedValueRead(chipName, offset, maxLen)
    else if uuid == APP_SYSCLOCK_UUID then ClockRead(offset, maxLen, clock)
    else ReadOut(AttrNotFound, Some([]))
  }

  /** A client's long read of the 6-byte chip name with reads of more than
      6 bytes (any ATT_MTU allows at least 22) collects the name in one
      read. */
  lemma ChipNameLongRead(chipId: byte, maxLen: nat)
    requires maxLen > 6
    ensures LongRead(FirmwareRule, ChipName(chipId), 0, maxLen) == Complete(ChipName(chipId))
  {
    var name := ChipName(chipId);
    LongReadFirmware(name, 0, maxLen);
  }
}
