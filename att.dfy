/** What the GATT read callbacks of the firmware hand back to the vendor
    GATT server, and the offset rule they share for fixed-size values,
    next to the Read Blob rule of the Bluetooth Core Specification v5.x,
    Vol 3, Part F, section 3.4.4.5. */
module Att {
  import opened Common
  import opened Tmos

  /** Attribute type UUIDs of the GATT profile (Bluetooth Core Specification
      v5.x, Vol 3, Part G, section 3). */
  const PRIMARY_SERVICE_UUID: uint16 := 0x2800
  const CHARACTERISTIC_UUID: uint16 := 0x2803
  const CHAR_USER_DESC_UUID: uint16 := 0x2901
  const CLIENT_CHAR_CFG_UUID: uint16 := 0x2902

  /** The outcome of a read callback: its status and, when it sets `*pLen`,
      the bytes it copies into `pValue` (`Some([])` for `*pLen = 0`); `None`
      when it returns before touching `*pLen`. */
  datatype ReadOut = ReadOut(status: Status, value: Option<seq<byte>>)

  /** The bytes a read at `offset` copies: from `offset` on, at most `maxLen`
      of them. */
  function Window(value: seq<byte>, offset: nat, maxLen: nat): (w: seq<byte>)
    requires offset <= |value|
    ensures w <= value[offset..]
    ensures |w| == maxLen || w == value[offset..]
    ensures |w| <= maxLen
  {
    value[offset..offset + Min(maxLen, |value| - offset)]
  }

  /** The read rule the firmware applies to a fixed-size value (the chip
      UID, the chip name, the used part of a pad): an offset at or past the
      end is refused with Invalid Offset before `*pLen` is set; otherwise
      `*pLen = MIN(maxLen, size - offset)` bytes from `offset` are copied. */
  function FixedValueRead(value: seq<byte>, offset: nat, maxLen: nat): (r: ReadOut)
    ensures r.status == Success || r == ReadOut(InvalidOffset, None)
    ensures r.status == InvalidOffset <==> offset >= |value|
    ensures r.status == Success ==> r.value.Some? && r.value.value <= value[offset..]
    ensures offset < |value| ==> r == ReadOut(Success, Some(Window(value, offset, maxLen)))
    ensures r.status == Success ==> |r.value.value| == Min(maxLen, |value| - offset)
  {
    if offset >= |value| then ReadOut(InvalidOffset, None)
    else ReadOut(Success, Some(Window(value, offset, maxLen)))
  }

  /** The Read Blob rule of the Core Specification: only an offset beyond
      the end is an error; an offset equal to the length reads nothing. */
  function ReadBlobReference(value: seq<byte>, offset: nat, maxLen: nat): (r: ReadOut)
    ensures r.status == InvalidOffset <==> offset > |value|
  {
    if offset > |value| then ReadOut(InvalidOffset, None)
    else ReadOut(Success, Some(Window(value, offset, maxLen)))
  }

  /** The firmware's rule and the Core Specification's agree on every offset
      but one: a read at exactly the end of the value, which the firmware
      refuses and the specification answers with no bytes. */
  lemma FixedReadMatchesReference(value: seq<byte>, offset: nat, maxLen: nat)
    ensures offset != |value| ==> FixedValueRead(value, offset, maxLen) == ReadBlobReference(value, offset, maxLen)
    ensures offset == |value| ==>
              && FixedValueRead(value, offset, maxLen) == ReadOut(InvalidOffset, None)
              && ReadBlobReference(value, offset, maxLen) == ReadOut(Success, Some([]))
  {
  }

  /** Which offset rule a server applies. */
  datatype ReadRule = FirmwareRule | CoreSpecRule

  function BlobRead(rule: ReadRule, value: seq<byte>, offset: nat, maxLen: nat): ReadOut
  {
    match rule
    case FirmwareRule => FixedValueRead(value, offset, maxLen)
    case CoreSpecRule => ReadBlobReference(value, offset, maxLen)
  }

  /** How a client's long read ends: with every byte it asked for, or with
      an error after collecting `bytes`. */
  datatype LongReadOutcome = Complete(bytes: seq<byte>) | Aborted(bytes: seq<byte>, status: Status)

  /** A client's long read (Core Specification v5.x, Vol 3, Part G, section
      4.8.3): reads at successive offsets, each picking up where the last
      one stopped, until a read returns fewer than `maxLen` bytes (ATT_MTU - 1)
      or fails. */
  function LongRead(rule: ReadRule, value: seq<byte>, offset: nat, maxLen: nat): LongReadOutcome
    requires maxLen > 0 && offset <= |value|
    decreases |value| - offset
  {
    var r := BlobRead(rule, value, offset, maxLen);
    if r.status != Success then Aborted([], r.status)
    else
      var got := r.value.value;
      if |got| < maxLen then Complete(got)
      else
        match LongRead(rule, value, offset + |got|, maxLen)
        case Complete(rest) => Complete(got + rest)
        case Aborted(rest, st) => Aborted(got + rest, st)
  }

  /** Against the Core Specification's rule a long read always collects the
      whole value. */
  lemma {:induction false} LongReadCoreSpec(value: seq<byte>, offset: nat, maxLen: nat)
    requires maxLen > 0 && offset <= |value|
    ensures LongRead(CoreSpecRule, value, offset, maxLen) == Complete(value[offset..])
    decreases |value| - offset
  {
    var got := Window(value, offset, maxLen);
    if |got| == maxLen {
      LongReadCoreSpec(value, offset + maxLen, maxLen);
      assert value[offset..] == got + value[offset + maxLen..];
    }
  }

  /** `n` bytes split into reads of exactly `m` bytes each (none for 0). */
  predicate WholeReads(n: nat, m: nat)
    requires m > 0
    decreases n
  {
    n == 0 || (n >= m && WholeReads(n - m, m))
  }

  /** Against the firmware's rule a long read collects the whole value, but
      when what is left from `offset` is a whole number of reads (zero
      included) the closing read lands exactly on the end, is refused, and
      the procedure ends in Invalid Offset. */
  lemma {:induction false} LongReadFirmware(value: seq<byte>, offset: nat, maxLen: nat)
    requires maxLen > 0 && offset <= |value|
    ensures !WholeReads(|value| - offset, maxLen) ==>
              LongRead(FirmwareRule, value, offset, maxLen) == Complete(value[offset..])
    ensures WholeReads(|value| - offset, maxLen) ==>
              LongRead(FirmwareRule, value, offset, maxLen) == Aborted(value[offset..], InvalidOffset)
    decreases |value| - offset
  {
    if offset < |value| {
      var got := Window(value, offset, maxLen);
      if |got| == maxLen {
        LongReadFirmware(value, offset + maxLen, maxLen);
        assert value[offset..] == got + value[offset + maxLen..];
      }
    }
  }

  /** `GATT_CLIENT_CFG_NOTIFY`: bit 0 of a client characteristic
      configuration value (Bluetooth Core Specification v5.x, Vol 3, Part G,
      section 3.3.3.3). */
  predicate NotifyEnabled(ccc: uint16)
  {
    ccc % 2 == 1
  }

  /** The gate every `..._Notify` function of the firmware applies before
      sending: with notifications on in the client configuration `ccc`, the
      payload goes out on the value attribute of type `attr` and the result
      of the send (`sendStatus`) is reported; otherwise nothing is sent and
      `bleIncorrectMode` is reported. */
  method NotifyGate(engine: Engine, conn: uint16, attr: uint16, ccc: uint16, payload: seq<byte>, sendStatus: Status)
    returns (st: Status)
    modifies engine
    ensures NotifyEnabled(ccc) ==>
      st == sendStatus && engine.log == old(engine.log) + [Notification(conn, attr, payload)]
    ensures !NotifyEnabled(ccc) ==> st == IncorrectMode && engine.log == old(engine.log)
  {
    if NotifyEnabled(ccc) {
      engine.Request(Notification(conn, attr, payload));
      return sendStatus;
    }
    return IncorrectMode;
  }
}
