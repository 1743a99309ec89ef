/** The state app/ble.c keeps beyond the slot table: each slot's scratch pad
    (`padused` and `padbuf` of `ble_peri_slots`), the chip name served by its
    system-information service, the MTU the pad notifications are bounded
    by, and the `Peripheral_Init` that lays them out. */
module AppState {
  import opened Common
  import opened Tmos
  import opened Events
  import opened SlotTable

  /** `PAD_BUF_SIZE` */
  const PAD_BUF_SIZE: nat := 96

  /** ASCII codes of the characters the chip name is made of. */
  const ASCII_0: byte := 0x30
  const ASCII_5: byte := 0x35
  const ASCII_A: byte := 0x41
  const ASCII_C: byte := 0x43
  const ASCII_H: byte := 0x48

  /** The upper-case hexadecimal digit `%X` prints for `n`. */
  function HexDigit(n: nat): (c: byte)
    requires n < 16
    ensures ASCII_0 <= c <= ASCII_0 + 9 || ASCII_A <= c <= ASCII_A + 5
  {
    if n < 10 then ASCII_0 + n else ASCII_A + (n - 10)
  }

  /** The value of a hexadecimal digit. */
  function HexValue(c: byte): int
  {
    if c < ASCII_A then c - ASCII_0 else c - ASCII_A + 10
  }

  /** `SysInfoChipName` after `Peripheral_Init`: a 6-byte array (five
      characters and the string's terminating NUL) whose characters are the
      first five of the device name `"CH5%02X-%04X"`, that is "CH5" and the
      two hexadecimal digits of the chip ID register. */
  function ChipName(chipId: byte): (name: seq<byte>)
    ensures |name| == 6 && name[5] == 0
  {
    [ASCII_C, ASCII_H, ASCII_5, HexDigit(chipId / 16), HexDigit(chipId % 16), 0]
  }

  /** The chip name identifies the chip: it starts with "CH5" and its next
      two characters read back, as hexadecimal, to the chip ID. */
  lemma ChipNameNamesChip(chipId: byte)
    ensures ChipName(chipId)[..3] == [ASCII_C, ASCII_H, ASCII_5]
    ensures 16 * HexValue(ChipName(chipId)[3]) + HexValue(ChipName(chipId)[4]) == chipId
  {
    var hi, lo := chipId / 16, chipId % 16;
    assert HexValue(HexDigit(hi)) == hi;
    assert HexValue(HexDigit(lo)) == lo;
  }

  /** The scratch pad of one slot. */
  class Pad {
    /** `padused`: how many bytes of the pad are in use. */
    var used: uint16
    /** `padbuf` */
    const buf: array<byte>

    ghost predicate Valid()
      reads this
    {
      buf.Length == PAD_BUF_SIZE && used <= PAD_BUF_SIZE
    }

    /** The bytes in use. */
    ghost function Data(): seq<byte>
      reads this, buf
      requires Valid()
    {
      buf[..used]
    }

    /** The pad as the `memset` of `Peripheral_Init` leaves it: nothing in
        use and every byte 0. */
    constructor ()
      ensures Valid() && fresh(buf)
      ensures used == 0 && buf[..] == seq(PAD_BUF_SIZE, _ => 0)
    {
      used := 0;
      buf := new byte[PAD_BUF_SIZE](_ => 0);
    }
  }

  /** Every slot's pad, and its buffer, is its own. */
  ghost predicate PadsUnaliased(pads: seq<Pad>)
  {
    forall i, j :: 0 <= i < |pads| && 0 <= j < |pads| && i != j ==>
      pads[i] != pads[j] && pads[i].buf != pads[j].buf
  }

  /** The pad part of the initialisation of `Peripheral_Init`: `n` cleared
      pads of their own. */
  method NewPads(n: nat) returns (pads: seq<Pad>)
    ensures |pads| == n && PadsUnaliased(pads)
    ensures forall i :: 0 <= i < n ==>
      && pads[i].Valid() && fresh(pads[i]) && fresh(pads[i].buf)
      && pads[i].used == 0 && pads[i].buf[..] == seq(PAD_BUF_SIZE, _ => 0)
  {
    pads := [];
    while |pads| < n
      invariant |pads| <= n && PadsUnaliased(pads)
      invariant forall i :: 0 <= i < |pads| ==>
        && pads[i].Valid() && fresh(pads[i]) && fresh(pads[i].buf)
        && pads[i].used == 0 && pads[i].buf[..] == seq(PAD_BUF_SIZE, _ => 0)
    {
      var pad := new Pad();
      pads := pads + [pad];
    }
  }

  class AppPeripheral {
    /** `Peripheral_TaskID` */
    const mainTask: byte
    const table: ConnTable
    /** The pad of each slot. */
    const pads: seq<Pad>
    /** `SysInfoChipName` */
    const chipName: seq<byte>
    /** `peripheralMTU`: the MTU the central reported last (one value for
        every link), kept whole; see the findings on its width. */
    var mtu: uint16

    ghost predicate Valid()
      reads this, table, table.slots, pads
    {
      && table.Valid()
      && |pads| == table.slots.Length
      && (forall i :: 0 <= i < |pads| ==> pads[i].Valid())
      && PadsUnaliased(pads)
      && |chipName| == 6
    }

    /** `Peripheral_Init` with `mainTask` and `tasks` the TMOS task IDs TMOS hands
        out and `chipId` the chip ID register: the chip name, one zeroed slot
        per task with no link and an empty pad, then advertising switched on
        and the start-device event raised on the main task. */
    constructor (mainTask: byte, tasks: seq<byte>, chipId: byte, engine: Engine, attMtuSize: uint16)
      requires |tasks| > 0
      modifies engine
      ensures Valid() && fresh(table) && fresh(table.slots) && table.engine == engine
      ensures this.mainTask == mainTask && mtu == attMtuSize && chipName == ChipName(chipId)
      ensures table.slots[..] == seq(|tasks|, i requires 0 <= i < |tasks| => InitialSlot(tasks[i]))
      ensures forall i :: 0 <= i < |pads| ==>
        fresh(pads[i]) && fresh(pads[i].buf) && pads[i].used == 0 && pads[i].buf[..] == seq(PAD_BUF_SIZE, _ => 0)
      ensures engine.log == old(engine.log) + [EnableAdvertising, SetEvent(mainTask, START_DEVICE_EVT)]
    {
      this.mainTask := mainTask;
      mtu := attMtuSize;
      chipName := ChipName(chipId);
      var ps := NewPads(|tasks|);
      table := new ConnTable(tasks, engine);
      pads := ps;
      new;
      engine.Request(EnableAdvertising);
      engine.Request(SetEvent(mainTask, START_DEVICE_EVT));
    }
  }
}
