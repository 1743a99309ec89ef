/** The console tunnel service of ble/ble_console_svc.c: a central reads the
    bytes the console queued for it (RNW read), writes bytes for the console
    (RNW write), reads how much room both queues have (CTL read), and is sent
    queued bytes by the periodic task while it has notifications on. */
module ConsoleService {
  import opened Common
  import opened Fifo
  import opened Tmos
  import opened Att
  import opened SlotTable
  import opened BleState

  const CONSOLE_SVC_UUID: uint16 := 0xFFC0
  /** Read-notify-write characteristic: the byte tunnel itself. */
  const CONSOLE_RNW_UUID: uint16 := 0xFFC1
  /** Control characteristic: the free room of both FIFOs. */
  const CONSOLE_CTL_UUID: uint16 := 0xFFC2

  /** The contents of one slot's two FIFOs. */
  datatype Queues = Queues(rx: seq<byte>, tx: seq<byte>)

  predicate Fits(q: Queues)
  {
    |q.rx| <= CONFIFO_SIZE && |q.tx| <= CONFIFO_SIZE
  }

  /** `Console_ReadAttrCB` for a connection that has a slot, on the contents
      of that slot's FIFOs: the reply and the FIFOs afterwards. An RNW read
      drains the oldest queued bytes, as many as fit in `maxLen`; a CTL read
      reports the free room of RX and TX; both refuse a nonzero offset
      without touching a FIFO; any other attribute is not found. */
  function Read(q: Queues, uuid: uint16, offset: nat, maxLen: nat): (res: (ReadOut, Queues))
    requires Fits(q)
    ensures Fits(res.1) && res.1.rx == q.rx
    ensures uuid == CONSOLE_RNW_UUID && offset == 0 ==>
      && res.0.status == Success && res.0.value.Some?
      && res.0.value.value + res.1.tx == q.tx
      && |res.0.value.value| == Min(maxLen, |q.tx|)
    ensures uuid == CONSOLE_CTL_UUID && offset == 0 ==>
      && res.0 == ReadOut(Success, Some([CONFIFO_SIZE - |q.rx|, CONFIFO_SIZE - |q.tx|]))
      && res.1 == q
    ensures (uuid == CONSOLE_RNW_UUID || uuid == CONSOLE_CTL_UUID) && offset != 0 ==>
      res == (ReadOut(AttrNotLong, None), q)
    ensures uuid != CONSOLE_RNW_UUID && uuid != CONSOLE_CTL_UUID ==>
      res == (ReadOut(AttrNotFound, Some([])), q)
  {
    if uuid == CONSOLE_RNW_UUID then
      if offset != 0 then (ReadOut(AttrNotLong, None), q)
      else
        var n := Min(maxLen, |q.tx|);
        assert q.tx[..n] + q.tx[n..] == q.tx;
        (ReadOut(Success, Some(q.tx[..n])), q.(tx := q.tx[n..]))
    else if uuid == CONSOLE_CTL_UUID then
      if offset != 0 then (ReadOut(AttrNotLong, None), q)
      else (ReadOut(Success, Some([CONFIFO_SIZE - |q.rx|, CONFIFO_SIZE - |q.tx|])), q)
    else (ReadOut(AttrNotFound, Some([])), q)
  }

  /** Two RNW reads in a row hand over the same bytes, in the same order, as
      one read of their combined length: nothing is lost or repeated between
      reads. */
  lemma ReadsInSequence(q: Queues, a: nat, b: nat)
    requires Fits(q)
    ensures var (r1, q1) := Read(q, CONSOLE_RNW_UUID, 0, a);
            var (r2, q2) := Read(q1, CONSOLE_RNW_UUID, 0, b);
            && r1.value.value + r2.value.value == q.tx[..Min(a + b, |q.tx|)]
            && q2.tx == q.tx[Min(a + b, |q.tx|)..]
  {
    var (r1, q1) := Read(q, CONSOLE_RNW_UUID, 0, a);
    var (r2, q2) := Read(q1, CONSOLE_RNW_UUID, 0, b);
    var n := Min(a + b, |q.tx|);
    assert q.tx == r1.value.value + r2.value.value + q2.tx;
    assert |r1.value.value + r2.value.value| == n;
    assert q.tx[..n] == r1.value.value + r2.value.value;
  }

  /** `Console_WriteAttrCB` for a connection that has a slot: an RNW write
      queues as much of `data` as there is room for in RX, in order, drops
      the rest, and succeeds whatever the offset; a CCC write returns what
      the stack's CCC handling reports (`cccStatus`); any other attribute is
      not found. */
  function Write(q: Queues, uuid: uint16, data: seq<byte>, cccStatus: Status): (res: (Status, Queues))
    requires Fits(q)
    ensures Fits(res.1) && res.1.tx == q.tx
    ensures uuid == CONSOLE_RNW_UUID ==>
      && res.0 == Success
      && q.rx <= res.1.rx
      && res.1.rx[|q.rx|..] <= data
      && |res.1.rx| == Min(|q.rx| + |data|, CONFIFO_SIZE)
    ensures uuid != CONSOLE_RNW_UUID ==> res.1 == q
    ensures uuid == CLIENT_CHAR_CFG_UUID ==> res.0 == cccStatus
    ensures uuid != CONSOLE_RNW_UUID && uuid != CLIENT_CHAR_CFG_UUID ==> res.0 == AttrNotFound
  {
    if uuid == CONSOLE_RNW_UUID then
      var k := Min(|data|, CONFIFO_SIZE - |q.rx|);
      assert (q.rx + data[..k])[|q.rx|..] == data[..k];
      (Success, q.(rx := q.rx + data[..k]))
    else if uuid == CLIENT_CHAR_CFG_UUID then (cccStatus, q)
    else (AttrNotFound, q)
  }

  /** An RNW write loses nothing when `data` fits in the free room of RX; when
      it does not, RX ends up full and only the tail of `data` is dropped. */
  lemma WriteKeepsWhatFits(q: Queues, data: seq<byte>, cccStatus: Status)
    requires Fits(q)
    ensures var (_, q1) := Write(q, CONSOLE_RNW_UUID, data, cccStatus);
            && (|data| <= CONFIFO_SIZE - |q.rx| ==> q1.rx == q.rx + data)
            && (|data| > CONFIFO_SIZE - |q.rx| ==>
                  |q1.rx| == CONFIFO_SIZE && q1.rx == q.rx + data[..CONFIFO_SIZE - |q.rx|])
  {
    var (_, q1) := Write(q, CONSOLE_RNW_UUID, data, cccStatus);
    assert q1.rx == q.rx + q1.rx[|q.rx|..];
  }

  /** `peripheralConsoleRNWNotify` on the contents of a slot's FIFOs: nothing
      when notifications are off or TX is empty; otherwise the oldest
      `min(ATT_MTU_SIZE - 4, used)` bytes of TX leave it as the payload of
      one notification. */
  function NotifyDrain(q: Queues, enabled: bool, attMtuSize: nat): (res: (Option<seq<byte>>, Queues))
    requires Fits(q) && attMtuSize >= 4
    ensures Fits(res.1) && res.1.rx == q.rx
    ensures res.0.None? <==> !enabled || q.tx == [] || attMtuSize == 4
    ensures res.0.None? ==> res.1 == q
    ensures res.0.Some? ==> res.0.value + res.1.tx == q.tx && 0 < |res.0.value| <= attMtuSize - 4
    ensures res.0.Some? ==> |res.0.value| == Min(attMtuSize - 4, |q.tx|)
  {
    if !enabled then (None, q)
    else
      var n := Min(attMtuSize - 4, |q.tx|);
      if n == 0 then (None, q)
      else
        assert q.tx[..n] + q.tx[n..] == q.tx;
        (Some(q.tx[..n]), q.(tx := q.tx[n..]))
  }

  /** The notify path drains TX exactly as an RNW read of `ATT_MTU_SIZE - 4`
      bytes would: same bytes, same FIFO left. */
  lemma NotifyIsBoundedRead(q: Queues, attMtuSize: nat)
    requires Fits(q) && attMtuSize >= 4
    ensures var (n, qn) := NotifyDrain(q, true, attMtuSize);
            var (r, qr) := Read(q, CONSOLE_RNW_UUID, 0, attMtuSize - 4);
            && qn == qr
            && (n.Some? ==> r.value == n)
            && (n.None? ==> r.value == Some([]))
  {
  }

  /** The contents of slot `i`'s FIFOs. */
  ghost function SlotQueues(p: Peripheral, i: int): Queues
    reads p, p.rx, p.tx
    requires 0 <= i < |p.rx| && 0 <= i < |p.tx|
  {
    Queues(p.rx[i].Contents, p.tx[i].Contents)
  }

  /** The `for` loop of the RNW read and of the notify path: pops `n` bytes
      into the reply buffer. */
  method PopInto(f: Fifo8, n: nat) returns (out: seq<byte>)
    requires f.Valid() && n <= |f.Contents|
    modifies f
    ensures f.Valid()
    ensures out == old(f.Contents)[..n] && f.Contents == old(f.Contents)[n..]
  {
    out := [];
    var i := 0;
    while i < n
      invariant f.Valid() && 0 <= i <= n
      invariant out == old(f.Contents)[..i] && f.Contents == old(f.Contents)[i..]
    {
      var x := f.Pop();
      out := out + [x];
      i := i + 1;
    }
  }

  /** The `while` loop of the RNW write: pushes bytes of `data` while any
      remain and the FIFO has room. */
  method PushWhileRoom(f: Fifo8, data: seq<byte>)
    requires f.Valid()
    modifies f, f.buf
    ensures f.Valid()
    ensures f.Contents == old(f.Contents) + data[..Min(|data|, f.size - |old(f.Contents)|)]
  {
    var len := |data|;
    var i := 0;
    while len > 0 && f.Free() > 0
      invariant f.Valid()
      invariant 0 <= i <= |data| && len == |data| - i
      invariant f.Contents == old(f.Contents) + data[..i]
    {
      f.Push(data[i]);
      assert data[..i + 1] == data[..i] + [data[i]];
      len, i := len - 1, i + 1;
    }
  }

  /** `PopInto` on slot `i`'s TX FIFO: the other FIFOs stay as they were. */
  method DrainTx(p: Peripheral, i: int, n: nat) returns (out: seq<byte>)
    requires p.Valid() && 0 <= i < |p.tx| && n <= |p.tx[i].Contents|
    modifies p.tx[i]
    ensures p.Valid()
    ensures out == old(p.tx[i].Contents)[..n] && p.tx[i].Contents == old(p.tx[i].Contents)[n..]
    ensures forall j :: 0 <= j < |p.tx| && j != i ==> p.tx[j].Contents == old(p.tx[j].Contents)
    ensures forall j :: 0 <= j < |p.rx| ==> p.rx[j].Contents == old(p.rx[j].Contents)
  {
    var f := p.tx[i];
    assert forall j :: 0 <= j < |p.tx| && j != i ==> p.tx[j] != f;
    out := PopInto(f, n);
  }

  /** `PushWhileRoom` on slot `i`'s RX FIFO: the other FIFOs stay as they were. */
  method FillRx(p: Peripheral, i: int, data: seq<byte>)
    requires p.Valid() && 0 <= i < |p.rx|
    modifies p.rx[i], p.rx[i].buf
    ensures p.Valid()
    ensures p.rx[i].Contents == old(p.rx[i].Contents) + data[..Min(|data|, CONFIFO_SIZE - |old(p.rx[i].Contents)|)]
    ensures forall j :: 0 <= j < |p.rx| && j != i ==> p.rx[j].Contents == old(p.rx[j].Contents)
    ensures forall j :: 0 <= j < |p.tx| ==> p.tx[j].Contents == old(p.tx[j].Contents)
  {
    var f := p.rx[i];
    assert forall j :: 0 <= j < |p.rx| && j != i ==> p.rx[j] != f && p.rx[j].buf != f.buf;
    assert forall j :: 0 <= j < |p.tx| ==> p.tx[j] != f && p.tx[j].buf != f.buf;
    PushWhileRoom(f, data);
  }

  /** `Console_ReadAttrCB` on the whole peripheral: a connection without a
      slot gets Invalid PDU and no FIFO changes; otherwise the slot's FIFOs
      go through `Read`, and only its TX FIFO can change. */
  method ReadAttr(p: Peripheral, conn: uint16, uuid: uint16, offset: nat, maxLen: nat) returns (r: ReadOut)
    requires p.Valid()
    modifies p.tx
    ensures p.Valid()
    ensures forall j :: 0 <= j < |p.rx| ==> p.rx[j].Contents == old(p.rx[j].Contents)
    ensures forall j :: 0 <= j < |p.tx| && j != FirstMatch(p.table.slots[..], ConnHandle(conn)) ==>
      p.tx[j].Contents == old(p.tx[j].Contents)
    ensures FirstMatch(p.table.slots[..], ConnHandle(conn)) < 0 ==> r == ReadOut(InvalidPdu, None)
    ensures var i := FirstMatch(p.table.slots[..], ConnHandle(conn));
      i >= 0 ==>
        var res := Read(old(SlotQueues(p, i)), uuid, offset, maxLen);
        r == res.0 && p.tx[i].Contents == res.1.tx
  {
    var i := p.table.FindByConnHandle(conn);
    if i < 0 {
      r := ReadOut(InvalidPdu, None);
      return;
    }
    if uuid == CONSOLE_RNW_UUID {
      if offset != 0 {
        r := ReadOut(AttrNotLong, None);
        return;
      }
      var n := Min(maxLen, p.tx[i].Used());
      var out := DrainTx(p, i, n);
      r := ReadOut(Success, Some(out));
    } else if uuid == CONSOLE_CTL_UUID {
      if offset != 0 {
        r := ReadOut(AttrNotLong, None);
        return;
      }
      r := ReadOut(Success, Some([p.rx[i].Free(), p.tx[i].Free()]));
    } else {
      r := ReadOut(AttrNotFound, Some([]));
    }
  }

  /** `Console_WriteAttrCB` on the whole peripheral: a connection without a
      slot gets Invalid PDU and no FIFO changes; otherwise the slot's FIFOs
      go through `Write`, and only its RX FIFO can change. The offset is
      passed on to the stack's CCC handling only, which `cccStatus` stands for. */
  method WriteAttr(p: Peripheral, conn: uint16, uuid: uint16, data: seq<byte>, offset: nat, cccStatus: Status)
    returns (st: Status)
    requires p.Valid()
    modifies p.rx, set f | f in p.rx :: f.buf
    ensures p.Valid()
    ensures forall j :: 0 <= j < |p.tx| ==> p.tx[j].Contents == old(p.tx[j].Contents)
    ensures forall j :: 0 <= j < |p.rx| && j != FirstMatch(p.table.slots[..], ConnHandle(conn)) ==>
      p.rx[j].Contents == old(p.rx[j].Contents)
    ensures FirstMatch(p.table.slots[..], ConnHandle(conn)) < 0 ==> st == InvalidPdu
    ensures var i := FirstMatch(p.table.slots[..], ConnHandle(conn));
      i >= 0 ==>
        var res := Write(old(SlotQueues(p, i)), uuid, data, cccStatus);
        st == res.0 && p.rx[i].Contents == res.1.rx
  {
    var i := p.table.FindByConnHandle(conn);
    if i < 0 {
      return InvalidPdu;
    }
    if uuid == CONSOLE_RNW_UUID {
      assert p.rx[i].buf in set g | g in p.rx :: g.buf;
      FillRx(p, i, data);
      return Success;
    }
    if uuid == CLIENT_CHAR_CFG_UUID {
      return cccStatus;
    }
    return AttrNotFound;
  }

  /** What `peripheralConsoleRNWNotify` does for a connection that has a
      slot, on that slot's FIFOs: the requests it makes and the FIFOs it
      leaves. */
  function NotifyStep(q: Queues, conn: uint16, ccc: uint16, attMtuSize: nat): (seq<Effect>, Queues)
    requires Fits(q) && attMtuSize >= 4
  {
    var (n, q1) := NotifyDrain(q, NotifyEnabled(ccc), attMtuSize);
    (if n.Some? then [Notification(conn, CONSOLE_RNW_UUID, n.value)] else [], q1)
  }

  /** `peripheralConsoleRNWNotify`: with notifications on and a slot for the
      connection, the slot's FIFOs go through `NotifyDrain` and a non-empty
      payload is sent; the popped bytes are gone whatever the send reports.
      Otherwise nothing changes. */
  method RnwNotify(p: Peripheral, conn: uint16, ccc: uint16, attMtuSize: nat, sendStatus: Status)
    requires p.Valid() && attMtuSize >= 4
    modifies p.tx, p.table.engine
    ensures p.Valid()
    ensures forall j :: 0 <= j < |p.rx| ==> p.rx[j].Contents == old(p.rx[j].Contents)
    ensures forall j :: 0 <= j < |p.tx| && j != FirstMatch(p.table.slots[..], ConnHandle(conn)) ==>
      p.tx[j].Contents == old(p.tx[j].Contents)
    ensures FirstMatch(p.table.slots[..], ConnHandle(conn)) < 0 ==> p.table.engine.log == old(p.table.engine.log)
    ensures var i := FirstMatch(p.table.slots[..], ConnHandle(conn));
      i >= 0 ==>
        var (effects, q) := NotifyStep(old(SlotQueues(p, i)), conn, ccc, attMtuSize);
        p.tx[i].Contents == q.tx && p.table.engine.log == old(p.table.engine.log) + effects
  {
    if !NotifyEnabled(ccc) {
      return;
    }
    var i := p.table.FindByConnHandle(conn);
    if i < 0 {
      return;
    }
    var used := p.tx[i].Used();
    var len := Min(attMtuSize - 4, used);
    if len == 0 {
      return;
    }
    var payload := DrainTx(p, i, len);
    // ConsoleRNW_Notify
    var _ := NotifyGate(p.table.engine, conn, CONSOLE_RNW_UUID, ccc, payload, sendStatus);
  }
}
