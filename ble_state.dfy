/** The state ble/ble.c keeps per connection slot beyond the slot table: the
    two console FIFOs embedded in `struct ble_peri_slot` (ble/ble.h), and the
    `Peripheral_Init` loop that lays the table and the FIFOs out. */
module BleState {
  import opened Common
  import opened Fifo
  import opened Tmos
  import opened Events
  import opened SlotTable

  /** A console FIFO as the initialisation loop leaves it and as every
      operation keeps it: well formed, of `CONFIFO_SIZE` bytes. */
  ghost predicate ConsoleFifo(f: Fifo8)
    reads f, f.buf
  {
    f.Valid() && f.size == CONFIFO_SIZE
  }

  /** Every slot's two FIFOs are objects of their own with buffers of their
      own: `conrx_fifo`/`conrx_fifo_buf` and `contx_fifo`/`contx_fifo_buf`
      are fields of distinct array elements. */
  ghost predicate Unaliased(rx: seq<Fifo8>, tx: seq<Fifo8>)
    requires |rx| == |tx|
  {
    forall i, j :: 0 <= i < |rx| && 0 <= j < |rx| ==>
      && rx[i] != tx[j] && rx[i].buf != tx[j].buf
      && (i != j ==> rx[i] != rx[j] && rx[i].buf != rx[j].buf && tx[i] != tx[j] && tx[i].buf != tx[j].buf)
  }

  /** The FIFO part of the initialisation loop of `Peripheral_Init`: for each
      of `n` slots, an RX and a TX FIFO of `CONFIFO_SIZE` bytes wired to
      buffers of their own and reset. */
  method NewConsoleFifos(n: nat) returns (r: seq<Fifo8>, t: seq<Fifo8>)
    ensures |r| == |t| == n
    ensures forall i :: 0 <= i < n ==> ConsoleFifo(r[i]) && r[i].head == 0 && r[i].Contents == []
    ensures forall i :: 0 <= i < n ==> ConsoleFifo(t[i]) && t[i].head == 0 && t[i].Contents == []
    ensures forall i :: 0 <= i < n ==> fresh(r[i]) && fresh(r[i].buf) && fresh(t[i]) && fresh(t[i].buf)
    ensures Unaliased(r, t)
  {
    r, t := [], [];
    while |r| < n
      invariant |r| == |t| <= n
      invariant forall i :: 0 <= i < |r| ==> ConsoleFifo(r[i]) && r[i].head == 0 && r[i].Contents == []
      invariant forall i :: 0 <= i < |t| ==> ConsoleFifo(t[i]) && t[i].head == 0 && t[i].Contents == []
      invariant forall i :: 0 <= i < |r| ==> fresh(r[i]) && fresh(r[i].buf) && fresh(t[i]) && fresh(t[i].buf)
      invariant Unaliased(r, t)
    {
      var a := new Fifo8(CONFIFO_SIZE);
      var b := new Fifo8(CONFIFO_SIZE);
      r, t := r + [a], t + [b];
    }
  }

  class Peripheral {
    /** `Peripheral_TaskID`: the TMOS task that takes system messages and the
        start-device event. */
    const mainTask: byte
    const table: ConnTable
    /** `conrx_fifo` of each slot: bytes from the central to the console. */
    const rx: seq<Fifo8>
    /** `contx_fifo` of each slot: bytes from the console to the central. */
    const tx: seq<Fifo8>
    /** `peripheralMTU`, a `uint8_t`: written on an MTU exchange, read by
        nothing in this variant. */
    var mtu: byte

    ghost predicate Valid()
      reads this, table, table.slots, rx, tx, set f | f in rx + tx :: f.buf
    {
      && table.Valid()
      && |rx| == |tx| == table.slots.Length
      && (forall i :: 0 <= i < |rx| ==> ConsoleFifo(rx[i]))
      && (forall i :: 0 <= i < |tx| ==> ConsoleFifo(tx[i]))
      && Unaliased(rx, tx)
    }

    /** `Peripheral_Init` with `mainTask` and `tasks` the TMOS task IDs TMOS hands
        out: one zeroed slot per task with no link, each with two empty FIFOs
        of `CONFIFO_SIZE` bytes, then advertising switched on and the
        start-device event raised on the main task. */
    constructor (mainTask: byte, tasks: seq<byte>, engine: Engine, attMtuSize: byte)
      requires |tasks| > 0
      modifies engine
      ensures Valid() && fresh(table) && fresh(table.slots) && table.engine == engine
      ensures this.mainTask == mainTask && mtu == attMtuSize
      ensures table.slots[..] == seq(|tasks|, i requires 0 <= i < |tasks| => InitialSlot(tasks[i]))
      ensures forall i :: 0 <= i < |rx| ==> rx[i].head == 0 && rx[i].Contents == []
      ensures forall i :: 0 <= i < |tx| ==> tx[i].head == 0 && tx[i].Contents == []
      ensures engine.log == old(engine.log) + [EnableAdvertising, SetEvent(mainTask, START_DEVICE_EVT)]
    {
      this.mainTask := mainTask;
      mtu := attMtuSize;
      var r, t := NewConsoleFifos(|tasks|);
      table := new ConnTable(tasks, engine);
      rx, tx := r, t;
      new;
      engine.Request(EnableAdvertising);
      engine.Request(SetEvent(mainTask, START_DEVICE_EVT));
    }
  }
}
