# CH582 BLE peripheral firmware: a Dafny model

This project models the application layer of a BLE peripheral that runs on a
CH582 chip. The firmware sits on the vendor's BLE stack and its TMOS task
scheduler. Up to a fixed number of centrals connect at once. Each link takes
a slot of a table. Each slot owns a TMOS task whose timers drive link
maintenance: a connection-parameter request, a PHY switch to 2M, RSSI polling
and a periodic task. A slot also owns a pair of byte FIFOs that tunnel a
console to the central. The firmware serves three GATT services:

- a console service, whose reads drain the console's output FIFO and whose
  writes fill its input FIFO;
- a system-information service, with the system clock and the chip UID;
- in the older single-file variant (app/ble.c), a test service with a
  96-byte scratch pad per slot, and a system-information service with a
  chip name.

What is modelled:

- `Fifo`: the ring buffer of lib/fifo8.c, as a class over an array, with a
  ghost sequence of its contents.
- `SlotTable`: the slot table, its linear scans, and the two link handlers.
  It also has the connection-interval callback's arithmetic for both
  variants.
- `Events` and `Dispatch`: the one-event-per-call dispatch and the requests
  each event makes.
- `Att`: the read rule for fixed-size values, next to the Read Blob rule of
  the Bluetooth Core Specification v5.x (Vol 3, Part F, section 3.4.4.5),
  and a client's long read against both. It also has the notification gate
  on the client configuration bit (Vol 3, Part G, section 3.3.3.3).
- `ConsoleService` and `SysInfoService`: the two services of ble/.
- `BleState` and `BleEvents`: the state of ble/ble.c and its task handlers.
- `AppState`, `AppServices` and `AppEvents`: app/ble.c.

The vendor stack is an `Engine` object. Every call the application makes into
it is appended to a ghost log of effects. Contracts state exactly which
requests an operation makes, in order.

The link handlers, slot scans and system-information write of app/ble.c
(app/ble.c:50-188 and 843-868) are the same code as in ble/. They are
modelled once, by `SlotTable.ConnTable` and `SysInfoService.WriteAttr`.

Notes on the code as written, which the model follows:

- `peri_connect_ProcessEvent` returns 0 for an unknown task, and for a mask
  with none of its events set. Any other pending bits are dropped; they are
  not handed back for redelivery.
- One `peripheralMTU` serves every link. It holds the MTU the central
  reported last, not a value per connection.
- A slot given back keeps its console FIFOs and their contents.

## Model

| member | source | states |
|---|---|---|
| Fifo.Fifo8.constructor | ble/ble.c:455-462 | a FIFO wired to a fresh zeroed buffer of the given size, empty, head 0 |
| Fifo.Fifo8.Reset | lib/fifo8.c:3-6 | head and count become 0; the FIFO is empty, used is 0 and free is the size |
| Fifo.Fifo8.Used | lib/fifo8.c:8-10 | the count of queued bytes, at most the size; no state changes |
| Fifo.Fifo8.Free | lib/fifo8.c:12-14 | size minus the queued count; 0 exactly when full |
| Fifo.Fifo8.Push | lib/fifo8.c:18-21 | given not full: the byte is appended to the contents and written at (head+num) % size; head is kept; num goes up by one; every other cell is unchanged; the invariant is preserved |
| Fifo.Fifo8.Pop | lib/fifo8.c:23-30 | given not empty: returns the oldest byte, buf[head]; it is removed from the contents; head advances modulo size; num goes down by one; the buffer is untouched |
| Fifo.PushThenDrain | lib/fifo8.c:18-30 | pushing bytes that fit and then popping everything yields the old contents followed by the bytes, in order |
| Events.FirstSet | ble/ble.c:348-402 | the event served is the first of the priority order set in the mask, or -1 exactly when none is |
| Events.ConnectServesOneEventInOrder | ble/ble.c:348-402 | the mask handed back clears the served bit; every other event keeps its pending state; the next event served comes strictly later in the order |
| Events.OrdersAreDisjoint | ble/ble.c:89-96 | the events of both priority orders are distinct single bits |
| Events.BleOrderServes | ble/ble.c:348-399 | ble/ble.c tests PARAM_UPDATE, PHY_UPDATE, READ_RSSI, PERIODIC and FORTH, in that order |
| Events.AppOrderServes | app/ble.c:929-967 | app/ble.c tests PARAM_UPDATE, PHY_UPDATE, READ_RSSI and PERIODIC, in that order |
| SlotTable.FirstMatch | ble/ble.c:64-84 | a lookup returns the lowest matching slot, or -1 exactly when no slot matches |
| SlotTable.CountUsedExtremes | ble/ble.c:47-57 | the used count equals the table size exactly when every slot is taken, and is 0 exactly when none is |
| SlotTable.FullIffAllUsed | ble/ble.c:42-45 | "no free slot" is the same as "used count equals table size" |
| SlotTable.UsedCountsLinks | ble/ble.c:47-57 | with no link in two slots, the used count is the number of live links |
| SlotTable.LinkHandleIsNew | ble/ble.c:64-73 | a handle that is not a live link is in no occupied slot |
| SlotTable.TakeKeepsTable | ble/ble.c:107-110 | giving a free slot to a new link keeps the table invariant, adds one to the used count and adds the link |
| SlotTable.ReleaseKeepsTable | ble/ble.c:132-143 | freeing a slot keeps the invariant, lowers the used count by its occupancy and removes its link |
| SlotTable.SameLinkKeepsTable | ble/ble.c:216-218 | rewriting a slot's periodic fields keeps the invariant, the count and the links |
| SlotTable.OwnHandleFindsOwnSlot | ble/ble.c:329-333 | a lookup of an occupied slot's own handle finds that slot |
| SlotTable.BleDelay | ble/ble.c:216-218 | interval + interval/2 ticks is three quarters of the connection interval rounded down to a tick; it is non-zero for a non-zero interval |
| SlotTable.AppDelay | app/ble.c:254 | interval*2+1 ticks is one connection interval plus one tick, never 0 |
| SlotTable.ParamUpdateTimers | ble/ble.c:209-221 | a parameter-update retry is armed exactly when the interval is outside [9, 100]; the periodic event is always armed, last, with the delay |
| SlotTable.Inc32 | ble/ble.c:333 | the periodic counter increments by one, wrapping from 2^32-1 to 0 |
| SlotTable.ConnTable.constructor | ble/ble.c:444-448 | one slot per registered task, in order: state 0, its task, handle GAP_CONNHANDLE_INIT, counters 0 |
| SlotTable.ConnTable.FindFree | ble/ble.c:31-40 | the lowest slot with state 0, or -1 |
| SlotTable.ConnTable.FindByConnHandle | ble/ble.c:64-73 | the lowest slot with the handle, whatever its state, or -1 |
| SlotTable.ConnTable.FindByTaskID | ble/ble.c:75-84 | the lowest slot owning that TMOS task ID, or -1 |
| SlotTable.ConnTable.IsFull | ble/ble.c:42-45 | true exactly when every slot is in use |
| SlotTable.ConnTable.Used | ble/ble.c:47-57 | the number of slots with non-zero state |
| SlotTable.ConnTable.FreeCount | ble/ble.c:59-62 | the table size minus the used count |
| SlotTable.ConnTable.LinkEstablished | ble/ble.c:98-125 | full table: the link is terminated and no slot changes. Otherwise the lowest free slot takes the link and nothing else changes; the used count rises by one; PARAM_UPDATE, PHY_UPDATE and READ_RSSI are armed on the slot's task |
| SlotTable.ConnTable.LinkTerminated | ble/ble.c:127-152 | unknown handle: no change. Otherwise the slot's periodic event is stopped; the slot is freed, keeping its task and counters; advertising is re-enabled; the link leaves the table |
| SlotTable.ConnTable.ParamUpdate | ble/ble.c:201-222 | the slot records the delay; the timers of ParamUpdateTimers are armed; links and count are unchanged |
| SlotTable.ConnTable.Tick | ble/ble.c:329-333 | the counter of the slot holding the handle goes up by Inc32; nothing else changes |
| Common.LittleEndianRoundTrip | ble/ble_sysinfo_svc.c:116-118 | the n little-endian bytes of a value below 256^n decode back to it |
| Att.FixedValueRead | ble/ble_sysinfo_svc.c:122-133 | an offset at or past the end is Invalid Offset; otherwise Success with the window of min(maxLen, size-offset) bytes |
| Att.FixedReadMatchesReference | ble/ble_sysinfo_svc.c:124-127 | the firmware's rule agrees with Read Blob except at offset == length, which it refuses |
| Att.LongReadCoreSpec | ble/ble_sysinfo_svc.c:122-133 | under the Core Specification's Read Blob rule a long read always collects the whole value |
| Att.LongReadFirmware | ble/ble_sysinfo_svc.c:122-133 | a client's long read collects the whole value, but ends in Invalid Offset when the rest is a whole number of full reads |
| Att.NotifyGate | ble/ble_console_svc.c:187-204 | notifications on: one notification of the payload, and the send status is reported; off: nothing is sent and IncorrectMode is reported |
| BleState.NewConsoleFifos | ble/ble.c:455-462 | each slot gets two empty FIFOs of 96 bytes with head 0; no two FIFOs or buffers alias |
| BleState.Peripheral.constructor | ble/ble.c:433-511 | the slot table and FIFOs as above; advertising enabled, then START_DEVICE set on the main task |
| ConsoleService.Read | ble/ble_console_svc.c:123-149 | RNW at offset 0 pops min(maxLen, used) of the oldest TX bytes, in order; CTL at offset 0 returns [free(rx), free(tx)] and changes nothing; a nonzero offset is Attribute Not Long; other UUIDs are Not Found with length 0 |
| ConsoleService.ReadsInSequence | ble/ble_console_svc.c:123-133 | two RNW reads hand over the same bytes as one read of their combined length |
| ConsoleService.Write | ble/ble_console_svc.c:166-184 | RNW appends the prefix of the data that fits in RX and succeeds whatever the offset; CCC returns the stack's status; other UUIDs are Not Found |
| ConsoleService.WriteKeepsWhatFits | ble/ble_console_svc.c:166-173 | nothing is lost when the data fits; otherwise RX ends full and only the tail is dropped |
| ConsoleService.NotifyDrain | ble/ble_console_svc.c:206-239 | nothing when notifications are off or TX is empty; otherwise exactly min(ATT_MTU_SIZE-4, used) oldest TX bytes leave as the payload, and the rest stays |
| ConsoleService.NotifyIsBoundedRead | ble/ble_console_svc.c:206-239 | the notify path takes exactly what an RNW read of ATT_MTU_SIZE-4 bytes would |
| ConsoleService.PopInto | ble/ble_console_svc.c:129-131 | the pop loop returns the first n queued bytes and leaves the rest |
| ConsoleService.PushWhileRoom | ble/ble_console_svc.c:168-172 | the push loop appends the prefix of the data that fits and never pushes onto a full FIFO |
| ConsoleService.DrainTx | ble/ble_console_svc.c:129-131 | the pop loop on one slot's TX returns its first n bytes; every other FIFO keeps its contents |
| ConsoleService.FillRx | ble/ble_console_svc.c:168-172 | the push loop on one slot's RX appends what fits; every other FIFO keeps its contents |
| ConsoleService.ReadAttr | ble/ble_console_svc.c:109-150 | an unknown connection gets Invalid PDU and no change; otherwise the slot's FIFOs go through Read; only its TX can change |
| ConsoleService.WriteAttr | ble/ble_console_svc.c:152-185 | an unknown connection gets Invalid PDU; otherwise the slot's FIFOs go through Write; only its RX can change |
| ConsoleService.RnwNotify | ble/ble_console_svc.c:206-239 | the slot's TX goes through NotifyDrain; a payload is sent; popped bytes are gone whatever the send reports |
| SysInfoService.ClockRead | ble/ble_sysinfo_svc.c:111-120 | a nonzero offset is Attribute Not Long; otherwise the first min(maxLen, 4) bytes of the clock, little-endian |
| SysInfoService.ClockReadRoundTrip | ble/ble_sysinfo_svc.c:116-118 | a read of at least 4 bytes decodes back to the clock |
| SysInfoService.ReadAttr | ble/ble_sysinfo_svc.c:104-139 | clock as ClockRead; chip UID by the fixed-value rule (Invalid Offset exactly when offset >= 8); anything else Not Found with length 0; no lookup |
| SysInfoService.ChipUidLongReadCompletes | ble/ble_sysinfo_svc.c:122-133 | a long read of the UID with reads of more than 8 bytes completes with the whole UID |
| SysInfoService.WriteAttr | ble/ble_sysinfo_svc.c:141-166 | an unknown connection gets Invalid PDU; CCC returns the stack's status; anything else Not Found |
| SysInfoService.ClockNotification | ble/ble_sysinfo_svc.c:187-207 | no payload exactly when notifications are off; otherwise 4 bytes that decode to the clock |
| SysInfoService.ClockNotify | ble/ble_sysinfo_svc.c:168-207 | the log gains exactly the clock notification, or nothing |
| Dispatch.PeriodicRearm | ble/ble.c:377-382 | the periodic event re-arms exactly when the slot's delay is non-zero |
| Dispatch.ParamUpdateKeepsPeriodicRunning | ble/ble.c:216-221 | after a parameter update the app variant always re-arms the periodic event; the ble variant does so exactly for a non-zero interval |
| Dispatch.StepForths | ble/ble.c:393-396 | the interpreter tick is 101 steps |
| Dispatch.ServeLinkEvent | ble/ble.c:348-374 | the requests of the parameter-update, PHY and RSSI events; the table is unchanged |
| Dispatch.RearmPeriodic | ble/ble.c:377-382 | the log gains PeriodicRearm of the slot |
| Dispatch.ServeForth | ble/ble.c:388-399 | the do-while loop re-arms the event and then steps the interpreter 101 times |
| BleEvents.ParamUpdateCB | ble/ble.c:201-222 | the slot's delay becomes BleDelay(interval); the timers of ParamUpdateTimers are armed |
| BleEvents.PeriodicTask | ble/ble.c:329-337 | the slot's counter ticks; the clock notification, then the console drain of NotifyStep; only that slot's TX changes |
| BleEvents.ServePeriodic | ble/ble.c:376-386 | re-arm, then the periodic task on the slot's own link |
| BleEvents.ServeTimer | ble/ble.c:348-399 | every non-periodic event: its requests, and no change to table or FIFOs |
| BleEvents.ServeEvent | ble/ble.c:348-399 | the event at position 3 of the order is served as ServePeriodic; every other position as ServeTimer, with no change to the table or the FIFOs |
| BleEvents.ConnectProcessEvent | ble/ble.c:339-403 | returns the mask with the served bit flipped, or 0; unknown task or no event: no change; otherwise the served event's requests and state change |
| BleEvents.ProcessEvent | ble/ble.c:405-428 | system message first (the MTU is stored truncated to 8 bits), then START_DEVICE, then the slot events; the mask is ProcessResult |
| AppState.ChipName | app/ble.c:1005-1012 | 6 bytes, the last a NUL |
| AppState.ChipNameNamesChip | app/ble.c:1005-1012 | the name starts "CH5"; its next two characters read back as hexadecimal to the chip ID |
| AppState.Pad.constructor | app/ble.c:1017 | a pad with nothing used and 96 zero bytes |
| AppState.NewPads | app/ble.c:1017 | one cleared pad per slot; no two pads share a buffer |
| AppState.AppPeripheral.constructor | app/ble.c:1004-1076 | chip name from the chip ID; slots as in ble/; cleared pads; advertising enabled, then START_DEVICE set |
| AppServices.PadRead | app/ble.c:593-608 | empty pad: Success with length 0 whatever the offset; otherwise Invalid Offset exactly when offset >= padused, else the window |
| AppServices.ReadPad | app/ble.c:593-608 | the PAD_R branch on the pad's buffer answers exactly PadRead of the bytes in use |
| AppServices.PadReadMatchesReference | app/ble.c:593-608 | differs from Read Blob exactly at offset == padused > 0, and at offset > 0 on an empty pad |
| AppServices.PadWriteReadBack | app/ble.c:593-608 | a read from 0 that can take it all returns exactly what was written |
| AppServices.ByteSumConcat | app/ble.c:613-616 | the byte sum of a concatenation is the sum of the parts' sums |
| AppServices.PadSum | app/ble.c:610-619 | the 8-bit accumulator is the sum of the used bytes mod 256 |
| AppServices.Randomise | app/ble.c:621-625 | padused becomes the first draw mod 96; the used bytes are the next draws mod 256; the rest is unchanged |
| AppServices.Store | app/ble.c:694-695 | padused becomes the length and the used bytes the data; the rest is unchanged |
| AppServices.ReadAttr | app/ble.c:577-635 | unknown connection: Invalid PDU. PAD_R is PadRead; PAD_SUM is [sum mod 256]; PAD_RAND refills the pad and returns 2 bytes that decode to the new padused; other UUIDs are Not Found; only PAD_RAND changes a pad |
| AppServices.PadNotifyEffects | app/ble.c:654-670 | an echo is sent exactly when len <= MTU - 3 and notifications are on; it is a notification of the data on PAD_N |
| AppServices.PadEchoFitsMtu | app/ble.c:658-661 | every echo fits an ATT_MTU-3 payload (Core Specification Vol 3, Part F, 3.4.7.1); a fitting write is echoed whole |
| AppServices.PadNotify | app/ble.c:637-670 | the log gains exactly PadNotifyEffects |
| AppServices.PadWriteStatus | app/ble.c:672-711 | unknown connection: Invalid PDU. Pad write: Success iff len <= 96 and offset 0; Invalid Value when too long (wins over the offset); Attribute Not Long otherwise. CCC: the stack's status. Else Not Found |
| AppServices.WriteAttr | app/ble.c:672-711 | status as PadWriteStatus; on success the pad holds the data and the echo is logged; otherwise no pad or log change |
| AppServices.SysInfoRead | app/ble.c:807-841 | chip name by the fixed-value rule; clock as ClockRead; anything else Not Found with length 0 |
| AppServices.ChipNameLongRead | app/ble.c:814-825 | a long read of the chip name with reads of more than 6 bytes completes with the name |
| AppEvents.ParamUpdateCB | app/ble.c:237-257 | the slot's delay becomes AppDelay(interval); the timers of ParamUpdateTimers are armed |
| AppEvents.PeriodicTask | app/ble.c:911-918 | the slot's counter ticks; the clock is notified on the clock characteristic (corrected handle) |
| AppEvents.ServePeriodic | app/ble.c:957-967 | re-arm, then the periodic task on the slot's own link, with the corrected clock handle |
| AppEvents.ServeEvent | app/ble.c:929-967 | a link event (positions 0-2) makes its LinkRequests and changes no slot; the periodic event (position 3) is served as ServePeriodic, with the corrected clock handle |
| AppEvents.ConnectProcessEvent | app/ble.c:920-971 | as in ble/, over the four-event order, with no interpreter event; the periodic branch uses the corrected clock handle |
| AppEvents.ProcessEvent | app/ble.c:973-996 | system message first (the MTU is stored whole, as corrected), then START_DEVICE, then the slot events; the pads are untouched |
| AppEvents.MtuAsWritten | app/ble.c:304-320 | the 16-bit MTU stored into 8 bits keeps its value only below 256 |
| AppEvents.TruncatedMtuDropsEcho | app/ble.c:318-320 | as written, MTU 256 drops even a 1-byte echo and 517 drops a 3-byte one; both would go out with the whole MTU |
| AppEvents.WholeMtuEchoesEveryWrite | app/ble.c:658-699 | with the whole MTU of at least 99, every accepted pad write is echoed |
| AppEvents.ClockEffectsAsWritten | app/ble.c:870-887 | as written, the clock notification goes on the PAD_N value handle |
| AppEvents.ClockArrivesAsPadEcho | app/ble.c:881 | as written, the clock never arrives on the clock characteristic; it looks exactly like the echo of a 4-byte pad write |
| AppEvents.ClockArrivesOnClock | app/ble.c:889-909 | corrected, one notification per periodic event on the clock characteristic that decodes to the clock, or none when notifications are off |

## Left out

- Vendor stack calls are not modelled beyond the request they make. Requests are logged in a ghost `Engine.log`. This covers `tmos_start_task`, `tmos_stop_task`, `tmos_set_event`, the `GAPRole_*` calls, `GATT_Notification` and the start-device call. What the stack then does with them is outside this model.
- `GATT_bm_alloc`/`GATT_bm_free`: a failed allocation (NULL) and the buffer freed after a failed send are not modelled, because buffer management belongs to the stack.
- The client configuration value, the system clock, `tmos_rand`, `ATT_MTU_SIZE`, the chip UID and the chip ID register are parameters. The stack's CCC write handling and the send status are parameters too.
- The CCC value that `peripheralSysInfoSysClockNotify`/`peripheralConsoleRNWNotify` read and the one their gate reads again are taken as the same value, since no handler runs in between.
- `AppServices.ReadAttr`: the random numbers are a sequence of at least 96 draws, which is as many as one PAD_RAND read can consume.
- `stepforth` is modelled only as a counted call. The interpreter (forth/stepforth.h) is not part of this model, and neither are the `sfm`/`sft` fields of a slot.
- The GAP configuration, advertising and scan-response data, the device name string and the attribute table literals are left out. They are declarative data passed to the stack.
- `snprintf` of the device name is modelled only for the five characters copied into the chip name.
- `peripheralStateNotificationCB` and `Peripheral_ProcessGAPMsg` are left out because they only route to the link handlers or log. The link handlers receive the handle directly. `peripheralRssiCB` only logs.
- Debug printing and the PANIC macros are left out; they only log.
- SlotTable.ConnTable.ParamUpdate: requires a slot holding the link, because `peripheralParamUpdateCB` uses its lookup unchecked (ble/ble.c:205-221). The out-of-bounds access it would make otherwise is not modelled.
- SlotTable.ConnTable.Tick: requires a slot holding the link, because `performPeriodicTask` uses its lookup unchecked. The periodic event only runs on a slot with a link, and there the lookup finds that slot (`OwnHandleFindsOwnSlot`).
- SlotTable.ConnTable.LinkEstablished: requires the new handle to be a valid link handle that is not already in the table. The stack guarantees this.
- ConsoleService.NotifyDrain: requires ATT_MTU_SIZE >= 4. An ATT_MTU is at least 23 (Core Specification Vol 3, Part F, section 3.2.8), so `ATT_MTU_SIZE - 4` is never negative; a build with a smaller value is not modelled.
- `peripheralMTU` in ble/ble.c is written but read by nothing. The model stores it (truncated, as written) and proves nothing further about it.
- The hard-coded attribute-table indexes are modelled by the attribute UUID of the entry they pick. This is how the clock-notification finding below is stated.
- GAP_CONNHANDLE_INIT (0xFFFE) and SYS_EVENT_MSG (0x8000) are the vendor header values. The headers are not part of this model.
- PeriodicTask in AppEvents: models the corrected code. The clock goes out on the clock characteristic, not on the PAD_N value that app/ble.c:881 selects. The behaviour as written is `AppEvents.ClockEffectsAsWritten`; see Findings.
- ServePeriodic in AppEvents: runs the corrected `PeriodicTask`, so its clock notification goes on the clock characteristic, not on the PAD_N value of app/ble.c:881.
- ServeEvent in AppEvents: its periodic branch is the corrected `ServePeriodic`, with the clock on the clock characteristic rather than the PAD_N value of app/ble.c:881.
- ConnectProcessEvent in AppEvents: its periodic branch is the corrected `ServePeriodic`, with the clock on the clock characteristic rather than the PAD_N value of app/ble.c:881.
- ProcessEvent in AppEvents: models the corrected code. It stores the central's receive MTU whole, in the 16-bit `AppState.AppPeripheral.mtu`, where app/ble.c:304 and 319 keep it in a `uint8_t`. Its periodic branch uses the corrected clock handle. The store as written is `AppEvents.MtuAsWritten`; see Findings.

## Findings

| source | as written | input that shows it | evidently intended | confidence | as-written member | corrected member |
|---|---|---|---|---|---|---|
| app/ble.c:881 | `SysInfoSysClock_Notify` sets the handle of `TestAttrTbl[11]`, which is the pad echo value | any periodic event while the client has clock notifications on | notify on the clock value of the system-information table | high, not executed | AppEvents.ClockArrivesAsPadEcho | AppEvents.ClockArrivesOnClock |
| app/ble.c:304, 318-320 | the 16-bit client receive MTU is stored in the `uint8_t` `peripheralMTU` | a central reporting MTU 256 (stored as 0): every pad echo is dropped; 517 (stored as 5): echoes over 2 bytes are dropped | keep the MTU whole, so the echo bound is MTU - 3 | high, not executed | AppEvents.TruncatedMtuDropsEcho | AppEvents.WholeMtuEchoesEveryWrite |
