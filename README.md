# BluetoothForwarder: BLE write path and connection bookkeeping

This project models the BLE half of PixelPilot's `BluetoothForwarder`. The forwarder
takes raw MAVLink frames from the native layer and sends them to one remote peripheral
over the Nordic UART service (NUS). It owns four things:

- the connection state machine: address-filtered scan, GATT connect, service discovery
  and the MTU request;
- the chunking encoder, which splits each outbound buffer into fragments of at most
  `maxBleChunk` bytes;
- the write queue and pump, which keep at most one characteristic write in flight;
- teardown and listener notification (`onConnected`, `onConnectionFailed`,
  `onDisconnected`).

Every task the forwarder posts to its handler thread, and every scan or GATT callback,
is one atomic method of the class `Forwarder.BluetoothForwarder`. What the platform
decides arrives as a parameter of that method:

- whether the adapter is enabled;
- what `connectGatt` returned;
- whether `requestMtu` and `writeCharacteristic` were accepted;
- the status codes of the callbacks.

The listener calls go into the ghost log `events`. The fragments that
`writeCharacteristic` accepted go into the ghost log `wire`. The ghost counter
`inFlight` counts writes whose completion is still outstanding.

Files:

- `chunking.dfy` (module `Chunking`): the loop of `enqueueBleWrite` as the function
  `Chunk`, its inverse `Flatten`, `Arrays.copyOf`, and the lemmas about them.
- `forwarder.dfy` (module `Forwarder`): events, the MTU rule and the class. The object
  invariant `Valid()` says three things:
  - the chunk size is at least 20;
  - every queued fragment is non-empty;
  - `bleWriting` holds exactly when one write is in flight.
- `scenarios.dfy` (module `Scenarios`): client methods that drive one forwarder through
  end-to-end sequences and assert the outcomes. They cover an MTU of 100 giving chunk
  size 97, a 257-byte send at chunk size 20 whose seventh write fails, a reconnect, a
  scan timeout, and a silent disconnect.

## Behaviour that follows the code

The model follows the code where its behaviour is easy to misread:

- **`connecting` is never true between tasks.** `connectInternal` sets the flag (line
  248) and then calls `disconnectInternal` (line 252), which clears it again (line 393).
  So the scan-timeout task never reports `onConnectionFailed` (lines 331-334). The
  "already connecting" guard at line 248 never fires between tasks either. Every public
  method ensures `old(Settled()) ==> Settled()`, and `Scenarios.ScanTimesOut` shows the
  silent timeout.
- **Reconnecting is not silent.** A connect while a link is up reports the old link's
  `onDisconnected` through `disconnectInternal`, because suppression is off there.
- **The scan filter accepts any device when no address is set** (line 100).
- **`closeBle` does not reset `maxBleChunk`**, so the chunk size carries over to the next
  connection (`Scenarios.ReconnectWhileReady`).
- **A missing scanner leaves `currentAddress` set** after the failure report (lines 261
  and 313-317).
- **Sends are queued whenever a GATT handle and RX characteristic are held** and the link
  is marked BLE. This includes the time before the MTU exchange completes.
- **There is no stale-completion guard** in `onCharacteristicWrite`. The model delivers
  a completion only for a write in flight (see Left out).

## Model

| member | source | states |
|---|---|---|
| `Chunking.ChunkFlatten` | app/src/main/java/com/openipc/pixelpilot/bluetooth/BluetoothForwarder.java:457-463 | Concatenating the fragments in queue order gives back exactly the payload (round trip). |
| `Chunking.ChunkSizes` | app/src/main/java/com/openipc/pixelpilot/bluetooth/BluetoothForwarder.java:458-462 | Every fragment has between 1 and `maxBleChunk` bytes, and all fragments except the last have exactly `maxBleChunk` bytes. |
| `Chunking.ChunkCountBounds` | app/src/main/java/com/openipc/pixelpilot/bluetooth/BluetoothForwarder.java:458-462 | The fragment count k satisfies (k-1)·n < L ≤ k·n for payload length L and chunk size n. |
| `Chunking.ChunkCount` | app/src/main/java/com/openipc/pixelpilot/bluetooth/BluetoothForwarder.java:458-462 | A payload of L bytes becomes ceil(L/n) fragments. |
| `Chunking.SplitIsChunk` | app/src/main/java/com/openipc/pixelpilot/bluetooth/BluetoothForwarder.java:457-463 | Any fragment sequence of full n-byte pieces plus a last piece of 1..n bytes that reassembles to the payload is exactly the loop's output. |
| `Chunking.CopyOf` | app/src/main/java/com/openipc/pixelpilot/bluetooth/BluetoothForwarder.java:430 | The copy has exactly `length` bytes. It agrees with the caller's buffer on its first bytes and is zero beyond the buffer's end. |
| `Forwarder.MtuChunk` | app/src/main/java/com/openipc/pixelpilot/bluetooth/BluetoothForwarder.java:181-183 | After a granted MTU, the chunk size is at least 20 and at least mtu−3, the ATT Write Command payload. It equals one of the two. |
| `Forwarder.FallbackChunk` | app/src/main/java/com/openipc/pixelpilot/bluetooth/BluetoothForwarder.java:171-174 | The fallback chunk size when the MTU request cannot be issued lies between the 20-byte floor and `MtuChunk(185)`, what a grant of the requested MTU would give, so it never exceeds what the requested exchange allows. A write-without-response characteristic gets exactly that grant; any other gets the floor. |
| `Forwarder.BluetoothForwarder.constructor` | app/src/main/java/com/openipc/pixelpilot/bluetooth/BluetoothForwarder.java:61-78 | Starts idle: no handle, empty queue, chunk size 20, no address, no flags set, empty logs. |
| `Forwarder.BluetoothForwarder.NotifyFailed` | app/src/main/java/com/openipc/pixelpilot/bluetooth/BluetoothForwarder.java:413-417 | Logs one `onConnectionFailed` if a listener exists and notifications are not suppressed. Logs nothing otherwise. |
| `Forwarder.BluetoothForwarder.NotifyDisconnected` | app/src/main/java/com/openipc/pixelpilot/bluetooth/BluetoothForwarder.java:419-423 | Logs one `onDisconnected` under the same guard. |
| `Forwarder.BluetoothForwarder.FinishBleConnection` | app/src/main/java/com/openipc/pixelpilot/bluetooth/BluetoothForwarder.java:199-204 | Clears `connecting` and logs one `onConnected`. The name falls back to the address. Suppression does not apply. |
| `Forwarder.BluetoothForwarder.CloseBle` | app/src/main/java/com/openipc/pixelpilot/bluetooth/BluetoothForwarder.java:396-411 | From any state: no handle, no characteristic, empty queue, `bleWriting` false, nothing in flight. Touches no other field. |
| `Forwarder.BluetoothForwarder.StopBleScan` | app/src/main/java/com/openipc/pixelpilot/bluetooth/BluetoothForwarder.java:339-355 | Cancels the pending scan timeout and touches nothing else. |
| `Forwarder.BluetoothForwarder.DisconnectInternal` | app/src/main/java/com/openipc/pixelpilot/bluetooth/BluetoothForwarder.java:368-394 | Leaves the forwarder idle: link closed, scan cancelled, address, name and `currentIsBle` cleared, `connecting` false. Logs `onDisconnected` only if an address was set and notifications are not suppressed. Keeps the chunk size. |
| `Forwarder.BluetoothForwarder.Disconnect` | app/src/main/java/com/openipc/pixelpilot/bluetooth/BluetoothForwarder.java:223-229 | Same teardown. Logs `onDisconnected` only when `notify` is set and an address was held. Restores `suppressNotifications` to false. |
| `Forwarder.BluetoothForwarder.StartBleScan` | app/src/main/java/com/openipc/pixelpilot/bluetooth/BluetoothForwarder.java:304-337 | With a scanner: sets the address and arms the timeout with that address. Without one: logs `onConnectionFailed` and clears `connecting`. |
| `Forwarder.BluetoothForwarder.Connect` | app/src/main/java/com/openipc/pixelpilot/bluetooth/BluetoothForwarder.java:243-273 | A null or empty address logs one failure and changes nothing else. A connect while `connecting` is set changes nothing. Otherwise it tears the old link down first (logging its disconnect), then reports an unavailable adapter or scanner, or starts scanning for the address. From a settled state, every path ends with `connecting` false. |
| `Forwarder.BluetoothForwarder.ConnectGatt` | app/src/main/java/com/openipc/pixelpilot/bluetooth/BluetoothForwarder.java:357-366 | The handle is present if `connectGatt` returned one and absent if it returned null. A security exception leaves the handle as it was, logs `onConnectionFailed` and clears `connecting`. |
| `Forwarder.BluetoothForwarder.OnScanResult` | app/src/main/java/com/openipc/pixelpilot/bluetooth/BluetoothForwarder.java:95-106 | A null device or address, or an address other than the one set, changes nothing. Any other result (any device when no address is set) stops the scan and opens GATT. |
| `Forwarder.BluetoothForwarder.OnScanFailed` | app/src/main/java/com/openipc/pixelpilot/bluetooth/BluetoothForwarder.java:116-120 | Logs `onConnectionFailed` for the current address and clears `connecting`. The timeout stays armed. |
| `Forwarder.BluetoothForwarder.OnScanTimeout` | app/src/main/java/com/openipc/pixelpilot/bluetooth/BluetoothForwarder.java:328-335 | A cancelled timeout does nothing. An armed one stops the scan and reports a failure only while `connecting` is set. In a settled state it therefore reports nothing. |
| `Forwarder.BluetoothForwarder.OnConnectionStateChange` | app/src/main/java/com/openipc/pixelpilot/bluetooth/BluetoothForwarder.java:125-144 | An error status logs a failure and closes the link. Connected marks the link BLE and records the device name. Disconnected logs `onDisconnected` and closes the link. Any other state changes nothing. |
| `Forwarder.BluetoothForwarder.OnServicesDiscovered` | app/src/main/java/com/openipc/pixelpilot/bluetooth/BluetoothForwarder.java:147-177 | An error status, a missing service or a missing RX characteristic each log one failure and close the link. Otherwise the RX characteristic is held. If the MTU request was issued, it then waits. If not, it sets the fallback chunk size and logs `onConnected`. |
| `Forwarder.BluetoothForwarder.OnMtuChanged` | app/src/main/java/com/openipc/pixelpilot/bluetooth/BluetoothForwarder.java:180-188 | The chunk size becomes `MtuChunk(mtu)` on success and 20 on failure. Either way it logs one `onConnected`. |
| `Forwarder.BluetoothForwarder.OnMavlinkRaw` | app/src/main/java/com/openipc/pixelpilot/bluetooth/BluetoothForwarder.java:426-451 | With length ≤ 0, or on a non-BLE link, nothing changes. Otherwise a copy of the first `length` bytes goes through `enqueueBleWrite`, with that method's guarantees. |
| `Forwarder.BluetoothForwarder.AppendFragments` | app/src/main/java/com/openipc/pixelpilot/bluetooth/BluetoothForwarder.java:457-463 | The loop appends exactly `Chunk(payload, maxBleChunk)` after the fragments already queued, so every queued fragment stays non-empty. |
| `Forwarder.BluetoothForwarder.EnqueueBleWrite` | app/src/main/java/com/openipc/pixelpilot/bluetooth/BluetoothForwarder.java:453-468 | Without a handle and characteristic, nothing changes. Otherwise the payload's fragments are appended after the queued ones. If the pump was busy, that is all. If it was idle, dispatch starts from the extended queue. |
| `Forwarder.BluetoothForwarder.WriteNextBleChunk` | app/src/main/java/com/openipc/pixelpilot/bluetooth/BluetoothForwarder.java:470-487 | Runs only with the pump flag set and nothing in flight. With no handle or an empty queue the pump stops. Otherwise exactly the head fragment is popped: if accepted, it goes on the wire as the one write in flight. If refused, the link drops as for a failed completion. |
| `Forwarder.BluetoothForwarder.HandleBleWriteCompleted` | app/src/main/java/com/openipc/pixelpilot/bluetooth/BluetoothForwarder.java:489-502 | A failure logs at most one `onDisconnected`, closes the link, clears `connecting` and writes nothing. A success with an empty queue clears `bleWriting`. A success with a non-empty queue issues exactly the head fragment. |
| `Forwarder.BluetoothForwarder.OnCharacteristicWrite` | app/src/main/java/com/openipc/pixelpilot/bluetooth/BluetoothForwarder.java:191-195 | A completion for another characteristic changes nothing. For the RX characteristic it ends the write in flight and acts as `handleBleWriteCompleted`. |

## Left out

- Threads, `ioHandler.post` and `postDelayed`. Each posted task and each callback is one
  atomic method. The 8-second delay is the explicit event `OnScanTimeout`. No wall-clock
  time is modelled.
- Interleaving of callbacks with handler tasks. The scan and GATT callbacks (lines
  93-196) run on platform binder threads and are never posted to `ioHandler`. They
  change `writeQueue` (an unsynchronised `ArrayDeque`) and the non-volatile `bleWriting`
  while handler tasks may be changing them too. Running every callback and task as one
  atomic step rules out interleavings that the code allows. One example: a completion
  finds the queue empty (line 497), then a posted `enqueueBleWrite` appends fragments and
  sees `bleWriting` still true (line 464), then line 498 clears the flag. Those fragments
  stay queued and no write is issued for them. Data races on the deque and missed
  visibility of the flags are not modelled either.
- Whether a scan is running. `OnScanResult` and `OnScanFailed` are accepted in any state,
  including after `stopScan`, and the platform may still deliver them then.
- Uncaught platform exceptions. Each one ends the posted task or callback part-way
  through, and the model has no such outcome:
  - `ScanFilter.Builder.setDeviceAddress` (line 325) throws `IllegalArgumentException`
    for a non-empty address that is not an upper-case `XX:XX:XX:XX:XX:XX`. At that point
    `currentAddress` is already set (line 320), and no scan or timeout is armed. The
    model accepts any non-empty string and arms the timeout for it.
  - A `SecurityException` can escape from `startScan` (line 327), `discoverServices`
    (line 137), `requestMtu` (line 169) and `writeCharacteristic` (line 482).
  - `Arrays.copyOf` (line 430) throws `NullPointerException` for a null `data`. The model
    takes `data` as a byte sequence, which cannot be null.
  - Only the `SecurityException` of `connectGatt` (line 361) and the exceptions that
    `stopScan` swallows (line 352) are represented.
- Android Bluetooth APIs. Their results are method parameters, and handles are present
  or absent flags. Callbacks are not told apart by the `gatt` object they came from,
  because the code ignores it apart from the device name.
- `BluetoothAdapter.getDefaultAdapter()` returning null is not modelled. Only a disabled
  adapter is. With no adapter, `stopBleScan` (lines 347-348) would dereference null
  before the check at line 255.
- `onBatchScanResults` (lines 109-113) is not modelled separately. It calls
  `onScanResult` for each result in order, which is `OnScanResult` applied once per
  element.
- SPP: `connectSpp` (lines 275-302) is never called, so the socket and output stream
  are always null. `writeSpp` (lines 440-451) therefore returns at once, and the non-BLE
  branch of `OnMavlinkRaw` is a drop.
- `release()` is `disconnect(false)` followed by stopping the handler thread. It is not
  modelled separately.
- Not modelled: `Build.VERSION` checks (taken as true), logging, the message texts (the
  `Reason` tags stand in for them), the getters, `setPreferredMode`, and the ignored
  `blePreferred` argument of `connect`.
- `setValue` and `setWriteType(NO_RESPONSE)` on the characteristic are not state in the
  model. The write type seen at discovery is a parameter.
- Closing and disconnecting a handle swallows exceptions, and `connectGatt` overwrites a
  handle without closing it. The model tracks only whether a handle is present.
- `Forwarder.BluetoothForwarder.OnCharacteristicWrite` requires a write in flight. It
  relies on the platform reporting one completion per accepted write on an open handle.
  A completion delivered without a write in flight is not modelled.
- `Forwarder.MtuChunk` does not model the 32-bit wrap-around of `mtu - 3` for an `mtu`
  within 3 of the smallest `int`. The stack reports values from 23 to 517.
