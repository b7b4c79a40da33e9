/** The BLE side of the Bluetooth MAVLink forwarder: connection bookkeeping, the GATT
    callbacks, the MTU rule and the write pump that keeps one fragment in flight.

    Every task posted to the forwarder's handler thread and every platform callback is
    one atomic method of BluetoothForwarder. What the platform decides (whether the
    adapter is on, what connectGatt returns, whether requestMtu or writeCharacteristic
    were accepted, callback status codes) arrives as a parameter. Listener calls are
    recorded in the ghost log `events`, accepted GATT writes in the ghost log `wire`. */
module Forwarder {
  import opened Chunking

  datatype Option<T> = None | Some(value: T)

  // Android platform constants BluetoothForwarder.java compares against.
  const GattSuccess := 0
  const StateDisconnected := 0
  const StateConnected := 2
  const WriteTypeNoResponse := 1

  /** The MTU the forwarder asks for (DEFAULT_MTU). */
  const RequestedMtu := 185
  /** Opcode and handle of an ATT Write Command: the part of the MTU that carries no payload. */
  const AttWriteHeader := 3
  /** Chunk size of the default 23-byte ATT MTU, and the floor of every chunk size. */
  const MinChunk := 20

  /** Why a listener was told that a link failed or ended (the Java code passes a message text). */
  datatype Reason =
    | EmptyAddress
    | BluetoothUnavailable
    | ScannerUnavailable
    | ScanFailed(code: int)
    | ScanTimedOut
    | PermissionDenied
    | GattError(status: int)
    | LinkLost
    | DiscoveryFailed(status: int)
    | ServiceMissing
    | RxMissing
    | WriteFailed
    | ConnectionClosed

  /** One call on the Listener interface. Addresses and names may be null in the Java code. */
  datatype Event =
    | Connected(address: Option<string>, name: Option<string>, ble: bool)
    | ConnectionFailed(address: Option<string>, reason: Reason, ble: bool)
    | Disconnected(address: Option<string>, reason: Reason, ble: bool)

  /** What device.connectGatt did: returned a handle, returned null, or threw SecurityException. */
  datatype GattOpen = Opened | NoHandle | SecurityDenied

  /** Chunk size after a successful MTU exchange: the ATT payload of the granted MTU,
      never below the 20-byte floor. */
  function MtuChunk(mtu: int): (c: int)
    ensures c >= MinChunk && c >= mtu - AttWriteHeader
    ensures c == MinChunk || c == mtu - AttWriteHeader
  {
    if MinChunk < mtu - AttWriteHeader then mtu - AttWriteHeader else MinChunk
  }

  /** Chunk size when requestMtu could not be issued. A write-without-response
      characteristic gets what a grant of the MTU that was going to be requested would
      have given; any other gets the floor. Either way the fallback lies between the
      floor and that grant, so it never exceeds what the requested exchange allows. */
  function FallbackChunk(writeType: int): (c: int)
    ensures MinChunk <= c <= MtuChunk(RequestedMtu)
    ensures writeType == WriteTypeNoResponse ==> c == MtuChunk(RequestedMtu)
    ensures writeType != WriteTypeNoResponse ==> c == MinChunk
  {
    if writeType == WriteTypeNoResponse then 182 else 20
  }

  class BluetoothForwarder {
    /** listener != null */
    const hasListener: bool

    /** bleGatt != null, bleRxCharacteristic != null */
    var hasGatt: bool
    var hasRx: bool
    var writeQueue: seq<seq<Byte>>
    var bleWriting: bool
    var maxBleChunk: int

    var currentAddress: Option<string>
    var currentName: Option<string>
    var currentIsBle: bool
    var connecting: bool
    var suppressNotifications: bool
    /** The posted scan-timeout task (bleScanTimeoutRunnable) and the address it captured. */
    var scanTimeout: Option<string>

    ghost var events: seq<Event>
    ghost var wire: seq<seq<Byte>>
    /** Writes accepted by writeCharacteristic whose completion has not been delivered. */
    ghost var inFlight: nat

    /** What holds at every point, including in the middle of the write pump. */
    ghost predicate Consistent()
      reads this
    {
      && maxBleChunk >= MinChunk
      && inFlight <= 1
      && (forall i :: 0 <= i < |writeQueue| ==> writeQueue[i] != [])
    }

    /** The object invariant between tasks: bleWriting is set exactly while one write
        is outstanding. */
    ghost predicate Valid()
      reads this
    {
      Consistent() && (bleWriting <==> inFlight == 1)
    }

    /** What holds between tasks on the handler thread in every reachable state: the
        `connecting` flag is only ever true inside connectInternal, and notification
        suppression only inside disconnect(false). */
    ghost predicate Settled()
      reads this
    {
      !connecting && !suppressNotifications
    }

    /** closeBle's postcondition. */
    ghost predicate LinkClosed()
      reads this
    {
      !hasGatt && !hasRx && writeQueue == [] && !bleWriting && inFlight == 0
    }

    /** disconnectInternal's postcondition. */
    ghost predicate Idle()
      reads this
    {
      && LinkClosed() && scanTimeout.None?
      && currentAddress.None? && currentName.None? && !currentIsBle && !connecting
    }

    /** notifyFailed / notifyDisconnected: a listener call unless there is no listener
        or notifications are suppressed. */
    ghost function Notice(e: Event): seq<Event>
      reads this
    {
      if hasListener && !suppressNotifications then [e] else []
    }

    /** The onDisconnected call disconnectInternal makes. */
    ghost function TeardownNotice(): seq<Event>
      reads this
    {
      if currentAddress.Some? && hasListener && !suppressNotifications
      then [Disconnected(currentAddress, ConnectionClosed, currentIsBle)]
      else []
    }

    /** The onConnected call finishBleConnection makes (not subject to suppression). */
    ghost function ConnectedNotice(): seq<Event>
      reads this
    {
      if hasListener
      then [Connected(currentAddress, if currentName.Some? then currentName else currentAddress, true)]
      else []
    }

    twostate predicate SameIdentity()
      reads this
    {
      && currentAddress == old(currentAddress)
      && currentName == old(currentName)
      && currentIsBle == old(currentIsBle)
    }

    twostate predicate SameSession()
      reads this
    {
      && scanTimeout == old(scanTimeout)
      && maxBleChunk == old(maxBleChunk)
      && suppressNotifications == old(suppressNotifications)
    }

    twostate predicate SameLink()
      reads this
    {
      && hasGatt == old(hasGatt) && hasRx == old(hasRx)
      && writeQueue == old(writeQueue) && bleWriting == old(bleWriting)
      && inFlight == old(inFlight) && wire == old(wire)
    }

    /** A failure path of the GATT callbacks: notify (unless suppressed), closeBle(),
        connecting := false; identity, scan and chunk size untouched, nothing written. */
    twostate predicate DroppedWith(e: Event)
      reads this
    {
      && events == old(events) + old(Notice(e))
      && LinkClosed() && !connecting && wire == old(wire)
      && SameIdentity() && SameSession()
    }

    /** The effect of writeNextBleChunk when the queue holds q: with no handle or an
        empty queue the pump stops; otherwise the head of q is polled and, if
        writeCharacteristic accepts it, goes on the wire as the one write in flight,
        and if not the link is dropped as for a failed completion. */
    twostate predicate Pumped(q: seq<seq<Byte>>, initiated: bool)
      reads this
    {
      if !(old(hasGatt) && old(hasRx)) || q == [] then
        && writeQueue == q && !bleWriting && inFlight == 0
        && hasGatt == old(hasGatt) && hasRx == old(hasRx)
        && wire == old(wire) && events == old(events) && connecting == old(connecting)
        && SameIdentity() && SameSession()
      else if initiated then
        && writeQueue == q[1..] && bleWriting && inFlight == 1
        && hasGatt == old(hasGatt) && hasRx == old(hasRx)
        && wire == old(wire) + [q[0]] && events == old(events) && connecting == old(connecting)
        && SameIdentity() && SameSession()
      else
        DroppedWith(Disconnected(old(currentAddress), WriteFailed, true))
    }

    constructor (hasListener: bool)
      ensures Valid() && Settled() && Idle()
      ensures this.hasListener == hasListener
      ensures maxBleChunk == MinChunk
      ensures events == [] && wire == []
    {
      this.hasListener := hasListener;
      hasGatt, hasRx := false, false;
      writeQueue, bleWriting, maxBleChunk := [], false, MinChunk;
      currentAddress, currentName, currentIsBle := None, None, false;
      connecting, suppressNotifications := false, false;
      scanTimeout := None;
      events, wire, inFlight := [], [], 0;
    }

    // ---------------------------------------------------------------- listener calls

    method NotifyFailed(address: Option<string>, reason: Reason, ble: bool)
      modifies this`events
      ensures events == old(events) + Notice(ConnectionFailed(address, reason, ble))
    {
      if hasListener && !suppressNotifications {
        events := events + [ConnectionFailed(address, reason, ble)];
      }
    }

    method NotifyDisconnected(address: Option<string>, reason: Reason, ble: bool)
      modifies this`events
      ensures events == old(events) + Notice(Disconnected(address, reason, ble))
    {
      if hasListener && !suppressNotifications {
        events := events + [Disconnected(address, reason, ble)];
      }
    }

    method FinishBleConnection()
      modifies this`events, this`connecting
      ensures !connecting
      ensures events == old(events) + old(ConnectedNotice())
    {
      connecting := false;
      if hasListener {
        var name := if currentName.Some? then currentName else currentAddress;
        events := events + [Connected(currentAddress, name, true)];
      }
    }

    // ---------------------------------------------------------------- teardown

    /** Closes the GATT handle and drops every queued fragment. */
    method CloseBle()
      modifies this`hasGatt, this`hasRx, this`writeQueue, this`bleWriting, this`inFlight
      ensures LinkClosed()
    {
      hasGatt, hasRx := false, false;
      writeQueue := [];
      bleWriting := false;
      inFlight := 0;
    }

    /** Cancels the posted scan timeout and stops the scanner. */
    method StopBleScan()
      modifies this`scanTimeout
      ensures scanTimeout.None?
    {
      scanTimeout := None;
    }

    method DisconnectInternal()
      requires Consistent()
      modifies this`hasGatt, this`hasRx, this`writeQueue, this`bleWriting, this`inFlight,
        this`scanTimeout, this`events, this`currentAddress, this`currentName, this`currentIsBle,
        this`connecting
      ensures Valid() && Idle()
      ensures events == old(events) + old(TeardownNotice())
    {
      StopBleScan();
      CloseBle();
      // The SPP socket and stream are never opened (connectSpp is not reachable), so
      // closing them changes nothing.
      if currentAddress.Some? && hasListener && !suppressNotifications {
        events := events + [Disconnected(currentAddress, ConnectionClosed, currentIsBle)];
      }
      currentAddress, currentName, currentIsBle := None, None, false;
      connecting := false;
    }

    /** The task disconnect(notify) posts. */
    method Disconnect(notify: bool)
      requires Valid()
      modifies this`hasGatt, this`hasRx, this`writeQueue, this`bleWriting, this`inFlight,
        this`scanTimeout, this`events, this`currentAddress, this`currentName, this`currentIsBle,
        this`connecting, this`suppressNotifications
      ensures Valid() && Idle() && !suppressNotifications
      ensures old(Settled()) ==> Settled()
      ensures events == old(events) +
        (if old(currentAddress).Some? && hasListener && notify
         then [Disconnected(old(currentAddress), ConnectionClosed, old(currentIsBle))]
         else [])
    {
      suppressNotifications := !notify;
      DisconnectInternal();
      suppressNotifications := false;
    }

    // ---------------------------------------------------------------- connecting

    method StartBleScan(address: string, scannerAvailable: bool)
      modifies this`events, this`connecting, this`currentAddress, this`scanTimeout
      ensures !scannerAvailable ==>
        && events == old(events) + Notice(ConnectionFailed(Some(address), ScannerUnavailable, true))
        && !connecting && currentAddress == old(currentAddress) && scanTimeout == old(scanTimeout)
      ensures scannerAvailable ==>
        && currentAddress == Some(address) && scanTimeout == Some(address)
        && events == old(events) && connecting == old(connecting)
    {
      if !scannerAvailable {
        NotifyFailed(Some(address), ScannerUnavailable, true);
        connecting := false;
        return;
      }
      currentAddress := Some(address);
      scanTimeout := Some(address);
    }

    /** The task connect(address, ...) posts (connectInternal; BLE is always chosen). */
    method Connect(address: Option<string>, adapterEnabled: bool, scannerAvailable: bool)
      requires Valid()
      modifies this`hasGatt, this`hasRx, this`writeQueue, this`bleWriting, this`inFlight,
        this`scanTimeout, this`events, this`currentAddress, this`currentName, this`currentIsBle,
        this`connecting
      ensures Valid()
      ensures old(Settled()) ==> Settled()
      // An absent or empty address is reported and changes nothing else.
      ensures (address.None? || address.value == "") ==>
        && events == old(events) + old(Notice(ConnectionFailed(address, EmptyAddress, true)))
        && SameLink() && SameIdentity() && SameSession() && connecting == old(connecting)
      // A connect while connectInternal holds the flag is ignored.
      ensures address.Some? && address.value != "" && old(connecting) ==> unchanged(this)
      // Otherwise the previous link is torn down first, then the scan starts.
      ensures address.Some? && address.value != "" && !old(connecting) ==>
        && LinkClosed() && !connecting && currentName.None? && !currentIsBle
        && events == old(events) + old(TeardownNotice()) +
             (if !adapterEnabled then old(Notice(ConnectionFailed(address, BluetoothUnavailable, true)))
              else if !scannerAvailable then old(Notice(ConnectionFailed(address, ScannerUnavailable, true)))
              else [])
        && currentAddress == (if adapterEnabled then address else None)
        && scanTimeout == (if adapterEnabled && scannerAvailable then Some(address.value) else None)
    {
      if address.None? || address.value == "" {
        NotifyFailed(address, EmptyAddress, true);
        return;
      }
      if connecting {
        return;
      }
      connecting := true;
      DisconnectInternal();
      if !adapterEnabled {
        connecting := false;
        NotifyFailed(address, BluetoothUnavailable, true);
        return;
      }
      currentAddress, currentIsBle, currentName := address, false, None;
      StartBleScan(address.value, scannerAvailable);
    }

    method ConnectGatt(device: string, outcome: GattOpen)
      modifies this`hasGatt, this`events, this`connecting
      ensures outcome == Opened ==> hasGatt && events == old(events) && connecting == old(connecting)
      ensures outcome == NoHandle ==> !hasGatt && events == old(events) && connecting == old(connecting)
      ensures outcome == SecurityDenied ==>
        && hasGatt == old(hasGatt) && !connecting
        && events == old(events) + Notice(ConnectionFailed(Some(device), PermissionDenied, true))
    {
      match outcome {
        case Opened => hasGatt := true;
        case NoHandle => hasGatt := false;
        case SecurityDenied =>
          NotifyFailed(Some(device), PermissionDenied, true);
          connecting := false;
      }
    }

    /** ScanCallback.onScanResult; `device` is None when the device or its address is null. */
    method OnScanResult(device: Option<string>, outcome: GattOpen)
      requires Valid()
      modifies this`scanTimeout, this`hasGatt, this`events, this`connecting
      ensures Valid()
      ensures old(Settled()) ==> Settled()
      // Ignored: no address, or an address other than the one being connected to.
      ensures device.None? || (old(currentAddress).Some? && old(currentAddress) != device) ==>
        unchanged(this)
      // Accepted (any device when no address is set): stop the scan and open GATT.
      ensures device.Some? && (old(currentAddress).None? || old(currentAddress) == device) ==>
        && scanTimeout.None? && SameIdentity()
        && maxBleChunk == old(maxBleChunk) && suppressNotifications == old(suppressNotifications)
        && hasRx == old(hasRx) && writeQueue == old(writeQueue) && bleWriting == old(bleWriting)
        && inFlight == old(inFlight) && wire == old(wire)
        && (outcome == Opened ==> hasGatt && events == old(events) && connecting == old(connecting))
        && (outcome == NoHandle ==> !hasGatt && events == old(events) && connecting == old(connecting))
        && (outcome == SecurityDenied ==>
              && hasGatt == old(hasGatt) && !connecting
              && events == old(events) + old(Notice(ConnectionFailed(device, PermissionDenied, true))))
    {
      if device.None? {
        return;
      }
      if currentAddress.Some? && currentAddress != device {
        return;
      }
      StopBleScan();
      ConnectGatt(device.value, outcome);
    }

    /** ScanCallback.onScanFailed */
    method OnScanFailed(code: int)
      requires Valid()
      modifies this`events, this`connecting
      ensures Valid()
      ensures old(Settled()) ==> Settled()
      ensures !connecting
      ensures events == old(events) + Notice(ConnectionFailed(currentAddress, ScanFailed(code), true))
    {
      NotifyFailed(currentAddress, ScanFailed(code), true);
      connecting := false;
    }

    /** The scan-timeout task, eight seconds after the scan started. Once cancelled by
        stopBleScan it never runs, which the model states as doing nothing. It reports a
        failure only when `connecting` is set, which never holds between tasks. */
    method OnScanTimeout()
      requires Valid()
      modifies this`scanTimeout, this`events, this`connecting
      ensures Valid()
      ensures old(Settled()) ==> Settled()
      ensures old(scanTimeout).None? ==> unchanged(this)
      ensures old(scanTimeout).Some? ==> scanTimeout.None?
      ensures old(scanTimeout).Some? && old(connecting) ==>
        && !connecting
        && events == old(events) + Notice(ConnectionFailed(Some(old(scanTimeout).value), ScanTimedOut, true))
      ensures !old(connecting) ==> events == old(events) && !connecting
    {
      if scanTimeout.None? {
        return;
      }
      var address := scanTimeout.value;
      StopBleScan();
      if connecting {
        NotifyFailed(Some(address), ScanTimedOut, true);
        connecting := false;
      }
    }

    // ---------------------------------------------------------------- GATT callbacks

    /** BluetoothGattCallback.onConnectionStateChange; deviceName is gatt.getDevice().getName(). */
    method OnConnectionStateChange(status: int, newState: int, deviceName: Option<string>)
      requires Valid()
      modifies this`hasGatt, this`hasRx, this`writeQueue, this`bleWriting, this`inFlight,
        this`events, this`connecting, this`currentIsBle, this`currentName
      ensures Valid()
      ensures old(Settled()) ==> Settled()
      ensures status != GattSuccess ==>
        DroppedWith(ConnectionFailed(old(currentAddress), GattError(status), true))
      ensures status == GattSuccess && newState == StateConnected ==>
        && currentIsBle && currentName == deviceName && currentAddress == old(currentAddress)
        && SameLink() && SameSession() && events == old(events) && connecting == old(connecting)
      ensures status == GattSuccess && newState == StateDisconnected ==>
        DroppedWith(Disconnected(old(currentAddress), LinkLost, true))
      ensures status == GattSuccess && newState != StateConnected && newState != StateDisconnected ==>
        unchanged(this)
    {
      if status != GattSuccess {
        NotifyFailed(currentAddress, GattError(status), true);
        CloseBle();
        connecting := false;
        return;
      }
      if newState == StateConnected {
        currentIsBle := true;
        currentName := deviceName;
        // gatt.discoverServices(): its outcome arrives as OnServicesDiscovered.
      } else if newState == StateDisconnected {
        NotifyDisconnected(currentAddress, LinkLost, true);
        CloseBle();
        connecting := false;
      }
    }

    /** BluetoothGattCallback.onServicesDiscovered. `hasService` is whether the NUS service
        was found, `rxWriteType` the write type of its RX characteristic (None when the
        characteristic is missing), `mtuRequested` what gatt.requestMtu(185) returned. */
    method OnServicesDiscovered(status: int, hasService: bool, rxWriteType: Option<int>, mtuRequested: bool)
      requires Valid()
      modifies this`hasGatt, this`hasRx, this`writeQueue, this`bleWriting, this`inFlight,
        this`events, this`connecting, this`maxBleChunk
      ensures Valid()
      ensures old(Settled()) ==> Settled()
      ensures status != GattSuccess ==>
        DroppedWith(ConnectionFailed(old(currentAddress), DiscoveryFailed(status), true))
      ensures status == GattSuccess && !hasService ==>
        DroppedWith(ConnectionFailed(old(currentAddress), ServiceMissing, true))
      ensures status == GattSuccess && hasService && rxWriteType.None? ==>
        DroppedWith(ConnectionFailed(old(currentAddress), RxMissing, true))
      ensures status == GattSuccess && hasService && rxWriteType.Some? ==>
        && hasRx && hasGatt == old(hasGatt)
        && writeQueue == old(writeQueue) && bleWriting == old(bleWriting)
        && inFlight == old(inFlight) && wire == old(wire)
        && SameIdentity() && scanTimeout == old(scanTimeout)
        && suppressNotifications == old(suppressNotifications)
        // MTU request issued: wait for OnMtuChanged.
        && (mtuRequested ==>
              maxBleChunk == old(maxBleChunk) && events == old(events) && connecting == old(connecting))
        // MTU request refused: fall back and report the link as connected.
        && (!mtuRequested ==>
              && maxBleChunk == FallbackChunk(rxWriteType.value)
              && events == old(events) + old(ConnectedNotice()) && !connecting)
    {
      if status != GattSuccess {
        NotifyFailed(currentAddress, DiscoveryFailed(status), true);
        CloseBle();
        connecting := false;
        return;
      }
      if !hasService {
        NotifyFailed(currentAddress, ServiceMissing, true);
        CloseBle();
        connecting := false;
        return;
      }
      if rxWriteType.None? {
        NotifyFailed(currentAddress, RxMissing, true);
        CloseBle();
        connecting := false;
        return;
      }
      hasRx := true;
      if !mtuRequested {
        maxBleChunk := FallbackChunk(rxWriteType.value);
        FinishBleConnection();
      }
    }

    /** BluetoothGattCallback.onMtuChanged */
    method OnMtuChanged(mtu: int, status: int)
      requires Valid()
      modifies this`maxBleChunk, this`events, this`connecting
      ensures Valid()
      ensures old(Settled()) ==> Settled()
      ensures maxBleChunk == (if status == GattSuccess then MtuChunk(mtu) else MinChunk)
      ensures !connecting && events == old(events) + old(ConnectedNotice())
    {
      if status == GattSuccess {
        maxBleChunk := MtuChunk(mtu);
      } else {
        maxBleChunk := MinChunk;
      }
      FinishBleConnection();
    }

    // ---------------------------------------------------------------- write path

    /** The task onMavlinkRaw(data, length) posts: a copy of the first `length` bytes is
        chunked onto the BLE queue. Over SPP the output stream is never open, so the
        payload is dropped. */
    method OnMavlinkRaw(data: seq<Byte>, length: int, initiated: bool)
      requires Valid()
      modifies this`hasGatt, this`hasRx, this`writeQueue, this`bleWriting, this`inFlight, this`wire,
        this`events, this`connecting
      ensures Valid()
      ensures old(Settled()) ==> Settled()
      ensures length <= 0 || !old(currentIsBle) ==> unchanged(this)
      ensures length > 0 && old(currentIsBle) && !(old(hasGatt) && old(hasRx)) ==> unchanged(this)
      ensures length > 0 && old(currentIsBle) && old(hasGatt) && old(hasRx) ==>
        if old(bleWriting) then
          && writeQueue == old(writeQueue) + Chunk(CopyOf(data, length), old(maxBleChunk))
          && bleWriting && inFlight == old(inFlight)
          && hasGatt == old(hasGatt) && hasRx == old(hasRx)
          && wire == old(wire) && events == old(events) && connecting == old(connecting)
        else
          Pumped(old(writeQueue) + Chunk(CopyOf(data, length), old(maxBleChunk)), initiated)
    {
      if length <= 0 {
        return;
      }
      var copy := CopyOf(data, length);
      if currentIsBle {
        EnqueueBleWrite(copy, initiated);
      }
    }

    /** The while loop over `offset` in enqueueBleWrite: appends the fragments of payload,
        each min(maxBleChunk, bytes left) long, to the queue, which keeps every queued
        fragment non-empty. */
    method AppendFragments(payload: seq<Byte>)
      requires Consistent()
      modifies this`writeQueue
      ensures Consistent()
      ensures writeQueue == old(writeQueue) + Chunk(payload, maxBleChunk)
    {
      var n := maxBleChunk;
      var offset := 0;
      while offset < |payload|
        invariant 0 <= offset <= |payload|
        invariant writeQueue + Chunk(payload[offset..], n) == old(writeQueue) + Chunk(payload, n)
        invariant Consistent()
      {
        var chunk := if n < |payload| - offset then n else |payload| - offset;
        ChunkFrom(payload, offset, n);
        writeQueue := writeQueue + [payload[offset..offset + chunk]];
        offset := offset + chunk;
      }
      assert payload[offset..] == [];
    }

    /** Appends the fragments of payload to the queue and starts the pump if it is idle;
        `initiated` is what writeCharacteristic returns. */
    method EnqueueBleWrite(payload: seq<Byte>, initiated: bool)
      requires Valid()
      modifies this`hasGatt, this`hasRx, this`writeQueue, this`bleWriting, this`inFlight, this`wire,
        this`events, this`connecting
      ensures Valid()
      ensures !(old(hasGatt) && old(hasRx)) ==> unchanged(this)
      ensures old(hasGatt) && old(hasRx) ==>
        if old(bleWriting) then
          && writeQueue == old(writeQueue) + Chunk(payload, old(maxBleChunk))
          && bleWriting && inFlight == old(inFlight)
          && hasGatt == old(hasGatt) && hasRx == old(hasRx)
          && wire == old(wire) && events == old(events) && connecting == old(connecting)
        else
          Pumped(old(writeQueue) + Chunk(payload, old(maxBleChunk)), initiated)
    {
      if !hasGatt || !hasRx {
        return;
      }
      AppendFragments(payload);
      if !bleWriting {
        bleWriting := true;
        WriteNextBleChunk(initiated);
      }
    }

    /** Polls the head of the queue and hands it to writeCharacteristic; `initiated` is
        what that call returned. Only called with the pump flag set and nothing in flight. */
    method WriteNextBleChunk(initiated: bool)
      requires Consistent() && bleWriting && inFlight == 0
      modifies this`hasGatt, this`hasRx, this`writeQueue, this`bleWriting, this`inFlight, this`wire,
        this`events, this`connecting
      ensures Valid()
      ensures Pumped(old(writeQueue), initiated)
      decreases 1
    {
      if !hasGatt || !hasRx {
        bleWriting := false;
        return;
      }
      if writeQueue == [] {
        bleWriting := false;
        return;
      }
      var chunk := writeQueue[0];
      writeQueue := writeQueue[1..];
      if initiated {
        wire := wire + [chunk];
        inFlight := 1;
      } else {
        HandleBleWriteCompleted(false, false);
      }
    }

    /** A write completion (or a write that failed to initiate). */
    method HandleBleWriteCompleted(success: bool, initiated: bool)
      requires Consistent() && bleWriting && inFlight == 0
      modifies this`hasGatt, this`hasRx, this`writeQueue, this`bleWriting, this`inFlight, this`wire,
        this`events, this`connecting
      ensures Valid()
      ensures !success ==> DroppedWith(Disconnected(old(currentAddress), WriteFailed, true))
      ensures success ==> Pumped(old(writeQueue), initiated)
      decreases if success then 2 else 0
    {
      if !success {
        NotifyDisconnected(currentAddress, WriteFailed, true);
        CloseBle();
        connecting := false;
        return;
      }
      if writeQueue == [] {
        bleWriting := false;
      } else {
        WriteNextBleChunk(initiated);
      }
    }

    /** BluetoothGattCallback.onCharacteristicWrite for the write in flight. `isRx` is
        whether the characteristic's UUID equals NUS_RX_UUID
        (6E400002-B5A3-F393-E0A9-E50E24DCCA9E); `initiated` is what writeCharacteristic
        returns if a next fragment is issued. */
    method OnCharacteristicWrite(isRx: bool, status: int, initiated: bool)
      requires Valid() && inFlight == 1
      modifies this`hasGatt, this`hasRx, this`writeQueue, this`bleWriting, this`inFlight, this`wire,
        this`events, this`connecting
      ensures Valid()
      ensures old(Settled()) ==> Settled()
      ensures !isRx ==> unchanged(this)
      ensures isRx && status != GattSuccess ==>
        DroppedWith(Disconnected(old(currentAddress), WriteFailed, true))
      ensures isRx && status == GattSuccess ==>
        Pumped(old(writeQueue), initiated)
    {
      if isRx {
        inFlight := 0;
        HandleBleWriteCompleted(status == GattSuccess, initiated);
      }
    }
  }
}
