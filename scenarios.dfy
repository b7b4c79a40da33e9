/** Client walks through the forwarder: each method drives one BluetoothForwarder
    through a sequence of tasks and callbacks and asserts what the contracts of the
    class alone let a caller conclude. */
module Scenarios {
  import opened Chunking
  import opened Forwarder

  const Peer: string := "AA:BB:CC:DD:EE:FF"

  /** connect, scan match, GATT connected, services found with MTU 100 granted: the
      chunk size is 97 and the listener hears exactly one onConnected. */
  method MtuGranted()
  {
    var f := new BluetoothForwarder(true);
    f.Connect(Some(Peer), true, true);
    assert f.scanTimeout == Some(Peer) && f.events == [];
    f.OnScanResult(Some(Peer), Opened);
    assert f.scanTimeout.None? && f.hasGatt;
    f.OnConnectionStateChange(GattSuccess, StateConnected, Some("drone"));
    f.OnServicesDiscovered(GattSuccess, true, Some(WriteTypeNoResponse), true);
    assert f.events == [] && f.hasRx;
    f.OnMtuChanged(100, GattSuccess);
    assert f.maxBleChunk == 97;
    assert f.events == [Connected(Some(Peer), Some("drone"), true)];
  }

  /** A scan that times out: connectInternal has already cleared `connecting` (its own
      disconnectInternal resets it), so the timeout stops the scan but reports nothing. */
  method ScanTimesOut()
  {
    var f := new BluetoothForwarder(true);
    f.Connect(Some(Peer), true, true);
    f.OnScanTimeout();
    assert f.events == [];
    assert f.scanTimeout.None? && !f.hasGatt && f.currentAddress == Some(Peer);
  }

  /** A scan result for another device is ignored while a connect is pending. */
  method ForeignDeviceIgnored()
  {
    var f := new BluetoothForwarder(true);
    f.Connect(Some(Peer), true, true);
    f.OnScanResult(Some("11:22:33:44:55:66"), Opened);
    assert f.scanTimeout == Some(Peer) && !f.hasGatt;
  }

  /** connect, scan match, GATT connected, services found, MTU 23 granted: a ready link
      with the minimum chunk size of 20 bytes and an empty queue. */
  method ReadyAtMinimumMtu() returns (f: BluetoothForwarder)
    ensures fresh(f) && f.Valid() && f.Settled() && f.hasListener
    ensures f.maxBleChunk == 20 && f.hasGatt && f.hasRx && f.currentIsBle
    ensures f.wire == [] && f.writeQueue == [] && !f.bleWriting
    ensures f.currentAddress == Some(Peer)
    ensures f.events == [Connected(Some(Peer), Some(Peer), true)]
  {
    f := new BluetoothForwarder(true);
    f.Connect(Some(Peer), true, true);
    f.OnScanResult(Some(Peer), Opened);
    f.OnConnectionStateChange(GattSuccess, StateConnected, None);
    f.OnServicesDiscovered(GattSuccess, true, Some(WriteTypeNoResponse), true);
    f.OnMtuChanged(23, GattSuccess);
  }

  /** A 257-byte send over a 20-byte chunk size becomes 13 fragments; the first goes out at
      once, each successful completion releases the next, and when the seventh write
      fails the link is dropped with one onDisconnected and nothing more is written. */
  method SeventhWriteFails()
  {
    var f := ReadyAtMinimumMtu();
    var connected := f.events;

    var data: seq<Byte> := seq(257, i => (i % 256) as Byte);
    ghost var fs := Chunk(data, 20);
    ChunkCount(data, 20);
    assert |fs| == 13;
    assert CopyOf(data, 257) == data;
    f.OnMavlinkRaw(data, 257, true);
    assert f.wire == fs[..1] && f.writeQueue == fs[1..];

    var k := 1;
    while k < 7
      invariant 1 <= k <= 7
      invariant f.Valid() && f.Settled() && f.inFlight == 1 && f.hasGatt && f.hasRx
      invariant f.wire == fs[..k] && f.writeQueue == fs[k..]
      invariant f.events == connected && f.currentAddress == Some(Peer)
      modifies f
    {
      f.OnCharacteristicWrite(true, GattSuccess, true);
      assert fs[..k] + [fs[k]] == fs[..k + 1];
      k := k + 1;
    }
    assert |f.wire| == 7;

    f.OnCharacteristicWrite(true, 133, true);
    assert f.events == connected + [Disconnected(Some(Peer), WriteFailed, true)];
    assert f.writeQueue == [] && !f.bleWriting && !f.hasGatt && !f.hasRx;

    f.OnMavlinkRaw(data, 257, true);
    assert |f.wire| == 7;
  }

  /** A connect while a link is up tears it down first; the listener hears the old link's
      onDisconnected once, then the scan for the new address starts. closeBle does not
      reset the chunk size, so the old link's 97 carries over. */
  method ReconnectWhileReady()
  {
    var f := new BluetoothForwarder(true);
    f.Connect(Some(Peer), true, true);
    f.OnScanResult(Some(Peer), Opened);
    f.OnConnectionStateChange(GattSuccess, StateConnected, None);
    f.OnServicesDiscovered(GattSuccess, true, Some(2), true);
    f.OnMtuChanged(100, GattSuccess);
    assert f.events == [Connected(Some(Peer), Some(Peer), true)];
    f.Connect(Some("11:22:33:44:55:66"), true, true);
    assert f.events == [Connected(Some(Peer), Some(Peer), true),
                        Disconnected(Some(Peer), ConnectionClosed, true)];
    assert !f.hasGatt && f.scanTimeout == Some("11:22:33:44:55:66");
    assert f.maxBleChunk == 97;
  }

  /** Services found but requestMtu refused: the chunk size falls back by write type. */
  method MtuRequestRefused()
  {
    var f := new BluetoothForwarder(true);
    f.Connect(Some(Peer), true, true);
    f.OnScanResult(Some(Peer), Opened);
    f.OnServicesDiscovered(GattSuccess, true, Some(WriteTypeNoResponse), false);
    assert f.maxBleChunk == 182 && f.hasRx;
    assert f.events == [Connected(Some(Peer), Some(Peer), true)];
  }

  /** disconnect(false) during a scan cancels it silently. */
  method SilentDisconnectWhileScanning()
  {
    var f := new BluetoothForwarder(true);
    f.Connect(Some(Peer), true, true);
    f.Disconnect(false);
    assert f.events == [] && f.scanTimeout.None? && f.currentAddress.None?;
    assert !f.suppressNotifications;
  }
}
