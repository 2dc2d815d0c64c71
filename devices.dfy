/**
  The device registry: building the index-to-record dictionary from the
  configured devices and the enumerated ports, and clearing every device's
  callbacks at shutdown.
 */
module Devices {
  import opened Wrappers
  import opened Ports
  import opened Reader

  /** `SerialDeviceConfig`: one configured device. */
  datatype DeviceConfig = DeviceConfig(serialNumber: string, baudrate: int, name: string)

  /** The read timeout, in seconds, every device is opened with. */
  const ReadTimeout: int := 1

  /**
    Configured device `cfg`, at position `idx`, is attached (its serial
    number resolves to a port) and opening that port at its baud rate
    succeeds. `canOpen(idx, port, baud)` stands for the open attempted for
    configuration `idx` not raising `SerialException`; it is indexed by the
    attempt because the outcome depends on the live system, for instance on
    an earlier configuration still holding the same port.
   */
  predicate Opens(cfg: DeviceConfig, idx: int, serialMap: map<string, string>, canOpen: (int, string, int) -> bool)
  {
    cfg.serialNumber in serialMap && canOpen(idx, serialMap[cfg.serialNumber], cfg.baudrate)
  }

  /**
    `d` is the record `initialize_serial_devices` stores for configuration
    `cfg` at index `i`: it carries `i`, the configured name, the connection
    on the port `cfg`'s serial number resolves to, and the reader thread of
    that connection.
   */
  ghost predicate RecordFor(d: DeviceInfo, i: int, cfg: DeviceConfig, serialMap: map<string, string>)
  {
    && cfg.serialNumber in serialMap
    && d.index == i
    && d.name == cfg.name
    && d.serial == SerialConnection(serialMap[cfg.serialNumber], cfg.baudrate, ReadTimeout)
    && d.reader == ReaderThread(d.serial)
  }

  /** The reader of record `d` has no callbacks yet and reports `d` itself to them. */
  ghost predicate Installed(d: DeviceInfo)
    reads d.protocol
  {
    d.protocol.Valid() && d.protocol.callbacks == {} && d.protocol.info == Some(d)
  }

  /**
    The body of the `try` block for a port that opens: the connection, a new
    reader constructed with a None placeholder for its record, the reader
    thread, and the record, which is then handed to the reader.
   */
  method OpenDevice(idx: int, name: string, port: string, baud: int) returns (record: DeviceInfo)
    ensures record == DeviceInfo(name, SerialConnection(port, baud, ReadTimeout), ReaderThread(record.serial), record.protocol, idx)
    ensures fresh(record.protocol) && Installed(record)
  {
    var ser := SerialConnection(port, baud, ReadTimeout);
    var protocol := new MultiCallbackReader(None);
    var thread := ReaderThread(ser);
    record := DeviceInfo(name, ser, thread, protocol, idx);
    protocol.SetSerialDeviceInfo(record);
  }

  /**
    `initialize_serial_devices`, with the missing constructor argument at
    the reader's construction supplied as a None placeholder that
    `SetSerialDeviceInfo` then overwrites. Index `i` is registered exactly
    when configuration `i` is attached and opens; its record is `RecordFor`
    that configuration, and it owns a fresh reader, shared with no other
    index, that is `Installed`.
   */
  method InitializeSerialDevices(configs: seq<DeviceConfig>, ports: seq<PortInfo>, canOpen: (int, string, int) -> bool)
    returns (devices: map<int, DeviceInfo>)
    ensures forall i :: i in devices ==> 0 <= i < |configs|
    ensures forall i :: 0 <= i < |configs| ==>
      (i in devices <==> Opens(configs[i], i, SerialPortsBySerialNumber(ports), canOpen))
    ensures forall i :: i in devices ==>
      0 <= i < |configs| && RecordFor(devices[i], i, configs[i], SerialPortsBySerialNumber(ports))
    ensures forall i :: i in devices ==> fresh(devices[i].protocol) && Installed(devices[i])
    ensures forall i, j :: i in devices && j in devices && i != j ==> devices[i].protocol != devices[j].protocol
  {
    var serialMap := SerialPortsBySerialNumber(ports);
    devices := map[];
    for idx := 0 to |configs|
      invariant Built(devices, idx, configs, serialMap, canOpen)
      invariant forall i :: i in devices ==> fresh(devices[i].protocol) && Installed(devices[i])
    {
      var cfg := configs[idx];
      var sn, baud, name := cfg.serialNumber, cfg.baudrate, cfg.name;
      if sn !in serialMap {
        // "Device ... not found."
        BuiltSkip(devices, idx, configs, serialMap, canOpen);
      } else if !canOpen(idx, serialMap[sn], baud) {
        // SerialException: "Could not open ..."
        BuiltSkip(devices, idx, configs, serialMap, canOpen);
      } else {
        var record := OpenDevice(idx, name, serialMap[sn], baud);
        BuiltAdd(devices, idx, configs, serialMap, canOpen, record);
        devices := devices[idx := record];
      }
    }
  }

  /**
    `devices` is what the loop of `initialize_serial_devices` has built from
    the first `n` configurations: exactly the attached, openable ones among
    them, each with its record.
   */
  ghost predicate Built(devices: map<int, DeviceInfo>, n: int, configs: seq<DeviceConfig>,
                        serialMap: map<string, string>, canOpen: (int, string, int) -> bool)
  {
    && 0 <= n <= |configs|
    && (forall i :: 0 <= i < n ==> (i in devices <==> Opens(configs[i], i, serialMap, canOpen)))
    && (forall i :: i in devices ==> 0 <= i < n && RecordFor(devices[i], i, configs[i], serialMap))
  }

  /** Skipping configuration `n` (not attached, or its open raised) keeps `Built`. */
  lemma BuiltSkip(devices: map<int, DeviceInfo>, n: int, configs: seq<DeviceConfig>,
                  serialMap: map<string, string>, canOpen: (int, string, int) -> bool)
    requires Built(devices, n, configs, serialMap, canOpen) && n < |configs|
    requires !Opens(configs[n], n, serialMap, canOpen)
    ensures Built(devices, n + 1, configs, serialMap, canOpen)
  {
  }

  /** Storing the record of an attached, openable configuration `n` keeps `Built`. */
  lemma BuiltAdd(devices: map<int, DeviceInfo>, n: int, configs: seq<DeviceConfig>,
                 serialMap: map<string, string>, canOpen: (int, string, int) -> bool, record: DeviceInfo)
    requires Built(devices, n, configs, serialMap, canOpen) && n < |configs|
    requires Opens(configs[n], n, serialMap, canOpen)
    requires record.index == n && record.name == configs[n].name
    requires record.serial == SerialConnection(serialMap[configs[n].serialNumber], configs[n].baudrate, ReadTimeout)
    requires record.reader == ReaderThread(record.serial)
    ensures Built(devices[n := record], n + 1, configs, serialMap, canOpen)
  {
  }

  /**
    `shutdown`: clears the callbacks of every registered device's reader;
    each reader keeps its device record. Closing the reader thread and the
    port is not modelled.
   */
  method Shutdown(devices: map<int, DeviceInfo>)
    modifies set d | d in devices.Values :: d.protocol
    ensures forall i :: i in devices ==> devices[i].protocol.callbacks == {} && devices[i].protocol.Valid()
    ensures forall i :: i in devices ==> devices[i].protocol.info == old(devices[i].protocol.info)
  {
    var remaining := devices.Values;  // SERIAL_DEVICES.values()
    while remaining != {}
      invariant forall d :: d in remaining ==> d in devices.Values
      invariant forall i :: i in devices && devices[i] !in remaining ==> devices[i].protocol.callbacks == {}
      invariant forall i :: i in devices ==> devices[i].protocol.info == old(devices[i].protocol.info)
      decreases remaining
    {
      var dev :| dev in remaining;
      var proto := dev.protocol;
      proto.ClearCallbacks();
      remaining := remaining - {dev};
    }
  }

  /**
    What `initialize_serial_devices` does as written: `MultiCallbackReader()`
    is called without its required `info` argument, which raises TypeError.
    That is not the SerialException the loop catches, so the first
    configuration that is attached and opens aborts the whole call; without
    such a configuration the call returns an empty dictionary.
   */
  datatype AsWrittenOutcome = ReturnedEmpty | RaisedTypeError(index: nat)

  function InitializeSerialDevicesAsWritten(configs: seq<DeviceConfig>, ports: seq<PortInfo>, canOpen: (int, string, int) -> bool): (r: AsWrittenOutcome)
    ensures r == ReturnedEmpty <==> forall i :: 0 <= i < |configs| ==> !Opens(configs[i], i, SerialPortsBySerialNumber(ports), canOpen)
    ensures r.RaisedTypeError? ==>
      && r.index < |configs|
      && Opens(configs[r.index], r.index, SerialPortsBySerialNumber(ports), canOpen)
      && forall i :: 0 <= i < r.index ==> !Opens(configs[i], i, SerialPortsBySerialNumber(ports), canOpen)
  {
    AsWrittenFrom(configs, SerialPortsBySerialNumber(ports), canOpen, 0)
  }

  /** The loop of the as-written call, from configuration `idx` on. */
  function AsWrittenFrom(configs: seq<DeviceConfig>, serialMap: map<string, string>, canOpen: (int, string, int) -> bool, idx: nat): (r: AsWrittenOutcome)
    requires idx <= |configs|
    ensures r == ReturnedEmpty <==> forall i :: idx <= i < |configs| ==> !Opens(configs[i], i, serialMap, canOpen)
    ensures r.RaisedTypeError? ==>
      && idx <= r.index < |configs|
      && Opens(configs[r.index], r.index, serialMap, canOpen)
      && forall i :: idx <= i < r.index ==> !Opens(configs[i], i, serialMap, canOpen)
    decreases |configs| - idx
  {
    if idx == |configs| then ReturnedEmpty
    else if !Opens(configs[idx], idx, serialMap, canOpen) then AsWrittenFrom(configs, serialMap, canOpen, idx + 1)
    else RaisedTypeError(idx)
  }

  /**
    A single configured sensor that is attached and opens: as written the
    call raises at index 0, while the corrected `InitializeSerialDevices`
    registers index 0.
   */
  lemma AsWrittenLosesAttachedSensor()
    ensures var configs := [DeviceConfig("74134373633351D09221", 9600, "Step1")];
      var ports := [PortInfo(Some("74134373633351D09221"), "/dev/ttyACM0")];
      var canOpen := (attempt: int, port: string, baud: int) => true;
      && InitializeSerialDevicesAsWritten(configs, ports, canOpen) == RaisedTypeError(0)
      && Opens(configs[0], 0, SerialPortsBySerialNumber(ports), canOpen)
  {
    var ports := [PortInfo(Some("74134373633351D09221"), "/dev/ttyACM0")];
    assert ports[0].serialNumber == Some("74134373633351D09221");
    assert Carries(ports[0], "74134373633351D09221");
  }

  /**
    The same input as `AsWrittenLosesAttachedSensor` given to the corrected
    initialisation: index 0 is registered, with the configured name.
   */
  method CorrectedRegistersAttachedSensor() returns (devices: map<int, DeviceInfo>)
    ensures 0 in devices && devices[0].name == "Step1" && devices[0].index == 0
  {
    var configs := [DeviceConfig("74134373633351D09221", 9600, "Step1")];
    var ports := [PortInfo(Some("74134373633351D09221"), "/dev/ttyACM0")];
    var canOpen := (attempt: int, port: string, baud: int) => true;
    AsWrittenLosesAttachedSensor();
    devices := InitializeSerialDevices(configs, ports, canOpen);
  }
}
