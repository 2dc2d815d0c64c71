# Serial sensor device bookkeeping, in Dafny

This project models the device bookkeeping of a program that reads
line-delimited samples from USB-serial ultrasonic range sensors identified by
their hardware serial numbers (`src/main/sensors.py`). It has three parts:

- **Port resolution** (`Ports`, `ports.dfy`): `get_serial_ports_by_serial_number`
  turns the enumerated serial interfaces into a dictionary from serial number
  to device path. Ports that report no serial number (None or empty) are
  skipped. When two ports report the same serial number, the later one wins.
  The enumerated ports are a parameter.
- **The callback reader** (`Reader`, `reader.dfy`): `MultiCallbackReader` is a
  class with a mutable set of subscriber callbacks and the device record
  (`SerialDeviceInfo`, here `DeviceInfo`) it hands to them. `handle_line` calls
  every callback of a snapshot of the set with `(line, info)`. It catches an
  `Exception` raised by any callback and goes on. Callbacks are opaque values
  (`Value`) whose `Callable`/`NotCallable` tag plays the role of Python's
  `callable(func)`. Whether a callback raises on a line is an oracle parameter
  `raises`. `HandleLine` returns the log of calls it made.
- **The registry** (`Devices`, `devices.dfy`): `initialize_serial_devices`
  builds the index-to-record dictionary from the configured devices. A device
  is skipped when its serial number is not attached or when opening its port
  raises `SerialException`. Whether the open attempted for configuration `i`
  succeeds is the oracle `canOpen(i, port, baud)`.
  `shutdown` clears every registered reader's callbacks. The registry is
  passed to `Shutdown` as a parameter instead of the module global.

`wrappers.dfy` holds the `Option` type used for Python's `None`.

`src/main/sensors.py` has no per-device session state machine: it never
searches for a device again after initialisation and never reconnects or backs
off. `add_callback` returns nothing, so there is no subscription handle.
`shutdown` has no timeout. The model has none of these either.

## Model

| member | source | states |
|---|---|---|
| Ports.SerialPortsBySerialNumber | src/main/sensors.py:61-64 | The keys are exactly the non-empty serial numbers among the enumerated ports. Each key maps to the device path of the last port, in enumeration order, that reports it. |
| Ports.OnlyNumberedPortsMatter | src/main/sensors.py:64 | Ports that report no serial number (None or "") never influence the mapping. Filtering them out first gives the same dictionary. |
| Ports.AttachedPortResolves | src/main/sensors.py:63-64 | When a port with a serial number is enumerated last, that serial number resolves to its path, because nothing is cached. Every other serial number resolves as before. |
| Ports.UnnumberedPortIgnored | src/main/sensors.py:64 | One more port without a serial number leaves the mapping unchanged. |
| Reader.MultiCallbackReader.constructor | src/main/sensors.py:25-28 | A new reader has no callbacks and holds the given device record. |
| Reader.MultiCallbackReader.SetSerialDeviceInfo | src/main/sensors.py:30-31 | Replaces the device record. The callback set is not touched (frame `this`info`). |
| Reader.MultiCallbackReader.AddCallback | src/main/sensors.py:33-36 | A callable is added to the set. A non-callable leaves the set unchanged. Adding a registered callback again is a no-op. Only callables are ever in the set (`Valid`), and the device record is not touched. |
| Reader.MultiCallbackReader.RemoveCallback | src/main/sensors.py:38-40 | The new set is the old set minus `f`. It is a no-op when `f` is absent, and every other callback keeps its membership. |
| Reader.MultiCallbackReader.ClearCallbacks | src/main/sensors.py:42-44 | The set is empty afterwards, so a second clear changes nothing. |
| Reader.MultiCallbackReader.HandleLine | src/main/sensors.py:46-52 | Every callback of the snapshot is called exactly once with `(line, info)`, and no other callback is called. A callback that raises an `Exception` is recorded as such and does not stop the rest, and the `Exception` does not escape the method. It changes neither the callbacks nor the record. |
| Reader.HandleTwoLines | src/main/sensors.py:46-52 | Two successive lines reach the same number of callbacks. A callback that raised on the first line is still subscribed and is called with the second line. |
| Devices.OpenDevice | src/main/sensors.py:93-105 | For a port that opens, the record carries the index, the name, the connection opened at the configured baud rate with the 1-second timeout, and its reader thread. Its fresh reader has no callbacks and reports that same record. |
| Devices.InitializeSerialDevices | src/main/sensors.py:75-112 | Every key is an index into the configurations. Index `i` is present exactly when configuration `i`'s serial number resolves and its port opens. The record at `i` carries `i`, the configured name and the resolved port, and owns a fresh, unshared reader with no callbacks whose `info` is that record. |
| Devices.Shutdown | src/main/sensors.py:115-122 | Afterwards every registered device's reader has an empty callback set. Each reader keeps its device record. |
| Devices.InitializeSerialDevicesAsWritten | src/main/sensors.py:82-112 | As written, the call returns an empty dictionary exactly when no configuration is both attached and openable. Otherwise it raises TypeError at the first configuration that is. |
| Devices.AsWrittenLosesAttachedSensor | src/main/sensors.py:94 | For one attached sensor whose port opens, the as-written call raises at index 0, and configuration 0 is attached and openable. |
| Devices.CorrectedRegistersAttachedSensor | src/main/sensors.py:82-105 | On that same input the corrected initialisation registers index 0 with the configured name. |

## Findings

| source | as written | input that shows it | evidently intended | confidence | as-written member | corrected member |
|---|---|---|---|---|---|---|
| src/main/sensors.py:94 | `MultiCallbackReader()` is called without the `info` argument that `__init__` requires (line 25). The resulting TypeError is not the `SerialException` caught at line 109, so it escapes `initialize_serial_devices`, and the port just opened is never closed. | A single configuration, serial number `74134373633351D09221`, reported by port `/dev/ttyACM0`, whose open succeeds. | Construct the reader with a placeholder record that line 105 then replaces. Every attached, openable device is then registered. | high (not executed) | Devices.AsWrittenLosesAttachedSensor | Devices.InitializeSerialDevices |

## Left out

- Byte-level serial I/O: opening and closing `serial.Serial`, the `ReaderThread` start, connect and close calls, and the `LineReader` framing into lines. These are foreign library calls running on threads. Opening is reduced to the `canOpen` oracle, and the connection and thread are plain records.
- Devices.Shutdown: states only the clearing of callbacks. The reader-thread and port closes at lines 121-122 are foreign calls and are not modelled.
- Devices.InitializeSerialDevices: only two outcomes of the open at line 93 are modelled, success and `SerialException`. Any other exception from `serial.Serial(...)`, such as a `ValueError` for a baud rate the library rejects, escapes the call because line 109 catches only `SerialException`; the model has no outcome for it. Exceptions from `thread.start()` and `thread.connect()` (lines 106-107) are not modelled either. The oracle is indexed by configuration position, so a second open of a port still held by an earlier configuration can fail, but how the library decides that is not modelled.
- Reader.MultiCallbackReader.HandleLine: a callback failure that is not an `Exception` (line 51 catches only `Exception`), such as `SystemExit` or `KeyboardInterrupt`, escapes `handle_line` and skips the rest of the snapshot. The `raises` oracle treats every failure as a caught `Exception`, so that case is not modelled.
- Reader.MultiCallbackReader.HandleLine: the callbacks' own effects are not modelled. This includes a callback that adds or removes callbacks on the same reader while a line is being delivered. The snapshot is a value copy of the set, so the delivery is unaffected, as with `list(self.callbacks)`. The order of calls is Python's set iteration order and is left unspecified.
- `handle_exception` (lines 54-57): it reads `self.on_disconnect`, which the class never defines, and only concerns error reporting from the reader thread.
- Concurrency: `handle_line` runs on the reader thread while other code may add or remove callbacks. Interleavings are not modelled.
- Console output (every `print`), the configuration literal `BASIC_SENSOR_CONFIGURATION` (lines 8-11) and the module-level initialisation of `SERIAL_DEVICES` (line 125). `Shutdown` takes the registry as a parameter instead of reading the global.
- `src/main/run.py` is not part of this model. Its `get_distance` is floating-point arithmetic, and the rest is glue that calls attributes the sensor module does not define and then busy-waits.
- `src/python/run.py` is not part of this model. It is a standalone script with a hard-coded port and a busy loop.
- Hashability of callbacks, which Python's set requires, is taken for granted.
