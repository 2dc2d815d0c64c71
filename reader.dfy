/**
  `MultiCallbackReader`: the line reader of one serial device, holding a
  mutable set of subscriber callbacks and the device record it reports to
  them, and `SerialDeviceInfo`, that record.
 */
module Reader {
  import opened Wrappers

  /**
    An object handed to `add_callback`, identified by `id`. Python accepts any
    object there and checks `callable(func)`, so the non-callable case is kept.
   */
  datatype Value = Callable(id: nat) | NotCallable(id: nat)

  predicate IsCallable(v: Value)
  {
    v.Callable?
  }

  /** The opened `serial.Serial(port, baudrate=..., timeout=...)`; the byte I/O behind it is not modelled. */
  datatype SerialConnection = SerialConnection(port: string, baudrate: int, timeout: int)

  /** The `ReaderThread` that pumps the connection into the protocol; its thread is not modelled. */
  datatype ReaderThread = ReaderThread(serial: SerialConnection)

  /** `SerialDeviceInfo`: the registry record of one opened device. */
  datatype DeviceInfo = DeviceInfo(
    name: string,
    serial: SerialConnection,
    reader: ReaderThread,
    protocol: MultiCallbackReader,
    index: int)

  /**
    One call `cb(line, self.info)` made by `handle_line`; `raised` records
    whether the callback raised (the exception is caught and printed).
   */
  datatype Invocation = Invocation(callback: Value, line: string, info: Option<DeviceInfo>, raised: bool)

  class MultiCallbackReader {
    var callbacks: set<Value>
    var info: Option<DeviceInfo>

    /** Only callables are ever registered. */
    ghost predicate Valid()
      reads this
    {
      forall v :: v in callbacks ==> IsCallable(v)
    }

    /** `__init__`: an empty callback set and the given device record (None as a placeholder). */
    constructor (info: Option<DeviceInfo>)
      ensures Valid()
      ensures callbacks == {} && this.info == info
    {
      callbacks := {};
      this.info := info;
    }

    /** `set_serial_device_info`: replaces the device record; the callbacks are untouched. */
    method SetSerialDeviceInfo(info: DeviceInfo)
      requires Valid()
      modifies this`info
      ensures Valid()
      ensures this.info == Some(info)
    {
      this.info := Some(info);
    }

    /** `add_callback`: registers `f` if it is callable; registering twice changes nothing. */
    method AddCallback(f: Value)
      requires Valid()
      modifies this`callbacks
      ensures Valid()
      ensures IsCallable(f) ==> callbacks == old(callbacks) + {f}
      ensures !IsCallable(f) ==> callbacks == old(callbacks)
      ensures f in old(callbacks) ==> callbacks == old(callbacks)
    {
      if IsCallable(f) {
        callbacks := callbacks + {f};
      }
    }

    /** `remove_callback`: discards `f`; a no-op when `f` is not registered. */
    method RemoveCallback(f: Value)
      requires Valid()
      modifies this`callbacks
      ensures Valid()
      ensures callbacks == old(callbacks) - {f}
      ensures f !in old(callbacks) ==> callbacks == old(callbacks)
      ensures forall g :: g != f ==> (g in callbacks <==> g in old(callbacks))
    {
      callbacks := callbacks - {f};
    }

    /** `clear_callbacks`: afterwards no callback is registered, so clearing again is a no-op. */
    method ClearCallbacks()
      modifies this`callbacks
      ensures Valid()
      ensures callbacks == {}
    {
      callbacks := {};
    }

    /**
      `handle_line`: calls every callback of a snapshot of the set exactly once
      with `(line, info)`, and nothing else. A callback that raises is caught,
      so it neither stops the loop nor escapes `handle_line`. The reader's own
      fields are not changed (there is no modifies clause). The snapshot's
      iteration order is Python's set order, left unspecified here.
     */
    method HandleLine(line: string, raises: (Value, string) -> bool) returns (log: seq<Invocation>)
      ensures forall k :: 0 <= k < |log| ==>
        log[k].callback in callbacks && log[k].line == line && log[k].info == info &&
        log[k].raised == raises(log[k].callback, line)
      ensures forall j, k :: 0 <= j < k < |log| ==> log[j].callback != log[k].callback
      ensures forall cb :: cb in callbacks ==> exists k :: 0 <= k < |log| && log[k].callback == cb
    {
      var pending := callbacks;  // list(self.callbacks)
      log := [];
      while pending != {}
        invariant pending <= callbacks
        invariant forall k :: 0 <= k < |log| ==>
          log[k].callback in callbacks && log[k].callback !in pending && log[k].line == line && log[k].info == info &&
          log[k].raised == raises(log[k].callback, line)
        invariant forall j, k :: 0 <= j < k < |log| ==> log[j].callback != log[k].callback
        invariant forall cb :: cb in callbacks && cb !in pending ==> exists k :: 0 <= k < |log| && log[k].callback == cb
        decreases pending
      {
        var cb :| cb in pending;
        var failed := raises(cb, line);  // try: cb(line, self.info) except Exception: print
        ghost var before, waiting := log, pending;
        log := log + [Invocation(cb, line, info, failed)];
        pending := pending - {cb};
        forall c | c in callbacks && c !in pending
          ensures exists k :: 0 <= k < |log| && log[k].callback == c
        {
          if c == cb {
            assert log[|before|].callback == c;
          } else {
            assert c in callbacks && c !in waiting;
            var k :| 0 <= k < |before| && before[k].callback == c;
            assert log[k] == before[k];
          }
        }
      }
    }
  }

  /**
    Two lines handled in turn by the same reader: each callback is called
    once per line, and a callback that raised on the first line is still
    called with the second.
   */
  method HandleTwoLines(r: MultiCallbackReader, first: string, second: string, raises: (Value, string) -> bool)
    returns (log1: seq<Invocation>, log2: seq<Invocation>)
    ensures forall k :: 0 <= k < |log1| && log1[k].raised ==>
      exists k' :: 0 <= k' < |log2| && log2[k'].callback == log1[k].callback && log2[k'].line == second
    ensures |log1| == |log2|
  {
    log1 := r.HandleLine(first, raises);
    log2 := r.HandleLine(second, raises);
    DistinctLogsHaveSize(log1, r.callbacks);
    DistinctLogsHaveSize(log2, r.callbacks);
  }

  /** A log that names every member of `cbs` once and nothing else has `|cbs|` entries. */
  lemma {:induction false} DistinctLogsHaveSize(log: seq<Invocation>, cbs: set<Value>)
    requires forall k :: 0 <= k < |log| ==> log[k].callback in cbs
    requires forall j, k :: 0 <= j < k < |log| ==> log[j].callback != log[k].callback
    requires forall cb :: cb in cbs ==> exists k :: 0 <= k < |log| && log[k].callback == cb
    ensures |log| == |cbs|
  {
    if log == [] {
      assert forall cb :: cb !in cbs;
      assert cbs == {};
    } else {
      var n := |log| - 1;
      var last := log[n].callback;
      forall cb | cb in cbs - {last}
        ensures exists k :: 0 <= k < |log[..n]| && log[..n][k].callback == cb
      {
        var k :| 0 <= k < |log| && log[k].callback == cb;
        assert log[..n][k] == log[k];
      }
      DistinctLogsHaveSize(log[..n], cbs - {last});
    }
  }
}
