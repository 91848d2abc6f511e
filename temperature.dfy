/** The DS18B20 temperature service (src/temperature/temperature_service.cpp): two status
    flags driven by what the sensor reports. Each call of `sensors.getTempCByIndex(0)` is
    given as a parameter `reading`, in degrees Celsius. */
module Temperature {

  /** `DEVICE_DISCONNECTED_C`, what the driver reports when no sensor answers. */
  const DISCONNECTED_C: real := -127.0
  /** The range the DS18B20 can measure. */
  const MIN_C: real := -55.0
  const MAX_C: real := 125.0

  predicate InRange(t: real) {
    MIN_C <= t <= MAX_C
  }

  /** `temperatureSensorInitialized` and `temperatureSensorConnected`. */
  datatype Flags = Flags(initialized: bool, connected: bool)

  /** Both flags start false. */
  const POWER_ON := Flags(false, false)

  /** The flags are consistent: a sensor is only ever known to be connected once the
      service has been initialized. */
  predicate Consistent(f: Flags) {
    f.connected ==> f.initialized
  }

  /** `initTemperatureService`: always initialized, connected exactly when the test
      reading is not the disconnected value. */
  function InitStep(reading: real): (f: Flags)
    ensures f.initialized
    ensures f.connected <==> reading != DISCONNECTED_C
    ensures Consistent(f)
  {
    if reading != DISCONNECTED_C then Flags(true, true) else Flags(true, false)
  }

  /** What one call of `getTemperatureC` does: the flags afterwards, the value returned,
      and whether it asked the sensor for a reading at all. */
  datatype ReadOutcome = ReadOutcome(after: Flags, celsius: real, sampled: bool)

  /** `getTemperatureC`. */
  function ReadStep(f: Flags, reading: real): (r: ReadOutcome)
    // the result is the disconnected value or a temperature the sensor can measure
    ensures r.celsius == DISCONNECTED_C || InRange(r.celsius)
    // the sensor is asked only when the service is initialized and the sensor connected
    ensures r.sampled <==> f.initialized && f.connected
    ensures !r.sampled ==> r.after == f && r.celsius == DISCONNECTED_C
    // a disconnected reading clears the connected flag
    ensures r.sampled && reading == DISCONNECTED_C ==>
              r.after == Flags(f.initialized, false) && r.celsius == DISCONNECTED_C
    // an out-of-range reading is rejected but leaves the flags alone
    ensures r.sampled && reading != DISCONNECTED_C && !InRange(reading) ==>
              r.after == f && r.celsius == DISCONNECTED_C
    ensures r.sampled && InRange(reading) ==> r.after == f && r.celsius == reading
    ensures r.after.initialized == f.initialized
  {
    if !f.initialized then ReadOutcome(f, DISCONNECTED_C, false)
    else if !f.connected then ReadOutcome(f, DISCONNECTED_C, false)
    else if reading == DISCONNECTED_C then ReadOutcome(Flags(f.initialized, false), DISCONNECTED_C, true)
    else if reading < MIN_C || reading > MAX_C then ReadOutcome(f, DISCONNECTED_C, true)
    else ReadOutcome(f, reading, true)
  }

  /** What one call of `isTemperatureSensorConnected` does. */
  datatype ProbeOutcome = ProbeOutcome(after: Flags, connected: bool, sampled: bool)

  /** `isTemperatureSensorConnected`: false without asking when not initialized; otherwise
      the connected flag is set from the reading and returned. */
  function ProbeStep(f: Flags, reading: real): (r: ProbeOutcome)
    ensures r.sampled <==> f.initialized
    ensures !f.initialized ==> r.after == f && !r.connected
    ensures f.initialized ==>
              && (r.connected <==> reading != DISCONNECTED_C)
              && r.after == Flags(true, r.connected)
  {
    if !f.initialized then ProbeOutcome(f, false, false)
    else
      var connected := reading != DISCONNECTED_C;
      ProbeOutcome(Flags(f.initialized, connected), connected, true)
  }

  /** A call of one of the three service functions, with what the sensor would report. */
  datatype Call = InitCall(reading: real) | ReadCall(reading: real) | ProbeCall(reading: real)

  function Step(f: Flags, c: Call): Flags {
    match c
    case InitCall(reading) => InitStep(reading)
    case ReadCall(reading) => ReadStep(f, reading).after
    case ProbeCall(reading) => ProbeStep(f, reading).after
  }

  /** The flags after a sequence of calls. */
  function Run(f: Flags, calls: seq<Call>): Flags
    decreases |calls|
  {
    if calls == [] then f else Run(Step(f, calls[0]), calls[1..])
  }

  /** Every call keeps the flags consistent, so they are consistent from power-on on,
      whatever the calls and readings. */
  lemma {:induction false} RunKeepsConsistent(f: Flags, calls: seq<Call>)
    requires Consistent(f)
    ensures Consistent(Run(f, calls))
    decreases |calls|
  {
    if calls != [] {
      var c := calls[0];
      assert Consistent(Step(f, c)) by {
        match c
        case InitCall(reading) =>
        case ReadCall(reading) =>
        case ProbeCall(reading) =>
      }
      RunKeepsConsistent(Step(f, c), calls[1..]);
    }
  }

  lemma PowerOnConsistent(calls: seq<Call>)
    ensures Consistent(Run(POWER_ON, calls))
  {
    RunKeepsConsistent(POWER_ON, calls);
  }

  /** The values `getTemperatureC` returns along a sequence of reads. */
  function Readings(f: Flags, readings: seq<real>): (values: seq<real>)
    ensures |values| == |readings|
    // every value is the disconnected value or one the sensor measured, unchanged
    ensures forall i :: 0 <= i < |values| ==>
              values[i] == DISCONNECTED_C || (InRange(values[i]) && values[i] == readings[i])
    decreases |readings|
  {
    if readings == [] then []
    else
      var r := ReadStep(f, readings[0]);
      [r.celsius] + Readings(r.after, readings[1..])
  }

  /** The flags after a sequence of reads. */
  function AfterReadings(f: Flags, readings: seq<real>): Flags
    decreases |readings|
  {
    if readings == [] then f else AfterReadings(ReadStep(f, readings[0]).after, readings[1..])
  }

  /** Once the sensor is marked disconnected, reads alone never reconnect it: each returns
      the disconnected value and the flags stay as they are, until an initialization or a
      connectivity check. */
  lemma {:induction false} DisconnectedStaysDisconnected(f: Flags, readings: seq<real>)
    requires !f.connected
    ensures AfterReadings(f, readings) == f
    ensures forall i :: 0 <= i < |readings| ==> Readings(f, readings)[i] == DISCONNECTED_C
    decreases |readings|
  {
    if readings != [] {
      DisconnectedStaysDisconnected(f, readings[1..]);
      assert ReadStep(f, readings[0]).after == f;
    }
  }

  /** A connectivity check that sees the sensor again makes the next read sample it. */
  lemma ProbeReconnects(f: Flags, probe: real, reading: real)
    requires f.initialized && probe != DISCONNECTED_C
    ensures ReadStep(ProbeStep(f, probe).after, reading).sampled
  {
  }

  /** The sensor state of the firmware, with the number of conversions requested from the
      sensor (`sensors.requestTemperatures()`). */
  class TemperatureSensor {
    var initialized: bool
    var connected: bool
    var conversions: nat

    function State(): Flags
      reads this
    {
      Flags(initialized, connected)
    }

    /** Power-on: both flags false, nothing requested yet. */
    constructor()
      ensures State() == POWER_ON && conversions == 0
    {
      initialized := false;
      connected := false;
      conversions := 0;
    }

    /** `initTemperatureService`, with the test reading the sensor gives. */
    method Init(reading: real)
      modifies this
      ensures State() == InitStep(reading)
      ensures initialized && (connected <==> reading != DISCONNECTED_C)
      ensures conversions == old(conversions) + 1
    {
      conversions := conversions + 1;
      if reading != DISCONNECTED_C {
        connected := true;
        initialized := true;
      } else {
        connected := false;
        initialized := true;
      }
    }

    /** `getTemperatureC`, with the reading the sensor would give if asked. */
    method GetTemperatureC(reading: real) returns (t: real)
      modifies this
      ensures State() == ReadStep(old(State()), reading).after
      ensures t == ReadStep(old(State()), reading).celsius
      ensures t == DISCONNECTED_C || InRange(t)
      ensures conversions == old(conversions) + if ReadStep(old(State()), reading).sampled then 1 else 0
    {
      if !initialized {
        return DISCONNECTED_C;
      }
      if !connected {
        return DISCONNECTED_C;
      }
      conversions := conversions + 1;
      var temperatureC := reading;
      if temperatureC == DISCONNECTED_C {
        connected := false;
        return DISCONNECTED_C;
      }
      if temperatureC < -55.0 || temperatureC > 125.0 {
        return DISCONNECTED_C;
      }
      return temperatureC;
    }

    /** `isTemperatureSensorConnected`, with the reading the sensor would give if asked. */
    method IsConnected(reading: real) returns (b: bool)
      modifies this
      ensures State() == ProbeStep(old(State()), reading).after
      ensures b == ProbeStep(old(State()), reading).connected
      ensures conversions == old(conversions) + if old(initialized) then 1 else 0
    {
      if !initialized {
        return false;
      }
      conversions := conversions + 1;
      var connectedNow := reading != DISCONNECTED_C;
      connected := connectedNow;
      return connectedNow;
    }
  }
}
