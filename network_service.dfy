/** Event logging (src/network/network_service.cpp): a chain of early exits, then the
    temperature is posted as a small JSON document. `String(temperature, 2)` is the
    parameter `fmt`; the HTTP client is left out, the result says what would be posted. */
module NetworkService {
  import opened Options
  import opened Temperature

  /** The id used when no `DEVICE_ID` is configured at build time. */
  const DEFAULT_DEVICE_ID := "NOD1"

  /** The device id: the configured one, or the default. */
  function DeviceId(configured: Option<string>): (id: string)
    ensures configured.None? ==> id == DEFAULT_DEVICE_ID
    ensures configured.Some? ==> id == configured.value
  {
    match configured
    case None => DEFAULT_DEVICE_ID
    case Some(id) => id
  }

  /** Why `logDeviceEvent` stopped, or what it posted. */
  datatype LogResult =
    | NotConnected
    | EmptyDeviceId
    | SensorDisconnected
    | OutOfRange
    | Posted(payload: string)

  // The fixed pieces of the payload, split around the two inserted values.
  const PAYLOAD_OPEN := "{"
  const ID_FIELD := "\"device_id\": \""
  const ID_CLOSE := "\""
  const TEMP_FIELD := ", \"temp_c\": "
  const PAYLOAD_CLOSE := "}"

  /** `{"device_id": "<id>", "temp_c": <temperature>}`, the id inserted as it is. */
  function Payload(deviceId: string, temperature: string): string {
    PAYLOAD_OPEN + (ID_FIELD + deviceId + ID_CLOSE) + (TEMP_FIELD + temperature) + PAYLOAD_CLOSE
  }

  /** The guard chain, in the order the code checks it, given the value `getTemperatureC`
      returned (only consulted when the first two checks pass). */
  function Decide(wifiConnected: bool, deviceId: string, temperature: real, fmt: real -> string): (r: LogResult)
    // something is posted exactly when every check passes
    ensures r.Posted? <==>
              wifiConnected && deviceId != "" && temperature != DISCONNECTED_C && InRange(temperature)
    ensures r.Posted? ==> r.payload == Payload(deviceId, fmt(temperature))
    // the checks come in this order: the first that fails decides
    ensures !wifiConnected ==> r == NotConnected
    ensures wifiConnected && deviceId == "" ==> r == EmptyDeviceId
    ensures wifiConnected && deviceId != "" && temperature == DISCONNECTED_C ==> r == SensorDisconnected
    ensures wifiConnected && deviceId != "" && temperature != DISCONNECTED_C && !InRange(temperature) ==>
              r == OutOfRange
  {
    if !wifiConnected then NotConnected
    else if |deviceId| == 0 then EmptyDeviceId
    else if temperature == DISCONNECTED_C then SensorDisconnected
    else if temperature < -55.0 || temperature > 125.0 then OutOfRange
    else Posted(Payload(deviceId, fmt(temperature)))
  }

  /** The range check of `logDeviceEvent` never fires: `getTemperatureC` already turns an
      out-of-range reading into the disconnected value. */
  lemma OutOfRangeUnreachable(wifiConnected: bool, deviceId: string, f: Flags, reading: real,
                              fmt: real -> string)
    ensures Decide(wifiConnected, deviceId, ReadStep(f, reading).celsius, fmt) != OutOfRange
  {
  }

  /** With the default id, a measurement is posted exactly when WiFi is up, the service is
      initialized, the sensor connected and the reading is one the sensor can measure. */
  lemma DefaultIdPostsValidReadings(wifiConnected: bool, f: Flags, reading: real, fmt: real -> string)
    ensures Decide(wifiConnected, DeviceId(None), ReadStep(f, reading).celsius, fmt).Posted? <==>
              wifiConnected && f.initialized && f.connected && reading != DISCONNECTED_C && InRange(reading)
  {
  }

  /** The payload begins with the `device_id` field, then the id as given, then the temperature. */
  lemma PayloadLayout(deviceId: string, temperature: string)
    ensures var p := Payload(deviceId, temperature);
            var n := |PAYLOAD_OPEN + ID_FIELD|;
            && |p| == n + |deviceId| + |ID_CLOSE + TEMP_FIELD| + |temperature| + 1
            && p[..n] == PAYLOAD_OPEN + ID_FIELD
            && p[n..n + |deviceId|] == deviceId
            && p[n + |deviceId|..n + |deviceId| + |ID_CLOSE + TEMP_FIELD|] == ID_CLOSE + TEMP_FIELD
            && p[|p| - 1 - |temperature|..|p| - 1] == temperature
            && p[|p| - 1] == '}'
  {
    var p := Payload(deviceId, temperature);
    assert p == (PAYLOAD_OPEN + ID_FIELD) + deviceId + (ID_CLOSE + TEMP_FIELD) + temperature + PAYLOAD_CLOSE;
  }

  /** The first `"` in `s` at or after position `from`, or `|s|` when there is none. */
  function QuoteFrom(s: string, from: nat): (k: nat)
    requires from <= |s|
    ensures from <= k <= |s|
    ensures k < |s| ==> s[k] == '"'
    ensures forall j :: from <= j < k ==> s[j] != '"'
    decreases |s| - from
  {
    if from == |s| then from
    else if s[from] == '"' then from
    else QuoteFrom(s, from + 1)
  }

  /** Since the id is inserted unescaped, the payload gives the id back only when the id has
      no `"`: a reader that takes the id up to the next `"` then recovers it exactly. That
      reader is a plain scan, not a JSON parser: a JSON reader would also get a different
      id back for an id holding a `\` or a control character. */
  lemma PayloadIdReadsBack(deviceId: string, temperature: string)
    requires '"' !in deviceId
    ensures var p := Payload(deviceId, temperature);
            var n := |PAYLOAD_OPEN + ID_FIELD|;
            p[n..QuoteFrom(p, n)] == deviceId
  {
    PayloadLayout(deviceId, temperature);
    var p := Payload(deviceId, temperature);
    var n := |PAYLOAD_OPEN + ID_FIELD|;
    assert p[n + |deviceId|] == '"' by {
      assert p[n + |deviceId|..n + |deviceId| + |ID_CLOSE + TEMP_FIELD|][0] == '"';
    }
  }

  /** And an id with a `"` in it is not given back: the reader stops inside it. */
  lemma QuotedIdIsCutShort(deviceId: string, temperature: string)
    requires '"' in deviceId
    ensures var p := Payload(deviceId, temperature);
            var n := |PAYLOAD_OPEN + ID_FIELD|;
            p[n..QuoteFrom(p, n)] != deviceId
  {
    PayloadLayout(deviceId, temperature);
    var p := Payload(deviceId, temperature);
    var n := |PAYLOAD_OPEN + ID_FIELD|;
    var i :| 0 <= i < |deviceId| && deviceId[i] == '"';
    assert p[n + i] == p[n..n + |deviceId|][i];
    var k := QuoteFrom(p, n);
    assert k <= n + i;
  }

  /** `logDeviceEvent`. `wifiConnected` is `WiFi.status() == WL_CONNECTED`, `configured` the
      build-time `DEVICE_ID` if there is one, `reading` what the sensor would report. The
      sensor is only consulted after the WiFi and id checks. */
  method LogDeviceEvent(wifiConnected: bool, configured: Option<string>, sensor: TemperatureSensor,
                        reading: real, fmt: real -> string) returns (result: LogResult)
    modifies sensor
    ensures !wifiConnected || DeviceId(configured) == "" ==>
              && sensor.State() == old(sensor.State()) && sensor.conversions == old(sensor.conversions)
    ensures wifiConnected && DeviceId(configured) != "" ==>
              sensor.State() == ReadStep(old(sensor.State()), reading).after
    ensures wifiConnected && DeviceId(configured) != "" ==>
              sensor.conversions ==
                old(sensor.conversions) + if ReadStep(old(sensor.State()), reading).sampled then 1 else 0
    ensures result == Decide(wifiConnected, DeviceId(configured), ReadStep(old(sensor.State()), reading).celsius, fmt)
    ensures result != OutOfRange
  {
    if !wifiConnected {
      return NotConnected;
    }
    var deviceId := DeviceId(configured);
    if |deviceId| == 0 {
      return EmptyDeviceId;
    }
    var temperature := sensor.GetTemperatureC(reading);
    if temperature == DISCONNECTED_C {
      return SensorDisconnected;
    }
    if temperature < -55.0 || temperature > 125.0 {
      assert false;
      return OutOfRange;
    }
    var payload := PAYLOAD_OPEN;
    payload := payload + (ID_FIELD + deviceId + ID_CLOSE);
    payload := payload + (TEMP_FIELD + fmt(temperature));
    payload := payload + PAYLOAD_CLOSE;
    return Posted(payload);
  }
}
