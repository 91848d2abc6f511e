/** The device event record shared by the store, the query gateway and the dashboard. */
module Events {
  import opened Js

  /** One row of the `events` table: the typed fields the dashboard reads, and every
      other column kept in an open side map. */
  datatype DeviceEvent = DeviceEvent(
    deviceId: string,
    measure1: real,
    createdAt: string,
    extra: map<string, JsValue>)
}
