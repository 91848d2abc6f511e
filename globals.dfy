/** The firmware's global state (src/core/globals.cpp and src/core/config.h), together with
    the parts of the WiFi radio, the DNS redirector, the web server and the preferences
    store that the captive portal reads and changes. */
module Globals {
  import opened Options

  /** Size of the `networks` array. */
  const NETWORK_SLOTS: nat := 8
  /** The access point's own name. */
  const AP_SSID := "DAYNODE_NOD1"

  datatype WifiMode = WifiOff | Station | AccessPoint | StationAndAccessPoint

  datatype Credentials = Credentials(ssid: string, pass: string)

  /** A preferences entry: namespace and key (`prefs.begin("wifi")`, `putString("ssid", ...)`). */
  type PrefKey = (string, string)

  const SSID_KEY: PrefKey := ("wifi", "ssid")
  const PASS_KEY: PrefKey := ("wifi", "pass")

  /** `prefs.getString(key, "")`. */
  function StoredString(prefs: map<PrefKey, string>, key: PrefKey): string {
    if key in prefs then prefs[key] else ""
  }

  class Device {
    // globals.cpp
    var networks: array<string>
    var networkCount: int
    var selectedSSID: string
    var enteredPassword: string
    var shouldConnectToWiFi: bool
    // non-volatile preferences
    var prefs: map<PrefKey, string>
    // WiFi radio, as far as the portal drives it
    var mode: WifiMode
    var joining: Option<Credentials>
    var stationConnected: bool
    var softAp: Option<string>
    // services started by setupAP
    var dnsRunning: bool
    var serverRunning: bool

    ghost predicate Valid()
      reads this
    {
      networks.Length == NETWORK_SLOTS && networkCount <= NETWORK_SLOTS
    }

    /** The radio fields agree with the mode: station mode has stopped the soft AP, and
        AP-only mode has stopped the station interface. */
    predicate RadioMatchesMode()
      reads this
    {
      && (mode == Station ==> softAp.None?)
      && (mode == AccessPoint ==> joining.None? && !stationConnected)
    }

    /** Power-on: the initial values of globals.cpp, with whatever preferences survived
        the last run. */
    constructor(stored: map<PrefKey, string>)
      ensures Valid() && fresh(networks)
      ensures networkCount == 0 && forall i :: 0 <= i < networks.Length ==> networks[i] == ""
      ensures selectedSSID == "" && enteredPassword == "" && !shouldConnectToWiFi
      ensures prefs == stored
      ensures mode == WifiOff && joining.None? && !stationConnected && softAp.None?
      ensures RadioMatchesMode()
      ensures !dnsRunning && !serverRunning
    {
      networks := new string[NETWORK_SLOTS](_ => "");
      networkCount := 0;
      selectedSSID := "";
      enteredPassword := "";
      shouldConnectToWiFi := false;
      prefs := stored;
      mode := WifiOff;
      joining := None;
      stationConnected := false;
      softAp := None;
      dnsRunning := false;
      serverRunning := false;
    }
  }
}
