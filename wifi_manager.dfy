/** The WiFi manager (src/wifi/wifi_manager.cpp): the access point with its scan of nearby
    networks and its route table, and the attempt to join the network whose credentials
    are stored. */
module WifiManager {
  import opened Options
  import opened Globals
  import opened WebInterface

  /** What `WiFi.scanNetworks()` reports: the number of networks found (negative when the
      scan failed) and, by index, what `WiFi.SSID(i)` returns for each of them. */
  datatype ScanResult = ScanResult(count: int, ssids: seq<string>)

  /** The driver has a name for every network it counts. */
  predicate ScanWellFormed(scan: ScanResult) {
    scan.count <= |scan.ssids|
  }

  function Min(a: int, b: int): int {
    if a < b then a else b
  }

  /** The `networks` array after the copy loop of `setupAP`: the first `min(n, 8)` slots hold
      the scanned names, the others keep what they held. */
  function ScanCopy(before: seq<string>, scan: ScanResult): seq<string>
    requires |before| == NETWORK_SLOTS && ScanWellFormed(scan)
  {
    seq(NETWORK_SLOTS, i requires 0 <= i < NETWORK_SLOTS =>
      if i < Min(scan.count, NETWORK_SLOTS) then scan.ssids[i] else before[i])
  }

  /** The copy keeps the array's size, takes at most 8 names, and copies nothing when the
      scan failed or found nothing. */
  lemma ScanCopyShape(before: seq<string>, scan: ScanResult)
    requires |before| == NETWORK_SLOTS && ScanWellFormed(scan)
    ensures |ScanCopy(before, scan)| == NETWORK_SLOTS
    ensures Min(scan.count, NETWORK_SLOTS) <= NETWORK_SLOTS
    ensures scan.count <= 0 ==> ScanCopy(before, scan) == before
    ensures forall i :: 0 <= i < Min(scan.count, NETWORK_SLOTS) ==> ScanCopy(before, scan)[i] == scan.ssids[i]
  {
  }

  /** What the main page lists right after a scan: the "no networks" notice when the scan
      found nothing, nothing when it failed, and otherwise an entry for each of the first
      `min(n, 3)` scanned names, in scan order, whatever the array held before. */
  lemma ScanThenList(before: seq<string>, scan: ScanResult)
    requires |before| == NETWORK_SLOTS && ScanWellFormed(scan)
    ensures var items := ListItems(ScanCopy(before, scan), Min(scan.count, NETWORK_SLOTS));
            && (scan.count == 0 ==> items == [NO_NETWORKS_ITEM])
            && (scan.count < 0 ==> items == [])
            && (scan.count > 0 ==>
                  && |items| == Min(scan.count, LISTED_MAX)
                  && forall i :: 0 <= i < |items| ==> items[i] == NetworkItem(scan.ssids[i]))
  {
    var names := ScanCopy(before, scan);
    ScanCopyShape(before, scan);
    var items := ListItems(names, Min(scan.count, NETWORK_SLOTS));
    if scan.count > 0 {
      assert ListedCount(Min(scan.count, NETWORK_SLOTS)) == Min(scan.count, LISTED_MAX);
      forall i | 0 <= i < |items|
        ensures items[i] == NetworkItem(scan.ssids[i])
      {
        assert names[i] == scan.ssids[i];
      }
    }
  }

  /** `setupAP`: scan in station+AP mode, copy the first `min(n, 8)` names into `networks`,
      switch to AP-only mode, start the soft AP, the DNS redirector and the web server. */
  method SetupAP(g: Device, scan: ScanResult)
    requires g.Valid() && ScanWellFormed(scan)
    modifies g, g.networks
    ensures g.Valid() && g.networks == old(g.networks)
    ensures g.networkCount == Min(scan.count, NETWORK_SLOTS)
    ensures forall i :: 0 <= i < g.networkCount ==> g.networks[i] == scan.ssids[i]
    ensures forall i :: 0 <= i < NETWORK_SLOTS && !(i < g.networkCount) ==> g.networks[i] == old(g.networks[i])
    ensures g.networks[..] == ScanCopy(old(g.networks[..]), scan)
    ensures g.mode == AccessPoint && g.softAp == Some(AP_SSID) && g.dnsRunning && g.serverRunning
    ensures g.selectedSSID == old(g.selectedSSID) && g.enteredPassword == old(g.enteredPassword)
    ensures g.shouldConnectToWiFi == old(g.shouldConnectToWiFi) && g.prefs == old(g.prefs)
    // `WiFi.mode(WIFI_AP)` stops the station interface
    ensures g.joining.None? && !g.stationConnected && g.RadioMatchesMode()
  {
    g.mode := StationAndAccessPoint;
    var count := Min(scan.count, NETWORK_SLOTS);
    g.networkCount := count;
    var i := 0;
    while i < count
      modifies g.networks
      invariant 0 <= i <= NETWORK_SLOTS && i <= |scan.ssids|
      invariant i <= count || i == 0
      invariant forall j :: 0 <= j < i ==> g.networks[j] == scan.ssids[j]
      invariant forall j :: i <= j < NETWORK_SLOTS ==> g.networks[j] == old(g.networks[j])
    {
      g.networks[i] := scan.ssids[i];
      i := i + 1;
    }
    g.mode := AccessPoint;
    g.joining := None;
    g.stationConnected := false;
    g.softAp := Some(AP_SSID);
    g.dnsRunning := true;
    g.serverRunning := true;
  }

  datatype HttpMethod = HttpGet | HttpPost | HttpOtherMethod

  /** What a registered route does. */
  datatype Handler =
    | MainPage
    | Connect
    | Fixed(status: int, contentType: string, body: string)

  /** `server.on(path, handler)` (any method) or `server.on(path, method, handler)`. */
  datatype Route = Route(path: string, only: Option<HttpMethod>, handler: Handler)

  const REDIRECT := "<html><body><script>location.href='/'</script></body></html>"
  const GENERATE_204_PAGE := "<html><body>Redirecting...<script>location.href='/'</script></body></html>"
  const HOTSPOT_PAGE := "<html><body><h2>Captive Portal Active</h2><script>location.href='/'</script></body></html>"

  /** The routes `setupAP` registers, in registration order. */
  const ROUTES: seq<Route> := [
    Route("/", None, MainPage),
    Route("/connect", Some(HttpPost), Connect),
    Route("/test", None, Fixed(200, "text/plain", "ESP32 Server Working!")),
    Route("/generate_204", None, Fixed(200, "text/html", GENERATE_204_PAGE)),
    Route("/hotspot-detect.html", None, Fixed(200, "text/html", HOTSPOT_PAGE)),
    Route("/ncsi.txt", None, Fixed(200, "text/plain", "Microsoft NCSI")),
    Route("/connecttest.txt", None, Fixed(200, "text/plain", "")),
    Route("/fwlink", None, Fixed(200, "text/html", REDIRECT)),
    Route("/library/test/success.html", None, Fixed(200, "text/html", REDIRECT)),
    Route("/success.txt", None, Fixed(200, "text/plain", "success"))
  ]

  predicate Matches(r: Route, path: string, m: HttpMethod) {
    r.path == path && (r.only.None? || r.only.value == m)
  }

  /** The position of the first route that takes the request, or `|routes|` when none does. */
  function FirstMatch(routes: seq<Route>, path: string, m: HttpMethod): (k: nat)
    ensures k <= |routes|
    ensures k < |routes| ==> Matches(routes[k], path, m)
    ensures forall j :: 0 <= j < k ==> !Matches(routes[j], path, m)
  {
    if routes == [] then 0
    else if Matches(routes[0], path, m) then 0
    else 1 + FirstMatch(routes[1..], path, m)
  }

  /** The web server's dispatch: the first registered route that takes the request, and the
      `onNotFound` handler, which shows the main page, when none does. */
  function Dispatch(path: string, m: HttpMethod): Handler {
    var k := FirstMatch(ROUTES, path, m);
    if k < |ROUTES| then ROUTES[k].handler else MainPage
  }

  /** Every route is registered under its own path, so the first match is the only one. */
  lemma RoutePathsDistinct()
    ensures forall i, j :: 0 <= i < j < |ROUTES| ==> ROUTES[i].path != ROUTES[j].path
  {
  }

  /** A request that takes the route at `k` is handled by that route. */
  lemma {:induction false} RegisteredRouteHandles(k: nat, m: HttpMethod)
    requires k < |ROUTES| && (ROUTES[k].only.None? || ROUTES[k].only.value == m)
    ensures Dispatch(ROUTES[k].path, m) == ROUTES[k].handler
  {
    RoutePathsDistinct();
  }

  /** Any path that was not registered shows the main page. */
  lemma UnregisteredPathShowsMainPage(path: string, m: HttpMethod)
    requires forall r :: r in ROUTES ==> r.path != path
    ensures Dispatch(path, m) == MainPage
  {
  }

  /** The connectivity probes of the common operating systems get the fixed answers. */
  lemma ProbeAnswers(m: HttpMethod)
    ensures Dispatch("/ncsi.txt", m) == Fixed(200, "text/plain", "Microsoft NCSI")
    ensures Dispatch("/success.txt", m) == Fixed(200, "text/plain", "success")
    ensures Dispatch("/connecttest.txt", m) == Fixed(200, "text/plain", "")
    ensures Dispatch("/generate_204", m) == Fixed(200, "text/html", GENERATE_204_PAGE)
    ensures Dispatch("/hotspot-detect.html", m) == Fixed(200, "text/html", HOTSPOT_PAGE)
  {
    RegisteredRouteHandles(5, m);
    RegisteredRouteHandles(9, m);
    RegisteredRouteHandles(6, m);
    RegisteredRouteHandles(3, m);
    RegisteredRouteHandles(4, m);
  }

  /** `/connect` only takes POST; any other method falls through to the main page. */
  lemma ConnectIsPostOnly(m: HttpMethod)
    ensures Dispatch("/connect", m) == if m == HttpPost then Connect else MainPage
  {
    if m == HttpPost {
      RegisteredRouteHandles(1, m);
    } else {
      RoutePathsDistinct();
      var k := FirstMatch(ROUTES, "/connect", m);
      assert k != 1;
    }
  }

  /** One request served by the portal's web server. */
  method HandleRequest(g: Device, path: string, m: HttpMethod, args: map<string, string>)
    returns (reply: HttpReply)
    requires g.Valid()
    modifies g
    ensures g.Valid()
    ensures Dispatch(path, m) != Connect ==> unchanged(g)
    ensures Dispatch(path, m) == MainPage ==>
              reply == HttpReply(200, "text/html", Concat(ListItems(g.networks[..], g.networkCount)))
    ensures Dispatch(path, m).Fixed? ==>
              var h := Dispatch(path, m);
              reply == HttpReply(h.status, h.contentType, h.body)
    ensures Dispatch(path, m) == Connect ==>
              && g.networks == old(g.networks) && g.networkCount == old(g.networkCount)
              && (if "ssid" in args && "password" in args
                  then reply.status == 200 && g.shouldConnectToWiFi
                       && g.prefs == old(g.prefs)[SSID_KEY := args["ssid"]][PASS_KEY := args["password"]]
                  else reply.status == 400 && g.prefs == old(g.prefs))
  {
    match Dispatch(path, m)
    case MainPage =>
      reply := ShowMainPage(g);
    case Connect =>
      reply := HandleConnect(g, args);
    case Fixed(status, contentType, body) =>
      reply := HttpReply(status, contentType, body);
  }

  /** `connectToStoredWiFi`. The stored SSID and password are read from the preferences;
      with no stored SSID nothing happens. Otherwise the radio is put in station mode and
      asked to join; `joins` is whether it is connected once the ten-second wait is over,
      and when it is not, the portal falls back to `setupAP` with the scan `fallbackScan`,
      whose switch to AP-only mode ends the join attempt. */
  method ConnectToStoredWiFi(g: Device, joins: bool, fallbackScan: ScanResult)
    requires g.Valid() && ScanWellFormed(fallbackScan)
    modifies g, g.networks
    ensures g.Valid() && g.networks == old(g.networks)
    ensures StoredString(old(g.prefs), SSID_KEY) == "" ==>
              unchanged(g) && unchanged(g.networks)
    ensures StoredString(old(g.prefs), SSID_KEY) != "" ==> g.RadioMatchesMode()
    // joined: station mode, which has stopped any soft AP, with the stored credentials
    ensures StoredString(old(g.prefs), SSID_KEY) != "" && joins ==>
              && g.mode == Station && g.stationConnected && g.softAp.None?
              && g.joining == Some(Credentials(StoredString(old(g.prefs), SSID_KEY),
                                               StoredString(old(g.prefs), PASS_KEY)))
              && g.networkCount == old(g.networkCount) && g.networks[..] == old(g.networks[..])
              && g.dnsRunning == old(g.dnsRunning) && g.serverRunning == old(g.serverRunning)
    ensures StoredString(old(g.prefs), SSID_KEY) != "" && !joins ==>
              && g.mode == AccessPoint && g.softAp == Some(AP_SSID) && g.dnsRunning && g.serverRunning
              && g.joining.None? && !g.stationConnected
              && g.networkCount == Min(fallbackScan.count, NETWORK_SLOTS)
              && g.networks[..] == ScanCopy(old(g.networks[..]), fallbackScan)
    ensures g.prefs == old(g.prefs) && g.selectedSSID == old(g.selectedSSID)
    ensures g.enteredPassword == old(g.enteredPassword) && g.shouldConnectToWiFi == old(g.shouldConnectToWiFi)
  {
    var ssid := StoredString(g.prefs, SSID_KEY);
    var pass := StoredString(g.prefs, PASS_KEY);
    if ssid == "" {
      return;
    }
    g.mode := Station;
    g.softAp := None;
    g.joining := Some(Credentials(ssid, pass));
    g.stationConnected := joins;
    if !g.stationConnected {
      SetupAP(g, fallbackScan);
    }
  }
}
