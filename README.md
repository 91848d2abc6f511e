# Daynode: a Dafny model of the dashboard, the query gateway and the sensor firmware

Daynode is a small sensor-logging system. An ESP32 node reads a DS18B20 temperature sensor
and posts each reading as a device event. When the node has no WiFi it runs a captive portal
where a user picks a network and enters its password. A Next.js dashboard queries the stored
events through one gateway endpoint and shows them as a chart and a table.

This project models the logic of those pieces and proves what their code promises:

| file | module | models |
|---|---|---|
| `options.dfy` | `Options` | optional values, used by the page, the gateway and the firmware modules |
| `js.dfy` | `Js` | JavaScript values the page and gateway rely on: JSON values, truthiness, `String.prototype.trim`, `${n}` for a natural number, `err instanceof Error ? err.message : …` |
| `events.dfy` | `Events` | a device event row |
| `dashboard.dfy` | `Dashboard` | the page component (`www/app/page.tsx`): a class `DashboardPage` with the seven state fields and one method per handler, the fetch lifecycle split at its `await`, and the pure view derivations (chart series, ten-row table, truncation notice) |
| `gateway.dfy` | `Gateway` | `POST /api/device-events` (`www/app/api/device-events/route.ts`): validation, the query as a list of builder clauses, and the reply for success, store error and exception |
| `client_server.dfy` | `ClientServer` | the page and the gateway together |
| `globals.dfy` | `Globals` | the firmware's globals (`src/core/globals.cpp`), the preferences store and the radio state, as a class `Device` |
| `web_interface.dfy` | `WebInterface` | `showMainPage`'s network list and `handleConnect` (`src/web/web_interface.cpp`) |
| `wifi_manager.dfy` | `WifiManager` | `setupAP`'s scan copy and route table, request dispatch, and `connectToStoredWiFi` (`src/wifi/wifi_manager.cpp`) |
| `temperature.dfy` | `Temperature` | the two sensor flags (`src/temperature/temperature_service.cpp`), as pure steps and as a class `TemperatureSensor` |
| `network_service.dfy` | `NetworkService` | `logDeviceEvent`'s guard chain and JSON payload (`src/network/network_service.cpp`) |

Code that updates state step by step is modelled that way. The page and the temperature
service are classes whose methods update their fields. The firmware's globals are the fields
of one `Device` object, `networks` is an `array<string>` of eight slots, and the firmware's
functions are methods that take the device. Each method's `ensures` states its whole new
state, except the two methods listed under "## Left out". Where a pure step function
specifies a method, its `ensures` ties the method to that function.
Everything outside the code (library calls, the store, the radio, the sensor, the clock) is
an input value. Each such value is named where it is used.

## Model

| member | source | states |
|---|---|---|
| Dashboard.RangeTable | www/app/page.tsx:64-76 | exactly the tags "30min", "1hour" and "1day" are quick ranges, of 30, 60 and 1440 minutes |
| Dashboard.DefaultDates | www/app/page.tsx:42-50 | the window `getDefaultDates` returns; `DefaultIsOneDay` states it is the last 24 hours before now |
| Dashboard.DefaultIsOneDay | www/app/page.tsx:42-50 | the default window ends now and starts 24 hours earlier, the same window as the "1day" quick range |
| Dashboard.RequestFor | www/app/page.tsx:84-98 | no request iff the id is blank after trimming; otherwise the request carries the trimmed, non-empty id, and an empty date becomes null |
| Dashboard.FailureMessage | www/app/page.tsx:112-121 | a failed response shows its non-empty `error`, else "HTTP <status>"; a thrown Error shows its message, anything else thrown "Failed to fetch events" |
| Dashboard.StatusMessageNamesStatus | www/app/page.tsx:113 | the "HTTP <status>" message starts with "HTTP " and the status reads back from it |
| Dashboard.DashboardPage.constructor | www/app/page.tsx:33-57 | the first render: empty id and tag, no events, no error, not loading, the default 24-hour window |
| Dashboard.DashboardPage.EditDeviceId | www/app/page.tsx:215 | typing in the id field changes the id and nothing else |
| Dashboard.DashboardPage.SetQuickRange | www/app/page.tsx:60-81 | a quick-range tag sets from = now − 30/60/1440 min and to = now, each formatted, and selects the tag; any other string changes nothing |
| Dashboard.DashboardPage.Clear | www/app/page.tsx:191-195 | the tag and both dates become empty; nothing else changes |
| Dashboard.DashboardPage.EditFromDate | www/app/page.tsx:232-235 | sets only the from date and deselects the quick range |
| Dashboard.DashboardPage.EditToDate | www/app/page.tsx:251-254 | sets only the to date and deselects the quick range |
| Dashboard.DashboardPage.BeginFetch | www/app/page.tsx:83-98 | a blank id sets the error "Please enter a device ID", sends nothing and leaves events and loading alone; otherwise loading starts, error and events are cleared, and the request is `RequestFor` of the form |
| Dashboard.DashboardPage.CompleteFetch | www/app/page.tsx:110-125 | success stores the events, or [] when there are none; failure stores the failure message and keeps the events null; loading ends in every case |
| Dashboard.Fetch | www/app/page.tsx:83-126 | a whole fetch from the idle page ends not loading, with the events and no error, or with no events and the error |
| Dashboard.Reverse | www/app/page.tsx:152 | same length, element i is element n−1−i of the input |
| Dashboard.ReverseTwice | www/app/page.tsx:152 | reversing twice gives the input back |
| Dashboard.ChartData | www/app/page.tsx:133-153 | no points without events; otherwise one point per event, in reverse order |
| Dashboard.ChartIsChronological | www/app/page.tsx:136-152 | events that arrive newest first are charted oldest first |
| Dashboard.TableRows | www/app/page.tsx:397 | exactly the first min(10, n) events |
| Dashboard.PopulatedResults | www/app/page.tsx:295-417 | a non-empty result shows n chart points, the first min(10, n) events as rows, and the "Showing first 10 of n" notice iff n > 10 |
| Dashboard.TableExamples | www/app/page.tsx:397-417 | fifteen events give ten rows and the notice for 15; five give five rows and no notice |
| Dashboard.Results | www/app/page.tsx:295-417 | what the results area shows; `PopulatedResults` and `TableExamples` state its chart, rows and notice |
| Js.Trim | www/app/page.tsx:84 | the result is empty iff the input is all whitespace; otherwise it neither starts nor ends with whitespace |
| Js.TrimKeepsMiddle | www/app/page.tsx:84 | the trimmed string is a slice of the input with only whitespace before it and only whitespace after it |
| Js.TrimIdempotent | www/app/page.tsx:95 | trimming a trimmed id changes nothing |
| Js.Decimal | www/app/page.tsx:113 | a non-empty string of digits with no leading zero |
| Js.DecimalRoundTrip | www/app/page.tsx:113 | the digits read back to the number |
| Js.DecimalInjective | www/app/page.tsx:113 | different statuses give different texts |
| Gateway.Query | www/app/api/device-events/route.ts:25-37 | the query starts with from events, select *, eq device_id, order created_at descending; a gte(created_at, from) clause is present iff from is truthy, an lte(created_at, to) clause iff to is truthy, and nothing else follows |
| Gateway.Plan | www/app/api/device-events/route.ts:11-37 | the store is queried iff the body was read and device_id is truthy; a falsy device_id is answered with 400 "device_id is required" |
| Gateway.Post | www/app/api/device-events/route.ts:9-74 | an unreadable body gives 500 with its message; a falsy id gives 400; a store error gives 500 "Database query failed" with the store's message; a rejection gives 500 "Internal server error" with its message or "Unknown error"; success gives 200 with the events (or []), count = their number, and device_id, from and to echoed |
| Gateway.Finish | www/app/api/device-events/route.ts:39-63 | the reply once the store has answered; `Post` states it for each store outcome |
| Gateway.ReplyShapes | www/app/api/device-events/route.ts:15-72 | every reply is 200, 400 or 500; it is 200 iff it is a listing, whose count is its length; it is 400 iff it is the missing-id error |
| Gateway.MissingDeviceIdSkipsStore | www/app/api/device-events/route.ts:15-20 | a falsy id never reaches the store: the reply is the same whatever the store would say |
| Gateway.StoreDecides | www/app/api/device-events/route.ts:42-63 | with a truthy id, a store error and a success never give the same reply |
| ClientServer.PageRequestsPassValidation | www/app/api/device-events/route.ts:12-37 | every request the page sends passes validation, filters on the trimmed id, and has a lower or upper bound iff the date field is non-empty |
| ClientServer.PageNeverGetsMissingDeviceId | www/app/api/device-events/route.ts:15-20 | the page never receives the 400 reply, whatever the store does |
| ClientServer.RowsReachPage | www/app/page.tsx:116 | rows the store returns become the page's events, unchanged and in order |
| ClientServer.StoreErrorReachesPage | www/app/api/device-events/route.ts:42-51 | a store error reaches the page as "Database query failed" |
| ClientServer.StoreExceptionReachesPage | www/app/api/device-events/route.ts:64-73 | a store exception reaches the page as "Internal server error" |
| Globals.Device.constructor | src/core/globals.cpp:12-16 | power-on: no networks, empty SSID and password, no connection requested, the stored preferences kept |
| WebInterface.EscapeQuotes | src/web/web_interface.cpp:45 | the escaped SSID has no `"`, and each `"` grows by the five extra characters of `&quot;` |
| WebInterface.EscapeChar | src/web/web_interface.cpp:45 | a `"` becomes `&quot;` and any other character stays; with `EscapeAppend` this fixes the escaped form of every string |
| WebInterface.EscapeAppend | src/web/web_interface.cpp:45 | escaping works character by character: it distributes over concatenation |
| WebInterface.EscapeFixesExactlyQuoteFree | src/web/web_interface.cpp:45 | escaping leaves a string unchanged iff it has no `"` |
| WebInterface.EscapeIdempotent | src/web/web_interface.cpp:45 | escaping an escaped SSID changes nothing |
| WebInterface.NetworkItem | src/web/web_interface.cpp:46 | one list entry, the escaped SSID in the script call and in the link text; `ItemQuotesOnlyDelimitAttribute` states its quoting |
| WebInterface.ItemQuotesOnlyDelimitAttribute | src/web/web_interface.cpp:46 | each list entry has exactly two `"`, the ones around its onclick attribute, whatever the SSID |
| WebInterface.ListedCount | src/web/web_interface.cpp:41 | max(0, min(networkCount, 3)) |
| WebInterface.Entries | src/web/web_interface.cpp:42-47 | k entries, entry i being the item for name i |
| WebInterface.ListItems | src/web/web_interface.cpp:36-47 | a count of 0 gives exactly the "No networks found" item; otherwise max(0, min(count, 3)) items, item i for name i, in array order |
| WebInterface.FailedScanListsNothing | src/web/web_interface.cpp:36-42 | a negative count lists nothing, not even the notice |
| WebInterface.MainPageListIsItems | src/web/web_interface.cpp:36-47 | what the loop appends, starting from the notice, is the list items written out |
| WebInterface.ShowMainPage | src/web/web_interface.cpp:36-84 | status 200, text/html, and the network list is the list items of the current networks and count |
| WebInterface.HandleConnect | src/web/web_interface.cpp:87-115 | with both arguments, the SSID and password are kept and stored under wifi/ssid and wifi/pass, a connection is requested and the confirmation page is sent with 200; with either missing, 400 and no global or preference changes; the radio state never changes |
| WifiManager.ScanCopyShape | src/wifi/wifi_manager.cpp:13-17 | the copy keeps eight slots, copies the first min(n, 8) names, and copies nothing when n ≤ 0 |
| WifiManager.ScanCopy | src/wifi/wifi_manager.cpp:13-17 | the `networks` array after the copy loop; `ScanCopyShape` states its size and contents |
| WifiManager.ScanThenList | src/wifi/wifi_manager.cpp:12-17 | right after a scan, the main page lists the notice when n = 0, nothing when n < 0, and otherwise the first min(n, 3) scanned names in scan order |
| WifiManager.SetupAP | src/wifi/wifi_manager.cpp:4-84 | networkCount = min(n, 8), slots below it hold the scanned names, the other slots are unchanged; the radio ends in AP-only mode with the soft AP, the DNS redirector and the web server up and the station interface stopped; the credentials and preferences are unchanged |
| WifiManager.FirstMatch | src/wifi/wifi_manager.cpp:30-80 | the first route that takes the request, and no earlier one does |
| WifiManager.Dispatch | src/wifi/wifi_manager.cpp:30-80 | the handler the server runs, the first of the routes in `ROUTES` (the ten `server.on` calls, in order) that takes the request, else the main page; the lemmas after it state its answers |
| WifiManager.RoutePathsDistinct | src/wifi/wifi_manager.cpp:30-75 | every route has its own path |
| WifiManager.RegisteredRouteHandles | src/wifi/wifi_manager.cpp:30-75 | a request to a registered path, with a method the route accepts, is served by that route |
| WifiManager.UnregisteredPathShowsMainPage | src/wifi/wifi_manager.cpp:77-80 | any unregistered path shows the main page |
| WifiManager.ProbeAnswers | src/wifi/wifi_manager.cpp:41-75 | /ncsi.txt answers "Microsoft NCSI", /success.txt "success", /connecttest.txt "", /generate_204 and /hotspot-detect.html their pages, for any method |
| WifiManager.ConnectIsPostOnly | src/wifi/wifi_manager.cpp:32 | /connect runs the connect handler for POST; any other method gets the main page |
| WifiManager.HandleRequest | src/wifi/wifi_manager.cpp:30-80 | the main page and fixed routes change no state and send their reply; /connect with POST replies 200 and stores the credentials when both arguments are present, else 400 |
| WifiManager.ConnectToStoredWiFi | src/wifi/wifi_manager.cpp:86-117 | an empty stored SSID changes nothing; otherwise the stored credentials are given to the radio in station mode, which stops any soft AP; a join leaves the radio connected in station mode, and a failed join falls back to `setupAP`, which stops the station |
| Temperature.InitStep | src/temperature/temperature_service.cpp:27-39 | always initialized; connected iff the test reading is not −127 |
| Temperature.ReadStep | src/temperature/temperature_service.cpp:42-76 | the result is −127 or in [−55, 125]; a reading is taken iff initialized and connected; otherwise −127 and no flag changes; a −127 reading clears connected; an out-of-range reading gives −127 and keeps the flags |
| Temperature.ProbeStep | src/temperature/temperature_service.cpp:78-92 | not initialized: false and no change; otherwise connected := (reading ≠ −127), and that value is returned |
| Temperature.RunKeepsConsistent | src/temperature/temperature_service.cpp:8-92 | every sequence of calls keeps connected ⇒ initialized |
| Temperature.PowerOnConsistent | src/temperature/temperature_service.cpp:8-9 | from power-on (both flags false) the flags stay consistent |
| Temperature.DisconnectedStaysDisconnected | src/temperature/temperature_service.cpp:48-51 | once disconnected, every read returns −127 and the flags stay the same |
| Temperature.Readings | src/temperature/temperature_service.cpp:42-76 | one value per read, each −127 or the in-range reading taken at that read |
| Temperature.ProbeReconnects | src/temperature/temperature_service.cpp:86-89 | a check that sees the sensor again makes the next read take a reading |
| Temperature.TemperatureSensor.constructor | src/temperature/temperature_service.cpp:8-9 | both flags start false |
| Temperature.TemperatureSensor.Init | src/temperature/temperature_service.cpp:11-40 | the flags become `InitStep(reading)`, and one conversion is requested |
| Temperature.TemperatureSensor.GetTemperatureC | src/temperature/temperature_service.cpp:42-76 | flags and result as `ReadStep`; the result is −127 or in range; a conversion is requested only when a reading is taken |
| Temperature.TemperatureSensor.IsConnected | src/temperature/temperature_service.cpp:78-92 | flags and result as `ProbeStep`; a conversion is requested only when initialized |
| NetworkService.DeviceId | src/network/network_service.cpp:7-12 | the configured id, or "NOD1" when none is configured |
| NetworkService.Payload | src/network/network_service.cpp:49-52 | the posted JSON text; `PayloadLayout` states its layout |
| NetworkService.Decide | src/network/network_service.cpp:4-33 | a payload is posted iff WiFi is connected, the id is non-empty, and the temperature is not −127 and in range; each of the four exits is taken exactly when the checks before it pass and its own fails |
| NetworkService.OutOfRangeUnreachable | src/network/network_service.cpp:30-33 | the range check never fires for a value `getTemperatureC` returned |
| NetworkService.DefaultIdPostsValidReadings | src/network/network_service.cpp:4-33 | with the default id, a post happens iff WiFi is up, the sensor is initialized and connected, and the reading is measurable |
| NetworkService.PayloadLayout | src/network/network_service.cpp:49-52 | the payload is `{"device_id": "`, the id as given, `", "temp_c": `, the temperature text, then `}` |
| NetworkService.QuoteFrom | src/network/network_service.cpp:50 | the first `"` at or after a position |
| NetworkService.PayloadIdReadsBack | src/network/network_service.cpp:50 | an id without `"` reads back exactly, up to the next `"` |
| NetworkService.QuotedIdIsCutShort | src/network/network_service.cpp:50 | an id with a `"` does not read back, because it is inserted unescaped |
| NetworkService.LogDeviceEvent | src/network/network_service.cpp:3-57 | with WiFi down or an empty id the sensor is not touched; otherwise the sensor steps as `ReadStep`, with one conversion requested when a reading is taken; the result is `Decide` of the returned value, so a post happens only after every check passes, and the out-of-range exit is never taken |

## Left out

- The page has no auto-refresh toggle or countdown, so none is modelled.
- React rendering, recharts, the styling and the markup are not modelled. So are the fixed HTML of the captive portal's main page (styles, the password form, the inline script). The page that confirms a connection is kept as its literal pieces.
- WebInterface.ShowMainPage: its reply body is the network-list fragment only. The fixed markup before and after the list is left out.
- WifiManager.HandleRequest: for `/connect` it states the status and the new preferences only. `WebInterface.HandleConnect` states the rest.
- Library calls are parameters:
  - `toISOString().slice(0, 16)` is `iso`.
  - The locale formatting of timestamps is `timeLabel` and `fullLabel`.
  - `String(temperature, 2)` is `fmt`.
  - The result of `fetch` and `response.json()` is a `FetchOutcome`.
  - The store's `{ data, error }` or its rejection is a `StoreOutcome`.
  - `request.json()` is an `Incoming`.
  - `WiFi.scanNetworks()` with `WiFi.SSID(i)` is a `ScanResult`.
  - `sensors.getTempCByIndex(0)` is `reading`.
  - `WiFi.status()` is `wifiConnected` or `joins`.
- A null request body makes the gateway's destructuring throw. This is folded into `Unreadable` with that exception, which is the same path into the `catch`.
- Supabase's execution of the query (filtering, ordering), the HTTP client, the web server, the DNS server and the preferences library are not modelled. Their effects appear as values or fields: the clause list, the posted payload, `serverRunning`, `dnsRunning`, and `prefs` as a map.
- The ten-second `millis()`/`delay` wait in `connectToStoredWiFi` is left out. Only its outcome, `joins`, is kept.
- Serial and console logging, the API token header and the endpoint URL of the event post are left out.
- The HTTP status of the event post is not modelled. `LogDeviceEvent` returns the payload it would post.
- Overlapping fetches are absent. The fetch button is disabled while loading, which is modelled as `BeginFetch` requiring `FetchEnabled()`. The continuation after the `await` exists only after a start, modelled as `CompleteFetch` requiring `loading`.
- Temperatures are `real`. Floating-point rounding and NaN readings are not modelled. The sensor yields -127.0 exactly when disconnected, and the code compares only against constants.
- `WiFi.SSID(i)` is assumed to have a name for every index below the scan count (`ScanWellFormed`).
- `clearStoredWiFi` and `performHardwareReset` are declared in src/wifi/wifi_manager.h, but their definitions are not part of this model. The firmware's main loop, which calls `connectToStoredWiFi`, `logDeviceEvent` and `handleClient`, is not part of this model either.
