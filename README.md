# browser-tools-mcp extension: connection and collection core in Dafny

This project models the stateful core of the browser-tools-mcp browser extension.

- **Devtools panel** (`firefox-extension/panel.js`): connection bookkeeping.
  - `discoverServer` is a single-flight scan. It probes the configured server first, then `localhost` on 3025, 3000, 8000, 8080, 4000 and 5000. It skips the fallback that duplicates the configured server and stops at the first candidate that passes the identity handshake.
  - `tryServerConnection` adopts and saves an accepted candidate. `testConnection` only sets the connection flag.
  - `scheduleReconnectAttempt` keeps a single reconnect timer. `cancelOngoingDiscovery` resets the discovery state.
  - The runtime-message listener drives `serverConnected` and restarts discovery.
- **Identity handshake**, shared by both background scripts and the panel: a candidate is accepted only when the response is OK and its JSON `signature` is exactly `mcp-browser-connector-24x7`.
- **Background scripts** (`chrome-extension/background.js`, `firefox-extension/background.js`):
  - the per-tab URL cache and its listeners;
  - the cache-first `getCurrentTabUrl`;
  - URL delivery: Chrome makes at most three POST attempts, Firefox validates the server's identity and then makes one POST;
  - the messages sent after a page refresh;
  - Firefox only: the `storedData` record refreshed from content-script replies.
- **Content script** (`firefox-extension/content_scripts/content.js`):
  - four log buffers capped by "shift when longer than 500, then push";
  - the messages that read and clear the buffers;
  - fetch and XHR outcome classification;
  - truncation of selected HTML;
  - the five SEO checks and their score.

Network, storage and browser calls are inputs:
- a probe of an endpoint is answered by an `oracle: Endpoint -> Probe`;
- a Chrome POST attempt `i` has the outcome `attempt(i)`;
- tab lookups are `Option<string>` values, where `None` stands for a thrown error or a falsy URL;
- the page facts the SEO audit reads are a `PageFacts` record.

Each event handler runs to completion as one atomic step. The panel's state lives in the fields of the `Panel.DevtoolsPanel` class. The reconnect timer is the `ReconnectTimer.Timer` value: the handle variable, the timers still pending, and the next id `setTimeout` hands out. Listeners that call `updateServerWithUrl` return those calls as `UrlSync` records. The delivery functions say which requests each call issues.

Behaviours of the code worth noting:
- Chrome's delivery is not gated on being connected.
- Chrome's delivery also retries when an OK response's body does not parse as JSON.
- The Firefox refresh retest never requests a discovery.

Two mismatches in the code are modelled as written:
- The content script answers `get*` actions with a `logs` field. The Firefox background reads `response.data`, so `storedData` is only refreshed by a reply that carries `data`.
- Firefox `updateServerWithUrl` has no empty-URL guard.

## Model

| member | source | states |
|---|---|---|
| Handshake.Classify | firefox-extension/background.js:169-194 | The branches of the validator: verified exactly for an OK response with the literal signature; an HTTP error for any non-OK status; the catch path for a transport failure or an unparsable OK body; otherwise a wrong signature. |
| Handshake.ValidateServerIdentity | chrome-extension/background.js:148-172 | Returns true exactly when the classification is verified; every other path, including thrown errors, returns false. |
| Handshake.SignatureExactness | firefox-extension/panel.js:496-506 | Any signature other than the exact literal is rejected as a wrong signature, never verified. |
| Handshake.MissingSignatureRejected | chrome-extension/background.js:159-165 | An OK JSON body without a `signature` field is a rejection, not an error. |
| Handshake.StatusCheckedFirst | chrome-extension/background.js:154-157 | A non-OK response is rejected whatever its body says. |
| Discovery.Fallbacks | firefox-extension/panel.js:627-644 | The fallback loop yields at most one endpoint per common port. |
| Discovery.FallbacksMembers | firefox-extension/panel.js:627-636 | The fallbacks are exactly the `localhost` endpoints on the listed ports, minus the one equal to the configured server. |
| Discovery.FallbacksPrefix | firefox-extension/panel.js:628-644 | Each iteration only appends: the fallbacks of the first `i` ports are a prefix of all the fallbacks. |
| Discovery.CandidateOrder | firefox-extension/panel.js:612-644 | The configured server is a candidate exactly when host and port are both truthy, and then it is probed first; every candidate is that server or `localhost` on a common port. |
| Discovery.FallbacksNoSkip | firefox-extension/panel.js:628-635 | When the configured server is not `localhost` on a listed port, every listed port is tried, in order. |
| Discovery.FallbacksSkipOne | firefox-extension/panel.js:629-635 | When the configured server is `localhost` on listed port `k`, exactly that fallback is dropped and the rest keep their order. |
| Discovery.FallbacksDistinct | firefox-extension/panel.js:627-628 | Distinct ports give distinct fallbacks. |
| Discovery.CandidateOrderDistinct | firefox-extension/panel.js:613-636 | No endpoint is probed twice in one discovery. |
| Discovery.CandidateOrderShape | firefox-extension/panel.js:613-644 | The full probe order in both cases: configured server and then all six fallbacks, or a configured `localhost:p` followed by the other five. |
| Discovery.ConfiguredLocalhostProbedOnceFirst | firefox-extension/panel.js:629-635 | A configured `localhost:p` with `p` in the list is probed first and exactly once. |
| Discovery.DefaultSettingsOrder | firefox-extension/panel.js:613-628 | With the built-in settings `100.65.170.44:3025`, the order is that server and then `localhost` on 3025, 3000, 8000, 8080, 4000, 5000. |
| Discovery.LocalhostSettingsOrder | firefox-extension/panel.js:627-635 | With `localhost:8080` configured, 8080 comes first and the other five follow in list order. |
| Discovery.FirstAccepted | firefox-extension/panel.js:615-642 | Finds the least index whose probe is accepted, or reports that none is. |
| Discovery.Scan | firefox-extension/panel.js:612-650 | A scan probes a prefix of the candidates in which all but the last were rejected. It finds something exactly when some candidate is accepted; what it finds is the last probe, and it was accepted. When nothing is found, every candidate was probed. |
| Discovery.ScanStopsAt | firefox-extension/panel.js:618-642 | If candidate `k` is the first accepted one, the scan makes exactly `k + 1` probes and finds candidate `k`. |
| Discovery.ScanExhausts | firefox-extension/panel.js:646-650 | If no candidate is accepted, all are probed and nothing is found. |
| Discovery.ScanAppend | firefox-extension/panel.js:612-644 | A rejected configured probe followed by the fallback loop is the same scan as one over the whole candidate order. |
| Discovery.FallbackAccepted | firefox-extension/panel.js:628-642 | When the fallbacks before port `i` were all rejected and port `i`'s is accepted, the fallback scan ends there, having probed exactly those endpoints. |
| Discovery.FallbacksExhausted | firefox-extension/panel.js:628-646 | When every fallback is rejected, the fallback scan probes them all and finds nothing. |
| Discovery.CandidateScan | firefox-extension/panel.js:612-644 | The configured-server probe followed by the fallback loop is exactly one scan of the candidate order. An accepted configured server ends it at once; otherwise the fallback scan decides. |
| ReconnectTimer.Schedule | firefox-extension/panel.js:465-477 | Clearing the old timer and setting a new one leaves only the new timer pending. |
| ReconnectTimer.Clear | firefox-extension/panel.js:390-394 | Clearing leaves no handle and no pending timer. |
| ReconnectTimer.Fire | firefox-extension/panel.js:471-476 | A firing timer is no longer pending, and the handle variable keeps its stale value. |
| ReconnectTimer.AtMostOnePending | firefox-extension/panel.js:465-471 | In every consistent timer state, at most one reconnect attempt is pending. |
| ReconnectTimer.ScheduleTwice | firefox-extension/panel.js:465-471 | Scheduling twice leaves only the second timer pending. |
| ReconnectTimer.ReplayConsistent | firefox-extension/panel.js:390-477 | Any sequence of schedules, clears and firings keeps the timer consistent. |
| ReconnectTimer.NeverTwoPending | firefox-extension/panel.js:465-477 | From panel load, after any sequence of schedules, clears and firings, at most one reconnect attempt is pending. |
| Panel.DevtoolsPanel.constructor | firefox-extension/panel.js:2-30 | The defaults: server `100.65.170.44:3025`, disconnected, no discovery in progress, no timer. |
| Panel.DevtoolsPanel.ScheduleReconnectAttempt | firefox-extension/panel.js:465-477 | The timer state becomes `Schedule` of the old one, and exactly the new timer is pending. |
| Panel.DevtoolsPanel.UpdateConnectionBanner | firefox-extension/panel.js:295-332 | A disconnected banner schedules a reconnect. A connected banner, or a missing banner, changes nothing. |
| Panel.DevtoolsPanel.CancelOngoingDiscovery | firefox-extension/panel.js:381-398 | Leaves no controller, no handle, no pending timer, and no discovery in progress. Nothing else changes. |
| Panel.DevtoolsPanel.TestConnection | firefox-extension/panel.js:401-462 | The connection flag becomes the handshake verdict, and a failure schedules a reconnect when the banner exists. The settings are untouched. |
| Panel.DevtoolsPanel.TryServerConnection | firefox-extension/panel.js:480-553 | On acceptance the candidate becomes the configured and saved server and the panel is connected. On any failure only the controller changes. |
| Panel.DevtoolsPanel.ProbeFallbacks | firefox-extension/panel.js:627-644 | The loop's probes are the scan of the fallback list, and the panel adopts what that scan finds. |
| Panel.DevtoolsPanel.DiscoverServer | firefox-extension/panel.js:583-656 | While a discovery is in progress, it does nothing and probes nothing. Otherwise it probes exactly the scan of the candidate order and adopts the first accepted endpoint, or changes no setting. The in-progress flag always ends false. A visible search that finds nothing schedules a reconnect. |
| Panel.DevtoolsPanel.RunDiscovery | firefox-extension/panel.js:590-655 | Past the guard: the probes are the configured server and then the fallback loop. The first accepted endpoint is adopted, or no setting changes. The in-progress flag ends false. A visible search that finds nothing schedules a reconnect. |
| Panel.DevtoolsPanel.ReconnectTimerFires | firefox-extension/panel.js:471-476 | The timer callback scans only when the panel is disconnected and idle; otherwise it changes nothing but the pending set. |
| Panel.DevtoolsPanel.OnReconnectClicked | firefox-extension/panel.js:668-674 | Cancel, then a visible discovery: the full scan always runs, even if a discovery was in progress. |
| Panel.DevtoolsPanel.CreateConnectionBanner | firefox-extension/panel.js:174-292 | An existing banner changes nothing. A new banner with a configured server tests it: the flag becomes the verdict, and a rejection schedules a reconnect. Host, port, saved server and discovery state are untouched. |
| Panel.DevtoolsPanel.LoadSettings | firefox-extension/panel.js:40-51 | Startup replaces host and port by the stored server, creates the banner (with its connection test), then runs a quiet discovery from that state: nothing while a discovery runs, otherwise a scan of the merged settings' candidate order whose first accepted endpoint is adopted, connected to and saved, with the timer left as the test left it. |
| Panel.DevtoolsPanel.OnMessage | firefox-extension/panel.js:54-171 | Each message type leaves exactly its handler's outcome, over all eight fields and the probes: a status update sets the flag and may schedule; a discovery request or failed validation has the outcome stated in the next rows; a validation success or WebSocket connection only sets the flag; any other message changes nothing. Only discovery requests and failed validations probe. |
| Panel.DevtoolsPanel.OnConnectionStatusUpdate | firefox-extension/panel.js:55-80 | The connection flag follows the message. A disconnected status schedules a reconnect when the banner exists. Nothing else changes. |
| Panel.DevtoolsPanel.OnAutoDiscoveryRequest | firefox-extension/panel.js:82-113 | A page-refresh or forced request cancels, schedules a reconnect when the banner exists, and always scans the candidate order, even during a discovery. Any other request scans only when idle, and changes nothing otherwise. |
| Panel.DevtoolsPanel.OnValidationSuccess | firefox-extension/panel.js:116-129 | The panel is connected; nothing else changes, the timer included. |
| Panel.DevtoolsPanel.OnValidationFailed | firefox-extension/panel.js:132-152 | The panel is disconnected, and a reconnect is scheduled when the banner exists. A connection or HTTP error also scans the candidate order when idle; otherwise the settings are untouched. |
| Panel.DevtoolsPanel.OnWebSocketConnected | firefox-extension/panel.js:155-170 | The panel is connected; nothing else changes, the timer included. |
| TabCache.Remember | chrome-extension/background.js:244-265 | A truthy URL is cached under its tab and a falsy one changes nothing; other tabs are untouched and no empty URL is ever stored. |
| TabCache.LookupTabUrl | chrome-extension/background.js:192-241 | Cache first, with the cache unchanged on a hit. A miss tries the tab's own URL and then the active tab's URL, caching whichever is returned under the requested id. It returns `null` exactly when all three fail. |
| TabCache.LookupSticky | chrome-extension/background.js:197-201 | Once a URL is returned for a tab, later lookups return it without regard to the browser. |
| TabCache.ActiveTabFallbackCached | chrome-extension/background.js:219-233 | The active tab's URL is cached under the requested tab id. |
| TabCache.LookupNeverEmpty | chrome-extension/background.js:197-212 | Because only truthy URLs are stored, a lookup never returns an empty URL. |
| ChromeBackground.Background.constructor | chrome-extension/background.js:188-189 | The tab URL cache starts empty. |
| ChromeBackground.Background.OnUpdated | chrome-extension/background.js:244-265 | A URL change is cached and sent as `tab_url_change`. A completed load caches and sends the tab URL as `page_complete` and always retests. |
| ChromeBackground.Background.OnActivated | chrome-extension/background.js:268-289 | The activated tab's URL is cached and sent as `tab_activated`. |
| ChromeBackground.Background.OnRemoved | chrome-extension/background.js:369-371 | The closed tab's entry, and only that entry, is deleted. |
| ChromeBackground.Background.ProcessTabForAudit | chrome-extension/background.js:175-186 | A tab with a URL is cached and sent with the default source. |
| ChromeBackground.Background.GetCurrentTabUrl | chrome-extension/background.js:192-241 | Returns and caches exactly what `LookupTabUrl` specifies. |
| ChromeBackground.UpdateServerWithUrl | chrome-extension/background.js:292-366 | A falsy URL sends nothing. Otherwise it makes between 1 and 3 POSTs, all with the same url, tabId and source, to the stored server (`localhost:3025` when none is stored). Every POST before the last failed, and success is the last one's outcome. Giving up takes exactly three failures. |
| ChromeBackground.RetestConnectionOnRefresh | chrome-extension/background.js:374-414 | Sends a status update carrying the handshake verdict, then a forced `page_refresh` discovery request. |
| ChromeBackground.RetestAlwaysRestartsDiscovery | chrome-extension/background.js:396-404 | The forced discovery request is the same whatever the validation outcome. |
| FirefoxBackground.Background.constructor | firefox-extension/background.js:7-12 | All four stored arrays start empty, and so does the cache. |
| FirefoxBackground.Background.OnContentResponse | firefox-extension/background.js:35-51 | With truthy `data`, a `get*` action replaces only its own field and `wipeLogs` empties all four. Without `data`, nothing changes. |
| FirefoxBackground.Background.OnUpdated | firefox-extension/background.js:266-287 | A URL change is cached and sent as `tab_url_change`. A completed load caches and sends the tab URL as `page_complete` and always retests. |
| FirefoxBackground.Background.OnActivated | firefox-extension/background.js:290-308 | The activated tab's URL is cached and sent as `tab_activation`. |
| FirefoxBackground.Background.ProcessTabForAudit | firefox-extension/background.js:197-208 | A tab with a URL is cached and sent with the default source. |
| FirefoxBackground.Background.GetCurrentTabUrl | firefox-extension/background.js:214-263 | Returns and caches exactly what `LookupTabUrl` specifies. |
| FirefoxBackground.UpdateServerWithUrl | firefox-extension/background.js:441-489 | An identity GET to the stored server (`localhost:3025` when none is stored) always comes first. A POST follows exactly when the handshake is verified, and at most one is sent. |
| FirefoxBackground.NoPostWithoutIdentity | firefox-extension/background.js:451-459 | After an HTTP error or a wrong signature, no POST is sent. |
| FirefoxBackground.RetestConnectionOnRefresh | firefox-extension/background.js:311-352 | Sends a disconnected status, then the verdict; no discovery request is sent. |
| LogBuffer.BoundedPush | firefox-extension/content_scripts/content.js:120-129 | The new entry is last, and at most the oldest entry is dropped, only when the buffer is over 500. What remains is a suffix of the old contents plus the new entry. It never grows past 501. |
| LogBuffer.PushNewest | firefox-extension/content_scripts/content.js:141-152 | A push maps the newest 501 entries of a history to the newest 501 of the extended history. |
| LogBuffer.PushAllStep | firefox-extension/content_scripts/content.js:120-129 | One more push keeps the buffer equal to the newest 501 entries of the extended history. |
| LogBuffer.PushAllKeepsNewest | firefox-extension/content_scripts/content.js:120-129 | From at most 501 entries, any sequence of pushes leaves exactly the newest 501 entries of everything pushed. |
| LogBuffer.FullStaysFull | firefox-extension/content_scripts/content.js:239-242 | A full buffer stays at 501 entries. |
| ContentScript.XhrClassification | firefox-extension/content_scripts/content.js:310-328 | `ok` and "error" never overlap. 1xx and 3xx statuses are neither. |
| ContentScript.TruncateHtml | firefox-extension/content_scripts/content.js:418-423 | Short HTML is unchanged. Longer HTML keeps its first 10000 characters followed by the fixed suffix. |
| ContentScript.Collector.constructor | firefox-extension/content_scripts/content.js:2-5 | All four buffers start empty. |
| ContentScript.Collector.LogConsole | firefox-extension/content_scripts/content.js:118-133 | `consoleLogs` becomes the bounded push of the entry. |
| ContentScript.Collector.ErrorConsole | firefox-extension/content_scripts/content.js:139-154 | `consoleErrors` becomes the bounded push of the entry. |
| ContentScript.Collector.PushNetworkLog | firefox-extension/content_scripts/content.js:239-242 | `networkLogs` becomes the bounded push of the entry; the other buffers are untouched. |
| ContentScript.Collector.PushNetworkError | firefox-extension/content_scripts/content.js:268-271 | `networkErrors` becomes the bounded push of the entry; the other buffers are untouched. |
| ContentScript.Collector.RecordFetchResponse | firefox-extension/content_scripts/content.js:225-256 | Every resolved fetch is logged under the init's truthy `method`, else `GET`, and it goes to the error buffer exactly when not `ok`. |
| ContentScript.Collector.RecordFetchRejection | firefox-extension/content_scripts/content.js:257-274 | A rejected fetch goes to the error buffer only. |
| ContentScript.Collector.RecordXhrLoad | firefox-extension/content_scripts/content.js:300-329 | Every load is logged with `ok` for 2xx, and it goes to the error buffer exactly from 400 on. |
| ContentScript.Collector.RecordXhrFailure | firefox-extension/content_scripts/content.js:331-361 | An XHR error or timeout goes to the error buffer only. |
| ContentScript.Collector.RecordResource | firefox-extension/content_scripts/content.js:166-198 | A resource-timing entry is logged, and also recorded as a possible error when the heuristic flags it. |
| ContentScript.Collector.HandleMessage | firefox-extension/content_scripts/content.js:22-110 | Every message is first logged: `consoleLogs` gains the logged message as a bounded push, and `getConsoleLogs` replies with that buffer. After that, `clearConsoleLogs` empties both console buffers, and `runDebuggerMode` adds its own lines. Otherwise the same outcome as the dispatch row below. |
| ContentScript.Collector.Dispatch | firefox-extension/content_scripts/content.js:25-110 | A get action replies with its buffer. A clear empties exactly its two buffers and leaves the other two. `getSelectedElement` replies `null` exactly when nothing is selected, and otherwise the selected element's HTML truncated to 10000 characters plus the suffix. `runDebuggerMode` logs its lines and replies with success at once. The four audits and the screenshot are answered later. Any other action is refused. Only a clear or the debugger mode changes a buffer. |
| ContentScript.Collector.RunDebuggerMode | firefox-extension/content_scripts/content.js:857-878 | Each of its lines is logged in order: `consoleLogs` becomes the pushes of all of them, and the other buffers are untouched. |
| SeoAudit.CountTrueAll | firefox-extension/content_scripts/content.js:707-710 | The count of images with `alt` equals the number of images exactly when every image has one. |
| SeoAudit.ImagesPassIffAllHaveAlt | firefox-extension/content_scripts/content.js:706-710 | The image check passes exactly when every image has an `alt` attribute. |
| SeoAudit.NumericIdUnclean | firefox-extension/content_scripts/content.js:687-689 | Ten digits in a row anywhere make a URL unclean. |
| SeoAudit.RunSeoAudit | firefox-extension/content_scripts/content.js:615-734 | `maxScore` is 5 and `score` is at most 5. `score` is the number of passes, and passes plus violations make 5. A check is among the passes exactly when its predicate holds, and among the violations exactly when it does not. |

## Left out

- Network transport, timeouts and abort signals. A probe or POST is an oracle outcome, and the 1, 2, 3 and 5 second timeouts and the 500 ms retry delay are not modelled as time.
- Asynchronous interleaving. Each handler is one atomic step, and `testConnection` at startup completes before the quiet discovery starts.
  - `cancelOngoingDiscovery` does not stop a running scan loop, and the model claims nothing about stale scans finishing after a cancel.
  - The reconnect timer fires only when the caller passes a pending id.
- Undeclared variables in the panel: `settings` is reassigned although declared `const`, and `discoveryController`, `reconnectAttemptTimeout`, `connectionStatusDiv` and `statusIcon` are never declared. They are ordinary fields here, and the resulting `ReferenceError`/`TypeError` are not modelled.
- Panel.DevtoolsPanel.LoadSettings: stored settings replace host and port together; a stored record with only one of them is not modelled.
- Ports are integers; a port stored as a string (compared through `parseInt`) is not modelled.
- Panel UI and DOM: banner styling, status texts, `updateUIFromSettings`, `saveSettings`, and the `UPDATE_SERVER_URL` / `GET_CURRENT_URL` messages the panel sends after a successful connection.
- The background scripts' `GET_CURRENT_URL` / `UPDATE_SERVER_URL` message wiring and the popup forwarding. `OnContentResponse` models only the `storedData` update; `getStoredData` only returns it.
- Screenshots, `executeInInspectedWindow`, the accessibility, performance and best-practices audits.
- ContentScript.Collector.HandleMessage: the asynchronous replies to `takeScreenshot` and the four audit actions are a placeholder `Deferred`; the SEO audit's result is `RunSeoAudit`'s, and a rejected `getSelectedElement` promise is not modelled.
- Console, fetch and XHR interception plumbing. Network entries omit durations and timestamps. A console entry is its already serialised text, passed in: the message `handleMessage` logs and the lines of `runDebuggerMode` are parameters, and the `JSON.stringify` that produces them is not modelled.
- The resource-timing heuristic (`duration > 10000 || transferSize === 0`) is a boolean input, because it compares floating-point timings.
- ChromeBackground.UpdateServerWithUrl, FirefoxBackground.UpdateServerWithUrl: a POST's JSON body also carries `timestamp: Date.now()`, fresh for every attempt; the timestamp is not modelled, so `UrlPost` records only url, tabId and source.
- Panel.DevtoolsPanel.LoadSettings: the startup connection test and the discovery's first probe of the same endpoint get the same `oracle` answer; a server whose answer changes between the two requests is not modelled.
- Lengths are counted in Dafny characters, not UTF-16 code units.
- `firefox-extension/content-script.js` and `firefox-extension/popup/popup.js` are not part of this model.
