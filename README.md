# SmartGuard in Dafny

SmartGuard is a home-security progressive web app. This project models its
offline-caching service worker and the state rules of its screens, and proves
properties about them.

- **Service worker** (`service_worker.dfy`, module `ServiceWorker`). The browser's cache storage is a `Store`:
  - the cache generations in creation order;
  - per generation, its entries keyed by method and URL.

  The install, activate and fetch handlers are methods of class `Worker` that update the store in place. Each handler is specified by a function of the old store. The routing of fetch, the static-asset test, the push notification builder and the notification-click decision are pure functions.
- **Dashboard** (`dashboard.dfy`). Class `DashboardScreen` has these parts:
  - the armed switch;
  - the simulated motion detector and the threat level it sets;
  - the siren condition;
  - the camera selector and its zoom;
  - the simulated system-health metrics.

  The random draws of the simulations are parameters of the tick methods.
- **Setup wizard** (`setup.dfy`). Class `SetupWizard` holds the step counter 1..3, the Wi-Fi fields and the scan/connect busy flags. The progress markers are a pure function of the step.
- **Alarm screen** (`alarm.dfy`). Class `AlarmScreen` holds the elapsed-seconds counter and the emergency-call flag. The mm:ss display is a pure function, with a proof that reading it back gives the seconds.
- **Activity log** (`logs.dfy`). The case-insensitive search filter over the five fixed events, the level colours and the type icons. The page is a pure function of the search text and the selected filter.
- **System diagnostics** (`system_diagnostics.dfy`) and **bottom navigation** (`bottom_navigation.dfy`). Pure classifiers: the High/Normal/Low band and bar width, and the active-tab rule.
- **Helpers**: `JsString` covers `includes`, `startsWith`, `toLowerCase`, `toString` and `padStart`. `JsMath` covers `Math.min`, `Math.max`, the clamp idiom and `Math.round`. `Optional` covers absent values.

Timers (`setInterval`, `setTimeout`) become events, the methods of the classes. Calls into the browser (`fetch`, `showNotification`, `openWindow`, `router.push`) become parameters or returned values:
- the network's answer to a request is a `NetOutcome` parameter;
- the install handler's network is a function from URL to outcome;
- a navigation is a returned path.

## Model

| member | source | states |
|---|---|---|
| `JsString.StartsWith` | public/service-worker.js:54 | `startsWith` is the prefix test; `ServiceWorker.RouteOrder` uses it for the `chrome-extension://` rule |
| `JsString.Includes` | public/service-worker.js:79-83 | `includes` is true iff the substring occurs at some index |
| `JsString.ToLower` | app/logs/page.tsx:97-98 | `toLowerCase` keeps the length and lower-cases each character |
| `JsString.NatToString` | app/alarm/page.tsx:129-132 | `toString` of a non-negative integer is all digits, denotes the number, is one digit below 10 and at most two below 100, and has no leading zero unless it is `0` |
| `JsString.PadStart` | app/alarm/page.tsx:129-132 | `padStart` keeps the text as a suffix, fills only in front, and reaches the target length unless already longer |
| `JsString.PadStartZerosValue` | app/alarm/page.tsx:129-132 | padding digits with zeros keeps them digits and keeps their value |
| `JsMath.Min` | components/system-diagnostics.tsx:49 | `Math.min(a, b)` is at most both arguments and equal to one of them |
| `JsMath.Max` | app/dashboard/page.tsx:510 | `Math.max(a, b)` is at least both arguments and equal to one of them |
| `JsMath.Clamp` | app/dashboard/page.tsx:182-185 | `max(lo, min(hi, x))` lies in [lo, hi], is x inside the range and the nearer bound outside it |
| `JsMath.Round` | components/system-diagnostics.tsx:36 | `Math.round` gives the integer within one half, halves rounded up |
| `ServiceWorker.Delete` | public/service-worker.js:35 | `caches.delete` of one generation; `DeleteStep` proves it drops the name from the creation order and the entries, and nothing else |
| `ServiceWorker.MatchIn` | public/service-worker.js:64 | the cross-generation lookup in creation order; `MatchOnlyHolder` and `MatchNoHolder` state what it returns |
| `ServiceWorker.Match` | public/service-worker.js:64-94 | `caches.match` over the whole store; `MatchOnlyHolder`, `MatchNoHolder`, `ActivatedMatch` and `PutThenMatch` state its answers |
| `ServiceWorker.Open` | public/service-worker.js:7 | `caches.open` creates the generation empty when missing and keeps every other generation |
| `ServiceWorker.Put` | public/service-worker.js:85-87 | `cache.put` maps the key to the response in the named generation, keeps every other key and every other generation; `PutThenMatch` states what a later match returns |
| `ServiceWorker.PutAll` | public/service-worker.js:10-17 | a batch put adds the entries to the opened generation and leaves all other generations unchanged |
| `ServiceWorker.MatchOnlyHolder` | public/service-worker.js:64 | when only one generation holds a key, `caches.match` across all generations returns that generation's entry, or nothing |
| `ServiceWorker.MatchNoHolder` | public/service-worker.js:94 | when no generation holds a key, `caches.match` returns nothing and fabricates no entry |
| `ServiceWorker.Fetchable` | public/service-worker.js:10-17 | `addAll` accepts a response iff it arrived with a status in 200..299 other than 206; `InstallAllOrNothing` states what a rejection stores |
| `ServiceWorker.InstallSucceeds` | public/service-worker.js:10-17 | install succeeds iff every manifest route is fetchable; `Worker.Install` reports exactly this |
| `ServiceWorker.EntriesForContent` | public/service-worker.js:10-17 | the entries `addAll` builds are exactly the GET keys of the listed URLs, each with its fetched response |
| `ServiceWorker.Installed` | public/service-worker.js:7-17 | the store after the install handler; `InstallStoresManifest`, `InstallFreshExact`, `InstallAllOrNothing`, `InstallKeepsOthers` and `InstallIdempotent` state its contents |
| `ServiceWorker.InstallStoresManifest` | public/service-worker.js:7-17 | after a successful install the current generation holds each of the six routes with its fetched response |
| `ServiceWorker.InstallFreshExact` | public/service-worker.js:10-17 | installing into storage without the current generation leaves it holding exactly the manifest keys |
| `ServiceWorker.ManifestKeysCount` | public/service-worker.js:11-16 | the manifest names six distinct routes |
| `ServiceWorker.InstallAllOrNothing` | public/service-worker.js:7-17 | when any route fails or is not ok, install stores no entry; only an empty current generation may appear |
| `ServiceWorker.InstallKeepsOthers` | public/service-worker.js:7-17 | install never creates, deletes or changes a generation other than the current one |
| `ServiceWorker.InstallIdempotent` | public/service-worker.js:7-17 | installing twice with the same network answers gives the store of one install |
| `ServiceWorker.Activated` | public/service-worker.js:30-38 | the store after the activate handler; `ActivateLeavesOnlyCurrent`, `ActivatedMatch` and `ActivateIdempotent` state its contents |
| `ServiceWorker.ActivateLeavesOnlyCurrent` | public/service-worker.js:30-38 | after activate the only generation left is the current one, if it existed, with its entries untouched |
| `ServiceWorker.ActivatedMatch` | public/service-worker.js:30-38 | after activate every match is answered by the current generation alone |
| `ServiceWorker.ActivateIdempotent` | public/service-worker.js:30-38 | activating twice gives the same store as activating once |
| `ServiceWorker.DeleteStep` | public/service-worker.js:35 | one `caches.delete` of the activate loop removes one more name from both the order and the entries |
| `ServiceWorker.ActivateLoopDone` | public/service-worker.js:32-37 | deleting every listed name that differs from the current tag yields the activated store |
| `ServiceWorker.UpgradeScenario` | public/service-worker.js:7-38 | install then activate over an old generation leaves only the current generation, holding exactly the six routes |
| `ServiceWorker.RouteOf` | public/service-worker.js:49-68 | which of the handler's branches a request takes; `RouteOrder` states the tests in their order |
| `ServiceWorker.IsStaticAsset` | public/service-worker.js:78-84 | the static-asset test; `StaticAssetMeaning`, `StaticAssetExamples` and `StaticAssetCaseSensitive` state what it accepts |
| `ServiceWorker.ShouldCache` | public/service-worker.js:78-84 | a response is cached iff its status is 200 and the URL is a static asset; `StaticAssetExamples` and `UpperCaseIconNotCached` give cases |
| `ServiceWorker.RouteOrder` | public/service-worker.js:49-68 | a request passes through iff it is not GET or its URL starts with `chrome-extension://`; otherwise it is a navigation iff its mode is `navigate` |
| `ServiceWorker.StaticAssetMeaning` | public/service-worker.js:78-84 | a URL is a static asset iff one of the five patterns occurs anywhere in it |
| `ServiceWorker.StaticAssetExamples` | public/service-worker.js:78-84 | the test is a substring test: a query after `.png` and a path under `/cameras` both match, and a 404 is not cached |
| `ServiceWorker.StaticAssetCaseSensitive` | public/service-worker.js:78-84 | the test is case-sensitive: a URL lacking the lower-case letters of every pattern is never a static asset |
| `ServiceWorker.UpperCaseIconNotCached` | public/service-worker.js:78-84 | `/ICON.PNG` with status 200 is not cached |
| `ServiceWorker.FromMatch` | public/service-worker.js:62-65 | the fallback `respondWith` serves a found response unchanged and answers an undefined match with a network error, never passing the request through |
| `ServiceWorker.PutThenMatch` | public/service-worker.js:85-94 | a response put into the current generation is what a later match returns, when no other generation holds the key |
| `ServiceWorker.OrDefault` | public/service-worker.js:111-116 | `field || fallback` gives the field when it is a non-empty string and the fallback otherwise, so a non-empty fallback gives a non-empty result |
| `ServiceWorker.OnPush` | public/service-worker.js:108-135 | without a payload no notification is shown; with one, the body and URL are the payload's non-empty strings or the defaults, with the fixed vibration pattern and the view/dismiss actions |
| `ServiceWorker.OnNotificationClick` | public/service-worker.js:139-149 | a click always closes the notification and opens a window, on the notification's URL, iff the action is `view` |
| `ServiceWorker.PushThenView` | public/service-worker.js:108-149 | after a push, `view` opens the payload URL or `/dashboard`; `dismiss` and the bare click open nothing |
| `ServiceWorker.MotionAlertScenario` | public/service-worker.js:108-149 | a concrete alert keeps its body and deep link, and `view` opens the deep link |
| `ServiceWorker.Worker.constructor` | public/service-worker.js:1-4 | a new worker starts on the storage earlier versions left, not yet installed |
| `ServiceWorker.Worker.Install` | public/service-worker.js:4-24 | the install handler reports success iff every route was fetched ok, records that outcome as the worker's installed flag, and leaves the store as `Installed` describes |
| `ServiceWorker.Worker.Activate` | public/service-worker.js:27-44 | the activate handler runs only on a worker whose install succeeded and, deleting names one at a time, leaves the store as `Activated` describes |
| `ServiceWorker.Worker.HandleFetch` | public/service-worker.js:47-97 | non-GET and extension requests are not intercepted and change nothing; a navigation returns any network response unchanged and falls back to the cached `/` only on transport failure; other requests return the network response, cache it iff status 200 and a static asset, and on transport failure return the exact cache match or nothing |
| `ServiceWorker.IconOfflineScenario` | public/service-worker.js:71-95 | an icon fetched once with status 200 is served from the cache when the network later fails |
| `Dashboard.ThreatColor` | app/dashboard/page.tsx:212-223 | `getThreatColor`; `ThreatColorsDistinct` states the three colours differ and any other string gets the default |
| `Dashboard.DeviceIconFor` | app/dashboard/page.tsx:225-240 | `getDeviceIcon`; `DeviceIconDefault` states which names fall to the default icon |
| `Dashboard.ThreatColorsDistinct` | app/dashboard/page.tsx:212-223 | the three threat levels get three different colours, none of them the default; any other string gets the default |
| `Dashboard.DeviceIconDefault` | app/dashboard/page.tsx:225-240 | the Activity icon is drawn exactly for the device types the switch does not name, the motion sensor among them |
| `Dashboard.ZoomIn` | app/dashboard/page.tsx:504 | the zoom-in button's new level; `ZoomStaysInRange` and `ZoomRoundTrip` state its range and its inverse |
| `Dashboard.ZoomOut` | app/dashboard/page.tsx:510 | the zoom-out button's new level; `ZoomStaysInRange` and `ZoomRoundTrip` state its range and its inverse |
| `Dashboard.ZoomLevels` | app/dashboard/page.tsx:504-511 | the zooms between 1 and 3 in half steps are exactly 1, 1.5, 2, 2.5 and 3 |
| `Dashboard.ZoomStaysInRange` | app/dashboard/page.tsx:504-511 | zoom-in and zoom-out keep the zoom a half step in [1, 3], move it at most one half step, and stop at 3 and 1 |
| `Dashboard.ZoomRoundTrip` | app/dashboard/page.tsx:504-511 | zoom-out undoes zoom-in below 3, and zoom-in undoes zoom-out above 1 |
| `Dashboard.Walk` | app/dashboard/page.tsx:182-185 | one clamped random-walk step stays within its bounds whatever the draw |
| `Dashboard.NextHealth` | app/dashboard/page.tsx:181-186 | after a metrics tick, cpu is in [10, 90], memory in [20, 95], network in [50, 100] and storage in [30, 80], whatever the draws |
| `Dashboard.WalkStep` | app/dashboard/page.tsx:182-185 | from a value in range, with a draw in [0, 1), a step moves at most half its amplitude |
| `Dashboard.NextHealthSteps` | app/dashboard/page.tsx:181-186 | from health in range, one tick moves cpu by at most 5, memory 4, network 2.5 and storage 1.5 |
| `Dashboard.MotionOutcome` | app/dashboard/page.tsx:195-198 | a motion tick fires iff armed and the first draw exceeds 0.85; then the level is never Low, and is High iff the second draw exceeds 0.6 |
| `Dashboard.SirenLoopRunning` | app/dashboard/page.tsx:160 | the condition of the siren interval; `FiredTickStartsSiren` states a fired tick meets it |
| `Dashboard.SirenAudible` | app/dashboard/page.tsx:131-160 | the siren sounds only while its loop runs and sound is on; `ToggleSoundSwitchesSiren` states the speaker button's effect |
| `Dashboard.ToggleSoundSwitchesSiren` | app/dashboard/page.tsx:131-160 | while the siren loop runs the speaker toggle turns the sound on or off; otherwise the siren is silent either way |
| `Dashboard.FiredTickStartsSiren` | app/dashboard/page.tsx:160 | right after a tick fires, the siren loop condition holds |
| `Dashboard.DashboardScreen.constructor` | app/dashboard/page.tsx:105-119 | the dashboard starts disarmed, no motion, threat Low, zoom 1, first camera, sound on, the initial metrics |
| `Dashboard.DashboardScreen.SetArmed` | app/dashboard/page.tsx:410-412 | the armed switch sets the armed flag |
| `Dashboard.DashboardScreen.ToggleMotion` | app/dashboard/page.tsx:687 | Test AI flips the motion flag and leaves the threat level alone |
| `Dashboard.DashboardScreen.ToggleAlarmSound` | app/dashboard/page.tsx:306 | the speaker button flips the sound flag |
| `Dashboard.DashboardScreen.ZoomInPressed` | app/dashboard/page.tsx:504 | zoom-in keeps the screen valid and is `min(3, z + 0.5)` |
| `Dashboard.DashboardScreen.ZoomOutPressed` | app/dashboard/page.tsx:510 | zoom-out keeps the screen valid and is `max(1, z - 0.5)` |
| `Dashboard.DashboardScreen.SelectCamera` | app/dashboard/page.tsx:570-573 | selecting a thumbnail keeps the selected camera a valid index into the three feeds |
| `Dashboard.DashboardScreen.MetricsTick` | app/dashboard/page.tsx:179-190 | the metrics interval replaces the health by `NextHealth` of the old one and keeps it in range |
| `Dashboard.DashboardScreen.MotionTick` | app/dashboard/page.tsx:193-210 | a tick that does not fire changes nothing; one that fires sets motion and the drawn level; it schedules the alarm iff the new level is High; a level other than Low never goes back to Low |
| `Dashboard.DashboardScreen.TriggerAlarm` | app/dashboard/page.tsx:695 | Trigger Alarm navigates to `/alarm` |
| `Dashboard.DashboardScreen.SirenRunning` | app/dashboard/page.tsx:125-176 | the siren effect runs on the screen's motion flag and threat level; `FiredTickStartsSiren` and the two scenarios state when |
| `Dashboard.HighThreatScenario` | app/dashboard/page.tsx:193-205 | arming a fresh dashboard and one High tick set the threat to High, schedule the alarm and start the siren |
| `Dashboard.DisarmedScenario` | app/dashboard/page.tsx:195 | a disarmed dashboard ignores a certain detection: no motion, threat Low, no alarm, no siren |
| `Setup.NextStep` | app/setup/page.tsx:41-45 | `nextStep`; `StepMovesStayInRange` and `StepRoundTrips` state its range, its end case and its inverse |
| `Setup.PrevStep` | app/setup/page.tsx:47-51 | `prevStep`; `StepMovesStayInRange` and `StepRoundTrips` state its range, its end case and its inverse |
| `Setup.ConnectDisabled` | app/setup/page.tsx:167 | the Connect button's `disabled` test; `SetupWizard.HandleConnect` runs only when it is false |
| `Setup.StepMovesStayInRange` | app/setup/page.tsx:41-51 | next and prev keep the step in 1..3, move it at most one, and are no-ops exactly at 3 and at 1 |
| `Setup.StepRoundTrips` | app/setup/page.tsx:41-51 | prev undoes next at steps 1 and 2; next undoes prev at steps 2 and 3 |
| `Setup.Progress` | app/setup/page.tsx:254-273 | the three progress markers; `ProgressCounts` states how many are highlighted and checked |
| `Setup.ProgressCounts` | app/setup/page.tsx:254-273 | at step s, s markers are highlighted and s - 1 carry a check, and every checked marker is highlighted |
| `Setup.NavigationShown` | app/setup/page.tsx:288 | Back and Skip are rendered before the last step; `ButtonsMatchMoves` ties it to `NextStep` |
| `Setup.BackDisabled` | app/setup/page.tsx:297 | Back is disabled at step 1; `ButtonsMatchMoves` ties it to `PrevStep` |
| `Setup.ButtonsMatchMoves` | app/setup/page.tsx:288-306 | Back and Skip are shown exactly where Skip moves, and Back is disabled exactly where it cannot move |
| `Setup.CurrentTitle` | app/setup/page.tsx:277 | the title shown is that of the step whose id is the current step |
| `Setup.CompletionAsWritten` | app/setup/page.tsx:53-67 | the step a completion sets as written; `CompletionAsWrittenMovesBack` and `CompletionJumpsAfterBack` give its counterexamples, and `Completion` agrees with it when the user did not move |
| `Setup.CompletionAsWrittenMovesBack` | app/setup/page.tsx:53-58 | as written, a scan started at step 1 and completed after two skips sends the wizard back from 3 to 2 |
| `Setup.CompletionJumpsAfterBack` | app/setup/page.tsx:41-67 | a connect started at step 2 and completed after Back to step 1 sets step 3, two ahead, both as written and under the corrected rule |
| `Setup.Completion` | app/setup/page.tsx:53-67 | a completion moves the step past the completed step but never back, stays in 1..3, lands at most one past the completed step when it moves, and agrees with the code when the user did not move |
| `Setup.SetupWizard.constructor` | app/setup/page.tsx:35-39 | the wizard starts at step 1 with empty fields and no busy flag |
| `Setup.SetupWizard.Next` | app/setup/page.tsx:41-45 | Skip Step applies `nextStep` and keeps the step in 1..3 |
| `Setup.SetupWizard.Prev` | app/setup/page.tsx:47-51 | Back applies `prevStep` and keeps the step in 1..3 |
| `Setup.SetupWizard.SetWifiName` | app/setup/page.tsx:149 | typing sets the network name |
| `Setup.SetupWizard.SetWifiPassword` | app/setup/page.tsx:160 | typing sets the password |
| `Setup.SetupWizard.HandleScan` | app/setup/page.tsx:53-55 | the scan starts on step 1 while not scanning, and records the step it started from |
| `Setup.SetupWizard.ScanDone` | app/setup/page.tsx:55-58 | the scan's completion clears the scanning flag and moves the step as `Completion` says |
| `Setup.SetupWizard.HandleConnect` | app/setup/page.tsx:61-63 | connect starts on step 2 only when not connecting and both fields are non-empty (the button's `disabled` guard) |
| `Setup.SetupWizard.ConnectDone` | app/setup/page.tsx:63-66 | the connection's completion clears the connecting flag and moves the step as `Completion` says |
| `Setup.SetupWizard.GoToDashboard` | app/setup/page.tsx:210 | the last step's button navigates to `/dashboard` |
| `Alarm.MinutesField` | app/alarm/page.tsx:129-131 | the minutes field; `MinutesFieldShape` states its digits and value |
| `Alarm.SecondsField` | app/alarm/page.tsx:132 | the seconds field; `SecondsFieldShape` states its two digits and value |
| `Alarm.Display` | app/alarm/page.tsx:129-132 | the mm:ss text; `DisplayRoundTrip` states it reads back as the elapsed seconds |
| `Alarm.SecondsFieldShape` | app/alarm/page.tsx:132 | the seconds field is always two digits and denotes `t % 60`, below 60 |
| `Alarm.MinutesFieldShape` | app/alarm/page.tsx:129-131 | the minutes field is `floor(t / 60)` padded to at least two digits and never truncated |
| `Alarm.DisplayRoundTrip` | app/alarm/page.tsx:129-132 | reading the mm:ss text back gives `60 * m + s == t` |
| `Alarm.WarningText` | app/alarm/page.tsx:196 | the bottom warning; `CallTextsDistinct` states it depends on the call flag alone and differs between its values |
| `Alarm.CallButtonLabel` | app/alarm/page.tsx:161 | the call button's label; `CallTextsDistinct` states it differs between the flag's values |
| `Alarm.CallTextsDistinct` | app/alarm/page.tsx:161 | the warning and the button label depend only on the call flag and differ between its two values |
| `Alarm.AlarmScreen.constructor` | app/alarm/page.tsx:10-11 | the screen starts at 0 seconds with no call |
| `Alarm.AlarmScreen.Tick` | app/alarm/page.tsx:15-17 | each tick adds exactly one second and leaves the call flag alone |
| `Alarm.AlarmScreen.CallTimeout` | app/alarm/page.tsx:20-22 | the ten-second timeout starts the call |
| `Alarm.AlarmScreen.EmergencyCall` | app/alarm/page.tsx:34-35 | the emergency button starts the call; no method clears it |
| `Alarm.AlarmScreen.DismissAlarm` | app/alarm/page.tsx:30-32 | dismiss always navigates to `/dashboard` |
| `Alarm.AlarmScreen.Texts` | app/alarm/page.tsx:196 | the timer text reads back as the elapsed seconds, and the warning is the one for the call flag |
| `Alarm.DisplayExample` | app/alarm/page.tsx:129-132 | 75 seconds display as `01:15` |
| `Alarm.SeventyFiveSeconds` | app/alarm/page.tsx:14-28 | after 75 ticks with the timeout at 10, the call is active and the screen shows `01:15` and the contacted warning |
| `Logs.Matches` | app/logs/page.tsx:95-99 | the search test on title and location; `Filter` keeps exactly the entries it accepts and `QueryCaseInsensitive` states the query's case does not matter |
| `Logs.FilteredLogs` | app/logs/page.tsx:95-99 | `filteredLogs`; `EmptyQueryKeepsAll`, `QueryCaseInsensitive` and `RenderPage` state what it lists |
| `Logs.Filter` | app/logs/page.tsx:95-99 | the filter keeps exactly the entries whose lower-cased title or location contains the lower-cased query, each matching entry as often as the input has it and no other |
| `Logs.FilterSubsequence` | app/logs/page.tsx:95 | the filtered list is an order-preserving subsequence of the list |
| `Logs.FilterKeepsAll` | app/logs/page.tsx:95-99 | when every entry matches, the filter returns the list unchanged |
| `Logs.EmptyQueryKeepsAll` | app/logs/page.tsx:95-99 | an empty query keeps all five entries in their order |
| `Logs.FilterSameMatches` | app/logs/page.tsx:95-99 | two queries that match the same entries filter alike |
| `Logs.QueryCaseInsensitive` | app/logs/page.tsx:96-98 | lower-casing the query does not change the result |
| `Logs.LevelColor` | app/logs/page.tsx:63-76 | `getLevelColor`; `LevelColorsDistinct` and `LevelColorDefault` state its colours |
| `Logs.IconFor` | app/logs/page.tsx:78-89 | `getIcon`; `IconDefault` states which types get the clock |
| `Logs.LevelColorsDistinct` | app/logs/page.tsx:63-76 | high, medium, low and info get four different colours, none of them gray |
| `Logs.LevelColorDefault` | app/logs/page.tsx:63-76 | a level gets the gray default iff it is none of the four named ones |
| `Logs.IconDefault` | app/logs/page.tsx:78-89 | a type gets the Clock icon iff it is none of motion, camera and system |
| `Logs.RenderCard` | app/logs/page.tsx:171-228 | a card shows the duration badge and the Play button iff the entry is a motion event, with the entry's duration |
| `Logs.RenderPage` | app/logs/page.tsx:110-170 | the event count is the number of filtered entries, one card each in order, and the filter tabs are `FilterTabs` of the selected filter |
| `Logs.FilterTabs` | app/logs/page.tsx:153-160 | a filter button is highlighted iff it is the selected filter |
| `Logs.FilterTabHighlight` | app/logs/page.tsx:93-160 | clicking a filter button highlights it and no other, and the page opens with "all" highlighted |
| `Logs.SelectedFilterIgnored` | app/logs/page.tsx:93-156 | the selected filter changes neither the count nor the cards |
| `SystemDiagnostics.BandOf` | components/system-diagnostics.tsx:57 | High iff the value exceeds 80, Normal iff it is in (50, 80], Low iff at most 50 |
| `SystemDiagnostics.BandLabel` | components/system-diagnostics.tsx:57 | the band's label; `BandLabelsDistinct` states the three labels differ |
| `SystemDiagnostics.BandMonotone` | components/system-diagnostics.tsx:57 | a larger value never gets a lower band |
| `SystemDiagnostics.BandLabelsDistinct` | components/system-diagnostics.tsx:57 | the three labels differ |
| `SystemDiagnostics.BarWidth` | components/system-diagnostics.tsx:49 | the bar width never exceeds 100 and equals the value up to 100 |
| `SystemDiagnostics.Rows` | components/system-diagnostics.tsx:16-57 | the rows are CPU, memory, network and power in that order, with units %, %, Mbps and W, each with its rounded value, a bar width of `min(100, value)` and its band label |
| `BottomNavigation.NavItemsDistinct` | components/bottom-navigation.tsx:11-16 | there are four tabs with pairwise different ids and pairwise different paths |
| `BottomNavigation.IsActive` | components/bottom-navigation.tsx:27 | a tab is active iff the page names its id or the path is its path; `AtMostTwoActive`, `NoneActive` and `OwnTabOnlyActive` state how many are active |
| `BottomNavigation.CountActiveBound` | components/bottom-navigation.tsx:27 | the active tabs are at most the tabs matching by id plus those matching by path |
| `BottomNavigation.CountIdAtMostOne` | components/bottom-navigation.tsx:11-16 | with distinct ids at most one tab has a given id, and none iff no tab carries it |
| `BottomNavigation.CountPathAtMostOne` | components/bottom-navigation.tsx:11-16 | with distinct paths at most one tab has a given path, and none iff no tab carries it |
| `BottomNavigation.AtMostTwoActive` | components/bottom-navigation.tsx:11-27 | at most two tabs are active at once |
| `BottomNavigation.NoneActive` | components/bottom-navigation.tsx:27 | when neither the page nor the path names a tab, no tab is active |
| `BottomNavigation.OwnTabOnlyActive` | components/bottom-navigation.tsx:11-27 | a tab named by the page, shown on its own path, is the only active tab |
| `BottomNavigation.ClickTarget` | components/bottom-navigation.tsx:31 | clicking a tab navigates to that tab's path |
| `BottomNavigation.ClickTargetsDistinct` | components/bottom-navigation.tsx:11-31 | different tabs navigate to different paths, and a tab's own path makes it active |

## Left out

- The browser lifecycle calls `skipWaiting`, `clients.claim`, `waitUntil` and `respondWith` are left out. Promise scheduling is also left out: each handler runs as one sequential step, and the fire-and-forget `cache.put` is a synchronous store update.
- The `sync` handler only logs, and all `console.log` calls are left out.
- Request URLs are cache keys exactly as written. Resolution against the page's origin and URL normalisation are not modelled.
- `cache.addAll` is modelled as fetch-all-then-store: it stores nothing unless every response arrived with a status in 200..299 other than 206 Partial Content. Its request de-duplication and its `Vary` handling are not modelled.
- ServiceWorker.OnPush: only string values and absent fields of the push JSON are modelled. `event.data.json()` is trusted to parse, as the handler does. Non-string JSON values, such as a number body or a null URL, are left out.
- `JsString.ToLower` lower-cases the ASCII letters only. JavaScript's `toLowerCase` also maps the rest of Unicode.
- JavaScript numbers are modelled as exact reals. Floating-point rounding of the zoom, the metrics and the draws is not modelled.
- Random draws are inputs. Their distribution is not modelled, so nothing is said about how often motion fires.
- Dashboard.WalkStep and Dashboard.NextHealthSteps require draws in [0, 1), which is what `Math.random` returns. Dashboard.NextHealth itself holds for any draw.
- The Web Audio siren (oscillator, gain ramps, the ten-second stop) is left out. `SirenLoopRunning` and `SirenAudible` state only when the siren interval runs and when it makes a sound.
- The two-second delay before the High-threat navigation is left out: `MotionTick` returns whether the navigation was scheduled.
- The presentational toggles `isPlaying`, `isMuted`, `nightVision` and `showBiometric` are left out, as are the animations, icons, Tailwind classes and copy text.
- The `alert()` that follows the emergency call after two seconds is left out.
- The date shown on the screens is left out.
- components/threat-radar.tsx is not part of this model (trigonometric positioning only).
- components/pwa-status.tsx is not part of this model (wrappers over `navigator.onLine`, `matchMedia` and the worker registration).
- app/page.tsx, app/settings/page.tsx and app/layout.tsx are not part of this model (presentational).
- Setup.SetupWizard.ScanDone: uses the corrected completion rule, not the completion as written (see Findings).
- Setup.SetupWizard.ConnectDone: uses the corrected completion rule, not the completion as written (see Findings).
- Setup.Completion: a completion is not bounded to one step past the current step. A connect started at step 2 and completed after Back to step 1 moves the wizard from 1 to 3, as the code does; what the rule keeps is at most one step past the completed step (`Setup.CompletionJumpsAfterBack`).
- Storage failures are not modelled: `caches.open`, `cache.addAll` and `cache.put` never fail for quota or other storage reasons, and the rejected `cache.put` of the network-first path is not modelled.
- A worker whose install failed is never activated; the browser marks it redundant and the previous worker keeps serving. ServiceWorker.Worker.Activate states this as its requirement on the installed flag; the replacement of one worker by another is not modelled.
- ServiceWorker.Worker.HandleFetch: does not require the worker to be installed and activated; its starting store stands for what earlier install and activate events left.

## Findings

| source | as written | input that shows it | evidently intended | confidence | as-written member | corrected member |
|---|---|---|---|---|---|---|
| app/setup/page.tsx:53-67 | The scan and connect timers call the `nextStep` closure of the render in which the button was clicked. That closure sets the step to the captured step + 1, whatever the current step is by then. | Start the scan at step 1, then press Skip Step twice to reach step 3. Three seconds later the scan completes and the wizard moves back to step 2. | A completion moves past the completed step but never moves the wizard backwards. | high that the closure captures the old step; not executed | `Setup.CompletionAsWrittenMovesBack` | `Setup.Completion` |
