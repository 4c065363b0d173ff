# DriftX dashboard core, modelled in Dafny

DriftX is a process-monitoring dashboard. A Python backend keeps timestamped
JSON snapshots of the process list. From them it serves the latest snapshot,
the drift between the last two snapshots, a timeline, a resource analysis,
alerts and stuck-process reports. A React front end polls these endpoints. It
derives a change total and a risk level, and it offers a sortable and
searchable process table, dismissible alerts and a snapshot trigger button.

This project models the deterministic logic of both halves:

- `process_table.dfy` (`ProcessTable`): the process-table controller. It covers
  the sort column and direction with toggle-on-reclick, the search filter (name
  ignoring case, or the PID's decimal form), the comparator, which reads a
  missing value as 0, the in-place sort, the top-20 slice, single-row expansion
  and the status colour.
- `alerts_center.dfy` (`AlertsCenter`): the append-only dismissed-PID list, the
  visible-alert filter, the header count and "No active alerts" body, and the
  severity-colour and icon tables.
- `dashboard.dfy` (`Dashboard`): the `drift`/`time`/`timeline`/`error` state
  slots and how fetch outcomes update them. It also covers the change total,
  the threshold risk level, its colour and bar width, the status line and the
  display fallbacks.
- `system_stats.dfy` (`SystemStats`): the server-reported risk level with its
  "LOW" fallback, the badge colour and the four problem counts.
- `endpoint_config.dfy` (`EndpointConfig`): base-URL precedence, `buildApiUrl`
  and `API_ENDPOINTS` from `config/api.js`.
- `origin_config.dfy` (`OriginConfig`): `getApiBaseUrl`, `getApiUrl` and
  `getApiDisplayUrl` from `config.js`.
- `snapshot_control.dfy` (`SnapshotControl`): the trigger button's
  loading/success state machine, its label and disabled rule, and the display
  defaults.
- `process_monitor.dfy` (`ProcessMonitor`): `ProcessMonitor` over process lists
  given as input. It covers lookup by PID, alert extraction, threshold
  classification, the top-5 consumers (a stable descending sort) and
  stuck-process detection over the last snapshots. `get_alerts` and
  `analyze_resource_usage` read `get_current_processes()`; here that list is
  their `processes` parameter, and it is `BackendApi.CurrentProcesses(files)`
  of the snapshot listing.
- `backend_api.dfy` (`BackendApi`): the `/latest-snapshot`, `/drift` and
  `/timeline` handlers over the sorted snapshot listing.
- Helpers: `wrappers.dfy` (Option), `records.dfy` (the process record),
  `seqs.dfy` (filter, map, subsequence, first/last n) and `strings.dfy`
  (prefix and suffix tests, `includes`, lower-casing, decimal form, `join`,
  `replace(pat, "")`).

Some facts about the code that shape the model:

- The only response check is `res.ok`. There is no content-type check and no
  typed error taxonomy. A failed fetch, a non-ok status and an unparsable body
  all take the same `catch` path (`Dashboard.Payload`).
- The page renders no special notice when fewer than two snapshots exist. The
  `{error}` drift payload simply counts as zero changes.
- The risk thresholds are fixed in the code. `App.jsx` uses the change-count
  thresholds and `SystemStats.jsx` uses the server-reported level. Both are
  modelled, and `SystemStats.AgreesWithDashboard` relates their colours.
- The comparator never returns 0, so equal keys have no promised order
  (`ProcessTable.CompareEqualKeys`).
- `config/api.js` returns an override verbatim. Only `config.js` strips one
  trailing slash.

Percentages are exact `real`s. Fetch responses, the clock reading, the
3-second timer, the build environment and the page location are explicit
parameters or events.

## Model

| member | source | states |
|---|---|---|
| `ProcessTable.TableState.constructor` | frontend/src/components/ProcessTableEnhanced.jsx:4-7 | Initial state: sort by CPU, descending, empty search, nothing expanded |
| `ProcessTable.TableState.HandleSort` | frontend/src/components/ProcessTableEnhanced.jsx:9-16 | The same column flips the direction and keeps the column. A different column is selected with direction reset to descending. Other state is unchanged |
| `ProcessTable.SortTwiceRestores` | frontend/src/components/ProcessTableEnhanced.jsx:9-11 | Two clicks on the current column restore the original direction |
| `ProcessTable.Flip` | frontend/src/components/ProcessTableEnhanced.jsx:11 | The toggled direction always differs from the old one |
| `ProcessTable.TableState.SetSearchTerm` | frontend/src/components/ProcessTableEnhanced.jsx:56 | Typing replaces the search term and nothing else |
| `ProcessTable.StatusColor` | frontend/src/components/ProcessTableEnhanced.jsx:18-22 | Red iff cpu > 80 or mem > 20. Amber iff not red and (cpu > 50 or mem > 10). Green iff cpu <= 50 and mem <= 10 |
| `ProcessTable.StatusColorAtBoundaries` | frontend/src/components/ProcessTableEnhanced.jsx:18-22 | Every boundary is strict: a value exactly at a threshold stays in the lower band |
| `ProcessTable.FilterRows` | frontend/src/components/ProcessTableEnhanced.jsx:24-28 | A missing process list gives no rows |
| `ProcessTable.FilterRowsExact` | frontend/src/components/ProcessTableEnhanced.jsx:24-28 | The filtered rows are exactly the processes whose lower-cased name contains the lower-cased term or whose PID string contains the term, kept in input order (a subsequence) |
| `ProcessTable.EmptyTermKeepsAll` | frontend/src/components/ProcessTableEnhanced.jsx:24-28 | An empty search term keeps every process |
| `ProcessTable.SearchByPidOrName` | frontend/src/components/ProcessTableEnhanced.jsx:26-27 | "123" matches PID 123 and PID 1234 by PID substring, and a process named "abc123" by name |
| `Strings.DecimalRoundTrip` | frontend/src/components/ProcessTableEnhanced.jsx:27 | The decimal form of a PID reads back as that PID, so distinct PIDs have distinct strings |
| `ProcessTable.Compare` | frontend/src/components/ProcessTableEnhanced.jsx:30-39 | The comparator returns 1 or -1, never 0. Ascending returns 1 iff a's value is greater than b's; descending returns 1 iff b's is greater. Missing or falsy values read as 0 |
| `ProcessTable.CompareEqualKeys` | frontend/src/components/ProcessTableEnhanced.jsx:30-39 | With equal keys the comparator returns -1 both ways, so the order of equal keys is not promised |
| `ProcessTable.CompareAsymmetric` | frontend/src/components/ProcessTableEnhanced.jsx:34-38 | The comparator never puts a after b and b after a at once |
| `ProcessTable.NotAfterTransitive` | frontend/src/components/ProcessTableEnhanced.jsx:30-39 | On values of one kind (all numbers or all strings), "not after" is transitive |
| `ProcessTable.SortRows` | frontend/src/components/ProcessTableEnhanced.jsx:30-39 | The in-place sort leaves a permutation of the array in which every two neighbours are in comparator order |
| `ProcessTable.AdjacentOrderedIsOrdered` | frontend/src/components/ProcessTableEnhanced.jsx:30-39 | On a column of one kind, neighbour order implies order of every pair |
| `ProcessTable.OrderedNumeric` | frontend/src/components/ProcessTableEnhanced.jsx:34-38 | On a numeric column a sorted list is non-decreasing for asc and non-increasing for desc |
| `ProcessTable.NumericColumnsHomogeneous` | frontend/src/components/ProcessTableEnhanced.jsx:31-32 | PID, CPU and memory columns always compare as numbers, so their sort is fully ordered |
| `ProcessTable.TopRows` | frontend/src/components/ProcessTableEnhanced.jsx:41 | The displayed rows are the first min(20, n) sorted rows: at most 20 and at most the filtered count |
| `ProcessTable.TableState.VisibleRows` | frontend/src/components/ProcessTableEnhanced.jsx:24-48 | One render: the sorted list is a permutation of the filtered list, in comparator order (fully ordered on a column of one kind), and the shown rows are its top-20 prefix |
| `ProcessTable.TableState.ClickRow` | frontend/src/components/ProcessTableEnhanced.jsx:90 | Clicking the expanded row collapses it. Any other row becomes the only expanded one |
| `ProcessTable.ExpandSequence` | frontend/src/components/ProcessTableEnhanced.jsx:90 | Rows 5 then 7 leave only 7 expanded (returned as `afterSecond`), and 7 again collapses it |
| `ProcessTable.AtMostOneDetailsRow` | frontend/src/components/ProcessTableEnhanced.jsx:104 | With distinct PIDs at most one details row is rendered, and none when nothing is expanded |
| `AlertsCenter.VisibleAlerts` | frontend/src/components/AlertsCenter.jsx:7-9 | A missing alert list gives []. No visible alert has a dismissed PID |
| `AlertsCenter.VisibleExact` | frontend/src/components/AlertsCenter.jsx:7-9 | The visible alerts are exactly the undismissed incoming ones, as a subsequence of the input |
| `AlertsCenter.VisibleDependsOnSet` | frontend/src/components/AlertsCenter.jsx:8 | Only the set of dismissed PIDs matters, not their order or repetitions |
| `AlertsCenter.DismissTwiceIsOnce` | frontend/src/components/AlertsCenter.jsx:8-13 | Dismissing a PID twice gives the same visible list as dismissing it once |
| `AlertsCenter.DismissExample` | frontend/src/components/AlertsCenter.jsx:7-13 | Dismissing PID 42 twice removes its one alert from the count exactly once |
| `AlertsCenter.DismissedStaysHidden` | frontend/src/components/AlertsCenter.jsx:4-13 | A PID in the dismissed list stays hidden for every later, longer list and every payload |
| `AlertsCenter.AlertsPanel.constructor` | frontend/src/components/AlertsCenter.jsx:4-5 | The panel starts expanded with nothing dismissed |
| `AlertsCenter.AlertsPanel.Dismiss` | frontend/src/components/AlertsCenter.jsx:11-13 | Dismissing appends the PID. The list only grows and the expanded flag is unchanged |
| `AlertsCenter.AlertsPanel.ToggleExpanded` | frontend/src/components/AlertsCenter.jsx:31 | A header click toggles `expanded` and keeps the dismissed list |
| `AlertsCenter.DismissHidesLater` | frontend/src/components/AlertsCenter.jsx:11-13 | After a dismissal the PID is hidden whatever payload arrives next |
| `AlertsCenter.SeverityColor` | frontend/src/components/AlertsCenter.jsx:15-19 | critical → #ff4444, warning → #ffaa00, any other severity → #00bfff |
| `AlertsCenter.AlertIcon` | frontend/src/components/AlertsCenter.jsx:21-27 | Fixed icons for zombie, high_cpu, high_memory and stuck, and the info icon exactly for every other type |
| `AlertsCenter.RenderPanel` | frontend/src/components/AlertsCenter.jsx:33-43 | The header count is the number of visible alerts. The body is collapsed iff not expanded and "No active alerts" iff expanded with zero visible. Otherwise it has one row per visible alert, in order, each with the icon of its type and the colour of its severity |
| `Dashboard.LengthOrZero` | frontend/src/App.jsx:50-51 | An absent list counts 0, a present one its length |
| `Dashboard.TotalChanges` | frontend/src/App.jsx:49-51 | total = added count + removed count, with absent lists and absent drift counting 0 |
| `Dashboard.ErrorPayloadHasNoChanges` | frontend/src/App.jsx:49-55 | An `{error}` drift payload gives total 0 and LOW risk |
| `Dashboard.ThreeChangesAreHigh` | frontend/src/App.jsx:49-55 | Two added and one removed name give total 3 and HIGH risk |
| `Dashboard.RiskOf` | frontend/src/App.jsx:53-55 | LOW iff total = 0, MEDIUM iff 1 <= total <= 2, HIGH iff total >= 3 |
| `Dashboard.RiskMonotone` | frontend/src/App.jsx:53-55 | More changes never lower the risk |
| `Dashboard.RiskColor` | frontend/src/App.jsx:57-62 | LOW ↔ #00ff88, MEDIUM ↔ #ffaa00, HIGH ↔ #ff4444 |
| `Dashboard.BarWidth` | frontend/src/App.jsx:118-123 | LOW ↔ 30%, MEDIUM ↔ 60%, HIGH ↔ 90% |
| `Dashboard.Payload` | frontend/src/App.jsx:15-20 | A fetch yields data iff a response arrived with `ok` set and its body parsed, and the data is that body |
| `Dashboard.DashboardState.constructor` | frontend/src/App.jsx:7-10 | Initial state: drift null, time "", timeline [], error null |
| `Dashboard.DashboardState.OnDrift` | frontend/src/App.jsx:14-29 | Success replaces drift, sets time to the clock reading and clears the error. Failure sets the error message and keeps drift and time. The timeline is untouched |
| `Dashboard.DashboardState.OnTimeline` | frontend/src/App.jsx:31-41 | Success replaces the timeline. Failure changes nothing, not even the error |
| `Dashboard.RecoverAfterFailure` | frontend/src/App.jsx:21-29 | A drift failure followed by a success leaves the page live with the new drift |
| `Dashboard.StatusLine` | frontend/src/App.jsx:73-81 | The status line shows the error iff one is set, else the live message |
| `Dashboard.NamesBox` | frontend/src/App.jsx:99-109 | An empty or absent list shows "None". A single name shows as itself, and every longer list starts with its first name |
| `Dashboard.NamesBoxSnoc` | frontend/src/App.jsx:100-101 | One more name appends ", " and that name, so with the one-name case the box is the names joined by ", " |
| `Dashboard.NamesBoxExample` | frontend/src/App.jsx:99-103 | The added names "nginx" and "redis" show as "nginx, redis" |
| `Strings.JoinSnoc` | frontend/src/App.jsx:101 | `join` of a non-empty list with one more element is the old join, the separator and that element |
| `Dashboard.RenderTimeline` | frontend/src/App.jsx:142-150 | An empty timeline shows "No snapshots yet". Otherwise there is one line per entry showing its time, in order |
| `SystemStats.RiskLevel` | frontend/src/components/SystemStats.jsx:2 | The reported level when present and non-empty, else "LOW" |
| `SystemStats.RiskColor` | frontend/src/components/SystemStats.jsx:4-8 | HIGH ↔ #ff4444, MEDIUM ↔ #ffaa00, every other level (LOW included) ↔ #00ff88 |
| `SystemStats.AgreesWithDashboard` | frontend/src/components/SystemStats.jsx:4-8 | On LOW, MEDIUM and HIGH the card's colours equal the dashboard's risk colours (App.jsx lines 57-62) |
| `SystemStats.BadgeColor` | frontend/src/components/SystemStats.jsx:16 | The badge is red iff the level is HIGH and amber iff MEDIUM. It is green before the analysis loads |
| `SystemStats.BadgeIgnoresCounts` | frontend/src/components/SystemStats.jsx:16 | Two payloads with the same level get the same badge, whatever their lists |
| `SystemStats.NotLoadedIsLow` | frontend/src/components/SystemStats.jsx:2-8 | Before the first payload the level is LOW with the green badge |
| `SystemStats.CountOf` | frontend/src/components/SystemStats.jsx:24 | A displayed count is the list's length, or 0 when absent |
| `SystemStats.CountsOf` | frontend/src/components/SystemStats.jsx:21-47 | Each of the four counts is its list's length, or 0 when the list or the analysis is absent |
| `EndpointConfig.ApiBaseUrl` | frontend/src/config/api.js:11-26 | A set override is returned verbatim. Else a PROD build gives /api, else http://127.0.0.1:8000 |
| `EndpointConfig.CleanEndpoint` | frontend/src/config/api.js:33 | At most one leading '/' is removed |
| `EndpointConfig.Separator` | frontend/src/config/api.js:36 | The separator is "" iff the base ends with '/', else "/" |
| `EndpointConfig.BuildApiUrl` | frontend/src/config/api.js:31-39 | The URL is base + separator + cleaned endpoint, so it starts with the base |
| `EndpointConfig.LeadingSlashIgnored` | frontend/src/config/api.js:33 | buildApiUrl('/x') == buildApiUrl('x') |
| `EndpointConfig.OnlyOneSlashRemoved` | frontend/src/config/api.js:33 | An endpoint starting "//" keeps one of its slashes |
| `EndpointConfig.SingleSlashAtJoin` | frontend/src/config/api.js:31-39 | Unless the base ends with "//" or the endpoint starts with "//", exactly one '/' joins the slash-free base stem and the slash-free endpoint |
| `EndpointConfig.ApiEndpoints` | frontend/src/config/api.js:42-53 | HOME is the base followed by its separator only. Each of the other eight entries (DRIFT, TIMELINE, SNAPSHOT_INFO, ALERTS, RESOURCE_ANALYSIS, CURRENT_PROCESSES, TRIGGER_SNAPSHOT, SCHEDULER_STATUS) is that plus its path without the leading slash |
| `EndpointConfig.ProcessDetails` | frontend/src/config/api.js:52 | PROCESS_DETAILS(pid) == buildApiUrl('/process-details/' + pid) == base + separator + "process-details/" + pid |
| `EndpointConfig.DriftUrls` | frontend/src/config/api.js:20-44 | The drift URL is /api/drift in a PROD build and http://127.0.0.1:8000/drift in development |
| `OriginConfig.StripTrailingSlash` | frontend/src/config.js:17 | Exactly one trailing '/' is removed when present. Otherwise the string is unchanged |
| `OriginConfig.ApiBaseUrl` | frontend/src/config.js:11-28 | A set override loses one trailing slash. Otherwise the base is protocol + "//" + hostname + ":8000" |
| `OriginConfig.DoubledSlashKeepsOne` | frontend/src/config.js:15-18 | An override ending "//" keeps one slash |
| `OriginConfig.BaseFromLocation` | frontend/src/config.js:21-27 | https: on example.org gives https://example.org:8000 |
| `OriginConfig.LocationBaseNoSlash` | frontend/src/config.js:21-27 | The base built from the page location never ends with '/' |
| `OriginConfig.NormalizeEndpoint` | frontend/src/config.js:39 | '/' is prepended iff the endpoint does not start with one, so the result always starts with '/' |
| `OriginConfig.GetApiUrl` | frontend/src/config.js:35-42 | The URL is the base followed by the normalised endpoint, and the character right after the base is '/' |
| `OriginConfig.SlashOptional` | frontend/src/config.js:39-41 | getApiUrl('x') == getApiUrl('/x') |
| `OriginConfig.SingleSlashAtJoin` | frontend/src/config.js:35-42 | Unless the override ends with "//" or the endpoint starts with "//", exactly one '/' joins the base and the rest of the endpoint |
| `OriginConfig.GetApiDisplayUrl` | frontend/src/config.js:48-50 | The display URL is the base URL itself |
| `SnapshotControl.TriggerButton.constructor` | frontend/src/components/SnapshotControl.jsx:4-5 | Initially not loading and not successful |
| `SnapshotControl.TriggerButton.Start` | frontend/src/components/SnapshotControl.jsx:8-9 | Starting a trigger sets loading and clears success |
| `SnapshotControl.TriggerButton.Resolved` | frontend/src/components/SnapshotControl.jsx:11-17 | A resolved trigger sets success and then clears loading |
| `SnapshotControl.TriggerButton.Rejected` | frontend/src/components/SnapshotControl.jsx:14-18 | A rejected trigger clears loading and leaves success as it was |
| `SnapshotControl.TriggerButton.TimeoutElapsed` | frontend/src/components/SnapshotControl.jsx:13 | The timer resets success and leaves loading alone |
| `SnapshotControl.HandleTrigger` | frontend/src/components/SnapshotControl.jsx:7-19 | A whole run ends not loading, with success iff the trigger resolved |
| `SnapshotControl.Disabled` | frontend/src/components/SnapshotControl.jsx:48 | The button is disabled iff loading |
| `SnapshotControl.Label` | frontend/src/components/SnapshotControl.jsx:55 | "Creating..." iff loading, else "Success!" iff success, else "Trigger Snapshot Now" |
| `SnapshotControl.LabelOfValidState` | frontend/src/components/SnapshotControl.jsx:55 | In a reachable state (never loading and successful at once) each label depends on one flag alone |
| `SnapshotControl.RenderCells` | frontend/src/components/SnapshotControl.jsx:26-43 | Total snapshots defaults to 0, last snapshot to "Never", and next scheduled is "N/A" iff absent or empty |
| `ProcessMonitor.GetProcessByPid` | backend/analyzer/process_monitor.py:37-43 | Returns the first process with the PID, and None iff no process has it |
| `ProcessMonitor.TagAlert` | backend/analyzer/process_monitor.py:52-54 | The alert copies every field of the process's alert, then pid and name are overwritten from the process |
| `ProcessMonitor.AlertsOf` | backend/analyzer/process_monitor.py:45-57 | There is one alert per process with a truthy alert |
| `ProcessMonitor.AlertsOfAppend` | backend/analyzer/process_monitor.py:50-56 | The alerts of two lists concatenated are their alerts concatenated: process order is kept |
| `ProcessMonitor.GetAlerts` | backend/analyzer/process_monitor.py:45-57 | The loop builds exactly the tagged alerts of the flagged processes, in process order |
| `ProcessMonitor.AnalyzeResourceUsage` | backend/analyzer/process_monitor.py:59-89 | total_processes equals the list length |
| `ProcessMonitor.AnalyzeEmpty` | backend/analyzer/process_monitor.py:63-73 | An empty list gives zero totals and empty lists |
| `ProcessMonitor.HighCpuExact` | backend/analyzer/process_monitor.py:84-98 | high_cpu_processes holds exactly the processes above 50% CPU, in input order. Severity is critical iff above 80% |
| `ProcessMonitor.HighMemoryExact` | backend/analyzer/process_monitor.py:85-108 | high_memory_processes holds exactly the processes above 10% memory, in input order. Severity is critical iff above 20%, and memory_mb defaults to 0 |
| `ProcessMonitor.ZombiesExact` | backend/analyzer/process_monitor.py:86-116 | zombie_processes holds exactly the processes with status zombie or defunct, in input order |
| `ProcessMonitor.SortDesc` | backend/analyzer/process_monitor.py:76-77 | The sort returns a permutation of its input |
| `ProcessMonitor.SortDescSorted` | backend/analyzer/process_monitor.py:76-77 | The sorted list is non-increasing by key |
| `ProcessMonitor.SortDescStable` | backend/analyzer/process_monitor.py:76-77 | The sort is stable: for every key value, those elements keep their input order |
| `ProcessMonitor.TopCpuConsumers` | backend/analyzer/process_monitor.py:119-126 | top_cpu_consumers are the first min(5, n) of the stable descending CPU sort. They are non-increasing and each is at least every process left out |
| `ProcessMonitor.TopMemoryConsumers` | backend/analyzer/process_monitor.py:127-135 | The same as the CPU list, for memory percentage |
| `ProcessMonitor.RecentStart` | backend/analyzer/process_monitor.py:149 | files[-window:] keeps the last window files for 0 < window <= n, all of them for window 0, and drops -window files for window < 0 |
| `ProcessMonitor.SeenPidsExact` | backend/analyzer/process_monitor.py:158-170 | The history's key order lists every sighted PID exactly once |
| `ProcessMonitor.RecordStep` | backend/analyzer/process_monitor.py:158-170 | One inner-loop step keeps the history equal to the samples and first-sighting identity of every PID |
| `ProcessMonitor.RecordProcess` | backend/analyzer/process_monitor.py:159-170 | A new PID gets an entry from its process, then the CPU sample is appended |
| `ProcessMonitor.RecordSnapshot` | backend/analyzer/process_monitor.py:158-170 | The inner loop keeps the history invariant over one snapshot's processes |
| `ProcessMonitor.CollectHistory` | backend/analyzer/process_monitor.py:152-170 | pid_cpu_history summarises every record of the recent snapshots |
| `ProcessMonitor.Min` | backend/analyzer/process_monitor.py:178 | min is an element no larger than any other |
| `ProcessMonitor.Max` | backend/analyzer/process_monitor.py:187 | max is an element no smaller than any other |
| `ProcessMonitor.AverageBetween` | backend/analyzer/process_monitor.py:177-187 | The average of the samples lies between their minimum and maximum |
| `ProcessMonitor.AverageAbove` | backend/analyzer/process_monitor.py:177-181 | avg > t iff sum > t × count |
| `ProcessMonitor.SampleAverage` | backend/analyzer/process_monitor.py:177-181 | A stuck sample list has min <= avg <= max and avg > 80 |
| `ProcessMonitor.CheckPid` | backend/analyzer/process_monitor.py:175-191 | A PID gives a report iff it has at least window samples, average above 80 and minimum above 50 |
| `ProcessMonitor.ReportFields` | backend/analyzer/process_monitor.py:182-191 | duration_snapshots is the sample count. min and max come from the samples, and name, user and command from the first sighting |
| `ProcessMonitor.ReportAverage` | backend/analyzer/process_monitor.py:182-191 | A report's average is between its min and max and above 80 |
| `ProcessMonitor.StuckReportsSound` | backend/analyzer/process_monitor.py:173-191 | Every report is the report of a stuck PID |
| `ProcessMonitor.StuckReportsComplete` | backend/analyzer/process_monitor.py:173-191 | Every stuck PID is reported |
| `ProcessMonitor.StuckReportsDistinct` | backend/analyzer/process_monitor.py:174-191 | No PID is reported twice |
| `ProcessMonitor.StuckDetection` | backend/analyzer/process_monitor.py:138-193 | Returns [] with fewer snapshots than the window. Otherwise it reports a PID iff, over the last window snapshots, it has at least window samples, average above 80 and minimum above 50, each once, with min <= avg <= max |
| `ProcessMonitor.DetectStuckProcesses` | backend/analyzer/process_monitor.py:143-193 | The nested loops compute exactly the reports that `StuckDetection` characterises |
| `BackendApi.LatestSnapshot` | backend/main.py:27-39 | "No snapshots found" iff there are no files, else the contents of the last file in sorted order |
| `BackendApi.CurrentProcesses` | backend/analyzer/process_monitor.py:22-35 | The latest snapshot's processes, or [] without snapshots or without the key |
| `BackendApi.SetToList` | backend/main.py:62-63 | list(set) holds every element of the set once |
| `BackendApi.DriftResult` | backend/main.py:42-64 | Fewer than two files give "Need at least 2 snapshots". Otherwise added = new names − old names and removed = old − new, from files[-2] and files[-1]: disjoint, duplicate-free, and both empty when the name sets are equal |
| `BackendApi.DriftDisjoint` | backend/main.py:58-64 | No name is both added and removed |
| `BackendApi.DriftTotalIsSymmetricDifference` | backend/main.py:58-64 | The dashboard's total for a drift response is the size of the symmetric difference of the two name sets, so its risk is LOW iff the sets are equal |
| `BackendApi.Timeline` | backend/main.py:65-77 | The last min(5, n) files in sorted order, each with snapshot = file name and time = the name with every "snapshot_" and then every ".json" removed |
| `BackendApi.TimeOfSnapshotName` | backend/main.py:74 | For a collector file name snapshot_<stamp>.json the time shown is the stamp |

## Left out

- Fetch, `setInterval`/`clearInterval` and polling: every response is an input event (`Dashboard.FetchOutcome`) applied to the state. Overlapping cycles therefore apply in arrival order, latest arrival wins, as in the code.
- Locale and clock formatting (`toLocaleTimeString`, `toLocaleString`): the drift time is a parameter `now`, and the next scheduled snapshot is kept as its raw string.
- The 3000 ms `setTimeout` is the explicit `TimeoutElapsed` event. The awaited `onTrigger` callback is a boolean saying whether it resolved.
- `import.meta.env` and `window.location` are parameters. An unset and an empty `VITE_API_URL` are both the empty string, because both are falsy.
- `App.jsx` line 4 has its own `VITE_API_URL || "http://127.0.0.1:8000"` base with plain `/drift`, `/timeline` suffixes. It is not modelled separately from `config/api.js`.
- Filesystem access (`os.listdir`, `open`, `json.load`) is replaced by the sorted file list and the parsed contents as inputs. The catch-all `except Exception: return []` in `get_current_processes` and `detect_stuck_processes` fires only on I/O or malformed files, which are outside the model.
- `round(..., 2)` and `toFixed`: percentages and totals are exact reals.
- Markup and styling, including the detail row's `command || "N/A"` and the `▲`/`▼` sort markers.
- backend/collector/snapshot.py, backend/scheduler.py and backend/drift_engine/compare.py are not part of this model. They are psutil and shell calls, scheduler threads, and a printing duplicate of the drift set difference.
- ProcessTable.Matches: `toLowerCase` is modelled on ASCII letters only. Full Unicode case mapping is not modelled.
- ProcessTable.TableState.VisibleRows: order of every pair is stated only when the sort column holds values of one kind (always true for PID, CPU and memory). An empty name or status reads as the number 0, and JavaScript's `>` between a number and a string is then not a consistent order.
- ProcessTable.Greater: a number compared with a string is false both ways. A numeric-looking string (a process named "5") compared with the 0 fallback would be compared numerically in JavaScript. String comparison is by Unicode code point rather than UTF-16 code unit.
- ProcessTable.SortRows: the engine's sort algorithm is unspecified. The model is one concrete algorithm (insertion by neighbour swaps), so with equal keys its output is one of the orders the engine may produce.
- BackendApi.SetToList: the order of `list(set)` is unspecified in Python. The model picks elements in an arbitrary order, and its contract says nothing about the order.
- A process's `pid` and `name` are always present in the model. A `pid` of `None` from `proc.get("pid")` is not modelled. A truthy `alert` is a non-empty object, and non-object alert values are not modelled.
- ProcessMonitor.AnalyzeResourceUsage: `total_cpu_usage` and `total_memory_usage` are exact sums, not rounded to two places.
