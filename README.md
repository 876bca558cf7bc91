# Cybersecurity dashboards: a verified model of their view logic

The repository is three React demo pages: a network security analyzer with a live threat
feed, an incident response dashboard and a vulnerability-scanning lab guide. Almost all of
it is markup. This project models the small amount of logic the pages carry and proves
what that logic guarantees:

- `NetworkSecurityAnalyzer` (network_security_analyzer.dfy). While monitoring is on, every
  tick builds one threat from three fixed tables (threat types with their severity and
  description, five source addresses, three actions). The threat goes to the front of a
  feed capped at ten entries, newest first. Four counters then advance: the connection
  total by 1 to 5, suspicious activity by one for a HIGH threat, blocked attempts by one
  for a BLOCKED threat, and a security score moved by a step in [-5, 5) and clamped to
  [60, 100]. The page state is the class `Analyzer` with a `Tick` method. The start/stop
  button flips the monitoring flag. The pure functions `Ingest` and `Run` give the meaning
  of one tick and of a run of ticks, and the history lemmas are stated over them.
- `IncidentResponseDashboard` (incident_response_dashboard.dfy). It holds the three seeded
  incidents and the statistics derived from them. Active counts every incident that is not
  RESOLVED. It models the status filter, which ignores case except that the exact value
  `'all'` turns it off, the "time ago" label in whole hours, the severity and status
  colour lookups, and the exported report.
- `VulnScanningLab` (vuln_scanning_lab.dfy). Toggling a step appends its id when it is
  absent and removes every occurrence when it is present. A step shows as completed when
  its id is in the list.
- `Seqs` (seqs.dfy) holds `Filter` (JavaScript's `Array.prototype.filter`) and `Take`
  (`slice(0, n)`). It also holds the reference predicates the contracts use: subsequence
  and no duplicates.

The random draws, the clock and the timestamps are parameters. A tick takes a `Draw`
record holding three table indices, the connection increment, the score step, the new
threat's id and its time label. `ValidDraw` states the ranges that `Math.floor(Math.random() * n)`
and `(Math.random() - 0.5) * 10` can produce. `formatTimeAgo` takes the current time and
the creation time in milliseconds. The seeded incidents take the time of seeding.

Behaviour of the code worth noting:

- Suspicious activity counts HIGH threats only. A CRITICAL threat does not count.
- Stopping and starting monitoring is a plain flag flip. No idempotent start and no
  configuration error exist in the code.
- The export takes `threats.slice(0, 20)`. Since the feed never holds more than ten
  entries, this is the whole feed, and `Analyzer.ExportReport` proves it.

## Model

| member | source | states |
|---|---|---|
| NetworkSecurityAnalyzer.GenerateThreat | cybersecurity-projects/components/NetworkSecurityAnalyzer.tsx:50-72 | type, severity and description come from one row of the threat table; severity is MEDIUM, HIGH or CRITICAL; the source is one of the five addresses; the action is BLOCKED, MONITORED or QUARANTINED |
| NetworkSecurityAnalyzer.TypeDeterminesRow | cybersecurity-projects/components/NetworkSecurityAnalyzer.tsx:51-58 | the type names of the threat table are distinct |
| NetworkSecurityAnalyzer.SeverityMatchesType | cybersecurity-projects/components/NetworkSecurityAnalyzer.tsx:63-68 | two generated threats of the same type have the same severity and description |
| NetworkSecurityAnalyzer.ClampScore | cybersecurity-projects/components/NetworkSecurityAnalyzer.tsx:42 | the clamped score lies in [60, 100], equals its input inside that range, and is 60 below it and 100 above it |
| Seqs.Take | cybersecurity-projects/components/NetworkSecurityAnalyzer.tsx:36 | `slice(0, n)`: a prefix of the list of length min(length, n) |
| NetworkSecurityAnalyzer.PushThreat | cybersecurity-projects/components/NetworkSecurityAnalyzer.tsx:36 | the new feed has min(old length, 9) + 1 ≤ 10 entries, the new threat first, then a prefix of the old feed |
| NetworkSecurityAnalyzer.NextStats | cybersecurity-projects/components/NetworkSecurityAnalyzer.tsx:38-43 | connections rise by exactly the drawn increment, so by 1 to 5; suspicious activity rises by one exactly when the threat is HIGH and otherwise stays; blocked attempts rise by one exactly when the action is BLOCKED and otherwise stay; the score becomes old score plus step when that lies in [60, 100], otherwise 60 below and 100 above, so an in-range score moves by less than five points per tick |
| NetworkSecurityAnalyzer.Ingest | cybersecurity-projects/components/NetworkSecurityAnalyzer.tsx:35-43 | after a tick the feed is non-empty, starts with the generated threat, holds at most ten entries; connections grow by the increment and the score is the clamped old score plus step |
| NetworkSecurityAnalyzer.RunKeepsNewestFirst | cybersecurity-projects/components/NetworkSecurityAnalyzer.tsx:36 | after any run of ticks the feed is the ten newest threats, newest first, older entries dropped |
| NetworkSecurityAnalyzer.RunCountsWholeHistory | cybersecurity-projects/components/NetworkSecurityAnalyzer.tsx:36-43 | suspicious activity and blocked attempts count the HIGH and BLOCKED threats of the whole history, not of the truncated feed; connections grow by the sum of all increments |
| NetworkSecurityAnalyzer.ConnectionsIncrease | cybersecurity-projects/components/NetworkSecurityAnalyzer.tsx:39 | n ticks add between n and 5n connections, so the total strictly increases |
| NetworkSecurityAnalyzer.RunKeepsValid | cybersecurity-projects/components/NetworkSecurityAnalyzer.tsx:36-42 | ticks preserve "at most ten threats and score in [60, 100]" |
| NetworkSecurityAnalyzer.RunFromStart | cybersecurity-projects/components/NetworkSecurityAnalyzer.tsx:21-44 | from the initial state (no threats, score 85) n ticks retain min(n, 10) threats while the counters reflect all n ticks, and the score stays in [60, 100] |
| NetworkSecurityAnalyzer.SeverityColor | cybersecurity-projects/components/NetworkSecurityAnalyzer.tsx:96-103 | CRITICAL, HIGH and MEDIUM each get their own colour; every other severity, LOW included, gets the blue fallback |
| NetworkSecurityAnalyzer.ActionColor | cybersecurity-projects/components/NetworkSecurityAnalyzer.tsx:105-111 | BLOCKED and QUARANTINED each get their own colour; every other action gets the blue fallback |
| NetworkSecurityAnalyzer.GeneratedThreatColors | cybersecurity-projects/components/NetworkSecurityAnalyzer.tsx:61-111 | a generated threat never shows the fallback severity colour; its action shows the fallback exactly when it is MONITORED |
| NetworkSecurityAnalyzer.Analyzer.constructor | cybersecurity-projects/components/NetworkSecurityAnalyzer.tsx:20-27 | monitoring off, empty feed, counters 0 and score 85 |
| NetworkSecurityAnalyzer.Analyzer.ToggleMonitoring | cybersecurity-projects/components/NetworkSecurityAnalyzer.tsx:131 | the button flips the monitoring flag and changes nothing else |
| NetworkSecurityAnalyzer.Analyzer.Tick | cybersecurity-projects/components/NetworkSecurityAnalyzer.tsx:33-44 | with monitoring off a tick changes nothing; with it on the new state is one `Ingest` of the old state; the feed bound and score bounds are preserved |
| NetworkSecurityAnalyzer.Analyzer.ExportReport | cybersecurity-projects/components/NetworkSecurityAnalyzer.tsx:74-86 | the report's threat list, taken with `slice(0, 20)`, is the whole feed; it carries the current counters, the "24 hours" period and the four recommendations |
| IncidentResponseDashboard.SampleFields | cybersecurity-projects/components/IncidentResponseDashboard.tsx:37-92 | three seeded incidents with statuses INVESTIGATING, CONTAINED, RESOLVED, created 2, 4 and 8 hours before seeding |
| IncidentResponseDashboard.DeriveStats | cybersecurity-projects/components/IncidentResponseDashboard.tsx:95-100 | the total is the list length, active plus resolved equals the total, resolved counts the RESOLVED incidents |
| IncidentResponseDashboard.Initialize | cybersecurity-projects/components/IncidentResponseDashboard.tsx:36-101 | the mount effect installs the seeded incidents, keeps the filter, and its statistics agree with the list: total is the length, active plus resolved is the total, resolved counts the RESOLVED incidents |
| IncidentResponseDashboard.InitializedStats | cybersecurity-projects/components/IncidentResponseDashboard.tsx:36-101 | after seeding the statistics are 3 total, 2 active, 1 resolved, "2.3h" |
| IncidentResponseDashboard.SetFilterStatus | cybersecurity-projects/components/IncidentResponseDashboard.tsx:232 | choosing a filter replaces only the filter value |
| IncidentResponseDashboard.ToLowerCase | cybersecurity-projects/components/IncidentResponseDashboard.tsx:125 | lower-casing keeps the length, leaves no capital A–Z, leaves every character outside A–Z unchanged, and turns each capital into the small letter at the same alphabet position |
| IncidentResponseDashboard.LowerCaseIdempotent | cybersecurity-projects/components/IncidentResponseDashboard.tsx:125 | lower-casing an already lower-cased string changes nothing |
| IncidentResponseDashboard.LowerCaseIgnoresCase | cybersecurity-projects/components/IncidentResponseDashboard.tsx:125 | replacing capitals of a string by their small letters does not change its lower-cased form |
| IncidentResponseDashboard.StatusesLowerCased | cybersecurity-projects/components/IncidentResponseDashboard.tsx:125 | the seeded statuses lower-case to "investigating", "contained" and "resolved" |
| IncidentResponseDashboard.MatchesFilter | cybersecurity-projects/components/IncidentResponseDashboard.tsx:123-126 | 'all' admits every incident; a status equal to the filter always matches; a status of another length never matches a filter other than 'all'; where a match holds, the two agree at every position where neither has a capital |
| IncidentResponseDashboard.MatchesFilterIgnoresCase | cybersecurity-projects/components/IncidentResponseDashboard.tsx:124-125 | a filter other than 'all' matches a status exactly when both have the same length and, position by position, the characters are equal or are the capital and small form of one letter (so "resolved" matches RESOLVED) |
| Seqs.Filter | cybersecurity-projects/components/IncidentResponseDashboard.tsx:123-126 | `Array.prototype.filter`: no more elements than the input, every kept element is from the input and accepted, every accepted element of the input is kept |
| IncidentResponseDashboard.FilteredIncidents | cybersecurity-projects/components/IncidentResponseDashboard.tsx:123-126 | with 'all' the result is the whole list; it is always an order-preserving subsequence of the list; otherwise each incident whose lower-cased status equals the lower-cased filter is kept as many times as it occurs and every other incident is dropped |
| IncidentResponseDashboard.FilterIgnoresCase | cybersecurity-projects/components/IncidentResponseDashboard.tsx:125 | two filter values that differ only in letter case select the same incidents |
| IncidentResponseDashboard.FilterLeavesIncidents | cybersecurity-projects/components/IncidentResponseDashboard.tsx:123-126 | changing the filter leaves the incident list and statistics unchanged, and the visible list is drawn from the incident list |
| IncidentResponseDashboard.SampleFiltered | cybersecurity-projects/components/IncidentResponseDashboard.tsx:123-126 | on the seeded list, any filter other than 'all' keeps exactly the incidents whose status matches it ignoring case |
| IncidentResponseDashboard.SampleUpperCaseAll | cybersecurity-projects/components/IncidentResponseDashboard.tsx:124-125 | 'ALL' is not the no-filter value and selects no seeded incident |
| IncidentResponseDashboard.SeverityColor | cybersecurity-projects/components/IncidentResponseDashboard.tsx:103-111 | CRITICAL, HIGH, MEDIUM and LOW each get their own colour; every other severity gets the gray fallback |
| IncidentResponseDashboard.StatusColor | cybersecurity-projects/components/IncidentResponseDashboard.tsx:113-121 | RESOLVED, INVESTIGATING, CONTAINED and ESCALATED each get their own colour; every other status gets the gray fallback |
| IncidentResponseDashboard.HoursElapsed | cybersecurity-projects/components/IncidentResponseDashboard.tsx:151 | the elapsed whole hours h satisfy h·3,600,000 ≤ now − date < (h+1)·3,600,000, so they are negative for a future date |
| IncidentResponseDashboard.FormatTimeAgo | cybersecurity-projects/components/IncidentResponseDashboard.tsx:149-156 | "Less than 1 hour ago" exactly when under an hour has passed, future dates included; "1 hour ago" exactly when one to two hours have passed; otherwise the decimal hour count followed by " hours ago" |
| IncidentResponseDashboard.NatToString | cybersecurity-projects/components/IncidentResponseDashboard.tsx:155 | the printed count is a non-empty string of decimal digits with no leading zero |
| IncidentResponseDashboard.DecimalRoundTrip | cybersecurity-projects/components/IncidentResponseDashboard.tsx:155 | reading the printed digits back gives the number |
| IncidentResponseDashboard.TimeAgoReadsBack | cybersecurity-projects/components/IncidentResponseDashboard.tsx:151-155 | for two hours or more the label is digits plus " hours ago", and the digits denote the elapsed whole hours (at least 2) |
| IncidentResponseDashboard.SampleAges | cybersecurity-projects/components/IncidentResponseDashboard.tsx:149-156 | at seeding time the three incidents read "2 hours ago", "4 hours ago" and "8 hours ago" |
| IncidentResponseDashboard.ExportIncidentReport | cybersecurity-projects/components/IncidentResponseDashboard.tsx:128-139 | the report carries the full incident list, the statistics as its summary and the four recommendations |
| IncidentResponseDashboard.ReportIgnoresFilter | cybersecurity-projects/components/IncidentResponseDashboard.tsx:129-133 | the report is the same whatever filter is selected |
| IncidentResponseDashboard.ReportSummaryConsistent | cybersecurity-projects/components/IncidentResponseDashboard.tsx:95-133 | after seeding, under any filter, the report's summary total is its list length, active plus resolved is the total, and resolved counts its RESOLVED incidents |
| VulnScanningLab.RemoveAll | cybersecurity-projects/components/VulnScanningLab.tsx:24 | every occurrence of the id is removed; the other ids keep their order and multiplicities |
| VulnScanningLab.ToggleStep | cybersecurity-projects/components/VulnScanningLab.tsx:21-27 | an absent id is appended; a present id vanishes while the rest keep their order and multiplicities; the membership of the toggled id flips and that of every other id is unchanged |
| VulnScanningLab.ToggleMembership | cybersecurity-projects/components/VulnScanningLab.tsx:23-25 | membership of one id after a toggle, in both directions |
| VulnScanningLab.IsCompleted | cybersecurity-projects/components/VulnScanningLab.tsx:243 | a step shows as completed exactly when some position of the list holds its id, that is when its id occurs at least once |
| VulnScanningLab.ToggleFlipsCompletion | cybersecurity-projects/components/VulnScanningLab.tsx:243-258 | after a toggle the toggled step's check mark flips and no other step's mark changes |
| VulnScanningLab.ToggleKeepsNoDuplicates | cybersecurity-projects/components/VulnScanningLab.tsx:22-26 | a toggle never creates a duplicate in a duplicate-free list |
| VulnScanningLab.ToggleTwiceAbsent | cybersecurity-projects/components/VulnScanningLab.tsx:22-26 | toggling an absent id twice restores the list exactly |
| VulnScanningLab.ToggleTwicePresent | cybersecurity-projects/components/VulnScanningLab.tsx:22-26 | toggling a present id twice in a duplicate-free list restores its contents as a multiset, with the id moved to the end |
| VulnScanningLab.ReplayNoDuplicates | cybersecurity-projects/components/VulnScanningLab.tsx:19-26 | from the empty initial list, any run of toggles leaves no duplicates |
| VulnScanningLab.ReplayParity | cybersecurity-projects/components/VulnScanningLab.tsx:19-26 | from the empty initial list, a step is completed exactly when it was toggled an odd number of times |
| VulnScanningLab.ReplayAppendAbsent | cybersecurity-projects/components/VulnScanningLab.tsx:22-26 | toggling an id the list does not hold appends it at the end |
| VulnScanningLab.CompletingAllSteps | cybersecurity-projects/components/VulnScanningLab.tsx:29-92 | checking off the five listed steps in order marks all of them, in listing order |

## Left out

- JSX markup, Tailwind classes, icons, tab switching (`activeTab`), static prose and command listings: presentation only.
- Incident selection (`selectedIncident`): it only chooses which incident the detail panel shows.
- The `setInterval`/`clearInterval` timer and the React effect lifecycle: a tick is an explicit `Analyzer.Tick` call that does nothing while monitoring is off.
- `Math.random`, `Date.now`, `new Date()`, `toLocaleTimeString` and `toISOString`: they become parameters (`Draw`, `now`, `generatedAt`). Threat ids are not proved unique, because the code does not make them unique.
- Floating point: the security score is a Dafny `real`, so double rounding is not modelled; only the clamp matters. The displayed `Math.round` of the score is presentation.
- The Blob, `URL.createObjectURL` and anchor-click download, and `JSON.stringify`: browser I/O. Only the report records are modelled.
- cybersecurity-projects/src/App.tsx: navigation wiring, not part of this model.
- IncidentResponseDashboard.ToLowerCase: maps ASCII letters only, not the full Unicode case mapping of `toLowerCase`; every status and filter value in the code is ASCII.
- IncidentResponseDashboard.NatToString: does not model the exponent notation JavaScript uses for hour counts of 10^21 and above.
- Incident status transitions: the code has none; incidents are only seeded.
