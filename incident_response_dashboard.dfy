/** The view logic of the incident response dashboard: the seeded incident list, the
    statistics derived from it, the case-insensitive status filter, the "time ago" label,
    the colour lookups and the exported report. */
module IncidentResponseDashboard {
  import opened Seqs

  datatype TimelineEntry = TimelineEntry(time: string, action: string, user: string)

  /** An incident; `createdAt` is a time in milliseconds since the epoch. */
  datatype Incident = Incident(
    id: string,
    title: string,
    severity: string,
    status: string,
    category: string,
    reportedBy: string,
    assignedTo: string,
    createdAt: int,
    description: string,
    affectedSystems: seq<string>,
    timeline: seq<TimelineEntry>)

  datatype IncidentStats = IncidentStats(
    totalIncidents: nat,
    activeIncidents: nat,
    resolvedIncidents: nat,
    avgResponseTime: string)

  /** The component's state: the incident list, the status filter and the statistics. */
  datatype Dashboard = Dashboard(incidents: seq<Incident>, filterStatus: string, stats: IncidentStats)

  datatype IncidentReport = IncidentReport(
    generatedAt: string,
    summary: IncidentStats,
    incidents: seq<Incident>,
    recommendations: seq<string>)

  /** Milliseconds in an hour: `1000 * 60 * 60`. */
  const HourMs: int := 1000 * 60 * 60

  /** The filter value that disables filtering. */
  const AllStatuses: string := "all"

  /** The fixed average response time the statistics report. */
  const AvgResponseTime: string := "2.3h"

  const InitialDashboard: Dashboard := Dashboard([], AllStatuses, IncidentStats(0, 0, 0, AvgResponseTime))

  const ReportRecommendations: seq<string> := [
    "Implement automated incident response workflows",
    "Enhance monitoring capabilities for early detection",
    "Conduct regular incident response training",
    "Review and update incident response procedures"
  ]

  /** The descriptive fields of one seeded incident. */
  datatype SeedText = SeedText(
    id: string,
    title: string,
    category: string,
    reportedBy: string,
    assignedTo: string,
    description: string,
    affectedSystems: seq<string>,
    timeline: seq<TimelineEntry>)

  const Seed1: SeedText := SeedText(
    "INC-2024-001", "Suspicious Network Activity Detected", "Network Security",
    "Security Monitoring System", "John Smith",
    "Unusual outbound traffic patterns detected from internal servers",
    ["Web Server 01", "Database Server 02"],
    [TimelineEntry("14:30", "Incident detected by SIEM", "System"),
     TimelineEntry("14:35", "Assigned to security team", "Auto-Assignment"),
     TimelineEntry("14:45", "Initial investigation started", "John Smith")])

  const Seed2: SeedText := SeedText(
    "INC-2024-002", "Failed Login Attempts - Brute Force Attack", "Authentication",
    "Sarah Johnson", "Mike Davis",
    "Multiple failed login attempts detected from external IP addresses",
    ["Login Portal", "User Database"],
    [TimelineEntry("12:15", "Brute force attack detected", "System"),
     TimelineEntry("12:20", "IP addresses blocked", "Mike Davis"),
     TimelineEntry("12:30", "Additional monitoring enabled", "Mike Davis"),
     TimelineEntry("13:00", "Threat contained", "Mike Davis")])

  const Seed3: SeedText := SeedText(
    "INC-2024-003", "Malware Detection on Workstation", "Malware",
    "Emily Chen", "Alex Rodriguez",
    "Trojan malware detected on employee workstation in Finance department",
    ["WS-FIN-045", "Shared Network Drive"],
    [TimelineEntry("08:30", "Malware detected by antivirus", "System"),
     TimelineEntry("08:35", "Workstation isolated", "Alex Rodriguez"),
     TimelineEntry("09:15", "Malware removed and system cleaned", "Alex Rodriguez"),
     TimelineEntry("10:30", "System restored and monitoring enabled", "Alex Rodriguez"),
     TimelineEntry("11:00", "Incident resolved", "Alex Rodriguez")])

  function Seeded(t: SeedText, severity: string, status: string, createdAt: int): Incident
  {
    Incident(t.id, t.title, severity, status, t.category, t.reportedBy, t.assignedTo,
             createdAt, t.description, t.affectedSystems, t.timeline)
  }

  /** The three incidents the dashboard is seeded with, created 2, 4 and 8 hours before `now`. */
  function SampleIncidents(now: int): seq<Incident>
  {
    [
      Seeded(Seed1, "HIGH", "INVESTIGATING", now - 2 * HourMs),
      Seeded(Seed2, "MEDIUM", "CONTAINED", now - 4 * HourMs),
      Seeded(Seed3, "CRITICAL", "RESOLVED", now - 8 * HourMs)
    ]
  }

  function IsResolved(incident: Incident): bool { incident.status == "RESOLVED" }

  function IsActive(incident: Incident): bool { incident.status != "RESOLVED" }

  /** The statistics the init effect stores: everything not RESOLVED counts as active. */
  function DeriveStats(incidents: seq<Incident>): (s: IncidentStats)
    ensures s.totalIncidents == |incidents|
    ensures s.activeIncidents + s.resolvedIncidents == s.totalIncidents
    ensures s.resolvedIncidents == |Filter(incidents, IsResolved)|
    ensures s.avgResponseTime == AvgResponseTime
  {
    FilterComplement(incidents, IsResolved, IsActive);
    IncidentStats(|incidents|, |Filter(incidents, IsActive)|, |Filter(incidents, IsResolved)|, AvgResponseTime)
  }

  /** The init effect: seed the incidents and derive the statistics from them. */
  function Initialize(d: Dashboard, now: int): (r: Dashboard)
    ensures r.incidents == SampleIncidents(now) && r.filterStatus == d.filterStatus
    ensures r.stats.totalIncidents == |r.incidents|
    ensures r.stats.activeIncidents + r.stats.resolvedIncidents == r.stats.totalIncidents
    ensures r.stats.resolvedIncidents == |Filter(r.incidents, IsResolved)|
  {
    var sample := SampleIncidents(now);
    Dashboard(sample, d.filterStatus, DeriveStats(sample))
  }

  /** After seeding: three incidents, two active and one resolved. */
  lemma InitializedStats(now: int)
    ensures Initialize(InitialDashboard, now).stats == IncidentStats(3, 2, 1, AvgResponseTime)
  {
    var sample := SampleIncidents(now);
    assert Filter(sample, IsResolved) == [sample[2]] by {
      assert sample[1..][1..][1..] == [];
    }
  }

  /** The status drop-down: `setFilterStatus(e.target.value)` replaces the filter only. */
  function SetFilterStatus(d: Dashboard, value: string): (r: Dashboard)
    ensures r.filterStatus == value
    ensures r.incidents == d.incidents && r.stats == d.stats
  {
    d.(filterStatus := value)
  }

  predicate IsUpper(c: char) { 'A' <= c <= 'Z' }

  /** ASCII lower-casing of one character. */
  function LowerChar(c: char): char
  {
    if IsUpper(c) then (c as int - 'A' as int + 'a' as int) as char else c
  }

  /** `toLowerCase`: no capital is left, every other character stays, and each capital becomes
      the small letter at the same position in the alphabet. */
  function ToLowerCase(s: string): (r: string)
    ensures |r| == |s|
    ensures forall i :: 0 <= i < |r| ==> !IsUpper(r[i])
    ensures forall i :: 0 <= i < |s| && !IsUpper(s[i]) ==> r[i] == s[i]
    ensures forall i :: 0 <= i < |s| && IsUpper(s[i]) ==>
      'a' <= r[i] <= 'z' && r[i] as int - 'a' as int == s[i] as int - 'A' as int
  {
    seq(|s|, i requires 0 <= i < |s| => LowerChar(s[i]))
  }

  /** Lower-casing twice is lower-casing once. */
  lemma LowerCaseIdempotent(s: string)
    ensures ToLowerCase(ToLowerCase(s)) == ToLowerCase(s)
  {
  }

  /** Replacing some capitals of a string by their small letters does not change its lower-cased form. */
  lemma LowerCaseIgnoresCase(s: string, t: string)
    requires |s| == |t|
    requires forall i :: 0 <= i < |s| ==> s[i] == t[i] || (IsUpper(s[i]) && t[i] as int == s[i] as int + 32)
    ensures ToLowerCase(s) == ToLowerCase(t)
  {
  }

  /** Two characters that are equal, or are the capital and the small form of one letter. */
  predicate SameLetterIgnoringCase(a: char, b: char)
  {
    a == b || (IsUpper(a) && b as int == a as int + 32) || (IsUpper(b) && a as int == b as int + 32)
  }

  /** The predicate of `filteredIncidents`: 'all' admits everything, otherwise the status must
      equal the filter once both are lower-cased. */
  function MatchesFilter(filterStatus: string, incident: Incident): (b: bool)
    ensures filterStatus == AllStatuses ==> b
    ensures incident.status == filterStatus ==> b
    ensures filterStatus != AllStatuses && |incident.status| != |filterStatus| ==> !b
    ensures filterStatus != AllStatuses && b ==>
      forall i :: 0 <= i < |filterStatus| && !IsUpper(filterStatus[i]) && !IsUpper(incident.status[i]) ==>
        incident.status[i] == filterStatus[i]
  {
    filterStatus == AllStatuses || ToLowerCase(incident.status) == ToLowerCase(filterStatus)
  }

  /** Any filter other than 'all' matches exactly the statuses that spell it letter for letter,
      ignoring case. */
  lemma MatchesFilterIgnoresCase(filterStatus: string, incident: Incident)
    requires filterStatus != AllStatuses
    ensures MatchesFilter(filterStatus, incident) <==>
      |incident.status| == |filterStatus| &&
      forall i :: 0 <= i < |filterStatus| ==> SameLetterIgnoringCase(incident.status[i], filterStatus[i])
  {
    var s, f := incident.status, filterStatus;
    if |s| == |f| && forall i :: 0 <= i < |f| ==> SameLetterIgnoringCase(s[i], f[i]) {
      assert ToLowerCase(s) == ToLowerCase(f);
    }
  }

  /** `filteredIncidents`: the whole list for 'all', otherwise the incidents whose status
      equals the filter ignoring case, in their original order. */
  function FilteredIncidents(incidents: seq<Incident>, filterStatus: string): (r: seq<Incident>)
    ensures filterStatus == AllStatuses ==> r == incidents
    ensures IsSubsequence(r, incidents)
    ensures filterStatus != AllStatuses ==>
      forall i :: 0 <= i < |r| ==> ToLowerCase(r[i].status) == ToLowerCase(filterStatus)
    ensures filterStatus != AllStatuses ==>
      forall i :: 0 <= i < |incidents| && ToLowerCase(incidents[i].status) == ToLowerCase(filterStatus) ==> incidents[i] in r
    // every matching incident is kept as often as it occurs, every other one not at all
    ensures filterStatus != AllStatuses ==>
      forall x :: multiset(r)[x] == if ToLowerCase(x.status) == ToLowerCase(filterStatus) then multiset(incidents)[x] else 0
  {
    var keep := incident => MatchesFilter(filterStatus, incident);
    FilterIsSubsequence(incidents, keep);
    if filterStatus == AllStatuses then
      FilterKeepsAll(incidents, keep);
      Filter(incidents, keep)
    else
      var r := Filter(incidents, keep);
      forall x ensures multiset(r)[x] == if ToLowerCase(x.status) == ToLowerCase(filterStatus) then multiset(incidents)[x] else 0 {
        FilterMultiset(incidents, keep, x);
      }
      r
  }

  /** The dashboard's visible list. */
  function Visible(d: Dashboard): seq<Incident>
  {
    FilteredIncidents(d.incidents, d.filterStatus)
  }

  /** Two filter values that differ only in letter case select the same incidents
      (unless one of them is exactly 'all'). */
  lemma FilterIgnoresCase(incidents: seq<Incident>, f1: string, f2: string)
    requires f1 != AllStatuses && f2 != AllStatuses
    requires ToLowerCase(f1) == ToLowerCase(f2)
    ensures FilteredIncidents(incidents, f1) == FilteredIncidents(incidents, f2)
  {
    FilterAgree(incidents, incident => MatchesFilter(f1, incident), incident => MatchesFilter(f2, incident));
  }

  /** Changing the filter never changes the incident list or the statistics, and the
      visible list is always drawn from the incident list. */
  lemma FilterLeavesIncidents(d: Dashboard, value: string)
    ensures SetFilterStatus(d, value).incidents == d.incidents
    ensures SetFilterStatus(d, value).stats == d.stats
    ensures IsSubsequence(Visible(SetFilterStatus(d, value)), d.incidents)
    ensures value == AllStatuses ==> Visible(SetFilterStatus(d, value)) == d.incidents
  {
  }

  /** The fields of the seeded incidents the dashboard's logic looks at. */
  lemma SampleFields(now: int)
    ensures |SampleIncidents(now)| == 3
    ensures SampleIncidents(now)[0].status == "INVESTIGATING"
    ensures SampleIncidents(now)[1].status == "CONTAINED"
    ensures SampleIncidents(now)[2].status == "RESOLVED"
    ensures SampleIncidents(now)[0].createdAt == now - 2 * HourMs
    ensures SampleIncidents(now)[1].createdAt == now - 4 * HourMs
    ensures SampleIncidents(now)[2].createdAt == now - 8 * HourMs
  {
  }

  /** The lower-cased forms of the seeded statuses. */
  lemma StatusesLowerCased()
    ensures ToLowerCase("INVESTIGATING") == "investigating"
    ensures ToLowerCase("CONTAINED") == "contained"
    ensures ToLowerCase("RESOLVED") == "resolved"
  {
  }

  /** Under any filter other than 'all', the seeded list keeps each incident whose status
      matches the filter once both are lower-cased. */
  lemma SampleFiltered(now: int, value: string)
    requires value != AllStatuses
    ensures var s := SampleIncidents(now);
      var v := ToLowerCase(value);
      FilteredIncidents(s, value) ==
        (if v == "investigating" then [s[0]] else []) +
        (if v == "contained" then [s[1]] else []) +
        (if v == "resolved" then [s[2]] else [])
  {
    var s := SampleIncidents(now);
    SampleFields(now);
    StatusesLowerCased();
    FilterThree(s, incident => MatchesFilter(value, incident));
  }

  /** An upper-case 'ALL' is not the no-filter value: it matches no seeded status. */
  lemma SampleUpperCaseAll(now: int)
    ensures FilteredIncidents(SampleIncidents(now), "ALL") == []
  {
    assert ToLowerCase("ALL") == "all";
    SampleFiltered(now, "ALL");
  }

  /** `getSeverityColor` of the dashboard: four listed severities and a gray fallback. */
  const CriticalColor := "text-red-400 bg-red-500/20 border-red-500/50"
  const HighColor := "text-orange-400 bg-orange-500/20 border-orange-500/50"
  const MediumColor := "text-yellow-400 bg-yellow-500/20 border-yellow-500/50"
  const LowColor := "text-blue-400 bg-blue-500/20 border-blue-500/50"
  const FallbackSeverityColor := "text-gray-400 bg-gray-500/20 border-gray-500/50"

  function SeverityColor(severity: string): (c: string)
    ensures c == CriticalColor <==> severity == "CRITICAL"
    ensures c == HighColor <==> severity == "HIGH"
    ensures c == MediumColor <==> severity == "MEDIUM"
    ensures c == LowColor <==> severity == "LOW"
    ensures c == FallbackSeverityColor <==> severity !in {"CRITICAL", "HIGH", "MEDIUM", "LOW"}
  {
    match severity
    case "CRITICAL" => CriticalColor
    case "HIGH" => HighColor
    case "MEDIUM" => MediumColor
    case "LOW" => LowColor
    case _ => FallbackSeverityColor
  }

  /** `getStatusColor`: four listed statuses and a gray fallback. */
  const ResolvedColor := "text-green-400 bg-green-500/20"
  const InvestigatingColor := "text-blue-400 bg-blue-500/20"
  const ContainedColor := "text-orange-400 bg-orange-500/20"
  const EscalatedColor := "text-red-400 bg-red-500/20"
  const FallbackStatusColor := "text-gray-400 bg-gray-500/20"

  function StatusColor(status: string): (c: string)
    ensures c == ResolvedColor <==> status == "RESOLVED"
    ensures c == InvestigatingColor <==> status == "INVESTIGATING"
    ensures c == ContainedColor <==> status == "CONTAINED"
    ensures c == EscalatedColor <==> status == "ESCALATED"
    ensures c == FallbackStatusColor <==> status !in {"RESOLVED", "INVESTIGATING", "CONTAINED", "ESCALATED"}
  {
    match status
    case "RESOLVED" => ResolvedColor
    case "INVESTIGATING" => InvestigatingColor
    case "CONTAINED" => ContainedColor
    case "ESCALATED" => EscalatedColor
    case _ => FallbackStatusColor
  }

  /** The decimal digits of n, as a template literal prints an integer. */
  function NatToString(n: nat): (s: string)
    ensures |s| >= 1
    ensures forall i :: 0 <= i < |s| ==> '0' <= s[i] <= '9'
    ensures s[0] == '0' ==> n == 0
  {
    var digit := ('0' as int + n % 10) as char;
    if n < 10 then [digit] else NatToString(n / 10) + [digit]
  }

  /** The number a string of decimal digits denotes. */
  function DecimalValue(s: string): nat
    requires forall i :: 0 <= i < |s| ==> '0' <= s[i] <= '9'
  {
    if s == [] then 0 else 10 * DecimalValue(s[..|s| - 1]) + (s[|s| - 1] as int - '0' as int)
  }

  lemma {:induction false} DecimalRoundTrip(n: nat)
    ensures DecimalValue(NatToString(n)) == n
  {
    if n >= 10 {
      DecimalRoundTrip(n / 10);
      var s := NatToString(n);
      assert s[..|s| - 1] == NatToString(n / 10);
    }
  }

  /** `Math.floor((now - date) / (1000 * 60 * 60))`: whole hours elapsed, rounded down,
      negative for a date in the future. */
  function HoursElapsed(now: int, createdAt: int): (h: int)
    ensures h * HourMs <= now - createdAt < (h + 1) * HourMs
  {
    (now - createdAt) / HourMs
  }

  /** `formatTimeAgo`. */
  function FormatTimeAgo(now: int, createdAt: int): (r: string)
    ensures r == "Less than 1 hour ago" <==> now - createdAt < HourMs
    ensures r == "1 hour ago" <==> HourMs <= now - createdAt < 2 * HourMs
    ensures now - createdAt >= 2 * HourMs ==> r == NatToString(HoursElapsed(now, createdAt)) + " hours ago"
  {
    var h := HoursElapsed(now, createdAt);
    if h < 1 then "Less than 1 hour ago"
    else if h == 1 then "1 hour ago"
    else
      var digits := NatToString(h);
      assert (digits + " hours ago")[0] == digits[0];
      digits + " hours ago"
  }

  /** For two hours or more the label is a number followed by " hours ago", and the number
      read back is the elapsed time in whole hours. */
  lemma TimeAgoReadsBack(now: int, createdAt: int)
    requires now - createdAt >= 2 * HourMs
    ensures var r := FormatTimeAgo(now, createdAt);
      var suffix := " hours ago";
      |r| > |suffix| && r[|r| - |suffix|..] == suffix &&
      (forall i :: 0 <= i < |r| - |suffix| ==> '0' <= r[i] <= '9') &&
      var h := DecimalValue(r[..|r| - |suffix|]);
      h >= 2 && h * HourMs <= now - createdAt < (h + 1) * HourMs
  {
    var h := HoursElapsed(now, createdAt);
    var digits := NatToString(h);
    var r := digits + " hours ago";
    assert r[..|r| - 10] == digits;
    assert r[|r| - 10..] == " hours ago";
    DecimalRoundTrip(h);
  }

  /** Right after seeding, the three incidents read 2, 4 and 8 hours ago. */
  lemma SampleAges(now: int)
    ensures FormatTimeAgo(now, SampleIncidents(now)[0].createdAt) == "2 hours ago"
    ensures FormatTimeAgo(now, SampleIncidents(now)[1].createdAt) == "4 hours ago"
    ensures FormatTimeAgo(now, SampleIncidents(now)[2].createdAt) == "8 hours ago"
  {
    SampleFields(now);
    assert HoursElapsed(now, now - 2 * HourMs) == 2;
    assert HoursElapsed(now, now - 4 * HourMs) == 4;
    assert HoursElapsed(now, now - 8 * HourMs) == 8;
    assert NatToString(2) == "2" && NatToString(4) == "4" && NatToString(8) == "8";
  }

  /** `exportIncidentReport`'s report object. */
  function ExportIncidentReport(d: Dashboard, generatedAt: string): (r: IncidentReport)
    ensures r.incidents == d.incidents && r.summary == d.stats
    ensures r.generatedAt == generatedAt && r.recommendations == ReportRecommendations
  {
    IncidentReport(generatedAt, d.stats, d.incidents, ReportRecommendations)
  }

  /** The report carries the full list whatever filter is selected. */
  lemma ReportIgnoresFilter(d: Dashboard, value: string, generatedAt: string)
    ensures ExportIncidentReport(SetFilterStatus(d, value), generatedAt) == ExportIncidentReport(d, generatedAt)
  {
  }

  /** After seeding, under any filter, the report's summary agrees with its incident list. */
  lemma ReportSummaryConsistent(now: int, value: string, generatedAt: string)
    ensures var r := ExportIncidentReport(SetFilterStatus(Initialize(InitialDashboard, now), value), generatedAt);
      r.summary.totalIncidents == |r.incidents| &&
      r.summary.activeIncidents + r.summary.resolvedIncidents == r.summary.totalIncidents &&
      r.summary.resolvedIncidents == |Filter(r.incidents, IsResolved)|
  {
  }
}
