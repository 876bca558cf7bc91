/** The live threat feed of the network security analyzer: while monitoring is on, each
    tick generates one synthetic threat from fixed tables, puts it at the front of a feed
    that keeps the ten most recent threats, and advances four running counters. */
module NetworkSecurityAnalyzer {
  import opened Seqs

  /** One row of the threat-type table: a type with its fixed severity and description. */
  datatype ThreatType = ThreatType(threatType: string, severity: string, description: string)

  /** A generated threat. The id and the timestamp come from the clock and the random
      generator and are passed in. */
  datatype Threat = Threat(
    id: real,
    timestamp: string,
    threatType: string,
    severity: string,
    description: string,
    sourceIP: string,
    action: string)

  datatype NetworkStats = NetworkStats(
    totalConnections: int,
    suspiciousActivity: int,
    blockedAttempts: int,
    securityScore: real)

  /** The random draws one tick makes: three table indices (`Math.floor(Math.random() * n)`),
      the connection increment (`Math.floor(Math.random() * 5) + 1`), the score step
      (`(Math.random() - 0.5) * 10`), and the id and timestamp of the new threat. */
  datatype Draw = Draw(
    id: real,
    timestamp: string,
    typeIndex: nat,
    sourceIndex: nat,
    actionIndex: nat,
    increment: int,
    scoreDelta: real)

  /** The feed as the page holds it: the threat list and the counters. */
  datatype Feed = Feed(threats: seq<Threat>, stats: NetworkStats)

  /** The exported analysis report. */
  datatype SecurityReport = SecurityReport(
    generatedAt: string,
    monitoringPeriod: string,
    networkStats: NetworkStats,
    threats: seq<Threat>,
    recommendations: seq<string>)

  const ThreatTypes: seq<ThreatType> := [
    ThreatType("Port Scan", "MEDIUM", "Suspicious port scanning detected"),
    ThreatType("Brute Force", "HIGH", "Multiple failed login attempts"),
    ThreatType("DDoS Attempt", "HIGH", "Unusual traffic volume detected"),
    ThreatType("Malware Communication", "CRITICAL", "Suspicious outbound connections"),
    ThreatType("SQL Injection", "HIGH", "Malicious database queries detected"),
    ThreatType("Unauthorized Access", "MEDIUM", "Access from unknown location")
  ]

  const Sources: seq<string> := ["192.168.1.45", "10.0.0.23", "172.16.0.8", "203.0.113.5", "198.51.100.12"]

  const Actions: seq<string> := ["BLOCKED", "MONITORED", "QUARANTINED"]

  /** The feed keeps this many threats. */
  const FeedCapacity: nat := 10

  /** The export includes at most this many threats. */
  const ReportThreatLimit: nat := 20

  const Recommendations: seq<string> := [
    "Update firewall rules to block suspicious IPs",
    "Implement rate limiting for login attempts",
    "Enable intrusion detection system alerts",
    "Review and update security policies"
  ]

  const InitialStats: NetworkStats := NetworkStats(0, 0, 0, 85.0)

  const InitialFeed: Feed := Feed([], InitialStats)

  /** The range of values the random draws can take. */
  predicate ValidDraw(d: Draw)
  {
    d.typeIndex < |ThreatTypes| && d.sourceIndex < |Sources| && d.actionIndex < |Actions| &&
    1 <= d.increment <= 5 &&
    -5.0 <= d.scoreDelta < 5.0
  }

  /** The invariant the page keeps: at most ten threats and a score within [60, 100]. */
  predicate ValidFeed(f: Feed)
  {
    |f.threats| <= FeedCapacity && 60.0 <= f.stats.securityScore <= 100.0
  }

  /** `generateRandomThreat`: one table row supplies type, severity and description together. */
  function GenerateThreat(d: Draw): (t: Threat)
    requires ValidDraw(d)
    ensures ThreatType(t.threatType, t.severity, t.description) in ThreatTypes
    ensures t.severity in {"MEDIUM", "HIGH", "CRITICAL"}
    ensures t.sourceIP in Sources
    ensures t.action in {"BLOCKED", "MONITORED", "QUARANTINED"}
    ensures t.id == d.id && t.timestamp == d.timestamp
  {
    var row := ThreatTypes[d.typeIndex];
    Threat(d.id, d.timestamp, row.threatType, row.severity, row.description,
           Sources[d.sourceIndex], Actions[d.actionIndex])
  }

  /** The type names in the table are distinct, so a type determines its row. */
  lemma TypeDeterminesRow(i: nat, j: nat)
    requires i < |ThreatTypes| && j < |ThreatTypes|
    requires ThreatTypes[i].threatType == ThreatTypes[j].threatType
    ensures i == j
  {
  }

  /** Two generated threats of the same type carry the same severity and description. */
  lemma SeverityMatchesType(d1: Draw, d2: Draw)
    requires ValidDraw(d1) && ValidDraw(d2)
    requires GenerateThreat(d1).threatType == GenerateThreat(d2).threatType
    ensures GenerateThreat(d1).severity == GenerateThreat(d2).severity
    ensures GenerateThreat(d1).description == GenerateThreat(d2).description
  {
  }

  /** `Math.max(60, Math.min(100, x))`. */
  function ClampScore(x: real): (r: real)
    ensures 60.0 <= r <= 100.0
    ensures 60.0 <= x <= 100.0 ==> r == x
    ensures x < 60.0 ==> r == 60.0
    ensures x > 100.0 ==> r == 100.0
  {
    if x > 100.0 then 100.0 else if x < 60.0 then 60.0 else x
  }

  /** `[newThreat, ...prev.slice(0, 9)]`: the new threat in front of at most nine old ones. */
  function PushThreat(feed: seq<Threat>, t: Threat): (r: seq<Threat>)
    ensures |r| == Min(|feed|, FeedCapacity - 1) + 1 && |r| <= FeedCapacity
    ensures r[0] == t
    ensures r[1..] <= feed
  {
    [t] + Take(feed, FeedCapacity - 1)
  }

  /** The counter update of one tick. */
  function NextStats(s: NetworkStats, t: Threat, d: Draw): (r: NetworkStats)
    requires ValidDraw(d)
    ensures r.totalConnections == s.totalConnections + d.increment
    ensures s.totalConnections < r.totalConnections <= s.totalConnections + 5
    ensures r.suspiciousActivity == s.suspiciousActivity + 1 <==> t.severity == "HIGH"
    ensures r.suspiciousActivity == s.suspiciousActivity <==> t.severity != "HIGH"
    ensures r.blockedAttempts == s.blockedAttempts + 1 <==> t.action == "BLOCKED"
    ensures r.blockedAttempts == s.blockedAttempts <==> t.action != "BLOCKED"
    // the score moves by the step when that stays in [60, 100], otherwise to the nearer bound
    ensures 60.0 <= s.securityScore + d.scoreDelta <= 100.0 ==> r.securityScore == s.securityScore + d.scoreDelta
    ensures s.securityScore + d.scoreDelta < 60.0 ==> r.securityScore == 60.0
    ensures s.securityScore + d.scoreDelta > 100.0 ==> r.securityScore == 100.0
    ensures 60.0 <= r.securityScore <= 100.0
    // from a score in range, one tick moves it by less than five points either way
    ensures 60.0 <= s.securityScore <= 100.0 ==> -5.0 <= r.securityScore - s.securityScore < 5.0
  {
    NetworkStats(
      s.totalConnections + d.increment,
      s.suspiciousActivity + (if t.severity == "HIGH" then 1 else 0),
      s.blockedAttempts + (if t.action == "BLOCKED" then 1 else 0),
      ClampScore(s.securityScore + d.scoreDelta))
  }

  /** One tick applied to the feed. */
  function Ingest(f: Feed, d: Draw): (r: Feed)
    requires ValidDraw(d)
    ensures ValidFeed(r)
    ensures |r.threats| >= 1 && r.threats[0] == GenerateThreat(d)
    ensures r.stats.totalConnections == f.stats.totalConnections + d.increment
    ensures r.stats.securityScore == ClampScore(f.stats.securityScore + d.scoreDelta)
  {
    var t := GenerateThreat(d);
    Feed(PushThreat(f.threats, t), NextStats(f.stats, t, d))
  }

  /** The feed after a run of ticks, applied in order. */
  function Run(f: Feed, ds: seq<Draw>): Feed
    requires forall i :: 0 <= i < |ds| ==> ValidDraw(ds[i])
  {
    if ds == [] then f else Ingest(Run(f, ds[..|ds| - 1]), ds[|ds| - 1])
  }

  /** The threats a run of ticks generates, oldest first. */
  function Generated(ds: seq<Draw>): (r: seq<Threat>)
    requires forall i :: 0 <= i < |ds| ==> ValidDraw(ds[i])
    ensures |r| == |ds|
  {
    if ds == [] then [] else Generated(ds[..|ds| - 1]) + [GenerateThreat(ds[|ds| - 1])]
  }

  /** The sum of the connection increments of a run. */
  function TotalIncrement(ds: seq<Draw>): int
  {
    if ds == [] then 0 else TotalIncrement(ds[..|ds| - 1]) + ds[|ds| - 1].increment
  }

  function IsHigh(t: Threat): bool { t.severity == "HIGH" }

  function IsBlocked(t: Threat): bool { t.action == "BLOCKED" }

  /** After any run the feed is the ten most recent threats, newest first; older ones
      (including older entries of the starting feed) are dropped. */
  lemma {:induction false} RunKeepsNewestFirst(f: Feed, ds: seq<Draw>)
    requires |f.threats| <= FeedCapacity
    requires forall i :: 0 <= i < |ds| ==> ValidDraw(ds[i])
    ensures Run(f, ds).threats == Take(Reverse(Generated(ds)) + f.threats, FeedCapacity)
  {
    if ds == [] {
      assert Reverse(Generated(ds)) + f.threats == f.threats;
    } else {
      var prefix := ds[..|ds| - 1];
      var t := GenerateThreat(ds[|ds| - 1]);
      RunKeepsNewestFirst(f, prefix);
      var older := Reverse(Generated(prefix)) + f.threats;
      assert Run(f, ds).threats == PushThreat(Run(f, prefix).threats, t);
      NewestFirstStep(f, ds);
      PushTake(older, t);
    }
  }

  /** One step of the induction above: the last tick pushes its threat onto the feed,
      and its threat is the newest of the history. */
  lemma {:induction false} NewestFirstStep(f: Feed, ds: seq<Draw>)
    requires ds != []
    requires forall i :: 0 <= i < |ds| ==> ValidDraw(ds[i])
    ensures Reverse(Generated(ds)) + f.threats == [GenerateThreat(ds[|ds| - 1])] + (Reverse(Generated(ds[..|ds| - 1])) + f.threats)
  {
  }

  /** Pushing onto the ten newest keeps the ten newest. */
  lemma PushTake(older: seq<Threat>, t: Threat)
    ensures PushThreat(Take(older, FeedCapacity), t) == Take([t] + older, FeedCapacity)
  {
  }

  /** The counters accumulate over the whole history, independently of the truncated feed:
      suspicious activity counts the HIGH threats (not the CRITICAL ones), blocked attempts
      the BLOCKED ones, and the connection total grows by every increment. */
  lemma {:induction false} RunCountsWholeHistory(f: Feed, ds: seq<Draw>)
    requires forall i :: 0 <= i < |ds| ==> ValidDraw(ds[i])
    ensures Run(f, ds).stats.suspiciousActivity == f.stats.suspiciousActivity + |Filter(Generated(ds), IsHigh)|
    ensures Run(f, ds).stats.blockedAttempts == f.stats.blockedAttempts + |Filter(Generated(ds), IsBlocked)|
    ensures Run(f, ds).stats.totalConnections == f.stats.totalConnections + TotalIncrement(ds)
  {
    if ds != [] {
      var prefix := ds[..|ds| - 1];
      RunCountsWholeHistory(f, prefix);
      FilterAppend(Generated(prefix), GenerateThreat(ds[|ds| - 1]), IsHigh);
      FilterAppend(Generated(prefix), GenerateThreat(ds[|ds| - 1]), IsBlocked);
    }
  }

  /** The connection total strictly increases with every tick, by between one and five. */
  lemma {:induction false} ConnectionsIncrease(ds: seq<Draw>)
    requires forall i :: 0 <= i < |ds| ==> ValidDraw(ds[i])
    ensures |ds| <= TotalIncrement(ds) <= 5 * |ds|
  {
    if ds != [] {
      ConnectionsIncrease(ds[..|ds| - 1]);
    }
  }

  /** Ticks keep the feed within ten entries and the score within [60, 100]. */
  lemma RunKeepsValid(f: Feed, ds: seq<Draw>)
    requires ValidFeed(f)
    requires forall i :: 0 <= i < |ds| ==> ValidDraw(ds[i])
    ensures ValidFeed(Run(f, ds))
  {
  }

  /** From the initial feed, n ticks leave min(n, 10) threats while the counters reflect all
      n: fifteen ticks, say, retain ten threats and count fifteen. */
  lemma RunFromStart(ds: seq<Draw>)
    requires forall i :: 0 <= i < |ds| ==> ValidDraw(ds[i])
    ensures |Run(InitialFeed, ds).threats| == Min(|ds|, FeedCapacity)
    ensures Run(InitialFeed, ds).threats == Take(Reverse(Generated(ds)), FeedCapacity)
    ensures Run(InitialFeed, ds).stats.blockedAttempts == |Filter(Generated(ds), IsBlocked)|
    ensures Run(InitialFeed, ds).stats.suspiciousActivity == |Filter(Generated(ds), IsHigh)|
    ensures Run(InitialFeed, ds).stats.totalConnections >= |ds|
    ensures 60.0 <= Run(InitialFeed, ds).stats.securityScore <= 100.0
  {
    RunKeepsNewestFirst(InitialFeed, ds);
    assert Reverse(Generated(ds)) + [] == Reverse(Generated(ds));
    RunCountsWholeHistory(InitialFeed, ds);
    ConnectionsIncrease(ds);
    RunKeepsValid(InitialFeed, ds);
  }

  /** `getSeverityColor` of the analyzer. LOW and every unlisted severity share the blue fallback. */
  const CriticalColor := "text-red-400 bg-red-500/20 border-red-500/50"
  const HighColor := "text-orange-400 bg-orange-500/20 border-orange-500/50"
  const MediumColor := "text-yellow-400 bg-yellow-500/20 border-yellow-500/50"
  const FallbackSeverityColor := "text-blue-400 bg-blue-500/20 border-blue-500/50"

  function SeverityColor(severity: string): (c: string)
    ensures c == CriticalColor <==> severity == "CRITICAL"
    ensures c == HighColor <==> severity == "HIGH"
    ensures c == MediumColor <==> severity == "MEDIUM"
    ensures c == FallbackSeverityColor <==> severity !in {"CRITICAL", "HIGH", "MEDIUM"}
  {
    match severity
    case "CRITICAL" => CriticalColor
    case "HIGH" => HighColor
    case "MEDIUM" => MediumColor
    case _ => FallbackSeverityColor
  }

  /** `getActionColor`: MONITORED and every unlisted action share the blue fallback. */
  const BlockedColor := "text-red-400 bg-red-500/20"
  const QuarantinedColor := "text-orange-400 bg-orange-500/20"
  const FallbackActionColor := "text-blue-400 bg-blue-500/20"

  function ActionColor(action: string): (c: string)
    ensures c == BlockedColor <==> action == "BLOCKED"
    ensures c == QuarantinedColor <==> action == "QUARANTINED"
    ensures c == FallbackActionColor <==> action !in {"BLOCKED", "QUARANTINED"}
  {
    match action
    case "BLOCKED" => BlockedColor
    case "QUARANTINED" => QuarantinedColor
    case _ => FallbackActionColor
  }

  /** A generated threat never shows the fallback severity colour; its action shows the
      fallback colour exactly when it is MONITORED. */
  lemma GeneratedThreatColors(d: Draw)
    requires ValidDraw(d)
    ensures SeverityColor(GenerateThreat(d).severity) != FallbackSeverityColor
    ensures ActionColor(GenerateThreat(d).action) == FallbackActionColor <==> GenerateThreat(d).action == "MONITORED"
  {
  }

  /** The component's state: the monitoring flag, the threat feed and the counters. */
  class Analyzer {
    var isMonitoring: bool
    var threats: seq<Threat>
    var networkStats: NetworkStats

    predicate Valid()
      reads this
    {
      ValidFeed(Snapshot())
    }

    function Snapshot(): Feed
      reads this
    {
      Feed(threats, networkStats)
    }

    /** Monitoring off, no threats, score 85. */
    constructor ()
      ensures Valid()
      ensures !isMonitoring && Snapshot() == InitialFeed
    {
      isMonitoring := false;
      threats := [];
      networkStats := InitialStats;
    }

    /** The Start/Stop button: `setIsMonitoring(!isMonitoring)`. */
    method ToggleMonitoring()
      modifies this
      ensures isMonitoring == !old(isMonitoring)
      ensures Snapshot() == old(Snapshot())
    {
      isMonitoring := !isMonitoring;
    }

    /** The interval callback. While monitoring is off no interval is armed, so a tick
        changes nothing; otherwise it pushes a new threat and advances the counters. */
    method Tick(d: Draw)
      requires Valid() && ValidDraw(d)
      modifies this
      ensures Valid()
      ensures isMonitoring == old(isMonitoring)
      ensures Snapshot() == if old(isMonitoring) then Ingest(old(Snapshot()), d) else old(Snapshot())
    {
      if isMonitoring {
        var newThreat := GenerateThreat(d);
        threats := PushThreat(threats, newThreat);
        networkStats := NextStats(networkStats, newThreat, d);
      }
    }

    /** `exportReport`'s report object. Since the feed never exceeds ten threats,
        `threats.slice(0, 20)` is the whole feed. */
    method ExportReport(generatedAt: string) returns (report: SecurityReport)
      requires Valid()
      ensures report.threats == threats
      ensures report.networkStats == networkStats
      ensures report.generatedAt == generatedAt && report.monitoringPeriod == "24 hours"
      ensures report.recommendations == Recommendations
    {
      report := SecurityReport(generatedAt, "24 hours", networkStats, Take(threats, ReportThreatLimit), Recommendations);
    }
  }
}
