/**
 * The aggregation step of the VCN flow analyzer (scripts/vcn_analyzer.py):
 * threat statistics, the unified score-sorted threat list, and the
 * top-level `analyze_vcn_flows` pipeline over already fetched rows.
 */
module VcnSummary {
  import opened Common
  import opened VcnRecords
  import opened VcnScoring
  import opened VcnDetectors

  datatype ThreatKind = BeaconKind | LongConnectionKind | ExfiltrationKind | PortScanKind | DnsTunnelingKind
  {
    function Name(): string
    {
      match this
      case BeaconKind => "beacon"
      case LongConnectionKind => "long_connection"
      case ExfiltrationKind => "data_exfiltration"
      case PortScanKind => "port_scan"
      case DnsTunnelingKind => "dns_tunneling"
    }
  }

  datatype ThreatDetails =
    | BeaconDetails(avgIntervalSeconds: real, consistencyScore: real, avgBytesPerConnection: real)
    | LongConnectionDetails(totalDurationSeconds: real, totalPackets: int, avgBytesPerSecond: real)
    | ExfiltrationDetails(bytesIn: int, exfiltrationRatio: real, uniqueDestinations: int, bytesPerHour: real)
    | PortScanDetails(ports: set<int>, suspiciousRatio: real)
    | DnsDetails(avgBytesPerQuery: real)

  /** One entry of the unified threat list; times are seconds. */
  datatype Threat = Threat(
    id: string, kind: ThreatKind, severity: Severity, score: int,
    sourceIp: string, destinationIp: string, destinationPort: int,
    firstSeen: real, lastSeen: real, connectionCount: int, bytesTransferred: int,
    durationHours: real, confidence: int, details: ThreatDetails)

  // ---------------------------------------------------------------- scores

  /** Python's `int()` on a float: truncation toward zero. */
  function Trunc(x: real): (r: int)
    ensures x >= 0.0 ==> r >= 0 && r as real <= x < r as real + 1.0
    ensures x < 0.0 ==> r <= 0 && r as real - 1.0 < x <= r as real
  {
    if x >= 0.0 then x.Floor else -((-x).Floor)
  }

  /** `int(confidence * 100)`: a confidence in [0, 1] gives a score in [0, 100]. */
  function Percent(confidence: real): (r: int)
    ensures 0.0 <= confidence <= 1.0 ==> 0 <= r <= 100
  {
    Trunc(confidence * 100.0)
  }

  // ---------------------------------------------------------------- threat entries

  function BeaconThreat(b: Beacon): Threat
  {
    Threat("beacon_" + b.sourceIp + "_" + b.destIp + "_" + IntToString(b.destPort), BeaconKind, b.severity,
           Percent(b.confidence), b.sourceIp, b.destIp, b.destPort, b.firstSeen, b.lastSeen,
           b.connectionCount, b.totalBytes, b.durationHours, Percent(b.confidence),
           BeaconDetails(b.avgInterval, b.consistencyScore, b.avgBytesPerConnection))
  }

  function LongConnectionThreat(c: LongConnection): Threat
  {
    Threat("longconn_" + c.sourceIp + "_" + c.destIp + "_" + IntToString(c.destPort), LongConnectionKind, c.severity,
           Percent(c.confidence), c.sourceIp, c.destIp, c.destPort, c.startTime, c.endTime,
           1, c.totalBytes, c.totalDuration / 3600.0, Percent(c.confidence),
           LongConnectionDetails(c.totalDuration, c.totalPackets, c.avgBytesPerSecond))
  }

  /** Exfiltration, scan and DNS entries are stamped with the current time `now`. */
  function ExfiltrationThreat(e: Exfiltration, now: real): Threat
  {
    Threat("exfil_" + e.sourceIp + "_" + e.destIp, ExfiltrationKind, e.severity,
           Percent(e.confidence), e.sourceIp, e.destIp, e.destPort, now, now,
           e.connectionCount, e.totalBytesOut, e.timeWindow / 3600.0, Percent(e.confidence),
           ExfiltrationDetails(e.totalBytesIn, e.exfiltrationRatio, e.uniqueDestCount, e.bytesPerHour))
  }

  function PortScanThreat(p: PortScan, now: real): Threat
  {
    Threat("portscan_" + p.sourceIp + "_" + p.destIp, PortScanKind, p.severity,
           Percent(p.confidence), p.sourceIp, p.destIp, 0, now, now,
           p.portsScanned, 0, 0.0, Percent(p.confidence),
           PortScanDetails(p.ports, p.suspiciousRatio))
  }

  function DnsThreat(d: DnsTunnel, now: real): Threat
  {
    Threat("dns_" + d.sourceIp, DnsTunnelingKind, d.severity,
           Percent(d.confidence), d.sourceIp, "DNS_SERVER", 53, now, now,
           d.queryCount, 0, d.timeSpanHours, Percent(d.confidence),
           DnsDetails(d.avgBytesPerQuery))
  }

  function BeaconThreats(bs: seq<Beacon>): seq<Threat> { MapSeq(bs, BeaconThreat) }
  function LongConnectionThreats(cs: seq<LongConnection>): seq<Threat> { MapSeq(cs, LongConnectionThreat) }
  function ExfiltrationThreats(es: seq<Exfiltration>, now: real): seq<Threat> { MapSeq(es, e => ExfiltrationThreat(e, now)) }
  function PortScanThreats(ps: seq<PortScan>, now: real): seq<Threat> { MapSeq(ps, p => PortScanThreat(p, now)) }
  function DnsThreats(ds: seq<DnsTunnel>, now: real): seq<Threat> { MapSeq(ds, d => DnsThreat(d, now)) }

  /** The entries in detector order, before the final sort. */
  function UnsortedThreats(bs: seq<Beacon>, cs: seq<LongConnection>, es: seq<Exfiltration>,
                           ps: seq<PortScan>, ds: seq<DnsTunnel>, now: real): seq<Threat>
  {
    BeaconThreats(bs) + LongConnectionThreats(cs) + ExfiltrationThreats(es, now)
      + PortScanThreats(ps, now) + DnsThreats(ds, now)
  }

  function ScoreRank(t: Threat): Rank { ByReal(t.score as real) }

  /** What `_compile_threat_summary` returns. */
  function ThreatSummary(bs: seq<Beacon>, cs: seq<LongConnection>, es: seq<Exfiltration>,
                         ps: seq<PortScan>, ds: seq<DnsTunnel>, now: real): seq<Threat>
  {
    SortDesc(UnsortedThreats(bs, cs, es, ps, ds, now), ScoreRank)
  }

  method CompileThreatSummary(bs: seq<Beacon>, cs: seq<LongConnection>, es: seq<Exfiltration>,
                              ps: seq<PortScan>, ds: seq<DnsTunnel>, now: real) returns (threats: seq<Threat>)
    ensures threats == ThreatSummary(bs, cs, es, ps, ds, now)
  {
    var fromBeacons := MapInOrder(bs, BeaconThreat);
    var fromLong := MapInOrder(cs, LongConnectionThreat);
    var fromExfiltration := MapInOrder(es, e => ExfiltrationThreat(e, now));
    var fromScans := MapInOrder(ps, p => PortScanThreat(p, now));
    var fromDns := MapInOrder(ds, d => DnsThreat(d, now));
    threats := SortDesc(fromBeacons + fromLong + fromExfiltration + fromScans + fromDns, ScoreRank);
  }

  /**
   * The threat list holds exactly the detector entries, sorted by score,
   * descending, and stably: entries of equal score keep detector order.
   */
  lemma ThreatSummaryOrdered(bs: seq<Beacon>, cs: seq<LongConnection>, es: seq<Exfiltration>,
                             ps: seq<PortScan>, ds: seq<DnsTunnel>, now: real, v: int)
    ensures var u := UnsortedThreats(bs, cs, es, ps, ds, now);
            var r := ThreatSummary(bs, cs, es, ps, ds, now);
            && multiset(r) == multiset(u)
            && |r| == |bs| + |cs| + |es| + |ps| + |ds|
            && (forall i, j :: 0 <= i < j < |r| ==> r[i].score >= r[j].score)
            && KeyedAs(r, ScoreRank, ByReal(v as real)) == KeyedAs(u, ScoreRank, ByReal(v as real))
  {
    var u := UnsortedThreats(bs, cs, es, ps, ds, now);
    SortDescSorted(u, ScoreRank);
    SortDescStable(u, ScoreRank, ByReal(v as real));
  }

  /** Which detector result an entry of the threat list was made from, by its kind. */
  ghost predicate FromDetectors(t: Threat, bs: seq<Beacon>, cs: seq<LongConnection>, es: seq<Exfiltration>,
                                ps: seq<PortScan>, ds: seq<DnsTunnel>, now: real)
  {
    && (t.kind == BeaconKind ==> exists b :: b in bs && t == BeaconThreat(b))
    && (t.kind == LongConnectionKind ==> exists c :: c in cs && t == LongConnectionThreat(c))
    && (t.kind == ExfiltrationKind ==> exists e :: e in es && t == ExfiltrationThreat(e, now))
    && (t.kind == PortScanKind ==> exists p :: p in ps && t == PortScanThreat(p, now))
    && (t.kind == DnsTunnelingKind ==> exists d :: d in ds && t == DnsThreat(d, now))
  }

  lemma BeaconThreatsOrigin(bs: seq<Beacon>)
    ensures forall t :: t in BeaconThreats(bs) ==> t.kind == BeaconKind && exists b :: b in bs && t == BeaconThreat(b)
  {
    MapSeqPointwise(bs, BeaconThreat);
    forall t | t in BeaconThreats(bs)
      ensures t.kind == BeaconKind && exists b :: b in bs && t == BeaconThreat(b)
    {
      var i :| 0 <= i < |bs| && BeaconThreats(bs)[i] == t;
      assert bs[i] in bs;
    }
  }

  lemma LongConnectionThreatsOrigin(cs: seq<LongConnection>)
    ensures forall t :: t in LongConnectionThreats(cs) ==>
              t.kind == LongConnectionKind && exists c :: c in cs && t == LongConnectionThreat(c)
  {
    MapSeqPointwise(cs, LongConnectionThreat);
    forall t | t in LongConnectionThreats(cs)
      ensures t.kind == LongConnectionKind && exists c :: c in cs && t == LongConnectionThreat(c)
    {
      var i :| 0 <= i < |cs| && LongConnectionThreats(cs)[i] == t;
      assert cs[i] in cs;
    }
  }

  lemma ExfiltrationThreatsOrigin(es: seq<Exfiltration>, now: real)
    ensures forall t :: t in ExfiltrationThreats(es, now) ==>
              t.kind == ExfiltrationKind && exists e :: e in es && t == ExfiltrationThreat(e, now)
  {
    MapSeqPointwise(es, e => ExfiltrationThreat(e, now));
    forall t | t in ExfiltrationThreats(es, now)
      ensures t.kind == ExfiltrationKind && exists e :: e in es && t == ExfiltrationThreat(e, now)
    {
      var i :| 0 <= i < |es| && ExfiltrationThreats(es, now)[i] == t;
      assert es[i] in es;
    }
  }

  lemma PortScanThreatsOrigin(ps: seq<PortScan>, now: real)
    ensures forall t :: t in PortScanThreats(ps, now) ==>
              t.kind == PortScanKind && exists p :: p in ps && t == PortScanThreat(p, now)
  {
    MapSeqPointwise(ps, p => PortScanThreat(p, now));
    forall t | t in PortScanThreats(ps, now)
      ensures t.kind == PortScanKind && exists p :: p in ps && t == PortScanThreat(p, now)
    {
      var i :| 0 <= i < |ps| && PortScanThreats(ps, now)[i] == t;
      assert ps[i] in ps;
    }
  }

  lemma DnsThreatsOrigin(ds: seq<DnsTunnel>, now: real)
    ensures forall t :: t in DnsThreats(ds, now) ==>
              t.kind == DnsTunnelingKind && exists d :: d in ds && t == DnsThreat(d, now)
  {
    MapSeqPointwise(ds, d => DnsThreat(d, now));
    forall t | t in DnsThreats(ds, now)
      ensures t.kind == DnsTunnelingKind && exists d :: d in ds && t == DnsThreat(d, now)
    {
      var i :| 0 <= i < |ds| && DnsThreats(ds, now)[i] == t;
      assert ds[i] in ds;
    }
  }

  /** Every entry of the threat list is the entry of one detector result of its own kind. */
  lemma ThreatOrigins(bs: seq<Beacon>, cs: seq<LongConnection>, es: seq<Exfiltration>,
                      ps: seq<PortScan>, ds: seq<DnsTunnel>, now: real)
    ensures forall t :: t in ThreatSummary(bs, cs, es, ps, ds, now) ==> FromDetectors(t, bs, cs, es, ps, ds, now)
  {
    var u := UnsortedThreats(bs, cs, es, ps, ds, now);
    var r := SortDesc(u, ScoreRank);
    forall t | t in r
      ensures FromDetectors(t, bs, cs, es, ps, ds, now)
    {
      assert t in multiset(r);
      UnsortedThreatOrigin(t, bs, cs, es, ps, ds, now);
    }
  }

  lemma UnsortedThreatOrigin(t: Threat, bs: seq<Beacon>, cs: seq<LongConnection>, es: seq<Exfiltration>,
                             ps: seq<PortScan>, ds: seq<DnsTunnel>, now: real)
    requires t in UnsortedThreats(bs, cs, es, ps, ds, now)
    ensures FromDetectors(t, bs, cs, es, ps, ds, now)
  {
    if t in BeaconThreats(bs) {
      BeaconThreatsOrigin(bs);
    } else if t in LongConnectionThreats(cs) {
      LongConnectionThreatsOrigin(cs);
    } else if t in ExfiltrationThreats(es, now) {
      ExfiltrationThreatsOrigin(es, now);
    } else if t in PortScanThreats(ps, now) {
      PortScanThreatsOrigin(ps, now);
    } else {
      DnsThreatsOrigin(ds, now);
    }
  }

  /** Confidences in [0, 1] give every entry of the threat list a score in [0, 100]. */
  lemma ThreatScoresBounded(bs: seq<Beacon>, cs: seq<LongConnection>, es: seq<Exfiltration>,
                            ps: seq<PortScan>, ds: seq<DnsTunnel>, now: real)
    requires forall b :: b in bs ==> 0.0 <= b.confidence <= 1.0
    requires forall c :: c in cs ==> 0.0 <= c.confidence <= 1.0
    requires forall e :: e in es ==> 0.0 <= e.confidence <= 1.0
    requires forall p :: p in ps ==> 0.0 <= p.confidence <= 1.0
    requires forall d :: d in ds ==> 0.0 <= d.confidence <= 1.0
    ensures forall t :: t in ThreatSummary(bs, cs, es, ps, ds, now) ==> 0 <= t.score <= 100 && t.score == t.confidence
  {
    ThreatOrigins(bs, cs, es, ps, ds, now);
    forall t | t in ThreatSummary(bs, cs, es, ps, ds, now)
      ensures 0 <= t.score <= 100 && t.score == t.confidence
    {
      assert FromDetectors(t, bs, cs, es, ps, ds, now);
    }
  }

  // ---------------------------------------------------------------- statistics

  datatype ThreatStats = ThreatStats(
    totalThreats: int, criticalThreats: int, highThreats: int, mediumThreats: int, lowThreats: int,
    beaconsDetected: int, longConnections: int, dnsTunneling: int, dataExfiltration: int, portScans: int,
    analysisTimeRange: string)

  /** The `all_threats` list of `_calculate_threat_stats`: (type, severity) per entry. */
  function AllThreats(bs: seq<Beacon>, cs: seq<LongConnection>, es: seq<Exfiltration>,
                      ps: seq<PortScan>, ds: seq<DnsTunnel>): seq<(ThreatKind, Severity)>
  {
    MapSeq(bs, (b: Beacon) => (BeaconKind, b.severity))
      + MapSeq(cs, (c: LongConnection) => (LongConnectionKind, c.severity))
      + MapSeq(es, (e: Exfiltration) => (ExfiltrationKind, e.severity))
      + MapSeq(ps, (p: PortScan) => (PortScanKind, p.severity))
      + MapSeq(ds, (d: DnsTunnel) => (DnsTunnelingKind, d.severity))
  }

  /** How many tallied threats are of tier `s`. */
  function TierCount(all: seq<(ThreatKind, Severity)>, s: Severity): nat
  {
    if all == [] then 0 else TierCount(all[..|all| - 1], s) + (if all[|all| - 1].1 == s then 1 else 0)
  }

  lemma {:induction false} TierCountsPartition(all: seq<(ThreatKind, Severity)>)
    ensures TierCount(all, Critical) + TierCount(all, High) + TierCount(all, Medium) + TierCount(all, Low) == |all|
  {
    if all != [] {
      TierCountsPartition(all[..|all| - 1]);
    }
  }

  /** What `_calculate_threat_stats` returns. */
  function ThreatStatsOf(bs: seq<Beacon>, cs: seq<LongConnection>, es: seq<Exfiltration>,
                         ps: seq<PortScan>, ds: seq<DnsTunnel>): ThreatStats
  {
    var all := AllThreats(bs, cs, es, ps, ds);
    ThreatStats(|all|, TierCount(all, Critical), TierCount(all, High), TierCount(all, Medium), TierCount(all, Low),
                |bs|, |cs|, |ds|, |es|, |ps|, "Last 1440 minutes")
  }

  /** The `Counter` over the severities of the tallied threats. */
  method CountTiers(all: seq<(ThreatKind, Severity)>) returns (critical: nat, high: nat, medium: nat, low: nat)
    ensures critical == TierCount(all, Critical) && high == TierCount(all, High)
    ensures medium == TierCount(all, Medium) && low == TierCount(all, Low)
  {
    critical, high, medium, low := 0, 0, 0, 0;
    for i := 0 to |all|
      invariant critical == TierCount(all[..i], Critical) && high == TierCount(all[..i], High)
      invariant medium == TierCount(all[..i], Medium) && low == TierCount(all[..i], Low)
    {
      assert all[..i + 1][..i] == all[..i];
      match all[i].1
      case Critical => critical := critical + 1;
      case High => high := high + 1;
      case Medium => medium := medium + 1;
      case Low => low := low + 1;
    }
    assert all[..|all|] == all;
  }

  method CalculateThreatStats(bs: seq<Beacon>, cs: seq<LongConnection>, es: seq<Exfiltration>,
                              ps: seq<PortScan>, ds: seq<DnsTunnel>) returns (stats: ThreatStats)
    ensures stats == ThreatStatsOf(bs, cs, es, ps, ds)
  {
    var fromBeacons := MapInOrder(bs, (b: Beacon) => (BeaconKind, b.severity));
    var fromLong := MapInOrder(cs, (c: LongConnection) => (LongConnectionKind, c.severity));
    var fromExfiltration := MapInOrder(es, (e: Exfiltration) => (ExfiltrationKind, e.severity));
    var fromScans := MapInOrder(ps, (p: PortScan) => (PortScanKind, p.severity));
    var fromDns := MapInOrder(ds, (d: DnsTunnel) => (DnsTunnelingKind, d.severity));
    var all := fromBeacons + fromLong + fromExfiltration + fromScans + fromDns;
    var critical, high, medium, low := CountTiers(all);
    stats := ThreatStats(|all|, critical, high, medium, low, |bs|, |cs|, |ds|, |es|, |ps|, "Last 1440 minutes");
  }

  /**
   * `total_threats` is the sum of the five list lengths, the sum of the four
   * tier counts and the length of the threat list.
   */
  lemma ThreatStatsTotals(bs: seq<Beacon>, cs: seq<LongConnection>, es: seq<Exfiltration>,
                          ps: seq<PortScan>, ds: seq<DnsTunnel>, now: real)
    ensures var st := ThreatStatsOf(bs, cs, es, ps, ds);
            && st.totalThreats == st.beaconsDetected + st.longConnections + st.dataExfiltration + st.portScans + st.dnsTunneling
            && st.totalThreats == st.criticalThreats + st.highThreats + st.mediumThreats + st.lowThreats
            && st.totalThreats == |ThreatSummary(bs, cs, es, ps, ds, now)|
            && st.analysisTimeRange == "Last 1440 minutes"
  {
    TierCountsPartition(AllThreats(bs, cs, es, ps, ds));
    assert |multiset(ThreatSummary(bs, cs, es, ps, ds, now))| == |multiset(UnsortedThreats(bs, cs, es, ps, ds, now))|;
  }

  // ---------------------------------------------------------------- the pipeline

  datatype AnalysisDetails = AnalysisDetails(
    beacons: int, longConnections: int, dataExfiltration: int, portScans: int, suspiciousDns: int,
    totalFlowsAnalyzed: int, timePeriodMinutes: int)

  datatype VcnAnalysis =
    | AnalysisFailed(error: string)
    | AnalysisResult(stats: ThreatStats, threats: seq<Threat>, processingInfo: string, details: AnalysisDetails)

  /** The `head` limit of the flow query: `min(50000, max(1000, minutes * 30))`. */
  function MaxRecords(timePeriodMinutes: int): (r: int)
    ensures 1000 <= r <= 50000
    ensures 1000 <= timePeriodMinutes * 30 <= 50000 ==> r == timePeriodMinutes * 30
  {
    var scaled := if timePeriodMinutes * 30 > 1000 then timePeriodMinutes * 30 else 1000;
    if scaled < 50000 then scaled else 50000
  }

  /** `str(e)` of the `AttributeError` a null action raises. */
  const NULL_ACTION_ERROR := "'NoneType' object has no attribute 'upper'"

  /** `str(e)` of the `TypeError` comparing an aware with a naive datetime. */
  const MIXED_TIMES_ERROR := "can't compare offset-naive and offset-aware datetimes"

  /**
   * What `analyze_vcn_flows` returns for the rows the query produced (an
   * empty list also stands for a failed query). A null action, or a
   * detector comparing aware with naive timestamps, raises and fails the
   * whole analysis.
   */
  function Analysis(rows: seq<FlowRow>, timePeriodMinutes: int, now: real): VcnAnalysis
  {
    if rows == [] then AnalysisFailed("No VCN flow data found")
    else
      var records := ParsedRecords(rows, now);
      if NullAction(records) then AnalysisFailed(NULL_ACTION_ERROR)
      else if TimesClash(records) then AnalysisFailed(MIXED_TIMES_ERROR)
      else
        var bs, cs, es := Beacons(records), LongConnections(records), Exfiltrations(records);
        var ps, ds := PortScans(records), DnsTunnels(records);
        AnalysisResult(ThreatStatsOf(bs, cs, es, ps, ds), ThreatSummary(bs, cs, es, ps, ds, now),
                       "Processing " + NatToString(|rows|) + " flow records",
                       AnalysisDetails(|bs|, |cs|, |es|, |ps|, |ds|, |records|, timePeriodMinutes))
  }

  method AnalyzeVcnFlows(rows: seq<FlowRow>, timePeriodMinutes: int, now: real) returns (result: VcnAnalysis)
    ensures result == Analysis(rows, timePeriodMinutes, now)
    ensures rows == [] <==> result == AnalysisFailed("No VCN flow data found")
  {
    if rows == [] {
      return AnalysisFailed("No VCN flow data found");
    }
    var processingInfo := "Processing " + NatToString(|rows|) + " flow records";
    var records := ParseFlowRecords(rows, now);
    if NullAction(records) {
      return AnalysisFailed(NULL_ACTION_ERROR);
    }
    if TimesClash(records) {
      return AnalysisFailed(MIXED_TIMES_ERROR);
    }
    var bs := DetectBeacons(records);
    var cs := DetectLongConnections(records);
    var es := DetectDataExfiltration(records);
    var ps := DetectPortScanning(records);
    var ds := DetectSuspiciousDns(records);
    var stats := CalculateThreatStats(bs, cs, es, ps, ds);
    var threats := CompileThreatSummary(bs, cs, es, ps, ds, now);
    result := AnalysisResult(stats, threats, processingInfo,
                             AnalysisDetails(|bs|, |cs|, |es|, |ps|, |ds|, |records|, timePeriodMinutes));
  }

  /**
   * The exfiltration detector can never fire on fetched data: at most
   * 50 000 rows, each parsed as 1024 bytes, stay below the 100 MiB floor,
   * so no `data_exfiltration` entry, count or statistic is ever produced.
   */
  lemma NoExfiltrationOnFetchedData(rows: seq<FlowRow>, timePeriodMinutes: int, now: real)
    requires |rows| <= MaxRecords(timePeriodMinutes)
    ensures var a := Analysis(rows, timePeriodMinutes, now);
            a.AnalysisResult? ==>
              && a.details.dataExfiltration == 0 && a.stats.dataExfiltration == 0
              && forall t :: t in a.threats ==> t.kind != ExfiltrationKind
  {
    if rows != [] {
      var records := ParsedRecords(rows, now);
      ParsedRecordsShape(rows, now);
      NoExfiltrationBelowFloor(records);
      var bs, cs, ps, ds := Beacons(records), LongConnections(records), PortScans(records), DnsTunnels(records);
      ThreatOrigins(bs, cs, [], ps, ds, now);
    }
  }

  /** Every entry of an analysis has a score in [0, 100] equal to its confidence field. */
  lemma ThreatScoresInRange(rows: seq<FlowRow>, timePeriodMinutes: int, now: real)
    ensures var a := Analysis(rows, timePeriodMinutes, now);
            a.AnalysisResult? ==> forall t :: t in a.threats ==> 0 <= t.score <= 100 && t.score == t.confidence
  {
    if rows != [] {
      RecordThreatScores(ParsedRecords(rows, now), now);
    }
  }

  /** The threat list of the five detectors over some records. */
  function RecordThreats(records: seq<FlowRecord>, now: real): seq<Threat>
  {
    ThreatSummary(Beacons(records), LongConnections(records), Exfiltrations(records),
                  PortScans(records), DnsTunnels(records), now)
  }

  lemma RecordThreatScores(records: seq<FlowRecord>, now: real)
    ensures forall t :: t in RecordThreats(records, now) ==> 0 <= t.score <= 100 && t.score == t.confidence
  {
    BeaconsProperties(records);
    LongConnectionsProperties(records);
    ExfiltrationsProperties(records);
    PortScansProperties(records);
    DnsTunnelsProperties(records);
    ThreatScoresBounded(Beacons(records), LongConnections(records), Exfiltrations(records),
                        PortScans(records), DnsTunnels(records), now);
  }

  /** A row that parses with a null action fails the whole analysis with the `AttributeError`. */
  lemma NullActionFails(rows: seq<FlowRow>, timePeriodMinutes: int, now: real, i: int)
    requires 0 <= i < |rows| && ParseFlow(rows[i], now).Some? && rows[i].action == Some(ActionNull)
    ensures Analysis(rows, timePeriodMinutes, now) == AnalysisFailed(NULL_ACTION_ERROR)
  {
    ParsedRecordsContains(rows, i, now);
    var records := ParsedRecords(rows, now);
    var k :| 0 <= k < |records| && records[k] == ParseFlow(rows[i], now).value;
    assert records[k].action.None?;
  }

  /**
   * The analysis fails only for no rows, a null action or a clash of
   * aware and naive timestamps; rows whose timestamps are all naive (epoch
   * numbers, ISO texts without offset, or the current instant) and that
   * carry no null action always give a result.
   */
  lemma AnalysisFailures(rows: seq<FlowRow>, timePeriodMinutes: int, now: real)
    ensures var records := ParsedRecords(rows, now);
            Analysis(rows, timePeriodMinutes, now).AnalysisFailed? <==> rows == [] || NullAction(records) || TimesClash(records)
    ensures (forall i :: 0 <= i < |rows| ==> !TimeAware(TimeField(rows[i])) && rows[i].action != Some(ActionNull)) ==>
              (Analysis(rows, timePeriodMinutes, now).AnalysisResult? <==> rows != [])
  {
    var records := ParsedRecords(rows, now);
    if forall i :: 0 <= i < |rows| ==> !TimeAware(TimeField(rows[i])) && rows[i].action != Some(ActionNull) {
      ParsedRecordsNaive(rows, now);
      UniformTimesNeverClash(records, false);
      if NullAction(records) {
        var k :| 0 <= k < |records| && records[k].action.None?;
        ParsedRecordsActions(rows, now, k);
      }
    }
  }
}
