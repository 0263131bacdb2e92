/**
 * The scoring step of the VCN flow analyzer (scripts/vcn_analyzer.py):
 * weighted confidences and severity ladders of the five detectors, and the
 * port classification they share.
 */
module VcnScoring {

  datatype Severity = Low | Medium | High | Critical
  {
    /** Position on the ladder, for comparing tiers. */
    function Level(): nat
    {
      match this
      case Low => 0
      case Medium => 1
      case High => 2
      case Critical => 3
    }

    function Name(): string
    {
      match this
      case Low => "low"
      case Medium => "medium"
      case High => "high"
      case Critical => "critical"
    }
  }

  const COMMON_PORTS: set<int> := {80, 443, 53, 22, 21, 25, 110, 143, 993, 995}

  /**
   * Membership in `SUSPICIOUS_PORTS = set(range(1024, 65536)) - COMMON_PORTS`,
   * stated as the range test it amounts to: every common port lies below
   * 1024, so the subtraction removes nothing (SuspiciousPortsAsDefined).
   */
  predicate IsSuspiciousPort(p: int)
  {
    1024 <= p < 65536
  }

  /** The range test agrees with the set difference as the analyzer writes it; 23 or 445 are not suspicious. */
  lemma SuspiciousPortsAsDefined(p: int)
    ensures IsSuspiciousPort(p) <==> 1024 <= p < 65536 && p !in COMMON_PORTS
  {
  }

  function Smaller(a: real, b: real): real
  {
    if a <= b then a else b
  }

  // ---------------------------------------------------------------- beacons

  /** Preference for intervals between one minute and one hour. */
  function IntervalScore(avgInterval: real): (r: real)
    ensures 0.1 <= r <= 1.0
    ensures 60.0 <= avgInterval <= 3600.0 <==> r == 1.0
  {
    if 60.0 <= avgInterval <= 3600.0 then 1.0
    else if (30.0 <= avgInterval < 60.0) || (3600.0 < avgInterval <= 7200.0) then 0.7
    else if avgInterval < 30.0 then 0.3
    else 0.1
  }

  function BeaconConfidence(connectionCount: int, consistency: real, avgInterval: real, destPort: int): real
  {
    var countScore := Smaller(1.0, connectionCount as real / 100.0);
    var portScore := if IsSuspiciousPort(destPort) then 0.8 else 0.3;
    Smaller(1.0, countScore * 0.3 + consistency * 0.4 + IntervalScore(avgInterval) * 0.2 + portScore * 0.1)
  }

  /** With a non-negative count and a consistency in [0, 1] the confidence lies in (0, 1]. */
  lemma BeaconConfidenceRange(connectionCount: int, consistency: real, avgInterval: real, destPort: int)
    requires connectionCount >= 0 && 0.0 <= consistency <= 1.0
    ensures 0.0 < BeaconConfidence(connectionCount, consistency, avgInterval, destPort) <= 1.0
  {
  }

  function BeaconSeverity(confidence: real, connectionCount: int, destPort: int): Severity
  {
    if confidence > 0.8 && connectionCount > 50 then Critical
    else if confidence > 0.6 && (connectionCount > 25 || IsSuspiciousPort(destPort)) then High
    else if confidence > 0.4 then Medium
    else Low
  }

  /** Raising the confidence never lowers the beacon tier. */
  lemma BeaconSeverityMonotone(c1: real, c2: real, connectionCount: int, destPort: int)
    requires c1 <= c2
    ensures BeaconSeverity(c1, connectionCount, destPort).Level() <= BeaconSeverity(c2, connectionCount, destPort).Level()
  {
  }

  // ---------------------------------------------------------------- long connections

  const GIB: int := 1024 * 1024 * 1024

  function LongConnectionConfidence(duration: real, bytesTransferred: int, destPort: int): real
  {
    var durationScore := Smaller(1.0, duration / 3600.0 / 24.0);
    var bytesScore := Smaller(1.0, bytesTransferred as real / GIB as real);
    var portScore := if IsSuspiciousPort(destPort) then 0.8 else 0.4;
    Smaller(1.0, durationScore * 0.5 + bytesScore * 0.3 + portScore * 0.2)
  }

  /** Non-negative inputs give a confidence in [0.08, 1]. */
  lemma LongConnectionConfidenceRange(duration: real, bytesTransferred: int, destPort: int)
    requires duration >= 0.0 && bytesTransferred >= 0
    ensures 0.08 <= LongConnectionConfidence(duration, bytesTransferred, destPort) <= 1.0
  {
    var d := duration / 3600.0 / 24.0;
    assert d * 86400.0 == duration;
    var b := bytesTransferred as real / GIB as real;
    assert b * GIB as real == bytesTransferred as real;
    assert 0.0 <= Smaller(1.0, d) && 0.0 <= Smaller(1.0, b);
  }

  function LongConnectionSeverity(confidence: real, duration: real): Severity
  {
    var hours := duration / 3600.0;
    if confidence > 0.8 && hours > 12.0 then Critical
    else if confidence > 0.6 && hours > 6.0 then High
    else if confidence > 0.4 then Medium
    else Low
  }

  lemma LongConnectionSeverityMonotone(c1: real, c2: real, duration: real)
    requires c1 <= c2
    ensures LongConnectionSeverity(c1, duration).Level() <= LongConnectionSeverity(c2, duration).Level()
  {
  }

  /** A long connection that passes the 0.4 filter is never `low`. */
  lemma LongConnectionReportedNotLow(confidence: real, duration: real)
    requires confidence > 0.4
    ensures LongConnectionSeverity(confidence, duration) != Low
  {
  }

  // ---------------------------------------------------------------- exfiltration

  const MIB: int := 1024 * 1024

  function ExfiltrationConfidence(bytesOut: int, ratio: real, destCount: int, bytesPerHour: real): real
  {
    var bytesScore := Smaller(1.0, bytesOut as real / GIB as real);
    var ratioScore := Smaller(1.0, ratio / 50.0);
    var destScore := Smaller(1.0, destCount as real / 10.0);
    var rateScore := Smaller(1.0, bytesPerHour / (100 * MIB) as real);
    Smaller(1.0, bytesScore * 0.3 + ratioScore * 0.3 + destScore * 0.2 + rateScore * 0.2)
  }

  lemma ExfiltrationConfidenceRange(bytesOut: int, ratio: real, destCount: int, bytesPerHour: real)
    requires bytesOut >= 0 && ratio >= 0.0 && destCount >= 0 && bytesPerHour >= 0.0
    ensures 0.0 <= ExfiltrationConfidence(bytesOut, ratio, destCount, bytesPerHour) <= 1.0
  {
  }

  function ExfiltrationSeverity(confidence: real, bytesOut: int): Severity
  {
    var gb := bytesOut as real / GIB as real;
    if confidence > 0.8 && gb > 5.0 then Critical
    else if confidence > 0.6 && gb > 1.0 then High
    else if confidence > 0.4 then Medium
    else Low
  }

  lemma ExfiltrationSeverityMonotone(c1: real, c2: real, bytesOut: int)
    requires c1 <= c2
    ensures ExfiltrationSeverity(c1, bytesOut).Level() <= ExfiltrationSeverity(c2, bytesOut).Level()
  {
  }

  /** An exfiltration event that passes the 0.5 filter is never `low`. */
  lemma ExfiltrationReportedNotLow(confidence: real, bytesOut: int)
    requires confidence > 0.5
    ensures ExfiltrationSeverity(confidence, bytesOut) != Low
  {
  }

  // ---------------------------------------------------------------- port scans and DNS

  /** `min(0.9, len(ports) / 100 + suspicious_ratio * 0.5)`. */
  function PortScanConfidence(portCount: int, suspiciousCount: int): (r: real)
    requires portCount > 0
    ensures r <= 0.9
    ensures 0 <= suspiciousCount <= portCount ==> r >= Smaller(0.9, portCount as real / 100.0)
    ensures suspiciousCount >= 0 ==> r > 0.0
  {
    var ratio := suspiciousCount as real / portCount as real;
    assert suspiciousCount >= 0 ==> ratio >= 0.0 by {
      assert ratio * portCount as real == suspiciousCount as real;
    }
    Smaller(0.9, portCount as real / 100.0 + ratio * 0.5)
  }

  function PortScanSeverity(confidence: real): (r: Severity)
    ensures r != Critical
  {
    if confidence > 0.7 then High else if confidence > 0.5 then Medium else Low
  }

  lemma PortScanSeverityMonotone(c1: real, c2: real)
    requires c1 <= c2
    ensures PortScanSeverity(c1).Level() <= PortScanSeverity(c2).Level()
  {
  }

  function DnsConfidence(queryRate: real): (r: real)
    ensures r <= 0.9
    ensures queryRate > 1000.0 ==> r > 0.2
  {
    Smaller(0.9, queryRate / 5000.0)
  }

  /** `high` above 0.7, otherwise `medium`: DNS tunnelling is never `low` or `critical`. */
  function DnsSeverity(confidence: real): (r: Severity)
    ensures r == High || r == Medium
    ensures r == High <==> confidence > 0.7
  {
    if confidence > 0.7 then High else Medium
  }
}
