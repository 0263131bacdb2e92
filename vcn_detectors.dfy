/**
 * The five detectors of the VCN flow analyzer (scripts/vcn_analyzer.py).
 * Each detector is a specification function over the parsed records and a
 * method with the source's loops proved equal to it; lemmas state the
 * thresholds and orderings the detectors promise.
 */
module VcnDetectors {
  import opened Common
  import opened VcnRecords
  import opened VcnScoring

  // ---------------------------------------------------------------- keys and selectors

  datatype FlowTuple = FlowTuple(src: string, dst: string, port: int)

  function TupleOf(f: FlowRecord): FlowTuple { FlowTuple(f.sourceIp, f.destIp, f.destPort) }
  function SourceOf(f: FlowRecord): string { f.sourceIp }
  function DestOf(f: FlowRecord): string { f.destIp }
  function TimestampOf(f: FlowRecord): real { f.timestamp }
  function BytesOf(f: FlowRecord): int { f.bytesSent }
  function PacketsOf(f: FlowRecord): int { f.packetsSent }
  function DurationOf(f: FlowRecord): real { f.duration }

  /**
   * `flow.action.upper() == 'ACCEPT'`. A null action makes `upper()`
   * raise; the analysis fails before any detector result is used
   * (NullActionFails), so here it simply does not match.
   */
  predicate IsAccepted(f: FlowRecord) { f.action.Some? && Upper(f.action.value) == "ACCEPT" }

  /** `flow.action.upper() in ['REJECT', 'DROP']`. */
  predicate IsRejected(f: FlowRecord) { f.action.Some? && (Upper(f.action.value) == "REJECT" || Upper(f.action.value) == "DROP") }

  predicate HasDuration(f: FlowRecord) { f.duration > 0.0 }
  predicate IsOutbound(f: FlowRecord) { f.isInternalSrc && !f.isInternalDst }
  predicate IsInbound(f: FlowRecord) { !f.isInternalSrc && f.isInternalDst }
  predicate IsDns(f: FlowRecord) { f.destPort == 53 }

  function MaxReal2(a: real, b: real): real { if a >= b then a else b }

  lemma {:induction false} FilterAll<T>(s: seq<T>, p: T -> bool, q: T -> bool)
    requires forall i :: 0 <= i < |s| ==> q(s[i])
    ensures forall i :: 0 <= i < |Filter(s, p)| ==> q(Filter(s, p)[i])
  {
    if s != [] {
      FilterAll(s[..|s| - 1], p, q);
    }
  }

  lemma {:induction false} GroupOfAll<T, K>(s: seq<T>, key: T -> K, k: K, q: T -> bool)
    requires forall i :: 0 <= i < |s| ==> q(s[i])
    ensures forall i :: 0 <= i < |GroupOf(s, key, k)| ==> q(GroupOf(s, key, k)[i])
  {
    if s != [] {
      GroupOfAll(s[..|s| - 1], key, k, q);
    }
  }

  // ---------------------------------------------------------------- interval statistics

  function Total(xs: seq<real>): real
  {
    if xs == [] then 0.0 else Total(xs[..|xs| - 1]) + xs[|xs| - 1]
  }

  /** `statistics.mean`. */
  function Mean(xs: seq<real>): real
    requires |xs| > 0
  {
    Total(xs) / |xs| as real
  }

  function SquaredDeviations(xs: seq<real>, m: real): real
  {
    if xs == [] then 0.0
    else SquaredDeviations(xs[..|xs| - 1], m) + (xs[|xs| - 1] - m) * (xs[|xs| - 1] - m)
  }

  /** `statistics.variance`: the sample variance, divided by n - 1. */
  function SampleVariance(xs: seq<real>): real
    requires |xs| > 1
  {
    SquaredDeviations(xs, Mean(xs)) / (|xs| - 1) as real
  }

  lemma {:induction false} SquaredDeviationsNonNegative(xs: seq<real>, m: real)
    ensures SquaredDeviations(xs, m) >= 0.0
  {
    if xs != [] {
      SquaredDeviationsNonNegative(xs[..|xs| - 1], m);
      var d := xs[|xs| - 1] - m;
      assert d * d >= 0.0;
    }
  }

  lemma {:induction false} TotalNonNegative(xs: seq<real>)
    requires forall i :: 0 <= i < |xs| ==> xs[i] >= 0.0
    ensures Total(xs) >= 0.0
    ensures Total(xs) == 0.0 <==> forall i :: 0 <= i < |xs| ==> xs[i] == 0.0
  {
    if xs != [] {
      TotalNonNegative(xs[..|xs| - 1]);
      assert forall i :: 0 <= i < |xs| - 1 ==> xs[..|xs| - 1][i] == xs[i];
    }
  }

  /**
   * `1 / (1 + variance / mean**2)` (written with two divisions) when the mean interval is positive; the
   * infinite coefficient of variation otherwise gives 0.
   */
  function Consistency(mean: real, variance: real): real
    requires variance >= 0.0
  {
    if mean > 0.0 then
      QuotientNonNegative(variance, mean);
      QuotientNonNegative(variance / mean, mean);
      1.0 / (1.0 + variance / mean / mean)
    else 0.0
  }

  lemma SampleVarianceNonNegative(xs: seq<real>)
    requires |xs| > 1
    ensures SampleVariance(xs) >= 0.0
  {
    SquaredDeviationsNonNegative(xs, Mean(xs));
    QuotientNonNegative(SquaredDeviations(xs, Mean(xs)), (|xs| - 1) as real);
  }

  lemma ConsistencyRange(mean: real, variance: real)
    requires mean > 0.0 && variance >= 0.0
    ensures 0.0 < Consistency(mean, variance) <= 1.0
  {
    QuotientNonNegative(variance, mean);
    QuotientNonNegative(variance / mean, mean);
  }

  /** Successive differences of the timestamps. */
  function Intervals(g: seq<FlowRecord>): (r: seq<real>)
    ensures |r| == if |g| == 0 then 0 else |g| - 1
  {
    if |g| < 2 then []
    else Intervals(g[..|g| - 1]) + [g[|g| - 1].timestamp - g[|g| - 2].timestamp]
  }

  lemma {:induction false} IntervalsShape(g: seq<FlowRecord>)
    ensures |Intervals(g)| == if |g| == 0 then 0 else |g| - 1
    ensures forall i :: 0 <= i < |Intervals(g)| ==> Intervals(g)[i] == g[i + 1].timestamp - g[i].timestamp
  {
    if |g| >= 2 {
      IntervalsShape(g[..|g| - 1]);
    }
  }

  /** The interval loop of `_detect_beacons`. */
  method ComputeIntervals(g: seq<FlowRecord>) returns (intervals: seq<real>)
    ensures intervals == Intervals(g)
  {
    intervals := [];
    if |g| < 2 {
      return;
    }
    var i := 1;
    while i < |g|
      invariant 1 <= i <= |g|
      invariant intervals == Intervals(g[..i])
    {
      assert g[..i + 1][..i] == g[..i];
      intervals := intervals + [g[i].timestamp - g[i - 1].timestamp];
      i := i + 1;
    }
    assert g[..i] == g;
  }

  /**
   * Time-sorted flows give non-negative intervals and a non-negative mean,
   * which is 0 exactly when every interval is 0.
   */
  lemma SortedIntervals(g: seq<FlowRecord>)
    requires forall i, j :: 0 <= i < j < |g| ==> g[i].timestamp <= g[j].timestamp
    requires |g| >= 2
    ensures forall i :: 0 <= i < |Intervals(g)| ==> Intervals(g)[i] >= 0.0
    ensures Mean(Intervals(g)) >= 0.0
    ensures Mean(Intervals(g)) == 0.0 <==> forall i :: 0 <= i < |Intervals(g)| ==> Intervals(g)[i] == 0.0
  {
    IntervalsShape(g);
    var iv := Intervals(g);
    assert forall i :: 0 <= i < |iv| ==> iv[i] >= 0.0 by {
      forall i | 0 <= i < |iv| ensures iv[i] >= 0.0 {
        assert g[i].timestamp <= g[i + 1].timestamp;
      }
    }
    TotalNonNegative(iv);
    QuotientNonNegative(Total(iv), |iv| as real);
    QuotientZero(Total(iv), |iv| as real);
  }

  // ---------------------------------------------------------------- beacons

  datatype Beacon = Beacon(
    sourceIp: string, destIp: string, destPort: int,
    connectionCount: int, totalBytes: int, avgBytesPerConnection: real,
    timeIntervals: seq<real>, avgInterval: real, intervalVariance: real, consistencyScore: real,
    firstSeen: real, lastSeen: real, durationHours: real,
    confidence: real, severity: Severity)

  const BEACON_MIN_CONNECTIONS := 10

  /** The candidate for one time-sorted group with its intervals. */
  function MakeBeacon(k: FlowTuple, g: seq<FlowRecord>, intervals: seq<real>): Beacon
    requires |g| > 0 && |intervals| > 0
  {
    var avgInterval := Mean(intervals);
    var variance := IntervalVariance(intervals);
    var consistency := Consistency(avgInterval, variance);
    var totalBytes := SumInt(g, BytesOf);
    var confidence := BeaconConfidence(|g|, consistency, avgInterval, k.port);
    Beacon(k.src, k.dst, k.port, |g|, totalBytes, totalBytes as real / |g| as real,
           intervals, avgInterval, variance, consistency,
           g[0].timestamp, g[|g| - 1].timestamp, (g[|g| - 1].timestamp - g[0].timestamp) / 3600.0,
           confidence, BeaconSeverity(confidence, |g|, k.port))
  }

  /** The candidate for one group: sort by time, then measure. */
  function BeaconFor(k: FlowTuple, group: seq<FlowRecord>): Beacon
    requires |group| >= 2
  {
    var g := SortAsc(group, TimestampOf);
    assert |g| == |multiset(g)| == |group|;
    MakeBeacon(k, g, Intervals(g))
  }

  lemma MakeBeaconFields(k: FlowTuple, g: seq<FlowRecord>, iv: seq<real>)
    requires |g| > 0 && |iv| > 0
    ensures var b := MakeBeacon(k, g, iv);
            && FlowTuple(b.sourceIp, b.destIp, b.destPort) == k && b.connectionCount == |g|
            && b.avgInterval == Mean(iv) && b.consistencyScore == Consistency(Mean(iv), IntervalVariance(iv))
            && b.confidence <= 1.0
  {
  }

  /** `statistics.variance(intervals) if len(intervals) > 1 else 0`. */
  function IntervalVariance(intervals: seq<real>): (r: real)
    ensures r >= 0.0
  {
    if |intervals| > 1 then
      SampleVarianceNonNegative(intervals);
      SampleVariance(intervals)
    else 0.0
  }

  /**
   * Non-negative intervals give a consistency in [0, 1], and all-zero
   * intervals give 0.
   */
  lemma IntervalConsistency(iv: seq<real>)
    requires |iv| > 0
    requires forall i :: 0 <= i < |iv| ==> iv[i] >= 0.0
    ensures 0.0 <= Consistency(Mean(iv), IntervalVariance(iv)) <= 1.0
    ensures (forall i :: 0 <= i < |iv| ==> iv[i] == 0.0) ==> Consistency(Mean(iv), IntervalVariance(iv)) == 0.0
  {
    TotalNonNegative(iv);
    if Mean(iv) > 0.0 {
      ConsistencyRange(Mean(iv), IntervalVariance(iv));
    }
  }

  /**
   * The consistency score of a group lies in [0, 1]; it is 0 when all flows
   * of the group share one timestamp (every interval 0, so the mean is 0
   * and the coefficient of variation infinite).
   */
  lemma BeaconConsistency(k: FlowTuple, group: seq<FlowRecord>)
    requires |group| >= 2
    ensures 0.0 <= BeaconFor(k, group).consistencyScore <= 1.0
    ensures BeaconFor(k, group).avgInterval >= 0.0
    ensures (forall i :: 0 <= i < |group| ==> group[i].timestamp == group[0].timestamp) ==>
              BeaconFor(k, group).consistencyScore == 0.0
  {
    var g := SortAsc(group, TimestampOf);
    assert |g| == |multiset(g)| == |group|;
    var iv := Intervals(g);
    assert BeaconFor(k, group) == MakeBeacon(k, g, iv);
    SortAscSorted(group, TimestampOf);
    SortedIntervals(g);
    IntervalConsistency(iv);
    MakeBeaconFields(k, g, iv);
    if forall i :: 0 <= i < |group| ==> group[i].timestamp == group[0].timestamp {
      SameTimeIntervals(group, g);
    }
  }

  /** A reordering of flows that share one timestamp has only zero intervals. */
  lemma SameTimeIntervals(group: seq<FlowRecord>, g: seq<FlowRecord>)
    requires |group| > 0 && multiset(g) == multiset(group)
    requires forall i :: 0 <= i < |group| ==> group[i].timestamp == group[0].timestamp
    ensures forall i :: 0 <= i < |Intervals(g)| ==> Intervals(g)[i] == 0.0
  {
    forall i | 0 <= i < |g|
      ensures g[i].timestamp == group[0].timestamp
    {
      assert g[i] in multiset(group);
    }
    IntervalsShape(g);
    forall i | 0 <= i < |Intervals(g)|
      ensures Intervals(g)[i] == 0.0
    {
      assert Intervals(g)[i] == g[i + 1].timestamp - g[i].timestamp;
    }
  }

  /** The beacon of one group, if the group is large and regular enough. */
  function BeaconsOfGroup(k: FlowTuple, g: seq<FlowRecord>): seq<Beacon>
  {
    if |g| < BEACON_MIN_CONNECTIONS then []
    else
      var b := BeaconFor(k, g);
      if b.confidence > 0.3 then [b] else []
  }

  /** Beacons of the groups `keys`, in key order, before the final sort. */
  function CollectBeacons(accepted: seq<FlowRecord>, keys: seq<FlowTuple>): seq<Beacon>
  {
    FlatMapGroups(accepted, TupleOf, keys, BeaconsOfGroup)
  }

  function BeaconRank(b: Beacon): Rank { ByReal(b.confidence) }

  /** What `_detect_beacons` returns. */
  function Beacons(flows: seq<FlowRecord>): seq<Beacon>
  {
    var accepted := Filter(flows, IsAccepted);
    SortDesc(CollectBeacons(accepted, KeysOf(accepted, TupleOf)), BeaconRank)
  }

  /** The body of the per-group loop of `_detect_beacons`. */
  method BeaconCandidate(k: FlowTuple, group: seq<FlowRecord>) returns (r: seq<Beacon>)
    ensures r == BeaconsOfGroup(k, group)
  {
    r := [];
    if |group| >= BEACON_MIN_CONNECTIONS {
      var g := SortAsc(group, TimestampOf);
      SortAscSorted(group, TimestampOf);
      var intervals := ComputeIntervals(g);
      IntervalsShape(g);
      var b := MakeBeacon(k, g, intervals);
      if b.confidence > 0.3 {
        r := [b];
      }
    }
  }

  /** The per-group loop of `_detect_beacons`, over the groups in insertion order. */
  method BeaconLoop(ghost accepted: seq<FlowRecord>, keys: seq<FlowTuple>, groups: map<FlowTuple, seq<FlowRecord>>)
    returns (beacons: seq<Beacon>)
    requires forall i :: 0 <= i < |keys| ==> keys[i] in groups && groups[keys[i]] == GroupOf(accepted, TupleOf, keys[i])
    ensures beacons == CollectBeacons(accepted, keys)
  {
    beacons := [];
    var j := 0;
    while j < |keys|
      invariant 0 <= j <= |keys|
      invariant beacons == CollectBeacons(accepted, keys[..j])
    {
      var found := BeaconCandidate(keys[j], groups[keys[j]]);
      FlatMapGroupsAppend(accepted, TupleOf, keys, BeaconsOfGroup, groups, j, beacons, found);
      beacons := beacons + found;
      j := j + 1;
    }
    assert keys[..j] == keys;
  }

  method DetectBeacons(flows: seq<FlowRecord>) returns (beacons: seq<Beacon>)
    ensures beacons == Beacons(flows)
  {
    var keys, groups := GroupWhere(flows, IsAccepted, TupleOf);
    beacons := BeaconLoop(Filter(flows, IsAccepted), keys, groups);
    beacons := SortDesc(beacons, BeaconRank);
  }

  /**
   * Every collected beacon comes from a group of at least ten accepted flows
   * with its tuple, counts that group, and has confidence in (0.3, 1].
   */
  lemma BeaconsOfGroupProperties(k: FlowTuple, g: seq<FlowRecord>)
    ensures forall b :: b in BeaconsOfGroup(k, g) ==>
              && FlowTuple(b.sourceIp, b.destIp, b.destPort) == k
              && b.connectionCount == |g| >= BEACON_MIN_CONNECTIONS
              && 0.3 < b.confidence <= 1.0
  {
    if |g| >= BEACON_MIN_CONNECTIONS {
      var s := SortAsc(g, TimestampOf);
      assert |s| == |multiset(s)| == |g|;
      MakeBeaconFields(k, s, Intervals(s));
    }
  }

  lemma {:induction false} CollectBeaconsProperties(accepted: seq<FlowRecord>, keys: seq<FlowTuple>)
    ensures forall i :: 0 <= i < |CollectBeacons(accepted, keys)| ==>
              var b := CollectBeacons(accepted, keys)[i];
              && b.connectionCount == |GroupOf(accepted, TupleOf, FlowTuple(b.sourceIp, b.destIp, b.destPort))|
              && b.connectionCount >= BEACON_MIN_CONNECTIONS
              && 0.3 < b.confidence <= 1.0
  {
    if keys != [] {
      var k := keys[|keys| - 1];
      var init := CollectBeacons(accepted, keys[..|keys| - 1]);
      var last := BeaconsOfGroup(k, GroupOf(accepted, TupleOf, k));
      assert CollectBeacons(accepted, keys) == init + last;
      CollectBeaconsProperties(accepted, keys[..|keys| - 1]);
      BeaconsOfGroupProperties(k, GroupOf(accepted, TupleOf, k));
      forall i | 0 <= i < |init + last|
        ensures (init + last)[i] in init || (init + last)[i] in last
      {
      }
    }
  }

  /**
   * `_detect_beacons`: a (src, dst, port) group with fewer than ten accepted
   * flows never yields a beacon; every beacon has confidence in (0.3, 1];
   * the list is sorted by confidence, descending, and stably.
   */
  lemma BeaconsProperties(flows: seq<FlowRecord>)
    ensures forall b :: b in Beacons(flows) ==>
              && |GroupOf(Filter(flows, IsAccepted), TupleOf, FlowTuple(b.sourceIp, b.destIp, b.destPort))|
                 == b.connectionCount >= BEACON_MIN_CONNECTIONS
              && 0.3 < b.confidence <= 1.0
    ensures SortedDesc(Beacons(flows), BeaconRank)
  {
    var accepted := Filter(flows, IsAccepted);
    var c := CollectBeacons(accepted, KeysOf(accepted, TupleOf));
    CollectBeaconsProperties(accepted, KeysOf(accepted, TupleOf));
    SortDescSorted(c, BeaconRank);
    forall b | b in Beacons(flows)
      ensures |GroupOf(accepted, TupleOf, FlowTuple(b.sourceIp, b.destIp, b.destPort))| == b.connectionCount
      ensures b.connectionCount >= BEACON_MIN_CONNECTIONS && 0.3 < b.confidence <= 1.0
    {
      assert b in multiset(Beacons(flows));
      assert b in c;
    }
  }

  // ---------------------------------------------------------------- long connections

  datatype LongConnection = LongConnection(
    sourceIp: string, destIp: string, destPort: int,
    totalDuration: real, totalBytes: int, totalPackets: int,
    startTime: real, endTime: real, avgBytesPerSecond: real,
    confidence: real, severity: Severity)

  const LONG_CONN_MIN_DURATION := 3600.0

  function LongConnectionFor(k: FlowTuple, g: seq<FlowRecord>): LongConnection
    requires |g| > 0
  {
    var totalDuration := SumReal(g, DurationOf);
    var totalBytes := SumInt(g, BytesOf);
    var confidence := LongConnectionConfidence(totalDuration, totalBytes, k.port);
    LongConnection(k.src, k.dst, k.port, totalDuration, totalBytes, SumInt(g, PacketsOf),
                   MinReal(g, TimestampOf), MaxReal(g, TimestampOf),
                   if totalDuration > 0.0 then totalBytes as real / totalDuration else 0.0,
                   confidence, LongConnectionSeverity(confidence, totalDuration))
  }

  /** The long connection of one group, if it lasted long enough in all. */
  function LongConnectionOfGroup(k: FlowTuple, g: seq<FlowRecord>): seq<LongConnection>
  {
    if g == [] || SumReal(g, DurationOf) < LONG_CONN_MIN_DURATION then []
    else
      var c := LongConnectionFor(k, g);
      if c.confidence > 0.4 then [c] else []
  }

  function CollectLongConnections(timed: seq<FlowRecord>, keys: seq<FlowTuple>): seq<LongConnection>
  {
    FlatMapGroups(timed, TupleOf, keys, LongConnectionOfGroup)
  }

  function LongRank(c: LongConnection): Rank { ByReal(c.confidence) }

  /** What `_detect_long_connections` returns. */
  function LongConnections(flows: seq<FlowRecord>): seq<LongConnection>
  {
    var timed := Filter(flows, HasDuration);
    SortDesc(CollectLongConnections(timed, KeysOf(timed, TupleOf)), LongRank)
  }

  /** The body of the per-group loop of `_detect_long_connections`. */
  method LongConnectionCandidate(k: FlowTuple, g: seq<FlowRecord>) returns (r: seq<LongConnection>)
    ensures r == LongConnectionOfGroup(k, g)
  {
    r := [];
    if g != [] && SumReal(g, DurationOf) >= LONG_CONN_MIN_DURATION {
      var c := LongConnectionFor(k, g);
      if c.confidence > 0.4 {
        r := [c];
      }
    }
  }

  /** The per-group loop of `_detect_long_connections`, over the groups in insertion order. */
  method LongConnectionLoop(ghost timed: seq<FlowRecord>, keys: seq<FlowTuple>, groups: map<FlowTuple, seq<FlowRecord>>)
    returns (result: seq<LongConnection>)
    requires forall i :: 0 <= i < |keys| ==> keys[i] in groups && groups[keys[i]] == GroupOf(timed, TupleOf, keys[i])
    ensures result == CollectLongConnections(timed, keys)
  {
    result := [];
    var j := 0;
    while j < |keys|
      invariant 0 <= j <= |keys|
      invariant result == CollectLongConnections(timed, keys[..j])
    {
      var found := LongConnectionCandidate(keys[j], groups[keys[j]]);
      FlatMapGroupsAppend(timed, TupleOf, keys, LongConnectionOfGroup, groups, j, result, found);
      result := result + found;
      j := j + 1;
    }
    assert keys[..j] == keys;
  }

  method DetectLongConnections(flows: seq<FlowRecord>) returns (result: seq<LongConnection>)
    ensures result == LongConnections(flows)
  {
    var keys, groups := GroupWhere(flows, HasDuration, TupleOf);
    result := LongConnectionLoop(Filter(flows, HasDuration), keys, groups);
    result := SortDesc(result, LongRank);
  }

  lemma {:induction false} CollectLongProperties(timed: seq<FlowRecord>, keys: seq<FlowTuple>)
    ensures forall i :: 0 <= i < |CollectLongConnections(timed, keys)| ==>
              var c := CollectLongConnections(timed, keys)[i];
              && c.totalDuration == SumReal(GroupOf(timed, TupleOf, FlowTuple(c.sourceIp, c.destIp, c.destPort)), DurationOf)
              && c.totalDuration >= LONG_CONN_MIN_DURATION
              && 0.4 < c.confidence <= 1.0
              && c.severity != Low
  {
    if keys != [] {
      var k := keys[|keys| - 1];
      var init := CollectLongConnections(timed, keys[..|keys| - 1]);
      var last := LongConnectionOfGroup(k, GroupOf(timed, TupleOf, k));
      assert CollectLongConnections(timed, keys) == init + last;
      CollectLongProperties(timed, keys[..|keys| - 1]);
      forall i | 0 <= i < |init + last|
        ensures (init + last)[i] in init || (init + last)[i] in last
      {
      }
    }
  }

  /**
   * `_detect_long_connections`: only flows with a positive duration are
   * grouped; a reported connection sums at least 3600 s over its group, has
   * confidence in (0.4, 1] and so is never `low`; sorted by confidence.
   */
  lemma LongConnectionsProperties(flows: seq<FlowRecord>)
    ensures forall c :: c in LongConnections(flows) ==>
              && c.totalDuration == SumReal(GroupOf(Filter(flows, HasDuration), TupleOf,
                                                    FlowTuple(c.sourceIp, c.destIp, c.destPort)), DurationOf)
              && c.totalDuration >= LONG_CONN_MIN_DURATION
              && 0.4 < c.confidence <= 1.0 && c.severity != Low
    ensures SortedDesc(LongConnections(flows), LongRank)
  {
    var timed := Filter(flows, HasDuration);
    var c := CollectLongConnections(timed, KeysOf(timed, TupleOf));
    CollectLongProperties(timed, KeysOf(timed, TupleOf));
    SortDescSorted(c, LongRank);
    forall x | x in LongConnections(flows)
      ensures x in c
    {
      assert x in multiset(LongConnections(flows));
    }
  }

  // ---------------------------------------------------------------- data exfiltration

  datatype Exfiltration = Exfiltration(
    sourceIp: string, destIp: string, destPort: int,
    totalBytesOut: int, totalBytesIn: int, exfiltrationRatio: real,
    connectionCount: int, uniqueDestCount: int,
    timeWindow: real, bytesPerHour: real,
    confidence: real, severity: Severity)

  const EXFIL_MIN_BYTES := 100 * 1024 * 1024
  const EXFIL_MIN_RATIO := 10.0

  /** Running totals of the per-destination loop for one internal source. */
  datatype SourceTotals = SourceTotals(bytesOut: int, bytesIn: int, connections: int,
                                       earliest: Option<real>, latest: Option<real>)

  function Earlier(t: Option<real>, x: real): real { if t.None? || x < t.value then x else t.value }
  function Later(t: Option<real>, x: real): real { if t.None? || x > t.value then x else t.value }

  /** One destination's contribution: flows to it and the replies from it. */
  function TotalsStep(t: SourceTotals, toDst: seq<FlowRecord>, fromDst: seq<FlowRecord>): SourceTotals
  {
    SourceTotals(t.bytesOut + SumInt(toDst, BytesOf), t.bytesIn + SumInt(fromDst, BytesOf),
                 t.connections + |toDst|,
                 if toDst == [] then t.earliest else Some(Earlier(t.earliest, MinReal(toDst, TimestampOf))),
                 if toDst == [] then t.latest else Some(Later(t.latest, MaxReal(toDst, TimestampOf))))
  }

  /**
   * Totals over the destinations `dsts` of one source: `out` are its
   * outbound flows, `inb` the inbound flows addressed to it.
   */
  function Totals(out: seq<FlowRecord>, inb: seq<FlowRecord>, dsts: seq<string>): SourceTotals
  {
    if dsts == [] then SourceTotals(0, 0, 0, None, None)
    else
      var d := dsts[|dsts| - 1];
      TotalsStep(Totals(out, inb, dsts[..|dsts| - 1]), GroupOf(out, DestOf, d), GroupOf(inb, SourceOf, d))
  }

  lemma {:induction false} TotalsBytesOut(out: seq<FlowRecord>, inb: seq<FlowRecord>, dsts: seq<string>)
    ensures Totals(out, inb, dsts).bytesOut == SumOverGroups(dsts, out, DestOf, BytesOf)
  {
    if dsts != [] {
      TotalsBytesOut(out, inb, dsts[..|dsts| - 1]);
    }
  }

  /** The per-destination loop of one source. */
  method SumSourceTotals(out: seq<FlowRecord>, inb: seq<FlowRecord>, dsts: seq<string>) returns (t: SourceTotals)
    ensures t == Totals(out, inb, dsts)
  {
    t := SourceTotals(0, 0, 0, None, None);
    var j := 0;
    while j < |dsts|
      invariant 0 <= j <= |dsts|
      invariant t == Totals(out, inb, dsts[..j])
    {
      assert dsts[..j + 1][..j] == dsts[..j];
      t := TotalsStep(t, GroupOf(out, DestOf, dsts[j]), GroupOf(inb, SourceOf, dsts[j]));
      j := j + 1;
    }
    assert dsts[..j] == dsts;
  }

  /** The first element of `s` with the largest `v` (Python's `max(s, key=v)`). */
  function FirstArgMax<T>(s: seq<T>, v: T -> int): (r: T)
    requires |s| > 0
    ensures r in s
    ensures forall i :: 0 <= i < |s| ==> v(s[i]) <= v(r)
    ensures exists i :: 0 <= i < |s| && s[i] == r && forall j :: 0 <= j < i ==> v(s[j]) < v(r)
  {
    if |s| == 1 then s[0]
    else
      var p := s[..|s| - 1];
      var best := FirstArgMax(p, v);
      assert forall i :: 0 <= i < |p| ==> p[i] == s[i];
      if v(s[|s| - 1]) > v(best) then s[|s| - 1] else best
  }

  function BytesTo(out: seq<FlowRecord>, d: string): int { SumInt(GroupOf(out, DestOf, d), BytesOf) }

  /** What every reported event satisfies: both thresholds met, confidence above 0.5, tier above `low`. */
  predicate ReportedExfiltration(e: Exfiltration)
  {
    && e.totalBytesOut >= EXFIL_MIN_BYTES && e.exfiltrationRatio >= EXFIL_MIN_RATIO
    && 0.5 < e.confidence <= 1.0 && e.severity != Low
  }

  /**
   * The destination that received the most bytes (the first such in
   * insertion order) and the port of its largest flow.
   */
  function PrimaryTarget(out: seq<FlowRecord>, dsts: seq<string>): (r: (string, int))
    requires |out| > 0 && dsts == KeysOf(out, DestOf)
    ensures r.0 in dsts
    ensures forall d :: d in dsts ==> BytesTo(out, d) <= BytesTo(out, r.0)
  {
    assert out[0].destIp in dsts by { KeysOfMember(out, DestOf, out[0].destIp); }
    var primary := FirstArgMax(dsts, d => BytesTo(out, d));
    KeysOfMember(out, DestOf, primary);
    var i :| 0 <= i < |out| && DestOf(out[i]) == primary;
    GroupOfMember(out, DestOf, primary, i);
    (primary, FirstArgMax(GroupOf(out, DestOf, primary), BytesOf).destPort)
  }

  /** The thresholds and the event for one source, given its totals. */
  function ExfiltrationFrom(src: string, out: seq<FlowRecord>, dsts: seq<string>, t: SourceTotals): (r: Option<Exfiltration>)
    requires |out| > 0 && dsts == KeysOf(out, DestOf)
    ensures r.Some? ==> ReportedExfiltration(r.value)
  {
    if t.bytesOut < EXFIL_MIN_BYTES then None
    else
      var ratio := t.bytesOut as real / (if t.bytesIn > 1 then t.bytesIn else 1) as real;
      if ratio < EXFIL_MIN_RATIO then None
      else
        var window := if t.earliest.Some? && t.latest.Some? then t.latest.value - t.earliest.value else 0.0;
        var bytesPerHour := t.bytesOut as real / MaxReal2(window / 3600.0, 0.1);
        var confidence := ExfiltrationConfidence(t.bytesOut, ratio, |dsts|, bytesPerHour);
        if confidence <= 0.5 then None
        else
          ExfiltrationReportedNotLow(confidence, t.bytesOut);
          var (primary, port) := PrimaryTarget(out, dsts);
          Some(Exfiltration(src, primary, port, t.bytesOut, t.bytesIn, ratio, t.connections, |dsts|,
                            window, bytesPerHour, confidence, ExfiltrationSeverity(confidence, t.bytesOut)))
  }

  function ExfiltrationFor(src: string, out: seq<FlowRecord>, inb: seq<FlowRecord>): (r: Option<Exfiltration>)
    requires |out| > 0
    ensures r.Some? ==> ReportedExfiltration(r.value)
  {
    var dsts := KeysOf(out, DestOf);
    ExfiltrationFrom(src, out, dsts, Totals(out, inb, dsts))
  }

  /** The event of one internal source, if any. */
  function ExfiltrationOfSource(src: string, out: seq<FlowRecord>, inb: seq<FlowRecord>): (r: seq<Exfiltration>)
    ensures |r| <= 1
    ensures forall e :: e in r ==> ReportedExfiltration(e)
  {
    if out == [] then []
    else
      var o := ExfiltrationFor(src, out, inb);
      if o.Some? then [o.value] else []
  }

  function CollectExfiltration(outbound: seq<FlowRecord>, inbound: seq<FlowRecord>, srcs: seq<string>): seq<Exfiltration>
  {
    if srcs == [] then []
    else
      var s := srcs[|srcs| - 1];
      CollectExfiltration(outbound, inbound, srcs[..|srcs| - 1])
        + ExfiltrationOfSource(s, GroupOf(outbound, SourceOf, s), GroupOf(inbound, DestOf, s))
  }

  function ExfilRank(e: Exfiltration): Rank { ByReal(e.confidence) }

  /** What `_detect_data_exfiltration` returns. */
  function Exfiltrations(flows: seq<FlowRecord>): seq<Exfiltration>
  {
    var outbound := Filter(flows, IsOutbound);
    var inbound := Filter(flows, IsInbound);
    SortDesc(CollectExfiltration(outbound, inbound, KeysOf(outbound, SourceOf)), ExfilRank)
  }

  /** The body of the per-source loop of `_detect_data_exfiltration`. */
  method ExfiltrationCandidate(src: string, out: seq<FlowRecord>, inb: seq<FlowRecord>) returns (r: seq<Exfiltration>)
    ensures r == ExfiltrationOfSource(src, out, inb)
  {
    r := [];
    if out != [] {
      var dsts := KeysOf(out, DestOf);
      var t := SumSourceTotals(out, inb, dsts);
      var e := ExfiltrationFrom(src, out, dsts, t);
      if e.Some? {
        r := [e.value];
      }
    }
  }

  lemma CollectExfiltrationStep(outbound: seq<FlowRecord>, inbound: seq<FlowRecord>, srcs: seq<string>, j: int)
    requires 0 <= j < |srcs|
    ensures CollectExfiltration(outbound, inbound, srcs[..j + 1])
         == CollectExfiltration(outbound, inbound, srcs[..j])
            + ExfiltrationOfSource(srcs[j], GroupOf(outbound, SourceOf, srcs[j]), GroupOf(inbound, DestOf, srcs[j]))
  {
    assert srcs[..j + 1][..j] == srcs[..j];
  }

  /** The per-source loop of `_detect_data_exfiltration`, over the sources in insertion order. */
  method ExfiltrationLoop(ghost outbound: seq<FlowRecord>, inbound: seq<FlowRecord>, srcs: seq<string>,
                          outGroups: map<string, seq<FlowRecord>>)
    returns (events: seq<Exfiltration>)
    requires forall i :: 0 <= i < |srcs| ==>
               srcs[i] in outGroups && outGroups[srcs[i]] == GroupOf(outbound, SourceOf, srcs[i])
    ensures events == CollectExfiltration(outbound, inbound, srcs)
  {
    events := [];
    var j := 0;
    while j < |srcs|
      invariant 0 <= j <= |srcs|
      invariant events == CollectExfiltration(outbound, inbound, srcs[..j])
    {
      var found := ExfiltrationCandidate(srcs[j], outGroups[srcs[j]], GroupOf(inbound, DestOf, srcs[j]));
      CollectExfiltrationStep(outbound, inbound, srcs, j);
      events := events + found;
      j := j + 1;
    }
    assert srcs[..j] == srcs;
  }

  method DetectDataExfiltration(flows: seq<FlowRecord>) returns (events: seq<Exfiltration>)
    ensures events == Exfiltrations(flows)
  {
    var srcs, outGroups := GroupWhere(flows, IsOutbound, SourceOf);
    var inbound := Filter(flows, IsInbound);
    events := ExfiltrationLoop(Filter(flows, IsOutbound), inbound, srcs, outGroups);
    events := SortDesc(events, ExfilRank);
  }

  lemma {:induction false} CollectExfiltrationProperties(outbound: seq<FlowRecord>, inbound: seq<FlowRecord>, srcs: seq<string>)
    ensures forall i :: 0 <= i < |CollectExfiltration(outbound, inbound, srcs)| ==>
              ReportedExfiltration(CollectExfiltration(outbound, inbound, srcs)[i])
  {
    if srcs != [] {
      var s := srcs[|srcs| - 1];
      CollectExfiltrationProperties(outbound, inbound, srcs[..|srcs| - 1]);
      var a := CollectExfiltration(outbound, inbound, srcs[..|srcs| - 1]);
      var b := ExfiltrationOfSource(s, GroupOf(outbound, SourceOf, s), GroupOf(inbound, DestOf, s));
      assert CollectExfiltration(outbound, inbound, srcs) == a + b;
    }
  }

  /**
   * `_detect_data_exfiltration`: a reported source sent at least 100 MiB
   * out at a ratio of at least 10 to what it received, with confidence in
   * (0.5, 1], hence never `low`; sorted by confidence.
   */
  lemma ExfiltrationsProperties(flows: seq<FlowRecord>)
    ensures forall e :: e in Exfiltrations(flows) ==>
              && e.totalBytesOut >= EXFIL_MIN_BYTES && e.exfiltrationRatio >= EXFIL_MIN_RATIO
              && 0.5 < e.confidence <= 1.0 && e.severity != Low
    ensures SortedDesc(Exfiltrations(flows), ExfilRank)
  {
    var outbound := Filter(flows, IsOutbound);
    var inbound := Filter(flows, IsInbound);
    var c := CollectExfiltration(outbound, inbound, KeysOf(outbound, SourceOf));
    CollectExfiltrationProperties(outbound, inbound, KeysOf(outbound, SourceOf));
    SortDescSorted(c, ExfilRank);
    forall x | x in Exfiltrations(flows)
      ensures x in c
    {
      assert x in multiset(Exfiltrations(flows));
    }
  }

  /** The reported destination is the first peer that received the most bytes. */
  lemma ExfiltrationPrimaryDestination(src: string, out: seq<FlowRecord>, inb: seq<FlowRecord>)
    requires |out| > 0 && ExfiltrationFor(src, out, inb).Some?
    ensures var e := ExfiltrationFor(src, out, inb).value;
            var dsts := KeysOf(out, DestOf);
            e.destIp in dsts &&
            forall d :: d in dsts ==> BytesTo(out, d) <= BytesTo(out, e.destIp)
  {
  }

  /**
   * When every outbound flow carries the default 1024 bytes and there are
   * too few of them to reach 100 MiB, no source is reported.
   */
  lemma {:induction false} CollectExfiltrationBelowFloor(outbound: seq<FlowRecord>, inbound: seq<FlowRecord>, srcs: seq<string>)
    requires forall i :: 0 <= i < |outbound| ==> outbound[i].bytesSent == DEFAULT_BYTES
    requires DEFAULT_BYTES * |outbound| < EXFIL_MIN_BYTES
    ensures CollectExfiltration(outbound, inbound, srcs) == []
  {
    if srcs != [] {
      CollectExfiltrationBelowFloor(outbound, inbound, srcs[..|srcs| - 1]);
      var s := srcs[|srcs| - 1];
      var out := GroupOf(outbound, SourceOf, s);
      if out != [] {
        var dsts := KeysOf(out, DestOf);
        TotalsBytesOut(out, GroupOf(inbound, DestOf, s), dsts);
        SumOverAllGroups(out, DestOf, BytesOf);
        GroupOfAll(outbound, SourceOf, s, (f: FlowRecord) => f.bytesSent == DEFAULT_BYTES);
        SumIntConstant(out, BytesOf, DEFAULT_BYTES);
        assert Totals(out, GroupOf(inbound, DestOf, s), dsts).bytesOut == DEFAULT_BYTES * |out|;
      }
    }
  }

  /**
   * Exfiltration can never fire on parsed records: each flow is taken to
   * carry 1024 bytes, so fewer than 102 400 records can never add up to
   * 100 MiB from one source.
   */
  lemma NoExfiltrationBelowFloor(records: seq<FlowRecord>)
    requires forall i :: 0 <= i < |records| ==> records[i].bytesSent == DEFAULT_BYTES
    requires |records| < EXFIL_MIN_BYTES / DEFAULT_BYTES
    ensures Exfiltrations(records) == []
  {
    var outbound := Filter(records, IsOutbound);
    FilterAll(records, IsOutbound, (f: FlowRecord) => f.bytesSent == DEFAULT_BYTES);
    CollectExfiltrationBelowFloor(outbound, Filter(records, IsInbound), KeysOf(outbound, SourceOf));
  }

  // ---------------------------------------------------------------- port scans

  datatype PortScan = PortScan(
    sourceIp: string, destIp: string, portsScanned: int, suspiciousPorts: int,
    confidence: real, severity: Severity, ports: set<int>, suspiciousRatio: real)

  const PORT_SCAN_MIN_PORTS := 10

  function PortsOf(g: seq<FlowRecord>): set<int>
  {
    set i | 0 <= i < |g| :: g[i].destPort
  }

  function SuspiciousAmong(ports: set<int>): set<int>
  {
    set p | p in ports && IsSuspiciousPort(p)
  }

  function PortScanFor(src: string, dst: string, ports: set<int>): PortScan
    requires |ports| > 0
  {
    var suspicious := SuspiciousAmong(ports);
    assert suspicious <= ports;
    var confidence := PortScanConfidence(|ports|, |suspicious|);
    PortScan(src, dst, |ports|, |suspicious|, confidence, PortScanSeverity(confidence), ports,
             |suspicious| as real / |ports| as real)
  }

  /** The scan of one (source, target) pair, if it touched enough ports. */
  function ScanOfTarget(src: string, dst: string, g: seq<FlowRecord>): seq<PortScan>
  {
    var ports := PortsOf(g);
    if |ports| >= PORT_SCAN_MIN_PORTS then [PortScanFor(src, dst, ports)] else []
  }

  /** The scans of one source against its targets `dsts`, in target order. */
  function ScansOfSource(src: string, bySrc: seq<FlowRecord>, dsts: seq<string>): seq<PortScan>
  {
    if dsts == [] then []
    else
      var d := dsts[|dsts| - 1];
      ScansOfSource(src, bySrc, dsts[..|dsts| - 1]) + ScanOfTarget(src, d, GroupOf(bySrc, DestOf, d))
  }

  function CollectScans(rejected: seq<FlowRecord>, srcs: seq<string>): seq<PortScan>
  {
    if srcs == [] then []
    else
      var s := srcs[|srcs| - 1];
      var bySrc := GroupOf(rejected, SourceOf, s);
      CollectScans(rejected, srcs[..|srcs| - 1]) + ScansOfSource(s, bySrc, KeysOf(bySrc, DestOf))
  }

  function ScanRank(p: PortScan): Rank { ByReal(p.confidence) }

  /** What `_detect_port_scanning` returns. */
  function PortScans(flows: seq<FlowRecord>): seq<PortScan>
  {
    var rejected := Filter(flows, IsRejected);
    SortDesc(CollectScans(rejected, KeysOf(rejected, SourceOf)), ScanRank)
  }

  lemma ScansOfSourceStep(src: string, bySrc: seq<FlowRecord>, dsts: seq<string>, m: int)
    requires 0 <= m < |dsts|
    ensures ScansOfSource(src, bySrc, dsts[..m + 1])
         == ScansOfSource(src, bySrc, dsts[..m]) + ScanOfTarget(src, dsts[m], GroupOf(bySrc, DestOf, dsts[m]))
  {
    assert dsts[..m + 1][..m] == dsts[..m];
  }

  /** The inner loop of `_detect_port_scanning`, over one source's targets. */
  method ScanTargets(src: string, bySrc: seq<FlowRecord>) returns (scans: seq<PortScan>)
    ensures scans == ScansOfSource(src, bySrc, KeysOf(bySrc, DestOf))
  {
    var dsts, byDst := GroupWhere(bySrc, AnyFlow, DestOf);
    FilterTrue(bySrc);
    scans := [];
    var m := 0;
    while m < |dsts|
      invariant 0 <= m <= |dsts|
      invariant scans == ScansOfSource(src, bySrc, dsts[..m])
    {
      ScansOfSourceStep(src, bySrc, dsts, m);
      scans := scans + ScanOfTarget(src, dsts[m], byDst[dsts[m]]);
      m := m + 1;
    }
    assert dsts[..m] == dsts;
  }

  lemma CollectScansStep(rejected: seq<FlowRecord>, srcs: seq<string>, j: int)
    requires 0 <= j < |srcs|
    ensures var bySrc := GroupOf(rejected, SourceOf, srcs[j]);
            CollectScans(rejected, srcs[..j + 1])
            == CollectScans(rejected, srcs[..j]) + ScansOfSource(srcs[j], bySrc, KeysOf(bySrc, DestOf))
  {
    assert srcs[..j + 1][..j] == srcs[..j];
  }

  /** The per-source loop of `_detect_port_scanning`, over the sources in insertion order. */
  method PortScanLoop(ghost rejected: seq<FlowRecord>, srcs: seq<string>, bySrc: map<string, seq<FlowRecord>>)
    returns (scans: seq<PortScan>)
    requires forall i :: 0 <= i < |srcs| ==> srcs[i] in bySrc && bySrc[srcs[i]] == GroupOf(rejected, SourceOf, srcs[i])
    ensures scans == CollectScans(rejected, srcs)
  {
    scans := [];
    var j := 0;
    while j < |srcs|
      invariant 0 <= j <= |srcs|
      invariant scans == CollectScans(rejected, srcs[..j])
    {
      var found := ScanTargets(srcs[j], bySrc[srcs[j]]);
      CollectScansStep(rejected, srcs, j);
      scans := scans + found;
      j := j + 1;
    }
    assert srcs[..j] == srcs;
  }

  method DetectPortScanning(flows: seq<FlowRecord>) returns (scans: seq<PortScan>)
    ensures scans == PortScans(flows)
  {
    var srcs, bySrc := GroupWhere(flows, IsRejected, SourceOf);
    scans := PortScanLoop(Filter(flows, IsRejected), srcs, bySrc);
    scans := SortDesc(scans, ScanRank);
  }

  predicate AnyFlow(f: FlowRecord) { true }

  lemma {:induction false} FilterTrue(s: seq<FlowRecord>)
    ensures Filter(s, AnyFlow) == s
  {
    if s != [] {
      FilterTrue(s[..|s| - 1]);
    }
  }

  lemma {:induction false} ScansOfSourceProperties(src: string, bySrc: seq<FlowRecord>, dsts: seq<string>)
    ensures forall i :: 0 <= i < |ScansOfSource(src, bySrc, dsts)| ==>
              var p := ScansOfSource(src, bySrc, dsts)[i];
              p.portsScanned >= PORT_SCAN_MIN_PORTS && 0.0 < p.confidence <= 0.9 && p.severity != Critical
  {
    if dsts != [] {
      var d := dsts[|dsts| - 1];
      ScansOfSourceProperties(src, bySrc, dsts[..|dsts| - 1]);
      var ports := PortsOf(GroupOf(bySrc, DestOf, d));
      if |ports| >= PORT_SCAN_MIN_PORTS {
        assert ScanOfTarget(src, d, GroupOf(bySrc, DestOf, d)) == [PortScanFor(src, d, ports)];
      }
    }
  }

  lemma {:induction false} CollectScansProperties(rejected: seq<FlowRecord>, srcs: seq<string>)
    ensures forall i :: 0 <= i < |CollectScans(rejected, srcs)| ==>
              var p := CollectScans(rejected, srcs)[i];
              p.portsScanned >= PORT_SCAN_MIN_PORTS && 0.0 < p.confidence <= 0.9 && p.severity != Critical
  {
    if srcs != [] {
      var s := srcs[|srcs| - 1];
      var bySrc := GroupOf(rejected, SourceOf, s);
      CollectScansProperties(rejected, srcs[..|srcs| - 1]);
      ScansOfSourceProperties(s, bySrc, KeysOf(bySrc, DestOf));
    }
  }

  /**
   * `_detect_port_scanning`: at least ten distinct rejected ports per
   * (src, dst), confidence capped at 0.9, never `critical`; sorted.
   */
  lemma PortScansProperties(flows: seq<FlowRecord>)
    ensures forall p :: p in PortScans(flows) ==>
              p.portsScanned >= PORT_SCAN_MIN_PORTS && 0.0 < p.confidence <= 0.9 && p.severity != Critical
    ensures SortedDesc(PortScans(flows), ScanRank)
  {
    var rejected := Filter(flows, IsRejected);
    var c := CollectScans(rejected, KeysOf(rejected, SourceOf));
    CollectScansProperties(rejected, KeysOf(rejected, SourceOf));
    SortDescSorted(c, ScanRank);
    forall x | x in PortScans(flows)
      ensures x in c
    {
      assert x in multiset(PortScans(flows));
    }
  }

  // ---------------------------------------------------------------- DNS tunnelling

  datatype DnsTunnel = DnsTunnel(
    sourceIp: string, queryCount: int, queryRatePerHour: real, timeSpanHours: real,
    confidence: real, severity: Severity, avgBytesPerQuery: real)

  const DNS_MIN_QUERIES := 50
  const DNS_MIN_RATE := 1000.0

  function DnsTunnelFor(src: string, g: seq<FlowRecord>): Option<DnsTunnel>
    requires |g| > 0
  {
    var span := MaxReal(g, TimestampOf) - MinReal(g, TimestampOf);
    var rate := |g| as real / MaxReal2(span / 3600.0, 0.1);
    if rate > DNS_MIN_RATE then
      var confidence := DnsConfidence(rate);
      Some(DnsTunnel(src, |g|, rate, span / 3600.0, confidence, DnsSeverity(confidence),
                     SumInt(g, BytesOf) as real / |g| as real))
    else None
  }

  /** The event of one source's group of port-53 flows, if any. */
  function DnsOfGroup(src: string, g: seq<FlowRecord>): seq<DnsTunnel>
  {
    if |g| < DNS_MIN_QUERIES then []
    else
      match DnsTunnelFor(src, g)
      case Some(e) => [e]
      case None => []
  }

  function CollectDns(dns: seq<FlowRecord>, srcs: seq<string>): seq<DnsTunnel>
  {
    FlatMapGroups(dns, SourceOf, srcs, DnsOfGroup)
  }

  function DnsRank(e: DnsTunnel): Rank { ByReal(e.confidence) }

  /** What `_detect_suspicious_dns` returns. */
  function DnsTunnels(flows: seq<FlowRecord>): seq<DnsTunnel>
  {
    var dns := Filter(flows, IsDns);
    SortDesc(CollectDns(dns, KeysOf(dns, SourceOf)), DnsRank)
  }

  /** The body of the per-source loop of `_detect_suspicious_dns`. */
  method DnsCandidate(src: string, g: seq<FlowRecord>) returns (r: seq<DnsTunnel>)
    ensures r == DnsOfGroup(src, g)
  {
    r := [];
    if |g| >= DNS_MIN_QUERIES {
      var span := MaxReal(g, TimestampOf) - MinReal(g, TimestampOf);
      var rate := |g| as real / MaxReal2(span / 3600.0, 0.1);
      if rate > DNS_MIN_RATE {
        var confidence := DnsConfidence(rate);
        r := [DnsTunnel(src, |g|, rate, span / 3600.0, confidence, DnsSeverity(confidence),
                        SumInt(g, BytesOf) as real / |g| as real)];
      }
    }
  }

  /** The per-source loop of `_detect_suspicious_dns`, over the sources in insertion order. */
  method DnsLoop(ghost dns: seq<FlowRecord>, srcs: seq<string>, groups: map<string, seq<FlowRecord>>)
    returns (events: seq<DnsTunnel>)
    requires forall i :: 0 <= i < |srcs| ==> srcs[i] in groups && groups[srcs[i]] == GroupOf(dns, SourceOf, srcs[i])
    ensures events == CollectDns(dns, srcs)
  {
    events := [];
    var j := 0;
    while j < |srcs|
      invariant 0 <= j <= |srcs|
      invariant events == CollectDns(dns, srcs[..j])
    {
      var found := DnsCandidate(srcs[j], groups[srcs[j]]);
      FlatMapGroupsAppend(dns, SourceOf, srcs, DnsOfGroup, groups, j, events, found);
      events := events + found;
      j := j + 1;
    }
    assert srcs[..j] == srcs;
  }

  method DetectSuspiciousDns(flows: seq<FlowRecord>) returns (events: seq<DnsTunnel>)
    ensures events == DnsTunnels(flows)
  {
    var srcs, groups := GroupWhere(flows, IsDns, SourceOf);
    events := DnsLoop(Filter(flows, IsDns), srcs, groups);
    events := SortDesc(events, DnsRank);
  }

  lemma {:induction false} CollectDnsProperties(dns: seq<FlowRecord>, srcs: seq<string>)
    ensures forall i :: 0 <= i < |CollectDns(dns, srcs)| ==>
              var e := CollectDns(dns, srcs)[i];
              && e.queryCount == |GroupOf(dns, SourceOf, e.sourceIp)| >= DNS_MIN_QUERIES
              && e.queryRatePerHour > DNS_MIN_RATE
              && 0.2 < e.confidence <= 0.9 && (e.severity == High || e.severity == Medium)
  {
    if srcs != [] {
      var k := srcs[|srcs| - 1];
      var init := CollectDns(dns, srcs[..|srcs| - 1]);
      var last := DnsOfGroup(k, GroupOf(dns, SourceOf, k));
      assert CollectDns(dns, srcs) == init + last;
      CollectDnsProperties(dns, srcs[..|srcs| - 1]);
      forall i | 0 <= i < |init + last|
        ensures (init + last)[i] in init || (init + last)[i] in last
      {
      }
    }
  }

  /**
   * `_detect_suspicious_dns`: at least 50 port-53 flows from the source and
   * more than 1000 per hour; confidence capped at 0.9, severity `high` or
   * `medium`; sorted.
   */
  lemma DnsTunnelsProperties(flows: seq<FlowRecord>)
    ensures forall e :: e in DnsTunnels(flows) ==>
              && e.queryCount == |GroupOf(Filter(flows, IsDns), SourceOf, e.sourceIp)| >= DNS_MIN_QUERIES
              && e.queryRatePerHour > DNS_MIN_RATE
              && 0.2 < e.confidence <= 0.9 && (e.severity == High || e.severity == Medium)
    ensures SortedDesc(DnsTunnels(flows), DnsRank)
  {
    var dns := Filter(flows, IsDns);
    var c := CollectDns(dns, KeysOf(dns, SourceOf));
    CollectDnsProperties(dns, KeysOf(dns, SourceOf));
    SortDescSorted(c, DnsRank);
    forall x | x in DnsTunnels(flows)
      ensures x in c
    {
      assert x in multiset(DnsTunnels(flows));
    }
  }

  // ---------------------------------------------------------------- raises before any result

  /** Some flows hold a null action: the first loop of `_detect_beacons` calls `upper()` on it and raises. */
  predicate NullAction(flows: seq<FlowRecord>)
  {
    exists i :: 0 <= i < |flows| && flows[i].action.None?
  }

  /** Some timestamps of `g` are aware and others naive, so comparing them all raises. */
  predicate MixedTimes(g: seq<FlowRecord>)
  {
    exists i :: 0 <= i < |g| && g[i].aware != g[0].aware
  }

  /** `group_flows.sort(key=timestamp)` over a group of at least ten accepted flows raises. */
  predicate BeaconTimesClash(flows: seq<FlowRecord>)
  {
    var accepted := Filter(flows, IsAccepted);
    var keys := KeysOf(accepted, TupleOf);
    exists j :: 0 <= j < |keys| && |GroupOf(accepted, TupleOf, keys[j])| >= BEACON_MIN_CONNECTIONS
                && MixedTimes(GroupOf(accepted, TupleOf, keys[j]))
  }

  /** `min(flow.timestamp ...)` over a long-enough group of flows with a duration raises. */
  predicate LongTimesClash(flows: seq<FlowRecord>)
  {
    var timed := Filter(flows, HasDuration);
    var keys := KeysOf(timed, TupleOf);
    exists j :: 0 <= j < |keys| && SumReal(GroupOf(timed, TupleOf, keys[j]), DurationOf) >= LONG_CONN_MIN_DURATION
                && MixedTimes(GroupOf(timed, TupleOf, keys[j]))
  }

  /**
   * The earliest/latest tracking of `_detect_data_exfiltration` compares
   * every outbound flow of a source, before the byte floor is checked.
   */
  predicate ExfilTimesClash(flows: seq<FlowRecord>)
  {
    var outbound := Filter(flows, IsOutbound);
    var srcs := KeysOf(outbound, SourceOf);
    exists j :: 0 <= j < |srcs| && MixedTimes(GroupOf(outbound, SourceOf, srcs[j]))
  }

  /** `max(flow.timestamp ...)` over a source's fifty or more port-53 flows raises. */
  predicate DnsTimesClash(flows: seq<FlowRecord>)
  {
    var dns := Filter(flows, IsDns);
    var srcs := KeysOf(dns, SourceOf);
    exists j :: 0 <= j < |srcs| && |GroupOf(dns, SourceOf, srcs[j])| >= DNS_MIN_QUERIES
                && MixedTimes(GroupOf(dns, SourceOf, srcs[j]))
  }

  /** Some detector compares an aware timestamp with a naive one (a `TypeError`). */
  predicate TimesClash(flows: seq<FlowRecord>)
  {
    BeaconTimesClash(flows) || LongTimesClash(flows) || ExfilTimesClash(flows) || DnsTimesClash(flows)
  }

  /** A group drawn from flows whose timestamps are all of one kind is never mixed. */
  lemma UniformGroup(s: seq<FlowRecord>, p: FlowRecord -> bool, key: FlowRecord -> FlowTuple, k: FlowTuple, aware: bool)
    requires forall i :: 0 <= i < |s| ==> s[i].aware == aware
    ensures !MixedTimes(GroupOf(Filter(s, p), key, k))
  {
    var same := (f: FlowRecord) => f.aware == aware;
    FilterAll(s, p, same);
    GroupOfAll(Filter(s, p), key, k, same);
  }

  lemma UniformSourceGroup(s: seq<FlowRecord>, p: FlowRecord -> bool, k: string, aware: bool)
    requires forall i :: 0 <= i < |s| ==> s[i].aware == aware
    ensures !MixedTimes(GroupOf(Filter(s, p), SourceOf, k))
  {
    var same := (f: FlowRecord) => f.aware == aware;
    FilterAll(s, p, same);
    GroupOfAll(Filter(s, p), SourceOf, k, same);
  }

  /** Only a mix of aware and naive timestamps can make a detector raise: uniform flows never clash. */
  lemma UniformTimesNeverClash(flows: seq<FlowRecord>, aware: bool)
    requires forall i :: 0 <= i < |flows| ==> flows[i].aware == aware
    ensures !TimesClash(flows)
  {
    forall k: FlowTuple
      ensures !MixedTimes(GroupOf(Filter(flows, IsAccepted), TupleOf, k))
      ensures !MixedTimes(GroupOf(Filter(flows, HasDuration), TupleOf, k))
    {
      UniformGroup(flows, IsAccepted, TupleOf, k, aware);
      UniformGroup(flows, HasDuration, TupleOf, k, aware);
    }
    forall k: string
      ensures !MixedTimes(GroupOf(Filter(flows, IsOutbound), SourceOf, k))
      ensures !MixedTimes(GroupOf(Filter(flows, IsDns), SourceOf, k))
    {
      UniformSourceGroup(flows, IsOutbound, k, aware);
      UniformSourceGroup(flows, IsDns, k, aware);
    }
  }
}
