/**
 * The scoring helpers and the summary of the RITA-style threat analyzer
 * (scripts/rita_analyzer.py): score and duration severity ladders, the
 * long-connection score, the duration estimate, the beacon score and the
 * statistics of `get_threat_analytics_summary`.
 *
 * The three analyses the summary combines fetch data and fabricate demo
 * threats; their outputs are inputs here.
 */
module RitaAnalyzer {
  import opened Common
  import opened VcnScoring

  // ---------------------------------------------------------------- severity ladders

  /** Whether `x` reaches tier `t` on a ladder with the given thresholds. */
  predicate Reaches(t: Severity, x: real, critical: real, high: real, medium: real)
  {
    match t
    case Low => true
    case Medium => x >= medium
    case High => x >= high
    case Critical => x >= critical
  }

  /**
   * A ladder of three thresholds: the first one met from the top gives the
   * tier. The result is the highest tier `x` reaches, and every lower tier
   * is reached too.
   */
  function Ladder(x: real, critical: real, high: real, medium: real): (r: Severity)
    requires medium <= high <= critical
    ensures forall t: Severity :: Reaches(t, x, critical, high, medium) <==> t.Level() <= r.Level()
  {
    if x >= critical then Critical
    else if x >= high then High
    else if x >= medium then Medium
    else Low
  }

  /** A larger value never gets a lower tier on the same ladder. */
  lemma LadderMonotone(x: real, y: real, critical: real, high: real, medium: real)
    requires medium <= high <= critical && x <= y
    ensures Ladder(x, critical, high, medium).Level() <= Ladder(y, critical, high, medium).Level()
  {
    var t := Ladder(x, critical, high, medium);
    assert Reaches(t, x, critical, high, medium);
    assert Reaches(t, y, critical, high, medium);
  }

  /** `_get_severity_from_score`: 90, 70 and 50 are the floors of critical, high and medium. */
  function SeverityFromScore(score: real): (r: Severity)
    ensures forall t: Severity :: Reaches(t, score, 90.0, 70.0, 50.0) <==> t.Level() <= r.Level()
  {
    Ladder(score, 90.0, 70.0, 50.0)
  }

  /** `_get_severity_from_duration`: 24, 6 and 2 hours are the floors of critical, high and medium. */
  function SeverityFromDuration(hours: real): (r: Severity)
    ensures forall t: Severity :: Reaches(t, hours, 24.0, 6.0, 2.0) <==> t.Level() <= r.Level()
  {
    Ladder(hours, 24.0, 6.0, 2.0)
  }

  /** Both ladders never lower the tier as their input rises. */
  lemma SeverityLaddersMonotone(x: real, y: real)
    requires x <= y
    ensures SeverityFromScore(x).Level() <= SeverityFromScore(y).Level()
    ensures SeverityFromDuration(x).Level() <= SeverityFromDuration(y).Level()
  {
    LadderMonotone(x, y, 90.0, 70.0, 50.0);
    LadderMonotone(x, y, 24.0, 6.0, 2.0);
  }

  /** The bands of the score ladder, each tier with its half-open interval. */
  lemma SeverityFromScoreBands(score: real)
    ensures SeverityFromScore(score) == Critical <==> 90.0 <= score
    ensures SeverityFromScore(score) == High <==> 70.0 <= score < 90.0
    ensures SeverityFromScore(score) == Medium <==> 50.0 <= score < 70.0
    ensures SeverityFromScore(score) == Low <==> score < 50.0
  {
    var r := SeverityFromScore(score);
    assert Reaches(r, score, 90.0, 70.0, 50.0);
    assert Reaches(Critical, score, 90.0, 70.0, 50.0) <==> Critical.Level() <= r.Level();
    assert Reaches(High, score, 90.0, 70.0, 50.0) <==> High.Level() <= r.Level();
    assert Reaches(Medium, score, 90.0, 70.0, 50.0) <==> Medium.Level() <= r.Level();
  }

  /** The bands of the duration ladder, in hours. */
  lemma SeverityFromDurationBands(hours: real)
    ensures SeverityFromDuration(hours) == Critical <==> 24.0 <= hours
    ensures SeverityFromDuration(hours) == High <==> 6.0 <= hours < 24.0
    ensures SeverityFromDuration(hours) == Medium <==> 2.0 <= hours < 6.0
    ensures SeverityFromDuration(hours) == Low <==> hours < 2.0
  {
    var r := SeverityFromDuration(hours);
    assert Reaches(r, hours, 24.0, 6.0, 2.0);
    assert Reaches(Critical, hours, 24.0, 6.0, 2.0) <==> Critical.Level() <= r.Level();
    assert Reaches(High, hours, 24.0, 6.0, 2.0) <==> High.Level() <= r.Level();
    assert Reaches(Medium, hours, 24.0, 6.0, 2.0) <==> Medium.Level() <= r.Level();
  }

  // ---------------------------------------------------------------- long connections

  /** 100 MiB, the volume that earns the full volume score. */
  const FULL_VOLUME: int := 1024 * 1024 * 100

  function AtMost100(x: real): real
  {
    if x <= 100.0 then x else 100.0
  }

  /**
   * `_calculate_long_connection_score`: the mean of a duration score (full
   * at 24 hours) and a volume score (full at 100 MiB), each capped at 100.
   */
  function LongConnectionScore(hours: real, bytes: int): (r: real)
    ensures r <= 100.0
    ensures hours >= 0.0 && bytes >= 0 ==> r >= 0.0
    ensures r == 100.0 <==> hours >= 24.0 && bytes >= FULL_VOLUME
  {
    var durationScore := AtMost100(hours / 24.0 * 100.0);
    var volumeScore := AtMost100(bytes as real / 104857600.0 * 100.0);
    (durationScore + volumeScore) / 2.0
  }

  /** A longer or larger connection never scores lower. */
  lemma LongConnectionScoreMonotone(h1: real, b1: int, h2: real, b2: int)
    requires h1 <= h2 && b1 <= b2
    ensures LongConnectionScore(h1, b1) <= LongConnectionScore(h2, b2)
  {
  }

  // ---------------------------------------------------------------- duration estimate

  /** 1 MiB: an average transfer above this counts as large. */
  const LARGE_TRANSFER: real := 1048576.0

  function AtLeast(floor: real, x: real): real
  {
    if x >= floor then x else floor
  }

  /**
   * `_estimate_connection_duration`: none for no connections; about half an
   * hour per connection (at least one hour) when the average transfer
   * exceeds 1 MiB, otherwise about six minutes per connection (at least
   * 0.1 hours).
   */
  function EstimateDuration(bytes: int, count: int): (r: real)
    ensures count == 0 ==> r == 0.0
    ensures count != 0 ==> r >= 0.1
    ensures count != 0 && bytes as real / count as real > LARGE_TRANSFER ==> r >= 1.0
  {
    if count == 0 then 0.0
    else
      var average := bytes as real / count as real;
      if average > LARGE_TRANSFER then AtLeast(1.0, count as real * 0.5)
      else AtLeast(0.1, count as real * 0.1)
  }

  /** Past the floors, each connection adds half an hour (large) or six minutes (small). */
  lemma EstimateDurationPerConnection(bytes: int, count: int)
    requires count >= 2
    ensures bytes as real / count as real > LARGE_TRANSFER ==> EstimateDuration(bytes, count) == count as real * 0.5
    ensures bytes as real / count as real <= LARGE_TRANSFER ==> EstimateDuration(bytes, count) == count as real * 0.1
  {
  }

  /** With the average held fixed, more connections never estimate a shorter duration. */
  lemma EstimateDurationMonotone(average: real, c1: int, c2: int, b1: int, b2: int)
    requires 1 <= c1 <= c2
    requires b1 as real == average * c1 as real && b2 as real == average * c2 as real
    ensures EstimateDuration(b1, c1) <= EstimateDuration(b2, c2)
  {
    assert b1 as real / c1 as real == average;
    assert b2 as real / c2 as real == average;
  }

  // ---------------------------------------------------------------- beacon score

  function Itself(x: real): real
  {
    x
  }

  function Total(xs: seq<real>): real
  {
    SumReal(xs, Itself)
  }

  /** `statistics.mean`. */
  function Mean(xs: seq<real>): real
    requires |xs| > 0
  {
    Total(xs) / |xs| as real
  }

  function SquaredDeviation(m: real): real -> real
  {
    x => (x - m) * (x - m)
  }

  /** `statistics.variance`: the sample variance, divided by n - 1. */
  function SampleVariance(xs: seq<real>): (r: real)
    requires |xs| >= 2
    ensures r >= 0.0
  {
    var m := Mean(xs);
    SumRealNonNegative(xs, SquaredDeviation(m));
    QuotientNonNegative(SumReal(xs, SquaredDeviation(m)), (|xs| - 1) as real);
    SumReal(xs, SquaredDeviation(m)) / (|xs| - 1) as real
  }

  /** What the bounds need of the square root: it is never negative on a non-negative number. */
  ghost predicate NonNegativeRoot(sqrt: real -> real)
  {
    forall x :: 0.0 <= x ==> 0.0 <= sqrt(x)
  }

  function AtLeastZero(x: real): real
  {
    if x >= 0.0 then x else 0.0
  }

  /**
   * `_calculate_beacon_score` over the connection counts of the buckets:
   * 0 below three buckets; otherwise 40% jitter score (100 minus the
   * coefficient of variation in percent, 0 unless the mean is positive),
   * 40% consistency score (100 minus the standard deviation) and 20%
   * frequency score (a tenth of the total, capped at 100). `sqrt` is the
   * square root.
   */
  function BeaconScore(counts: seq<real>, sqrt: real -> real): (r: real)
    ensures |counts| < 3 ==> r == 0.0
  {
    if |counts| < 3 then 0.0
    else
      var m := Mean(counts);
      var deviation := sqrt(SampleVariance(counts));
      var jitter := if m > 0.0 then AtLeastZero(100.0 - deviation / m * 100.0) else 0.0;
      var consistency := AtLeastZero(100.0 - deviation);
      var frequency := AtMost100(Total(counts) / 10.0);
      jitter * 0.4 + consistency * 0.4 + frequency * 0.2
  }

  /** For non-negative counts the beacon score is a percentage. */
  lemma BeaconScoreBounds(counts: seq<real>, sqrt: real -> real)
    requires NonNegativeRoot(sqrt)
    requires forall i :: 0 <= i < |counts| ==> counts[i] >= 0.0
    ensures 0.0 <= BeaconScore(counts, sqrt) <= 100.0
  {
    if |counts| >= 3 {
      var m := Mean(counts);
      var deviation := sqrt(SampleVariance(counts));
      assert deviation >= 0.0;
      assert forall i :: 0 <= i < |counts| ==> Itself(counts[i]) >= 0.0;
      SumRealNonNegative(counts, Itself);
      if m > 0.0 {
        QuotientNonNegative(deviation, m);
      }
    }
  }

  /** Every bucket holding `c` connections gives a deviation of zero. */
  lemma ConstantCountsVariance(counts: seq<real>, c: real)
    requires |counts| >= 2 && forall i :: 0 <= i < |counts| ==> counts[i] == c
    ensures Mean(counts) == c && SampleVariance(counts) == 0.0 && Total(counts) == |counts| as real * c
  {
    assert forall i :: 0 <= i < |counts| ==> c <= Itself(counts[i]) <= c;
    SumRealBounds(counts, Itself, c, c);
    assert forall i :: 0 <= i < |counts| ==> 0.0 <= SquaredDeviation(c)(counts[i]) <= 0.0;
    SumRealBounds(counts, SquaredDeviation(c), 0.0, 0.0);
  }

  /**
   * A perfectly regular beacon (the same positive count in every bucket)
   * earns the full jitter and consistency scores: 80 plus a fifth of the
   * frequency score.
   */
  lemma RegularBeaconScore(counts: seq<real>, c: real, sqrt: real -> real)
    requires sqrt(0.0) == 0.0
    requires |counts| >= 3 && c > 0.0 && forall i :: 0 <= i < |counts| ==> counts[i] == c
    ensures BeaconScore(counts, sqrt) == 80.0 + 0.2 * AtMost100(|counts| as real * c / 10.0)
  {
    ConstantCountsVariance(counts, c);
  }

  // ---------------------------------------------------------------- summary

  /** A reported threat: its id, `type`, `severity` and score. */
  datatype Threat = Threat(id: string, kind: string, severity: string, score: real)

  /** What one analysis returned: its `success` flag and its threat list. */
  datatype Analysis = Analysis(success: bool, threats: seq<Threat>)

  datatype Stats = Stats(
    total: nat, critical: nat, high: nat, medium: nat, low: nat,
    beacons: nat, longConnections: nat, dnsTunneling: nat, dataExfiltration: nat,
    timeRange: string)

  datatype Summary = Summary(threats: seq<Threat>, stats: Stats, minutes: int)

  function ThreatsOf(a: Analysis): (r: seq<Threat>)
    ensures a.success ==> r == a.threats
    ensures !a.success ==> r == []
  {
    if a.success then a.threats else []
  }

  /** The threats of the successful analyses, in order: beacons, long connections, DNS tunnelling. */
  function Combined(beacons: Analysis, longConnections: Analysis, dns: Analysis): (r: seq<Threat>)
    ensures |r| == |ThreatsOf(beacons)| + |ThreatsOf(longConnections)| + |ThreatsOf(dns)|
    ensures forall t :: t in r <==> t in ThreatsOf(beacons) || t in ThreatsOf(longConnections) || t in ThreatsOf(dns)
  {
    ThreatsOf(beacons) + ThreatsOf(longConnections) + ThreatsOf(dns)
  }

  function WithSeverity(name: string): Threat -> bool
  {
    (t: Threat) => t.severity == name
  }

  function OfKind(kind: string): Threat -> bool
  {
    (t: Threat) => t.kind == kind
  }

  function ScoreRank(t: Threat): Rank
  {
    ByReal(t.score)
  }

  /** `analysis_time_range`: whole hours from an hour on, minutes below. */
  function TimeRangeLabel(minutes: int): string
  {
    if minutes >= 60 then "Last " + IntToString(minutes / 60) + " hours"
    else "Last " + IntToString(minutes) + " minutes"
  }

  function StatsOf(all: seq<Threat>, minutes: int): Stats
  {
    Stats(
      |all|,
      |Filter(all, WithSeverity("critical"))|,
      |Filter(all, WithSeverity("high"))|,
      |Filter(all, WithSeverity("medium"))|,
      |Filter(all, WithSeverity("low"))|,
      |Filter(all, OfKind("beacon"))|,
      |Filter(all, OfKind("long_connection"))|,
      |Filter(all, OfKind("dns_tunneling"))|,
      |Filter(all, OfKind("data_exfiltration"))|,
      TimeRangeLabel(minutes))
  }

  /**
   * `get_threat_analytics_summary`: the combined threats sorted by score,
   * descending (stably), and their statistics.
   */
  function ThreatAnalyticsSummary(beacons: Analysis, longConnections: Analysis, dns: Analysis, minutes: int): (r: Summary)
    ensures multiset(r.threats) == multiset(Combined(beacons, longConnections, dns))
    ensures SortedDesc(r.threats, ScoreRank)
    ensures r.stats.total == |r.threats|
    ensures r.minutes == minutes
  {
    var all := Combined(beacons, longConnections, dns);
    SortDescSorted(all, ScoreRank);
    Summary(SortDesc(all, ScoreRank), StatsOf(all, minutes), minutes)
  }

  /** Threats with equal scores keep the order the analyses reported them in. */
  lemma SummaryStable(beacons: Analysis, longConnections: Analysis, dns: Analysis, minutes: int, v: Rank)
    ensures KeyedAs(ThreatAnalyticsSummary(beacons, longConnections, dns, minutes).threats, ScoreRank, v)
         == KeyedAs(Combined(beacons, longConnections, dns), ScoreRank, v)
  {
    SortDescStable(Combined(beacons, longConnections, dns), ScoreRank, v);
  }

  /**
   * The counts are taken before sorting, but they are the counts of the
   * returned list too.
   */
  lemma SummaryCountsDescribeThreats(beacons: Analysis, longConnections: Analysis, dns: Analysis, minutes: int, p: Threat -> bool)
    ensures var r := ThreatAnalyticsSummary(beacons, longConnections, dns, minutes);
            |Filter(r.threats, p)| == |Filter(Combined(beacons, longConnections, dns), p)|
  {
    var all := Combined(beacons, longConnections, dns);
    FilterCountPermuted(SortDesc(all, ScoreRank), all, p);
  }

  predicate OnLadder(t: Threat)
  {
    t.severity in {"critical", "high", "medium", "low"}
  }

  /** A threat whose severity is one of the four tiers is counted in exactly one tier. */
  lemma {:induction false} TierCountsSum(s: seq<Threat>)
    requires forall i :: 0 <= i < |s| ==> OnLadder(s[i])
    ensures |Filter(s, WithSeverity("critical"))| + |Filter(s, WithSeverity("high"))|
          + |Filter(s, WithSeverity("medium"))| + |Filter(s, WithSeverity("low"))| == |s|
  {
    if s != [] {
      var p := s[..|s| - 1];
      assert forall i :: 0 <= i < |p| ==> p[i] == s[i];
      TierCountsSum(p);
    }
  }

  /** A threat has one type, so the four type counts never exceed the total. */
  lemma {:induction false} KindCountsBounded(s: seq<Threat>)
    ensures |Filter(s, OfKind("beacon"))| + |Filter(s, OfKind("long_connection"))|
          + |Filter(s, OfKind("dns_tunneling"))| + |Filter(s, OfKind("data_exfiltration"))| <= |s|
  {
    if s != [] {
      KindCountsBounded(s[..|s| - 1]);
    }
  }

  /**
   * When every combined threat carries a tier name (as the severity ladders
   * produce), the four tier counts add up to `total_threats`.
   */
  lemma SummaryTiersAddUp(beacons: Analysis, longConnections: Analysis, dns: Analysis, minutes: int)
    requires forall t :: t in Combined(beacons, longConnections, dns) ==> OnLadder(t)
    ensures var st := ThreatAnalyticsSummary(beacons, longConnections, dns, minutes).stats;
            st.critical + st.high + st.medium + st.low == st.total
    ensures var st := ThreatAnalyticsSummary(beacons, longConnections, dns, minutes).stats;
            st.beacons + st.longConnections + st.dnsTunneling + st.dataExfiltration <= st.total
  {
    var all := Combined(beacons, longConnections, dns);
    assert forall i :: 0 <= i < |all| ==> OnLadder(all[i]);
    TierCountsSum(all);
    KindCountsBounded(all);
  }

  /**
   * The label reads back: its words are "Last", the number and the unit,
   * and the number parses to `minutes // 60` hours or to `minutes`.
   */
  lemma TimeRangeLabelWords(minutes: int)
    ensures var w := Split(TimeRangeLabel(minutes), ' ');
            && |w| == 3 && w[0] == "Last"
            && (minutes >= 60 ==> w[2] == "hours" && ParseInt(w[1]) == Some(minutes / 60))
            && (minutes < 60 ==> w[2] == "minutes" && ParseInt(w[1]) == Some(minutes))
  {
    if minutes >= 60 {
      var t := IntToString(minutes / 60);
      assert "Last " + t + " hours" == "Last " + t + " " + "hours";
      assert ' ' !in "hours";
      LabelWords(minutes / 60, "hours");
      ParseIntOfIntToString(minutes / 60);
    } else {
      var t := IntToString(minutes);
      assert "Last " + t + " minutes" == "Last " + t + " " + "minutes";
      assert ' ' !in "minutes";
      LabelWords(minutes, "minutes");
      ParseIntOfIntToString(minutes);
    }
  }

  lemma LabelWords(n: int, unit: string)
    requires ' ' !in unit
    ensures var w := Split("Last " + IntToString(n) + " " + unit, ' ');
            w == ["Last", IntToString(n), unit]
  {
    var text := IntToString(n);
    assert "Last " + text + " " + unit == "Last" + [' '] + (text + [' '] + unit);
    IntToStringFree(n, ' ');
    SplitPiece("Last", ' ', text + [' '] + unit);
    SplitPiece(text, ' ', unit);
    SplitNone(unit, ' ');
  }
}
