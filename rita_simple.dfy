/**
 * The simplified RITA analyser over VCN flow logs: application entries
 * keyed by source, destination, port and port-derived application type,
 * IP-pair communications, and the logs behind a graph selection.
 *
 * The flow query itself is an input: `None` stands for a failed query,
 * `Some(records)` for the records it returned.
 */
module RitaSimple {
  import opened Common
  import Ipv4

  const VCN_SOURCE := "OCI VCN Flow Unified Schema Logs"

  // ---------------------------------------------------------------- ports and risk

  /** `_identify_app_type`: six well-known ports by name, then system or application services by number. */
  function AppType(port: int): (r: string)
    ensures port == 80 ==> r == "HTTP_SERVER"
    ensures port == 443 ==> r == "HTTPS_SERVER"
    ensures port == 22 ==> r == "SSH_SERVER"
    ensures port == 53 ==> r == "DNS_SERVER"
    ensures port == 3306 ==> r == "MYSQL_SERVER"
    ensures port == 5432 ==> r == "POSTGRES_SERVER"
    ensures port !in {80, 443, 22, 53, 3306, 5432} && port < 1024 ==> r == "SYSTEM_SERVICE_" + IntToString(port)
    ensures port >= 1024 && port != 3306 && port != 5432 ==> r == "APP_SERVICE_" + IntToString(port)
  {
    if port == 80 then "HTTP_SERVER"
    else if port == 443 then "HTTPS_SERVER"
    else if port == 22 then "SSH_SERVER"
    else if port == 53 then "DNS_SERVER"
    else if port == 3306 then "MYSQL_SERVER"
    else if port == 5432 then "POSTGRES_SERVER"
    else if port < 1024 then "SYSTEM_SERVICE_" + IntToString(port)
    else "APP_SERVICE_" + IntToString(port)
  }

  lemma IntToStringColonFree(i: int)
    ensures ':' !in IntToString(i)
  {
    ParseIntOfIntToString(i);
    if ':' in IntToString(i) {
      ParseIntCharacters(IntToString(i), ':');
    }
  }

  /** An application type never contains ':', so it always ends up whole in the last key piece. */
  lemma AppTypeColonFree(port: int)
    ensures ':' !in AppType(port)
  {
    IntToStringColonFree(port);
  }

  /** The port of an unnamed service can be read back from its type. */
  lemma AppTypeNumbered(port: int)
    requires port !in {80, 443, 22, 53, 3306, 5432}
    ensures var prefix := if port < 1024 then "SYSTEM_SERVICE_" else "APP_SERVICE_";
            |prefix| <= |AppType(port)| && AppType(port)[..|prefix|] == prefix
            && ParseInt(AppType(port)[|prefix|..]) == Some(port)
  {
    ParseIntOfIntToString(port);
    var prefix := if port < 1024 then "SYSTEM_SERVICE_" else "APP_SERVICE_";
    assert AppType(port) == prefix + IntToString(port);
    assert AppType(port)[|prefix|..] == IntToString(port);
  }

  /** `action in ['REJECT', 'DROP', 'DENY']`. */
  predicate IsBlockedAction(action: Value)
  {
    action == VStr("REJECT") || action == VStr("DROP") || action == VStr("DENY")
  }

  function ConnectionRisk(connections: int): real
  {
    if connections > 100 then 0.3 else if connections > 10 then 0.1 else 0.0
  }

  /** The port term: nothing when `int(port)` raises. */
  function PortRisk(port: string): real
  {
    match ParseInt(port)
    case Some(n) => if n > 8000 then 0.3 else if n > 1024 then 0.1 else 0.0
    case None => 0.0
  }

  function BlockedRisk(actions: seq<Value>): real
  {
    if exists i :: 0 <= i < |actions| && IsBlockedAction(actions[i]) then 0.4 else 0.0
  }

  /** `_calculate_risk_score`. */
  function RiskScore(connections: int, port: string, actions: seq<Value>): real
  {
    var risk := ConnectionRisk(connections) + PortRisk(port) + BlockedRisk(actions);
    if risk < 1.0 then risk else 1.0
  }

  /**
   * The score lies in [0, 1] and the cap never bites: it is the sum of its
   * three terms; a blocked action contributes 0.4, a port `int()` rejects
   * contributes nothing, and the score is 0 exactly when no term applies.
   */
  lemma RiskScoreProperties(connections: int, port: string, actions: seq<Value>)
    ensures 0.0 <= RiskScore(connections, port, actions) <= 1.0
    ensures RiskScore(connections, port, actions) == ConnectionRisk(connections) + PortRisk(port) + BlockedRisk(actions)
    ensures (exists i :: 0 <= i < |actions| && IsBlockedAction(actions[i])) <==> BlockedRisk(actions) == 0.4
    ensures (exists i :: 0 <= i < |actions| && IsBlockedAction(actions[i])) ==> RiskScore(connections, port, actions) >= 0.4
    ensures ParseInt(port).None? ==> RiskScore(connections, port, actions) == ConnectionRisk(connections) + BlockedRisk(actions)
    ensures RiskScore(connections, port, actions) == 0.0 <==>
              connections <= 10 && PortRisk(port) == 0.0 && forall i :: 0 <= i < |actions| ==> !IsBlockedAction(actions[i])
  {
  }

  // ---------------------------------------------------------------- record fields

  function SourceIpOf(r: Record): Value { Get(r, "Source IP", VStr("")) }
  function DestIpOf(r: Record): Value { Get(r, "Destination IP", VStr("")) }
  function DestPortOf(r: Record): Value { Get(r, "Destination Port", VInt(0)) }
  function ActionOf(r: Record): Value { Get(r, "Action", VStr("UNKNOWN")) }

  /** `int(dest_port) if dest_port else 0`; none where `int()` raises. */
  function PortNumber(v: Value): Option<int>
  {
    if !Truthy(v) then Some(0)
    else match v
      case VInt(n) => Some(n)
      case VStr(s) => ParseInt(s)
      case VNone => Some(0)
  }

  function PortOrZero(v: Value): int
  {
    var p := PortNumber(v);
    if p.Some? then p.value else 0
  }

  /** A port value `int()` accepts prints without ':'. */
  lemma PortTextColonFree(v: Value)
    requires PortNumber(v).Some?
    ensures ':' !in RawText(v)
  {
    match v
    case VInt(n) => IntToStringColonFree(n);
    case VStr(s) =>
      if ':' in s {
        ParseIntCharacters(s, ':');
      }
    case VNone =>
  }

  // ---------------------------------------------------------------- applications

  /** A record the application pass counts: both addresses truthy. */
  predicate AppCounted(r: Record)
  {
    Truthy(SourceIpOf(r)) && Truthy(DestIpOf(r))
  }

  /** A destination port `int()` rejects: on a counted record the whole pass raises and returns []. */
  predicate PortRejected(r: Record)
  {
    PortNumber(DestPortOf(r)).None?
  }

  /** `f"{source_ip}:{dest_ip}:{dest_port}:{app_type}"`. */
  function AppKeyText(r: Record): string
  {
    RawText(SourceIpOf(r)) + ":" + RawText(DestIpOf(r)) + ":" + RawText(DestPortOf(r)) + ":" + AppType(PortOrZero(DestPortOf(r)))
  }

  /** One `app_comms` entry (the address sets the source also collects are never read). */
  datatype AppAcc = AppAcc(connections: nat, actions: seq<Value>, sampleLogs: seq<Record>)

  const APP_ACC_INIT := AppAcc(0, [], [])
  const SAMPLE_LIMIT := 3
  const REPORTED_SAMPLES := 2

  function AppStep(a: AppAcc, r: Record): AppAcc
  {
    AppAcc(a.connections + 1, a.actions + [ActionOf(r)],
           if |a.sampleLogs| < SAMPLE_LIMIT then a.sampleLogs + [r] else a.sampleLogs)
  }

  datatype AppSummary = AppSummary(sourceApp: string, destApp: string, sourceIp: string, destIp: string,
                                   port: int, protocol: string, connectionCount: nat, totalBytes: int,
                                   firstSeen: string, lastSeen: string, logSources: seq<string>,
                                   sampleLogs: seq<Record>, riskScore: real)

  /** `f"CLIENT_{source_ip.split('.')[-1]}"`. */
  function ClientName(ip: string): string
  {
    var pieces := Split(ip, '.');
    "CLIENT_" + pieces[|pieces| - 1]
  }

  /** `int(port) if port.isdigit() else 0`; none where `isdigit()` holds but `int()` raises (a superscript digit, say). */
  function ReportedPort(port: string): Option<int>
  {
    if IsDigitLikes(port) then ParseInt(port) else Some(0)
  }

  /** The third piece of a key is a port `isdigit()` accepts and `int()` rejects. */
  predicate KeyPortRaises(key: string)
  {
    var parts := Split(key, ':');
    |parts| >= 4 && ReportedPort(parts[2]).None?
  }

  /** Building the entries raises: some key's third piece is a port `int()` rejects. */
  predicate EntryRaises(events: seq<Record>)
  {
    var keys := KeysOf(events, AppKeyText);
    exists j :: 0 <= j < |keys| && KeyPortRaises(keys[j])
  }

  /** The entry for one key, read back from `key.split(':')`; none when it has fewer than four pieces. */
  function AppEntry(key: string, a: AppAcc, now: string): seq<AppSummary>
  {
    var parts := Split(key, ':');
    if |parts| >= 4 then
      var port := ReportedPort(parts[2]);
      [AppSummary(ClientName(parts[0]), parts[3], parts[0], parts[1], if port.Some? then port.value else 0, "TCP",
                  a.connections, 1024 * a.connections, now, now, [VCN_SOURCE],
                  Take(a.sampleLogs, REPORTED_SAMPLES), RiskScore(a.connections, parts[2], a.actions))]
    else []
  }

  function AppEmitter(now: string): (string, AppAcc) -> seq<AppSummary>
  {
    (k: string, a: AppAcc) => AppEntry(k, a, now)
  }

  function AppEntriesOfGroup(now: string): (string, seq<Record>) -> seq<AppSummary>
  {
    FoldedEmitter(AppEmitter(now), AppStep, APP_ACC_INIT)
  }

  function AppRank(a: AppSummary): Rank
  {
    ByReal(a.riskScore)
  }

  /** `min(500, max(100, n))`. */
  function AppLimit(n: nat): int
  {
    if n > 500 then 500 else if n > 100 then n else 100
  }

  /** Some counted record has a port `int()` rejects. */
  predicate AppRaises(records: seq<Record>)
  {
    exists i :: 0 <= i < |records| && AppCounted(records[i]) && PortRejected(records[i])
  }

  /** One entry per bucket of counted records, in first-appearance order of the keys. */
  function AppEntries(events: seq<Record>, now: string): seq<AppSummary>
  {
    FlatMapGroups(events, AppKeyText, KeysOf(events, AppKeyText), AppEntriesOfGroup(now))
  }

  /** `sorted(..., reverse=True)[:max_apps]`. */
  function TopApplications(entries: seq<AppSummary>): seq<AppSummary>
  {
    Take(SortDesc(entries, AppRank), AppLimit(|entries|))
  }

  /** `analyze_applications` as a function of the query result and the clock's ISO text. */
  function Applications(query: Option<seq<Record>>, now: string): seq<AppSummary>
  {
    if query.None? || AppRaises(query.value) || EntryRaises(Filter(query.value, AppCounted)) then []
    else TopApplications(AppEntries(Filter(query.value, AppCounted), now))
  }



  method AnalyzeApplications(query: Option<seq<Record>>, now: string) returns (apps: seq<AppSummary>)
    ensures apps == Applications(query, now)
  {
    if query.None? {
      return [];
    }
    var raised, keys, comms := FoldGroupsUnlessRaised(query.value, AppCounted, PortRejected, AppKeyText, AppStep, APP_ACC_INIT);
    if raised {
      return [];
    }
    if exists j :: 0 <= j < |keys| && KeyPortRaises(keys[j]) {
      return [];
    }
    var entries := EmitFolded(Filter(query.value, AppCounted), AppKeyText, AppStep, APP_ACC_INIT, keys, comms, AppEmitter(now));
    apps := TopApplications(entries);
  }

  /** The counters of an entry are those of its bucket. */
  lemma {:induction false} AppFold(g: seq<Record>)
    ensures var a := FoldLeft(g, AppStep, APP_ACC_INIT);
            a.connections == |g| && a.actions == MapSeq(g, ActionOf) && a.sampleLogs == Take(g, SAMPLE_LIMIT)
  {
    if g != [] {
      var p := g[..|g| - 1];
      AppFold(p);
      MapSeqSnoc(p, g[|g| - 1], ActionOf);
      assert g == p + [g[|g| - 1]];
    }
  }

  /** Four pieces free of ':' joined by ':' split back into exactly those pieces. */
  lemma AppKeySplit(src: string, dst: string, port: string, app: string)
    requires ':' !in src && ':' !in dst && ':' !in port && ':' !in app
    ensures Split(src + ":" + dst + ":" + port + ":" + app, ':') == [src, dst, port, app]
  {
    var k := src + ":" + dst + ":" + port + ":" + app;
    assert k == src + [':'] + (dst + [':'] + (port + [':'] + app));
    SplitJoin(src, ':', dst + [':'] + (port + [':'] + app));
    SplitJoin(dst, ':', port + [':'] + app);
    SplitJoin(port, ':', app);
    SplitNone(src, ':');
    SplitNone(dst, ':');
    SplitNone(port, ':');
    SplitNone(app, ':');
  }

  lemma FourPieces(s: string, d: string, p: string, t: string)
    ensures |Split(s + ":" + d + ":" + p + ":" + t, ':')| >= 4
  {
    assert s + ":" + d + ":" + p + ":" + t == s + [':'] + (d + [':'] + (p + [':'] + t));
    SplitJoin(s, ':', d + [':'] + (p + [':'] + t));
    SplitJoin(d, ':', p + [':'] + t);
    SplitJoin(p, ':', t);
  }

  /** Any application key splits into at least four pieces, so every key yields an entry. */
  lemma AppKeyPieces(r: Record)
    ensures |Split(AppKeyText(r), ':')| >= 4
  {
    FourPieces(RawText(SourceIpOf(r)), RawText(DestIpOf(r)), RawText(DestPortOf(r)), AppType(PortOrZero(DestPortOf(r))));
  }

  lemma Ipv4FormatColonFree(x: Ipv4.Address)
    ensures ':' !in Ipv4.Format(x)
  {
    var a, b, c, d := NatToString(x.a), NatToString(x.b), NatToString(x.c), NatToString(x.d);
    var s := a + "." + b + "." + c + "." + d;
    assert Ipv4.Format(x) == s;
    assert forall i :: 0 <= i < |s| ==> s[i] == '.' || IsDigit(s[i]);
  }

  /**
   * For a flow between two dotted-quad addresses whose port `int()`
   * accepts, the key splits back into the four parts it was made from.
   */
  lemma AppKeyRecovers(r: Record, src: Ipv4.Address, dst: Ipv4.Address)
    requires SourceIpOf(r) == VStr(Ipv4.Format(src)) && DestIpOf(r) == VStr(Ipv4.Format(dst))
    requires PortNumber(DestPortOf(r)).Some?
    ensures Split(AppKeyText(r), ':') ==
              [Ipv4.Format(src), Ipv4.Format(dst), RawText(DestPortOf(r)), AppType(PortOrZero(DestPortOf(r)))]
  {
    Ipv4FormatColonFree(src);
    Ipv4FormatColonFree(dst);
    PortTextColonFree(DestPortOf(r));
    AppTypeColonFree(PortOrZero(DestPortOf(r)));
    AppKeySplit(Ipv4.Format(src), Ipv4.Format(dst), RawText(DestPortOf(r)), AppType(PortOrZero(DestPortOf(r))));
  }

  /**
   * The second raise needs a shifted key: when neither address holds ':'
   * and `int()` accepts the port, the key's third piece is that port's
   * text and reading it back never raises.
   */
  lemma KeyPortNeverRaises(r: Record)
    requires ':' !in RawText(SourceIpOf(r)) && ':' !in RawText(DestIpOf(r))
    requires PortNumber(DestPortOf(r)).Some?
    ensures !KeyPortRaises(AppKeyText(r))
  {
    var v := DestPortOf(r);
    PortTextColonFree(v);
    AppTypeColonFree(PortOrZero(v));
    AppKeySplit(RawText(SourceIpOf(r)), RawText(DestIpOf(r)), RawText(v), AppType(PortOrZero(v)));
    PortTextReported(v);
  }

  /** The text of a port `int()` accepts is never a digit-like text that `int()` rejects. */
  lemma PortTextReported(v: Value)
    requires PortNumber(v).Some?
    ensures ReportedPort(RawText(v)).Some?
  {
    match v
    case VInt(n) => ParseIntOfIntToString(n);
    case VStr(_) =>
    case VNone => assert !IsDigitLike('N');
  }

  /** Each distinct key yields exactly one entry. */
  lemma AppEntrySingle(k: string, a: AppAcc, now: string)
    requires |Split(k, ':')| >= 4
    ensures |AppEntry(k, a, now)| == 1
  {
  }

  lemma {:induction false} AppEntriesCount(events: seq<Record>, keys: seq<string>, now: string)
    requires forall j :: 0 <= j < |keys| ==> keys[j] in KeysOf(events, AppKeyText)
    ensures |FlatMapGroups(events, AppKeyText, keys, AppEntriesOfGroup(now))| == |keys|
  {
    if keys != [] {
      var k := keys[|keys| - 1];
      AppEntriesCount(events, keys[..|keys| - 1], now);
      KeysOfMember(events, AppKeyText, k);
      var i :| 0 <= i < |events| && AppKeyText(events[i]) == k;
      AppKeyPieces(events[i]);
      var g := GroupOf(events, AppKeyText, k);
      AppEntrySingle(k, FoldLeft(g, AppStep, APP_ACC_INIT), now);
      assert AppEntriesOfGroup(now)(k, g) == AppEntry(k, FoldLeft(g, AppStep, APP_ACC_INIT), now);
    }
  }

  /** The top list is sorted, drawn from the entries, and holds min(n, 500) of them. */
  lemma TopApplicationsShape(entries: seq<AppSummary>)
    ensures |TopApplications(entries)| == if |entries| < 500 then |entries| else 500
    ensures SortedDesc(TopApplications(entries), AppRank)
    ensures forall a :: a in TopApplications(entries) ==> a in entries
  {
    var sorted := SortDesc(entries, AppRank);
    SortDescSorted(entries, AppRank);
    assert |sorted| == |entries| by { assert |multiset(sorted)| == |multiset(entries)|; }
    var t := TopApplications(entries);
    assert forall i :: 0 <= i < |t| ==> t[i] == sorted[i];
    forall a | a in t
      ensures a in entries
    {
      assert a in multiset(sorted);
    }
  }

  /**
   * A failed query, or a counted record with a port `int()` rejects, gives
   * []; otherwise one entry per distinct key, highest risk first, capped at
   * 500.
   */
  lemma ApplicationsShape(query: Option<seq<Record>>, now: string)
    ensures query.None? || AppRaises(query.value) ==> Applications(query, now) == []
    ensures query.Some? && EntryRaises(Filter(query.value, AppCounted)) ==> Applications(query, now) == []
    ensures query.Some? && !AppRaises(query.value) && !EntryRaises(Filter(query.value, AppCounted)) ==>
              var n := |KeysOf(Filter(query.value, AppCounted), AppKeyText)|;
              |Applications(query, now)| == (if n < 500 then n else 500)
    ensures SortedDesc(Applications(query, now), AppRank)
  {
    if query.Some? && !AppRaises(query.value) && !EntryRaises(Filter(query.value, AppCounted)) {
      var events := Filter(query.value, AppCounted);
      AppEntriesCount(events, KeysOf(events, AppKeyText), now);
      TopApplicationsShape(AppEntries(events, now));
    }
  }

  /** The counts, bytes, samples and risk of the entry made from one accumulator. */
  lemma AppEntryBounds(k: string, a: AppAcc, now: string, x: AppSummary)
    requires x in AppEntry(k, a, now)
    ensures x.connectionCount == a.connections && x.totalBytes == 1024 * x.connectionCount
    ensures x.sampleLogs == Take(a.sampleLogs, REPORTED_SAMPLES)
    ensures 0.0 <= x.riskScore <= 1.0
  {
    RiskScoreProperties(a.connections, Split(k, ':')[2], a.actions);
  }

  /** `a` reports bucket `k` of `events`: its count is the bucket's size and its samples the bucket's first two records. */
  predicate AppOfBucket(events: seq<Record>, k: string, a: AppSummary)
  {
    && k in KeysOf(events, AppKeyText)
    && var g := GroupOf(events, AppKeyText, k);
       a.connectionCount == |g| >= 1 && a.sampleLogs == Take(g, REPORTED_SAMPLES)
  }

  /** The key and folded accumulator an entry was made from. */
  lemma AppEntryOrigin(events: seq<Record>, now: string, a: AppSummary) returns (k: string, acc: AppAcc)
    requires a in AppEntries(events, now)
    ensures k in KeysOf(events, AppKeyText) && acc == FoldLeft(GroupOf(events, AppKeyText, k), AppStep, APP_ACC_INIT)
    ensures a in AppEntry(k, acc, now)
    ensures acc.connections == |GroupOf(events, AppKeyText, k)| >= 1
    ensures acc.sampleLogs == Take(GroupOf(events, AppKeyText, k), SAMPLE_LIMIT)
  {
    var keys := KeysOf(events, AppKeyText);
    FlatMapGroupsMember(events, AppKeyText, keys, AppEntriesOfGroup(now), a);
    var j :| 0 <= j < |keys| && a in AppEntriesOfGroup(now)(keys[j], GroupOf(events, AppKeyText, keys[j]));
    k := keys[j];
    var g := GroupOf(events, AppKeyText, k);
    acc := FoldLeft(g, AppStep, APP_ACC_INIT);
    AppFold(g);
    GroupOfNonEmpty(events, AppKeyText, k);
  }

  /** An entry of one bucket. */
  lemma AppEntriesMembers(events: seq<Record>, now: string, a: AppSummary)
    requires a in AppEntries(events, now)
    ensures a.totalBytes == 1024 * a.connectionCount
    ensures 0.0 <= a.riskScore <= 1.0
    ensures exists k :: AppOfBucket(events, k, a)
  {
    var k, acc := AppEntryOrigin(events, now, a);
    AppEntryBounds(k, acc, now, a);
    TakeOfTake(GroupOf(events, AppKeyText, k), SAMPLE_LIMIT, REPORTED_SAMPLES);
    assert AppOfBucket(events, k, a);
  }

  /**
   * Every entry stands for one bucket of counted records: its connection
   * count is the bucket's size, its bytes are the 1024-per-connection
   * estimate, it shows at most two of the bucket's first records and its
   * risk lies in [0, 1].
   */
  lemma ApplicationsMembers(query: Option<seq<Record>>, now: string, a: AppSummary)
    requires a in Applications(query, now)
    ensures a.totalBytes == 1024 * a.connectionCount
    ensures 0.0 <= a.riskScore <= 1.0
    ensures query.Some? && exists k :: AppOfBucket(Filter(query.value, AppCounted), k, a)
  {
    var events := Filter(query.value, AppCounted);
    TopApplicationsShape(AppEntries(events, now));
    AppEntriesMembers(events, now, a);
  }

  // ---------------------------------------------------------------- communications

  /** A record the communication pass counts: both addresses truthy and different. */
  predicate CommCounted(r: Record)
  {
    Truthy(SourceIpOf(r)) && Truthy(DestIpOf(r)) && SourceIpOf(r) != DestIpOf(r)
  }

  /** `f"{source_ip}:{dest_ip}"`. */
  function CommKeyText(r: Record): string
  {
    RawText(SourceIpOf(r)) + ":" + RawText(DestIpOf(r))
  }

  /** One `ip_comms` entry; `ports` is the port set, listed in order of first appearance. */
  datatype CommAcc = CommAcc(connections: nat, ports: seq<int>, actions: seq<Value>, sampleLogs: seq<Record>)

  const COMM_ACC_INIT := CommAcc(0, [], [], [])

  function CommStep(a: CommAcc, r: Record): CommAcc
  {
    var p := PortOrZero(DestPortOf(r));
    CommAcc(a.connections + 1, if p in a.ports then a.ports else a.ports + [p], a.actions + [ActionOf(r)],
            if |a.sampleLogs| < SAMPLE_LIMIT then a.sampleLogs + [r] else a.sampleLogs)
  }

  datatype CommSummary = CommSummary(sourceIp: string, destIp: string, portsUsed: seq<int>, protocols: seq<string>,
                                     actions: seq<Value>, connectionCount: nat, totalBytes: int,
                                     firstSeen: string, lastSeen: string, logSources: seq<string>,
                                     sampleLogs: seq<Record>, isInternalToInternal: bool,
                                     isInternalToExternal: bool, isExternalToInternal: bool,
                                     riskIndicators: seq<string>)

  const PORT_LIMIT := 20
  const ACTION_LIMIT := 5

  function CommIndicators(a: CommAcc, internalSrc: bool, internalDst: bool): seq<string>
  {
    (if VStr("REJECT") in a.actions || VStr("DROP") in a.actions then ["blocked_connection"] else [])
    + (if exists i :: 0 <= i < |a.ports| && a.ports[i] > 1024 then ["high_port"] else [])
    + (if !internalSrc && internalDst then ["external_to_internal"] else [])
  }

  /** The entry for one key, read back from `key.split(':', 1)`. */
  function CommEntry(key: string, a: CommAcc, now: string): seq<CommSummary>
  {
    var parts := SplitAtMost(key, ':', 1);
    if |parts| == 2 then
      var internalSrc := Ipv4.IsInternal(parts[0]);
      var internalDst := Ipv4.IsInternal(parts[1]);
      [CommSummary(parts[0], parts[1], Take(a.ports, PORT_LIMIT), ["TCP"], Take(Distinct(a.actions), ACTION_LIMIT),
                   a.connections, 1024 * a.connections, now, now, [VCN_SOURCE], Take(a.sampleLogs, REPORTED_SAMPLES),
                   internalSrc && internalDst, internalSrc && !internalDst, !internalSrc && internalDst,
                   CommIndicators(a, internalSrc, internalDst))]
    else []
  }

  function CommEmitter(now: string): (string, CommAcc) -> seq<CommSummary>
  {
    (k: string, a: CommAcc) => CommEntry(k, a, now)
  }

  function CommEntriesOfGroup(now: string): (string, seq<Record>) -> seq<CommSummary>
  {
    FoldedEmitter(CommEmitter(now), CommStep, COMM_ACC_INIT)
  }

  function CommRank(c: CommSummary): Rank
  {
    ByReal(|c.riskIndicators| as real)
  }

  /** `min(300, max(50, n))`. */
  function CommLimit(n: nat): int
  {
    if n > 300 then 300 else if n > 50 then n else 50
  }

  /** Some counted record has a port `int()` rejects. */
  predicate CommRaises(records: seq<Record>)
  {
    exists i :: 0 <= i < |records| && CommCounted(records[i]) && PortRejected(records[i])
  }

  /** One entry per bucket of counted records, in first-appearance order of the keys. */
  function CommEntries(events: seq<Record>, now: string): seq<CommSummary>
  {
    FlatMapGroups(events, CommKeyText, KeysOf(events, CommKeyText), CommEntriesOfGroup(now))
  }

  /** `sorted(..., reverse=True)[:max_comms]`. */
  function TopCommunications(entries: seq<CommSummary>): seq<CommSummary>
  {
    Take(SortDesc(entries, CommRank), CommLimit(|entries|))
  }

  /** `analyze_communications` as a function of the query result and the clock's ISO text. */
  function Communications(query: Option<seq<Record>>, now: string): seq<CommSummary>
  {
    if query.None? || CommRaises(query.value) then []
    else TopCommunications(CommEntries(Filter(query.value, CommCounted), now))
  }



  method AnalyzeCommunications(query: Option<seq<Record>>, now: string) returns (communications: seq<CommSummary>)
    ensures communications == Communications(query, now)
  {
    if query.None? {
      return [];
    }
    var raised, keys, accs := FoldGroupsUnlessRaised(query.value, CommCounted, PortRejected, CommKeyText, CommStep, COMM_ACC_INIT);
    if raised {
      return [];
    }
    var entries := EmitFolded(Filter(query.value, CommCounted), CommKeyText, CommStep, COMM_ACC_INIT, keys, accs, CommEmitter(now));
    communications := TopCommunications(entries);
  }

  /** The counters of an entry are those of its bucket; its ports are the bucket's distinct ports. */
  lemma {:induction false} CommFold(g: seq<Record>)
    ensures var a := FoldLeft(g, CommStep, COMM_ACC_INIT);
            && a.connections == |g|
            && a.ports == Distinct(MapSeq(g, CommPort))
            && a.actions == MapSeq(g, ActionOf)
            && a.sampleLogs == Take(g, SAMPLE_LIMIT)
  {
    if g != [] {
      var p := g[..|g| - 1];
      CommFold(p);
      MapSeqSnoc(p, g[|g| - 1], ActionOf);
      MapSeqSnoc(p, g[|g| - 1], CommPort);
      var ports := MapSeq(g, CommPort);
      assert ports[..|ports| - 1] == MapSeq(p, CommPort);
      assert g == p + [g[|g| - 1]];
    }
  }

  function CommPort(r: Record): int
  {
    PortOrZero(DestPortOf(r))
  }

  /** A communication key always splits into its two halves. */
  lemma CommKeyPieces(r: Record)
    ensures |SplitAtMost(CommKeyText(r), ':', 1)| == 2
  {
    var s := RawText(SourceIpOf(r));
    var d := RawText(DestIpOf(r));
    CommKeyHalves(s, d);
  }

  lemma {:induction false} CommKeyHalves(s: string, d: string)
    ensures |SplitAtMost(s + ":" + d, ':', 1)| == 2
    decreases |s|
  {
    if s == [] {
      assert s + ":" + d == [':'] + d;
      assert (s + ":" + d)[1..] == d;
    } else if s[0] == ':' {
      assert (s + ":" + d)[0] == ':';
    } else {
      assert (s + ":" + d)[0] == s[0];
      assert (s + ":" + d)[1..] == s[1..] + ":" + d;
      CommKeyHalves(s[1..], d);
    }
  }

  /** For a source address without ':' the halves are the two addresses. */
  lemma CommKeyRecovers(r: Record)
    requires ':' !in RawText(SourceIpOf(r))
    ensures SplitAtMost(CommKeyText(r), ':', 1) == [RawText(SourceIpOf(r)), RawText(DestIpOf(r))]
  {
    var s := RawText(SourceIpOf(r));
    var d := RawText(DestIpOf(r));
    assert CommKeyText(r) == s + [':'] + d;
    SplitAtMostPiece(s, ':', d, 0);
  }

  /** Each distinct key yields exactly one entry. */
  lemma CommEntrySingle(k: string, a: CommAcc, now: string)
    requires |SplitAtMost(k, ':', 1)| == 2
    ensures |CommEntry(k, a, now)| == 1
  {
  }

  lemma {:induction false} CommEntriesCount(events: seq<Record>, keys: seq<string>, now: string)
    requires forall j :: 0 <= j < |keys| ==> keys[j] in KeysOf(events, CommKeyText)
    ensures |FlatMapGroups(events, CommKeyText, keys, CommEntriesOfGroup(now))| == |keys|
  {
    if keys != [] {
      var k := keys[|keys| - 1];
      CommEntriesCount(events, keys[..|keys| - 1], now);
      KeysOfMember(events, CommKeyText, k);
      var i :| 0 <= i < |events| && CommKeyText(events[i]) == k;
      CommKeyPieces(events[i]);
      var g := GroupOf(events, CommKeyText, k);
      CommEntrySingle(k, FoldLeft(g, CommStep, COMM_ACC_INIT), now);
      assert CommEntriesOfGroup(now)(k, g) == CommEntry(k, FoldLeft(g, CommStep, COMM_ACC_INIT), now);
    }
  }

  /** The top list is sorted, drawn from the entries, and holds min(n, 300) of them. */
  lemma TopCommunicationsShape(entries: seq<CommSummary>)
    ensures |TopCommunications(entries)| == if |entries| < 300 then |entries| else 300
    ensures SortedDesc(TopCommunications(entries), CommRank)
    ensures forall c :: c in TopCommunications(entries) ==> c in entries
  {
    var sorted := SortDesc(entries, CommRank);
    SortDescSorted(entries, CommRank);
    assert |sorted| == |entries| by { assert |multiset(sorted)| == |multiset(entries)|; }
    var t := TopCommunications(entries);
    assert forall i :: 0 <= i < |t| ==> t[i] == sorted[i];
    forall c | c in t
      ensures c in entries
    {
      assert c in multiset(sorted);
    }
  }

  /**
   * A failed query, or a counted record with a port `int()` rejects, gives
   * []; otherwise one entry per distinct address pair, most risk
   * indicators first, capped at 300.
   */
  lemma CommunicationsShape(query: Option<seq<Record>>, now: string)
    ensures query.None? || CommRaises(query.value) ==> Communications(query, now) == []
    ensures query.Some? && !CommRaises(query.value) ==>
              var n := |KeysOf(Filter(query.value, CommCounted), CommKeyText)|;
              |Communications(query, now)| == (if n < 300 then n else 300)
    ensures SortedDesc(Communications(query, now), CommRank)
  {
    if query.Some? && !CommRaises(query.value) {
      var events := Filter(query.value, CommCounted);
      CommEntriesCount(events, KeysOf(events, CommKeyText), now);
      TopCommunicationsShape(CommEntries(events, now));
    }
  }

  /** The limits and flags of every entry, whatever its bucket. */
  lemma CommEntryBounds(key: string, a: CommAcc, now: string, c: CommSummary)
    requires NoDup(a.ports) && c in CommEntry(key, a, now)
    ensures c.totalBytes == 1024 * c.connectionCount && c.connectionCount == a.connections
    ensures |c.portsUsed| <= PORT_LIMIT && NoDup(c.portsUsed) && (forall p :: p in c.portsUsed ==> p in a.ports)
    ensures |c.actions| <= ACTION_LIMIT && NoDup(c.actions) && (forall v :: v in c.actions ==> v in a.actions)
    ensures |c.sampleLogs| <= REPORTED_SAMPLES
    ensures !(c.isInternalToInternal && c.isInternalToExternal) && !(c.isInternalToInternal && c.isExternalToInternal)
            && !(c.isInternalToExternal && c.isExternalToInternal)
  {
    TakeDistinct(a.ports, PORT_LIMIT);
    TakeDistinct(Distinct(a.actions), ACTION_LIMIT);
  }

  lemma CommBucketCounted(records: seq<Record>, k: string)
    ensures forall x :: x in GroupOf(Filter(records, CommCounted), CommKeyText, k) ==> SourceIpOf(x) != DestIpOf(x)
  {
    forall x | x in GroupOf(Filter(records, CommCounted), CommKeyText, k)
      ensures SourceIpOf(x) != DestIpOf(x)
    {
      GroupOfWithin(Filter(records, CommCounted), CommKeyText, k, x);
      FilterMember(records, CommCounted, x);
    }
  }

  /**
   * `c` reports bucket `k` of `events`: its count is the bucket's size, the
   * bucket's records all have two different addresses, and its ports and
   * actions are ones the bucket's records carry.
   */
  predicate CommOfBucket(events: seq<Record>, k: string, c: CommSummary)
  {
    && k in KeysOf(events, CommKeyText)
    && var g := GroupOf(events, CommKeyText, k);
       && c.connectionCount == |g| >= 1
       && (forall x :: x in g ==> SourceIpOf(x) != DestIpOf(x))
       && (forall p :: p in c.portsUsed ==> p in MapSeq(g, CommPort))
       && (forall v :: v in c.actions ==> v in MapSeq(g, ActionOf))
  }

  lemma CommEntriesMembers(records: seq<Record>, now: string, c: CommSummary)
    requires c in CommEntries(Filter(records, CommCounted), now)
    ensures c.totalBytes == 1024 * c.connectionCount
    ensures |c.portsUsed| <= PORT_LIMIT && NoDup(c.portsUsed) && |c.actions| <= ACTION_LIMIT && NoDup(c.actions)
    ensures |c.sampleLogs| <= REPORTED_SAMPLES
    ensures !(c.isInternalToInternal && c.isInternalToExternal) && !(c.isInternalToInternal && c.isExternalToInternal)
            && !(c.isInternalToExternal && c.isExternalToInternal)
    ensures exists k :: CommOfBucket(Filter(records, CommCounted), k, c)
  {
    var events := Filter(records, CommCounted);
    var k, acc := CommEntryOrigin(events, now, c);
    CommEntryBounds(k, acc, now, c);
    CommBucketCounted(records, k);
    assert CommOfBucket(events, k, c);
  }

  /** The key and folded accumulator an entry was made from. */
  lemma CommEntryOrigin(events: seq<Record>, now: string, c: CommSummary) returns (k: string, acc: CommAcc)
    requires c in CommEntries(events, now)
    ensures k in KeysOf(events, CommKeyText) && acc == FoldLeft(GroupOf(events, CommKeyText, k), CommStep, COMM_ACC_INIT)
    ensures c in CommEntry(k, acc, now)
    ensures acc.connections == |GroupOf(events, CommKeyText, k)| >= 1 && NoDup(acc.ports)
    ensures acc.ports == Distinct(MapSeq(GroupOf(events, CommKeyText, k), CommPort))
    ensures acc.actions == MapSeq(GroupOf(events, CommKeyText, k), ActionOf)
    ensures acc.sampleLogs == Take(GroupOf(events, CommKeyText, k), SAMPLE_LIMIT)
  {
    var keys := KeysOf(events, CommKeyText);
    FlatMapGroupsMember(events, CommKeyText, keys, CommEntriesOfGroup(now), c);
    var j :| 0 <= j < |keys| && c in CommEntriesOfGroup(now)(keys[j], GroupOf(events, CommKeyText, keys[j]));
    k := keys[j];
    var g := GroupOf(events, CommKeyText, k);
    acc := FoldLeft(g, CommStep, COMM_ACC_INIT);
    CommFold(g);
    GroupOfNonEmpty(events, CommKeyText, k);
  }

  /**
   * Every communication stands for one bucket of counted records, whose
   * addresses differ: its connection count is the bucket's size, its bytes
   * the 1024-per-connection estimate; it lists at most 20 distinct ports of
   * the bucket, at most 5 distinct actions and at most 2 sample logs, and at
   * most one direction flag is set.
   */
  lemma CommunicationsMembers(query: Option<seq<Record>>, now: string, c: CommSummary)
    requires c in Communications(query, now)
    ensures c.totalBytes == 1024 * c.connectionCount
    ensures |c.portsUsed| <= PORT_LIMIT && NoDup(c.portsUsed) && |c.actions| <= ACTION_LIMIT && NoDup(c.actions)
    ensures |c.sampleLogs| <= REPORTED_SAMPLES
    ensures !(c.isInternalToInternal && c.isInternalToExternal) && !(c.isInternalToInternal && c.isExternalToInternal)
            && !(c.isInternalToExternal && c.isExternalToInternal)
    ensures query.Some? && exists k :: CommOfBucket(Filter(query.value, CommCounted), k, c)
  {
    TopCommunicationsShape(CommEntries(Filter(query.value, CommCounted), now));
    CommEntriesMembers(query.value, now, c);
  }

  /** A prefix of a list without repeats has none, and holds only its elements. */
  lemma TakeDistinct<T>(s: seq<T>, n: int)
    requires NoDup(s)
    ensures NoDup(Take(s, n)) && forall x :: x in Take(s, n) ==> x in s
  {
    var t := Take(s, n);
    assert forall i :: 0 <= i < |t| ==> t[i] == s[i];
  }

  // ---------------------------------------------------------------- logs for a selection

  /** `get_logs_for_selection`: the returned records, each annotated; [] when the query fails. */
  function SelectionLogs(selectionType: string, selectionValue: string, query: Option<seq<Record>>): seq<Record>
  {
    if query.None? then [] else MapSeq(query.value, Annotator(VCN_SOURCE, selectionType, selectionValue))
  }

  method GetLogsForSelection(selectionType: string, selectionValue: string, query: Option<seq<Record>>)
    returns (logs: seq<Record>)
    ensures logs == SelectionLogs(selectionType, selectionValue, query)
  {
    if query.None? {
      return [];
    }
    logs := MapInOrder(query.value, Annotator(VCN_SOURCE, selectionType, selectionValue));
  }

  /**
   * One log per returned record, in order: the record with its source and
   * the selection written in and every other field untouched.
   */
  lemma SelectionLogsProperties(selectionType: string, selectionValue: string, query: Option<seq<Record>>)
    ensures query.None? ==> SelectionLogs(selectionType, selectionValue, query) == []
    ensures query.Some? ==> |SelectionLogs(selectionType, selectionValue, query)| == |query.value|
    ensures query.Some? ==> forall i :: 0 <= i < |query.value| ==>
              var x := SelectionLogs(selectionType, selectionValue, query)[i];
              && x.Keys == query.value[i].Keys + ANNOTATION_KEYS
              && x["_source"] == VStr(VCN_SOURCE)
              && x["_selection_type"] == VStr(selectionType)
              && x["_selection_value"] == VStr(selectionValue)
              && forall f :: f in query.value[i] && f !in ANNOTATION_KEYS ==> x[f] == query.value[i][f]
  {
    if query.Some? {
      MapSeqPointwise(query.value, Annotator(VCN_SOURCE, selectionType, selectionValue));
    }
  }
}
