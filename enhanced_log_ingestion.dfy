/**
 * The per-source record processors of the multi-source ingester
 * (scripts/enhanced_log_ingestion.py): one pass over the rows of a VCN
 * flow, WAF or load-balancer query fills counters, event lists and keyed
 * tallies; a substring classifier rates WAF attacks; and the ingestion of
 * all three sources succeeds when any one of them does.
 *
 * Each processor is a method with the source's loop, proved equal to a
 * specification function (`VcnProcessed`, `WafProcessed`, `LbProcessed`)
 * built from filters, maps and tallies of the input; the lemmas state what
 * those compute.
 */
module EnhancedLogIngestion {
  import opened Common
  import opened FieldMapping

  // ---------------------------------------------------------------- VCN flow records

  datatype Flow = Flow(
    timestamp: Value, sourceIp: Value, destIp: Value, sourcePort: Value, destPort: Value,
    protocol: string, action: Value, bytes: int, packets: int,
    direction: string, vcnOcid: string, subnetOcid: string)

  datatype SecurityEvent = SecurityEvent(
    eventType: string, severity: string, sourceIp: Value, destIp: Value, destPort: Value,
    protocol: string, timestamp: Value, description: string)

  /** One `topology` entry, keyed by `src->dst`. */
  datatype Link = Link(connections: int, bytes: int, packets: int)

  datatype VcnStats = VcnStats(totalFlows: int, blockedFlows: int, allowedFlows: int, protocols: map<string, int>)

  datatype VcnOutput = VcnOutput(flows: seq<Flow>, securityEvents: seq<SecurityEvent>,
                                 topology: map<string, Link>, stats: VcnStats)

  /** Byte and packet counts are not in the query: every flow is given these. */
  const FLOW_BYTES := 1024
  const FLOW_PACKETS := 1

  const FLOW_PROTOCOL := "TCP"

  function SourceIpOf(record: Record): Value
  {
    Get(record, "Source IP", VStr(""))
  }

  function DestIpOf(record: Record): Value
  {
    Get(record, "Destination IP", VStr(""))
  }

  function ActionOf(record: Record): Value
  {
    Get(record, "Action", VStr("UNKNOWN"))
  }

  /** The `flow` dictionary built from a record; the fields the query does not return get defaults. */
  function FlowOf(record: Record): Flow
  {
    Flow(Get(record, "Time", VNone), SourceIpOf(record), DestIpOf(record),
         Get(record, "Source Port", VInt(0)), Get(record, "Destination Port", VInt(0)),
         FLOW_PROTOCOL, ActionOf(record), FLOW_BYTES, FLOW_PACKETS, "UNKNOWN", "", "")
  }

  /** `flow['action'] == 'REJECT'`: exact and case-sensitive. */
  predicate IsReject(record: Record)
  {
    ActionOf(record) == VStr("REJECT")
  }

  function BlockedEvent(record: Record): SecurityEvent
  {
    var f := FlowOf(record);
    SecurityEvent("blocked_connection", "medium", f.sourceIp, f.destIp, f.destPort, f.protocol, f.timestamp,
                  "Blocked connection attempt from " + RawText(f.sourceIp) + " to " + RawText(f.destIp)
                  + ":" + RawText(f.destPort))
  }

  /** `f"{source_ip}->{dest_ip}"`. */
  function ConnectionKey(record: Record): string
  {
    RawText(SourceIpOf(record)) + "->" + RawText(DestIpOf(record))
  }

  /** `topology[key]` updated for each record: one more connection, the flow's bytes and its packets. */
  function TopologyOf(records: seq<Record>): map<string, Link>
  {
    if records == [] then map[]
    else
      var t := TopologyOf(records[..|records| - 1]);
      var key := ConnectionKey(records[|records| - 1]);
      var link := if key in t then t[key] else Link(0, 0, 0);
      t[key := Link(link.connections + 1, link.bytes + FLOW_BYTES, link.packets + FLOW_PACKETS)]
  }

  /** `stats['protocols'][protocol] += 1` for each record. */
  function ProtocolsOf(records: seq<Record>): map<string, int>
  {
    if records == [] then map[]
    else
      var m := ProtocolsOf(records[..|records| - 1]);
      m[FLOW_PROTOCOL := (if FLOW_PROTOCOL in m then m[FLOW_PROTOCOL] else 0) + 1]
  }

  /**
   * What `_process_vcn_flow_records` returns: one flow per record, in
   * order; one event per record whose action is exactly `REJECT`, in order,
   * counted as blocked; every other record (`DROP` included) counted as
   * allowed.
   */
  function VcnProcessed(records: seq<Record>): VcnOutput
  {
    var rejected := Filter(records, IsReject);
    VcnOutput(MapSeq(records, FlowOf), MapSeq(rejected, BlockedEvent), TopologyOf(records),
              VcnStats(|records|, |rejected|, |records| - |rejected|, ProtocolsOf(records)))
  }

  /** `topology[connection_key]` is created on first use, then gains one connection, its bytes and its packets. */
  method CountConnection(topology: map<string, Link>, ghost done: seq<Record>, record: Record)
    returns (updated: map<string, Link>)
    requires topology == TopologyOf(done)
    ensures updated == TopologyOf(done + [record])
  {
    assert (done + [record])[..|done|] == done;
    var flow := FlowOf(record);
    var key := RawText(flow.sourceIp) + "->" + RawText(flow.destIp);
    updated := topology;
    if key !in updated {
      updated := updated[key := Link(0, 0, 0)];
    }
    var link := updated[key];
    updated := updated[key := Link(link.connections + 1, link.bytes + flow.bytes, link.packets + flow.packets)];
  }

  /** `stats['protocols'][protocol]` is created on first use, then incremented. */
  method CountProtocol(protocols: map<string, int>, ghost done: seq<Record>, record: Record)
    returns (updated: map<string, int>)
    requires protocols == ProtocolsOf(done)
    ensures updated == ProtocolsOf(done + [record])
  {
    assert (done + [record])[..|done|] == done;
    var protocol := FlowOf(record).protocol;
    updated := protocols;
    if protocol !in updated {
      updated := updated[protocol := 0];
    }
    updated := updated[protocol := updated[protocol] + 1];
  }

  /** A REJECT flow counts as blocked and raises a `blocked_connection` event; any other flow counts as allowed. */
  method CountAction(securityEvents: seq<SecurityEvent>, blocked: int, allowed: int, ghost done: seq<Record>,
                     record: Record)
    returns (securityEvents': seq<SecurityEvent>, blocked': int, allowed': int)
    requires securityEvents == MapSeq(Filter(done, IsReject), BlockedEvent)
    requires blocked == |Filter(done, IsReject)| && allowed == |done| - blocked
    ensures securityEvents' == MapSeq(Filter(done + [record], IsReject), BlockedEvent)
    ensures blocked' == |Filter(done + [record], IsReject)| && allowed' == |done + [record]| - blocked'
  {
    FilterSnoc(done, record, IsReject);
    securityEvents', blocked', allowed' := securityEvents, blocked, allowed;
    if FlowOf(record).action == VStr("REJECT") {
      blocked' := blocked + 1;
      MapSeqSnoc(Filter(done, IsReject), record, BlockedEvent);
      securityEvents' := securityEvents + [BlockedEvent(record)];
    } else {
      allowed' := allowed + 1;
    }
  }

  method ProcessVcnFlowRecords(records: seq<Record>) returns (out: VcnOutput)
    ensures out == VcnProcessed(records)
  {
    var flows: seq<Flow> := [];
    var securityEvents: seq<SecurityEvent> := [];
    var topology: map<string, Link> := map[];
    var total, blocked, allowed := 0, 0, 0;
    var protocols: map<string, int> := map[];
    for i := 0 to |records|
      invariant flows == MapSeq(records[..i], FlowOf)
      invariant securityEvents == MapSeq(Filter(records[..i], IsReject), BlockedEvent)
      invariant total == i && blocked == |Filter(records[..i], IsReject)| && allowed == i - blocked
      invariant protocols == ProtocolsOf(records[..i])
      invariant topology == TopologyOf(records[..i])
    {
      var record := records[i];
      ghost var done := records[..i];
      PrefixSnoc(records, i);
      MapSeqSnoc(done, record, FlowOf);
      flows := flows + [FlowOf(record)];
      total := total + 1;
      securityEvents, blocked, allowed := CountAction(securityEvents, blocked, allowed, done, record);
      protocols := CountProtocol(protocols, done, record);
      topology := CountConnection(topology, done, record);
    }
    PrefixWhole(records);
    out := VcnOutput(flows, securityEvents, topology, VcnStats(total, blocked, allowed, protocols));
  }

  /** Every flow is TCP: the protocol table has the single entry `TCP`, counting all records. */
  lemma {:induction false} ProtocolsAllTcp(records: seq<Record>)
    ensures ProtocolsOf(records) == if records == [] then map[] else map["TCP" := |records|]
  {
    if records != [] {
      ProtocolsAllTcp(records[..|records| - 1]);
    }
  }

  /** `total_flows == blocked_flows + allowed_flows == len(records)`, and `protocols['TCP'] == total_flows`. */
  lemma VcnCounts(records: seq<Record>)
    ensures VcnProcessed(records).stats.totalFlows == |records|
    ensures VcnProcessed(records).stats.blockedFlows + VcnProcessed(records).stats.allowedFlows == |records|
    ensures 0 <= VcnProcessed(records).stats.blockedFlows == |VcnProcessed(records).securityEvents|
    ensures records != [] ==> VcnProcessed(records).stats.protocols == map["TCP" := VcnProcessed(records).stats.totalFlows]
  {
    ProtocolsAllTcp(records);
  }

  /**
   * A `src->dst` key has a topology entry exactly when some record has that
   * key, and the entry counts that key's records: `n` connections, `1024 n`
   * bytes and `n` packets.
   */
  lemma {:induction false} TopologyAt(records: seq<Record>, k: string)
    ensures k in TopologyOf(records) <==> k in Tally(records, ConnectionKey)
    ensures k in Tally(records, ConnectionKey) ==>
              var n := Tally(records, ConnectionKey)[k];
              TopologyOf(records)[k] == Link(n, FLOW_BYTES * n, FLOW_PACKETS * n)
  {
    if records != [] {
      TopologyAt(records[..|records| - 1], k);
    }
  }

  lemma Topology(records: seq<Record>)
    ensures forall k :: k in VcnProcessed(records).topology <==> k in KeysOf(records, ConnectionKey)
    ensures forall k | k in VcnProcessed(records).topology ::
              VcnProcessed(records).topology[k]
              == Link(|GroupOf(records, ConnectionKey, k)|, FLOW_BYTES * |GroupOf(records, ConnectionKey, k)|,
                      |GroupOf(records, ConnectionKey, k)|)
  {
    var topology := TopologyOf(records);
    forall k
      ensures k in topology <==> k in KeysOf(records, ConnectionKey)
    {
      TopologyAt(records, k);
      TallyAt(records, ConnectionKey, k);
    }
    forall k | k in topology
      ensures topology[k]
           == Link(|GroupOf(records, ConnectionKey, k)|, FLOW_BYTES * |GroupOf(records, ConnectionKey, k)|,
                   |GroupOf(records, ConnectionKey, k)|)
    {
      TopologyAt(records, k);
      TallyAt(records, ConnectionKey, k);
    }
  }

  // ---------------------------------------------------------------- WAF records

  datatype WafEvent = WafEvent(
    timestamp: Value, clientIp: Value, requestMethod: Value, uri: Value, responseCode: Value, userAgent: Value,
    action: string, ruleId: Value, attackType: Value, country: Value, requestSize: Value, responseSize: Value)

  datatype ThreatEntry = ThreatEntry(
    ip: Value, attackType: string, timestamp: Value, severity: string, country: Value, userAgent: Value)

  datatype WafStats = WafStats(totalRequests: int, blockedRequests: int, attackAttempts: int)

  datatype WafOutput = WafOutput(attacks: seq<WafEvent>, blocked: seq<WafEvent>, threats: seq<ThreatEntry>,
                                 geography: map<Value, int>, stats: WafStats)

  /**
   * `record.get('Action', '').upper()`; None when the value is not text:
   * `.upper()` then raises before anything is counted and the record is
   * skipped.
   */
  function WafAction(record: Record): Option<string>
  {
    match Get(record, "Action", VStr(""))
    case VStr(s) => Some(Upper(s))
    case _ => None
  }

  /** `record.get('Client IP') or record.get('Source IP', '')`. */
  function ClientIp(record: Record): Value
  {
    var c := Get(record, "Client IP", VNone);
    if Truthy(c) then c else Get(record, "Source IP", VStr(""))
  }

  function Country(record: Record): Value
  {
    Get(record, "Country Code", VStr("Unknown"))
  }

  /**
   * The attack type when `attack_type and attack_type.lower() != 'none'`
   * holds. A truthy non-text value raises at `.lower()` after the request
   * was counted, which leaves it counted but not an attack: None as well.
   */
  function AttackText(record: Record): Option<string>
  {
    match Get(record, "Attack Type", VStr(""))
    case VStr(s) => if s != "" && Lower(s) != "none" then Some(s) else None
    case _ => None
  }

  const BLOCK_ACTIONS: seq<string> := ["BLOCK", "BLOCKED", "DENY"]

  /** A WAF record that is counted at all: its action is text. */
  predicate IsCounted(record: Record)
  {
    WafAction(record).Some?
  }

  predicate IsBlockedRequest(record: Record)
  {
    WafAction(record).Some? && WafAction(record).value in BLOCK_ACTIONS
  }

  predicate IsAttack(record: Record)
  {
    WafAction(record).Some? && AttackText(record).Some?
  }

  function WafEventOf(record: Record): WafEvent
  {
    WafEvent(Get(record, "Time", VNone), ClientIp(record), Get(record, "Request Method", VStr("")),
             Get(record, "Request URI", VStr("")), Get(record, "Response Code", VInt(0)),
             Get(record, "User Agent", VStr("")), if WafAction(record).Some? then WafAction(record).value else "",
             Get(record, "Rule ID", VStr("")), Get(record, "Attack Type", VStr("")), Country(record),
             Get(record, "Request Size", VInt(0)), Get(record, "Response Size", VInt(0)))
  }

  function ThreatOf(record: Record): ThreatEntry
  {
    var e := WafEventOf(record);
    var attack := if AttackText(record).Some? then AttackText(record).value else "";
    ThreatEntry(e.clientIp, attack, e.timestamp, AttackSeverity(attack), e.country, e.userAgent)
  }

  /**
   * What `_process_waf_records` returns: the requests counted are those
   * with a text action; the blocked list holds exactly the counted
   * requests whose upper-cased action is BLOCK, BLOCKED or DENY, the
   * attack and threat lists exactly those with an attack type, all in
   * input order; the geography table tallies the counted requests by
   * country; each counter is its list's length.
   */
  function WafProcessed(records: seq<Record>): WafOutput
  {
    var counted, blocked, attacks := Filter(records, IsCounted), Filter(records, IsBlockedRequest), Filter(records, IsAttack);
    WafOutput(MapSeq(attacks, WafEventOf), MapSeq(blocked, WafEventOf), MapSeq(attacks, ThreatOf),
              Tally(counted, Country), WafStats(|counted|, |blocked|, |attacks|))
  }

  /** `geography[country] += 1` for a counted request, the entry created on first use. */
  method CountCountry(geography: map<Value, int>, ghost done: seq<Record>, record: Record)
    returns (updated: map<Value, int>)
    requires geography == Tally(Filter(done, IsCounted), Country)
    ensures updated == Tally(Filter(done + [record], IsCounted), Country)
  {
    FilterSnoc(done, record, IsCounted);
    updated := geography;
    if WafAction(record).Some? {
      TallySnoc(Filter(done, IsCounted), record, Country);
      var country := Country(record);
      if country !in updated {
        updated := updated[country := 0];
      }
      updated := updated[country := updated[country] + 1];
    }
  }

  /** A counted request whose action is a block action joins `blocked_requests`. */
  method RecordBlocked(blocked: seq<WafEvent>, count: int, ghost done: seq<Record>, record: Record)
    returns (blocked': seq<WafEvent>, count': int)
    requires blocked == MapSeq(Filter(done, IsBlockedRequest), WafEventOf)
    requires count == |Filter(done, IsBlockedRequest)|
    ensures blocked' == MapSeq(Filter(done + [record], IsBlockedRequest), WafEventOf)
    ensures count' == |Filter(done + [record], IsBlockedRequest)|
  {
    FilterSnoc(done, record, IsBlockedRequest);
    blocked', count' := blocked, count;
    var action := WafAction(record);
    if action.Some? && action.value in BLOCK_ACTIONS {
      MapSeqSnoc(Filter(done, IsBlockedRequest), record, WafEventOf);
      blocked' := blocked + [WafEventOf(record)];
      count' := count + 1;
    }
  }

  /** A counted request with an attack type joins `attack_events` and `threat_ips`. */
  method RecordAttack(attacks: seq<WafEvent>, threats: seq<ThreatEntry>, count: int, ghost done: seq<Record>,
                      record: Record)
    returns (attacks': seq<WafEvent>, threats': seq<ThreatEntry>, count': int)
    requires attacks == MapSeq(Filter(done, IsAttack), WafEventOf)
    requires threats == MapSeq(Filter(done, IsAttack), ThreatOf)
    requires count == |Filter(done, IsAttack)|
    ensures attacks' == MapSeq(Filter(done + [record], IsAttack), WafEventOf)
    ensures threats' == MapSeq(Filter(done + [record], IsAttack), ThreatOf)
    ensures count' == |Filter(done + [record], IsAttack)|
  {
    FilterSnoc(done, record, IsAttack);
    attacks', threats', count' := attacks, threats, count;
    var attack := AttackText(record);
    if WafAction(record).Some? && attack.Some? {
      var event := WafEventOf(record);
      MapSeqSnoc(Filter(done, IsAttack), record, WafEventOf);
      MapSeqSnoc(Filter(done, IsAttack), record, ThreatOf);
      attacks' := attacks + [event];
      threats' := threats + [ThreatEntry(event.clientIp, attack.value, event.timestamp,
                                         AttackSeverity(attack.value), event.country, event.userAgent)];
      count' := count + 1;
    }
  }

  method ProcessWafRecords(records: seq<Record>) returns (out: WafOutput)
    ensures out == WafProcessed(records)
  {
    var attacks: seq<WafEvent> := [];
    var blocked: seq<WafEvent> := [];
    var threats: seq<ThreatEntry> := [];
    var geography: map<Value, int> := map[];
    var total, blockedCount, attempts := 0, 0, 0;
    for i := 0 to |records|
      invariant total == |Filter(records[..i], IsCounted)|
      invariant geography == Tally(Filter(records[..i], IsCounted), Country)
      invariant blocked == MapSeq(Filter(records[..i], IsBlockedRequest), WafEventOf)
      invariant blockedCount == |Filter(records[..i], IsBlockedRequest)|
      invariant attacks == MapSeq(Filter(records[..i], IsAttack), WafEventOf)
      invariant threats == MapSeq(Filter(records[..i], IsAttack), ThreatOf)
      invariant attempts == |Filter(records[..i], IsAttack)|
    {
      var record := records[i];
      PrefixSnoc(records, i);
      FilterSnoc(records[..i], record, IsCounted);
      if WafAction(record).Some? {
        total := total + 1;
      }
      geography := CountCountry(geography, records[..i], record);
      blocked, blockedCount := RecordBlocked(blocked, blockedCount, records[..i], record);
      attacks, threats, attempts := RecordAttack(attacks, threats, attempts, records[..i], record);
    }
    PrefixWhole(records);
    out := WafOutput(attacks, blocked, threats, geography, WafStats(total, blockedCount, attempts));
  }

  /** `total_requests` is the sum of the geography counts over the countries seen. */
  lemma GeographySum(records: seq<Record>)
    ensures var counted := Filter(records, IsCounted);
            && (forall i :: 0 <= i < |KeysOf(counted, Country)| ==>
                  KeysOf(counted, Country)[i] in WafProcessed(records).geography)
            && SumAt(KeysOf(counted, Country), WafProcessed(records).geography)
               == WafProcessed(records).stats.totalRequests
  {
    TallyTotal(Filter(records, IsCounted), Country);
  }

  /** Every blocked request and every attack is also a counted request. */
  lemma {:induction false} WafSubsets(records: seq<Record>)
    ensures WafProcessed(records).stats.blockedRequests <= WafProcessed(records).stats.totalRequests
    ensures WafProcessed(records).stats.attackAttempts <= WafProcessed(records).stats.totalRequests
  {
    if records != [] {
      var p, x := records[..|records| - 1], records[|records| - 1];
      assert records == p + [x];
      WafSubsets(p);
      FilterSnoc(p, x, IsCounted);
      FilterSnoc(p, x, IsBlockedRequest);
      FilterSnoc(p, x, IsAttack);
    }
  }

  // ---------------------------------------------------------------- attack severity

  const HIGH_ATTACKS: seq<string> := ["sql injection", "xss", "rce", "command injection", "path traversal"]
  const MEDIUM_ATTACKS: seq<string> := ["csrf", "xxe", "directory traversal", "file inclusion"]

  /** `_get_attack_severity`: the high list is scanned before the medium list; `low` otherwise. */
  function AttackSeverity(attackType: string): (r: string)
    ensures r in {"high", "medium", "low"}
    ensures r == "high" <==> ContainsAny(Lower(attackType), HIGH_ATTACKS)
    ensures r == "medium" <==> !ContainsAny(Lower(attackType), HIGH_ATTACKS)
                               && ContainsAny(Lower(attackType), MEDIUM_ATTACKS)
  {
    var a := Lower(attackType);
    if ScanContains(a, HIGH_ATTACKS) then "high"
    else if ScanContains(a, MEDIUM_ATTACKS) then "medium"
    else "low"
  }

  /** The rating ignores case. */
  lemma AttackSeverityIgnoresCase(attackType: string)
    ensures AttackSeverity(Upper(attackType)) == AttackSeverity(attackType)
  {
    LowerOfUpper(attackType);
  }

  // ---------------------------------------------------------------- load-balancer records

  datatype LbRequest = LbRequest(
    timestamp: Value, clientIp: Value, targetIp: Value, requestMethod: Value, uri: Value,
    responseCode: int, processingTime: real, userAgent: Value)

  /** A response time bound: `float('inf')` when no request was seen. */
  datatype Bound = Finite(x: real) | Infinity

  datatype Performance = Performance(avgResponseTime: real, maxResponseTime: real, minResponseTime: Bound)

  datatype LbStats = LbStats(totalRequests: int, errorRate: real)

  datatype LbOutput = LbOutput(requests: seq<LbRequest>, performance: Performance,
                               errors: map<string, int>, stats: LbStats)

  /** `int(v)`; None where it raises. */
  function IntOf(v: Value): Option<int>
  {
    match v
    case VInt(n) => Some(n)
    case VStr(s) => ParseInt(s)
    case VNone => None
  }

  /** `float(v)`; None where it raises. */
  function FloatOf(v: Value): Option<real>
  {
    match v
    case VInt(n) => Some(n as real)
    case VStr(s) => ParseFloat(s)
    case VNone => None
  }

  /** The request a record becomes, or None when the code or the time does not convert (the record is skipped). */
  function LbRequestOf(record: Record): Option<LbRequest>
  {
    match (IntOf(Get(record, "Response Code", VInt(0))), FloatOf(Get(record, "Request Processing Time", VInt(0))))
    case (Some(code), Some(time)) =>
      Some(LbRequest(Get(record, "Time", VNone), Get(record, "Client IP", VStr("")), Get(record, "Target IP", VStr("")),
                     Get(record, "Request Method", VStr("")), Get(record, "Request URI", VStr("")),
                     code, time, Get(record, "User Agent", VStr(""))))
    case _ => None
  }

  function LbRequests(records: seq<Record>): seq<LbRequest>
  {
    if records == [] then []
    else
      var init := LbRequests(records[..|records| - 1]);
      match LbRequestOf(records[|records| - 1])
      case Some(q) => init + [q]
      case None => init
  }

  predicate IsError(q: LbRequest)
  {
    q.responseCode >= 400
  }

  /** `f"{response_code}xx"`: the full code followed by `xx` (`404xx`). */
  function ErrorKey(q: LbRequest): string
  {
    IntToString(q.responseCode) + "xx"
  }

  function ProcessingTime(q: LbRequest): real
  {
    q.processingTime
  }

  function PerformanceOf(requests: seq<LbRequest>): Performance
  {
    if requests == [] then Performance(0.0, 0.0, Infinity)
    else Performance(SumReal(requests, ProcessingTime) / |requests| as real,
                     MaxReal(requests, ProcessingTime), Finite(MinReal(requests, ProcessingTime)))
  }

  /** `(error_count / total_requests) * 100`, or 0 without requests. */
  function ErrorRate(errorCount: int, total: int): real
  {
    if total > 0 then (errorCount as real / total as real) * 100.0 else 0.0
  }

  /** The `errors` table: failing requests tallied by `ErrorKey`, the keys in first-seen order. */
  function Failures(requests: seq<LbRequest>): seq<LbRequest>
  {
    Filter(requests, IsError)
  }

  /** `sum(errors.values())`. */
  function ErrorCount(requests: seq<LbRequest>): int
  {
    TallyTotal(Failures(requests), ErrorKey);
    SumAt(KeysOf(Failures(requests), ErrorKey), Tally(Failures(requests), ErrorKey))
  }

  /** What `_process_lb_records` returns. */
  function LbProcessed(records: seq<Record>): LbOutput
  {
    var requests := LbRequests(records);
    LbOutput(requests, PerformanceOf(requests), Tally(Failures(requests), ErrorKey),
             LbStats(|requests|, ErrorRate(ErrorCount(requests), |requests|)))
  }

  /** `errors[f"{code}xx"] += 1` for a failing request; a new key joins the key order. */
  method CountError(errors: map<string, int>, errorKeys: seq<string>, ghost done: seq<LbRequest>, q: LbRequest)
    returns (errors': map<string, int>, errorKeys': seq<string>)
    requires errors == Tally(Failures(done), ErrorKey) && errorKeys == KeysOf(Failures(done), ErrorKey)
    ensures errors' == Tally(Failures(done + [q]), ErrorKey) && errorKeys' == KeysOf(Failures(done + [q]), ErrorKey)
  {
    FilterSnoc(done, q, IsError);
    errors', errorKeys' := errors, errorKeys;
    if q.responseCode >= 400 {
      ghost var failed := Failures(done);
      assert Failures(done + [q]) == failed + [q];
      var key := ErrorKey(q);
      KeysOfSnoc(failed, q, ErrorKey);
      TallySnoc(failed, q, ErrorKey);
      TallyAt(failed, ErrorKey, key);
      if key !in errors {
        errorKeys' := errorKeys + [key];
      }
      errors' := errors[key := (if key in errors then errors[key] else 0) + 1];
    } else {
      assert Failures(done + [q]) == Failures(done);
    }
  }

  /** The loop of `_process_lb_records`: requests, response times and the `errors` defaultdict with its key order. */
  method ScanLbRecords(records: seq<Record>)
    returns (requests: seq<LbRequest>, responseTimes: seq<real>, errorKeys: seq<string>, errors: map<string, int>)
    ensures requests == LbRequests(records) && responseTimes == MapSeq(requests, ProcessingTime)
    ensures errorKeys == KeysOf(Failures(requests), ErrorKey) && errors == Tally(Failures(requests), ErrorKey)
  {
    requests, responseTimes, errorKeys, errors := [], [], [], map[];
    for i := 0 to |records|
      invariant requests == LbRequests(records[..i])
      invariant responseTimes == MapSeq(requests, ProcessingTime)
      invariant errors == Tally(Failures(requests), ErrorKey) && errorKeys == KeysOf(Failures(requests), ErrorKey)
    {
      PrefixSnoc(records, i);
      var request := LbRequestOf(records[i]);
      if request.Some? {
        var q := request.value;
        MapSeqSnoc(requests, q, ProcessingTime);
        errors, errorKeys := CountError(errors, errorKeys, requests, q);
        requests := requests + [q];
        responseTimes := responseTimes + [q.processingTime];
      }
    }
    PrefixWhole(records);
  }

  method ProcessLbRecords(records: seq<Record>) returns (out: LbOutput)
    ensures out == LbProcessed(records)
  {
    var requests, responseTimes, errorKeys, errors := ScanLbRecords(records);
    var total := |requests|;
    var performance := Performance(0.0, 0.0, Infinity);
    if responseTimes != [] {
      performance := Performance(SumReal(requests, ProcessingTime) / |responseTimes| as real,
                                 MaxReal(requests, ProcessingTime), Finite(MinReal(requests, ProcessingTime)));
    }
    TallyTotal(Failures(requests), ErrorKey);
    var errorCount := SumAt(errorKeys, errors);
    var rate := if total > 0 then (errorCount as real / total as real) * 100.0 else 0.0;
    out := LbOutput(requests, performance, errors, LbStats(total, rate));
  }

  /**
   * `error_rate` is 100 times the share of requests with a code of at least
   * 400, 0 without requests, and lies in [0, 100].
   */
  lemma LbErrorRate(records: seq<Record>)
    ensures var requests := LbRequests(records);
            && LbProcessed(records).stats.errorRate
               == (if requests == [] then 0.0 else (|Filter(requests, IsError)| as real / |requests| as real) * 100.0)
            && 0.0 <= LbProcessed(records).stats.errorRate <= 100.0
  {
    var requests := LbRequests(records);
    TallyTotal(Failures(requests), ErrorKey);
    if requests != [] {
      PercentOfWhole(|Failures(requests)| as real, |requests| as real);
    }
  }

  lemma PercentOfWhole(f: real, d: real)
    requires 0.0 <= f <= d && d > 0.0
    ensures 0.0 <= (f / d) * 100.0 <= 100.0
  {
    assert (f / d) * d == f;
  }

  /** With requests the minimum, the mean and the maximum response time are ordered; without, the mean is 0 and the minimum infinite. */
  lemma PerformanceBounds(requests: seq<LbRequest>)
    ensures var p := PerformanceOf(requests);
            if requests == [] then p == Performance(0.0, 0.0, Infinity)
            else p.minResponseTime.Finite? && p.minResponseTime.x <= p.avgResponseTime <= p.maxResponseTime
  {
    if requests != [] {
      var lo, hi := MinReal(requests, ProcessingTime), MaxReal(requests, ProcessingTime);
      MeanRealBetween(requests, ProcessingTime, lo, hi);
      assert PerformanceOf(requests)
          == Performance(SumReal(requests, ProcessingTime) / |requests| as real, hi, Finite(lo));
    }
  }

  /** Rows whose code and time convert each give one request, in order; the rest are skipped. */
  lemma {:induction false} LbRequestsOrigin(records: seq<Record>)
    ensures |LbRequests(records)| <= |records|
    ensures (forall i :: 0 <= i < |records| ==> LbRequestOf(records[i]).Some?) ==> |LbRequests(records)| == |records|
  {
    if records != [] {
      var p := records[..|records| - 1];
      assert forall i :: 0 <= i < |p| ==> p[i] == records[i];
      LbRequestsOrigin(p);
    }
  }

  // ---------------------------------------------------------------- ingestion and roll-up

  /** What a query call gives back: an exception, or a response with a success flag. */
  datatype QueryOutcome =
    | Raised(message: string)
    | Answered(success: bool, results: seq<Record>, error: string)

  datatype Search = SearchRaised(message: string) | Hit(source: string, records: seq<Record>) | Miss

  /**
   * The first source, in list order, whose answer succeeded with results;
   * an exception in an earlier query ends the search.
   */
  function FirstHit(sources: seq<string>, answer: string -> QueryOutcome): (r: Search)
    ensures r.Hit? ==> r.source in sources && r.records != []
                       && answer(r.source).Answered? && answer(r.source).success && answer(r.source).results == r.records
    ensures r.Miss? <==> forall i :: 0 <= i < |sources| ==>
                           answer(sources[i]).Answered? && !(answer(sources[i]).success && answer(sources[i]).results != [])
  {
    if sources == [] then Miss
    else match answer(sources[0])
      case Raised(m) => SearchRaised(m)
      case Answered(ok, rs, _) =>
        if ok && rs != [] then Hit(sources[0], rs)
        else
          var r := FirstHit(sources[1..], answer);
          assert forall i :: 1 <= i < |sources| ==> sources[i] == sources[1..][i - 1];
          r
  }

  /** The `for source in sources` loop of the WAF and load-balancer ingesters, with its early returns. */
  method SearchSources(sources: seq<string>, answer: string -> QueryOutcome) returns (r: Search)
    ensures r == FirstHit(sources, answer)
  {
    var i := 0;
    while i < |sources|
      invariant 0 <= i <= |sources|
      invariant FirstHit(sources, answer) == FirstHit(sources[i..], answer)
    {
      assert sources[i..][1..] == sources[i + 1..];
      var outcome := answer(sources[i]);
      if outcome.Raised? {
        return SearchRaised(outcome.message);
      }
      if outcome.success && outcome.results != [] {
        return Hit(sources[i], outcome.results);
      }
      i := i + 1;
    }
    return Miss;
  }

  datatype Ingestion<T> =
    | Failed(error: string)
    | Ingested(source: string, recordsProcessed: nat, data: T)
    | NothingFound(source: string, message: string)    // a success with empty lists and zero counts
  {
    predicate Succeeded()
    {
      !Failed?
    }
  }

  /** `ingest_vcn_flow_logs`: fails on an exception or an unsuccessful query. */
  function IngestVcnFlowLogs(q: QueryOutcome): (r: Ingestion<VcnOutput>)
    ensures r.Succeeded() <==> q.Answered? && q.success
    ensures r.Succeeded() ==> r == Ingested("VCN Flow Logs", |q.results|, VcnProcessed(q.results))
  {
    match q
    case Raised(m) => Failed(m)
    case Answered(ok, rs, err) =>
      if ok then Ingested("VCN Flow Logs", |rs|, VcnProcessed(rs)) else Failed("VCN Flow query failed: " + err)
  }

  const WAF_SOURCES: seq<string> := ["OCI WAF Logs", "OCI Web Application Firewall Logs", "WAF Logs"]
  const LB_SOURCES: seq<string> := ["OCI Load Balancer Logs", "Load Balancer Access Logs", "LB Access Logs"]

  /** `ingest_waf_logs`, with each source's query answer as input. */
  function IngestWafLogs(answer: string -> QueryOutcome): (r: Ingestion<WafOutput>)
    ensures r.Succeeded() <==> !FirstHit(WAF_SOURCES, answer).SearchRaised?
    ensures r.Ingested? ==> r.source in WAF_SOURCES && r.recordsProcessed > 0
  {
    match FirstHit(WAF_SOURCES, answer)
    case SearchRaised(m) => Failed(m)
    case Hit(s, rs) => Ingested(s, |rs|, WafProcessed(rs))
    case Miss => NothingFound("WAF Logs", "No WAF logs found - WAF may not be configured or enabled")
  }

  /** `ingest_load_balancer_logs`, with each source's query answer as input. */
  function IngestLoadBalancerLogs(answer: string -> QueryOutcome): (r: Ingestion<LbOutput>)
    ensures r.Succeeded() <==> !FirstHit(LB_SOURCES, answer).SearchRaised?
    ensures r.Ingested? ==> r.source in LB_SOURCES && r.recordsProcessed > 0
  {
    match FirstHit(LB_SOURCES, answer)
    case SearchRaised(m) => Failed(m)
    case Hit(s, rs) => Ingested(s, |rs|, LbProcessed(rs))
    case Miss => NothingFound("Load Balancer Logs", "No Load Balancer logs found")
  }

  datatype AllSources = AllSources(success: bool, vcnFlow: Ingestion<VcnOutput>, waf: Ingestion<WafOutput>,
                                   loadBalancer: Ingestion<LbOutput>)

  /** `ingest_all_sources`: the overall flag is `any` of the three. */
  function IngestAllSources(vcn: QueryOutcome, waf: string -> QueryOutcome, lb: string -> QueryOutcome): AllSources
  {
    var v, w, l := IngestVcnFlowLogs(vcn), IngestWafLogs(waf), IngestLoadBalancerLogs(lb);
    AllSources(v.Succeeded() || w.Succeeded() || l.Succeeded(), v, w, l)
  }

  /**
   * The roll-up succeeds exactly when one source did; since finding no WAF
   * or load-balancer logs is a success, it fails only when the VCN query
   * fails and both other searches hit an exception.
   */
  lemma IngestAllSourcesSuccess(vcn: QueryOutcome, waf: string -> QueryOutcome, lb: string -> QueryOutcome)
    ensures var r := IngestAllSources(vcn, waf, lb);
            r.success <==> r.vcnFlow.Succeeded() || r.waf.Succeeded() || r.loadBalancer.Succeeded()
    ensures !IngestAllSources(vcn, waf, lb).success <==>
              !(vcn.Answered? && vcn.success)
              && FirstHit(WAF_SOURCES, waf).SearchRaised? && FirstHit(LB_SOURCES, lb).SearchRaised?
  {
  }
}
