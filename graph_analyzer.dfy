/**
 * The helpers of the security graph analyzer (scripts/graph_analyzer.py):
 * node risk, relationship weight and port service names; the loop that
 * merges the nodes the field mapper yields for each record into one graph
 * node per id; and the k-hop neighbourhood of a node.
 */
module GraphAnalyzer {
  import opened Common
  import FieldMapping

  type Node = FieldMapping.Node
  type Prop = FieldMapping.Prop

  // ---------------------------------------------------------------- node risk

  /** Python truthiness of a node property. */
  predicate PropTruthy(p: Prop)
  {
    match p
    case PStr(s) => s != ""
    case PInt(n) => n != 0
    case PBool(b) => b
    case PTime(_) => true   // an ISO timestamp text is never empty
  }

  /** `properties.get(key, default)` read as a truth value. */
  predicate Flag(properties: map<string, Prop>, key: string, default: bool)
  {
    if key in properties then PropTruthy(properties[key]) else default
  }

  /** `_calculate_node_risk_score`, keyed on the lower-cased node type. */
  function NodeRisk(node: Node): (r: real)
    ensures 0.2 <= r <= 0.9
  {
    var t := Lower(node.nodeType);
    var ps := node.properties;
    if t == "ip" then
      if !Flag(ps, "is_internal", true) then 0.6 else 0.2
    else if t == "user" then
      if Flag(ps, "is_service_account", false) then 0.7
      else if Flag(ps, "is_privileged", false) then 0.8
      else 0.3
    else if t == "process" then
      if Flag(ps, "is_suspicious", false) then 0.9 else 0.4
    else if t == "port" then
      if !Flag(ps, "is_standard", true) then 0.6 else 0.2
    else if t == "host" then
      if Flag(ps, "is_domain_joined", false) then 0.3 else 0.5
    else 0.3
  }

  /**
   * The score per node type: a missing `is_internal` or `is_standard` flag
   * counts as set, the service-account flag wins over the privileged one,
   * an unknown type scores 0.3, and the case of the type does not matter.
   */
  lemma NodeRiskCases(node: Node)
    ensures NodeRisk(node) == NodeRisk(node.(nodeType := Lower(node.nodeType)))
    ensures Lower(node.nodeType) == "ip" ==>
              (NodeRisk(node) == 0.6 <==> "is_internal" in node.properties && !PropTruthy(node.properties["is_internal"]))
    ensures Lower(node.nodeType) == "ip" ==> (NodeRisk(node) == 0.6 || NodeRisk(node) == 0.2)
    ensures Lower(node.nodeType) == "user" && Flag(node.properties, "is_service_account", false) ==> NodeRisk(node) == 0.7
    ensures Lower(node.nodeType) == "user" ==>
              (NodeRisk(node) == 0.8 <==> !Flag(node.properties, "is_service_account", false) && Flag(node.properties, "is_privileged", false))
    ensures NodeRisk(node) == 0.9 <==> Lower(node.nodeType) == "process" && Flag(node.properties, "is_suspicious", false)
    ensures Lower(node.nodeType) == "port" ==>
              (NodeRisk(node) == 0.6 <==> "is_standard" in node.properties && !PropTruthy(node.properties["is_standard"]))
    ensures Lower(node.nodeType) == "host" ==>
              (NodeRisk(node) == 0.3 <==> Flag(node.properties, "is_domain_joined", false))
    ensures Lower(node.nodeType) !in {"ip", "user", "process", "port", "host"} ==> NodeRisk(node) == 0.3
  {
    LowerTwice(node.nodeType);
  }

  // ---------------------------------------------------------------- relationship weight

  /** `properties.get('bytes', record.get('Bytes', record.get('bytes', 1)))`. */
  function BytesValue(properties: map<string, Value>, record: Record): (v: Value)
    ensures "bytes" in properties ==> v == properties["bytes"]
    ensures "bytes" !in properties && "Bytes" in record ==> v == record["Bytes"]
    ensures "bytes" !in properties && "Bytes" !in record && "bytes" in record ==> v == record["bytes"]
    ensures "bytes" !in properties && "Bytes" !in record && "bytes" !in record ==> v == VInt(1)
  {
    Get(properties, "bytes", Get(record, "Bytes", Get(record, "bytes", VInt(1))))
  }

  /** `float(v)`: None when it raises (`None`, or text that is not a numeral). */
  function FloatOf(v: Value): Option<real>
  {
    match v
    case VNone => None
    case VInt(n) => Some(n as real)
    case VStr(s) => ParseFloat(s)
  }

  /** `_calculate_relationship_weight`. */
  function RelationshipWeight(rel: FieldMapping.Relationship, record: Record): (w: real)
    ensures rel.relType != "CONNECTS_TO" ==> w == 1.0
    ensures rel.relType == "CONNECTS_TO" && FloatOf(BytesValue(rel.properties, record)).Some? ==>
              w * 1024.0 == FloatOf(BytesValue(rel.properties, record)).value
  {
    if rel.relType == "CONNECTS_TO" then
      match FloatOf(BytesValue(rel.properties, record))
      case Some(x) => x / 1024.0
      case None => 1.0
    else 1.0
  }

  /**
   * Only `CONNECTS_TO` is weighted: by kilobytes of the first of the three
   * byte fields present (a decimal numeral or an integer, the text of an
   * integer counting as that integer), 1/1024 when none is, and 1.0 when
   * the value found does not convert.
   */
  lemma RelationshipWeightProperties(rel: FieldMapping.Relationship, record: Record)
    ensures rel.relType != "CONNECTS_TO" ==> RelationshipWeight(rel, record) == 1.0
    ensures rel.relType == "CONNECTS_TO" && FloatOf(BytesValue(rel.properties, record)).None? ==>
              RelationshipWeight(rel, record) == 1.0
    ensures rel.relType == "CONNECTS_TO" && "bytes" in rel.properties && rel.properties["bytes"] == VNone ==>
              RelationshipWeight(rel, record) == 1.0
    ensures rel.relType == "CONNECTS_TO" && "bytes" !in rel.properties && "Bytes" !in record && "bytes" !in record ==>
              RelationshipWeight(rel, record) == 1.0 / 1024.0
    ensures forall n: int :: rel.relType == "CONNECTS_TO" && BytesValue(rel.properties, record) == VStr(IntToString(n)) ==>
              RelationshipWeight(rel, record) == n as real / 1024.0
    ensures forall n: int :: rel.relType == "CONNECTS_TO" && BytesValue(rel.properties, record) == VInt(n) ==>
              RelationshipWeight(rel, record) == n as real / 1024.0
  {
    forall n: int | rel.relType == "CONNECTS_TO" && BytesValue(rel.properties, record) == VStr(IntToString(n))
      ensures RelationshipWeight(rel, record) == n as real / 1024.0
    {
      ParseFloatOfIntToString(n);
    }
  }

  // ---------------------------------------------------------------- service names

  const PORT_SERVICES: map<int, string> :=
    map[80 := "HTTP", 443 := "HTTPS", 22 := "SSH", 21 := "FTP", 25 := "SMTP", 53 := "DNS",
        110 := "POP3", 143 := "IMAP", 993 := "IMAPS", 995 := "POP3S", 3389 := "RDP", 5900 := "VNC"]

  /** `_get_service_name`. */
  function ServiceName(port: int): (name: string)
    ensures port in PORT_SERVICES ==> name == PORT_SERVICES[port]
    ensures port !in PORT_SERVICES ==> |name| > 5 && name[..5] == "Port-" && name[5..] == IntToString(port)
  {
    if port in PORT_SERVICES then PORT_SERVICES[port] else "Port-" + IntToString(port)
  }

  /** The port a service name stands for: the inverse of `ServiceName`. */
  function PortOfService(name: string): Option<int>
  {
    if |name| >= 5 && name[..5] == "Port-" then ParseInt(name[5..])
    else if name == "HTTP" then Some(80)
    else if name == "HTTPS" then Some(443)
    else if name == "SSH" then Some(22)
    else if name == "FTP" then Some(21)
    else if name == "SMTP" then Some(25)
    else if name == "DNS" then Some(53)
    else if name == "POP3" then Some(110)
    else if name == "IMAP" then Some(143)
    else if name == "IMAPS" then Some(993)
    else if name == "POP3S" then Some(995)
    else if name == "RDP" then Some(3389)
    else if name == "VNC" then Some(5900)
    else None
  }

  /**
   * An unmapped port is named `Port-{n}`; no two ports share a name, since
   * the name gives the port back and no mapped name starts with `Port-`.
   */
  lemma ServiceNameRoundTrip(port: int)
    ensures port !in PORT_SERVICES ==> ServiceName(port) == "Port-" + IntToString(port)
    ensures port in PORT_SERVICES <==> !StartsWith(ServiceName(port), "Port-")
    ensures PortOfService(ServiceName(port)) == Some(port)
  {
    var name := ServiceName(port);
    if port !in PORT_SERVICES {
      assert name[..5] == "Port-";
      assert name[5..] == IntToString(port);
      ParseIntOfIntToString(port);
    } else if port == 80 || port == 443 || port == 22 || port == 21 || port == 25 || port == 53 {
      assert name == PORT_SERVICES[port];
      assert |name| < 5 || name[4] != '-';
    } else {
      assert port == 110 || port == 143 || port == 993 || port == 995 || port == 3389 || port == 5900;
      assert name == PORT_SERVICES[port];
      assert |name| < 5 || name[4] != '-';
    }
  }

  lemma ServiceNamesDistinct(p: int, q: int)
    requires p != q
    ensures ServiceName(p) != ServiceName(q)
  {
    ServiceNameRoundTrip(p);
    ServiceNameRoundTrip(q);
  }

  // ---------------------------------------------------------------- graph elements

  datatype SecurityNode = SecurityNode(id: string, nodeType: string, properties: map<string, Prop>,
                                       riskScore: real, firstSeen: int, lastSeen: int)

  datatype SecurityRelationship = SecurityRelationship(sourceId: string, targetId: string, relType: string,
                                                       properties: map<string, Value>, weight: real, timestamp: int)

  /** A node the field mapper yielded for a record, with that record's timestamp. */
  datatype Sighting = Sighting(node: Node, time: int)

  /**
   * The log type a record is mapped with: its `_log_type` when truthy,
   * otherwise the detected one (None when detection raises, which skips the
   * record). A non-text `_log_type` names no mapping; "" stands for it.
   */
  function RecordLogType(record: Record): Option<string>
  {
    var given := Get(record, "_log_type", VNone);
    if Truthy(given) then Some(if given.VStr? then given.s else "")
    else FieldMapping.LogTypeOf(record)
  }

  /** The nodes `map_log_record_to_nodes` yields for a record. */
  function RecordNodes(record: Record): seq<Node>
  {
    match RecordLogType(record)
    case Some(t) => FieldMapping.NodesFor(record, t)
    case None => []
  }

  /** The relationships `map_log_record_to_relationships` yields for a record. */
  function RecordRelationships(record: Record): seq<FieldMapping.Relationship>
  {
    match RecordLogType(record)
    case Some(t) => FieldMapping.RelationshipsFor(record, FieldMapping.NodesFor(record, t), FieldMapping.RELATIONSHIP_MAPPINGS)
    case None => []
  }

  function Stamp(nodes: seq<Node>, time: int): (r: seq<Sighting>)
    ensures |r| == |nodes|
    ensures forall i :: 0 <= i < |nodes| ==> r[i] == Sighting(nodes[i], time)
  {
    if nodes == [] then [] else Stamp(nodes[..|nodes| - 1], time) + [Sighting(nodes[|nodes| - 1], time)]
  }

  /** Every node `nodesOf` yields for the records, in processing order. */
  function Sightings(records: seq<Record>, nodesOf: Record -> seq<Node>, timeOf: Record -> int): seq<Sighting>
  {
    if records == [] then []
    else
      var last := records[|records| - 1];
      Sightings(records[..|records| - 1], nodesOf, timeOf) + Stamp(nodesOf(last), timeOf(last))
  }

  /** Position of the node with id `id` (the `all_nodes` lookup). */
  function IndexOfId(nodes: seq<SecurityNode>, id: string): (r: Option<nat>)
    ensures r.Some? ==> r.value < |nodes| && nodes[r.value].id == id
    ensures r.None? ==> forall j :: 0 <= j < |nodes| ==> nodes[j].id != id
  {
    if nodes == [] then None
    else if nodes[0].id == id then Some(0)
    else match IndexOfId(nodes[1..], id)
      case Some(i) => Some(i + 1)
      case None => None
  }

  /** The graph node a first sighting creates. */
  function Opened(s: Sighting): SecurityNode
  {
    SecurityNode(s.node.id, Lower(s.node.nodeType), s.node.properties, NodeRisk(s.node), s.time, s.time)
  }

  /** One iteration of the inner loop of `_create_graph_elements`. */
  function MergeStep(nodes: seq<SecurityNode>, s: Sighting): seq<SecurityNode>
  {
    match IndexOfId(nodes, s.node.id)
    case None => nodes + [Opened(s)]
    case Some(i) =>
      if s.time > nodes[i].lastSeen then nodes[i := nodes[i].(lastSeen := s.time)] else nodes
  }

  /** `list(all_nodes.values())` after the sightings `ss`. */
  function Merged(ss: seq<Sighting>): seq<SecurityNode>
  {
    if ss == [] then [] else MergeStep(Merged(ss[..|ss| - 1]), ss[|ss| - 1])
  }

  function Secured(rel: FieldMapping.Relationship, record: Record, time: int): SecurityRelationship
  {
    SecurityRelationship(rel.sourceId, rel.targetId, rel.relType, rel.properties, RelationshipWeight(rel, record), time)
  }

  function SecureAll(rels: seq<FieldMapping.Relationship>, record: Record, time: int): (r: seq<SecurityRelationship>)
    ensures |r| == |rels|
    ensures forall i :: 0 <= i < |rels| ==> r[i] == Secured(rels[i], record, time)
  {
    if rels == [] then [] else SecureAll(rels[..|rels| - 1], record, time) + [Secured(rels[|rels| - 1], record, time)]
  }

  /** The relationships `relsOf` yields for the records, weighted and stamped. */
  function GraphRelationships(records: seq<Record>, relsOf: Record -> seq<FieldMapping.Relationship>,
                              timeOf: Record -> int): seq<SecurityRelationship>
  {
    if records == [] then []
    else
      var last := records[|records| - 1];
      GraphRelationships(records[..|records| - 1], relsOf, timeOf) + SecureAll(relsOf(last), last, timeOf(last))
  }

  /** `record.get('Time', record.get('Datetime', ''))`. */
  function TimeValueOf(record: Record): Value
  {
    Get(record, "Time", Get(record, "Datetime", VStr("")))
  }

  /**
   * `_parse_record_timestamp` returns: it raises only for a non-zero epoch
   * number `fromtimestamp` rejects, since text that does not parse and
   * every other value fall back to `utcnow()`.
   */
  predicate TimestampParses(record: Record)
  {
    var v := TimeValueOf(record);
    !(v.VInt? && v.n != 0 && !InEpochRange(EpochSeconds(v.n)))
  }

  /**
   * `_create_graph_elements`; `timeOf` stands for `_parse_record_timestamp`
   * where it returns. Where it raises, it does so at the record's first
   * node (or, with no nodes, its first relationship), before anything of
   * the record is stored, and the per-record `except` moves on: the record
   * contributes nothing.
   */
  method CreateGraphElements(records: seq<Record>, timeOf: Record -> int)
    returns (nodes: seq<SecurityNode>, rels: seq<SecurityRelationship>)
    ensures nodes == Merged(Sightings(Filter(records, TimestampParses), RecordNodes, timeOf))
    ensures rels == GraphRelationships(Filter(records, TimestampParses), RecordRelationships, timeOf)
  {
    nodes, rels := [], [];
    for i := 0 to |records|
      invariant nodes == Merged(Sightings(Filter(records[..i], TimestampParses), RecordNodes, timeOf))
      invariant rels == GraphRelationships(Filter(records[..i], TimestampParses), RecordRelationships, timeOf)
    {
      var record := records[i];
      assert records[..i + 1][..i] == records[..i] && records[..i + 1][i] == record;
      if TimestampParses(record) {
        ghost var kept := Filter(records[..i], TimestampParses);
        assert Filter(records[..i + 1], TimestampParses) == kept + [record];
        assert (kept + [record])[..|kept|] == kept;
        nodes, rels := ProcessRecord(nodes, rels, Sightings(kept, RecordNodes, timeOf), record, timeOf(record));
      }
    }
    assert records[..|records|] == records;
  }

  /** One iteration of the record loop: merge its nodes, then append its relationships. */
  method ProcessRecord(nodes: seq<SecurityNode>, rels: seq<SecurityRelationship>, ghost before: seq<Sighting>,
                       record: Record, time: int)
    returns (nodes': seq<SecurityNode>, rels': seq<SecurityRelationship>)
    requires nodes == Merged(before)
    ensures nodes' == Merged(before + Stamp(RecordNodes(record), time))
    ensures rels' == rels + SecureAll(RecordRelationships(record), record, time)
  {
    var logType := RecordLogType(record);
    if logType.Some? {
      var mapped := FieldMapping.MapLogRecordToNodes(record, logType.value);
      nodes' := MergeRecordNodes(nodes, before, mapped, time);
      var mappedRels := FieldMapping.MapLogRecordToRelationships(record, mapped);
      rels' := AppendSecured(rels, mappedRels, record, time);
    } else {
      assert before + Stamp([], time) == before;
      assert rels + [] == rels;
      nodes', rels' := nodes, rels;
    }
  }

  /** The loop over the nodes mapped from one record, all stamped with its time. */
  method MergeRecordNodes(nodes: seq<SecurityNode>, ghost before: seq<Sighting>, mapped: seq<Node>, time: int)
    returns (merged: seq<SecurityNode>)
    requires nodes == Merged(before)
    ensures merged == Merged(before + Stamp(mapped, time))
  {
    merged := nodes;
    assert before + Stamp(mapped[..0], time) == before;
    for j := 0 to |mapped|
      invariant merged == Merged(before + Stamp(mapped[..j], time))
    {
      ghost var done := before + Stamp(mapped[..j], time);
      assert mapped[..j + 1][..j] == mapped[..j];
      assert before + Stamp(mapped[..j + 1], time) == done + [Sighting(mapped[j], time)];
      assert (done + [Sighting(mapped[j], time)])[..|done|] == done;
      merged := MergeNode(merged, Sighting(mapped[j], time));
    }
    assert mapped[..|mapped|] == mapped;
  }

  /** The body of the node loop: open the node, or move its `last_seen` forward. */
  method MergeNode(nodes: seq<SecurityNode>, s: Sighting) returns (merged: seq<SecurityNode>)
    ensures merged == MergeStep(nodes, s)
  {
    merged := nodes;
    var at := IndexOfId(nodes, s.node.id);
    if at.None? {
      merged := nodes + [Opened(s)];
    } else {
      var known := nodes[at.value];
      if s.time > known.lastSeen {
        merged := nodes[at.value := known.(lastSeen := s.time)];
      }
    }
  }

  /** The loop over the relationships mapped from one record. */
  method AppendSecured(rels: seq<SecurityRelationship>, mapped: seq<FieldMapping.Relationship>, record: Record, time: int)
    returns (out: seq<SecurityRelationship>)
    ensures out == rels + SecureAll(mapped, record, time)
  {
    out := rels;
    for j := 0 to |mapped|
      invariant out == rels + SecureAll(mapped[..j], record, time)
    {
      assert mapped[..j + 1][..j] == mapped[..j];
      out := out + [Secured(mapped[j], record, time)];
    }
    assert mapped[..|mapped|] == mapped;
  }

  // ---------------------------------------------------------------- merge properties

  /** The position of the first sighting of `id`. */
  function FirstIndex(ss: seq<Sighting>, id: string): (r: Option<nat>)
    ensures r.Some? ==> r.value < |ss| && ss[r.value].node.id == id
    ensures r.Some? ==> forall k :: 0 <= k < r.value ==> ss[k].node.id != id
    ensures r.None? ==> forall k :: 0 <= k < |ss| ==> ss[k].node.id != id
  {
    if ss == [] then None
    else match FirstIndex(ss[..|ss| - 1], id)
      case Some(k) => Some(k)
      case None => if ss[|ss| - 1].node.id == id then Some(|ss| - 1) else None
  }

  /** The latest time `id` was sighted. */
  function LatestTime(ss: seq<Sighting>, id: string): (r: Option<int>)
    ensures r.Some? <==> FirstIndex(ss, id).Some?
    ensures r.Some? ==> forall k :: 0 <= k < |ss| && ss[k].node.id == id ==> ss[k].time <= r.value
    ensures r.Some? ==> exists k :: 0 <= k < |ss| && ss[k].node.id == id && ss[k].time == r.value
  {
    if ss == [] then None
    else
      var prior := LatestTime(ss[..|ss| - 1], id);
      var last := ss[|ss| - 1];
      if last.node.id != id then prior
      else match prior
        case None => Some(last.time)
        case Some(p) => Some(if last.time > p then last.time else p)
  }

  /** `n` is what the sightings make of its id: the first sighting with the latest time. */
  ghost predicate Describes(n: SecurityNode, ss: seq<Sighting>)
  {
    && FirstIndex(ss, n.id).Some?
    && LatestTime(ss, n.id).Some?
    && n == Opened(ss[FirstIndex(ss, n.id).value]).(lastSeen := LatestTime(ss, n.id).value)
  }

  ghost predicate Summarises(m: seq<SecurityNode>, ss: seq<Sighting>)
  {
    && (forall i :: 0 <= i < |m| ==> Describes(m[i], ss))
    && (forall i, j :: 0 <= i < j < |m| ==> FirstIndex(ss, m[i].id).value < FirstIndex(ss, m[j].id).value)
    && (forall k :: 0 <= k < |ss| ==> IndexOfId(m, ss[k].node.id).Some?)
  }

  lemma {:induction false} FirstIndexSnoc(ss: seq<Sighting>, s: Sighting, id: string)
    ensures FirstIndex(ss + [s], id) ==
              if FirstIndex(ss, id).Some? then FirstIndex(ss, id)
              else if s.node.id == id then Some(|ss|) else None
  {
    assert (ss + [s])[..|ss|] == ss;
  }

  lemma {:induction false} LatestTimeSnoc(ss: seq<Sighting>, s: Sighting, id: string)
    ensures s.node.id != id ==> LatestTime(ss + [s], id) == LatestTime(ss, id)
    ensures s.node.id == id && LatestTime(ss, id).None? ==> LatestTime(ss + [s], id) == Some(s.time)
    ensures s.node.id == id && LatestTime(ss, id).Some? ==>
              LatestTime(ss + [s], id) == Some(if s.time > LatestTime(ss, id).value then s.time else LatestTime(ss, id).value)
  {
    assert (ss + [s])[..|ss|] == ss;
  }

  /** A sighting of another id leaves a node's description as it was. */
  lemma {:induction false} DescribedAfterOther(n: SecurityNode, ss: seq<Sighting>, s: Sighting)
    requires Describes(n, ss) && n.id != s.node.id
    ensures Describes(n, ss + [s]) && FirstIndex(ss + [s], n.id) == FirstIndex(ss, n.id)
  {
    FirstIndexSnoc(ss, s, n.id);
    LatestTimeSnoc(ss, s, n.id);
    assert (ss + [s])[FirstIndex(ss, n.id).value] == ss[FirstIndex(ss, n.id).value];
  }

  /** A later sighting of a node's id moves its `lastSeen` to the later of the two times. */
  lemma {:induction false} DescribedAfterSame(n: SecurityNode, ss: seq<Sighting>, s: Sighting)
    requires Describes(n, ss) && n.id == s.node.id
    ensures Describes(n.(lastSeen := if s.time > n.lastSeen then s.time else n.lastSeen), ss + [s])
    ensures FirstIndex(ss + [s], n.id) == FirstIndex(ss, n.id)
  {
    FirstIndexSnoc(ss, s, n.id);
    LatestTimeSnoc(ss, s, n.id);
    assert (ss + [s])[FirstIndex(ss, n.id).value] == ss[FirstIndex(ss, n.id).value];
  }

  /** The first sighting of an id describes the node it opens. */
  lemma {:induction false} DescribedFirst(ss: seq<Sighting>, s: Sighting)
    requires FirstIndex(ss, s.node.id).None?
    ensures Describes(Opened(s), ss + [s]) && FirstIndex(ss + [s], s.node.id) == Some(|ss|)
  {
    FirstIndexSnoc(ss, s, s.node.id);
    LatestTimeSnoc(ss, s, s.node.id);
    assert (ss + [s])[|ss|] == s;
  }

  /** Appending the node a new id opens keeps the nodes in order of first sighting. */
  lemma {:induction false} OrderedAfterNew(m: seq<SecurityNode>, ss: seq<Sighting>, s: Sighting)
    requires forall i :: 0 <= i < |m| ==> FirstIndex(ss, m[i].id).Some? && FirstIndex(ss + [s], m[i].id) == FirstIndex(ss, m[i].id)
    requires forall i, j :: 0 <= i < j < |m| ==> FirstIndex(ss, m[i].id).value < FirstIndex(ss, m[j].id).value
    requires FirstIndex(ss + [s], s.node.id) == Some(|ss|)
    ensures forall i, j :: 0 <= i < j < |m + [Opened(s)]| ==>
              FirstIndex(ss + [s], (m + [Opened(s)])[i].id).value < FirstIndex(ss + [s], (m + [Opened(s)])[j].id).value
  {
    var m' := m + [Opened(s)];
    forall i, j | 0 <= i < j < |m'|
      ensures FirstIndex(ss + [s], m'[i].id).value < FirstIndex(ss + [s], m'[j].id).value
    {
      assert m'[i] == m[i];
      if j < |m| {
        assert m'[j] == m[j];
      }
    }
  }

  /** Every id sighted so far, and the new one, has a node once the new node is appended. */
  lemma {:induction false} CoveredAfterNew(m: seq<SecurityNode>, ss: seq<Sighting>, s: Sighting)
    requires forall k :: 0 <= k < |ss| ==> IndexOfId(m, ss[k].node.id).Some?
    ensures forall k :: 0 <= k < |ss + [s]| ==> IndexOfId(m + [Opened(s)], (ss + [s])[k].node.id).Some?
  {
    var ss', m' := ss + [s], m + [Opened(s)];
    forall k | 0 <= k < |ss'|
      ensures IndexOfId(m', ss'[k].node.id).Some?
    {
      if k < |ss| {
        var p := IndexOfId(m, ss[k].node.id).value;
        assert m'[p].id == ss'[k].node.id;
      } else {
        assert m'[|m|].id == ss'[k].node.id;
      }
    }
  }

  /** A sighting of a new id appends its node; the others keep their description. */
  lemma {:induction false} MergeNewSummarises(m: seq<SecurityNode>, ss: seq<Sighting>, s: Sighting)
    requires Summarises(m, ss)
    requires IndexOfId(m, s.node.id).None?
    ensures Summarises(MergeStep(m, s), ss + [s])
  {
    var ss', m' := ss + [s], m + [Opened(s)];
    assert MergeStep(m, s) == m';
    forall k | 0 <= k < |ss|
      ensures ss[k].node.id != s.node.id
    {
      assert IndexOfId(m, ss[k].node.id).Some?;
    }
    assert FirstIndex(ss, s.node.id).None?;
    forall i | 0 <= i < |m|
      ensures Describes(m'[i], ss') && FirstIndex(ss, m[i].id).Some? && FirstIndex(ss', m[i].id) == FirstIndex(ss, m[i].id)
    {
      assert m'[i] == m[i] && Describes(m[i], ss);
      DescribedAfterOther(m[i], ss, s);
    }
    DescribedFirst(ss, s);
    assert m'[|m|] == Opened(s);
    OrderedAfterNew(m, ss, s);
    CoveredAfterNew(m, ss, s);
  }

  /** The merge step on a known id: only that node changes, and only its `lastSeen`. */
  ghost predicate RenewedAt(m: seq<SecurityNode>, m': seq<SecurityNode>, s: Sighting, p: int)
  {
    && 0 <= p < |m| == |m'|
    && m'[p] == m[p].(lastSeen := if s.time > m[p].lastSeen then s.time else m[p].lastSeen)
    && forall i :: 0 <= i < |m| && i != p ==> m'[i] == m[i]
  }

  /** A sighting of a known id can only move that node's `lastSeen` forward. */
  lemma {:induction false} MergeKnownSummarises(m: seq<SecurityNode>, ss: seq<Sighting>, s: Sighting)
    requires Summarises(m, ss)
    requires IndexOfId(m, s.node.id).Some?
    ensures Summarises(MergeStep(m, s), ss + [s])
  {
    var p := IndexOfId(m, s.node.id).value;
    assert RenewedAt(m, MergeStep(m, s), s, p);
    RenewedSummarises(m, ss, s, p, MergeStep(m, s));
  }

  lemma {:induction false} RenewedSummarises(m: seq<SecurityNode>, ss: seq<Sighting>, s: Sighting, p: int, m': seq<SecurityNode>)
    requires Summarises(m, ss)
    requires IndexOfId(m, s.node.id) == Some(p)
    requires RenewedAt(m, m', s, p)
    ensures Summarises(m', ss + [s])
  {
    var ss' := ss + [s];
    assert forall i, j :: 0 <= i < j < |m| ==> m[i].id != m[j].id;
    DescribedAfterUpdate(m, ss, s, p, m');
    assert forall i :: 0 <= i < |m| ==> m'[i].id == m[i].id;
    OrderedAfterUpdate(m, ss, m', ss');
    CoveredAfterUpdate(m, ss, s, p, m');
  }

  /** After a sighting of the id of node `p`, every node is described as the merge step leaves it. */
  lemma {:induction false} DescribedAfterUpdate(m: seq<SecurityNode>, ss: seq<Sighting>, s: Sighting, p: int, m': seq<SecurityNode>)
    requires forall i :: 0 <= i < |m| ==> Describes(m[i], ss)
    requires forall i, j :: 0 <= i < j < |m| ==> m[i].id != m[j].id
    requires IndexOfId(m, s.node.id) == Some(p)
    requires RenewedAt(m, m', s, p)
    ensures forall i :: 0 <= i < |m| ==>
              Describes(m'[i], ss + [s]) && FirstIndex(ss, m[i].id).Some? && FirstIndex(ss + [s], m[i].id) == FirstIndex(ss, m[i].id)
  {
    forall i | 0 <= i < |m|
      ensures Describes(m'[i], ss + [s]) && FirstIndex(ss, m[i].id).Some? && FirstIndex(ss + [s], m[i].id) == FirstIndex(ss, m[i].id)
    {
      assert Describes(m[i], ss);
      if i == p {
        DescribedAfterSame(m[i], ss, s);
      } else {
        assert m'[i] == m[i];
        DescribedAfterOther(m[i], ss, s);
      }
    }
  }

  /** Every id sighted so far, and the new sighting's, keeps its node when one node changes but not its id. */
  lemma {:induction false} CoveredAfterUpdate(m: seq<SecurityNode>, ss: seq<Sighting>, s: Sighting, p: int, m': seq<SecurityNode>)
    requires RenewedAt(m, m', s, p)
    requires m[p].id == s.node.id
    requires forall k :: 0 <= k < |ss| ==> IndexOfId(m, ss[k].node.id).Some?
    ensures forall k :: 0 <= k < |ss + [s]| ==> IndexOfId(m', (ss + [s])[k].node.id).Some?
  {
    var ss' := ss + [s];
    forall k | 0 <= k < |ss'|
      ensures IndexOfId(m', ss'[k].node.id).Some?
    {
      if k < |ss| {
        var q := IndexOfId(m, ss[k].node.id).value;
        assert m'[q].id == ss'[k].node.id;
      } else {
        assert m'[p].id == ss'[k].node.id;
      }
    }
  }

  /** Renewing nodes without changing their ids or first sightings keeps their order. */
  lemma {:induction false} OrderedAfterUpdate(m: seq<SecurityNode>, ss: seq<Sighting>, m': seq<SecurityNode>, ss': seq<Sighting>)
    requires |m'| == |m| && forall i :: 0 <= i < |m| ==> m'[i].id == m[i].id
    requires forall i :: 0 <= i < |m| ==> FirstIndex(ss, m[i].id).Some? && FirstIndex(ss', m[i].id) == FirstIndex(ss, m[i].id)
    requires forall i, j :: 0 <= i < j < |m| ==> FirstIndex(ss, m[i].id).value < FirstIndex(ss, m[j].id).value
    ensures forall i, j :: 0 <= i < j < |m'| ==> FirstIndex(ss', m'[i].id).value < FirstIndex(ss', m'[j].id).value
  {
    forall i, j | 0 <= i < j < |m'|
      ensures FirstIndex(ss', m'[i].id).value < FirstIndex(ss', m'[j].id).value
    {
      assert m'[i].id == m[i].id && m'[j].id == m[j].id;
    }
  }

  lemma {:induction false} MergedSummarises(ss: seq<Sighting>)
    ensures Summarises(Merged(ss), ss)
  {
    if ss != [] {
      var init, s := ss[..|ss| - 1], ss[|ss| - 1];
      MergedSummarises(init);
      assert init + [s] == ss;
      if IndexOfId(Merged(init), s.node.id).None? {
        MergeNewSummarises(Merged(init), init, s);
      } else {
        MergeKnownSummarises(Merged(init), init, s);
      }
    }
  }

  /**
   * The merged nodes: one per sighted id and no other, in order of first
   * sighting; each takes its type (lower-cased), properties, risk and
   * `firstSeen` from its first sighting, and its `lastSeen` is the latest
   * time its id was sighted, never before `firstSeen`.
   */
  lemma {:induction false} MergedProperties(ss: seq<Sighting>)
    ensures forall i, j :: 0 <= i < j < |Merged(ss)| ==> Merged(ss)[i].id != Merged(ss)[j].id
    ensures forall id :: IndexOfId(Merged(ss), id).Some? <==> FirstIndex(ss, id).Some?
    ensures forall i, j :: 0 <= i < j < |Merged(ss)| ==>
              FirstIndex(ss, Merged(ss)[i].id).Some? && FirstIndex(ss, Merged(ss)[j].id).Some? &&
              FirstIndex(ss, Merged(ss)[i].id).value < FirstIndex(ss, Merged(ss)[j].id).value
    ensures forall i :: 0 <= i < |Merged(ss)| ==> Describes(Merged(ss)[i], ss)
    ensures forall i :: 0 <= i < |Merged(ss)| ==> Merged(ss)[i].firstSeen <= Merged(ss)[i].lastSeen
  {
    var m := Merged(ss);
    MergedSummarises(ss);
    forall id
      ensures IndexOfId(m, id).Some? <==> FirstIndex(ss, id).Some?
    {
      if IndexOfId(m, id).Some? {
        assert Describes(m[IndexOfId(m, id).value], ss);
      }
      if FirstIndex(ss, id).Some? {
        assert IndexOfId(m, ss[FirstIndex(ss, id).value].node.id).Some?;
      }
    }
    forall i | 0 <= i < |m|
      ensures m[i].firstSeen <= m[i].lastSeen
    {
      assert Describes(m[i], ss);
      var k := FirstIndex(ss, m[i].id).value;
      assert ss[k].node.id == m[i].id;
    }
  }

  /** A merge step keeps every node it finds except for moving its `lastSeen` forward. */
  lemma MergeStepMonotone(m: seq<SecurityNode>, s: Sighting)
    ensures |MergeStep(m, s)| >= |m|
    ensures forall i :: 0 <= i < |m| ==>
              MergeStep(m, s)[i] == m[i].(lastSeen := MergeStep(m, s)[i].lastSeen) &&
              MergeStep(m, s)[i].lastSeen >= m[i].lastSeen
  {
  }

  /** Over any longer run of sightings a node keeps its place and fields and `lastSeen` never decreases. */
  lemma {:induction false} MergedMonotone(ss: seq<Sighting>, n: nat)
    requires n <= |ss|
    ensures |Merged(ss)| >= |Merged(ss[..n])|
    ensures forall i :: 0 <= i < |Merged(ss[..n])| ==>
              Merged(ss)[i] == Merged(ss[..n])[i].(lastSeen := Merged(ss)[i].lastSeen) &&
              Merged(ss)[i].lastSeen >= Merged(ss[..n])[i].lastSeen
  {
    if n < |ss| {
      var init := ss[..|ss| - 1];
      assert init[..n] == ss[..n];
      MergedMonotone(init, n);
      MergeStepMonotone(Merged(init), ss[|ss| - 1]);
    } else {
      assert ss[..n] == ss;
    }
  }

  /** Every node `nodesOf` yields for a record is among the sightings of the records. */
  lemma {:induction false} SightingsCover(records: seq<Record>, nodesOf: Record -> seq<Node>, timeOf: Record -> int,
                                          r: int, n: Node)
    requires 0 <= r < |records| && n in nodesOf(records[r])
    ensures exists k :: 0 <= k < |Sightings(records, nodesOf, timeOf)| && Sightings(records, nodesOf, timeOf)[k].node == n
  {
    var init, last := records[..|records| - 1], records[|records| - 1];
    var prior, tail := Sightings(init, nodesOf, timeOf), Stamp(nodesOf(last), timeOf(last));
    assert Sightings(records, nodesOf, timeOf) == prior + tail;
    if r < |records| - 1 {
      assert init[r] == records[r];
      SightingsCover(init, nodesOf, timeOf, r, n);
      var k :| 0 <= k < |prior| && prior[k].node == n;
      assert (prior + tail)[k] == prior[k];
    } else {
      var j :| 0 <= j < |nodesOf(last)| && nodesOf(last)[j] == n;
      assert (prior + tail)[|prior| + j] == tail[j];
    }
  }

  /** Every relationship of the records comes from one of them. */
  lemma {:induction false} GraphRelationshipsOrigin(records: seq<Record>, relsOf: Record -> seq<FieldMapping.Relationship>,
                                                    timeOf: Record -> int, x: SecurityRelationship)
    requires x in GraphRelationships(records, relsOf, timeOf)
    ensures exists r, rel :: 0 <= r < |records| && rel in relsOf(records[r]) &&
              x == Secured(rel, records[r], timeOf(records[r]))
  {
    var init, last := records[..|records| - 1], records[|records| - 1];
    var prior, tail := GraphRelationships(init, relsOf, timeOf), SecureAll(relsOf(last), last, timeOf(last));
    assert GraphRelationships(records, relsOf, timeOf) == prior + tail;
    if x in prior {
      GraphRelationshipsOrigin(init, relsOf, timeOf, x);
      var r, rel :| 0 <= r < |init| && rel in relsOf(init[r]) && x == Secured(rel, init[r], timeOf(init[r]));
      assert init[r] == records[r];
    } else {
      var j :| 0 <= j < |tail| && tail[j] == x;
      assert relsOf(last)[j] in relsOf(records[|records| - 1]);
    }
  }

  /** An id of a node `nodesOf` yields for a record becomes a graph node. */
  lemma {:induction false} MappedIdMerged(records: seq<Record>, nodesOf: Record -> seq<Node>, timeOf: Record -> int, r: int, n: Node)
    requires 0 <= r < |records| && n in nodesOf(records[r])
    ensures IndexOfId(Merged(Sightings(records, nodesOf, timeOf)), n.id).Some?
  {
    var ss := Sightings(records, nodesOf, timeOf);
    SightingsCover(records, nodesOf, timeOf, r, n);
    var k :| 0 <= k < |ss| && ss[k].node == n;
    MergedProperties(ss);
    assert FirstIndex(ss, n.id).Some?;
  }

  lemma {:induction false} IdsOfTypeMember(nodes: seq<Node>, t: string, x: string)
    requires x in FieldMapping.IdsOfType(nodes, t)
    ensures exists a :: a in nodes && a.id == x
  {
    var i :| 0 <= i < |nodes| && nodes[i].nodeType == t && nodes[i].id == x;
    assert nodes[i] in nodes;
  }

  /** The field mapper relates only ids of nodes it mapped from the same record. */
  lemma {:induction false} RelatedIdsMapped(record: Record, nodes: seq<Node>, rms: seq<FieldMapping.RelMapping>,
                                            rel: FieldMapping.Relationship)
    requires rel in FieldMapping.RelationshipsFor(record, nodes, rms)
    ensures exists a :: a in nodes && a.id == rel.sourceId
    ensures exists b :: b in nodes && b.id == rel.targetId
  {
    FieldMapping.RelationshipOrigin(record, nodes, rms);
    var k :| 0 <= k < |rms| && rel.relType == rms[k].relType
             && rel.sourceId in FieldMapping.IdsOfType(nodes, rms[k].sourceType)
             && rel.targetId in FieldMapping.IdsOfType(nodes, rms[k].targetType)
             && rms[k].sourceField in record && rms[k].targetField in record
             && rel.properties == FieldMapping.RelProps(record, rms[k].properties);
    IdsOfTypeMember(nodes, rms[k].sourceType, rel.sourceId);
    IdsOfTypeMember(nodes, rms[k].targetType, rel.targetId);
  }

  lemma {:induction false} RecordRelatedIdsMapped(record: Record, rel: FieldMapping.Relationship)
    requires rel in RecordRelationships(record)
    ensures exists a :: a in RecordNodes(record) && a.id == rel.sourceId
    ensures exists b :: b in RecordNodes(record) && b.id == rel.targetId
  {
    var t := RecordLogType(record).value;
    RelatedIdsMapped(record, FieldMapping.NodesFor(record, t), FieldMapping.RELATIONSHIP_MAPPINGS, rel);
  }

  /**
   * No relationship dangles: both ends of every relationship are ids of
   * graph nodes, and it carries the weight of the mapped relationship in its
   * record and that record's timestamp.
   */
  lemma {:induction false} GraphElementsClosed(records: seq<Record>, timeOf: Record -> int, x: SecurityRelationship)
    requires x in GraphRelationships(records, RecordRelationships, timeOf)
    ensures IndexOfId(Merged(Sightings(records, RecordNodes, timeOf)), x.sourceId).Some?
    ensures IndexOfId(Merged(Sightings(records, RecordNodes, timeOf)), x.targetId).Some?
    ensures exists r, rel :: 0 <= r < |records| && rel in RecordRelationships(records[r]) &&
              x.weight == RelationshipWeight(rel, records[r]) && x.timestamp == timeOf(records[r])
  {
    GraphRelationshipsOrigin(records, RecordRelationships, timeOf, x);
    var r, rel :| 0 <= r < |records| && rel in RecordRelationships(records[r]) &&
                  x == Secured(rel, records[r], timeOf(records[r]));
    RecordRelatedIdsMapped(records[r], rel);
    var a :| a in RecordNodes(records[r]) && a.id == rel.sourceId;
    var b :| b in RecordNodes(records[r]) && b.id == rel.targetId;
    MappedIdMerged(records, RecordNodes, timeOf, r, a);
    MappedIdMerged(records, RecordNodes, timeOf, r, b);
  }

  // ---------------------------------------------------------------- subgraph

  datatype GraphNode<N> = GraphNode(id: string, data: N)
  datatype GraphEdge<E> = GraphEdge(source: string, target: string, data: E)

  /** A directed multigraph: nodes in insertion order, parallel edges allowed. */
  datatype Graph<N, E> = Graph(nodes: seq<GraphNode<N>>, edges: seq<GraphEdge<E>>)

  predicate HasNode<N, E>(g: Graph<N, E>, id: string)
  {
    exists i | 0 <= i < |g.nodes| :: g.nodes[i].id == id
  }

  /** `graph.neighbors(x)` of a directed graph: the targets of the edges out of `x`. */
  function Successors<N, E>(g: Graph<N, E>, x: string): set<string>
  {
    set i | 0 <= i < |g.edges| && g.edges[i].source == x :: g.edges[i].target
  }

  /** The successors of a set of nodes. */
  function Image<N, E>(g: Graph<N, E>, xs: set<string>): set<string>
  {
    set i | 0 <= i < |g.edges| && g.edges[i].source in xs :: g.edges[i].target
  }

  /** `current_level` after `k` rounds. */
  function Level<N, E>(g: Graph<N, E>, center: string, k: nat): set<string>
  {
    if k == 0 then {center} else Image(g, Level(g, center, k - 1))
  }

  /** `nodes_in_range` after `k` rounds. */
  function Ball<N, E>(g: Graph<N, E>, center: string, k: nat): set<string>
  {
    if k == 0 then {center} else Ball(g, center, k - 1) + Level(g, center, k)
  }

  function NodeIn<N>(xs: set<string>): GraphNode<N> -> bool
  {
    (n: GraphNode<N>) => n.id in xs
  }

  function EdgeWithin<E>(xs: set<string>): GraphEdge<E> -> bool
  {
    (e: GraphEdge<E>) => e.source in xs && e.target in xs
  }

  /** `graph.subgraph(xs)`: the nodes in `xs` and the edges with both ends in `xs`. */
  function Induced<N(==), E(==)>(g: Graph<N, E>, xs: set<string>): Graph<N, E>
  {
    Graph(Filter(g.nodes, NodeIn(xs)), Filter(g.edges, EdgeWithin(xs)))
  }

  lemma ImageAdd<N, E>(g: Graph<N, E>, xs: set<string>, x: string)
    ensures Image(g, xs + {x}) == Image(g, xs) + Successors(g, x)
  {
  }

  /** The fallback branch of `get_subgraph`: level-by-level frontier expansion. */
  method GetSubgraph<N(==), E(==)>(g: Graph<N, E>, center: string, depth: int) returns (sub: Graph<N, E>)
    ensures !HasNode(g, center) ==> sub == Graph([], [])
    ensures HasNode(g, center) ==> sub == Induced(g, Ball(g, center, if depth < 0 then 0 else depth))
  {
    if !HasNode(g, center) {
      return Graph([], []);
    }
    var inRange := {center};
    var current := {center};
    var rounds := if depth < 0 then 0 else depth;
    for level := 0 to rounds
      invariant current == Level(g, center, level)
      invariant inRange == Ball(g, center, level)
    {
      var next := ImageOf(g, current);
      inRange := inRange + next;
      current := next;
    }
    sub := Induced(g, inRange);
  }

  /** The inner loop of `get_subgraph`: the union of the neighbours of the current level. */
  method ImageOf<N, E>(g: Graph<N, E>, current: set<string>) returns (next: set<string>)
    ensures next == Image(g, current)
  {
    next := {};
    var todo := current;
    while todo != {}
      invariant todo <= current
      invariant next == Image(g, current - todo)
      decreases |todo|
    {
      var x :| x in todo;
      ImageAdd(g, current - todo, x);
      assert current - (todo - {x}) == (current - todo) + {x};
      next := next + Successors(g, x);
      todo := todo - {x};
    }
    assert current - todo == current;
  }

  /** `p` follows edges of `g` from its first node to its last. */
  ghost predicate IsWalk<N, E>(g: Graph<N, E>, p: seq<string>)
  {
    |p| >= 1 && forall i :: 0 <= i < |p| - 1 ==> p[i + 1] in Successors(g, p[i])
  }

  /** A walk extended by a successor of its end. */
  lemma WalkSnoc<N, E>(g: Graph<N, E>, q: seq<string>, x: string)
    requires IsWalk(g, q) && x in Successors(g, q[|q| - 1])
    ensures IsWalk(g, q + [x])
  {
    var p := q + [x];
    forall j | 0 <= j < |p| - 1
      ensures p[j + 1] in Successors(g, p[j])
    {
      if j < |q| - 1 {
        assert p[j] == q[j] && p[j + 1] == q[j + 1];
      }
    }
  }

  /** A walk without its last step. */
  lemma WalkInit<N, E>(g: Graph<N, E>, p: seq<string>)
    requires IsWalk(g, p) && |p| >= 2
    ensures IsWalk(g, p[..|p| - 1])
  {
    var q := p[..|p| - 1];
    forall j | 0 <= j < |q| - 1
      ensures q[j + 1] in Successors(g, q[j])
    {
      assert q[j] == p[j] && q[j + 1] == p[j + 1];
    }
  }

  /** Level `k` holds exactly the ends of the `k`-step walks from the centre. */
  lemma {:induction false} LevelWalks<N, E>(g: Graph<N, E>, center: string, k: nat, x: string)
    ensures x in Level(g, center, k) <==> exists p :: IsWalk(g, p) && |p| == k + 1 && p[0] == center && p[k] == x
  {
    if k == 0 {
      if x in Level(g, center, k) {
        assert IsWalk(g, [center]);
      }
    } else {
      if x in Level(g, center, k) {
        var i :| 0 <= i < |g.edges| && g.edges[i].source in Level(g, center, k - 1) && g.edges[i].target == x;
        var y := g.edges[i].source;
        LevelWalks(g, center, k - 1, y);
        var q :| IsWalk(g, q) && |q| == k && q[0] == center && q[k - 1] == y;
        assert x in Successors(g, y);
        WalkSnoc(g, q, x);
        var p := q + [x];
        assert |p| == k + 1 && p[0] == center && p[k] == x;
      }
      if exists p :: IsWalk(g, p) && |p| == k + 1 && p[0] == center && p[k] == x {
        var p :| IsWalk(g, p) && |p| == k + 1 && p[0] == center && p[k] == x;
        var q := p[..k];
        WalkInit(g, p);
        assert q[0] == center && q[k - 1] == p[k - 1];
        LevelWalks(g, center, k - 1, p[k - 1]);
        assert x in Successors(g, p[k - 1]);
        var i :| 0 <= i < |g.edges| && g.edges[i].source == p[k - 1] && g.edges[i].target == x;
        assert g.edges[i].source in Level(g, center, k - 1);
      }
    }
  }

  lemma {:induction false} BallLevels<N, E>(g: Graph<N, E>, center: string, d: nat, x: string)
    ensures x in Ball(g, center, d) <==> exists j :: 0 <= j <= d && x in Level(g, center, j)
  {
    if d == 0 {
      if x in Ball(g, center, d) {
        assert x in Level(g, center, 0);
      }
    } else {
      BallLevels(g, center, d - 1, x);
      if x in Level(g, center, d) {
        assert 0 <= d <= d && x in Level(g, center, d);
      }
      if exists j :: 0 <= j <= d && x in Level(g, center, j) {
        var j :| 0 <= j <= d && x in Level(g, center, j);
        if j < d {
          assert 0 <= j <= d - 1 && x in Level(g, center, j);
        }
      }
    }
  }

  /** The ball of radius `d` holds exactly the nodes reachable from the centre in at most `d` steps. */
  lemma BallWalks<N, E>(g: Graph<N, E>, center: string, d: nat, x: string)
    ensures x in Ball(g, center, d) <==> exists p :: IsWalk(g, p) && |p| <= d + 1 && p[0] == center && p[|p| - 1] == x
  {
    BallLevels(g, center, d, x);
    if x in Ball(g, center, d) {
      var j :| 0 <= j <= d && x in Level(g, center, j);
      LevelWalks(g, center, j, x);
    }
    if exists p :: IsWalk(g, p) && |p| <= d + 1 && p[0] == center && p[|p| - 1] == x {
      var p :| IsWalk(g, p) && |p| <= d + 1 && p[0] == center && p[|p| - 1] == x;
      LevelWalks(g, center, |p| - 1, x);
      assert x in Level(g, center, |p| - 1);
    }
  }

  /**
   * The nodes of the subgraph around a present centre: the graph's nodes
   * whose ids are reachable in at most `depth` steps, the centre among them.
   */
  lemma SubgraphNodes<N, E>(g: Graph<N, E>, center: string, depth: nat, n: GraphNode<N>)
    ensures n in Induced(g, Ball(g, center, depth)).nodes <==>
              n in g.nodes && exists p :: IsWalk(g, p) && |p| <= depth + 1 && p[0] == center && p[|p| - 1] == n.id
  {
    FilterMember(g.nodes, NodeIn(Ball(g, center, depth)), n);
    BallWalks(g, center, depth, n.id);
  }

  /** The edges of the subgraph: the graph's edges with both ends in range. */
  lemma SubgraphEdges<N, E>(g: Graph<N, E>, center: string, depth: nat, e: GraphEdge<E>)
    ensures e in Induced(g, Ball(g, center, depth)).edges <==>
              e in g.edges && e.source in Ball(g, center, depth) && e.target in Ball(g, center, depth)
  {
    FilterMember(g.edges, EdgeWithin(Ball(g, center, depth)), e);
  }

  /** A present centre is in its own subgraph, whatever the depth. */
  lemma SubgraphHasCenter<N, E>(g: Graph<N, E>, center: string, depth: nat)
    requires HasNode(g, center)
    ensures exists n :: n in Induced(g, Ball(g, center, depth)).nodes && n.id == center
  {
    BallLevels(g, center, depth, center);
    assert center in Level(g, center, 0);
    var i :| 0 <= i < |g.nodes| && g.nodes[i].id == center;
    FilterMember(g.nodes, NodeIn(Ball(g, center, depth)), g.nodes[i]);
  }
}
