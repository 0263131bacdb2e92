/**
 * The graph extractor (scripts/graph_extractor.py): VCN flow rows and audit
 * rows become IP nodes and `src->dst` edges, which are then cut down to the
 * requested sizes; and the per-address log view with its sort by time.
 *
 * The query results are inputs. A row field that is absent reads as the
 * empty text, which is also how a falsy value is represented.
 */
module GraphExtractor {
  import opened Common

  /** The byte count assumed for every flow (the logs carry none). */
  const ASSUMED_BYTES := 1024

  // ---------------------------------------------------------------- query sizes

  /** `min(50000, max(1000, minutes * 50))`: rows asked of the flow-log query. */
  function FlowRecordLimit(minutes: int): (r: int)
    ensures 1000 <= r <= 50000
    ensures 20 <= minutes <= 1000 ==> r == minutes * 50
  {
    var scaled := if minutes * 50 > 1000 then minutes * 50 else 1000;
    if scaled < 50000 then scaled else 50000
  }

  /** `min(10000, max(500, minutes * 10))`: rows asked of the audit query. */
  function AuditRecordLimit(minutes: int): (r: int)
    ensures 500 <= r <= 10000
    ensures 50 <= minutes <= 1000 ==> r == minutes * 10
  {
    var scaled := if minutes * 10 > 500 then minutes * 10 else 500;
    if scaled < 10000 then scaled else 10000
  }

  // ---------------------------------------------------------------- rows and nodes

  datatype FlowRow = FlowRow(time: string, src: string, dst: string, srcPort: string, dstPort: string, action: string)

  datatype AuditRow = AuditRow(time: string, ip: string, principal: string)

  /** A node of the graph; `label` is the id and `type` is always `ip`. */
  datatype GraphNode = GraphNode(id: string, connections: int, bytesTransferred: int,
                                 firstSeen: string, lastSeen: string, principal: Option<string>)

  /** The `nodes` dict: its keys in insertion order and its entries. */
  datatype NodeTable = NodeTable(order: seq<string>, nodes: map<string, GraphNode>)

  ghost predicate TableValid(t: NodeTable)
  {
    && NoDup(t.order)
    && (forall k :: k in t.nodes <==> k in t.order)
    && (forall k :: k in t.nodes ==> t.nodes[k].id == k)
  }

  /** Both addresses present: the only rows the flow pass looks at. */
  predicate HasBoth(r: FlowRow)
  {
    r.src != "" && r.dst != ""
  }

  /** How many of the row's two endpoints are `ip` (2 for a self-loop). */
  function Touches(r: FlowRow, ip: string): nat
  {
    if HasBoth(r) then (if r.src == ip then 1 else 0) + (if r.dst == ip then 1 else 0) else 0
  }

  /** Total endpoint occurrences of `ip` over the rows with both addresses. */
  function Degree(rows: seq<FlowRow>, ip: string): nat
  {
    if rows == [] then 0 else Degree(rows[..|rows| - 1], ip) + Touches(rows[|rows| - 1], ip)
  }

  /** The time of the first row that mentions `ip`, if any. */
  function FirstTime(rows: seq<FlowRow>, ip: string): (r: Option<string>)
    ensures r.Some? <==> Degree(rows, ip) > 0
  {
    if rows == [] then None
    else
      var f := FirstTime(rows[..|rows| - 1], ip);
      if f.Some? then f
      else if Touches(rows[|rows| - 1], ip) > 0 then Some(rows[|rows| - 1].time)
      else None
  }

  /** `FirstTime` names the earliest row that mentions `ip`. */
  lemma {:induction false} FirstTimeIsFirst(rows: seq<FlowRow>, ip: string)
    requires Degree(rows, ip) > 0
    ensures exists i :: 0 <= i < |rows| && Touches(rows[i], ip) > 0 && FirstTime(rows, ip) == Some(rows[i].time)
                        && forall j :: 0 <= j < i ==> Touches(rows[j], ip) == 0
  {
    var p := rows[..|rows| - 1];
    assert forall j :: 0 <= j < |p| ==> p[j] == rows[j];
    if FirstTime(p, ip).Some? {
      FirstTimeIsFirst(p, ip);
      var i :| 0 <= i < |p| && Touches(p[i], ip) > 0 && FirstTime(p, ip) == Some(p[i].time)
               && forall j :: 0 <= j < i ==> Touches(p[j], ip) == 0;
      assert rows[i] == p[i];
    } else {
      NoTouchBefore(p, ip);
      var i := |rows| - 1;
      assert forall j :: 0 <= j < i ==> Touches(rows[j], ip) == 0;
    }
  }

  lemma {:induction false} NoTouchBefore(rows: seq<FlowRow>, ip: string)
    requires Degree(rows, ip) == 0
    ensures forall j :: 0 <= j < |rows| ==> Touches(rows[j], ip) == 0
  {
    if rows != [] {
      var p := rows[..|rows| - 1];
      NoTouchBefore(p, ip);
      assert forall j :: 0 <= j < |p| ==> p[j] == rows[j];
    }
  }

  function NewNode(ip: string, time: string, principal: Option<string>): GraphNode
  {
    GraphNode(ip, 0, 0, time, time, principal)
  }

  /** `if ip not in nodes: nodes[ip] = {...}` for a flow row. */
  function Ensure(t: NodeTable, ip: string, time: string): (r: NodeTable)
    ensures ip in r.nodes && forall k :: k in t.nodes ==> k in r.nodes && r.nodes[k] == t.nodes[k]
  {
    if ip in t.nodes then t else NodeTable(t.order + [ip], t.nodes[ip := NewNode(ip, time, None)])
  }

  /** `connections += 1` and `bytesTransferred += 1024` on one node. */
  function Bump(t: NodeTable, ip: string): NodeTable
    requires ip in t.nodes
  {
    var n := t.nodes[ip];
    NodeTable(t.order, t.nodes[ip := n.(connections := n.connections + 1,
                                        bytesTransferred := n.bytesTransferred + ASSUMED_BYTES)])
  }

  /** One flow row applied to the node table. */
  function AddFlow(t: NodeTable, r: FlowRow): NodeTable
  {
    if !HasBoth(r) then t
    else
      var t1 := Ensure(Ensure(t, r.src, r.time), r.dst, r.time);
      Bump(Bump(t1, r.src), r.dst)
  }

  /** The node table after the flow pass. */
  function FlowNodes(rows: seq<FlowRow>): NodeTable
  {
    if rows == [] then NodeTable([], map[]) else AddFlow(FlowNodes(rows[..|rows| - 1]), rows[|rows| - 1])
  }

  /**
   * After the flow pass an address has a node exactly when some row with
   * both addresses mentions it; its `connections` counts those mentions
   * (twice for a row from the address to itself), `bytesTransferred` is
   * 1024 per mention, and `firstSeen` and `lastSeen` both hold the time of
   * the first such row: they are set when the node is made and never again.
   */
  lemma {:induction false} FlowNodeAt(rows: seq<FlowRow>, ip: string)
    ensures ip in FlowNodes(rows).nodes <==> Degree(rows, ip) > 0
    ensures ip in FlowNodes(rows).nodes ==>
              FlowNodes(rows).nodes[ip] == GraphNode(ip, Degree(rows, ip), ASSUMED_BYTES * Degree(rows, ip),
                                                     FirstTime(rows, ip).value, FirstTime(rows, ip).value, None)
  {
    if rows != [] {
      var p, x := rows[..|rows| - 1], rows[|rows| - 1];
      FlowNodeAt(p, ip);
      if HasBoth(x) {
        var t := FlowNodes(p);
        var t1 := Ensure(Ensure(t, x.src, x.time), x.dst, x.time);
        assert ip in t.nodes ==> t1.nodes[ip] == t.nodes[ip];
        assert ip !in t.nodes && Touches(x, ip) > 0 ==> t1.nodes[ip] == NewNode(ip, x.time, None);
      }
    }
  }

  lemma EnsureValid(t: NodeTable, ip: string, time: string)
    requires TableValid(t)
    ensures TableValid(Ensure(t, ip, time))
  {
  }

  lemma {:induction false} FlowNodesValid(rows: seq<FlowRow>)
    ensures TableValid(FlowNodes(rows))
  {
    if rows != [] {
      var p, x := rows[..|rows| - 1], rows[|rows| - 1];
      FlowNodesValid(p);
      if HasBoth(x) {
        EnsureValid(FlowNodes(p), x.src, x.time);
        EnsureValid(Ensure(FlowNodes(p), x.src, x.time), x.dst, x.time);
      }
    }
  }

  // ---------------------------------------------------------------- audit rows

  /**
   * One audit row: an unseen address gets a node with no connections and
   * the row's principal (even an empty one); a known node gets the
   * principal only when the row has one and the node has none yet.
   */
  function AddAudit(t: NodeTable, a: AuditRow): NodeTable
  {
    if a.ip == "" then t
    else if a.ip !in t.nodes then NodeTable(t.order + [a.ip], t.nodes[a.ip := NewNode(a.ip, a.time, Some(a.principal))])
    else if a.principal != "" && t.nodes[a.ip].principal.None? then
      NodeTable(t.order, t.nodes[a.ip := t.nodes[a.ip].(principal := Some(a.principal))])
    else t
  }

  function AuditNodes(t: NodeTable, audits: seq<AuditRow>): NodeTable
  {
    if audits == [] then t else AddAudit(AuditNodes(t, audits[..|audits| - 1]), audits[|audits| - 1])
  }

  /** Only the principal of a node may differ. */
  predicate SameStats(a: GraphNode, b: GraphNode)
  {
    a.(principal := b.principal) == b
  }

  /**
   * `u` grows `t`: `t`'s keys come first in the same order, every node of
   * `t` keeps its id, counters and times, a principal once present stays,
   * and every node that is new has no connections and no bytes.
   */
  ghost predicate Extends(t: NodeTable, u: NodeTable)
  {
    && |t.order| <= |u.order| && u.order[..|t.order|] == t.order
    && (forall k :: k in t.nodes ==> k in u.nodes && SameStats(t.nodes[k], u.nodes[k]))
    && (forall k :: k in t.nodes && t.nodes[k].principal.Some? ==> u.nodes[k].principal == t.nodes[k].principal)
    && (forall k :: k in u.nodes && k !in t.nodes ==> u.nodes[k].connections == 0 && u.nodes[k].bytesTransferred == 0)
  }

  lemma AddAuditExtends(t: NodeTable, a: AuditRow)
    requires TableValid(t)
    ensures Extends(t, AddAudit(t, a)) && TableValid(AddAudit(t, a))
  {
  }

  lemma ExtendsTransitive(t: NodeTable, u: NodeTable, v: NodeTable)
    requires Extends(t, u) && Extends(u, v)
    ensures Extends(t, v)
  {
    assert v.order[..|t.order|] == v.order[..|u.order|][..|t.order|];
  }

  lemma {:induction false} AuditNodesExtends(t: NodeTable, audits: seq<AuditRow>)
    requires TableValid(t)
    ensures Extends(t, AuditNodes(t, audits)) && TableValid(AuditNodes(t, audits))
  {
    if audits != [] {
      var p := audits[..|audits| - 1];
      AuditNodesExtends(t, p);
      AddAuditExtends(AuditNodes(t, p), audits[|audits| - 1]);
      ExtendsTransitive(t, AuditNodes(t, p), AuditNodes(t, audits));
    }
  }

  // ---------------------------------------------------------------- edges

  /** One entry of `edge_logs`: protocol, bytes and packets are fixed defaults. */
  datatype EdgeLog = EdgeLog(time: string, sourcePort: string, destPort: string, protocol: string,
                             action: string, bytes: int, packets: int, logSource: string)

  function LogOf(r: FlowRow): EdgeLog
  {
    EdgeLog(r.time, r.srcPort, r.dstPort, "TCP", r.action, ASSUMED_BYTES, 1, "VCN Flow Logs")
  }

  /**
   * The edge of a row, standing for the key `f"{src}->{dst}"`; its
   * `split('->')` gives the pair back when the key Splits.
   */
  function PairOf(r: FlowRow): (string, string)
  {
    (r.src, r.dst)
  }

  /** The logs stored under one edge key, in row order. */
  function EdgeLogsOf(rows: seq<FlowRow>, k: (string, string)): seq<EdgeLog>
  {
    MapSeq(GroupOf(Filter(rows, HasBoth), PairOf, k), LogOf)
  }

  datatype Edge = Edge(id: string, source: string, target: string, weight: int, bytes: int, packets: int,
                       protocols: set<string>, actions: set<string>, logs: seq<EdgeLog>)

  function LogBytes(l: EdgeLog): int { l.bytes }
  function LogPackets(l: EdgeLog): int { l.packets }

  /** The edge built from one `edge_logs` entry. */
  function EdgeOf(k: (string, string), logs: seq<EdgeLog>): Edge
  {
    Edge(k.0 + "->" + k.1, k.0, k.1, |logs|, SumInt(logs, LogBytes), SumInt(logs, LogPackets),
         set l | l in logs && l.protocol != "" :: l.protocol,
         set l | l in logs && l.action != "" :: l.action,
         logs)
  }

  /** The edges of the keys `keys`, in key order. */
  function EdgesFor(rows: seq<FlowRow>, keys: seq<(string, string)>): (r: seq<Edge>)
    ensures |r| == |keys|
  {
    if keys == [] then []
    else EdgesFor(rows, keys[..|keys| - 1]) + [EdgeOf(keys[|keys| - 1], EdgeLogsOf(rows, keys[|keys| - 1]))]
  }

  lemma {:induction false} EdgesForAt(rows: seq<FlowRow>, keys: seq<(string, string)>)
    ensures forall i :: 0 <= i < |keys| ==> EdgesFor(rows, keys)[i] == EdgeOf(keys[i], EdgeLogsOf(rows, keys[i]))
  {
    if keys != [] {
      var p := keys[..|keys| - 1];
      EdgesForAt(rows, p);
      assert forall i :: 0 <= i < |p| ==> p[i] == keys[i];
    }
  }

  /** The edge list before any limit: one per distinct `src->dst`, in first-seen order. */
  function AllEdges(rows: seq<FlowRow>): seq<Edge>
  {
    EdgesFor(rows, KeysOf(Filter(rows, HasBoth), PairOf))
  }

  /**
   * Whether `src_ip, dst_ip = edge_key.split('->')` succeeds. Every "->"
   * inside an address adds one more part, and none can straddle the joint
   * (the joint's own `-` cannot end an address's "->" and no "->" starts
   * with `>`), so the unpacking raises exactly when an address holds "->".
   */
  predicate Splits(k: (string, string))
  {
    !Contains(k.0, "->") && !Contains(k.1, "->")
  }

  /** Every key of `keys` splits. */
  predicate AllSplit(keys: seq<(string, string)>)
  {
    forall j :: 0 <= j < |keys| ==> Splits(keys[j])
  }

  /** Some row with both addresses gives an edge key that does not split. */
  predicate SplitRaises(rows: seq<FlowRow>)
  {
    exists i :: 0 <= i < |rows| && HasBoth(rows[i]) && !Splits(PairOf(rows[i]))
  }

  /** A key of `edge_logs` fails to split exactly when some row's key does. */
  lemma KeysSplit(rows: seq<FlowRow>)
    ensures AllSplit(KeysOf(Filter(rows, HasBoth), PairOf)) <==> !SplitRaises(rows)
  {
    var both := Filter(rows, HasBoth);
    var keys := KeysOf(both, PairOf);
    if j :| 0 <= j < |keys| && !Splits(keys[j]) {
      KeysOfMember(both, PairOf, keys[j]);
      var i :| 0 <= i < |both| && PairOf(both[i]) == keys[j];
      FilterMember(rows, HasBoth, both[i]);
      var m :| 0 <= m < |rows| && rows[m] == both[i];
      assert HasBoth(rows[m]) && !Splits(PairOf(rows[m]));
    }
    if m :| 0 <= m < |rows| && HasBoth(rows[m]) && !Splits(PairOf(rows[m])) {
      FilterMember(rows, HasBoth, rows[m]);
      var i :| 0 <= i < |both| && both[i] == rows[m];
      KeysOfMember(both, PairOf, PairOf(rows[m]));
      var j :| 0 <= j < |keys| && keys[j] == PairOf(rows[m]);
      assert !Splits(keys[j]);
    }
  }

  /** What every edge satisfies. */
  ghost predicate EdgeFacts(rows: seq<FlowRow>, e: Edge)
  {
    && e.id == e.source + "->" + e.target
    && e.weight >= 1
    && e.weight == |GroupOf(Filter(rows, HasBoth), PairOf, (e.source, e.target))|
    && e.bytes == ASSUMED_BYTES * e.weight && e.packets == e.weight
    && e.protocols == {"TCP"}
    && Degree(rows, e.source) > 0 && Degree(rows, e.target) > 0
  }

  lemma {:induction false} DegreeOfRow(rows: seq<FlowRow>, i: int, ip: string)
    requires 0 <= i < |rows| && Touches(rows[i], ip) > 0
    ensures Degree(rows, ip) > 0
  {
    var p := rows[..|rows| - 1];
    if i < |p| {
      assert p[i] == rows[i];
      DegreeOfRow(p, i, ip);
    }
  }

  lemma EdgeOfFacts(rows: seq<FlowRow>, k: (string, string))
    requires k in KeysOf(Filter(rows, HasBoth), PairOf)
    ensures EdgeFacts(rows, EdgeOf(k, EdgeLogsOf(rows, k)))
  {
    EdgeOfMeasures(rows, k);
    EdgeOfEnds(rows, k);
  }

  lemma EdgeOfMeasures(rows: seq<FlowRow>, k: (string, string))
    requires k in KeysOf(Filter(rows, HasBoth), PairOf)
    ensures var e := EdgeOf(k, EdgeLogsOf(rows, k));
            && (e.source, e.target) == k
            && e.id == e.source + "->" + e.target
            && e.weight >= 1
            && e.weight == |GroupOf(Filter(rows, HasBoth), PairOf, k)|
            && e.bytes == ASSUMED_BYTES * e.weight && e.packets == e.weight
            && e.protocols == {"TCP"}
  {
    var v := Filter(rows, HasBoth);
    var g := GroupOf(v, PairOf, k);
    var logs := EdgeLogsOf(rows, k);
    GroupOfNonEmpty(v, PairOf, k);
    MapSeqPointwise(g, LogOf);
    SumIntConstant(logs, LogBytes, ASSUMED_BYTES);
    SumIntConstant(logs, LogPackets, 1);
    assert logs[0] in logs;
    assert (set l | l in logs && l.protocol != "" :: l.protocol) == {"TCP"};
  }

  lemma EdgeOfEnds(rows: seq<FlowRow>, k: (string, string))
    requires k in KeysOf(Filter(rows, HasBoth), PairOf)
    ensures Degree(rows, k.0) > 0 && Degree(rows, k.1) > 0
  {
    var i := RowOfPair(rows, k);
    DegreeOfRow(rows, i, k.0);
    DegreeOfRow(rows, i, k.1);
  }

  /** An edge key is the pair of some row with both addresses. */
  lemma RowOfPair(rows: seq<FlowRow>, k: (string, string)) returns (i: int)
    requires k in KeysOf(Filter(rows, HasBoth), PairOf)
    ensures 0 <= i < |rows| && HasBoth(rows[i]) && PairOf(rows[i]) == k
  {
    var v := Filter(rows, HasBoth);
    var g := GroupOf(v, PairOf, k);
    GroupOfNonEmpty(v, PairOf, k);
    GroupOfWithin(v, PairOf, k, g[0]);
    FilterMember(rows, HasBoth, g[0]);
    i :| 0 <= i < |rows| && rows[i] == g[0];
  }

  /**
   * One edge per distinct `src->dst` pair, in first-seen order: its weight
   * is the number of rows of the pair, its bytes 1024 per row, its packets
   * one per row, and both its ends are addresses with a node.
   */
  lemma AllEdgesFacts(rows: seq<FlowRow>)
    ensures var keys := KeysOf(Filter(rows, HasBoth), PairOf);
            && |AllEdges(rows)| == |keys|
            && forall i :: 0 <= i < |keys| ==>
                 (AllEdges(rows)[i].source, AllEdges(rows)[i].target) == keys[i] && EdgeFacts(rows, AllEdges(rows)[i])
  {
    var keys := KeysOf(Filter(rows, HasBoth), PairOf);
    EdgesForAt(rows, keys);
    forall i | 0 <= i < |keys|
      ensures EdgeFacts(rows, AllEdges(rows)[i])
    {
      EdgeOfFacts(rows, keys[i]);
    }
  }

  // ---------------------------------------------------------------- limits and statistics

  /** `list(nodes.values())`: the entries in key insertion order. */
  function ValuesIn(order: seq<string>, nodes: map<string, GraphNode>): (r: seq<GraphNode>)
    ensures |r| <= |order|
  {
    if order == [] then []
    else
      var k := order[|order| - 1];
      ValuesIn(order[..|order| - 1], nodes) + (if k in nodes then [nodes[k]] else [])
  }

  lemma {:induction false} ValuesInAt(order: seq<string>, nodes: map<string, GraphNode>)
    requires forall k :: k in order ==> k in nodes
    ensures |ValuesIn(order, nodes)| == |order|
    ensures forall i :: 0 <= i < |order| ==> ValuesIn(order, nodes)[i] == nodes[order[i]]
  {
    if order != [] {
      var p := order[..|order| - 1];
      assert forall k :: k in p ==> k in order;
      ValuesInAt(p, nodes);
      assert forall i :: 0 <= i < |p| ==> p[i] == order[i];
    }
  }

  function ConnRank(n: GraphNode): Rank { ByReal(n.connections as real) }
  function WeightRank(e: Edge): Rank { ByReal(e.weight as real) }
  function NodeConnections(n: GraphNode): int { n.connections }
  function NodeBytes(n: GraphNode): int { n.bytesTransferred }

  function IdsOf(ns: seq<GraphNode>): set<string>
  {
    set n | n in ns :: n.id
  }

  /** Both ends among `ids`: the edges kept after the node cut. */
  function BetweenNodes(ids: set<string>): Edge -> bool
  {
    (e: Edge) => e.source in ids && e.target in ids
  }

  /**
   * The two cuts: above `maxNodes` nodes, keep the `maxNodes` with most
   * connections and the edges between them; then, above `maxEdges`
   * edges, keep the `maxEdges` heaviest. Both sorts are stable and
   * descending, and a negative limit slices from the end as Python does.
   */
  function NodeCut(ns: seq<GraphNode>, maxNodes: int): seq<GraphNode>
  {
    if |ns| > maxNodes then Take(SortDesc(ns, ConnRank), maxNodes) else ns
  }

  function EdgeCut(es: seq<Edge>, maxEdges: int): seq<Edge>
  {
    if |es| > maxEdges then Take(SortDesc(es, WeightRank), maxEdges) else es
  }

  function Limited(ns: seq<GraphNode>, es: seq<Edge>, maxNodes: int, maxEdges: int): (seq<GraphNode>, seq<Edge>)
  {
    var kept := NodeCut(ns, maxNodes);
    var es1 := if |ns| > maxNodes then Filter(es, BetweenNodes(IdsOf(kept))) else es;
    (kept, EdgeCut(es1, maxEdges))
  }

  datatype GraphStats = GraphStats(nodeCount: int, edgeCount: int, totalConnections: int, totalBytes: int, timeRange: string)

  /** The successful result of `extract_network_graph`. */
  datatype NetworkGraph = NetworkGraph(nodes: seq<GraphNode>, edges: seq<Edge>, statistics: GraphStats)

  /**
   * What `extract_network_graph` answers: the graph, or the `success: False`
   * result of its except when an edge key does not split.
   */
  datatype GraphOutcome = Built(graph: NetworkGraph) | SplitFailed

  function GraphOf(minutes: int, ns: seq<GraphNode>, es: seq<Edge>): NetworkGraph
  {
    NetworkGraph(ns, es, GraphStats(|ns|, |es|, SumInt(ns, NodeConnections), SumInt(ns, NodeBytes),
                                    IntToString(minutes) + " minutes"))
  }

  /** The node table after both passes. */
  function AllNodes(flows: seq<FlowRow>, audits: seq<AuditRow>): NodeTable
  {
    AuditNodes(FlowNodes(flows), audits)
  }

  /** The graph built from the flow rows and the audit rows. */
  function ExtractedGraph(minutes: int, flows: seq<FlowRow>, audits: seq<AuditRow>, maxNodes: int, maxEdges: int): NetworkGraph
  {
    var t := AllNodes(flows, audits);
    var (ns, es) := Limited(ValuesIn(t.order, t.nodes), AllEdges(flows), maxNodes, maxEdges);
    GraphOf(minutes, ns, es)
  }

  predicate Balanced(n: GraphNode)
  {
    n.bytesTransferred == ASSUMED_BYTES * n.connections
  }

  /**
   * Every node of the full table keeps 1024 bytes per connection, and
   * every address at the end of an edge has a node.
   */
  lemma AllNodesFacts(flows: seq<FlowRow>, audits: seq<AuditRow>)
    ensures TableValid(AllNodes(flows, audits))
    ensures forall k :: k in AllNodes(flows, audits).nodes ==> Balanced(AllNodes(flows, audits).nodes[k])
    ensures forall k :: Degree(flows, k) > 0 ==> k in AllNodes(flows, audits).nodes
  {
    var f := FlowNodes(flows);
    FlowNodesValid(flows);
    AuditNodesExtends(f, audits);
    forall k | k in AllNodes(flows, audits).nodes ensures Balanced(AllNodes(flows, audits).nodes[k]) {
      FlowNodeAt(flows, k);
    }
    forall k | Degree(flows, k) > 0 ensures k in AllNodes(flows, audits).nodes {
      FlowNodeAt(flows, k);
    }
  }

  lemma FullListFacts(flows: seq<FlowRow>, audits: seq<AuditRow>)
    ensures var t := AllNodes(flows, audits);
            var ns := ValuesIn(t.order, t.nodes);
            && (forall i :: 0 <= i < |ns| ==> Balanced(ns[i]))
            && (forall e :: e in AllEdges(flows) ==> e.source in IdsOf(ns) && e.target in IdsOf(ns))
  {
    var t := AllNodes(flows, audits);
    AllNodesFacts(flows, audits);
    ValuesInAt(t.order, t.nodes);
    var ns := ValuesIn(t.order, t.nodes);
    AllEdgesFacts(flows);
    forall e | e in AllEdges(flows) ensures e.source in IdsOf(ns) && e.target in IdsOf(ns) {
      var i :| 0 <= i < |AllEdges(flows)| && AllEdges(flows)[i] == e;
      assert EdgeFacts(flows, e);
      NodeListed(t, e.source);
      NodeListed(t, e.target);
    }
  }

  lemma NodeListed(t: NodeTable, k: string)
    requires TableValid(t) && k in t.nodes
    ensures k in IdsOf(ValuesIn(t.order, t.nodes))
  {
    ValuesInAt(t.order, t.nodes);
    var i :| 0 <= i < |t.order| && t.order[i] == k;
    assert ValuesIn(t.order, t.nodes)[i] in ValuesIn(t.order, t.nodes);
  }

  lemma {:induction false} SumOfBalanced(ns: seq<GraphNode>)
    requires forall n :: n in ns ==> Balanced(n)
    ensures SumInt(ns, NodeBytes) == ASSUMED_BYTES * SumInt(ns, NodeConnections)
  {
    assert forall i :: 0 <= i < |ns| ==> ns[i] in ns;
    SumIntScaled(ns, NodeConnections, NodeBytes, ASSUMED_BYTES);
  }

  /**
   * The node cut keeps at most `maxNodes` nodes (exactly that many when
   * it cuts), drawn from the input; once it cuts, the result is ordered by
   * connections and no node left out has more connections than one kept.
   */
  lemma NodeCutProperties(ns: seq<GraphNode>, maxNodes: int)
    ensures var r := NodeCut(ns, maxNodes);
            && (maxNodes >= 0 ==> |r| <= maxNodes)
            && (maxNodes >= 0 && |ns| > maxNodes ==> |r| == maxNodes)
            && (forall n :: n in r ==> n in ns)
            && (|ns| > maxNodes ==>
                  SortedDesc(r, ConnRank)
                  && forall m, n :: n in r && m in ns && m !in r ==> m.connections <= n.connections)
            && (|ns| <= maxNodes ==> r == ns)
  {
    if |ns| > maxNodes {
      var r := Take(SortDesc(ns, ConnRank), maxNodes);
      TopOfSorted(ns, ConnRank, maxNodes);
      forall m, n | n in r && m in ns && m !in r ensures m.connections <= n.connections {
        assert !Above(ConnRank(m), ConnRank(n));
      }
    }
  }

  /** The edge cut: at most `maxEdges`, drawn from the input, the heaviest ones. */
  lemma EdgeCutProperties(es: seq<Edge>, maxEdges: int)
    ensures var r := EdgeCut(es, maxEdges);
            && (maxEdges >= 0 ==> |r| <= maxEdges)
            && (forall e :: e in r ==> e in es)
            && (forall e, f :: e in r && f in es && f !in r ==> f.weight <= e.weight)
            && (|es| <= maxEdges ==> r == es)
  {
    if |es| > maxEdges {
      var r := Take(SortDesc(es, WeightRank), maxEdges);
      TopOfSorted(es, WeightRank, maxEdges);
      forall e, f | e in r && f in es && f !in r ensures f.weight <= e.weight {
        assert !Above(WeightRank(f), WeightRank(e));
      }
    }
  }

  /**
   * Both cuts together keep the graph closed: every edge returned joins
   * two kept nodes, and no edge left out between kept nodes is heavier
   * than one kept. Within both limits the inputs come back unchanged.
   */
  lemma LimitedProperties(ns: seq<GraphNode>, es: seq<Edge>, maxNodes: int, maxEdges: int)
    requires forall e :: e in es ==> e.source in IdsOf(ns) && e.target in IdsOf(ns)
    ensures var (kept, edges) := Limited(ns, es, maxNodes, maxEdges);
            && kept == NodeCut(ns, maxNodes)
            && (maxEdges >= 0 ==> |edges| <= maxEdges)
            && (forall e :: e in edges ==> e in es && BetweenNodes(IdsOf(kept))(e))
            && (forall e, f :: e in edges && f in es && f !in edges && BetweenNodes(IdsOf(kept))(f) ==> f.weight <= e.weight)
            && (|ns| <= maxNodes && |es| <= maxEdges ==> kept == ns && edges == es)
  {
    var kept := NodeCut(ns, maxNodes);
    var es1 := if |ns| > maxNodes then Filter(es, BetweenNodes(IdsOf(kept))) else es;
    forall e | e in es1 ensures e in es && BetweenNodes(IdsOf(kept))(e) {
      if |ns| > maxNodes {
        FilterMember(es, BetweenNodes(IdsOf(kept)), e);
      }
    }
    forall f | f in es && BetweenNodes(IdsOf(kept))(f) ensures f in es1 {
      if |ns| > maxNodes {
        FilterMember(es, BetweenNodes(IdsOf(kept)), f);
      }
    }
    EdgeCutProperties(es1, maxEdges);
  }

  /**
   * The extracted graph: the cuts of LimitedProperties applied to the
   * full node list and edge list, statistics that count what is returned,
   * and `totalBytes` equal to 1024 times `totalConnections`.
   */
  lemma ExtractedGraphProperties(minutes: int, flows: seq<FlowRow>, audits: seq<AuditRow>, maxNodes: int, maxEdges: int)
    ensures var g := ExtractedGraph(minutes, flows, audits, maxNodes, maxEdges);
            var t := AllNodes(flows, audits);
            var all := ValuesIn(t.order, t.nodes);
            && (g.nodes, g.edges) == Limited(all, AllEdges(flows), maxNodes, maxEdges)
            && (forall e :: e in AllEdges(flows) ==> e.source in IdsOf(all) && e.target in IdsOf(all))
            && (forall e :: e in g.edges ==> e.source in IdsOf(g.nodes) && e.target in IdsOf(g.nodes))
            && g.statistics.nodeCount == |g.nodes| && g.statistics.edgeCount == |g.edges|
            && g.statistics.totalBytes == ASSUMED_BYTES * g.statistics.totalConnections
            && g.statistics.timeRange == IntToString(minutes) + " minutes"
  {
    var t := AllNodes(flows, audits);
    var all := ValuesIn(t.order, t.nodes);
    FullListFacts(flows, audits);
    LimitedProperties(all, AllEdges(flows), maxNodes, maxEdges);
    NodeCutProperties(all, maxNodes);
    SumOfBalanced(NodeCut(all, maxNodes));
  }

  // ---------------------------------------------------------------- extract_network_graph

  /** `edge_logs` after the rows `rows`: its keys in first-seen order and its lists. */
  ghost predicate LogsFor(rows: seq<FlowRow>, keys: seq<(string, string)>, logs: map<(string, string), seq<EdgeLog>>)
  {
    && keys == KeysOf(Filter(rows, HasBoth), PairOf)
    && (forall k :: k in logs <==> k in keys)
    && forall k :: k in logs ==> logs[k] == EdgeLogsOf(rows, k)
  }

  /** The node updates of the flow loop for one row. */
  method AddFlowRow(order: seq<string>, nodes: map<string, GraphNode>, r: FlowRow)
    returns (order': seq<string>, nodes': map<string, GraphNode>)
    ensures NodeTable(order', nodes') == AddFlow(NodeTable(order, nodes), r)
  {
    order', nodes' := order, nodes;
    if r.src != "" && r.dst != "" {
      if r.src !in nodes' {
        order' := order' + [r.src];
        nodes' := nodes'[r.src := NewNode(r.src, r.time, None)];
      }
      if r.dst !in nodes' {
        order' := order' + [r.dst];
        nodes' := nodes'[r.dst := NewNode(r.dst, r.time, None)];
      }
      var s := nodes'[r.src];
      nodes' := nodes'[r.src := s.(connections := s.connections + 1, bytesTransferred := s.bytesTransferred + ASSUMED_BYTES)];
      var d := nodes'[r.dst];
      nodes' := nodes'[r.dst := d.(connections := d.connections + 1, bytesTransferred := d.bytesTransferred + ASSUMED_BYTES)];
    }
  }

  lemma EdgeLogsSnoc(done: seq<FlowRow>, r: FlowRow, k: (string, string))
    ensures EdgeLogsOf(done + [r], k)
         == if HasBoth(r) && PairOf(r) == k then EdgeLogsOf(done, k) + [LogOf(r)] else EdgeLogsOf(done, k)
  {
    var v := Filter(done, HasBoth);
    FilterSnoc(done, r, HasBoth);
    if HasBoth(r) {
      GroupOfSnoc(v, r, PairOf, k);
      if PairOf(r) == k {
        MapSeqSnoc(GroupOf(v, PairOf, k), r, LogOf);
      }
    }
  }

  lemma EdgeKeysSnoc(done: seq<FlowRow>, r: FlowRow)
    ensures KeysOf(Filter(done + [r], HasBoth), PairOf)
         == if HasBoth(r) && PairOf(r) !in KeysOf(Filter(done, HasBoth), PairOf)
            then KeysOf(Filter(done, HasBoth), PairOf) + [PairOf(r)]
            else KeysOf(Filter(done, HasBoth), PairOf)
  {
    FilterSnoc(done, r, HasBoth);
    if HasBoth(r) {
      KeysOfSnoc(Filter(done, HasBoth), r, PairOf);
    }
  }

  /** `edge_logs[f"{src}->{dst}"].append(...)` for one row. */
  method AppendEdgeLog(keys: seq<(string, string)>, logs: map<(string, string), seq<EdgeLog>>,
                       ghost done: seq<FlowRow>, r: FlowRow)
    returns (keys': seq<(string, string)>, logs': map<(string, string), seq<EdgeLog>>)
    requires LogsFor(done, keys, logs)
    ensures LogsFor(done + [r], keys', logs')
  {
    keys', logs' := keys, logs;
    EdgeKeysSnoc(done, r);
    if r.src != "" && r.dst != "" {
      var k := (r.src, r.dst);
      if k !in logs {
        GroupOfAbsent(Filter(done, HasBoth), PairOf, k);
        keys' := keys + [k];
      }
      var current := if k in logs then logs[k] else [];
      assert current == EdgeLogsOf(done, k);
      logs' := logs[k := current + [LogOf(r)]];
      forall k' | k' in logs'
        ensures logs'[k'] == EdgeLogsOf(done + [r], k')
      {
        EdgeLogsSnoc(done, r, k');
      }
    } else {
      forall k' | k' in logs
        ensures logs[k'] == EdgeLogsOf(done + [r], k')
      {
        EdgeLogsSnoc(done, r, k');
      }
    }
  }

  /** The body of the audit loop for one row. */
  method AddAuditRow(order: seq<string>, nodes: map<string, GraphNode>, a: AuditRow)
    returns (order': seq<string>, nodes': map<string, GraphNode>)
    ensures NodeTable(order', nodes') == AddAudit(NodeTable(order, nodes), a)
  {
    order', nodes' := order, nodes;
    if a.ip != "" {
      if a.ip !in nodes {
        order' := order + [a.ip];
        nodes' := nodes[a.ip := NewNode(a.ip, a.time, Some(a.principal))];
      } else if a.principal != "" && nodes[a.ip].principal.None? {
        nodes' := nodes[a.ip := nodes[a.ip].(principal := Some(a.principal))];
      }
    }
  }

  /** The loop over the flow rows: the node table and `edge_logs`. */
  method FlowPass(flows: seq<FlowRow>)
    returns (order: seq<string>, nodes: map<string, GraphNode>,
             keys: seq<(string, string)>, logs: map<(string, string), seq<EdgeLog>>)
    ensures NodeTable(order, nodes) == FlowNodes(flows) && LogsFor(flows, keys, logs)
  {
    order, nodes, keys, logs := [], map[], [], map[];
    for i := 0 to |flows|
      invariant NodeTable(order, nodes) == FlowNodes(flows[..i])
      invariant LogsFor(flows[..i], keys, logs)
    {
      PrefixSnoc(flows, i);
      order, nodes := AddFlowRow(order, nodes, flows[i]);
      keys, logs := AppendEdgeLog(keys, logs, flows[..i], flows[i]);
    }
    PrefixWhole(flows);
  }

  /** The loop over the audit rows. */
  method AuditPass(order: seq<string>, nodes: map<string, GraphNode>, audits: seq<AuditRow>)
    returns (order': seq<string>, nodes': map<string, GraphNode>)
    ensures NodeTable(order', nodes') == AuditNodes(NodeTable(order, nodes), audits)
  {
    order', nodes' := order, nodes;
    for i := 0 to |audits|
      invariant NodeTable(order', nodes') == AuditNodes(NodeTable(order, nodes), audits[..i])
    {
      PrefixSnoc(audits, i);
      order', nodes' := AddAuditRow(order', nodes', audits[i]);
    }
    PrefixWhole(audits);
  }

  /**
   * The loop over `edge_logs.items()`. It stops with None at the first key
   * whose `split('->')` raises.
   */
  method EdgePass(ghost flows: seq<FlowRow>, keys: seq<(string, string)>, logs: map<(string, string), seq<EdgeLog>>)
    returns (edges: Option<seq<Edge>>)
    requires LogsFor(flows, keys, logs)
    ensures edges.None? <==> !AllSplit(keys)
    ensures edges.Some? ==> edges.value == AllEdges(flows)
  {
    var built := [];
    for j := 0 to |keys|
      invariant built == EdgesFor(flows, keys[..j])
      invariant AllSplit(keys[..j])
    {
      if !Splits(keys[j]) {
        return None;
      }
      PrefixSnoc(keys, j);
      built := built + [EdgeOf(keys[j], logs[keys[j]])];
    }
    PrefixWhole(keys);
    edges := Some(built);
  }

  /** `list(nodes.values())`. */
  method NodeValues(order: seq<string>, nodes: map<string, GraphNode>) returns (r: seq<GraphNode>)
    ensures r == ValuesIn(order, nodes)
  {
    r := [];
    for j := 0 to |order|
      invariant r == ValuesIn(order[..j], nodes)
    {
      PrefixSnoc(order, j);
      if order[j] in nodes {
        r := r + [nodes[order[j]]];
      }
    }
    PrefixWhole(order);
  }

  /**
   * `extract_network_graph` on the rows the two queries returned: the flow
   * loop, the audit loop, the edge loop over `edge_logs`, then the cuts
   * and the statistics. It fails exactly when an edge key does not split;
   * otherwise its graph is ExtractedGraph, whose properties are
   * ExtractedGraphProperties.
   */
  method ExtractNetworkGraph(minutes: int, flows: seq<FlowRow>, audits: seq<AuditRow>, maxNodes: int, maxEdges: int)
    returns (g: GraphOutcome)
    ensures g.SplitFailed? <==> SplitRaises(flows)
    ensures g.Built? ==> g.graph == ExtractedGraph(minutes, flows, audits, maxNodes, maxEdges)
  {
    var order, nodes, keys, logs := FlowPass(flows);
    order, nodes := AuditPass(order, nodes, audits);
    var built := EdgePass(flows, keys, logs);
    KeysSplit(flows);
    if built.None? {
      return SplitFailed;
    }
    var edges := built.value;
    var nodesList := NodeValues(order, nodes);
    if |nodesList| > maxNodes {
      nodesList := Take(SortDesc(nodesList, ConnRank), maxNodes);
      edges := Filter(edges, BetweenNodes(IdsOf(nodesList)));
    }
    if |edges| > maxEdges {
      edges := Take(SortDesc(edges, WeightRank), maxEdges);
    }
    g := Built(GraphOf(minutes, nodesList, edges));
  }

  // ---------------------------------------------------------------- get_ip_logs

  /** `min(5000, max(100, minutes * 5))`: flow rows asked for one address. */
  function IpFlowRecordLimit(minutes: int): (r: int)
    ensures 100 <= r <= 5000
    ensures 20 <= minutes <= 1000 ==> r == minutes * 5
  {
    var scaled := if minutes * 5 > 100 then minutes * 5 else 100;
    if scaled < 5000 then scaled else 5000
  }

  /** `min(1000, max(50, minutes * 2))`: audit, load-balancer and WAF rows asked for one address. */
  function IpOtherRecordLimit(minutes: int): (r: int)
    ensures 50 <= r <= 1000
    ensures 25 <= minutes <= 500 ==> r == minutes * 2
  {
    var scaled := if minutes * 2 > 50 then minutes * 2 else 50;
    if scaled < 1000 then scaled else 1000
  }

  /** A flow row of the per-address query; `src` is None when the field is absent. */
  datatype IpFlowRow = IpFlowRow(time: string, src: Option<string>, dst: string, srcPort: string, dstPort: string, action: string)

  datatype IpAuditRow = IpAuditRow(time: string, eventName: string, principal: string, compartment: string)

  datatype LbRow = LbRow(time: string, clientIp: string, backendIp: string, url: string, httpMethod: string,
                         status: string, responseTime: string)

  datatype WafRow = WafRow(time: string, clientIp: string, xForwardedFor: string, url: string, httpMethod: string,
                           status: string, userAgent: string, action: string, ruleId: string, countryCode: string)

  /**
   * One entry of the per-address log list. A flow entry also carries the
   * constants of the code (protocol `TCP`, 1024 bytes, one packet,
   * direction `bidirectional`), left implicit here.
   */
  datatype IpLog =
    | FlowLog(flow: IpFlowRow, role: string)
    | AuditLog(audit: IpAuditRow)
    | LbLog(lb: LbRow)
    | WafLog(waf: WafRow)
  {
    function Time(): string
    {
      match this
      case FlowLog(f, _) => f.time
      case AuditLog(a) => a.time
      case LbLog(l) => l.time
      case WafLog(w) => w.time
    }

    function LogSource(): string
    {
      match this
      case FlowLog(_, _) => "VCN Flow Logs"
      case AuditLog(_) => "Audit Logs"
      case LbLog(_) => "Load Balancer Logs"
      case WafLog(_) => "WAF Logs"
    }

    function Kind(): string
    {
      match this
      case FlowLog(_, _) => "Network Flow"
      case AuditLog(_) => "Audit Event"
      case LbLog(_) => "HTTP Request"
      case WafLog(_) => "WAF Event"
    }
  }

  /**
   * `'Source' if log.get('Source IP') == ip_address else 'Destination'`: an
   * absent source field never equals the address, not even an empty one.
   */
  function FlowEntry(ip: string): IpFlowRow -> IpLog
  {
    (r: IpFlowRow) => FlowLog(r, if r.src == Some(ip) then "Source" else "Destination")
  }

  function AuditEntry(a: IpAuditRow): IpLog { AuditLog(a) }
  function LbEntry(l: LbRow): IpLog { LbLog(l) }
  function WafEntry(w: WafRow): IpLog { WafLog(w) }
  function LogTime(l: IpLog): string { l.Time() }

  datatype IpLogView = IpLogView(ip: string, totalLogs: int, logs: seq<IpLog>, logSources: set<string>)

  /** The four lists in query order, before the sort. */
  function CollectedLogs(ip: string, flows: seq<IpFlowRow>, audits: seq<IpAuditRow>, lbs: seq<LbRow>, wafs: seq<WafRow>): seq<IpLog>
  {
    MapSeq(flows, FlowEntry(ip)) + MapSeq(audits, AuditEntry) + MapSeq(lbs, LbEntry) + MapSeq(wafs, WafEntry)
  }

  /** The successful result of `get_ip_logs` on the rows the four queries returned. */
  function IpLogsOf(ip: string, flows: seq<IpFlowRow>, audits: seq<IpAuditRow>, lbs: seq<LbRow>, wafs: seq<WafRow>): IpLogView
  {
    var sorted := SortByTextDesc(CollectedLogs(ip, flows, audits, lbs, wafs), LogTime);
    IpLogView(ip, |sorted|, sorted, SourcesOf(sorted))
  }

  /**
   * Every row of every query appears once: the count is the total of the
   * four inputs and the entries are a permutation of them; the list runs
   * from the latest time to the earliest (as text), and entries with the
   * same time keep query order.
   */
  lemma IpLogsOrder(ip: string, flows: seq<IpFlowRow>, audits: seq<IpAuditRow>, lbs: seq<LbRow>, wafs: seq<WafRow>)
    ensures var v := IpLogsOf(ip, flows, audits, lbs, wafs);
            var all := CollectedLogs(ip, flows, audits, lbs, wafs);
            && v.ip == ip
            && v.totalLogs == |v.logs| == |flows| + |audits| + |lbs| + |wafs|
            && multiset(v.logs) == multiset(all)
            && SortedByTextDesc(v.logs, LogTime)
            && forall t :: KeyedAs(v.logs, LogTime, t) == KeyedAs(all, LogTime, t)
  {
    var all := CollectedLogs(ip, flows, audits, lbs, wafs);
    SortByTextSorted(all, LogTime);
    forall t ensures KeyedAs(SortByTextDesc(all, LogTime), LogTime, t) == KeyedAs(all, LogTime, t) {
      SortByTextStable(all, LogTime, t);
    }
  }

  /** Which entries come from which query, and the role of a flow entry. */
  lemma CollectedKinds(ip: string, flows: seq<IpFlowRow>, audits: seq<IpAuditRow>, lbs: seq<LbRow>, wafs: seq<WafRow>, l: IpLog)
    requires l in CollectedLogs(ip, flows, audits, lbs, wafs)
    ensures l.FlowLog? ==> l.flow in flows && (l.role == "Source" <==> l.flow.src == Some(ip))
    ensures l.AuditLog? ==> l.audit in audits
    ensures l.LbLog? ==> l.lb in lbs
    ensures l.WafLog? ==> l.waf in wafs
  {
    MapSeqMember(flows, FlowEntry(ip), l);
    MapSeqMember(audits, AuditEntry, l);
    MapSeqMember(lbs, LbEntry, l);
    MapSeqMember(wafs, WafEntry, l);
  }

  function SourcesOf(logs: seq<IpLog>): set<string>
  {
    set l | l in logs :: l.LogSource()
  }

  lemma SourcesOfConcat(a: seq<IpLog>, b: seq<IpLog>)
    ensures SourcesOf(a + b) == SourcesOf(a) + SourcesOf(b)
  {
  }

  /** Every entry of the flow query names the flow source; likewise for the other three. */
  lemma FlowSources(ip: string, flows: seq<IpFlowRow>)
    ensures SourcesOf(MapSeq(flows, FlowEntry(ip))) == if |flows| > 0 then {"VCN Flow Logs"} else {}
  {
    var logs := MapSeq(flows, FlowEntry(ip));
    MapSeqPointwise(flows, FlowEntry(ip));
    if |flows| > 0 {
      assert logs[0] in logs;
    }
  }

  lemma AuditSources(audits: seq<IpAuditRow>)
    ensures SourcesOf(MapSeq(audits, AuditEntry)) == if |audits| > 0 then {"Audit Logs"} else {}
  {
    var logs := MapSeq(audits, AuditEntry);
    MapSeqPointwise(audits, AuditEntry);
    if |audits| > 0 {
      assert logs[0] in logs;
    }
  }

  lemma LbSources(lbs: seq<LbRow>)
    ensures SourcesOf(MapSeq(lbs, LbEntry)) == if |lbs| > 0 then {"Load Balancer Logs"} else {}
  {
    var logs := MapSeq(lbs, LbEntry);
    MapSeqPointwise(lbs, LbEntry);
    if |lbs| > 0 {
      assert logs[0] in logs;
    }
  }

  lemma WafSources(wafs: seq<WafRow>)
    ensures SourcesOf(MapSeq(wafs, WafEntry)) == if |wafs| > 0 then {"WAF Logs"} else {}
  {
    var logs := MapSeq(wafs, WafEntry);
    MapSeqPointwise(wafs, WafEntry);
    if |wafs| > 0 {
      assert logs[0] in logs;
    }
  }

  lemma SortedSources(all: seq<IpLog>)
    ensures SourcesOf(SortByTextDesc(all, LogTime)) == SourcesOf(all)
  {
    var sorted := SortByTextDesc(all, LogTime);
    forall l ensures l in sorted <==> l in all {
      assert l in sorted <==> l in multiset(sorted);
    }
  }

  /** A source is listed exactly when its query returned rows, and no other source is. */
  lemma IpLogsSources(ip: string, flows: seq<IpFlowRow>, audits: seq<IpAuditRow>, lbs: seq<LbRow>, wafs: seq<WafRow>)
    ensures IpLogsOf(ip, flows, audits, lbs, wafs).logSources
         == (if |flows| > 0 then {"VCN Flow Logs"} else {})
          + (if |audits| > 0 then {"Audit Logs"} else {})
          + (if |lbs| > 0 then {"Load Balancer Logs"} else {})
          + (if |wafs| > 0 then {"WAF Logs"} else {})
  {
    SortedSources(CollectedLogs(ip, flows, audits, lbs, wafs));
    var fs, as_, ls, ws := MapSeq(flows, FlowEntry(ip)), MapSeq(audits, AuditEntry), MapSeq(lbs, LbEntry), MapSeq(wafs, WafEntry);
    FlowSources(ip, flows);
    AuditSources(audits);
    LbSources(lbs);
    WafSources(wafs);
    SourcesOfConcat(fs, as_);
    SourcesOfConcat(fs + as_, ls);
    SourcesOfConcat(fs + as_ + ls, ws);
  }

  /** A flow entry's role is `Source` exactly when its source field is the address. */
  lemma IpLogsRoles(ip: string, flows: seq<IpFlowRow>, audits: seq<IpAuditRow>, lbs: seq<LbRow>, wafs: seq<WafRow>)
    ensures forall l :: l in IpLogsOf(ip, flows, audits, lbs, wafs).logs && l.FlowLog? ==>
              l.flow in flows && (l.role == "Source" <==> l.flow.src == Some(ip))
  {
    var all := CollectedLogs(ip, flows, audits, lbs, wafs);
    forall l | l in SortByTextDesc(all, LogTime) && l.FlowLog?
      ensures l.flow in flows && (l.role == "Source" <==> l.flow.src == Some(ip))
    {
      assert l in multiset(SortByTextDesc(all, LogTime));
      CollectedKinds(ip, flows, audits, lbs, wafs, l);
    }
  }

  /**
   * `get_ip_logs`: the four loops that append the entries of each query,
   * then the sort by time, newest first.
   */
  method GetIpLogs(ip: string, flows: seq<IpFlowRow>, audits: seq<IpAuditRow>, lbs: seq<LbRow>, wafs: seq<WafRow>)
    returns (v: IpLogView)
    ensures v == IpLogsOf(ip, flows, audits, lbs, wafs)
  {
    var fromFlows := MapInOrder(flows, FlowEntry(ip));
    var fromAudits := MapInOrder(audits, AuditEntry);
    var fromLbs := MapInOrder(lbs, LbEntry);
    var fromWafs := MapInOrder(wafs, WafEntry);
    var allLogs := fromFlows + fromAudits + fromLbs + fromWafs;
    allLogs := SortByTextDesc(allLogs, LogTime);
    v := IpLogView(ip, |allLogs|, allLogs, SourcesOf(allLogs));
  }

  // ---------------------------------------------------------------- _safe_int

  /** The values `_safe_int` may be given. */
  datatype Scalar =
    | SInt(i: int)
    | SBool(b: bool)
    | SFloat(x: real)
    | SNonFinite   // inf or nan: `int()` raises
    | SStr(s: string)
    | SNone
    | SOther

  /** `int(x)` on a float: truncation toward zero. */
  function Truncate(x: real): (r: int)
    ensures x >= 0.0 ==> r as real <= x < r as real + 1.0
    ensures x < 0.0 ==> r as real - 1.0 < x <= r as real
  {
    if x >= 0.0 then x.Floor else -((-x).Floor)
  }

  /**
   * `_safe_int`: numbers (a bool is one, as 0 or 1) are converted, a
   * float truncated; a text for which `isdigit()` holds goes to `int()`;
   * everything else, and every conversion that raises (a superscript
   * digit passes `isdigit()` but not `int()`), gives 0.
   */
  function SafeInt(v: Scalar): (r: int)
    ensures v.SInt? ==> r == v.i
    ensures v.SBool? ==> r == if v.b then 1 else 0
    ensures v.SFloat? ==> r == Truncate(v.x)
    ensures v.SFloat? && v.x >= 0.0 ==> r as real <= v.x < r as real + 1.0
    ensures v.SFloat? && v.x < 0.0 ==> r as real - 1.0 < v.x <= r as real
    ensures v.SStr? && !IsDigitLikes(v.s) ==> r == 0
    ensures v.SStr? && IsDigits(v.s) ==> r == DigitsValue(v.s)
    ensures v.SStr? ==> r >= 0
    ensures v.SNonFinite? || v.SNone? || v.SOther? ==> r == 0
  {
    match v
    case SInt(i) => i
    case SBool(b) => if b then 1 else 0
    case SFloat(x) => Truncate(x)
    case SNonFinite => 0
    case SStr(s) =>
      if IsDigitLikes(s) then
        DigitTextRead(s);
        match ParseInt(s)
        case Some(n) => n
        case None => 0
      else 0
    case SNone => 0
    case SOther => 0
  }

  /** What `int()` makes of a text `isdigit()` accepts: nothing negative, and the usual value of ASCII digits. */
  lemma DigitTextRead(s: string)
    requires IsDigitLikes(s)
    ensures ParseInt(s).Some? ==> ParseInt(s).value >= 0
    ensures IsDigits(s) ==> ParseInt(s) == Some(DigitsValue(s))
  {
    assert '-' !in s by {
      assert !IsDigitLike('-');
    }
    ParseIntUnsigned(s);
    if IsDigits(s) {
      ParseIntOfDigits(s);
    }
  }

  /** Digits written by `str(n)` are read back; a sign is not a digit, so `"-5"` gives 0. */
  lemma SafeIntText(n: nat)
    ensures SafeInt(SStr(NatToString(n))) == n
    ensures SafeInt(SStr("-" + NatToString(n))) == 0
  {
    DigitsValueOfNatToString(n);
    assert !IsDigitLike(("-" + NatToString(n))[0]);
  }

  /** A superscript two passes `isdigit()`, `int()` rejects it, and the raise is caught as 0. */
  lemma SafeIntSuperscript()
    ensures SafeInt(SStr("²")) == 0
  {
    SuperscriptTwo();
    ParseIntOfSuperscript();
  }
}
