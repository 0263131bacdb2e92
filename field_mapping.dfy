/**
 * The log-to-graph field mapper (scripts/field_mapping.py): a log record,
 * a dictionary of field values, becomes at most one node per node type and
 * a list of relationships between those nodes, driven by fixed mapping
 * tables; plus the IP, port, user, process and host classifiers the
 * tables apply as transforms.
 */
module FieldMapping {
  import opened Common
  import Ipv4

  // ---------------------------------------------------------------- values

  /** A node property: what a transform returns. */
  datatype Prop =
    | PStr(s: string)
    | PInt(n: int)
    | PBool(b: bool)
    | PTime(seconds: real)   // `datetime.fromtimestamp(seconds).isoformat()`, kept abstract

  /** `str(v)` of a property value used in a node id. */
  function Display(p: Prop): string
  {
    match p
    case PStr(s) => s
    case PInt(n) => IntToString(n)
    case PBool(b) => if b then "True" else "False"
    case PTime(_) => ""   // never a primary-key value
  }

  // ---------------------------------------------------------------- classifiers

  /** `ipaddress.ip_address` of a field value; IPv4 only. */
  function AddressOf(v: Value): Option<Ipv4.Address>
  {
    match v
    case VStr(s) => Ipv4.Parse(s)
    case VInt(n) =>
      if 0 <= n < 0x1_0000_0000 then
        Some(Ipv4.Address(n / 0x100_0000, n / 0x1_0000 % 0x100, n / 0x100 % 0x100, n % 0x100))
      else None
    case VNone => None
  }

  /** `_normalize_ip`: the canonical dotted quad, or the value itself when it does not parse. */
  function NormalizeIp(v: Value): (r: Prop)
    ensures AddressOf(v).Some? ==> r == PStr(Ipv4.Format(AddressOf(v).value))
    ensures AddressOf(v).None? && v.VStr? ==> r == PStr(v.s)
  {
    match AddressOf(v)
    case Some(x) => PStr(Ipv4.Format(x))
    case None => match v
      case VStr(s) => PStr(s)
      case VInt(n) => PInt(n)
      case VNone => PStr("")
  }

  /** `_get_ip_type`: loopback is tested before private, private before multicast. */
  function IpType(v: Value): (r: string)
    ensures r in {"loopback", "private", "multicast", "public", "unknown"}
    ensures r == "unknown" <==> AddressOf(v).None?
    ensures r == "private" ==> Ipv4.IsPrivate(AddressOf(v).value) && !Ipv4.IsLoopback(AddressOf(v).value)
  {
    match AddressOf(v)
    case None => "unknown"
    case Some(x) =>
      if Ipv4.IsLoopback(x) then "loopback"
      else if Ipv4.IsPrivate(x) then "private"
      else if Ipv4.IsMulticast(x) then "multicast"
      else "public"
  }

  /**
   * Every loopback address is also private, so the loopback test must come
   * first: 127.x.y.z is typed `loopback`, never `private`.
   */
  lemma LoopbackTypedFirst(x: Ipv4.Address)
    requires Ipv4.ValidAddress(x)
    ensures x.a == 127 ==> Ipv4.IsPrivate(x)
    ensures IpType(VStr(Ipv4.Format(x))) == "loopback" <==> x.a == 127
  {
    Ipv4.ParseFormat(x);
  }

  const STANDARD_PORTS: set<int> := {80, 443, 22, 21, 25, 53, 110, 143, 993, 995, 3389, 5900}

  /** `_is_standard_port` on the raw field value: the text "80" is not in the set. */
  predicate IsStandardPort(v: Value)
  {
    v.VInt? && v.n in STANDARD_PORTS
  }

  const PORT_SERVICES: map<int, string> := map[
    80 := "HTTP", 443 := "HTTPS", 22 := "SSH", 21 := "FTP",
    25 := "SMTP", 53 := "DNS", 110 := "POP3", 143 := "IMAP",
    993 := "IMAPS", 995 := "POP3S", 3389 := "RDP", 5900 := "VNC",
    23 := "Telnet", 135 := "RPC", 139 := "NetBIOS", 445 := "SMB"]

  /** `_get_service_name`: the mapped name, or `Port-{value}`. */
  function ServiceName(v: Value): (r: string)
    ensures v.VInt? && v.n in PORT_SERVICES ==> r == PORT_SERVICES[v.n]
    ensures !(v.VInt? && v.n in PORT_SERVICES) ==> r == "Port-" + RawText(v)
  {
    if v.VInt? && v.n in PORT_SERVICES then PORT_SERVICES[v.n] else "Port-" + RawText(v)
  }

  /** The text before the first line break: what `.*` can reach in `re.match`. */
  function FirstLine(s: string): (r: string)
    ensures '\n' !in r && StartsWith(s, r)
    ensures '\n' !in s ==> r == s
  {
    if s == [] || s[0] == '\n' then "" else [s[0]] + FirstLine(s[1..])
  }

  /** `$` in `re.match`: the end of the text, or just before a final line break. */
  predicate AtEnd(s: string, body: string -> bool)
  {
    body(s) || (|s| > 0 && s[|s| - 1] == '\n' && body(s[..|s| - 1]))
  }

  predicate ServiceNameChars(s: string)
  {
    |s| > 0 && forall i :: 0 <= i < |s| ==> IsDigit(s[i]) || s[i] == '_' || s[i] == '-' || 'A' <= s[i] <= 'Z'
  }

  /** `_is_service_account`: one of six patterns on the lower-cased name. */
  predicate IsServiceAccount(name: string)
  {
    var line := FirstLine(Lower(name));
    || Contains(line, "service") || Contains(line, "svc") || Contains(line, "app") || Contains(line, "system")
    || AtEnd(Lower(name), ServiceNameChars)
    || Contains(line, "$")
  }

  const PRIVILEGED_USERS: set<string> := {"root", "admin", "administrator", "sa", "oracle", "postgres", "mysql"}

  predicate IsPrivilegedUser(name: string)
  {
    Lower(name) in PRIVILEGED_USERS
  }

  /** The privileged-user test ignores case. */
  lemma PrivilegedIgnoresCase(name: string)
    ensures IsPrivilegedUser(Upper(name)) == IsPrivilegedUser(name)
    ensures IsPrivilegedUser("ROOT") && IsPrivilegedUser("Administrator")
  {
    LowerOfUpper(name);
    assert Lower("ROOT") == "root";
    assert Lower("Administrator") == "administrator";
  }

  const SUSPICIOUS_PROCESSES: set<string> := {
    "powershell.exe", "cmd.exe", "bash", "sh", "nc.exe", "netcat",
    "psexec.exe", "wmic.exe", "regsvr32.exe", "rundll32.exe",
    "certutil.exe", "bitsadmin.exe", "wscript.exe", "cscript.exe"}

  predicate IsSuspiciousProcess(name: string)
  {
    Lower(name) in SUSPICIOUS_PROCESSES
  }

  /** `_detect_os_type`: the first matching keyword list wins. */
  function DetectOsType(hostname: string): (r: string)
    ensures r in {"windows", "linux", "macos", "unknown"}
    ensures r == "windows" <==> ContainsAny(Lower(hostname), ["win", "dc", "srv", "wks"])
  {
    var h := Lower(hostname);
    if ContainsAny(h, ["win", "dc", "srv", "wks"]) then "windows"
    else if ContainsAny(h, ["linux", "ubuntu", "centos", "rhel"]) then "linux"
    else if ContainsAny(h, ["mac", "osx", "darwin"]) then "macos"
    else "unknown"
  }

  predicate DomainChar(c: char)
  {
    'A' <= c <= 'Z' || IsDigit(c) || c == '-'
  }

  /** `u[..k]` is a run of `[A-Z0-9\-]` and `u[k..]` a run of `\d` (any Unicode decimal digit), both non-empty. */
  predicate DomainSplit(u: string, k: int)
  {
    1 <= k < |u| && (forall i :: 0 <= i < k ==> DomainChar(u[i])) && (forall i :: k <= i < |u| ==> IsDecimal(u[i]))
  }

  /** `[A-Z0-9\-]+\d+` over the whole text. */
  predicate DomainPattern(u: string)
  {
    exists k :: 1 <= k < |u| && DomainSplit(u, k)
  }

  /** `_is_domain_joined`: `re.match(r'^[A-Z0-9\-]+\d+$', hostname.upper())`. */
  predicate IsDomainJoined(hostname: string)
  {
    AtEnd(Upper(hostname), DomainPattern)
  }

  /**
   * The pattern needs at least two characters, the first an upper-case
   * ASCII letter, digit or '-', the last a decimal digit and each one of
   * the two kinds; any such text whose characters before the last are all
   * of the first kind matches. On text below U+0660, where the only
   * decimal digits are ASCII ones, this is an exact description.
   */
  lemma DomainPatternShape(u: string)
    ensures DomainPattern(u) ==>
              && |u| >= 2 && DomainChar(u[0]) && IsDecimal(u[|u| - 1])
              && forall i :: 0 <= i < |u| ==> DomainChar(u[i]) || IsDecimal(u[i])
    ensures |u| >= 2 && (forall i :: 0 <= i < |u| - 1 ==> DomainChar(u[i])) && IsDecimal(u[|u| - 1]) ==> DomainPattern(u)
    ensures (forall i :: 0 <= i < |u| ==> u[i] as int < 0x660) ==>
              (DomainPattern(u) <==> |u| >= 2 && (forall i :: 0 <= i < |u| ==> DomainChar(u[i])) && IsDigit(u[|u| - 1]))
  {
    if |u| >= 2 && (forall i :: 0 <= i < |u| - 1 ==> DomainChar(u[i])) && IsDecimal(u[|u| - 1]) {
      assert DomainSplit(u, |u| - 1);
    }
    if |u| >= 2 && (forall i :: 0 <= i < |u| ==> DomainChar(u[i])) && IsDigit(u[|u| - 1]) {
      assert DomainSplit(u, |u| - 1);
    }
  }

  /** `s.replace('Z', '+00:00')`. */
  function ReplaceZ(s: string): (r: string)
    ensures 'Z' !in r
    ensures 'Z' !in s ==> r == s
  {
    if s == [] then ""
    else (if s[0] == 'Z' then "+00:00" else [s[0]]) + ReplaceZ(s[1..])
  }

  // ---------------------------------------------------------------- transforms

  datatype Transform =
    | NormalizeIpT | IsInternalIpT | IpTypeT | ToInt | ToStr
    | IsStandardPortT | ServiceNameT | IsServiceAccountT | IsPrivilegedUserT
    | IsSuspiciousProcessT | DetectOsTypeT | IsDomainJoinedT | ParseTimestampT

  /** A transform applied to a field value; None when the transform raises. */
  function Apply(t: Transform, v: Value): (r: Option<Prop>)
    ensures t == ToInt && v.VStr? ==> r == (if ParseInt(v.s).Some? then Some(PInt(ParseInt(v.s).value)) else None)
    ensures t == ParseTimestampT && v.VInt? ==> (r.Some? <==> InEpochRange(EpochSeconds(v.n)))
    ensures t == NormalizeIpT || t == IsInternalIpT || t == IpTypeT || t == IsStandardPortT || t == ServiceNameT ==> r.Some?
  {
    match t
    case NormalizeIpT => Some(NormalizeIp(v))
    case IsInternalIpT =>
      Some(PBool(AddressOf(v).Some? && (Ipv4.IsPrivate(AddressOf(v).value) || Ipv4.IsLoopback(AddressOf(v).value))))
    case IpTypeT => Some(PStr(IpType(v)))
    case ToInt =>
      (match v
       case VInt(n) => Some(PInt(n))
       case VStr(s) => if ParseInt(s).Some? then Some(PInt(ParseInt(s).value)) else None
       case VNone => None)
    case ToStr => Some(PStr(RawText(v)))
    case IsStandardPortT => Some(PBool(IsStandardPort(v)))
    case ServiceNameT => Some(PStr(ServiceName(v)))
    case IsServiceAccountT => if v.VStr? then Some(PBool(IsServiceAccount(v.s))) else None
    case IsPrivilegedUserT => if v.VStr? then Some(PBool(IsPrivilegedUser(v.s))) else None
    case IsSuspiciousProcessT => if v.VStr? then Some(PBool(IsSuspiciousProcess(v.s))) else None
    case DetectOsTypeT => if v.VStr? then Some(PStr(DetectOsType(v.s))) else None
    case IsDomainJoinedT => if v.VStr? then Some(PBool(IsDomainJoined(v.s))) else None
    case ParseTimestampT =>
      (match v
       case VInt(n) => if InEpochRange(EpochSeconds(n)) then Some(PTime(EpochSeconds(n))) else None
       case VStr(s) => Some(PStr(ReplaceZ(s)))
       case VNone => None)
  }

  // ---------------------------------------------------------------- mapping tables

  datatype Mapping = Mapping(field: string, nodeType: string, property: string, transform: Transform, isPrimaryKey: bool)

  function M(field: string, nodeType: string, property: string, transform: Transform): Mapping
  {
    Mapping(field, nodeType, property, transform, false)
  }

  function Key(field: string, nodeType: string, property: string, transform: Transform): Mapping
  {
    Mapping(field, nodeType, property, transform, true)
  }

  const VCN_FLOW_MAPPINGS: seq<Mapping> := [
    Key("Source IP", "IP", "address", NormalizeIpT),
    Key("Destination IP", "IP", "address", NormalizeIpT),
    M("Source IP", "IP", "is_internal", IsInternalIpT),
    M("Destination IP", "IP", "is_internal", IsInternalIpT),
    M("Source IP", "IP", "ip_type", IpTypeT),
    M("Destination IP", "IP", "ip_type", IpTypeT),
    Key("Source Port", "Port", "number", ToInt),
    Key("Destination Port", "Port", "number", ToInt),
    M("Source Port", "Port", "is_standard", IsStandardPortT),
    M("Destination Port", "Port", "is_standard", IsStandardPortT),
    M("Source Port", "Port", "service_name", ServiceNameT),
    M("Destination Port", "Port", "service_name", ServiceNameT),
    Key("Protocol", "Protocol", "name", ToStr),
    Key("Action", "Action", "name", ToStr),
    M("Bytes", "FlowSession", "bytes_transferred", ToInt),
    M("Packets", "FlowSession", "packets_count", ToInt),
    M("Time", "FlowSession", "timestamp", ParseTimestampT)]

  const AUDIT_MAPPINGS: seq<Mapping> := [
    Key("Principal Name", "User", "name", ToStr),
    Key("User Name", "User", "name", ToStr),
    M("Principal Name", "User", "is_service_account", IsServiceAccountT),
    M("User Name", "User", "is_service_account", IsServiceAccountT),
    M("Principal Type", "User", "account_type", ToStr),
    Key("Event Name", "Event", "name", ToStr),
    M("Event Type", "Event", "type", ToStr),
    M("Event Source", "Event", "source", ToStr),
    Key("Source IP", "IP", "address", NormalizeIpT),
    Key("Client IP", "IP", "address", NormalizeIpT),
    M("Source IP", "IP", "is_internal", IsInternalIpT),
    M("Client IP", "IP", "is_internal", IsInternalIpT),
    Key("Resource Name", "Resource", "name", ToStr),
    M("Resource Type", "Resource", "type", ToStr),
    Key("Compartment Name", "Compartment", "name", ToStr),
    M("Compartment ID", "Compartment", "ocid", ToStr)]

  const SECURITY_MAPPINGS: seq<Mapping> := [
    Key("User Name", "User", "name", ToStr),
    Key("Target User", "User", "name", ToStr),
    M("User Name", "User", "is_privileged", IsPrivilegedUserT),
    Key("Process Name", "Process", "name", ToStr),
    M("Process ID", "Process", "pid", ToInt),
    M("Process Path", "Process", "path", ToStr),
    M("Command Line", "Process", "command_line", ToStr),
    M("Process Name", "Process", "is_suspicious", IsSuspiciousProcessT),
    Key("Computer Name", "Host", "name", ToStr),
    Key("Hostname", "Host", "name", ToStr),
    M("Computer Name", "Host", "os_type", DetectOsTypeT),
    M("Computer Name", "Host", "is_domain_joined", IsDomainJoinedT),
    Key("Event ID", "SecurityEvent", "event_id", ToInt),
    M("Event Name", "SecurityEvent", "name", ToStr),
    M("Event Category", "SecurityEvent", "category", ToStr),
    M("Severity", "SecurityEvent", "severity", ToStr),
    Key("Source IP", "IP", "address", NormalizeIpT),
    Key("Target IP", "IP", "address", NormalizeIpT),
    Key("Source Port", "Port", "number", ToInt),
    Key("Target Port", "Port", "number", ToInt)]

  /** The `field_mappings` table, by log type. */
  function MappingsFor(logType: string): Option<seq<Mapping>>
  {
    if logType == "vcn_flow" then Some(VCN_FLOW_MAPPINGS)
    else if logType == "audit" then Some(AUDIT_MAPPINGS)
    else if logType == "security" then Some(SECURITY_MAPPINGS)
    else None
  }

  /**
   * The `node_id_patterns` table. Each pattern has a single placeholder, and
   * every primary-key mapping of a type fills exactly that placeholder, so a
   * node id is the pattern's prefix followed by the key value.
   */
  function IdPrefix(nodeType: string): string
  {
    match nodeType
    case "IP" => "ip:"
    case "Port" => "port:"
    case "User" => "user:"
    case "Process" => "process:"
    case "Host" => "host:"
    case "Resource" => "resource:"
    case "Compartment" => "compartment:"
    case "Event" => "event:"
    case "SecurityEvent" => "security_event:"
    case "Protocol" => "protocol:"
    case "Action" => "action:"
    case _ => Lower(nodeType) + ":"
  }

  function NodeId(nodeType: string, key: Prop): string
  {
    IdPrefix(nodeType) + Display(key)
  }

  // ---------------------------------------------------------------- nodes

  datatype Node = Node(id: string, nodeType: string, properties: map<string, Prop>)

  /** A mapping's transformed value, or None when the field is absent, null, '' or the transform raises. */
  function Applied(record: Record, m: Mapping): Option<Prop>
  {
    if m.field in record && record[m.field] != VNone && record[m.field] != VStr("") then
      Apply(m.transform, record[m.field])
    else None
  }

  /** Position of the node of type `t` (the `nodes` dict lookup). */
  function IndexOfType(nodes: seq<Node>, t: string): (r: Option<nat>)
    ensures r.Some? ==> r.value < |nodes| && nodes[r.value].nodeType == t
    ensures r.Some? ==> forall j :: 0 <= j < r.value ==> nodes[j].nodeType != t
    ensures r.None? ==> forall j :: 0 <= j < |nodes| ==> nodes[j].nodeType != t
  {
    if nodes == [] then None
    else if nodes[0].nodeType == t then Some(0)
    else match IndexOfType(nodes[1..], t)
      case Some(i) => Some(i + 1)
      case None => None
  }

  /** One iteration of the loop of `map_log_record_to_nodes`. */
  function NodeStep(nodes: seq<Node>, record: Record, m: Mapping): seq<Node>
  {
    match Applied(record, m)
    case None => nodes
    case Some(v) =>
      var created := if m.isPrimaryKey && IndexOfType(nodes, m.nodeType).None?
                     then nodes + [Node(NodeId(m.nodeType, v), m.nodeType, map[])] else nodes;
      match IndexOfType(created, m.nodeType)
      case Some(i) => created[i := created[i].(properties := created[i].properties[m.property := v])]
      case None => created
  }

  function MappedNodes(record: Record, ms: seq<Mapping>): seq<Node>
  {
    if ms == [] then [] else NodeStep(MappedNodes(record, ms[..|ms| - 1]), record, ms[|ms| - 1])
  }

  /** What `map_log_record_to_nodes` returns. */
  function NodesFor(record: Record, logType: string): seq<Node>
  {
    match MappingsFor(logType)
    case Some(ms) => MappedNodes(record, ms)
    case None => []
  }

  /** The loop of `map_log_record_to_nodes` over the mappings of one log type. */
  method MapNodes(record: Record, ms: seq<Mapping>) returns (nodes: seq<Node>)
    ensures nodes == MappedNodes(record, ms)
  {
    nodes := [];
    for i := 0 to |ms|
      invariant nodes == MappedNodes(record, ms[..i])
    {
      assert ms[..i + 1][..i] == ms[..i];
      var m := ms[i];
      if m.field in record && record[m.field] != VNone && record[m.field] != VStr("") {
        var transformed := Apply(m.transform, record[m.field]);
        if transformed.Some? {
          var v := transformed.value;
          if m.isPrimaryKey && IndexOfType(nodes, m.nodeType).None? {
            nodes := nodes + [Node(NodeId(m.nodeType, v), m.nodeType, map[])];
          }
          var at := IndexOfType(nodes, m.nodeType);
          if at.Some? {
            var n := nodes[at.value];
            nodes := nodes[at.value := n.(properties := n.properties[m.property := v])];
          }
        }
      }
    }
    assert ms[..|ms|] == ms;
  }

  method MapLogRecordToNodes(record: Record, logType: string) returns (nodes: seq<Node>)
    ensures nodes == NodesFor(record, logType)
  {
    var found := MappingsFor(logType);
    if found.None? {
      return [];
    }
    nodes := MapNodes(record, found.value);
  }

  /** An unknown log type yields no nodes. */
  lemma UnknownLogTypeNoNodes(record: Record, logType: string)
    requires logType !in {"vcn_flow", "audit", "security"}
    ensures NodesFor(record, logType) == []
  {
  }

  /**
   * The primary-key value that creates the node of type `t`: that of the
   * first primary-key mapping for `t` whose field yields a value.
   */
  ghost function Creator(record: Record, ms: seq<Mapping>, t: string): Option<Prop>
  {
    if ms == [] then None
    else
      var earlier := Creator(record, ms[..|ms| - 1], t);
      var m := ms[|ms| - 1];
      if earlier.Some? then earlier
      else if m.isPrimaryKey && m.nodeType == t && Applied(record, m).Some? then Applied(record, m)
      else None
  }

  /**
   * The value property `p` of the node of type `t` ends with: that of the
   * last mapping for (`t`, `p`) that yields a value once the node exists.
   */
  ghost function LastWrite(record: Record, ms: seq<Mapping>, t: string, p: string): Option<Prop>
  {
    if ms == [] then None
    else
      var m := ms[|ms| - 1];
      if m.nodeType == t && m.property == p && Applied(record, m).Some? && Creator(record, ms, t).Some?
      then Applied(record, m)
      else LastWrite(record, ms[..|ms| - 1], t, p)
  }

  /** A step keeps the existing nodes' ids and types, and appends at most one node. */
  lemma NodeStepShape(nodes: seq<Node>, record: Record, m: Mapping)
    ensures var r := NodeStep(nodes, record, m);
            && |nodes| <= |r| <= |nodes| + 1
            && (forall i :: 0 <= i < |nodes| ==> r[i].id == nodes[i].id && r[i].nodeType == nodes[i].nodeType)
            && (|r| == |nodes| + 1 ==>
                  && m.isPrimaryKey && Applied(record, m).Some? && IndexOfType(nodes, m.nodeType).None?
                  && r[|nodes|].nodeType == m.nodeType && r[|nodes|].id == NodeId(m.nodeType, Applied(record, m).value))
  {
  }

  /** How a step moves the position of the node of type `t`. */
  lemma IndexOfTypeStep(nodes: seq<Node>, record: Record, m: Mapping, t: string)
    ensures var r := NodeStep(nodes, record, m);
            && (IndexOfType(nodes, t).Some? ==> IndexOfType(r, t) == IndexOfType(nodes, t))
            && (IndexOfType(nodes, t).None? ==>
                  if m.isPrimaryKey && m.nodeType == t && Applied(record, m).Some?
                  then IndexOfType(r, t) == Some(|nodes|)
                  else IndexOfType(r, t).None?)
  {
    NodeStepShape(nodes, record, m);
    var r := NodeStep(nodes, record, m);
    var idx := IndexOfType(nodes, t);
    if idx.Some? {
      assert r[idx.value].nodeType == t;
      assert forall j :: 0 <= j < idx.value ==> r[j].nodeType != t;
      IndexOfTypeFirst(r, t, idx.value);
    } else if m.isPrimaryKey && m.nodeType == t && Applied(record, m).Some? {
      assert forall j :: 0 <= j < |nodes| ==> r[j].nodeType != t;
      IndexOfTypeFirst(r, t, |nodes|);
    } else {
      assert forall j :: 0 <= j < |r| ==> r[j].nodeType != t;
    }
  }

  lemma IndexOfTypeFirst(nodes: seq<Node>, t: string, i: nat)
    requires i < |nodes| && nodes[i].nodeType == t
    requires forall j :: 0 <= j < i ==> nodes[j].nodeType != t
    ensures IndexOfType(nodes, t) == Some(i)
  {
  }

  /** At most one node per node type. */
  predicate DistinctTypes(nodes: seq<Node>)
  {
    forall i, j :: 0 <= i < j < |nodes| ==> nodes[i].nodeType != nodes[j].nodeType
  }

  /** The node types of a mapped record are distinct. */
  lemma {:induction false} NodeTypesDistinct(record: Record, ms: seq<Mapping>)
    ensures DistinctTypes(MappedNodes(record, ms))
  {
    if ms != [] {
      var init := ms[..|ms| - 1];
      var m := ms[|ms| - 1];
      var before := MappedNodes(record, init);
      NodeTypesDistinct(record, init);
      NodeStepShape(before, record, m);
      var r := NodeStep(before, record, m);
      assert MappedNodes(record, ms) == r;
      forall i, j | 0 <= i < j < |r|
        ensures r[i].nodeType != r[j].nodeType
      {
        if j == |before| {
          assert before[i].nodeType != m.nodeType;
        } else {
          assert before[i].nodeType != before[j].nodeType;
        }
      }
    }
  }

  /** How a step changes the properties of the node of type `t`. */
  lemma NodeStepProperties(nodes: seq<Node>, record: Record, m: Mapping, t: string)
    requires IndexOfType(NodeStep(nodes, record, m), t).Some?
    ensures var r := NodeStep(nodes, record, m);
            var base := if IndexOfType(nodes, t).Some? then nodes[IndexOfType(nodes, t).value].properties else map[];
            r[IndexOfType(r, t).value].properties ==
              if m.nodeType == t && Applied(record, m).Some? then base[m.property := Applied(record, m).value] else base
  {
    IndexOfTypeStep(nodes, record, m, t);
  }

  /** Nothing is written to a node before it is created. */
  lemma {:induction false} NoWriteBeforeCreation(record: Record, ms: seq<Mapping>, t: string, p: string)
    requires Creator(record, ms, t).None?
    ensures LastWrite(record, ms, t, p).None?
  {
    if ms != [] {
      NoWriteBeforeCreation(record, ms[..|ms| - 1], t, p);
    }
  }

  /**
   * The node of type `t` exists exactly when some primary-key mapping for
   * `t` yields a value, and its id is built from the first such value.
   */
  lemma {:induction false} NodeCreation(record: Record, ms: seq<Mapping>, t: string)
    ensures var idx := IndexOfType(MappedNodes(record, ms), t);
            && (idx.Some? <==> Creator(record, ms, t).Some?)
            && (idx.Some? ==> MappedNodes(record, ms)[idx.value].id == NodeId(t, Creator(record, ms, t).value))
  {
    if ms != [] {
      var init := ms[..|ms| - 1];
      var m := ms[|ms| - 1];
      NodeCreation(record, init, t);
      NodeStepShape(MappedNodes(record, init), record, m);
      IndexOfTypeStep(MappedNodes(record, init), record, m, t);
    }
  }

  /** Each property of the node of type `t` holds the last value written to it. */
  lemma {:induction false} NodeProperty(record: Record, ms: seq<Mapping>, t: string, p: string)
    requires IndexOfType(MappedNodes(record, ms), t).Some?
    ensures var n := MappedNodes(record, ms)[IndexOfType(MappedNodes(record, ms), t).value];
            && (p in n.properties <==> LastWrite(record, ms, t, p).Some?)
            && (p in n.properties ==> n.properties[p] == LastWrite(record, ms, t, p).value)
  {
    var init := ms[..|ms| - 1];
    var m := ms[|ms| - 1];
    var before := MappedNodes(record, init);
    IndexOfTypeStep(before, record, m, t);
    NodeStepProperties(before, record, m, t);
    NodeCreation(record, init, t);
    NodeCreation(record, ms, t);
    if IndexOfType(before, t).Some? {
      NodeProperty(record, init, t, p);
    } else {
      NoWriteBeforeCreation(record, init, t, p);
    }
  }

  /** Only a primary-key mapping whose field yields a value creates a node. */
  lemma {:induction false} CreatorSource(record: Record, ms: seq<Mapping>, t: string)
    ensures Creator(record, ms, t).Some? ==>
              exists i :: 0 <= i < |ms| && ms[i].isPrimaryKey && ms[i].nodeType == t
                          && Applied(record, ms[i]) == Creator(record, ms, t)
  {
    if ms != [] && Creator(record, ms[..|ms| - 1], t).Some? {
      CreatorSource(record, ms[..|ms| - 1], t);
      var i :| 0 <= i < |ms| - 1 && ms[..|ms| - 1][i].isPrimaryKey && ms[..|ms| - 1][i].nodeType == t
               && Applied(record, ms[..|ms| - 1][i]) == Creator(record, ms[..|ms| - 1], t);
      assert ms[i] == ms[..|ms| - 1][i];
    }
  }

  /** Once a prefix has created the node, later mappings do not change its key value. */
  lemma {:induction false} CreatorKept(record: Record, ms: seq<Mapping>, k: nat, t: string)
    requires k <= |ms| && Creator(record, ms[..k], t).Some?
    ensures Creator(record, ms, t) == Creator(record, ms[..k], t)
    decreases |ms| - k
  {
    if k < |ms| {
      var init := ms[..|ms| - 1];
      assert init[..k] == ms[..k];
      CreatorKept(record, init, k, t);
    } else {
      assert ms[..k] == ms;
    }
  }

  /** Mappings that do not target (`t`, `p`) leave its last written value alone. */
  lemma {:induction false} LastWriteKept(record: Record, ms: seq<Mapping>, k: nat, t: string, p: string)
    requires k <= |ms|
    requires forall i :: k <= i < |ms| ==> ms[i].nodeType != t || ms[i].property != p
    ensures LastWrite(record, ms, t, p) == LastWrite(record, ms[..k], t, p)
    decreases |ms| - k
  {
    if k < |ms| {
      var init := ms[..|ms| - 1];
      assert init[..k] == ms[..k];
      LastWriteKept(record, init, k, t, p);
    } else {
      assert ms[..k] == ms;
    }
  }

  /** A type with no primary-key mapping never gets a node. */
  lemma {:induction false} NoKeyNoNode(record: Record, ms: seq<Mapping>, t: string)
    requires forall i :: 0 <= i < |ms| ==> !ms[i].isPrimaryKey || ms[i].nodeType != t
    ensures IndexOfType(MappedNodes(record, ms), t).None?
  {
    NodeCreation(record, ms, t);
    CreatorSource(record, ms, t);
  }

  /** `FlowSession` has no primary-key mapping, so a VCN flow record never yields a flow-session node. */
  lemma NoFlowSessionNode(record: Record)
    ensures IndexOfType(NodesFor(record, "vcn_flow"), "FlowSession").None?
  {
    var ms := VCN_FLOW_MAPPINGS;
    forall i | 0 <= i < |ms|
      ensures !ms[i].isPrimaryKey || ms[i].nodeType != "FlowSession"
    {
    }
    NoKeyNoNode(record, ms, "FlowSession");
  }

  /**
   * A VCN flow record with both addresses yields one IP node whose id is
   * built from the source address while its `address` property ends up
   * holding the destination address: the second primary-key mapping only
   * overwrites the property.
   */
  lemma IpNodeKeyedBySource(record: Record, src: string, dst: string)
    requires "Source IP" in record && record["Source IP"] == VStr(src) && src != ""
    requires "Destination IP" in record && record["Destination IP"] == VStr(dst) && dst != ""
    ensures var nodes := NodesFor(record, "vcn_flow");
            var idx := IndexOfType(nodes, "IP");
            && idx.Some?
            && nodes[idx.value].id == "ip:" + Display(NormalizeIp(VStr(src)))
            && "address" in nodes[idx.value].properties
            && nodes[idx.value].properties["address"] == NormalizeIp(VStr(dst))
  {
    var ms := VCN_FLOW_MAPPINGS;
    FlowIpCreator(record, src);
    FlowIpAddress(record, src, dst);
    NodeCreation(record, ms, "IP");
    NodeProperty(record, ms, "IP", "address");
  }

  /** The flow mappings create the `IP` node from the source address. */
  lemma FlowIpCreator(record: Record, src: string)
    requires "Source IP" in record && record["Source IP"] == VStr(src) && src != ""
    ensures Creator(record, VCN_FLOW_MAPPINGS[..1], "IP") == Some(NormalizeIp(VStr(src)))
    ensures Creator(record, VCN_FLOW_MAPPINGS, "IP") == Some(NormalizeIp(VStr(src)))
  {
    var ms := VCN_FLOW_MAPPINGS;
    assert ms[..1][..0] == [];
    CreatorKept(record, ms, 1, "IP");
  }

  /** The last write to the `IP` node's address is the destination address. */
  lemma FlowIpAddress(record: Record, src: string, dst: string)
    requires "Source IP" in record && record["Source IP"] == VStr(src) && src != ""
    requires "Destination IP" in record && record["Destination IP"] == VStr(dst) && dst != ""
    ensures LastWrite(record, VCN_FLOW_MAPPINGS, "IP", "address") == Some(NormalizeIp(VStr(dst)))
  {
    assert VCN_FLOW_MAPPINGS[..2] == FLOW_IP_KEYS;
    FlowIpKeysAddress(record, src, dst);
    FlowIpAddressKept(record);
  }

  /** The two address mappings that open the VCN flow mappings. */
  const FLOW_IP_KEYS: seq<Mapping> := [Key("Source IP", "IP", "address", NormalizeIpT), Key("Destination IP", "IP", "address", NormalizeIpT)]

  /** Of the two address mappings, the first creates the node and the second writes the address. */
  lemma FlowIpKeysAddress(record: Record, src: string, dst: string)
    requires "Source IP" in record && record["Source IP"] == VStr(src) && src != ""
    requires "Destination IP" in record && record["Destination IP"] == VStr(dst) && dst != ""
    ensures LastWrite(record, FLOW_IP_KEYS, "IP", "address") == Some(NormalizeIp(VStr(dst)))
  {
    var ms := FLOW_IP_KEYS;
    assert ms[..1][..0] == [];
    assert Creator(record, ms[..1], "IP").Some?;
    CreatorKept(record, ms, 1, "IP");
  }

  /** No flow mapping after the second writes the `IP` node's address. */
  lemma FlowIpAddressKept(record: Record)
    ensures LastWrite(record, VCN_FLOW_MAPPINGS, "IP", "address") == LastWrite(record, VCN_FLOW_MAPPINGS[..2], "IP", "address")
  {
    LastWriteKept(record, VCN_FLOW_MAPPINGS, 2, "IP", "address");
  }

  // ---------------------------------------------------------------- relationships

  /** A relationship mapping; `properties` pairs a record field with a relationship property. */
  datatype RelMapping = RelMapping(sourceType: string, sourceField: string, targetType: string, targetField: string,
                                   relType: string, properties: seq<(string, string)>)

  datatype Relationship = Relationship(sourceId: string, targetId: string, relType: string, properties: map<string, Value>)

  const RELATIONSHIP_MAPPINGS: seq<RelMapping> := [
    RelMapping("IP", "Source IP", "IP", "Destination IP", "CONNECTS_TO",
               [("Action", "action"), ("Bytes", "bytes"), ("Packets", "packets"), ("Time", "timestamp")]),
    RelMapping("IP", "Source IP", "Port", "Source Port", "USES_PORT", [("Time", "timestamp")]),
    RelMapping("IP", "Destination IP", "Port", "Destination Port", "LISTENS_ON", [("Time", "timestamp")]),
    RelMapping("User", "Principal Name", "IP", "Source IP", "ACCESSES_FROM", [("Event Name", "event_name"), ("Time", "timestamp")]),
    RelMapping("User", "Principal Name", "Resource", "Resource Name", "ACCESSED", [("Event Name", "action"), ("Time", "timestamp")]),
    RelMapping("Resource", "Resource Name", "Compartment", "Compartment Name", "BELONGS_TO", [("Time", "timestamp")]),
    RelMapping("User", "User Name", "Process", "Process Name", "RUNS", [("Time", "timestamp")]),
    RelMapping("Process", "Process Name", "Host", "Computer Name", "RUNS_ON", [("Time", "timestamp")]),
    RelMapping("User", "User Name", "Host", "Computer Name", "LOGGED_INTO", [("Event Name", "event_type"), ("Time", "timestamp")]),
    RelMapping("User", "User Name", "IP", "Source IP", "CONNECTED_FROM", [("Time", "timestamp")])]

  /** The ids of the nodes of type `t`, in node order (one `node_map` entry). */
  function IdsOfType(nodes: seq<Node>, t: string): (r: seq<string>)
    ensures forall x :: x in r ==> exists i :: 0 <= i < |nodes| && nodes[i].nodeType == t && nodes[i].id == x
    ensures r == [] <==> forall i :: 0 <= i < |nodes| ==> nodes[i].nodeType != t
  {
    if nodes == [] then []
    else
      var last := nodes[|nodes| - 1];
      IdsOfType(nodes[..|nodes| - 1], t) + (if last.nodeType == t then [last.id] else [])
  }

  /** With one node per type, each type has at most one id. */
  lemma {:induction false} IdsOfDistinctTypes(nodes: seq<Node>, t: string)
    requires DistinctTypes(nodes)
    ensures |IdsOfType(nodes, t)| <= 1
  {
    if nodes != [] {
      var init := nodes[..|nodes| - 1];
      assert DistinctTypes(init);
      IdsOfDistinctTypes(init, t);
      if nodes[|nodes| - 1].nodeType == t {
        assert forall i :: 0 <= i < |init| ==> init[i].nodeType != t;
      }
    }
  }

  /** The relationship properties: each listed field present in the record, under its property name. */
  function RelProps(record: Record, pairs: seq<(string, string)>): (r: map<string, Value>)
    ensures forall k :: k in r <==> exists i :: 0 <= i < |pairs| && pairs[i].1 == k && pairs[i].0 in record
    ensures forall k :: k in r ==>
              exists i :: 0 <= i < |pairs| && pairs[i].1 == k && pairs[i].0 in record && r[k] == record[pairs[i].0]
  {
    if pairs == [] then map[]
    else
      var init := RelProps(record, pairs[..|pairs| - 1]);
      var last := pairs[|pairs| - 1];
      assert forall i :: 0 <= i < |pairs| - 1 ==> pairs[..|pairs| - 1][i] == pairs[i];
      if last.0 in record then init[last.1 := record[last.0]] else init
  }

  method BuildRelProps(record: Record, pairs: seq<(string, string)>) returns (props: map<string, Value>)
    ensures props == RelProps(record, pairs)
  {
    props := map[];
    for i := 0 to |pairs|
      invariant props == RelProps(record, pairs[..i])
    {
      assert pairs[..i + 1][..i] == pairs[..i];
      if pairs[i].0 in record {
        props := props[pairs[i].1 := record[pairs[i].0]];
      }
    }
    assert pairs[..|pairs|] == pairs;
  }

  /** One relationship from `sid` to each of `tids`. */
  function Row(sid: string, tids: seq<string>, relType: string, props: map<string, Value>): (r: seq<Relationship>)
    ensures |r| == |tids|
    ensures forall i :: 0 <= i < |r| ==> r[i] == Relationship(sid, tids[i], relType, props)
  {
    if tids == [] then [] else Row(sid, tids[..|tids| - 1], relType, props) + [Relationship(sid, tids[|tids| - 1], relType, props)]
  }

  /** One relationship for each pair of `sids` and `tids`, source-major. */
  function Cross(sids: seq<string>, tids: seq<string>, relType: string, props: map<string, Value>): (r: seq<Relationship>)
    ensures forall x :: x in r ==> x.sourceId in sids && x.targetId in tids && x.relType == relType && x.properties == props
  {
    if sids == [] then []
    else
      var init := Cross(sids[..|sids| - 1], tids, relType, props);
      var row := Row(sids[|sids| - 1], tids, relType, props);
      assert forall x :: x in init ==> x.sourceId in sids;
      assert forall x :: x in row ==> x.sourceId == sids[|sids| - 1] && x.targetId in tids;
      init + row
  }

  lemma {:induction false} CrossCount(sids: seq<string>, tids: seq<string>, relType: string, props: map<string, Value>)
    ensures |Cross(sids, tids, relType, props)| == |sids| * |tids|
  {
    if sids != [] {
      CrossCount(sids[..|sids| - 1], tids, relType, props);
      assert |sids| * |tids| == (|sids| - 1) * |tids| + |tids|;
    }
  }

  /** The relationships one mapping contributes. */
  function RelsOf(record: Record, nodes: seq<Node>, rm: RelMapping): seq<Relationship>
  {
    var sids, tids := IdsOfType(nodes, rm.sourceType), IdsOfType(nodes, rm.targetType);
    if sids != [] && tids != [] && rm.sourceField in record && rm.targetField in record
    then Cross(sids, tids, rm.relType, RelProps(record, rm.properties))
    else []
  }

  function RelationshipsFor(record: Record, nodes: seq<Node>, rms: seq<RelMapping>): seq<Relationship>
  {
    if rms == [] then [] else RelationshipsFor(record, nodes, rms[..|rms| - 1]) + RelsOf(record, nodes, rms[|rms| - 1])
  }

  /** `map_log_record_to_relationships`. */
  method MapLogRecordToRelationships(record: Record, nodes: seq<Node>) returns (rels: seq<Relationship>)
    ensures rels == RelationshipsFor(record, nodes, RELATIONSHIP_MAPPINGS)
  {
    var nodeMap: map<string, seq<string>> := map[];
    for i := 0 to |nodes|
      invariant forall t :: t in nodeMap ==> nodeMap[t] == IdsOfType(nodes[..i], t) && nodeMap[t] != []
      invariant forall t :: t !in nodeMap ==> IdsOfType(nodes[..i], t) == []
    {
      PrefixSnoc(nodes, i);
      nodeMap := AddNodeId(nodeMap, nodes[..i], nodes[i]);
    }
    PrefixWhole(nodes);
    rels := EmitRelationships(record, nodes, nodeMap, RELATIONSHIP_MAPPINGS);
  }

  /** One step of building `node_map`: the node's id joins the list of its type. */
  method AddNodeId(nodeMap: map<string, seq<string>>, ghost done: seq<Node>, n: Node) returns (m: map<string, seq<string>>)
    requires forall t :: t in nodeMap ==> nodeMap[t] == IdsOfType(done, t) && nodeMap[t] != []
    requires forall t :: t !in nodeMap ==> IdsOfType(done, t) == []
    ensures forall t :: t in m ==> m[t] == IdsOfType(done + [n], t) && m[t] != []
    ensures forall t :: t !in m ==> IdsOfType(done + [n], t) == []
  {
    assert (done + [n])[..|done|] == done;
    var ids := if n.nodeType in nodeMap then nodeMap[n.nodeType] else [];
    m := nodeMap[n.nodeType := ids + [n.id]];
  }

  /** The innermost loop: one relationship from `sid` to each target id. */
  method EmitRow(record: Record, sid: string, tids: seq<string>, rm: RelMapping) returns (row: seq<Relationship>)
    ensures row == Row(sid, tids, rm.relType, RelProps(record, rm.properties))
  {
    row := [];
    for b := 0 to |tids|
      invariant row == Row(sid, tids[..b], rm.relType, RelProps(record, rm.properties))
    {
      assert tids[..b + 1][..b] == tids[..b];
      var relProps := BuildRelProps(record, rm.properties);
      row := row + [Relationship(sid, tids[b], rm.relType, relProps)];
    }
    assert tids[..|tids|] == tids;
  }

  /** The two nested loops over source and target ids. */
  method EmitCross(record: Record, sids: seq<string>, tids: seq<string>, rm: RelMapping) returns (rels: seq<Relationship>)
    ensures rels == Cross(sids, tids, rm.relType, RelProps(record, rm.properties))
  {
    rels := [];
    for a := 0 to |sids|
      invariant rels == Cross(sids[..a], tids, rm.relType, RelProps(record, rm.properties))
    {
      assert sids[..a + 1][..a] == sids[..a];
      var row := EmitRow(record, sids[a], tids, rm);
      rels := rels + row;
    }
    assert sids[..|sids|] == sids;
  }

  /** The loop over the relationship mappings, given the `node_map`. */
  method EmitRelationships(record: Record, nodes: seq<Node>, nodeMap: map<string, seq<string>>, rms: seq<RelMapping>)
    returns (rels: seq<Relationship>)
    requires forall t :: t in nodeMap ==> nodeMap[t] == IdsOfType(nodes, t) && nodeMap[t] != []
    requires forall t :: t !in nodeMap ==> IdsOfType(nodes, t) == []
    ensures rels == RelationshipsFor(record, nodes, rms)
  {
    rels := [];
    for k := 0 to |rms|
      invariant rels == RelationshipsFor(record, nodes, rms[..k])
    {
      assert rms[..k + 1][..k] == rms[..k];
      var rm := rms[k];
      assert RelationshipsFor(record, nodes, rms[..k + 1]) == rels + RelsOf(record, nodes, rm);
      if rm.sourceType in nodeMap && rm.targetType in nodeMap && rm.sourceField in record && rm.targetField in record {
        assert nodeMap[rm.sourceType] == IdsOfType(nodes, rm.sourceType) != [];
        assert nodeMap[rm.targetType] == IdsOfType(nodes, rm.targetType) != [];
        var pairs := EmitCross(record, nodeMap[rm.sourceType], nodeMap[rm.targetType], rm);
        rels := rels + pairs;
      } else {
        assert rm.sourceType !in nodeMap ==> IdsOfType(nodes, rm.sourceType) == [];
        assert rm.targetType !in nodeMap ==> IdsOfType(nodes, rm.targetType) == [];
      }
    }
    assert rms[..|rms|] == rms;
  }

  /**
   * Every relationship comes from a mapping whose two node types exist and
   * whose two fields are in the record; it joins nodes of those types and
   * carries the properties of the fields present.
   */
  lemma {:induction false} RelationshipOrigin(record: Record, nodes: seq<Node>, rms: seq<RelMapping>)
    ensures forall r :: r in RelationshipsFor(record, nodes, rms) ==>
              exists k :: 0 <= k < |rms| && r.relType == rms[k].relType
                && r.sourceId in IdsOfType(nodes, rms[k].sourceType) && r.targetId in IdsOfType(nodes, rms[k].targetType)
                && rms[k].sourceField in record && rms[k].targetField in record
                && r.properties == RelProps(record, rms[k].properties)
  {
    if rms != [] {
      var init := rms[..|rms| - 1];
      RelationshipOrigin(record, nodes, init);
      forall r | r in RelationshipsFor(record, nodes, rms)
        ensures exists k ::
                  0 <= k < |rms| && r.relType == rms[k].relType
                  && r.sourceId in IdsOfType(nodes, rms[k].sourceType) && r.targetId in IdsOfType(nodes, rms[k].targetType)
                  && rms[k].sourceField in record && rms[k].targetField in record
                  && r.properties == RelProps(record, rms[k].properties)
      {
        if r in RelationshipsFor(record, nodes, init) {
          var k :| 0 <= k < |init| && r.relType == init[k].relType
                   && r.sourceId in IdsOfType(nodes, init[k].sourceType) && r.targetId in IdsOfType(nodes, init[k].targetType)
                   && init[k].sourceField in record && init[k].targetField in record
                   && r.properties == RelProps(record, init[k].properties);
          assert init[k] == rms[k];
        } else {
          assert r in RelsOf(record, nodes, rms[|rms| - 1]);
        }
      }
    }
  }

  /** A mapping whose node types and fields are present relates every source id to every target id. */
  lemma RelsOfCount(record: Record, nodes: seq<Node>, rm: RelMapping)
    ensures |RelsOf(record, nodes, rm)| ==
              if IdsOfType(nodes, rm.sourceType) != [] && IdsOfType(nodes, rm.targetType) != []
                 && rm.sourceField in record && rm.targetField in record
              then |IdsOfType(nodes, rm.sourceType)| * |IdsOfType(nodes, rm.targetType)|
              else 0
  {
    CrossCount(IdsOfType(nodes, rm.sourceType), IdsOfType(nodes, rm.targetType), rm.relType, RelProps(record, rm.properties));
  }

  /** With one node per type, a relationship type whose mappings join a type to itself is always a self-loop. */
  lemma SelfLoops(record: Record, nodes: seq<Node>, rms: seq<RelMapping>, relType: string)
    requires DistinctTypes(nodes)
    requires forall k :: 0 <= k < |rms| && rms[k].relType == relType ==> rms[k].sourceType == rms[k].targetType
    ensures forall r :: r in RelationshipsFor(record, nodes, rms) && r.relType == relType ==> r.sourceId == r.targetId
  {
    RelationshipOrigin(record, nodes, rms);
    forall r | r in RelationshipsFor(record, nodes, rms) && r.relType == relType
      ensures r.sourceId == r.targetId
    {
      var k :| 0 <= k < |rms| && r.relType == rms[k].relType
               && r.sourceId in IdsOfType(nodes, rms[k].sourceType) && r.targetId in IdsOfType(nodes, rms[k].targetType);
      IdsOfDistinctTypes(nodes, rms[k].sourceType);
    }
  }

  /**
   * A VCN flow record has a single IP node, so its `CONNECTS_TO`
   * relationship joins that node to itself.
   */
  lemma ConnectsToIsSelfLoop(record: Record)
    ensures var nodes := NodesFor(record, "vcn_flow");
            forall r :: r in RelationshipsFor(record, nodes, RELATIONSHIP_MAPPINGS) && r.relType == "CONNECTS_TO" ==>
              r.sourceId == r.targetId
  {
    var rms := RELATIONSHIP_MAPPINGS;
    forall k | 0 <= k < |rms| && rms[k].relType == "CONNECTS_TO"
      ensures rms[k].sourceType == rms[k].targetType
    {
    }
    NodeTypesDistinct(record, VCN_FLOW_MAPPINGS);
    SelfLoops(record, NodesFor(record, "vcn_flow"), rms, "CONNECTS_TO");
  }

  // ---------------------------------------------------------------- log type

  /** The fallback of `get_log_type_from_record`: the type the record's fields suggest, in a fixed order. */
  function FieldLogType(record: Record): (r: string)
    ensures r == "vcn_flow" <==> "Source IP" in record && "Destination IP" in record
    ensures r == "audit" <==>
              && !("Source IP" in record && "Destination IP" in record)
              && ("Principal Name" in record || "Event Name" in record)
    ensures r == "security" <==>
              && !("Source IP" in record && "Destination IP" in record)
              && "Principal Name" !in record && "Event Name" !in record
              && ("Process Name" in record || "Computer Name" in record)
    ensures r == "unknown" <==>
              && ("Source IP" !in record || "Destination IP" !in record)
              && "Principal Name" !in record && "Event Name" !in record
              && "Process Name" !in record && "Computer Name" !in record
  {
    if "Source IP" in record && "Destination IP" in record then "vcn_flow"
    else if "Principal Name" in record || "Event Name" in record then "audit"
    else if "Process Name" in record || "Computer Name" in record then "security"
    else "unknown"
  }

  /**
   * `get_log_type_from_record`: the `Log Source` text is tested for
   * `VCN Flow`, then `Audit`, then `Security` or `Windows`; when it is
   * missing or matches none of them the fields decide. None when `Log
   * Source` is not text (the substring test raises).
   */
  function LogTypeOf(record: Record): (r: Option<string>)
    ensures r.Some? ==> r.value in {"vcn_flow", "audit", "security", "unknown"}
    ensures r.None? <==> "Log Source" in record && !record["Log Source"].VStr?
    ensures "Log Source" !in record ==> r == Some(FieldLogType(record))
    ensures "Log Source" in record && record["Log Source"].VStr? ==>
              var source := record["Log Source"].s;
              && (Contains(source, "VCN Flow") ==> r == Some("vcn_flow"))
              && (!Contains(source, "VCN Flow") && Contains(source, "Audit") ==> r == Some("audit"))
              && ((!Contains(source, "VCN Flow") && !Contains(source, "Audit") &&
                   (Contains(source, "Security") || Contains(source, "Windows"))) ==> r == Some("security"))
              && ((!Contains(source, "VCN Flow") && !Contains(source, "Audit") &&
                   !Contains(source, "Security") && !Contains(source, "Windows")) ==> r == Some(FieldLogType(record)))
    ensures "Log Source" !in record && "Source IP" in record && "Destination IP" in record ==> r == Some("vcn_flow")
    ensures r == Some("unknown") ==>
              && ("Source IP" !in record || "Destination IP" !in record)
              && "Principal Name" !in record && "Event Name" !in record
              && "Process Name" !in record && "Computer Name" !in record
  {
    if "Log Source" in record then
      match record["Log Source"]
      case VStr(source) =>
        if Contains(source, "VCN Flow") then Some("vcn_flow")
        else if Contains(source, "Audit") then Some("audit")
        else if Contains(source, "Security") || Contains(source, "Windows") then Some("security")
        else Some(FieldLogType(record))
      case _ => None
    else Some(FieldLogType(record))
  }

  /** The detected type drives the node mapping: `unknown` yields no nodes. */
  lemma DetectedTypeDrivesMapping(record: Record)
    requires LogTypeOf(record) == Some("unknown")
    ensures NodesFor(record, LogTypeOf(record).value) == []
  {
  }
}
