/**
 * The enhanced RITA analyzer (scripts/rita_enhanced.py): field lookup and
 * field-kind detection over arbitrary log records, application
 * identification by explicit field or port, the application risk score,
 * the per-source record limit, and the two aggregations that fold query
 * results into application-to-application and IP-to-IP communications.
 *
 * Query results are inputs (one list of records per discovered source);
 * parsing of ISO-8601 time text is the parameter `isoSeconds`, and the wall
 * clock used for missing first/last-seen times is the parameter `now`.
 */
module RitaEnhanced {
  import opened Common
  import Ipv4

  // ---------------------------------------------------------------- field lookup

  /** `field_name in record and record[field_name]`. */
  predicate Present(record: Record, name: string)
  {
    name in record && Truthy(record[name])
  }

  /** Index of the first name of `names` present in `record`, or `|names|`. */
  function FirstPresent(record: Record, names: seq<string>): (r: nat)
    ensures r <= |names|
    ensures forall j :: 0 <= j < r ==> !Present(record, names[j])
    ensures r < |names| ==> Present(record, names[r])
  {
    if names == [] then 0
    else if Present(record, names[0]) then 0
    else
      var r := 1 + FirstPresent(record, names[1..]);
      assert forall j :: 1 <= j < r ==> names[j] == names[1..][j - 1];
      r
  }

  /** The text of a truthy value is never empty. */
  lemma TruthyTextNonEmpty(v: Value)
    requires Truthy(v)
    ensures RawText(v) != ""
  {
    if v.VInt? && v.n >= 0 {
      assert IsDigits(NatToString(v.n));
    }
  }

  /**
   * `_get_field_value`: `str()` of the first listed field that is present
   * and truthy, `None` when there is none; a found text is never empty.
   */
  function FieldValue(record: Record, names: seq<string>): (r: Option<string>)
    ensures r.None? <==> forall j :: 0 <= j < |names| ==> !Present(record, names[j])
    ensures r.Some? ==> exists j :: 0 <= j < |names| && Present(record, names[j]) && r.value == RawText(record[names[j]])
                                    && forall i :: 0 <= i < j ==> !Present(record, names[i])
    ensures r.Some? ==> r.value != ""
  {
    var i := FirstPresent(record, names);
    if i < |names| then
      TruthyTextNonEmpty(record[names[i]]);
      Some(RawText(record[names[i]]))
    else None
  }

  const SOURCE_IP_FIELDS: seq<string> := ["Source IP", "src_ip", "srcaddr", "client_ip"]
  const DEST_IP_FIELDS: seq<string> := ["Destination IP", "dst_ip", "dstaddr", "server_ip"]
  const PORT_FIELDS: seq<string> := ["Destination Port", "dst_port", "dstport", "port"]
  const APP_FIELDS: seq<string> := ["Application", "Service", "Process Name", "Program"]

  // ---------------------------------------------------------------- field kinds

  const IP_FIELD_PATTERNS: seq<string> := ["ip", "addr", "source", "destination", "src", "dst", "client", "server", "host"]
  const APP_FIELD_PATTERNS: seq<string> := ["app", "service", "process", "program", "command", "executable", "port"]
  const USER_FIELD_PATTERNS: seq<string> := ["user", "principal", "account", "username", "login"]

  /** `any(pattern.lower() in field.lower() for pattern in patterns)`. */
  predicate MatchesPattern(field: string, patterns: seq<string>)
  {
    exists i :: 0 <= i < |patterns| && Contains(Lower(field), Lower(patterns[i]))
  }

  /** Some field of the sample matches one of the patterns. */
  predicate HasFields(fields: set<string>, patterns: seq<string>)
  {
    exists f :: f in fields && MatchesPattern(f, patterns)
  }

  predicate HasIpFields(fields: set<string>) { HasFields(fields, IP_FIELD_PATTERNS) }
  predicate HasApplicationFields(fields: set<string>) { HasFields(fields, APP_FIELD_PATTERNS) }
  predicate HasUserFields(fields: set<string>) { HasFields(fields, USER_FIELD_PATTERNS) }

  /**
   * The detection ignores letter case: upper-casing every field name of the
   * sample changes none of the three answers.
   */
  lemma FieldDetectionIgnoresCase(fields: set<string>, patterns: seq<string>)
    ensures HasFields(fields, patterns) <==> HasFields(set f | f in fields :: Upper(f), patterns)
  {
    var up := set f | f in fields :: Upper(f);
    if HasFields(fields, patterns) {
      var f :| f in fields && MatchesPattern(f, patterns);
      LowerOfUpper(f);
      assert Upper(f) in up && MatchesPattern(Upper(f), patterns);
    }
    if HasFields(up, patterns) {
      var g :| g in up && MatchesPattern(g, patterns);
      var f :| f in fields && g == Upper(f);
      LowerOfUpper(f);
      assert MatchesPattern(f, patterns);
    }
  }

  /** The test `_get_ip_field_names` applies to each field name. */
  predicate IsIpFieldName(field: string)
  {
    var low := Lower(field);
    (Contains(low, "ip") || Contains(low, "addr") || Contains(low, "host")) && !Contains(low, "port")
  }

  /** The loop of `_get_ip_field_names`: the IP-like field names, in order. */
  method GetIpFieldNames(fields: seq<string>) returns (ipFields: seq<string>)
    ensures ipFields == Filter(fields, IsIpFieldName)
  {
    ipFields := [];
    for i := 0 to |fields|
      invariant ipFields == Filter(fields[..i], IsIpFieldName)
    {
      assert fields[..i + 1] == fields[..i] + [fields[i]];
      FilterSnoc(fields[..i], fields[i], IsIpFieldName);
      if IsIpFieldName(fields[i]) {
        ipFields := ipFields + [fields[i]];
      }
    }
    assert fields[..|fields|] == fields;
  }

  /**
   * A field is listed exactly when it mentions ip, addr or host and not
   * port, whatever its case; so a listed field always counts as an IP field
   * for `_has_ip_fields`.
   */
  lemma IpFieldNamesProperties(fields: seq<string>)
    ensures forall f :: f in Filter(fields, IsIpFieldName) <==> f in fields && IsIpFieldName(f)
    ensures forall f :: f in Filter(fields, IsIpFieldName) ==> !Contains(Lower(f), "port")
    ensures Filter(fields, IsIpFieldName) != [] ==> HasIpFields(set f | f in fields)
  {
    forall f
      ensures f in Filter(fields, IsIpFieldName) <==> f in fields && IsIpFieldName(f)
    {
      FilterMember(fields, IsIpFieldName, f);
    }
    if Filter(fields, IsIpFieldName) != [] {
      var f := Filter(fields, IsIpFieldName)[0];
      assert f in Filter(fields, IsIpFieldName);
      IpFieldNameMatches(f);
      assert f in set g | g in fields;
    }
  }

  /** A listed field name matches one of the `_has_ip_fields` patterns. */
  lemma IpFieldNameMatches(f: string)
    requires IsIpFieldName(f)
    ensures MatchesPattern(f, IP_FIELD_PATTERNS)
  {
    var low := Lower(f);
    assert Lower("ip") == "ip" && Lower("addr") == "addr" && Lower("host") == "host";
    if Contains(low, "ip") {
      assert Contains(low, Lower(IP_FIELD_PATTERNS[0]));
    } else if Contains(low, "addr") {
      assert Contains(low, Lower(IP_FIELD_PATTERNS[1]));
    } else {
      assert Contains(low, Lower(IP_FIELD_PATTERNS[8]));
    }
  }

  // ---------------------------------------------------------------- record limit

  /** `min(50000, max(500, t * 20))` for VCN sources, `min(10000, max(200, t * 10))` otherwise. */
  function RecordLimit(sourceName: string, timePeriod: int): (r: int)
    ensures Contains(sourceName, "VCN") ==> 500 <= r <= 50000 && (25 <= timePeriod <= 2500 ==> r == 20 * timePeriod)
    ensures !Contains(sourceName, "VCN") ==> 200 <= r <= 10000 && (20 <= timePeriod <= 1000 ==> r == 10 * timePeriod)
  {
    if Contains(sourceName, "VCN") then
      var m := if 500 < timePeriod * 20 then timePeriod * 20 else 500;
      if m < 50000 then m else 50000
    else
      var m := if 200 < timePeriod * 10 then timePeriod * 10 else 200;
      if m < 10000 then m else 10000
  }

  // ---------------------------------------------------------------- applications

  /**
   * The first key of `application_patterns`, in the dictionary's insertion
   * order, whose port list holds `port`: the lists are tested in that order,
   * so a port listed twice (8080 in five lists, 3000 in two) takes the
   * earlier key.
   */
  function PatternApplication(port: int): (r: Option<string>)
    ensures r.Some? ==> port >= 80
  {
    if port in {80, 8080, 8000, 8888, 9000} then Some("http")
    else if port in {443, 8443, 9443} then Some("https")
    else if port in {3000, 3001, 4000, 4200, 5000, 8080} then Some("web_app")
    else if port in {3306} then Some("mysql")
    else if port in {5432} then Some("postgresql")
    else if port in {1521, 1522} then Some("oracle")
    else if port in {27017} then Some("mongodb")
    else if port in {6379} then Some("redis")
    else if port in {9200, 9300} then Some("elasticsearch")
    else if port in {8080, 8443} then Some("tomcat")
    else if port in {8080, 9990} then Some("jboss")
    else if port in {9080, 9443} then Some("websphere")
    else if port in {7001, 7002} then Some("weblogic")
    else if port in {9092} then Some("kafka")
    else if port in {5672, 15672} then Some("rabbitmq")
    else if port in {61616} then Some("activemq")
    else if port in {2375, 2376} then Some("docker")
    else if port in {6443, 8080, 10250} then Some("kubernetes")
    else if port in {8500} then Some("consul")
    else if port in {2379, 2380} then Some("etcd")
    else if port in {9090} then Some("prometheus")
    else if port in {3000} then Some("grafana")
    else if port in {5601} then Some("kibana")
    else if port in {389, 636} then Some("ldap")
    else if port in {88} then Some("kerberos")
    else if port in {1812, 1813} then Some("radius")
    else None
  }

  /** The last resort of `_identify_application`: by address class and port range. */
  function DefaultApplication(ip: string, port: int): string
  {
    (if Ipv4.IsInternal(ip) then "INTERNAL_" else "EXTERNAL_")
    + (if port < 1024 then "SERVICE_" else "APP_")
    + IntToString(port)
  }

  /**
   * `_identify_application`: an explicit application field wins; then the
   * first pattern key listing the port, upper-cased with `_APP`; then the
   * SSH/HTTP/HTTPS/DNS server or client names; then `DefaultApplication`.
   */
  function IdentifyApplication(ip: string, port: int, record: Record, isSource: bool): (r: string)
    ensures FieldValue(record, APP_FIELDS).Some? ==> r == FieldValue(record, APP_FIELDS).value
    ensures FieldValue(record, APP_FIELDS).None? && PatternApplication(port).Some? ==>
              r == Upper(PatternApplication(port).value) + "_APP"
  {
    match FieldValue(record, APP_FIELDS)
    case Some(app) => app
    case None =>
      match PatternApplication(port)
      case Some(name) => Upper(name) + "_APP"
      case None =>
        if port == 22 then (if !isSource then "SSH_SERVER" else "SSH_CLIENT")
        else if port == 80 then (if !isSource then "HTTP_SERVER" else "HTTP_CLIENT")
        else if port == 443 then (if !isSource then "HTTPS_SERVER" else "HTTPS_CLIENT")
        else if port == 53 then (if !isSource then "DNS_SERVER" else "DNS_CLIENT")
        else DefaultApplication(ip, port)
  }

  /**
   * Without an explicit field the pattern table decides first, in its own
   * order: 80 and 8080 are `HTTP_APP` (not `HTTP_SERVER`, whose branch is
   * unreachable), 443 is `HTTPS_APP` (likewise) and 3000 is `WEB_APP_APP`
   * (not `GRAFANA_APP`).
   */
  lemma IdentifyApplicationByPattern(ip: string, record: Record, isSource: bool)
    requires FieldValue(record, APP_FIELDS).None?
    ensures IdentifyApplication(ip, 80, record, isSource) == "HTTP_APP"
    ensures IdentifyApplication(ip, 8080, record, isSource) == "HTTP_APP"
    ensures IdentifyApplication(ip, 443, record, isSource) == "HTTPS_APP"
    ensures IdentifyApplication(ip, 3000, record, isSource) == "WEB_APP_APP"
  {
    UpperPatternNames();
    assert PatternApplication(80) == Some("http") && PatternApplication(8080) == Some("http");
    assert PatternApplication(443) == Some("https") && PatternApplication(3000) == Some("web_app");
    assert "HTTP" + "_APP" == "HTTP_APP" && "HTTPS" + "_APP" == "HTTPS_APP" && "WEB_APP" + "_APP" == "WEB_APP_APP";
  }

  lemma UpperPatternNames()
    ensures Upper("http") == "HTTP" && Upper("https") == "HTTPS" && Upper("web_app") == "WEB_APP"
  {
  }

  /**
   * Only 22 and 53 reach the server/client names; every other port outside
   * the table is named by address class and port range.
   */
  lemma IdentifyApplicationFallback(ip: string, port: int, record: Record, isSource: bool)
    requires FieldValue(record, APP_FIELDS).None? && PatternApplication(port).None?
    ensures port == 22 ==> IdentifyApplication(ip, port, record, isSource) == (if isSource then "SSH_CLIENT" else "SSH_SERVER")
    ensures port == 53 ==> IdentifyApplication(ip, port, record, isSource) == (if isSource then "DNS_CLIENT" else "DNS_SERVER")
    ensures port != 22 && port != 53 ==> IdentifyApplication(ip, port, record, isSource) == DefaultApplication(ip, port)
  {
  }

  /** `_calculate_app_risk_score`: fixed increments, clamped at 1. */
  function AppRiskScore(sourceApp: string, destApp: string, port: int, connections: int, sourceIps: int, destIps: int): (r: real)
    ensures 0.0 <= r <= 1.0
    ensures r == 0.0 <==>
              && port <= 1024
              && !(connections > 100 && sourceIps < 5)
              && !(Contains(sourceApp, "EXTERNAL") || Contains(destApp, "EXTERNAL"))
              && !(Contains(sourceApp, "UNKNOWN") || Contains(destApp, "UNKNOWN"))
    ensures port > 8000 && connections > 100 && sourceIps < 5 && (Contains(sourceApp, "UNKNOWN") || Contains(destApp, "UNKNOWN")) ==> r == 1.0
    ensures port > 1024 && connections > 100 && sourceIps < 5 ==> r >= 0.5
  {
    var portRisk := if port > 8000 then 0.3 else if port > 1024 then 0.1 else 0.0;
    var volumeRisk := if connections > 100 && sourceIps < 5 then 0.4 else 0.0;
    var externalRisk := if Contains(sourceApp, "EXTERNAL") || Contains(destApp, "EXTERNAL") then 0.2 else 0.0;
    var unknownRisk := if Contains(sourceApp, "UNKNOWN") || Contains(destApp, "UNKNOWN") then 0.3 else 0.0;
    var total := portRisk + volumeRisk + externalRisk + unknownRisk;
    if total < 1.0 then total else 1.0
  }

  // ---------------------------------------------------------------- per-record extraction

  /** `s.replace('Z', '+00:00')`. */
  function ReplaceZ(s: string): string
  {
    if s == [] then [] else (if s[0] == 'Z' then "+00:00" else [s[0]]) + ReplaceZ(s[1..])
  }

  /**
   * `_parse_timestamp`, as seconds since the epoch: a falsy value gives
   * none; an integer above 10^12 is read as milliseconds, any other
   * non-zero integer as seconds, and one `fromtimestamp` rejects gives none
   * (the bare `except`); text is read by `isoSeconds` once each 'Z' is
   * rewritten as "+00:00".
   */
  function ParseTimestamp(v: Value, isoSeconds: string -> Option<real>): (r: Option<real>)
    ensures !Truthy(v) ==> r.None?
    ensures v.VInt? && v.n != 0 ==> (r.Some? <==> InEpochRange(EpochSeconds(v.n)))
    ensures v.VInt? && v.n > MILLISECONDS_ABOVE && r.Some? ==> r.value * 1000.0 == v.n as real
    ensures v.VInt? && v.n != 0 && v.n <= MILLISECONDS_ABOVE && r.Some? ==> r.value == v.n as real
    ensures v.VStr? && v.s != "" ==> r == isoSeconds(ReplaceZ(v.s))
  {
    match v
    case VNone => None
    case VInt(n) => if n == 0 || !InEpochRange(EpochSeconds(n)) then None else Some(EpochSeconds(n))
    case VStr(s) => if s == "" then None else isoSeconds(ReplaceZ(s))
  }

  /**
   * `int(record.get('Bytes', 0) or 0)`, none where `int` raises: only a
   * non-empty text that is not an integer raises.
   */
  function BytesOf(record: Record): (r: Option<int>)
    ensures r.None? <==> Present(record, "Bytes") && record["Bytes"].VStr? && ParseInt(record["Bytes"].s).None?
    ensures !Present(record, "Bytes") ==> r == Some(0)
    ensures Present(record, "Bytes") && record["Bytes"].VInt? ==> r == Some(record["Bytes"].n)
  {
    var v := Get(record, "Bytes", VInt(0));
    if !Truthy(v) then Some(0)
    else
      match v
      case VInt(n) => Some(n)
      case VStr(s) => ParseInt(s)
      case VNone => Some(0)
  }

  /** What extracting one record gives: nothing, a summary, or an exception. */
  datatype Extraction<I> = Skipped | Extracted(info: I) | Raised

  datatype AppInfo = AppInfo(sourceApp: string, destApp: string, sourceIp: string, destIp: string,
                             port: int, protocol: Value, bytes: int, timestamp: Option<real>)

  /**
   * `_extract_application_info`: a record without source, destination or
   * an integer port is skipped; an unreadable byte count raises; otherwise
   * both ends are named by `IdentifyApplication`.
   */
  function ExtractApplicationInfo(record: Record, isoSeconds: string -> Option<real>): (r: Extraction<AppInfo>)
    ensures r.Skipped? <==>
              || FieldValue(record, SOURCE_IP_FIELDS).None? || FieldValue(record, DEST_IP_FIELDS).None?
              || FieldValue(record, PORT_FIELDS).None? || ParseInt(FieldValue(record, PORT_FIELDS).value).None?
    ensures r.Raised? ==> BytesOf(record).None?
    ensures r.Extracted? ==>
              && FieldValue(record, SOURCE_IP_FIELDS) == Some(r.info.sourceIp)
              && FieldValue(record, DEST_IP_FIELDS) == Some(r.info.destIp)
              && ParseInt(FieldValue(record, PORT_FIELDS).value) == Some(r.info.port)
              && BytesOf(record) == Some(r.info.bytes)
              && r.info.sourceApp == IdentifyApplication(r.info.sourceIp, r.info.port, record, true)
              && r.info.destApp == IdentifyApplication(r.info.destIp, r.info.port, record, false)
  {
    var src := FieldValue(record, SOURCE_IP_FIELDS);
    var dst := FieldValue(record, DEST_IP_FIELDS);
    var portText := FieldValue(record, PORT_FIELDS);
    if src.None? || dst.None? || portText.None? then Skipped
    else
      match ParseInt(portText.value)
      case None => Skipped
      case Some(port) =>
        match BytesOf(record)
        case None => Raised
        case Some(bytes) =>
          Extracted(AppInfo(IdentifyApplication(src.value, port, record, true),
                            IdentifyApplication(dst.value, port, record, false),
                            src.value, dst.value, port, Get(record, "Protocol", VStr("TCP")), bytes,
                            ParseTimestamp(Get(record, "Time", VNone), isoSeconds)))
  }

  datatype IpInfo = IpInfo(sourceIp: string, destIp: string, port: int, protocol: Value, action: Value,
                           bytes: int, timestamp: Option<real>)

  /** `int(port) if port else 0`, with 0 where `int` raises. */
  function PortOrZero(portText: Option<string>): int
  {
    match portText
    case None => 0
    case Some(t) => match ParseInt(t) case Some(p) => p case None => 0
  }

  /**
   * `_extract_ip_communication_info`: a record without both addresses is
   * skipped; an unreadable byte count raises; a missing or non-integer port
   * is 0.
   */
  function ExtractIpCommunicationInfo(record: Record, isoSeconds: string -> Option<real>): (r: Extraction<IpInfo>)
    ensures r.Skipped? <==> FieldValue(record, SOURCE_IP_FIELDS).None? || FieldValue(record, DEST_IP_FIELDS).None?
    ensures r.Raised? <==> !r.Skipped? && BytesOf(record).None?
    ensures r.Extracted? ==>
              && FieldValue(record, SOURCE_IP_FIELDS) == Some(r.info.sourceIp)
              && FieldValue(record, DEST_IP_FIELDS) == Some(r.info.destIp)
              && BytesOf(record) == Some(r.info.bytes)
              && r.info.action == Get(record, "Action", VStr("UNKNOWN"))
              && (FieldValue(record, PORT_FIELDS).None? ==> r.info.port == 0)
  {
    var src := FieldValue(record, SOURCE_IP_FIELDS);
    var dst := FieldValue(record, DEST_IP_FIELDS);
    if src.None? || dst.None? then Skipped
    else
      var port := PortOrZero(FieldValue(record, PORT_FIELDS));
      match BytesOf(record)
      case None => Raised
      case Some(bytes) =>
        Extracted(IpInfo(src.value, dst.value, port, Get(record, "Protocol", VStr("Unknown")),
                         Get(record, "Action", VStr("UNKNOWN")), bytes,
                         ParseTimestamp(Get(record, "Time", VNone), isoSeconds)))
  }

  // ---------------------------------------------------------------- the pass over all sources

  /** A discovered log source: its name, the field kinds found in its sample, and the sample's field names. */
  datatype SourceInfo = SourceInfo(name: string, hasIpFields: bool, hasApplicationFields: bool, sampleFields: seq<string>)

  /** The records one source's query returned (none when the query failed). */
  datatype SourceRecords = SourceRecords(source: SourceInfo, records: seq<Record>)

  /** One accepted record: the source it came from, its summary, and the raw record. */
  datatype Event<I> = Event(source: string, info: I, record: Record)

  /** Index of the first record whose extraction raises, or `|records|`. */
  function FirstRaise<I>(records: seq<Record>, extract: Record -> Extraction<I>): (r: nat)
    ensures r <= |records|
    ensures forall j :: 0 <= j < r ==> !extract(records[j]).Raised?
    ensures r < |records| ==> extract(records[r]).Raised?
  {
    if records == [] then 0
    else if extract(records[0]).Raised? then 0
    else
      var r := 1 + FirstRaise(records[1..], extract);
      assert forall j :: 1 <= j < r ==> records[j] == records[1..][j - 1];
      r
  }

  /** The event of one record: none when it is skipped or its summary is not kept. */
  function EventOf<I>(name: string, record: Record, extract: Record -> Extraction<I>, keep: I -> bool): seq<Event<I>>
  {
    var x := extract(record);
    if x.Extracted? && keep(x.info) then [Event(name, x.info, record)] else []
  }

  /** The events of one source's records, in order. */
  function SourceEvents<I>(name: string, records: seq<Record>, extract: Record -> Extraction<I>, keep: I -> bool): seq<Event<I>>
  {
    if records == [] then []
    else
      var last := records[|records| - 1];
      SourceEvents(name, records[..|records| - 1], extract, keep) + EventOf(name, last, extract, keep)
  }

  /**
   * The events of an `analyze_*` pass: the sources `accepts` admits, in
   * order; in each, the records before the first one whose extraction
   * raises (the exception ends that source's `try` block), whose extraction
   * succeeds and whose summary `keep` admits.
   */
  function Events<I>(results: seq<SourceRecords>, accepts: SourceInfo -> bool, extract: Record -> Extraction<I>, keep: I -> bool): seq<Event<I>>
  {
    if results == [] then []
    else
      var last := results[|results| - 1];
      Events(results[..|results| - 1], accepts, extract, keep)
      + (if accepts(last.source)
         then SourceEvents(last.source.name, last.records[..FirstRaise(last.records, extract)], extract, keep)
         else [])
  }

  lemma {:induction false} SourceEventsOrigin<I>(name: string, records: seq<Record>, extract: Record -> Extraction<I>, keep: I -> bool, e: Event<I>)
    requires e in SourceEvents(name, records, extract, keep)
    ensures e.source == name && e.record in records && extract(e.record) == Extracted(e.info) && keep(e.info)
  {
    var p := records[..|records| - 1];
    if e in SourceEvents(name, p, extract, keep) {
      SourceEventsOrigin(name, p, extract, keep, e);
      assert p == records[..|records| - 1];
    }
  }

  /**
   * Every event comes from a record of an admitted source, before that
   * source's first raising record, that extracts to the event's summary,
   * and that summary is kept.
   */
  lemma {:induction false} EventsOrigin<I>(results: seq<SourceRecords>, accepts: SourceInfo -> bool, extract: Record -> Extraction<I>, keep: I -> bool, e: Event<I>)
    requires e in Events(results, accepts, extract, keep)
    ensures exists i :: 0 <= i < |results| && accepts(results[i].source) && e.source == results[i].source.name
                        && e.record in results[i].records[..FirstRaise(results[i].records, extract)]
    ensures extract(e.record) == Extracted(e.info) && keep(e.info)
  {
    var p := results[..|results| - 1];
    var last := results[|results| - 1];
    if e in Events(p, accepts, extract, keep) {
      EventsOrigin(p, accepts, extract, keep, e);
      var i :| 0 <= i < |p| && accepts(p[i].source) && e.source == p[i].source.name
               && e.record in p[i].records[..FirstRaise(p[i].records, extract)];
      assert p[i] == results[i];
    } else {
      SourceEventsOrigin(last.source.name, last.records[..FirstRaise(last.records, extract)], extract, keep, e);
    }
  }

  lemma SourceEventsSnoc<I>(name: string, records: seq<Record>, j: int, extract: Record -> Extraction<I>, keep: I -> bool)
    requires 0 <= j < |records|
    ensures SourceEvents(name, records[..j + 1], extract, keep)
         == SourceEvents(name, records[..j], extract, keep) + EventOf(name, records[j], extract, keep)
  {
    assert records[..j + 1][..j] == records[..j];
  }

  /**
   * The `for record in records` loop of one source inside its `try` block:
   * it stops at the first record whose extraction raises.
   */
  method AccumulateSource<I(==), K(==,!new), A>(ghost before: seq<Event<I>>, name: string, records: seq<Record>,
                                                extract: Record -> Extraction<I>, keep: I -> bool,
                                                key: Event<I> -> K, step: (A, Event<I>) -> A, init: A,
                                                keys: seq<K>, accs: map<K, A>)
    returns (keys': seq<K>, accs': map<K, A>)
    requires Folded(before, key, step, init, keys, accs)
    ensures Folded(before + SourceEvents(name, records[..FirstRaise(records, extract)], extract, keep), key, step, init, keys', accs')
  {
    keys', accs' := keys, accs;
    var j := 0;
    assert before + SourceEvents(name, records[..0], extract, keep) == before;
    while j < |records|
      invariant 0 <= j <= |records|
      invariant forall jj :: 0 <= jj < j ==> !extract(records[jj]).Raised?
      invariant Folded(before + SourceEvents(name, records[..j], extract, keep), key, step, init, keys', accs')
    {
      if extract(records[j]).Raised? {
        break;
      }
      keys', accs' := AbsorbRecord(before, name, records, j, extract, keep, key, step, init, keys', accs');
      j := j + 1;
    }
    FirstRaiseAt(records, extract, j);
  }

  /** A position with no raising record before it, at the end or at a raising record, is the first raise. */
  lemma FirstRaiseAt<I>(records: seq<Record>, extract: Record -> Extraction<I>, j: int)
    requires 0 <= j <= |records|
    requires forall jj :: 0 <= jj < j ==> !extract(records[jj]).Raised?
    requires j == |records| || extract(records[j]).Raised?
    ensures j == FirstRaise(records, extract)
  {
  }

  /** One record of the loop that does not raise: its event, if kept, is absorbed. */
  method AbsorbRecord<I(==), K(==,!new), A>(ghost before: seq<Event<I>>, name: string, records: seq<Record>, j: int,
                                            extract: Record -> Extraction<I>, keep: I -> bool,
                                            key: Event<I> -> K, step: (A, Event<I>) -> A, init: A,
                                            keys: seq<K>, accs: map<K, A>)
    returns (keys': seq<K>, accs': map<K, A>)
    requires 0 <= j < |records|
    requires Folded(before + SourceEvents(name, records[..j], extract, keep), key, step, init, keys, accs)
    ensures Folded(before + SourceEvents(name, records[..j + 1], extract, keep), key, step, init, keys', accs')
  {
    ghost var done := before + SourceEvents(name, records[..j], extract, keep);
    ghost var after := before + SourceEvents(name, records[..j + 1], extract, keep);
    assert after == done + EventOf(name, records[j], extract, keep) by {
      SourceEventsSnoc(name, records, j, extract, keep);
    }
    var x := extract(records[j]);
    if x.Extracted? && keep(x.info) {
      assert after == done + [Event(name, x.info, records[j])];
      keys', accs' := Absorb(done, Event(name, x.info, records[j]), key, step, init, keys, accs);
    } else {
      assert after == done;
      keys', accs' := keys, accs;
    }
  }

  /**
   * The shared loop of the two `analyze_*` methods: for each admitted
   * source, its records until one raises, each kept summary updating the
   * accumulator of its key.
   */
  method Accumulate<I(==), K(==,!new), A>(results: seq<SourceRecords>, accepts: SourceInfo -> bool,
                                          extract: Record -> Extraction<I>, keep: I -> bool,
                                          key: Event<I> -> K, step: (A, Event<I>) -> A, init: A)
    returns (keys: seq<K>, accs: map<K, A>)
    ensures Folded(Events(results, accepts, extract, keep), key, step, init, keys, accs)
  {
    keys, accs := [], map[];
    for i := 0 to |results|
      invariant Folded(Events(results[..i], accepts, extract, keep), key, step, init, keys, accs)
    {
      assert results[..i + 1][..i] == results[..i];
      ghost var before := Events(results[..i], accepts, extract, keep);
      var source := results[i].source;
      if accepts(source) {
        keys, accs := AccumulateSource(before, source.name, results[i].records, extract, keep, key, step, init, keys, accs);
        assert Events(results[..i + 1], accepts, extract, keep)
            == before + SourceEvents(source.name, results[i].records[..FirstRaise(results[i].records, extract)], extract, keep);
      } else {
        assert Events(results[..i + 1], accepts, extract, keep) == before;
      }
    }
    assert results[..|results|] == results;
  }

  // ---------------------------------------------------------------- application communications

  /** A kept sample log: its source, its time, and the raw record. */
  datatype SampleLog = SampleLog(source: string, timestamp: Option<real>, rawLog: Record)

  /** The `(source_app, dest_app, port)` a communication is keyed by. */
  type AppKey = (string, string, int)

  function AppKeyOf(e: Event<AppInfo>): AppKey
  {
    (e.info.sourceApp, e.info.destApp, e.info.port)
  }

  /** One `app_comms` entry. */
  datatype AppAcc = AppAcc(connections: nat, bytes: int, firstSeen: Option<real>, lastSeen: Option<real>,
                           logSources: set<string>, sampleLogs: seq<SampleLog>, sourceIps: set<string>,
                           destIps: set<string>, ports: set<int>, protocols: set<Value>)

  const APP_ACC_INIT: AppAcc := AppAcc(0, 0, None, None, {}, [], {}, {}, {}, {})

  const APP_SAMPLE_LIMIT: nat := 5

  function AppSample(e: Event<AppInfo>): SampleLog
  {
    SampleLog(e.source, e.info.timestamp, e.record)
  }

  function AppBytes(e: Event<AppInfo>): int { e.info.bytes }
  function AppTime(e: Event<AppInfo>): Option<real> { e.info.timestamp }

  /** The update of `comm` by one application summary. */
  function AppStep(acc: AppAcc, e: Event<AppInfo>): AppAcc
  {
    AppAcc(acc.connections + 1, acc.bytes + e.info.bytes,
           Earlier(acc.firstSeen, e.info.timestamp), Later(acc.lastSeen, e.info.timestamp),
           acc.logSources + {e.source},
           if |acc.sampleLogs| < APP_SAMPLE_LIMIT then acc.sampleLogs + [AppSample(e)] else acc.sampleLogs,
           acc.sourceIps + {e.info.sourceIp}, acc.destIps + {e.info.destIp},
           acc.ports + {e.info.port}, acc.protocols + {e.info.protocol})
  }

  /**
   * An `ApplicationCommunication`. The source reports one element of each
   * of the address and protocol sets (`list(s)[0]`, an order Python does not
   * fix); the model keeps the whole set.
   */
  datatype ApplicationCommunication = ApplicationCommunication(
    sourceApp: string, destApp: string, sourceIps: set<string>, destIps: set<string>, port: int,
    protocols: set<Value>, connectionCount: int, totalBytes: int, firstSeen: real, lastSeen: real,
    logSources: set<string>, sampleLogs: seq<SampleLog>, riskScore: real)

  function OrNow(t: Option<real>, now: real): real
  {
    if t.Some? then t.value else now
  }

  /** The conversion of one entry: fewer than two connections are dropped. */
  function AppEmit(k: AppKey, a: AppAcc, now: real): seq<ApplicationCommunication>
  {
    if a.connections < 2 then []
    else
      [ApplicationCommunication(k.0, k.1, a.sourceIps, a.destIps, k.2, a.protocols, a.connections, a.bytes,
                                OrNow(a.firstSeen, now), OrNow(a.lastSeen, now), a.logSources, a.sampleLogs,
                                AppRiskScore(k.0, k.1, k.2, a.connections, |a.sourceIps|, |a.destIps|))]
  }

  function AppCommunicationsOfGroup(now: real): (AppKey, seq<Event<AppInfo>>) -> seq<ApplicationCommunication>
  {
    (k: AppKey, g: seq<Event<AppInfo>>) => AppEmit(k, FoldLeft(g, AppStep, APP_ACC_INIT), now)
  }

  function AppRank(c: ApplicationCommunication): Rank
  {
    Rank(c.riskScore, c.connectionCount as real)
  }

  predicate AppSourceAccepted(s: SourceInfo)
  {
    s.hasIpFields || s.hasApplicationFields
  }

  predicate KeepAll(i: AppInfo)
  {
    true
  }

  function AppExtractor(isoSeconds: string -> Option<real>): Record -> Extraction<AppInfo>
  {
    (r: Record) => ExtractApplicationInfo(r, isoSeconds)
  }

  function AppEvents(results: seq<SourceRecords>, isoSeconds: string -> Option<real>): seq<Event<AppInfo>>
  {
    Events(results, AppSourceAccepted, AppExtractor(isoSeconds), KeepAll)
  }

  /** What `analyze_application_communications` returns for the given events. */
  function Applications(events: seq<Event<AppInfo>>, now: real): seq<ApplicationCommunication>
  {
    SortDesc(FlatMapGroups(events, AppKeyOf, KeysOf(events, AppKeyOf), AppCommunicationsOfGroup(now)), AppRank)
  }

  /** `analyze_application_communications` over the per-source query results. */
  method AnalyzeApplicationCommunications(results: seq<SourceRecords>, isoSeconds: string -> Option<real>, now: real)
    returns (applications: seq<ApplicationCommunication>)
    ensures applications == Applications(AppEvents(results, isoSeconds), now)
  {
    var keys, comms := Accumulate(results, AppSourceAccepted, AppExtractor(isoSeconds), KeepAll, AppKeyOf, AppStep, APP_ACC_INIT);
    applications := EmitApplications(AppEvents(results, isoSeconds), keys, comms, now);
    applications := SortDesc(applications, AppRank);
  }

  /** The second loop of `analyze_application_communications`: one entry per key with two connections or more, in key order. */
  method EmitApplications(ghost events: seq<Event<AppInfo>>, keys: seq<AppKey>, comms: map<AppKey, AppAcc>, now: real)
    returns (applications: seq<ApplicationCommunication>)
    requires Folded(events, AppKeyOf, AppStep, APP_ACC_INIT, keys, comms)
    ensures applications == FlatMapGroups(events, AppKeyOf, keys, AppCommunicationsOfGroup(now))
  {
    applications := [];
    for j := 0 to |keys|
      invariant applications == FlatMapGroups(events, AppKeyOf, keys[..j], AppCommunicationsOfGroup(now))
    {
      FlatMapGroupsStep(events, AppKeyOf, keys, AppCommunicationsOfGroup(now), j);
      applications := applications + AppEmit(keys[j], comms[keys[j]], now);
    }
    assert keys[..|keys|] == keys;
  }

  /** The counters, samples and times of an entry are those of its bucket. */
  lemma {:induction false} AppFoldCounts(g: seq<Event<AppInfo>>)
    ensures var a := FoldLeft(g, AppStep, APP_ACC_INIT);
            && a.connections == |g|
            && a.bytes == SumInt(g, AppBytes)
            && a.sampleLogs == Take(MapSeq(g, AppSample), APP_SAMPLE_LIMIT)
            && a.firstSeen == FoldLeft(MapSeq(g, AppTime), Earlier, None)
            && a.lastSeen == FoldLeft(MapSeq(g, AppTime), Later, None)
  {
    if g != [] {
      var p := g[..|g| - 1];
      var x := g[|g| - 1];
      assert g == p + [x];
      AppFoldCounts(p);
      MapSeqSnoc(p, x, AppSample);
      MapSeqSnoc(p, x, AppTime);
      FoldLeftSnoc(MapSeq(p, AppTime), AppTime(x), Earlier, None);
      FoldLeftSnoc(MapSeq(p, AppTime), AppTime(x), Later, None);
    }
  }

  /** The sets of an entry are those of its bucket. */
  lemma AppFoldSets(g: seq<Event<AppInfo>>)
    ensures var a := FoldLeft(g, AppStep, APP_ACC_INIT);
            && a.logSources == (set e | e in g :: e.source)
            && a.sourceIps == (set e | e in g :: e.info.sourceIp)
            && a.destIps == (set e | e in g :: e.info.destIp)
  {
    AppFoldSources(g);
    AppFoldSourceIps(g);
    AppFoldDestIps(g);
  }

  lemma {:induction false} AppFoldSources(g: seq<Event<AppInfo>>)
    ensures FoldLeft(g, AppStep, APP_ACC_INIT).logSources == (set e | e in g :: e.source)
  {
    if g != [] {
      var p, x := g[..|g| - 1], g[|g| - 1];
      assert g == p + [x];
      FoldLeftSnoc(p, x, AppStep, APP_ACC_INIT);
      AppFoldSources(p);
      assert (set e | e in g :: e.source) == (set e | e in p :: e.source) + {x.source};
    }
  }

  lemma {:induction false} AppFoldSourceIps(g: seq<Event<AppInfo>>)
    ensures FoldLeft(g, AppStep, APP_ACC_INIT).sourceIps == (set e | e in g :: e.info.sourceIp)
  {
    if g != [] {
      var p, x := g[..|g| - 1], g[|g| - 1];
      assert g == p + [x];
      FoldLeftSnoc(p, x, AppStep, APP_ACC_INIT);
      AppFoldSourceIps(p);
      assert (set e | e in g :: e.info.sourceIp) == (set e | e in p :: e.info.sourceIp) + {x.info.sourceIp};
    }
  }

  lemma {:induction false} AppFoldDestIps(g: seq<Event<AppInfo>>)
    ensures FoldLeft(g, AppStep, APP_ACC_INIT).destIps == (set e | e in g :: e.info.destIp)
  {
    if g != [] {
      var p, x := g[..|g| - 1], g[|g| - 1];
      assert g == p + [x];
      FoldLeftSnoc(p, x, AppStep, APP_ACC_INIT);
      AppFoldDestIps(p);
      assert (set e | e in g :: e.info.destIp) == (set e | e in p :: e.info.destIp) + {x.info.destIp};
    }
  }

  /**
   * The communication of one bucket, when it has at least two connections:
   * counts and bytes of the bucket, its first five samples, its address
   * sets, and a risk in [0, 1].
   */
  lemma AppEmitProperties(k: AppKey, g: seq<Event<AppInfo>>, now: real)
    ensures |g| >= 2 <==> |AppCommunicationsOfGroup(now)(k, g)| == 1
    ensures forall c :: c in AppCommunicationsOfGroup(now)(k, g) ==>
              && (c.sourceApp, c.destApp, c.port) == k
              && c.connectionCount == |g| >= 2
              && c.totalBytes == SumInt(g, AppBytes)
              && c.sampleLogs == Take(MapSeq(g, AppSample), APP_SAMPLE_LIMIT)
              && |c.sampleLogs| <= APP_SAMPLE_LIMIT
              && c.sourceIps == (set e | e in g :: e.info.sourceIp)
              && c.destIps == (set e | e in g :: e.info.destIp)
              && c.logSources == (set e | e in g :: e.source)
              && 0.0 <= c.riskScore <= 1.0
  {
    AppFoldCounts(g);
    AppFoldSets(g);
  }

  /** First and last seen bound every time of the bucket. */
  lemma AppEmitTimes(k: AppKey, g: seq<Event<AppInfo>>, now: real)
    ensures forall c :: c in AppCommunicationsOfGroup(now)(k, g) ==>
              forall i :: 0 <= i < |g| && g[i].info.timestamp.Some? ==>
                c.firstSeen <= g[i].info.timestamp.value <= c.lastSeen
  {
    var a := FoldLeft(g, AppStep, APP_ACC_INIT);
    AppFoldCounts(g);
    var ts := MapSeq(g, AppTime);
    MapSeqPointwise(g, AppTime);
    EarliestFold(ts);
    LatestFold(ts);
    forall i | 0 <= i < |g| && g[i].info.timestamp.Some?
      ensures OrNow(a.firstSeen, now) <= g[i].info.timestamp.value <= OrNow(a.lastSeen, now)
    {
      assert ts[i] == g[i].info.timestamp;
    }
  }

  /**
   * `analyze_application_communications`: each reported communication is
   * the bucket of its `(source_app, dest_app, port)` with at least two
   * connections, and is described by `AppEmitProperties`; every bucket
   * with two or more connections is reported; the list is sorted by
   * (risk, connections), descending.
   */
  lemma ApplicationsProperties(events: seq<Event<AppInfo>>, now: real)
    ensures SortedDesc(Applications(events, now), AppRank)
    ensures forall c :: c in Applications(events, now) ==>
              var g := GroupOf(events, AppKeyOf, (c.sourceApp, c.destApp, c.port));
              && c.connectionCount == |g| >= 2
              && c.totalBytes == SumInt(g, AppBytes)
              && c.sampleLogs == Take(MapSeq(g, AppSample), APP_SAMPLE_LIMIT)
              && |c.sampleLogs| <= APP_SAMPLE_LIMIT
              && 0.0 <= c.riskScore <= 1.0
    ensures forall k :: k in KeysOf(events, AppKeyOf) && |GroupOf(events, AppKeyOf, k)| >= 2 ==>
              exists c :: c in Applications(events, now) && (c.sourceApp, c.destApp, c.port) == k
  {
    var keys := KeysOf(events, AppKeyOf);
    SortDescSorted(FlatMapGroups(events, AppKeyOf, keys, AppCommunicationsOfGroup(now)), AppRank);
    forall c | c in Applications(events, now)
      ensures var g := GroupOf(events, AppKeyOf, (c.sourceApp, c.destApp, c.port));
              && c.connectionCount == |g| >= 2
              && c.totalBytes == SumInt(g, AppBytes)
              && c.sampleLogs == Take(MapSeq(g, AppSample), APP_SAMPLE_LIMIT)
              && |c.sampleLogs| <= APP_SAMPLE_LIMIT
              && 0.0 <= c.riskScore <= 1.0
    {
      ApplicationMember(events, now, c);
    }
    forall k | k in keys && |GroupOf(events, AppKeyOf, k)| >= 2
      ensures exists c :: c in Applications(events, now) && (c.sourceApp, c.destApp, c.port) == k
    {
      ApplicationOfKey(events, now, k);
    }
  }

  lemma ApplicationMember(events: seq<Event<AppInfo>>, now: real, c: ApplicationCommunication)
    requires c in Applications(events, now)
    ensures var g := GroupOf(events, AppKeyOf, (c.sourceApp, c.destApp, c.port));
            && c.connectionCount == |g| >= 2
            && c.totalBytes == SumInt(g, AppBytes)
            && c.sampleLogs == Take(MapSeq(g, AppSample), APP_SAMPLE_LIMIT)
            && |c.sampleLogs| <= APP_SAMPLE_LIMIT
            && 0.0 <= c.riskScore <= 1.0
  {
    var keys := KeysOf(events, AppKeyOf);
    var step := AppCommunicationsOfGroup(now);
    var all := FlatMapGroups(events, AppKeyOf, keys, step);
    assert c in multiset(all);
    FlatMapGroupsMember(events, AppKeyOf, keys, step, c);
    var j :| 0 <= j < |keys| && c in step(keys[j], GroupOf(events, AppKeyOf, keys[j]));
    AppEmitProperties(keys[j], GroupOf(events, AppKeyOf, keys[j]), now);
  }

  lemma ApplicationOfKey(events: seq<Event<AppInfo>>, now: real, k: AppKey)
    requires k in KeysOf(events, AppKeyOf) && |GroupOf(events, AppKeyOf, k)| >= 2
    ensures exists c :: c in Applications(events, now) && (c.sourceApp, c.destApp, c.port) == k
  {
    var keys := KeysOf(events, AppKeyOf);
    var step := AppCommunicationsOfGroup(now);
    var j :| 0 <= j < |keys| && keys[j] == k;
    AppEmitProperties(k, GroupOf(events, AppKeyOf, k), now);
    var c := step(k, GroupOf(events, AppKeyOf, k))[0];
    FlatMapGroupsMember(events, AppKeyOf, keys, step, c);
    assert c in multiset(Applications(events, now));
  }

  /**
   * Where the events come from: each is a record of a source with IP or
   * application fields, before that source's first unreadable byte count,
   * and its summary is that record's extraction.
   */
  lemma AppEventsOrigin(results: seq<SourceRecords>, isoSeconds: string -> Option<real>, e: Event<AppInfo>)
    requires e in AppEvents(results, isoSeconds)
    ensures ExtractApplicationInfo(e.record, isoSeconds) == Extracted(e.info)
    ensures exists i :: 0 <= i < |results| && AppSourceAccepted(results[i].source) && e.source == results[i].source.name
                        && e.record in results[i].records[..FirstRaise(results[i].records, AppExtractor(isoSeconds))]
  {
    EventsOrigin(results, AppSourceAccepted, AppExtractor(isoSeconds), KeepAll, e);
  }

  // ---------------------------------------------------------------- IP communications

  /** The `(source_ip, dest_ip)` pair a communication is keyed by. */
  type IpKey = (string, string)

  function IpKeyOf(e: Event<IpInfo>): IpKey
  {
    (e.info.sourceIp, e.info.destIp)
  }

  /** One `ip_comms` entry. */
  datatype IpAcc = IpAcc(connections: nat, bytes: int, firstSeen: Option<real>, lastSeen: Option<real>,
                         logSources: set<string>, sampleLogs: seq<SampleLog>, ports: set<int>,
                         protocols: set<Value>, actions: seq<Value>, riskIndicators: set<string>)

  const IP_ACC_INIT: IpAcc := IpAcc(0, 0, None, None, {}, [], {}, {}, [], {})

  const IP_SAMPLE_LIMIT: nat := 10

  /** `action in ['REJECT', 'DROP', 'DENY']`. */
  predicate IsBlockedAction(v: Value)
  {
    v == VStr("REJECT") || v == VStr("DROP") || v == VStr("DENY")
  }

  function IpSample(e: Event<IpInfo>): SampleLog
  {
    SampleLog(e.source, e.info.timestamp, e.record)
  }

  function IpBytes(e: Event<IpInfo>): int { e.info.bytes }
  function IpTime(e: Event<IpInfo>): Option<real> { e.info.timestamp }
  function IpAction(e: Event<IpInfo>): Value { e.info.action }

  /** The risk indicators one summary adds. */
  function IndicatorsOf(info: IpInfo): set<string>
  {
    (if IsBlockedAction(info.action) then {"blocked_connection"} else {})
    + (if info.port > 1024 then {"high_port"} else {})
  }

  /** The update of `comm` by one IP summary. */
  function IpStep(acc: IpAcc, e: Event<IpInfo>): IpAcc
  {
    IpAcc(acc.connections + 1, acc.bytes + e.info.bytes,
          Earlier(acc.firstSeen, e.info.timestamp), Later(acc.lastSeen, e.info.timestamp),
          acc.logSources + {e.source},
          if |acc.sampleLogs| < IP_SAMPLE_LIMIT then acc.sampleLogs + [IpSample(e)] else acc.sampleLogs,
          acc.ports + {e.info.port}, acc.protocols + {e.info.protocol},
          acc.actions + [e.info.action], acc.riskIndicators + IndicatorsOf(e.info))
  }

  /** The placeholder `_get_geo_info`. */
  datatype GeoInfo = GeoInfo(country: string, city: string)

  datatype IpCommunication = IpCommunication(
    sourceIp: string, destIp: string, portsUsed: set<int>, protocols: set<Value>, actions: seq<Value>,
    connectionCount: int, totalBytes: int, firstSeen: real, lastSeen: real, logSources: set<string>,
    sampleLogs: seq<SampleLog>, isInternalToInternal: bool, isInternalToExternal: bool,
    isExternalToInternal: bool, geoInfo: Option<GeoInfo>, riskIndicators: set<string>)

  /** The conversion of one entry, with its direction flags. */
  function IpEmit(k: IpKey, a: IpAcc, now: real): IpCommunication
  {
    var srcInternal := Ipv4.IsInternal(k.0);
    var dstInternal := Ipv4.IsInternal(k.1);
    IpCommunication(k.0, k.1, a.ports, a.protocols, a.actions, a.connections, a.bytes,
                    OrNow(a.firstSeen, now), OrNow(a.lastSeen, now), a.logSources, a.sampleLogs,
                    srcInternal && dstInternal, srcInternal && !dstInternal, !srcInternal && dstInternal,
                    if !dstInternal then Some(GeoInfo("Unknown", "Unknown")) else None,
                    a.riskIndicators)
  }

  function IpCommunicationsOfGroup(now: real): (IpKey, seq<Event<IpInfo>>) -> seq<IpCommunication>
  {
    (k: IpKey, g: seq<Event<IpInfo>>) => [IpEmit(k, FoldLeft(g, IpStep, IP_ACC_INIT), now)]
  }

  function IpRank(c: IpCommunication): Rank
  {
    Rank(|c.riskIndicators| as real, c.connectionCount as real)
  }

  predicate IpSourceAccepted(s: SourceInfo)
  {
    s.hasIpFields
  }

  /** `ip_info['source_ip'] != ip_info['dest_ip']`. */
  predicate DistinctEnds(i: IpInfo)
  {
    i.sourceIp != i.destIp
  }

  function IpExtractor(isoSeconds: string -> Option<real>): Record -> Extraction<IpInfo>
  {
    (r: Record) => ExtractIpCommunicationInfo(r, isoSeconds)
  }

  function IpEvents(results: seq<SourceRecords>, isoSeconds: string -> Option<real>): seq<Event<IpInfo>>
  {
    Events(results, IpSourceAccepted, IpExtractor(isoSeconds), DistinctEnds)
  }

  /** What `analyze_ip_communications` returns for the given events. */
  function IpCommunications(events: seq<Event<IpInfo>>, now: real): seq<IpCommunication>
  {
    SortDesc(FlatMapGroups(events, IpKeyOf, KeysOf(events, IpKeyOf), IpCommunicationsOfGroup(now)), IpRank)
  }

  /** `analyze_ip_communications` over the per-source query results. */
  method AnalyzeIpCommunications(results: seq<SourceRecords>, isoSeconds: string -> Option<real>, now: real)
    returns (communications: seq<IpCommunication>)
    ensures communications == IpCommunications(IpEvents(results, isoSeconds), now)
  {
    var keys, comms := Accumulate(results, IpSourceAccepted, IpExtractor(isoSeconds), DistinctEnds, IpKeyOf, IpStep, IP_ACC_INIT);
    communications := EmitIpCommunications(IpEvents(results, isoSeconds), keys, comms, now);
    communications := SortDesc(communications, IpRank);
  }

  /** The second loop of `analyze_ip_communications`: one entry per address pair, in key order. */
  method EmitIpCommunications(ghost events: seq<Event<IpInfo>>, keys: seq<IpKey>, comms: map<IpKey, IpAcc>, now: real)
    returns (communications: seq<IpCommunication>)
    requires Folded(events, IpKeyOf, IpStep, IP_ACC_INIT, keys, comms)
    ensures communications == FlatMapGroups(events, IpKeyOf, keys, IpCommunicationsOfGroup(now))
  {
    communications := [];
    for j := 0 to |keys|
      invariant communications == FlatMapGroups(events, IpKeyOf, keys[..j], IpCommunicationsOfGroup(now))
    {
      FlatMapGroupsStep(events, IpKeyOf, keys, IpCommunicationsOfGroup(now), j);
      communications := communications + [IpEmit(keys[j], comms[keys[j]], now)];
    }
    assert keys[..|keys|] == keys;
  }

  /** The counters, samples, actions and times of an entry are those of its bucket. */
  lemma {:induction false} IpFoldCounts(g: seq<Event<IpInfo>>)
    ensures var a := FoldLeft(g, IpStep, IP_ACC_INIT);
            && a.connections == |g|
            && a.bytes == SumInt(g, IpBytes)
            && a.sampleLogs == Take(MapSeq(g, IpSample), IP_SAMPLE_LIMIT)
            && a.actions == MapSeq(g, IpAction)
            && a.firstSeen == FoldLeft(MapSeq(g, IpTime), Earlier, None)
            && a.lastSeen == FoldLeft(MapSeq(g, IpTime), Later, None)
  {
    if g != [] {
      var p := g[..|g| - 1];
      var x := g[|g| - 1];
      assert g == p + [x];
      IpFoldCounts(p);
      MapSeqSnoc(p, x, IpSample);
      MapSeqSnoc(p, x, IpAction);
      MapSeqSnoc(p, x, IpTime);
      FoldLeftSnoc(MapSeq(p, IpTime), IpTime(x), Earlier, None);
      FoldLeftSnoc(MapSeq(p, IpTime), IpTime(x), Later, None);
    }
  }

  /** The source and port sets of an entry are those of its bucket. */
  lemma IpFoldSets(g: seq<Event<IpInfo>>)
    ensures var a := FoldLeft(g, IpStep, IP_ACC_INIT);
            && a.logSources == (set e | e in g :: e.source)
            && a.ports == (set e | e in g :: e.info.port)
  {
    IpFoldSources(g);
    IpFoldPorts(g);
  }

  lemma {:induction false} IpFoldSources(g: seq<Event<IpInfo>>)
    ensures FoldLeft(g, IpStep, IP_ACC_INIT).logSources == (set e | e in g :: e.source)
  {
    if g != [] {
      var p, x := g[..|g| - 1], g[|g| - 1];
      assert g == p + [x];
      FoldLeftSnoc(p, x, IpStep, IP_ACC_INIT);
      IpFoldSources(p);
      assert (set e | e in g :: e.source) == (set e | e in p :: e.source) + {x.source};
    }
  }

  lemma {:induction false} IpFoldPorts(g: seq<Event<IpInfo>>)
    ensures FoldLeft(g, IpStep, IP_ACC_INIT).ports == (set e | e in g :: e.info.port)
  {
    if g != [] {
      var p, x := g[..|g| - 1], g[|g| - 1];
      assert g == p + [x];
      FoldLeftSnoc(p, x, IpStep, IP_ACC_INIT);
      IpFoldPorts(p);
      assert (set e | e in g :: e.info.port) == (set e | e in p :: e.info.port) + {x.info.port};
    }
  }

  /** The union of the indicators of a bucket's summaries. */
  function IndicatorUnion(g: seq<Event<IpInfo>>): set<string>
  {
    if g == [] then {} else IndicatorUnion(g[..|g| - 1]) + IndicatorsOf(g[|g| - 1].info)
  }

  lemma {:induction false} IpFoldIndicatorUnion(g: seq<Event<IpInfo>>)
    ensures FoldLeft(g, IpStep, IP_ACC_INIT).riskIndicators == IndicatorUnion(g)
  {
    if g != [] {
      IpFoldIndicatorUnion(g[..|g| - 1]);
    }
  }

  /**
   * `blocked_connection` is present exactly when some summary of the bucket
   * has a blocking action, `high_port` exactly when some port is above
   * 1024, and nothing else is ever added.
   */
  lemma {:induction false} IndicatorUnionFacts(g: seq<Event<IpInfo>>)
    ensures "blocked_connection" in IndicatorUnion(g) <==> exists i :: 0 <= i < |g| && IsBlockedAction(g[i].info.action)
    ensures "high_port" in IndicatorUnion(g) <==> exists i :: 0 <= i < |g| && g[i].info.port > 1024
    ensures IndicatorUnion(g) <= {"blocked_connection", "high_port"}
  {
    if g != [] {
      var p := g[..|g| - 1];
      IndicatorUnionFacts(p);
      assert forall i :: 0 <= i < |p| ==> p[i] == g[i];
      if exists i :: 0 <= i < |g| && IsBlockedAction(g[i].info.action) {
        var i :| 0 <= i < |g| && IsBlockedAction(g[i].info.action);
        if i < |p| {
          assert IsBlockedAction(p[i].info.action);
        }
      }
      if exists i :: 0 <= i < |g| && g[i].info.port > 1024 {
        var i :| 0 <= i < |g| && g[i].info.port > 1024;
        if i < |p| {
          assert p[i].info.port > 1024;
        }
      }
    }
  }

  /**
   * The communication of one bucket: its own pair, counts and bytes, every
   * action in order, its first ten samples, the indicators of its
   * summaries, at most one direction flag, and geographic placeholders
   * exactly for non-internal destinations.
   */
  lemma IpEmitProperties(k: IpKey, g: seq<Event<IpInfo>>, now: real)
    ensures var c := IpEmit(k, FoldLeft(g, IpStep, IP_ACC_INIT), now);
            && (c.sourceIp, c.destIp) == k
            && c.connectionCount == |g|
            && c.totalBytes == SumInt(g, IpBytes)
            && c.actions == MapSeq(g, IpAction)
            && c.sampleLogs == Take(MapSeq(g, IpSample), IP_SAMPLE_LIMIT)
            && |c.sampleLogs| <= IP_SAMPLE_LIMIT
            && c.portsUsed == (set e | e in g :: e.info.port)
            && c.logSources == (set e | e in g :: e.source)
            && ("blocked_connection" in c.riskIndicators <==> exists i :: 0 <= i < |g| && IsBlockedAction(g[i].info.action))
            && ("high_port" in c.riskIndicators <==> exists i :: 0 <= i < |g| && g[i].info.port > 1024)
            && c.riskIndicators <= {"blocked_connection", "high_port"}
            && !(c.isInternalToInternal && c.isInternalToExternal)
            && !(c.isInternalToInternal && c.isExternalToInternal)
            && !(c.isInternalToExternal && c.isExternalToInternal)
            && (c.geoInfo.Some? <==> !Ipv4.IsInternal(c.destIp))
  {
    IpFoldCounts(g);
    IpFoldSets(g);
    IpFoldIndicatorUnion(g);
    IndicatorUnionFacts(g);
  }

  /** First and last seen bound every time of the bucket. */
  lemma IpEmitTimes(k: IpKey, g: seq<Event<IpInfo>>, now: real)
    ensures var c := IpEmit(k, FoldLeft(g, IpStep, IP_ACC_INIT), now);
            forall i :: 0 <= i < |g| && g[i].info.timestamp.Some? ==>
              c.firstSeen <= g[i].info.timestamp.value <= c.lastSeen
  {
    var a := FoldLeft(g, IpStep, IP_ACC_INIT);
    IpFoldCounts(g);
    var ts := MapSeq(g, IpTime);
    MapSeqPointwise(g, IpTime);
    EarliestFold(ts);
    LatestFold(ts);
    forall i | 0 <= i < |g| && g[i].info.timestamp.Some?
      ensures OrNow(a.firstSeen, now) <= g[i].info.timestamp.value <= OrNow(a.lastSeen, now)
    {
      assert ts[i] == g[i].info.timestamp;
    }
  }

  /**
   * `analyze_ip_communications`: one communication per (source, destination)
   * pair seen, in (indicator count, connections) order, descending.
   */
  lemma IpCommunicationsShape(events: seq<Event<IpInfo>>, now: real)
    ensures SortedDesc(IpCommunications(events, now), IpRank)
    ensures |IpCommunications(events, now)| == |KeysOf(events, IpKeyOf)|
    ensures forall k :: k in KeysOf(events, IpKeyOf) ==>
              exists c :: c in IpCommunications(events, now) && (c.sourceIp, c.destIp) == k
  {
    var keys := KeysOf(events, IpKeyOf);
    var step := IpCommunicationsOfGroup(now);
    var all := FlatMapGroups(events, IpKeyOf, keys, step);
    SortDescSorted(all, IpRank);
    FlatMapGroupsSingletons(events, IpKeyOf, keys, step);
    assert |IpCommunications(events, now)| == |multiset(all)|;
    forall k | k in keys
      ensures exists c :: c in IpCommunications(events, now) && (c.sourceIp, c.destIp) == k
    {
      var j :| 0 <= j < |keys| && keys[j] == k;
      var c := IpEmit(k, FoldLeft(GroupOf(events, IpKeyOf, k), IpStep, IP_ACC_INIT), now);
      assert c in step(keys[j], GroupOf(events, IpKeyOf, keys[j]));
      FlatMapGroupsMember(events, IpKeyOf, keys, step, c);
      assert c in multiset(IpCommunications(events, now));
    }
  }

  /**
   * Each reported communication is the conversion of the bucket of its own
   * pair (described by `IpEmitProperties`), so the reported addresses are
   * those of every record counted in it.
   */
  lemma IpCommunicationsMembers(events: seq<Event<IpInfo>>, now: real)
    ensures forall c :: c in IpCommunications(events, now) ==>
              var g := GroupOf(events, IpKeyOf, (c.sourceIp, c.destIp));
              && c == IpEmit((c.sourceIp, c.destIp), FoldLeft(g, IpStep, IP_ACC_INIT), now)
              && c.connectionCount == |g| >= 1
              && (forall i :: 0 <= i < |g| ==> g[i].info.sourceIp == c.sourceIp && g[i].info.destIp == c.destIp)
  {
    forall c | c in IpCommunications(events, now)
      ensures var g := GroupOf(events, IpKeyOf, (c.sourceIp, c.destIp));
              && c == IpEmit((c.sourceIp, c.destIp), FoldLeft(g, IpStep, IP_ACC_INIT), now)
              && c.connectionCount == |g| >= 1
    {
      IpCommunicationMember(events, now, c);
    }
  }

  lemma IpCommunicationMember(events: seq<Event<IpInfo>>, now: real, c: IpCommunication)
    requires c in IpCommunications(events, now)
    ensures var g := GroupOf(events, IpKeyOf, (c.sourceIp, c.destIp));
            && c == IpEmit((c.sourceIp, c.destIp), FoldLeft(g, IpStep, IP_ACC_INIT), now)
            && c.connectionCount == |g| >= 1
  {
    var keys := KeysOf(events, IpKeyOf);
    var step := IpCommunicationsOfGroup(now);
    var all := FlatMapGroups(events, IpKeyOf, keys, step);
    assert c in multiset(all);
    FlatMapGroupsMember(events, IpKeyOf, keys, step, c);
    var j :| 0 <= j < |keys| && c in step(keys[j], GroupOf(events, IpKeyOf, keys[j]));
    GroupOfNonEmpty(events, IpKeyOf, keys[j]);
    IpFoldCounts(GroupOf(events, IpKeyOf, keys[j]));
  }

  /** No reported communication has the same source and destination. */
  lemma IpCommunicationsDistinctEnds(results: seq<SourceRecords>, isoSeconds: string -> Option<real>, now: real)
    ensures forall c :: c in IpCommunications(IpEvents(results, isoSeconds), now) ==> c.sourceIp != c.destIp
  {
    var events := IpEvents(results, isoSeconds);
    IpCommunicationsMembers(events, now);
    forall c | c in IpCommunications(events, now)
      ensures c.sourceIp != c.destIp
    {
      var g := GroupOf(events, IpKeyOf, (c.sourceIp, c.destIp));
      assert g[0] in g;
      GroupOfWithin(events, IpKeyOf, (c.sourceIp, c.destIp), g[0]);
      EventsOrigin(results, IpSourceAccepted, IpExtractor(isoSeconds), DistinctEnds, g[0]);
    }
  }

  // ---------------------------------------------------------------- text keys as written

  /**
   * The text key the IP analysis groups by, joining the two addresses with
   * ':' and later splitting it again with `key.split(':', 1)`.
   */
  function IpKeyText(sourceIp: string, destIp: string): string
  {
    sourceIp + ":" + destIp
  }

  /** The pair read back from an IP text key; none where the unpacking raises. */
  function SplitIpKeyText(key: string): Option<IpKey>
  {
    var parts := SplitAtMost(key, ':', 1);
    if |parts| == 2 then Some((parts[0], parts[1])) else None
  }

  /** A source address without ':' (IPv4, a host name) comes back unchanged, with its destination. */
  lemma IpKeyTextRoundTrip(sourceIp: string, destIp: string)
    requires ':' !in sourceIp
    ensures SplitIpKeyText(IpKeyText(sourceIp, destIp)) == Some((sourceIp, destIp))
  {
    assert IpKeyText(sourceIp, destIp) == sourceIp + [':'] + destIp;
    SplitAtMostPiece(sourceIp, ':', destIp, 0);
  }

  /** An IPv6 source does not: fe80::1 talking to 10.0.0.5 is reported as fe80 talking to :1:10.0.0.5. */
  lemma IpKeyTextIpv6Source()
    ensures SplitIpKeyText(IpKeyText("fe80::1", "10.0.0.5")) == Some(("fe80", ":1:10.0.0.5"))
  {
    assert IpKeyText("fe80::1", "10.0.0.5") == "fe80" + [':'] + ":1:10.0.0.5";
    SplitAtMostPiece("fe80", ':', ":1:10.0.0.5", 0);
  }

  /** The text key the application analysis groups by. */
  function AppKeyText(sourceApp: string, destApp: string, port: int): string
  {
    sourceApp + ":" + destApp + ":" + IntToString(port)
  }

  /**
   * The triple read back from an application text key with
   * `key.split(':', 2)` and `int(port)`; none where either raises.
   */
  function SplitAppKeyText(key: string): Option<AppKey>
  {
    var parts := SplitAtMost(key, ':', 2);
    if |parts| == 3 then
      (match ParseInt(parts[2])
       case Some(p) => Some((parts[0], parts[1], p))
       case None => None)
    else None
  }

  /** Application names without ':' come back unchanged, with the port. */
  lemma AppKeyTextRoundTrip(sourceApp: string, destApp: string, port: int)
    requires ':' !in sourceApp && ':' !in destApp
    ensures SplitAppKeyText(AppKeyText(sourceApp, destApp, port)) == Some((sourceApp, destApp, port))
  {
    AppKeyTextPieces(sourceApp, destApp, port);
    ParseIntOfIntToString(port);
  }

  lemma AppKeyTextPieces(sourceApp: string, destApp: string, port: int)
    requires ':' !in sourceApp && ':' !in destApp
    ensures SplitAtMost(AppKeyText(sourceApp, destApp, port), ':', 2) == [sourceApp, destApp, IntToString(port)]
  {
    var digits := IntToString(port);
    assert AppKeyText(sourceApp, destApp, port) == sourceApp + [':'] + (destApp + [':'] + digits);
    SplitAtMostPiece(sourceApp, ':', destApp + [':'] + digits, 1);
    SplitAtMostPiece(destApp, ':', digits, 0);
  }

  /**
   * An explicit `Application` field holding ':' breaks it: with "svc:v1" at
   * both ends on port 443 the third piece is "svc:v1:443", which `int()`
   * rejects, and that conversion sits outside any try block, so the whole
   * application analysis raises.
   */
  lemma AppKeyTextColonName()
    ensures SplitAtMost(AppKeyText("svc:v1", "svc:v1", 443), ':', 2) == ["svc", "v1", "svc:v1:443"]
    ensures SplitAppKeyText(AppKeyText("svc:v1", "svc:v1", 443)) == None
  {
    var rest := "svc:v1" + ":" + IntToString(443);
    assert rest == "svc:v1:443" by {
      assert IntToString(443) == "443";
    }
    assert "svc:v1" == "svc" + ":" + "v1";
    AppKeyTextColonPieces("svc", "v1", "svc:v1", 443);
    assert rest[3] == ':';
    ColonTextNotInt(rest);
  }

  lemma ColonTextNotInt(t: string)
    requires ':' in t
    ensures ParseInt(t) == None
  {
    if ParseInt(t).Some? {
      ParseIntCharacters(t, ':');
    }
  }

  /** A ':' inside the source name is taken for the first separator. */
  lemma AppKeyTextColonPieces(a: string, b: string, destApp: string, port: int)
    requires ':' !in a && ':' !in b
    ensures SplitAtMost(AppKeyText(a + ":" + b, destApp, port), ':', 2) == [a, b, destApp + ":" + IntToString(port)]
  {
    var rest := destApp + ":" + IntToString(port);
    assert AppKeyText(a + ":" + b, destApp, port) == a + [':'] + (b + [':'] + rest);
    SplitAtMostPiece(a, ':', b + [':'] + rest, 1);
    SplitAtMostPiece(b, ':', rest, 0);
  }

  // ---------------------------------------------------------------- logs for a selection

  /** `_record_matches_application`: the record's destination port, as text, is `port`. */
  predicate MatchesApplicationPort(record: Record, port: string)
  {
    FieldValue(record, PORT_FIELDS) == Some(port)
  }

  function PortMatcher(port: string): Record -> bool
  {
    (r: Record) => MatchesApplicationPort(r, port)
  }

  /** The sources the 'ip' branch queries: IP fields, at least one of them named in the sample. */
  predicate IpQueried(source: SourceInfo)
  {
    source.hasIpFields && Filter(source.sampleFields, IsIpFieldName) != []
  }

  /**
   * The 'ip' branch for one source: a source with IP fields, at least one
   * of them named in its sample, contributes all of its records.
   */
  function IpSelectionOf(ip: string): SourceRecords -> seq<Record>
  {
    (s: SourceRecords) =>
      if IpQueried(s.source) then MapSeq(s.records, Annotator(s.source.name, "ip", ip))
      else []
  }

  /** The 'application' branch for one source: its records whose port matches. */
  function AppSelectionOf(selectionValue: string, port: string): SourceRecords -> seq<Record>
  {
    (s: SourceRecords) =>
      MapSeq(Filter(s.records, PortMatcher(port)), Annotator(s.source.name, "application", selectionValue))
  }

  /** The source-by-source concatenation `logs.extend(...)` builds. */
  function CollectLogs(results: seq<SourceRecords>, perSource: SourceRecords -> seq<Record>): seq<Record>
  {
    if results == [] then []
    else CollectLogs(results[..|results| - 1], perSource) + perSource(results[|results| - 1])
  }

  /** The logs gathered before sorting, by selection type; other types gather none. */
  function SelectedLogs(selectionType: string, selectionValue: string, results: seq<SourceRecords>): seq<Record>
  {
    if selectionType == "ip" then CollectLogs(results, IpSelectionOf(selectionValue))
    else if selectionType == "application" then
      var parts := Split(selectionValue, ':');
      if |parts| >= 3 then CollectLogs(results, AppSelectionOf(selectionValue, parts[2])) else []
    else []
  }

  const SELECTION_LOG_LIMIT := 200

  /** The sort key `x.get('Time', '')`. */
  function TimeKey(record: Record): Value
  {
    Get(record, "Time", VStr(""))
  }

  predicate AllTextTimes(logs: seq<Record>)
  {
    forall i :: 0 <= i < |logs| ==> TimeKey(logs[i]).VStr?
  }

  predicate AllIntTimes(logs: seq<Record>)
  {
    forall i :: 0 <= i < |logs| ==> TimeKey(logs[i]).VInt?
  }

  function TextTime(record: Record): string
  {
    var t := TimeKey(record);
    if t.VStr? then t.s else ""
  }

  function IntTime(record: Record): Rank
  {
    var t := TimeKey(record);
    ByReal(if t.VInt? then t.n as real else 0.0)
  }

  /**
   * `logs.sort(key=..., reverse=True)` then `logs[:200]`. Python orders two
   * texts or two integers but raises on None or on text against an
   * integer, so two or more logs whose times are neither all text nor all
   * integers make the sort, and the call, raise: none.
   */
  function SortedSelection(logs: seq<Record>): Option<seq<Record>>
  {
    if |logs| < 2 then Some(logs)
    else if AllTextTimes(logs) then Some(Take(SortByTextDesc(logs, TextTime), SELECTION_LOG_LIMIT))
    else if AllIntTimes(logs) then Some(Take(SortDesc(logs, IntTime), SELECTION_LOG_LIMIT))
    else None
  }

  function LogsForSelection(selectionType: string, selectionValue: string, results: seq<SourceRecords>): Option<seq<Record>>
  {
    SortedSelection(SelectedLogs(selectionType, selectionValue, results))
  }

  /** The records of one source whose port matches, annotated, in order. */
  method MatchingRecords(records: seq<Record>, source: string, selectionValue: string, port: string)
    returns (filtered: seq<Record>)
    ensures filtered == MapSeq(Filter(records, PortMatcher(port)), Annotator(source, "application", selectionValue))
  {
    filtered := [];
    for j := 0 to |records|
      invariant filtered == MapSeq(Filter(records[..j], PortMatcher(port)), Annotator(source, "application", selectionValue))
    {
      assert records[..j + 1] == records[..j] + [records[j]];
      FilterSnoc(records[..j], records[j], PortMatcher(port));
      if MatchesApplicationPort(records[j], port) {
        MapSeqSnoc(Filter(records[..j], PortMatcher(port)), records[j], Annotator(source, "application", selectionValue));
        filtered := filtered + [Annotate(records[j], source, "application", selectionValue)];
      }
    }
    assert records[..|records|] == records;
  }

  /** `get_logs_for_selection` over the records each source's query returned. */
  method GetLogsForSelection(selectionType: string, selectionValue: string, results: seq<SourceRecords>)
    returns (logs: Option<seq<Record>>)
    ensures logs == LogsForSelection(selectionType, selectionValue, results)
  {
    var gathered: seq<Record> := [];
    if selectionType == "ip" {
      for i := 0 to |results|
        invariant gathered == CollectLogs(results[..i], IpSelectionOf(selectionValue))
      {
        assert results[..i + 1][..i] == results[..i];
        var s := results[i];
        if s.source.hasIpFields {
          var ipFields := GetIpFieldNames(s.source.sampleFields);
          if ipFields != [] {
            var annotated := MapInOrder(s.records, Annotator(s.source.name, "ip", selectionValue));
            gathered := gathered + annotated;
          }
        }
      }
      assert results[..|results|] == results;
    } else if selectionType == "application" {
      var parts := Split(selectionValue, ':');
      if |parts| >= 3 {
        var port := parts[2];
        for i := 0 to |results|
          invariant gathered == CollectLogs(results[..i], AppSelectionOf(selectionValue, port))
        {
          assert results[..i + 1][..i] == results[..i];
          var filtered := MatchingRecords(results[i].records, results[i].source.name, selectionValue, port);
          gathered := gathered + filtered;
        }
        assert results[..|results|] == results;
      }
    }
    logs := SortedSelection(gathered);
  }

  lemma {:induction false} CollectLogsMember(results: seq<SourceRecords>, perSource: SourceRecords -> seq<Record>, x: Record)
    ensures x in CollectLogs(results, perSource) <==> exists i :: 0 <= i < |results| && x in perSource(results[i])
  {
    if results != [] {
      var p := results[..|results| - 1];
      CollectLogsMember(p, perSource, x);
      assert forall i :: 0 <= i < |p| ==> p[i] == results[i];
      if x in perSource(results[|results| - 1]) {
        assert x in perSource(results[|results| - 1]);
      }
    }
  }

  /** Annotating leaves the port fields, and so the port a record is matched on, alone. */
  lemma {:induction false} FirstPresentAnnotated(record: Record, names: seq<string>, source: string, selectionType: string, selectionValue: string)
    requires forall j :: 0 <= j < |names| ==> names[j] !in ANNOTATION_KEYS
    ensures FirstPresent(Annotate(record, source, selectionType, selectionValue), names) == FirstPresent(record, names)
  {
    if names != [] {
      FirstPresentAnnotated(record, names[1..], source, selectionType, selectionValue);
    }
  }

  lemma PortOfAnnotated(record: Record, source: string, selectionType: string, selectionValue: string)
    ensures FieldValue(Annotate(record, source, selectionType, selectionValue), PORT_FIELDS) == FieldValue(record, PORT_FIELDS)
  {
    forall j | 0 <= j < |PORT_FIELDS|
      ensures PORT_FIELDS[j] !in ANNOTATION_KEYS
    {
      assert PORT_FIELDS[j][0] != '_';
    }
    FirstPresentAnnotated(record, PORT_FIELDS, source, selectionType, selectionValue);
  }

  /** Every gathered log carries the selection it was gathered for and its source's name; unknown types gather none. */
  lemma SelectedLogsAnnotated(selectionType: string, selectionValue: string, results: seq<SourceRecords>)
    ensures forall x :: x in SelectedLogs(selectionType, selectionValue, results) ==>
              ANNOTATION_KEYS <= x.Keys && x["_selection_type"] == VStr(selectionType) && x["_selection_value"] == VStr(selectionValue)
              && exists i :: 0 <= i < |results| && x["_source"] == VStr(results[i].source.name)
    ensures selectionType != "ip" && selectionType != "application" ==> SelectedLogs(selectionType, selectionValue, results) == []
  {
    forall x | x in SelectedLogs(selectionType, selectionValue, results)
      ensures ANNOTATION_KEYS <= x.Keys && x["_selection_type"] == VStr(selectionType) && x["_selection_value"] == VStr(selectionValue)
              && exists i :: 0 <= i < |results| && x["_source"] == VStr(results[i].source.name)
    {
      if selectionType == "ip" {
        var f := IpSelectionOf(selectionValue);
        CollectLogsMember(results, f, x);
        var i :| 0 <= i < |results| && x in f(results[i]);
        MapSeqMember(results[i].records, Annotator(results[i].source.name, "ip", selectionValue), x);
      } else {
        var port := Split(selectionValue, ':')[2];
        var f := AppSelectionOf(selectionValue, port);
        CollectLogsMember(results, f, x);
        var i :| 0 <= i < |results| && x in f(results[i]);
        MapSeqMember(Filter(results[i].records, PortMatcher(port)), Annotator(results[i].source.name, "application", selectionValue), x);
      }
    }
  }

  lemma IpSelectionOfMember(selectionValue: string, s: SourceRecords, x: Record)
    ensures x in IpSelectionOf(selectionValue)(s) <==>
              IpQueried(s.source) && exists j :: 0 <= j < |s.records| && x == Annotate(s.records[j], s.source.name, "ip", selectionValue)
  {
    var f := Annotator(s.source.name, "ip", selectionValue);
    if IpQueried(s.source) {
      MapSeqMember(s.records, f, x);
      if x in MapSeq(s.records, f) {
        var y :| y in s.records && x == f(y);
        var j :| 0 <= j < |s.records| && s.records[j] == y;
      }
      if exists j :: 0 <= j < |s.records| && x == Annotate(s.records[j], s.source.name, "ip", selectionValue) {
        var j :| 0 <= j < |s.records| && x == Annotate(s.records[j], s.source.name, "ip", selectionValue);
        assert x == f(s.records[j]);
      }
    }
  }

  /**
   * An 'ip' selection gathers exactly the records of the sources it
   * queries, annotated.
   */
  lemma SelectedLogsForIp(selectionValue: string, results: seq<SourceRecords>, x: Record)
    ensures x in SelectedLogs("ip", selectionValue, results) <==>
              exists i, j :: 0 <= i < |results| && IpQueried(results[i].source) && 0 <= j < |results[i].records|
                && x == Annotate(results[i].records[j], results[i].source.name, "ip", selectionValue)
  {
    var f := IpSelectionOf(selectionValue);
    CollectLogsMember(results, f, x);
    if x in SelectedLogs("ip", selectionValue, results) {
      var i :| 0 <= i < |results| && x in f(results[i]);
      IpSelectionOfMember(selectionValue, results[i], x);
    }
    if exists i, j :: 0 <= i < |results| && IpQueried(results[i].source) && 0 <= j < |results[i].records|
         && x == Annotate(results[i].records[j], results[i].source.name, "ip", selectionValue) {
      var i, j :| 0 <= i < |results| && IpQueried(results[i].source) && 0 <= j < |results[i].records|
         && x == Annotate(results[i].records[j], results[i].source.name, "ip", selectionValue);
      IpSelectionOfMember(selectionValue, results[i], x);
    }
  }

  lemma AppSelectionOfMember(selectionValue: string, port: string, s: SourceRecords, x: Record)
    ensures x in AppSelectionOf(selectionValue, port)(s) <==>
              exists j :: 0 <= j < |s.records| && MatchesApplicationPort(s.records[j], port)
                && x == Annotate(s.records[j], s.source.name, "application", selectionValue)
  {
    var f := Annotator(s.source.name, "application", selectionValue);
    var kept := Filter(s.records, PortMatcher(port));
    MapSeqMember(kept, f, x);
    if x in MapSeq(kept, f) {
      var y :| y in kept && x == f(y);
      FilterMember(s.records, PortMatcher(port), y);
      var j :| 0 <= j < |s.records| && s.records[j] == y;
    }
    if exists j :: 0 <= j < |s.records| && MatchesApplicationPort(s.records[j], port)
         && x == Annotate(s.records[j], s.source.name, "application", selectionValue) {
      var j :| 0 <= j < |s.records| && MatchesApplicationPort(s.records[j], port)
         && x == Annotate(s.records[j], s.source.name, "application", selectionValue);
      FilterMember(s.records, PortMatcher(port), s.records[j]);
      assert x == f(s.records[j]);
    }
  }

  /**
   * An 'application' selection "a:b:p" gathers exactly the records, of any
   * source, whose destination port reads p, annotated.
   */
  lemma SelectedLogsForApplication(selectionValue: string, results: seq<SourceRecords>, x: Record)
    requires |Split(selectionValue, ':')| >= 3
    ensures x in SelectedLogs("application", selectionValue, results) <==>
              exists i, j :: 0 <= i < |results| && 0 <= j < |results[i].records|
                && MatchesApplicationPort(results[i].records[j], Split(selectionValue, ':')[2])
                && x == Annotate(results[i].records[j], results[i].source.name, "application", selectionValue)
  {
    var port := Split(selectionValue, ':')[2];
    CollectLogsMember(results, AppSelectionOf(selectionValue, port), x);
    forall i | 0 <= i < |results|
      ensures x in AppSelectionOf(selectionValue, port)(results[i]) <==>
                exists j :: 0 <= j < |results[i].records|
                  && MatchesApplicationPort(results[i].records[j], port)
                  && x == Annotate(results[i].records[j], results[i].source.name, "application", selectionValue)
    {
      AppSelectionOfMember(selectionValue, port, results[i], x);
    }
  }

  /** The annotated logs an 'application' selection returns still match its port. */
  lemma SelectedLogsMatchPort(selectionValue: string, results: seq<SourceRecords>, x: Record)
    requires |Split(selectionValue, ':')| >= 3
    requires x in SelectedLogs("application", selectionValue, results)
    ensures MatchesApplicationPort(x, Split(selectionValue, ':')[2])
  {
    SelectedLogsForApplication(selectionValue, results, x);
    var i, j :| 0 <= i < |results| && 0 <= j < |results[i].records|
      && MatchesApplicationPort(results[i].records[j], Split(selectionValue, ':')[2])
      && x == Annotate(results[i].records[j], results[i].source.name, "application", selectionValue);
    PortOfAnnotated(results[i].records[j], results[i].source.name, "application", selectionValue);
  }

  /** A prefix of a list sorted newest first is sorted newest first. */
  lemma TakeSortedByText(s: seq<Record>, n: int)
    requires SortedByTextDesc(s, TextTime)
    ensures SortedByTextDesc(Take(s, n), TextTime)
  {
    var t := Take(s, n);
    assert forall i :: 0 <= i < |t| ==> t[i] == s[i];
  }

  lemma TakeSortedDesc(s: seq<Record>, n: int)
    requires SortedDesc(s, IntTime)
    ensures SortedDesc(Take(s, n), IntTime)
  {
    var t := Take(s, n);
    assert forall i :: 0 <= i < |t| ==> t[i] == s[i];
  }

  lemma TakeSubMultiset(s: seq<Record>, n: int)
    ensures multiset(Take(s, n)) <= multiset(s)
  {
    var t := Take(s, n);
    assert s == t + s[|t|..];
  }

  /** A log the text-sorted prefix drops is never newer than one it keeps. */
  lemma TakeKeepsNewestByText(s: seq<Record>, n: int)
    requires SortedByTextDesc(s, TextTime)
    ensures forall x, y :: y in Take(s, n) && multiset(Take(s, n))[x] < multiset(s)[x] ==>
              !StrBefore(TextTime(y), TextTime(x))
  {
    var t := Take(s, n);
    var rest := s[|t|..];
    assert s == t + rest;
    forall x, y | y in t && multiset(t)[x] < multiset(s)[x]
      ensures !StrBefore(TextTime(y), TextTime(x))
    {
      assert multiset(s)[x] == multiset(t)[x] + multiset(rest)[x];
      assert x in rest;
      var j :| 0 <= j < |rest| && rest[j] == x;
      var i :| 0 <= i < |t| && t[i] == y;
      assert s[i] == y && s[|t| + j] == x;
    }
  }

  /** A log the integer-sorted prefix drops is never newer than one it keeps. */
  lemma TakeKeepsNewestDesc(s: seq<Record>, n: int)
    requires SortedDesc(s, IntTime)
    ensures forall x, y :: y in Take(s, n) && multiset(Take(s, n))[x] < multiset(s)[x] ==>
              !Above(IntTime(x), IntTime(y))
  {
    var t := Take(s, n);
    var rest := s[|t|..];
    assert s == t + rest;
    forall x, y | y in t && multiset(t)[x] < multiset(s)[x]
      ensures !Above(IntTime(x), IntTime(y))
    {
      assert multiset(s)[x] == multiset(t)[x] + multiset(rest)[x];
      assert x in rest;
      var j :| 0 <= j < |rest| && rest[j] == x;
      var i :| 0 <= i < |t| && t[i] == y;
      assert s[i] == y && s[|t| + j] == x;
    }
  }

  /** The logs a prefix keeps for any one key are a prefix of that key's logs. */
  lemma TakeKeyedPrefix<K>(s: seq<Record>, n: int, key: Record -> K, v: K)
    ensures KeyedAs(Take(s, n), key, v) <= KeyedAs(s, key, v)
  {
    var t := Take(s, n);
    assert s == t + s[|t|..];
    KeyedAsAppend(t, s[|t|..], key, v);
  }

  /** SelectionKeepsNewest for the list sorted on text times. */
  lemma TextSelectionKeepsNewest(logs: seq<Record>)
    ensures var kept := Take(SortByTextDesc(logs, TextTime), SELECTION_LOG_LIMIT);
            (forall x, y :: y in kept && multiset(kept)[x] < multiset(logs)[x] ==>
               !StrBefore(TextTime(y), TextTime(x)))
            && (forall v :: KeyedAs(kept, TextTime, v) <= KeyedAs(logs, TextTime, v))
  {
    var sorted := SortByTextDesc(logs, TextTime);
    SortByTextSorted(logs, TextTime);
    TakeKeepsNewestByText(sorted, SELECTION_LOG_LIMIT);
    forall v ensures KeyedAs(Take(sorted, SELECTION_LOG_LIMIT), TextTime, v) <= KeyedAs(logs, TextTime, v) {
      TakeKeyedPrefix(sorted, SELECTION_LOG_LIMIT, TextTime, v);
      SortByTextStable(logs, TextTime, v);
    }
  }

  /** SelectionKeepsNewest for the list sorted on integer times. */
  lemma IntSelectionKeepsNewest(logs: seq<Record>)
    ensures var kept := Take(SortDesc(logs, IntTime), SELECTION_LOG_LIMIT);
            (forall x, y :: y in kept && multiset(kept)[x] < multiset(logs)[x] ==>
               !Above(IntTime(x), IntTime(y)))
            && (forall v :: KeyedAs(kept, IntTime, v) <= KeyedAs(logs, IntTime, v))
  {
    var sorted := SortDesc(logs, IntTime);
    SortDescSorted(logs, IntTime);
    TakeKeepsNewestDesc(sorted, SELECTION_LOG_LIMIT);
    forall v ensures KeyedAs(Take(sorted, SELECTION_LOG_LIMIT), IntTime, v) <= KeyedAs(logs, IntTime, v) {
      TakeKeyedPrefix(sorted, SELECTION_LOG_LIMIT, IntTime, v);
      SortDescStable(logs, IntTime, v);
    }
  }

  /**
   * The kept logs, min(n, 200) of them, are the newest: no log left out
   * has a later time than a log kept. Logs with equal times keep their gathering order, so
   * for each time the kept logs are the first ones gathered.
   */
  lemma SelectionKeepsNewest(logs: seq<Record>)
    ensures AllTextTimes(logs) ==>
              var kept := SortedSelection(logs).value;
              (forall x, y :: y in kept && multiset(kept)[x] < multiset(logs)[x] ==>
                 !StrBefore(TextTime(y), TextTime(x)))
              && (forall v :: KeyedAs(kept, TextTime, v) <= KeyedAs(logs, TextTime, v))
    ensures AllIntTimes(logs) ==>
              var kept := SortedSelection(logs).value;
              (forall x, y :: y in kept && multiset(kept)[x] < multiset(logs)[x] ==>
                 !Above(IntTime(x), IntTime(y)))
              && (forall v :: KeyedAs(kept, IntTime, v) <= KeyedAs(logs, IntTime, v))
    ensures AllTextTimes(logs) || AllIntTimes(logs) ==>
              |SortedSelection(logs).value| == if |logs| <= SELECTION_LOG_LIMIT then |logs| else SELECTION_LOG_LIMIT
  {
    SortedSelectionProperties(logs);
    if |logs| < 2 {
      forall v: string ensures KeyedAs(logs, TextTime, v) <= KeyedAs(logs, TextTime, v) { }
      forall v: Rank ensures KeyedAs(logs, IntTime, v) <= KeyedAs(logs, IntTime, v) { }
    } else if AllTextTimes(logs) {
      TextSelectionKeepsNewest(logs);
    } else if AllIntTimes(logs) {
      IntSelectionKeepsNewest(logs);
    }
  }

  /**
   * min(n, 200) logs, all taken from the gathered ones (all of them when
   * there are no more than 200), newest first; the sort raises exactly
   * when two or more logs have times that are neither all text nor all
   * integers.
   */
  lemma SortedSelectionProperties(logs: seq<Record>)
    ensures SortedSelection(logs).None? <==> |logs| >= 2 && !AllTextTimes(logs) && !AllIntTimes(logs)
    ensures SortedSelection(logs).Some? ==>
              |SortedSelection(logs).value| <= SELECTION_LOG_LIMIT
              && multiset(SortedSelection(logs).value) <= multiset(logs)
              && (|logs| <= SELECTION_LOG_LIMIT ==> multiset(SortedSelection(logs).value) == multiset(logs))
              && |SortedSelection(logs).value| == if |logs| <= SELECTION_LOG_LIMIT then |logs| else SELECTION_LOG_LIMIT
    ensures AllTextTimes(logs) ==> SortedSelection(logs).Some? && SortedByTextDesc(SortedSelection(logs).value, TextTime)
    ensures AllIntTimes(logs) ==> SortedSelection(logs).Some? && SortedDesc(SortedSelection(logs).value, IntTime)
  {
    if |logs| >= 2 {
      if AllTextTimes(logs) {
        var sorted := SortByTextDesc(logs, TextTime);
        SortByTextSorted(logs, TextTime);
        TakeSortedByText(sorted, SELECTION_LOG_LIMIT);
        TakeSubMultiset(sorted, SELECTION_LOG_LIMIT);
        assert |sorted| == |logs| by { assert |multiset(sorted)| == |multiset(logs)|; }
      } else if AllIntTimes(logs) {
        var sorted := SortDesc(logs, IntTime);
        SortDescSorted(logs, IntTime);
        TakeSortedDesc(sorted, SELECTION_LOG_LIMIT);
        TakeSubMultiset(sorted, SELECTION_LOG_LIMIT);
        assert |sorted| == |logs| by { assert |multiset(sorted)| == |multiset(logs)|; }
      }
    }
    if AllIntTimes(logs) && AllTextTimes(logs) && |logs| >= 2 {
      assert TimeKey(logs[0]).VStr?;
    }
  }
}
