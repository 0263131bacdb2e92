# OCI Logging Analytics security scripts — a Dafny model

This project models the analysis core of a security dashboard built on OCI
Logging Analytics. Its centre is the VCN flow-log threat-detection engine
(`scripts/vcn_analyzer.py`). The engine turns query rows into flow records,
runs five detectors over them (beacons, long connections, data
exfiltration, port scans and DNS tunnelling), scores each candidate's
confidence and severity, and merges the candidates into one ordered threat
list with summary statistics.

The model also covers the logic in the scripts around that engine:

- the field mapping from log records to graph nodes and relationships;
- the enhanced ingestion of flow, blocked-traffic and WAF attack events;
- the graph extractor and the graph analyzer's element merging and subgraph walk;
- the RITA-style analyses (`rita_enhanced`, `rita_simple`, `rita_analyzer`);
- the security-rule converter's query wrapping, categorisation and sample rules;
- the multi-tenant Logging Analytics client's query building and result aggregation;
- the threat-intelligence indicator validation and submission bookkeeping;
- the security analyzer's severity and threat-level policy;
- the instance-authentication checker.

There is one Dafny module per script, plus two shared modules:

- `Common` holds Option, text and numeral reading as Python's `int()`,
  `float()` and `str.strip()` do it, folds, first-appearance grouping as
  Python's `defaultdict` has it, and a stable sort.
- `Ipv4` holds address parsing and the private and loopback tables.

Each operation that works by looping is a `method` proved equal to a
specification function, which is written as a fold over the input's
prefixes. The source's promises are then proved as lemmas about those
functions. The multi-tenant client, whose methods update its fields, is a
`class`.

Timestamps are real seconds. Millisecond epochs are divided by 1000 with
true division, as the source does. The wall clock, the results of external
queries and `fromisoformat` are parameters.

The summary's `analysis_time_range` is the fixed label "Last 1440 minutes"
whatever window was requested (scripts/vcn_analyzer.py:680). It is modelled
as written.

## Model

| member | source | states |
|---|---|---|
| Ipv4.Parse | scripts/vcn_analyzer.py:41-47 | `ipaddress.ip_address` on dotted-quad text: a parsed address has four octets, each below 256 |
| Ipv4.ParseFormat | scripts/vcn_analyzer.py:41-47 | every address reads back from its dotted-quad text (round trip of the address parser) |
| Ipv4.InternalBlocks | scripts/vcn_analyzer.py:41-47 | 10/8, 172.16/12, 192.168/16 and 127/8 all count as internal (`is_private or is_loopback`) |
| Ipv4.ExternalExample | scripts/vcn_analyzer.py:41-47 | a public address such as 8.8.8.8 is not internal |
| Common.ParseIntOfDigits | scripts/vcn_analyzer.py:216-217 | `int()` reads a text of ASCII digits as its decimal value |
| Common.ParseIntOfNegative | scripts/vcn_analyzer.py:216-217 | `int()` reads a minus sign before ASCII digits as the negation of what it reads for the digits alone |
| Common.ParseIntOfIntToString | scripts/vcn_analyzer.py:216-217 | `int(str(i)) == i` for every integer |
| Common.ParseIntBlanks | scripts/vcn_analyzer.py:216-217 | `int()` ignores whitespace on either side of the numeral |
| Common.ParseIntUnderscore | scripts/vcn_analyzer.py:216-217 | `int()` accepts one underscore between digit groups, reading the digits without it |
| Common.ParseIntCharacters | scripts/vcn_analyzer.py:216-217 | only whitespace, signs, decimal digits and underscores can appear in a text `int()` accepts |
| Common.ParseIntUnsigned | scripts/vcn_analyzer.py:216-217 | a text without a minus sign never reads as a negative integer |
| Common.ParseIntOfDecimalDigit | scripts/vcn_analyzer.py:216-217 | `int()` reads a lone Unicode decimal digit as its value |
| Common.ParseIntOfArabicIndic | scripts/vcn_analyzer.py:216-217 | `int("٣")` is 3 |
| Common.ParseIntOfSuperscript | scripts/graph_extractor.py:331-332 | `int("²")` raises |
| Common.SuperscriptTwo | scripts/graph_extractor.py:331 | "²" passes `isdigit()` but is not a decimal digit |
| Common.DecimalsValueOfDigits | scripts/vcn_analyzer.py:216-217 | ASCII digits are Unicode decimal digits with the same value |
| Common.ParseFloatOfIntToString | scripts/graph_analyzer.py:591 | `float(str(i))` is i |
| Common.ParseFloatFraction | scripts/graph_analyzer.py:591 | `float()` of a decimal fraction is its exact value before rounding |
| Common.ParseFloatExponent | scripts/graph_analyzer.py:591 | `float()` of a fraction with an exponent scales it by ten to the power `int()` reads for the signed exponent |
| VcnRecords.MakeFlowRecord | scripts/vcn_analyzer.py:21-38 | the derived fields: internal flags are the address test of each address, the flow key is `src:sport->dst:dport`; protocol TCP, 1024 bytes, 1 packet |
| VcnRecords.TimeOf | scripts/vcn_analyzer.py:201-211 | an integer above 10^12 is milliseconds and any other non-zero integer seconds, kept iff `fromtimestamp` accepts it; a non-empty text gives its ISO reading and fails when that fails; falsy and other values are the current instant |
| VcnRecords.ParseTimestamp | scripts/vcn_analyzer.py:199-211 | `Time` is read, then `Datetime`, then the empty text; a missing or falsy value is the current instant |
| VcnRecords.ParsePort | scripts/vcn_analyzer.py:218-219 | a missing or null port is 0; a text port is `int()` of the text, failing as `int()` fails |
| VcnRecords.ParseDuration | scripts/vcn_analyzer.py:223-233 | end minus start in seconds when both stamps are truthy and parse and are both aware or both naive; 0 otherwise, and 0 without a start time |
| VcnRecords.ActionOf | scripts/vcn_analyzer.py:218 | a missing `Action` is `ACCEPT`; the action is null exactly when the row holds a null |
| VcnRecords.ParseFlow | scripts/vcn_analyzer.py:197-251 | a row yields a record iff both addresses are non-empty and the timestamp and ports parse; the record carries those values, the timestamp's awareness, the row's action, bytes 1024, packets 1, protocol TCP and the row's duration |
| VcnRecords.ParseFlowRecords | scripts/vcn_analyzer.py:193-254 | the parsing loop returns exactly the records the per-row parse gives, in input order |
| VcnRecords.ParsedRecordsAppend | scripts/vcn_analyzer.py:193-254 | parsing distributes over concatenation of the rows, so input order is preserved |
| VcnRecords.ParsedRecordsShape | scripts/vcn_analyzer.py:215-251 | at most one record per row; every record has non-empty addresses, 1024 bytes and 1 packet |
| VcnRecords.ParseSingleRow | scripts/vcn_analyzer.py:237-251 | a single row gives its record when it parses, and nothing otherwise |
| VcnRecords.ParsedRecordsContains | scripts/vcn_analyzer.py:193-254 | the record of every row that parses is among the parsed records |
| VcnRecords.ParsedRecordsNaive | scripts/vcn_analyzer.py:199-211 | rows without aware timestamps give only naive records |
| VcnRecords.ParsedRecordsActions | scripts/vcn_analyzer.py:218-251 | a record with a null action comes from a row whose `Action` is null |
| VcnScoring.SuspiciousPortsAsDefined | scripts/vcn_analyzer.py:117-118 | a port is suspicious iff 1024 <= p <= 65535 and p is not a common port, so 23 or 445 are not |
| VcnScoring.IntervalScore | scripts/vcn_analyzer.py:559-568 | the interval score lies in [0.1, 1] and is 1 exactly for mean intervals in [60 s, 3600 s] |
| VcnScoring.BeaconConfidenceRange | scripts/vcn_analyzer.py:550-579 | with a consistency in [0, 1] the beacon confidence lies in (0, 1] |
| VcnScoring.BeaconSeverityMonotone | scripts/vcn_analyzer.py:581-590 | with count and port fixed, a higher confidence never gives a lower beacon tier |
| VcnScoring.LongConnectionConfidenceRange | scripts/vcn_analyzer.py:592-605 | non-negative duration and bytes give a long-connection confidence in [0.08, 1] |
| VcnScoring.LongConnectionSeverityMonotone | scripts/vcn_analyzer.py:607-617 | with duration fixed, a higher confidence never gives a lower tier |
| VcnScoring.LongConnectionReportedNotLow | scripts/vcn_analyzer.py:607-617 | a confidence above the 0.4 report filter never gives `low` |
| VcnScoring.ExfiltrationConfidenceRange | scripts/vcn_analyzer.py:619-635 | non-negative inputs give an exfiltration confidence in [0, 1] |
| VcnScoring.ExfiltrationSeverityMonotone | scripts/vcn_analyzer.py:637-647 | with outbound bytes fixed, a higher confidence never gives a lower tier |
| VcnScoring.ExfiltrationReportedNotLow | scripts/vcn_analyzer.py:637-647 | a confidence above the 0.5 report filter never gives `low` |
| VcnScoring.PortScanConfidence | scripts/vcn_analyzer.py:486-489 | the scan confidence is at most 0.9, positive, and at least min(0.9, ports/100) |
| VcnScoring.PortScanSeverity | scripts/vcn_analyzer.py:490 | a port scan is never `critical` |
| VcnScoring.PortScanSeverityMonotone | scripts/vcn_analyzer.py:490 | a higher confidence never gives a lower scan tier |
| VcnScoring.DnsConfidence | scripts/vcn_analyzer.py:530-531 | the DNS confidence is at most 0.9, and above 0.2 whenever the rate passes 1000/h |
| VcnScoring.DnsSeverity | scripts/vcn_analyzer.py:532 | DNS tunnelling is `high` iff confidence > 0.7 and `medium` otherwise: never `low` or `critical` |
| VcnDetectors.SampleVarianceNonNegative | scripts/vcn_analyzer.py:285 | the sample (n-1) variance of two or more intervals is non-negative |
| VcnDetectors.ConsistencyRange | scripts/vcn_analyzer.py:287-291 | with a positive mean interval, 1/(1 + variance/mean^2) lies in (0, 1] |
| VcnDetectors.IntervalsShape | scripts/vcn_analyzer.py:275-278 | the intervals are the successive timestamp differences, one fewer than the flows |
| VcnDetectors.ComputeIntervals | scripts/vcn_analyzer.py:275-278 | the interval loop computes exactly the successive differences |
| VcnDetectors.SortedIntervals | scripts/vcn_analyzer.py:272-284 | after the timestamp sort every interval is non-negative, and the mean is 0 iff every interval is 0 |
| VcnDetectors.IntervalConsistency | scripts/vcn_analyzer.py:284-291 | non-negative intervals give a consistency in [0, 1], and 0 when all intervals are 0 |
| VcnDetectors.BeaconConsistency | scripts/vcn_analyzer.py:272-291 | a group's consistency lies in [0, 1] and is 0 when all its flows share one timestamp |
| VcnDetectors.MakeBeaconFields | scripts/vcn_analyzer.py:309-328 | a beacon carries its group's tuple and size, the mean interval and the consistency of its intervals |
| VcnDetectors.BeaconCandidate | scripts/vcn_analyzer.py:267-328 | the per-group body of the beacon loop yields exactly the group's beacon, if any |
| VcnDetectors.BeaconLoop | scripts/vcn_analyzer.py:267-328 | the loop over the groups, in first-appearance order, yields the specified beacon list |
| VcnDetectors.DetectBeacons | scripts/vcn_analyzer.py:256-331 | the detector returns exactly the specified, confidence-sorted beacon list |
| VcnDetectors.BeaconsOfGroupProperties | scripts/vcn_analyzer.py:268-309 | a group's beacon has the group's tuple, counts at least 10 flows, and has confidence in (0.3, 1] |
| VcnDetectors.BeaconsProperties | scripts/vcn_analyzer.py:258-331 | every beacon counts its (src, dst, port) group of ACCEPT flows (case-insensitive), which has at least 10 members; confidence in (0.3, 1]; the list is sorted by confidence, descending |
| VcnDetectors.UniformTimesNeverClash | scripts/vcn_analyzer.py:256-527 | flows whose timestamps are all aware or all naive never make a detector's sort, min or max raise |
| VcnDetectors.LongConnectionCandidate | scripts/vcn_analyzer.py:342-380 | the per-group body yields exactly the group's long connection, if any |
| VcnDetectors.DetectLongConnections | scripts/vcn_analyzer.py:333-382 | the detector returns exactly the specified, confidence-sorted list |
| VcnDetectors.LongConnectionsProperties | scripts/vcn_analyzer.py:336-382 | a reported connection sums the durations of its group of flows with duration > 0, that sum is at least 3600 s, confidence lies in (0.4, 1], severity is never `low`; sorted by confidence |
| VcnDetectors.SumSourceTotals | scripts/vcn_analyzer.py:405-424 | the per-destination loop computes the specified outbound, inbound, count and earliest/latest totals |
| VcnDetectors.TotalsBytesOut | scripts/vcn_analyzer.py:405-409 | the outbound total is the sum of the bytes over all of the source's destinations |
| VcnDetectors.FirstArgMax | scripts/vcn_analyzer.py:449-451 | Python's `max(key=...)`: an element of the list with the largest key, the first such |
| VcnDetectors.PrimaryTarget | scripts/vcn_analyzer.py:449-451 | the reported destination is a peer of the source that received at least as many bytes as every other peer |
| VcnDetectors.ExfiltrationOfSource | scripts/vcn_analyzer.py:397-467 | one internal source yields at most one event, and only one that passes every threshold |
| VcnDetectors.ExfiltrationCandidate | scripts/vcn_analyzer.py:397-467 | the per-source body yields exactly the source's event, if any |
| VcnDetectors.DetectDataExfiltration | scripts/vcn_analyzer.py:384-469 | the detector returns exactly the specified, confidence-sorted list |
| VcnDetectors.ExfiltrationsProperties | scripts/vcn_analyzer.py:426-469 | a reported event has outbound bytes >= 100 MiB, ratio out/max(in, 1) >= 10, confidence in (0.5, 1], never `low`; sorted by confidence |
| VcnDetectors.ExfiltrationPrimaryDestination | scripts/vcn_analyzer.py:449-453 | the event's destination is the peer that received the most bytes |
| VcnDetectors.NoExfiltrationBelowFloor | scripts/vcn_analyzer.py:405-427 | records of 1024 bytes each, fewer than 102 400 of them, never yield an exfiltration event |
| VcnDetectors.ScanTargets | scripts/vcn_analyzer.py:480-505 | the inner loop over one source's targets yields exactly the specified scans |
| VcnDetectors.PortScanLoop | scripts/vcn_analyzer.py:479-505 | the loop over the sources yields exactly the specified scans, in first-appearance order |
| VcnDetectors.DetectPortScanning | scripts/vcn_analyzer.py:471-507 | the detector returns exactly the specified, confidence-sorted list |
| VcnDetectors.PortScansProperties | scripts/vcn_analyzer.py:474-507 | a scan touches at least 10 distinct REJECT/DROP ports of one (src, dst), confidence lies in (0, 0.9], never `critical`; sorted by confidence |
| VcnDetectors.DnsCandidate | scripts/vcn_analyzer.py:519-545 | the per-source body yields exactly the source's DNS event, if any |
| VcnDetectors.DetectSuspiciousDns | scripts/vcn_analyzer.py:509-548 | the detector returns exactly the specified, confidence-sorted list |
| VcnDetectors.DnsTunnelsProperties | scripts/vcn_analyzer.py:511-548 | an event counts its source's port-53 flows, at least 50 of them, at a rate above 1000/h; confidence in (0.2, 0.9], severity `high` or `medium`; sorted by confidence |
| VcnSummary.Trunc | scripts/vcn_analyzer.py:694 | Python's `int()` on a float truncates toward zero |
| VcnSummary.Percent | scripts/vcn_analyzer.py:694 | `int(confidence * 100)` of a confidence in [0, 1] lies in [0, 100] |
| VcnSummary.CompileThreatSummary | scripts/vcn_analyzer.py:683-797 | the compiled list is exactly the specified, score-sorted threat list |
| VcnSummary.ThreatSummaryOrdered | scripts/vcn_analyzer.py:683-797 | the threat list is a permutation of the detector entries, one per candidate, sorted by score, descending, and stable among equal scores |
| VcnSummary.ThreatOrigins | scripts/vcn_analyzer.py:686-794 | every threat is the entry of one detector result of its own type |
| VcnSummary.ThreatScoresBounded | scripts/vcn_analyzer.py:686-794 | confidences in [0, 1] give every entry a score in [0, 100], equal to its `confidence` field |
| VcnSummary.TierCountsPartition | scripts/vcn_analyzer.py:666-675 | the four severity counts add up to the number of tallied threats |
| VcnSummary.CountTiers | scripts/vcn_analyzer.py:667 | the `Counter` loop counts each tier exactly |
| VcnSummary.CalculateThreatStats | scripts/vcn_analyzer.py:649-681 | the statistics loop computes exactly the specified statistics |
| VcnSummary.ThreatStatsTotals | scripts/vcn_analyzer.py:649-797 | `total_threats` is the sum of the five list lengths, the sum of the four tier counts and the length of the threat list; the range label is always "Last 1440 minutes" |
| VcnSummary.MaxRecords | scripts/vcn_analyzer.py:170 | the fetch limit `min(50000, max(1000, 30m))` lies in [1000, 50000] |
| VcnSummary.AnalyzeVcnFlows | scripts/vcn_analyzer.py:120-165 | the pipeline result is the specified analysis; it fails with "No VCN flow data found" iff there are no rows |
| VcnSummary.NoExfiltrationOnFetchedData | scripts/vcn_analyzer.py:113-426 | on at most 50 000 fetched rows the exfiltration count, statistic and threat entries are all zero |
| VcnSummary.ThreatScoresInRange | scripts/vcn_analyzer.py:120-165 | every threat of an analysis has a score in [0, 100] |
| VcnSummary.NullActionFails | scripts/vcn_analyzer.py:120-165 | a row that parses with a null `Action` makes the whole analysis fail with the `.upper()` error |
| VcnSummary.AnalysisFailures | scripts/vcn_analyzer.py:120-165 | the analysis fails iff there are no rows, a record has a null action, or a detector compares aware with naive timestamps; naive rows without null actions always give a result |
| FieldMapping.NormalizeIp | scripts/field_mapping.py:219-224 | a parseable address becomes its canonical dotted quad; any other text is kept as it is |
| FieldMapping.IpType | scripts/field_mapping.py:234-247 | one of loopback/private/multicast/public/unknown; `unknown` exactly when the address does not parse; `private` only for a private, non-loopback address |
| FieldMapping.LoopbackTypedFirst | scripts/field_mapping.py:234-247 | every loopback address is also private, yet 127.x.y.z is typed `loopback` and nothing else is |
| FieldMapping.ServiceName | scripts/field_mapping.py:254-262 | a mapped port gets its service name; every other value becomes `Port-{value}` |
| FieldMapping.PrivilegedIgnoresCase | scripts/field_mapping.py:274-277 | the privileged-user test gives the same answer for a name and its upper-case form |
| FieldMapping.DetectOsType | scripts/field_mapping.py:288-298 | one of windows/linux/macos/unknown; `windows` exactly when the lower-cased name contains win, dc, srv or wks |
| FieldMapping.DomainPatternShape | scripts/field_mapping.py:300-303 | a match has at least 2 characters, starts in [A-Z0-9-], ends in a Unicode decimal digit and holds only those; conversely [A-Z0-9-] characters before a final decimal digit match; on text below U+0660 the match is exactly [A-Z0-9-]+ followed by an ASCII digit |
| FieldMapping.ReplaceZ | scripts/field_mapping.py:315 | `replace('Z', '+00:00')` leaves no 'Z' and changes nothing in a text without one |
| FieldMapping.Apply | scripts/field_mapping.py:305-317 | `int` of a text fails exactly when `int()` of it fails; an epoch integer converts iff `fromtimestamp` accepts it; the IP and port classifiers never fail |
| FieldMapping.IndexOfType | scripts/field_mapping.py:346-358 | the `nodes` dict lookup: the first (and only) node of a type, or none |
| FieldMapping.MapNodes | scripts/field_mapping.py:328-358 | the mapping loop builds exactly the specified node list |
| FieldMapping.MapLogRecordToNodes | scripts/field_mapping.py:319-360 | the method returns exactly the specified nodes of the record for its log type |
| FieldMapping.UnknownLogTypeNoNodes | scripts/field_mapping.py:323-324 | a log type without mappings yields no nodes |
| FieldMapping.NodeStepShape | scripts/field_mapping.py:328-358 | a mapping keeps the existing nodes and appends at most one, only for a primary key whose value is present and whose type has no node yet |
| FieldMapping.NodeTypesDistinct | scripts/field_mapping.py:345-354 | a record yields at most one node per node type |
| FieldMapping.NodeCreation | scripts/field_mapping.py:345-354 | the node of a type exists iff some primary-key mapping for it yields a value, and its id is built from the first such value |
| FieldMapping.NodeProperty | scripts/field_mapping.py:329-358 | each property of a node holds the last value written to it; absent, `None` or `''` fields and raising transforms write nothing |
| FieldMapping.CreatorSource | scripts/field_mapping.py:345-354 | only a primary-key mapping whose field yields a value creates a node |
| FieldMapping.NoKeyNoNode | scripts/field_mapping.py:345-354 | a type with no primary-key mapping never gets a node |
| FieldMapping.NoFlowSessionNode | scripts/field_mapping.py:65-67 | a VCN flow record never yields a `FlowSession` node |
| FieldMapping.IpNodeKeyedBySource | scripts/field_mapping.py:45-50 | the one IP node of a VCN flow record is `ip:{Source IP}`, while its `address` holds the Destination IP |
| FieldMapping.IdsOfType | scripts/field_mapping.py:366-371 | the `node_map` entry of a type lists ids of nodes of that type, and is empty iff there are none |
| FieldMapping.IdsOfDistinctTypes | scripts/field_mapping.py:366-371 | with one node per type, each type has at most one id |
| FieldMapping.RelProps | scripts/field_mapping.py:386-390 | the relationship properties hold exactly the listed fields present in the record, with their values |
| FieldMapping.BuildRelProps | scripts/field_mapping.py:386-390 | the property loop builds exactly those properties |
| FieldMapping.Row | scripts/field_mapping.py:384-397 | one relationship from the source id to each target id |
| FieldMapping.Cross | scripts/field_mapping.py:383-397 | every relationship joins a listed source id to a listed target id with the mapping's type and properties |
| FieldMapping.CrossCount | scripts/field_mapping.py:383-397 | the nested loops emit |sources| x |targets| relationships |
| FieldMapping.MapLogRecordToRelationships | scripts/field_mapping.py:362-400 | the method returns exactly the specified relationships |
| FieldMapping.AddNodeId | scripts/field_mapping.py:366-371 | one step of building `node_map` keeps it equal to the ids per type of the nodes seen |
| FieldMapping.EmitRelationships | scripts/field_mapping.py:373-398 | the loop over the relationship mappings emits exactly the specified relationships |
| FieldMapping.RelationshipOrigin | scripts/field_mapping.py:373-398 | every relationship comes from a mapping whose two node types exist and whose two fields are present, and carries the properties of the fields present |
| FieldMapping.RelsOfCount | scripts/field_mapping.py:378-397 | a mapping emits |source ids| x |target ids| relationships when its node types and fields are present, and none otherwise |
| FieldMapping.SelfLoops | scripts/field_mapping.py:378-397 | with one node per type, a mapping that joins a type to itself yields only self-loops |
| FieldMapping.ConnectsToIsSelfLoop | scripts/field_mapping.py:135-140 | the `CONNECTS_TO` relationship of a VCN flow record joins its single IP node to itself |
| FieldMapping.FieldLogType | scripts/field_mapping.py:413-421 | the fallback ladder: both IP fields give vcn_flow, else `Principal Name` or `Event Name` audit, else `Process Name` or `Computer Name` security, else unknown, each exactly when its condition holds |
| FieldMapping.LogTypeOf | scripts/field_mapping.py:402-421 | a text `Log Source` is tested for "VCN Flow", then "Audit", then "Security" or "Windows"; a missing one, or one matching none of them, falls back to the field ladder; the answer fails exactly when `Log Source` is present but not text |
| FieldMapping.DetectedTypeDrivesMapping | scripts/field_mapping.py:323-324 | a record typed `unknown` yields no nodes |
| EnhancedLogIngestion.CountConnection | scripts/enhanced_log_ingestion.py:234-238 | the `topology` defaultdict after one more record is the topology of the records seen |
| EnhancedLogIngestion.CountProtocol | scripts/enhanced_log_ingestion.py:228-232 | the protocol table after one more record is that of the records seen |
| EnhancedLogIngestion.CountAction | scripts/enhanced_log_ingestion.py:211-226 | exactly the flows whose action is `REJECT` (case-sensitive) are blocked and raise a `blocked_connection` event; all others, `DROP` included, are allowed |
| EnhancedLogIngestion.ProcessVcnFlowRecords | scripts/enhanced_log_ingestion.py:184-249 | the loop returns exactly the specified flows, events, topology and counters |
| EnhancedLogIngestion.ProtocolsAllTcp | scripts/enhanced_log_ingestion.py:199-232 | the protocol table has the single entry `TCP`, counting every record |
| EnhancedLogIngestion.VcnCounts | scripts/enhanced_log_ingestion.py:208-232 | `total_flows` = `blocked_flows` + `allowed_flows` = number of records; blocked flows = blocked events; `protocols['TCP']` = `total_flows` |
| EnhancedLogIngestion.TopologyAt | scripts/enhanced_log_ingestion.py:234-238 | a `src->dst` key has an entry iff some record has it; with n such records the entry holds n connections, 1024 n bytes and n packets |
| EnhancedLogIngestion.Topology | scripts/enhanced_log_ingestion.py:234-238 | the topology keys are the connection keys seen, each counting its group of records |
| EnhancedLogIngestion.CountCountry | scripts/enhanced_log_ingestion.py:283 | `geography[country] += 1` keeps the table equal to the per-country tally of the requests seen |
| EnhancedLogIngestion.RecordBlocked | scripts/enhanced_log_ingestion.py:285-287 | a request joins `blocked_requests` iff its upper-cased action is BLOCK, BLOCKED or DENY |
| EnhancedLogIngestion.RecordAttack | scripts/enhanced_log_ingestion.py:289-301 | a request with an attack type adds one attack event and one threat entry |
| EnhancedLogIngestion.ProcessWafRecords | scripts/enhanced_log_ingestion.py:251-313 | the loop returns exactly the specified attacks, blocked requests, threats, geography and counters |
| EnhancedLogIngestion.GeographySum | scripts/enhanced_log_ingestion.py:282-283 | `total_requests` is the sum of the geography counts over the countries seen |
| EnhancedLogIngestion.WafSubsets | scripts/enhanced_log_ingestion.py:282-291 | blocked requests and attack attempts never exceed total requests |
| EnhancedLogIngestion.AttackSeverity | scripts/enhanced_log_ingestion.py:369-383 | `high` iff the lower-cased type contains a high-list entry; `medium` iff not, but it contains a medium-list entry; `low` otherwise |
| EnhancedLogIngestion.AttackSeverityIgnoresCase | scripts/enhanced_log_ingestion.py:374 | the rating of a type does not depend on its case |
| EnhancedLogIngestion.CountError | scripts/enhanced_log_ingestion.py:345-346 | `errors[f"{code}xx"] += 1` keeps the table equal to the tally of the failing requests seen |
| EnhancedLogIngestion.ScanLbRecords | scripts/enhanced_log_ingestion.py:324-350 | the loop collects exactly the convertible requests, their processing times and the error table |
| EnhancedLogIngestion.ProcessLbRecords | scripts/enhanced_log_ingestion.py:315-367 | the method returns exactly the specified requests, performance, errors and statistics |
| EnhancedLogIngestion.LbErrorRate | scripts/enhanced_log_ingestion.py:344-360 | `error_rate` is 100 x (responses >= 400)/total, 0 without requests, and lies in [0, 100] |
| EnhancedLogIngestion.PerformanceBounds | scripts/enhanced_log_ingestion.py:318-356 | with requests, min <= mean <= max response time; without, the mean is 0 and the minimum infinite |
| EnhancedLogIngestion.LbRequestsOrigin | scripts/enhanced_log_ingestion.py:324-350 | at most one request per row, and one per row when every row converts |
| EnhancedLogIngestion.FirstHit | scripts/enhanced_log_ingestion.py:90-117 | the first source whose query succeeded with results; a miss means every query answered with no usable result |
| EnhancedLogIngestion.SearchSources | scripts/enhanced_log_ingestion.py:90-117 | the source loop with its early return finds exactly that source |
| EnhancedLogIngestion.IngestVcnFlowLogs | scripts/enhanced_log_ingestion.py:55-80 | VCN ingestion succeeds iff the query answered successfully, and then reports its processed records |
| EnhancedLogIngestion.IngestWafLogs | scripts/enhanced_log_ingestion.py:82-133 | WAF ingestion fails only on an exception; a hit names one of the WAF sources with records |
| EnhancedLogIngestion.IngestLoadBalancerLogs | scripts/enhanced_log_ingestion.py:135-182 | load-balancer ingestion fails only on an exception; a hit names one of the LB sources with records |
| EnhancedLogIngestion.IngestAllSourcesSuccess | scripts/enhanced_log_ingestion.py:385-409 | the roll-up succeeds iff at least one source succeeded, so it fails only when the VCN query fails and both other searches raise |
| GraphExtractor.FlowRecordLimit | scripts/graph_extractor.py:38 | the flow query limit `min(50000, max(1000, 50m))` lies in [1000, 50000] |
| GraphExtractor.AuditRecordLimit | scripts/graph_extractor.py:101 | the audit query limit `min(10000, max(500, 10m))` lies in [500, 10000] |
| GraphExtractor.FirstTime | scripts/graph_extractor.py:55-75 | an address has a first-seen time iff some row with both addresses mentions it |
| GraphExtractor.FirstTimeIsFirst | scripts/graph_extractor.py:55-75 | that time is the one of the earliest row mentioning the address |
| GraphExtractor.Ensure | scripts/graph_extractor.py:55-75 | creating a node on first sight adds it and leaves every existing node unchanged |
| GraphExtractor.FlowNodeAt | scripts/graph_extractor.py:49-83 | after the flow pass an address has a node iff some row mentions it; `connections` counts the mentions (twice for src == dst), bytes are 1024 per mention, and `firstSeen` = `lastSeen` = the time of the first mention, never updated |
| GraphExtractor.AuditNodesExtends | scripts/graph_extractor.py:111-131 | the audit pass keeps every existing node's counts and any principal already set; the nodes it adds have 0 connections and 0 bytes |
| GraphExtractor.EdgesFor | scripts/graph_extractor.py:134-155 | one edge per key |
| GraphExtractor.EdgeOfMeasures | scripts/graph_extractor.py:134-155 | an edge's id is `src->dst`, its weight is the row count of its pair (at least 1), its bytes 1024 x weight, its packets = weight, its protocols {TCP} |
| GraphExtractor.EdgeOfEnds | scripts/graph_extractor.py:53-86 | both ends of every edge are addresses with a node |
| GraphExtractor.AllEdgesFacts | scripts/graph_extractor.py:86-155 | one edge per distinct `src->dst`, in first-seen order, each with the measures above |
| GraphExtractor.ValuesInAt | scripts/graph_extractor.py:158 | `list(nodes.values())` lists the nodes in key insertion order |
| GraphExtractor.AllNodesFacts | scripts/graph_extractor.py:49-131 | every node holds 1024 bytes per connection, and every address at an edge end has a node |
| GraphExtractor.FullListFacts | scripts/graph_extractor.py:155-158 | before the cuts every edge joins two listed nodes |
| GraphExtractor.SumOfBalanced | scripts/graph_extractor.py:174-175 | over such nodes total bytes are 1024 x total connections |
| GraphExtractor.NodeCutProperties | scripts/graph_extractor.py:161-166 | the node cut keeps at most `max_nodes` nodes of the input (exactly that many when it cuts), sorted by connections, none left out having more connections than one kept |
| GraphExtractor.EdgeCutProperties | scripts/graph_extractor.py:169-171 | the edge cut keeps at most `max_edges` edges of the input, the heaviest ones |
| GraphExtractor.LimitedProperties | scripts/graph_extractor.py:161-171 | after both cuts every returned edge joins two returned nodes; within both limits nothing changes |
| GraphExtractor.ExtractedGraphProperties | scripts/graph_extractor.py:157-188 | the returned graph is the cut of the full lists; every edge's ends are returned node ids; `nodeCount`/`edgeCount` are the list lengths; `totalBytes` = 1024 x `totalConnections` over the returned nodes |
| GraphExtractor.AddFlowRow | scripts/graph_extractor.py:49-83 | the node updates of one flow row |
| GraphExtractor.AppendEdgeLog | scripts/graph_extractor.py:85-98 | `edge_logs[key].append(...)` keeps the logs per pair and the key order equal to the rows seen |
| GraphExtractor.AddAuditRow | scripts/graph_extractor.py:112-131 | the node updates of one audit row |
| GraphExtractor.FlowPass | scripts/graph_extractor.py:48-98 | the flow loop builds exactly the specified node table and edge logs |
| GraphExtractor.AuditPass | scripts/graph_extractor.py:111-131 | the audit loop builds exactly the specified node table |
| GraphExtractor.EdgePass | scripts/graph_extractor.py:134-155 | the loop over `edge_logs` fails iff some key's `split('->')` does not give two parts (an address holds "->"); otherwise it builds exactly the specified edges |
| GraphExtractor.KeysSplit | scripts/graph_extractor.py:53-135 | a key of `edge_logs` fails to split iff some row with both addresses has "->" in one of them |
| GraphExtractor.NodeValues | scripts/graph_extractor.py:158 | the node list in insertion order |
| GraphExtractor.ExtractNetworkGraph | scripts/graph_extractor.py:30-196 | the method answers the except's failure iff some flow address holds "->" (the unpacking of `split('->')` raises), and otherwise exactly the specified graph |
| GraphExtractor.IpFlowRecordLimit | scripts/graph_extractor.py:204 | the per-address flow limit lies in [100, 5000] |
| GraphExtractor.IpOtherRecordLimit | scripts/graph_extractor.py:233 | the per-address audit/LB/WAF limit lies in [50, 1000] |
| GraphExtractor.IpLogsOrder | scripts/graph_extractor.py:198-316 | every row of the four queries appears once; `totalLogs` is their total; the list runs from latest to earliest time, and entries with the same time keep query order |
| GraphExtractor.CollectedKinds | scripts/graph_extractor.py:214-305 | each entry comes from its own query; a flow entry's role is `Source` iff its source address is the one asked for |
| GraphExtractor.IpLogsSources | scripts/graph_extractor.py:315 | a source is listed iff its query returned rows |
| GraphExtractor.IpLogsRoles | scripts/graph_extractor.py:229 | every flow entry's role is `Source` iff its source field is the address |
| GraphExtractor.GetIpLogs | scripts/graph_extractor.py:198-316 | the four append loops and the sort give exactly the specified view |
| GraphExtractor.Truncate | scripts/graph_extractor.py:330 | `int()` on a float truncates toward zero |
| GraphExtractor.SafeInt | scripts/graph_extractor.py:326-335 | ints are kept, bools are 0/1, a float is truncated toward zero (`int(x)`: within 1 of `x`, never past it away from zero); a text that is not all digit-like gives 0, an all-ASCII-digit text reads in decimal, and no text gives a negative value |
| GraphExtractor.SafeIntText | scripts/graph_extractor.py:331-332 | the digits of n read back as n, while "-n" gives 0 |
| GraphExtractor.DigitTextRead | scripts/graph_extractor.py:331-332 | `int()` of a text `isdigit()` accepts is never negative, and reads an ASCII-digit text in decimal |
| GraphExtractor.SafeIntSuperscript | scripts/graph_extractor.py:331-335 | "²" passes `isdigit()` but `int()` rejects it, so the except gives 0 |
| RitaEnhanced.FirstPresent | scripts/rita_enhanced.py:618-623 | the index of the first listed field present and truthy, every earlier one absent or falsy |
| RitaEnhanced.FieldValue | scripts/rita_enhanced.py:618-623 | `_get_field_value` is None iff no listed field is present and truthy; otherwise the text of the first such field, never empty |
| RitaEnhanced.FieldDetectionIgnoresCase | scripts/rita_enhanced.py:481-500 | the IP/application/user field detection gives the same answer when every field name is upper-cased |
| RitaEnhanced.GetIpFieldNames | scripts/rita_enhanced.py:553-559 | the loop keeps exactly the IP-like field names, in their order |
| RitaEnhanced.IpFieldNamesProperties | scripts/rita_enhanced.py:553-559 | a field is listed iff it is one of the sample's fields mentioning ip, addr or host; none mentions port; a non-empty list implies `_has_ip_fields` |
| RitaEnhanced.IpFieldNameMatches | scripts/rita_enhanced.py:481-486 | every listed IP field name matches a `_has_ip_fields` pattern |
| RitaEnhanced.RecordLimit | scripts/rita_enhanced.py:519 | the record budget lies in [500, 50000] (20 per minute in range) for VCN sources and in [200, 10000] (10 per minute) otherwise |
| RitaEnhanced.PatternApplication | scripts/rita_enhanced.py:634-636 | the first application pattern, in table order, listing the port; every listed port is at least 80 |
| RitaEnhanced.IdentifyApplication | scripts/rita_enhanced.py:625-659 | an explicit application field wins; otherwise the first matching pattern key, upper-cased with `_APP` |
| RitaEnhanced.IdentifyApplicationByPattern | scripts/rita_enhanced.py:634-644 | ports 80 and 8080 name `HTTP_APP`, 443 `HTTPS_APP`, 3000 `WEB_APP_APP`: the table shadows the HTTP/HTTPS server branches |
| RitaEnhanced.IdentifyApplicationFallback | scripts/rita_enhanced.py:638-659 | outside the table, 22 and 53 give the SSH/DNS client or server name by direction; every other port is named by address class and port range |
| RitaEnhanced.AppRiskScore | scripts/rita_enhanced.py:661-684 | the risk lies in [0, 1]; it is 0 iff no rule fires; the high-port, few-source and unknown rules together reach 1; a busy high port from few sources scores at least 0.5 |
| RitaEnhanced.ParseTimestamp | scripts/rita_enhanced.py:698-713 | a falsy value gives no time; a non-zero integer gives a time iff `fromtimestamp` accepts it, milliseconds above 10^12 and seconds otherwise; a non-empty text gives its ISO reading with Z as +00:00 |
| RitaEnhanced.BytesOf | scripts/rita_enhanced.py:590 | the byte count raises iff it is a text that is not an integer; absent gives 0, an integer itself |
| RitaEnhanced.ExtractApplicationInfo | scripts/rita_enhanced.py:561-592 | a record is skipped iff source, destination or an integer port is missing; it raises only on an unreadable byte count; otherwise its fields and both application names are as read |
| RitaEnhanced.ExtractIpCommunicationInfo | scripts/rita_enhanced.py:594-616 | a record is skipped iff an address is missing; it raises iff the byte count is unreadable; the action defaults to UNKNOWN and a missing port to 0 |
| RitaEnhanced.FirstRaise | scripts/rita_enhanced.py:233-265 | the position of the first record whose extraction raises, which ends that source's loop; no earlier record raises |
| RitaEnhanced.EventsOrigin | scripts/rita_enhanced.py:218-265 | every accumulated event comes from an admitted source, before its first raising record, and its summary is kept |
| RitaEnhanced.Accumulate | scripts/rita_enhanced.py:218-265 | the source loop leaves one bucket per key, in first-seen order, each the fold of its events |
| RitaEnhanced.AccumulateSource | scripts/rita_enhanced.py:233-262 | one source's records up to the first raise are folded into the buckets |
| RitaEnhanced.AbsorbRecord | scripts/rita_enhanced.py:234-262 | one non-raising record's kept event is folded into its bucket |
| RitaEnhanced.AnalyzeApplicationCommunications | scripts/rita_enhanced.py:200-300 | the method returns the application communications of the events its sources yield |
| RitaEnhanced.EmitApplications | scripts/rita_enhanced.py:268-296 | one communication per bucket with two connections or more, in bucket order |
| RitaEnhanced.AppFoldCounts | scripts/rita_enhanced.py:239-261 | a bucket's connections are its event count, its bytes their sum, its samples the first five, its first and last seen the earliest and latest time |
| RitaEnhanced.AppFoldSets | scripts/rita_enhanced.py:242-245 | a bucket's log sources and addresses are those of its events |
| RitaEnhanced.AppEmitProperties | scripts/rita_enhanced.py:268-296 | a bucket is reported iff it has two or more connections, with its own key, counts, bytes, first five samples, address sets and a risk in [0, 1] |
| RitaEnhanced.AppEmitTimes | scripts/rita_enhanced.py:248-253 | first and last seen bound every time of the bucket |
| RitaEnhanced.ApplicationsProperties | scripts/rita_enhanced.py:268-300 | the result is sorted by (risk, connections) descending; each entry describes its bucket; every bucket with two or more connections is reported |
| RitaEnhanced.AppEventsOrigin | scripts/rita_enhanced.py:218-237 | each application event is the extraction of a record of a source with IP or application fields, before that source's first raise |
| RitaEnhanced.AnalyzeIpCommunications | scripts/rita_enhanced.py:302-405 | the method returns the IP communications of the events its sources yield |
| RitaEnhanced.EmitIpCommunications | scripts/rita_enhanced.py:374-401 | one communication per address-pair bucket, in bucket order |
| RitaEnhanced.IpFoldCounts | scripts/rita_enhanced.py:341-368 | a bucket's connections, bytes, actions in order, first ten samples and first/last seen are those of its events |
| RitaEnhanced.IpFoldSets | scripts/rita_enhanced.py:344-346 | a bucket's log sources and ports are those of its events |
| RitaEnhanced.IndicatorUnionFacts | scripts/rita_enhanced.py:349-353 | `blocked_connection` is present iff some action is REJECT, DROP or DENY, `high_port` iff some port is above 1024, and nothing else |
| RitaEnhanced.IpEmitProperties | scripts/rita_enhanced.py:376-400 | a communication carries its own pair, counts, actions, ten samples, ports and indicators of its bucket, at most one direction flag, and geographic data iff the destination is not internal |
| RitaEnhanced.IpEmitTimes | scripts/rita_enhanced.py:355-360 | first and last seen bound every time of the bucket |
| RitaEnhanced.IpCommunicationsShape | scripts/rita_enhanced.py:374-405 | one communication per address pair seen, sorted by (indicator count, connections) descending |
| RitaEnhanced.IpCommunicationsMembers | scripts/rita_enhanced.py:376-401 | each communication is the conversion of its own pair's bucket, whose every record has those addresses |
| RitaEnhanced.IpCommunicationsDistinctEnds | scripts/rita_enhanced.py:338 | no reported communication has the same source and destination |
| RitaEnhanced.IpKeyTextRoundTrip | scripts/rita_enhanced.py:339-377 | the text key splits back into its two addresses when the source has no ':' |
| RitaEnhanced.IpKeyTextIpv6Source | scripts/rita_enhanced.py:339-377 | an IPv6 source is split wrongly: fe80::1 to 10.0.0.5 comes back as fe80 to :1:10.0.0.5 |
| RitaEnhanced.AppKeyTextRoundTrip | scripts/rita_enhanced.py:237-273 | the text key splits back into both names and the port when the names have no ':' |
| RitaEnhanced.AppKeyTextColonName | scripts/rita_enhanced.py:237-286 | an application name "svc:v1" leaves a third piece `int()` rejects outside any try block |
| RitaEnhanced.AppKeyTextColonPieces | scripts/rita_enhanced.py:273 | a ':' in the source name is taken for the first separator |
| RitaEnhanced.MatchingRecords | scripts/rita_enhanced.py:465-471 | the records of one source whose destination port matches, annotated, in order |
| RitaEnhanced.GetLogsForSelection | scripts/rita_enhanced.py:407-478 | the method returns the logs of the selection over the sources' query results |
| RitaEnhanced.CollectLogsMember | scripts/rita_enhanced.py:443-472 | a gathered log is one some source contributed |
| RitaEnhanced.PortOfAnnotated | scripts/rita_enhanced.py:468-470 | annotating a record leaves the port it is matched on unchanged |
| RitaEnhanced.SelectedLogsAnnotated | scripts/rita_enhanced.py:407-474 | every gathered log carries the selection type, value and its source's name; an unknown selection type gathers nothing |
| RitaEnhanced.IpSelectionOfMember | scripts/rita_enhanced.py:416-443 | an 'ip' selection takes exactly the annotated records of a queried source |
| RitaEnhanced.SelectedLogsForIp | scripts/rita_enhanced.py:414-443 | an 'ip' selection gathers exactly the annotated records of the sources it queries |
| RitaEnhanced.AppSelectionOfMember | scripts/rita_enhanced.py:453-472 | an 'application' selection takes exactly the annotated records of a source whose port matches |
| RitaEnhanced.SelectedLogsForApplication | scripts/rita_enhanced.py:447-472 | an 'application' selection a:b:p gathers exactly the annotated records, of any source, whose destination port reads p |
| RitaEnhanced.SelectedLogsMatchPort | scripts/rita_enhanced.py:715-723 | every log an 'application' selection returns matches its port |
| RitaEnhanced.SelectionKeepsNewest | scripts/rita_enhanced.py:476-478 | for uniform times, exactly min(n, 200) logs are kept, no log left out is newer than a log kept, and for each time the kept logs are the first of that time in gathering order (the sort is stable) |
| RitaEnhanced.SortedSelectionProperties | scripts/rita_enhanced.py:476-478 | exactly min(n, 200) logs, a sub-multiset of the gathered ones (all of them under 200), newest first; the sort raises iff there are two or more logs whose times are neither all text nor all integers (mixed kinds, or two null times) |
| RitaSimple.AppType | scripts/rita_simple.py:247-264 | the six named ports get their server names; other ports below 1024 are system services and the rest application services, by number |
| RitaSimple.AppTypeColonFree | scripts/rita_simple.py:62 | an application type never contains ':', so it ends up whole in the last key piece |
| RitaSimple.AppTypeNumbered | scripts/rita_simple.py:261-264 | the port of an unnamed service can be read back from its type |
| RitaSimple.RiskScoreProperties | scripts/rita_simple.py:266-290 | the score lies in [0, 1] and is the plain sum of its three terms; a blocked action adds 0.4; a port `int()` rejects adds nothing; 0 iff no term applies |
| RitaSimple.AnalyzeApplications | scripts/rita_simple.py:20-109 | the method returns the application summaries of the query result |
| RitaSimple.AppFold | scripts/rita_simple.py:64-71 | a bucket's connections are its record count, its actions its records' actions in order, its samples its first three records |
| RitaSimple.AppKeySplit | scripts/rita_simple.py:62-79 | four ':'-free pieces joined by ':' split back into exactly those pieces |
| RitaSimple.AppKeyPieces | scripts/rita_simple.py:62-78 | every key splits into at least four pieces, so the length test never drops an entry |
| RitaSimple.AppKeyRecovers | scripts/rita_simple.py:62-79 | for dotted-quad addresses and an integer port the key splits back into the addresses, port text and type |
| RitaSimple.AppEntrySingle | scripts/rita_simple.py:75-98 | each distinct key yields exactly one entry |
| RitaSimple.TopApplicationsShape | scripts/rita_simple.py:100-105 | the top list is sorted by risk descending, drawn from the entries, and holds min(n, 500) of them |
| RitaSimple.ApplicationsShape | scripts/rita_simple.py:34-109 | a failed query, a counted record with a port `int()` rejects, or a key whose digit-like port `int()` rejects gives []; otherwise one entry per distinct key, highest risk first, at most 500 |
| RitaSimple.KeyPortNeverRaises | scripts/rita_simple.py:75-98 | a key built from colon-free addresses and a parsed port never makes `int(port)` raise |
| RitaSimple.AppEntryBounds | scripts/rita_simple.py:82-97 | an entry's count is its bucket's, its bytes 1024 per connection, its samples at most two, its risk in [0, 1] |
| RitaSimple.AppEntryOrigin | scripts/rita_simple.py:75-98 | each entry comes from one key seen and the fold of that key's records |
| RitaSimple.ApplicationsMembers | scripts/rita_simple.py:53-105 | every reported application stands for one bucket of counted records, with 1024 bytes per connection and a risk in [0, 1] |
| RitaSimple.AnalyzeCommunications | scripts/rita_simple.py:111-208 | the method returns the communication summaries of the query result |
| RitaSimple.CommFold | scripts/rita_simple.py:151-157 | a bucket's connections, distinct ports, actions in order and first three samples are those of its records |
| RitaSimple.CommKeyPieces | scripts/rita_simple.py:149-162 | a communication key always splits into two halves |
| RitaSimple.CommKeyRecovers | scripts/rita_simple.py:149-162 | for a source address without ':' the halves are the two addresses |
| RitaSimple.CommEntrySingle | scripts/rita_simple.py:161-197 | each distinct key yields exactly one entry |
| RitaSimple.TopCommunicationsShape | scripts/rita_simple.py:199-204 | the top list is sorted by indicator count descending, drawn from the entries, and holds min(n, 300) of them |
| RitaSimple.CommunicationsShape | scripts/rita_simple.py:125-208 | a failed query or a counted record with a port `int()` rejects gives []; otherwise one entry per distinct address pair, at most 300 |
| RitaSimple.CommEntryBounds | scripts/rita_simple.py:177-196 | at most 20 distinct ports and 5 distinct actions of the bucket, at most two samples, 1024 bytes per connection, at most one direction flag |
| RitaSimple.CommBucketCounted | scripts/rita_simple.py:148 | every counted record has different source and destination addresses |
| RitaSimple.CommEntryOrigin | scripts/rita_simple.py:161-197 | each entry comes from one key seen and the fold of that key's records |
| RitaSimple.CommunicationsMembers | scripts/rita_simple.py:142-204 | every reported communication stands for one bucket of counted records with distinct ends, within the port, action and sample limits |
| RitaSimple.GetLogsForSelection | scripts/rita_simple.py:210-245 | the method returns the annotated logs of the query result |
| RitaSimple.SelectionLogsProperties | scripts/rita_simple.py:230-245 | a failed query gives []; otherwise one log per record, in order, with the source and selection written in and every other field unchanged |
| GraphAnalyzer.NodeRisk | scripts/graph_analyzer.py:542-580 | every node risk lies in [0.2, 0.9] |
| GraphAnalyzer.NodeRiskCases | scripts/graph_analyzer.py:542-580 | the per-type score: a missing `is_internal`/`is_standard` counts as set, a service account wins over privileged, an unknown type scores 0.3, and the case of the type does not matter |
| GraphAnalyzer.BytesValue | scripts/graph_analyzer.py:589 | the byte value is the relationship's `bytes`, else the record's `Bytes`, else its `bytes`, else 1 |
| GraphAnalyzer.RelationshipWeightProperties | scripts/graph_analyzer.py:582-603 | only CONNECTS_TO is weighted, by kilobytes of the byte value; an unreadable value weighs 1.0 and a missing one 1/1024 |
| GraphAnalyzer.ServiceNameRoundTrip | scripts/graph_analyzer.py:649-656 | an unmapped port is named `Port-n`; a name starts with `Port-` iff the port is unmapped; the name gives the port back |
| GraphAnalyzer.ServiceNamesDistinct | scripts/graph_analyzer.py:649-656 | two different ports never share a service name |
| GraphAnalyzer.IndexOfId | scripts/graph_analyzer.py:490-492 | the `all_nodes` lookup finds the position of a node with the id, or says none exists |
| GraphAnalyzer.CreateGraphElements | scripts/graph_analyzer.py:470-540 | over the records whose timestamp parses, the nodes are the merge of every record's mapped nodes stamped with its time, and the relationships every record's converted relationships, in order |
| GraphAnalyzer.RelationshipWeight | scripts/graph_analyzer.py:582-603 | only `CONNECTS_TO` is weighted, by kilobytes of the byte value found; every other type weighs 1 |
| GraphAnalyzer.ServiceName | scripts/graph_analyzer.py:649-656 | a known port gives its service name, any other port `Port-` followed by its number |
| GraphAnalyzer.ProcessRecord | scripts/graph_analyzer.py:484-530 | one record merges its nodes, then appends its relationships |
| GraphAnalyzer.MergeRecordNodes | scripts/graph_analyzer.py:489-513 | the node loop of one record merges each node in turn |
| GraphAnalyzer.MergeNode | scripts/graph_analyzer.py:490-513 | a new id opens a node; a known one moves its `last_seen` forward |
| GraphAnalyzer.AppendSecured | scripts/graph_analyzer.py:519-530 | each mapped relationship is appended, converted with its weight and the record's time |
| GraphAnalyzer.FirstIndex | scripts/graph_analyzer.py:492-507 | the position of the first sighting of an id, none before it |
| GraphAnalyzer.LatestTime | scripts/graph_analyzer.py:509-512 | the latest time an id was sighted: an upper bound attained by some sighting |
| GraphAnalyzer.MergeNewSummarises | scripts/graph_analyzer.py:492-507 | a sighting of a new id appends its node and keeps the others' description |
| GraphAnalyzer.MergeKnownSummarises | scripts/graph_analyzer.py:508-513 | a sighting of a known id keeps every node described by the sightings so far |
| GraphAnalyzer.MergedProperties | scripts/graph_analyzer.py:472-540 | one node per sighted id and no other, in first-sighting order, each taking its fields from the first sighting, with `lastSeen` the latest time and never before `firstSeen` |
| GraphAnalyzer.MergeStepMonotone | scripts/graph_analyzer.py:508-513 | a merge step keeps every node it finds except that `lastSeen` can only move forward |
| GraphAnalyzer.MergedMonotone | scripts/graph_analyzer.py:477-537 | over a longer run of records a node keeps its place and fields and its `lastSeen` never decreases |
| GraphAnalyzer.SightingsCover | scripts/graph_analyzer.py:485-507 | every node mapped from a record is among the sightings |
| GraphAnalyzer.GraphRelationshipsOrigin | scripts/graph_analyzer.py:516-530 | every relationship comes from one mapped relationship of one record |
| GraphAnalyzer.MappedIdMerged | scripts/graph_analyzer.py:485-507 | every id mapped from a record becomes a graph node |
| GraphAnalyzer.RelatedIdsMapped | scripts/graph_analyzer.py:516 | the field mapper relates only ids of nodes it mapped from the same record |
| GraphAnalyzer.GraphElementsClosed | scripts/graph_analyzer.py:470-540 | no relationship dangles: both ends are graph nodes, and it carries its record's weight and timestamp |
| GraphAnalyzer.GetSubgraph | scripts/graph_analyzer.py:664-700 | an absent centre gives the empty graph; otherwise the subgraph induced by the nodes within `depth` steps |
| GraphAnalyzer.ImageOf | scripts/graph_analyzer.py:674-677 | the next level is the union of the neighbours of the current one |
| GraphAnalyzer.LevelWalks | scripts/graph_analyzer.py:672-679 | level k holds exactly the ends of the k-step walks from the centre |
| GraphAnalyzer.BallWalks | scripts/graph_analyzer.py:669-679 | the nodes in range are exactly those reachable from the centre in at most `depth` steps |
| GraphAnalyzer.SubgraphNodes | scripts/graph_analyzer.py:682-691 | the subgraph's nodes are the graph's nodes reachable in at most `depth` steps |
| GraphAnalyzer.SubgraphEdges | scripts/graph_analyzer.py:682-698 | the subgraph's edges are the graph's edges with both ends in range |
| GraphAnalyzer.SubgraphHasCenter | scripts/graph_analyzer.py:669-670 | a present centre is in its own subgraph, whatever the depth |
| RitaAnalyzer.Ladder | scripts/rita_analyzer.py:340-360 | a three-threshold ladder gives the highest tier the value reaches, and every lower tier is reached too |
| RitaAnalyzer.LadderMonotone | scripts/rita_analyzer.py:340-360 | a larger value never gets a lower tier on the same ladder |
| RitaAnalyzer.SeverityFromScore | scripts/rita_analyzer.py:340-349 | 90, 70 and 50 are the floors of critical, high and medium |
| RitaAnalyzer.SeverityFromDuration | scripts/rita_analyzer.py:351-360 | 24, 6 and 2 hours are the floors of critical, high and medium |
| RitaAnalyzer.SeverityLaddersMonotone | scripts/rita_analyzer.py:340-360 | neither ladder lowers the tier as its input rises |
| RitaAnalyzer.SeverityFromScoreBands | scripts/rita_analyzer.py:340-349 | each score tier holds exactly its half-open band: critical from 90, high [70, 90), medium [50, 70), low below 50 |
| RitaAnalyzer.SeverityFromDurationBands | scripts/rita_analyzer.py:351-360 | each duration tier holds exactly its band: critical from 24 h, high [6, 24), medium [2, 6), low below 2 |
| RitaAnalyzer.LongConnectionScore | scripts/rita_analyzer.py:263-268 | the score is at most 100, not negative for non-negative inputs, and 100 iff at least 24 hours and 100 MiB |
| RitaAnalyzer.LongConnectionScoreMonotone | scripts/rita_analyzer.py:263-268 | a longer or larger connection never scores lower |
| RitaAnalyzer.EstimateDuration | scripts/rita_analyzer.py:270-283 | 0 for no connections; otherwise at least 0.1, and at least 1 when the average transfer exceeds 1 MiB |
| RitaAnalyzer.EstimateDurationPerConnection | scripts/rita_analyzer.py:280-283 | past the floors each connection adds half an hour (large transfers) or six minutes (small) |
| RitaAnalyzer.EstimateDurationMonotone | scripts/rita_analyzer.py:270-283 | with the average transfer fixed, more connections never estimate a shorter duration |
| RitaAnalyzer.SampleVariance | scripts/rita_analyzer.py:251 | the sample variance is never negative |
| RitaAnalyzer.BeaconScore | scripts/rita_analyzer.py:235-238 | fewer than three buckets score 0 |
| RitaAnalyzer.BeaconScoreBounds | scripts/rita_analyzer.py:235-261 | for non-negative counts the beacon score lies in [0, 100] |
| RitaAnalyzer.ConstantCountsVariance | scripts/rita_analyzer.py:241-256 | buckets of equal counts have that count as mean, variance 0 and total n times it |
| RitaAnalyzer.RegularBeaconScore | scripts/rita_analyzer.py:243-259 | a perfectly regular beacon earns full jitter and consistency scores: 80 plus a fifth of the frequency score |
| RitaAnalyzer.ThreatsOf | scripts/rita_analyzer.py:201-208 | a successful analysis contributes its threats, a failed one none |
| RitaAnalyzer.Combined | scripts/rita_analyzer.py:198-208 | the combined list holds exactly the threats of the successful analyses, all of them |
| RitaAnalyzer.ThreatAnalyticsSummary | scripts/rita_analyzer.py:188-230 | the returned threats are a permutation of the combined ones, sorted by score descending; the total counts them; the period is echoed |
| RitaAnalyzer.SummaryStable | scripts/rita_analyzer.py:226 | threats with equal scores keep the order the analyses reported them in |
| RitaAnalyzer.SummaryCountsDescribeThreats | scripts/rita_analyzer.py:211-226 | any count taken before sorting is the same count over the returned list |
| RitaAnalyzer.TierCountsSum | scripts/rita_analyzer.py:213-216 | threats whose severity is a tier name are counted in exactly one tier |
| RitaAnalyzer.KindCountsBounded | scripts/rita_analyzer.py:217-220 | the four type counts never add up to more than the total |
| RitaAnalyzer.SummaryTiersAddUp | scripts/rita_analyzer.py:211-220 | when every threat carries a tier name, the four tier counts add up to `total_threats`; the type counts never exceed it |
| RitaAnalyzer.TimeRangeLabelWords | scripts/rita_analyzer.py:221 | the label is "Last", the number and the unit; the number parses to `minutes // 60` hours from 60 minutes on, else to the minutes |
| SecurityRulesConverter.Wrap | scripts/security_rules_converter.py:271-275 | a converted query always starts with `*` and ends with ` \| head 100` |
| SecurityRulesConverter.WrapKeepsQuery | scripts/security_rules_converter.py:304-308 | the rewritten query survives whole before the cap; the `* \| where` prefix is added only when missing, never twice |
| SecurityRulesConverter.ConvertQuery | scripts/security_rules_converter.py:232-247 | a blank query becomes `* \| head 100`; an Elastic query is the wrapped KQL rewriting and a Splunk query the wrapped SPL rewriting of it; any other source type returns the query unchanged |
| SecurityRulesConverter.BlankQueriesAlike | scripts/security_rules_converter.py:234-235 | every whitespace-only query converts like the empty one, whatever the source type |
| SecurityRulesConverter.DetermineCategory | scripts/security_rules_converter.py:310-334 | the rungs in order, each exactly when every earlier one fails: an execution or command-and-control tactic gives `Execution`, then the persistence, evasion, discovery and exfiltration groups; with no known tactic, `network`/`dns`/`http` in the lower-cased name give `Network`, then `process`/`command` `Process`, `file`/`registry` `System`, `logon`/`authentication` `Authentication`; `General` iff no known tactic and no keyword |
| SecurityRulesConverter.KnownTactic | scripts/security_rules_converter.py:315-324 | a known tactic is a tactic of one of the five groups |
| SecurityRulesConverter.KnownKeyword | scripts/security_rules_converter.py:325-332 | a keyword is found iff one of the nine name tests succeeds |
| SecurityRulesConverter.CategoryTacticsFirst | scripts/security_rules_converter.py:315-324 | once a tactic is recognised the rule name plays no part |
| SecurityRulesConverter.CategoryByNameOnly | scripts/security_rules_converter.py:325-334 | without a recognised tactic only the rule name decides |
| SecurityRulesConverter.CategoryIgnoresCase | scripts/security_rules_converter.py:312 | the name tests ignore letter case |
| SecurityRulesConverter.Template.OciQuery | scripts/security_rules_converter.py:341-392 | every template query is already in converted form: `*` first, the row cap last |
| SecurityRulesConverter.Pad3 | scripts/security_rules_converter.py:400 | `{n:03d}` gives at least three digits |
| SecurityRulesConverter.ParseIntOfPad3 | scripts/security_rules_converter.py:400 | the padded number reads back as the number |
| SecurityRulesConverter.SampleRules | scripts/security_rules_converter.py:336-420 | `count` rules, none for a count below one, rule i built from position i |
| SecurityRulesConverter.GenerateSampleRules | scripts/security_rules_converter.py:394-420 | the loop builds exactly those rules |
| SecurityRulesConverter.SampleIdReadsBack | scripts/security_rules_converter.py:397-400 | a sample id splits on `_` into its source (elastic at even positions) and the one-based position |
| SecurityRulesConverter.SampleIdsDistinct | scripts/security_rules_converter.py:400 | no two sample rules share an id |
| SecurityRulesConverter.SampleRuleFollowsTemplate | scripts/security_rules_converter.py:395-409 | rule i follows template i mod 5, and its query is in converted form |
| SecurityRulesConverter.SampleSourcesAlternate | scripts/security_rules_converter.py:397 | of `count` rules the Elastic ones are half, rounded up |
| SecurityRulesConverter.HasKey | scripts/security_rules_converter.py:143-145 | `key in value` on a dict tests its keys |
| SecurityRulesConverter.Item | scripts/security_rules_converter.py:144-150 | `value[key]` has an item iff the value is a dict holding the key |
| SecurityRulesConverter.AsList | scripts/security_rules_converter.py:138-148 | a dict counts as the one-element list holding it, a list as itself |
| SecurityRulesConverter.ThreatTactics | scripts/security_rules_converter.py:143-144 | one threat entry contributes at most one tactic name |
| SecurityRulesConverter.TechniqueIds | scripts/security_rules_converter.py:149-150 | one id per technique, and a technique without `id` raises |
| SecurityRulesConverter.EntryMitre | scripts/security_rules_converter.py:142-150 | one threat entry contributes at most one tactic and its technique ids |
| SecurityRulesConverter.Joined | scripts/security_rules_converter.py:142-150 | the contributions of later entries are appended; a raise anywhere is final |
| SecurityRulesConverter.JoinedAssociative | scripts/security_rules_converter.py:142-150 | appending contributions is associative |
| SecurityRulesConverter.ThreatDictAsList | scripts/security_rules_converter.py:138-140 | a single threat dict reads exactly as a list holding it |
| SecurityRulesConverter.TechniqueDictAsList | scripts/security_rules_converter.py:146-148 | a single technique dict reads exactly as a list holding it |
| SecurityRulesConverter.MitreOfAppend | scripts/security_rules_converter.py:142-150 | two lists of threats contribute in order, and the whole raises when either part does |
| SecurityRulesConverter.MitreTacticsBounded | scripts/security_rules_converter.py:142-144 | there are never more tactics than threat entries |
| SecurityRulesConverter.CollectTechniqueIds | scripts/security_rules_converter.py:149-150 | the technique loop collects exactly those ids |
| SecurityRulesConverter.TechniqueIdsFailed | scripts/security_rules_converter.py:149-150 | once a prefix raises the whole loop raises |
| SecurityRulesConverter.MitreOfFailed | scripts/security_rules_converter.py:142-150 | once a prefix of the threats raises the whole loop raises |
| SecurityRulesConverter.EntryTechniques | scripts/security_rules_converter.py:145-150 | the inner loop yields the techniques of one threat entry |
| SecurityRulesConverter.NormaliseMitre | scripts/security_rules_converter.py:135-150 | the threat loop yields the normalised MITRE lists |
| SecurityRulesConverter.AuthorOf | scripts/security_rules_converter.py:171 | a missing or falsy author (`""`, null, 0, false, an empty list or table) is `Unknown`; a non-empty list gives its first entry and a non-empty text its first character; any other truthy author raises |
| SecurityRulesConverter.ElasticFieldsOf | scripts/security_rules_converter.py:127-176 | the rule converts iff `rule` is a table whose threat entries, text query and name and author all read; then the id, tactics and techniques, category from the name and tactics, wrapped query and author are those of the parts; the query is in converted form and the category a known one |
| SecurityRulesConverter.ConvertElasticRuleAsWritten | scripts/security_rules_converter.py:125-180 | as written, the converter either returns a rule or raises |
| SecurityRulesConverter.ConvertElasticRuleAsWrittenRaises | scripts/security_rules_converter.py:178-180 | a rule file that is not TOML escapes as a NameError, since `sys` is never imported |
| SecurityRulesConverter.ConvertElasticRule | scripts/security_rules_converter.py:125-180 | as intended, an unparsable document gives None, and a converted rule has a query in converted form |
| SecurityRulesConverter.ConvertElasticRuleAgrees | scripts/security_rules_converter.py:125-180 | the intended converter gives None exactly where the written one raises, and agrees with it elsewhere |
| MultitenantLoganClient.LeadingDigits | scripts/multitenant_logan_client.py:128 | the length of the run of Unicode decimal digits `\d+` takes at the front of the text |
| MultitenantLoganClient.RelativeFilter | scripts/multitenant_logan_client.py:135-141 | the filter for a recognised unit is never empty |
| MultitenantLoganClient.MatchIsLeadingDigits | scripts/multitenant_logan_client.py:128 | only one digit count can match: the digit run ends where the unit letter stands |
| MultitenantLoganClient.ParseTimeRangeMatches | scripts/multitenant_logan_client.py:121-143 | the filter is non-empty iff the pattern matches, and then holds `int()` of the decimal digits and the unit |
| MultitenantLoganClient.ParseTimeRangeOfWindow | scripts/multitenant_logan_client.py:128-141 | `str(n)` followed by m, h or d reads back as n units, whatever follows |
| MultitenantLoganClient.ParseTimeRangeLeadingZeros | scripts/multitenant_logan_client.py:128-132 | "007h" is seven hours; "60", "h" and "1.5h" give no filter |
| MultitenantLoganClient.ComposeQuery | scripts/multitenant_logan_client.py:73 | the query is sent alone iff there is no filter; otherwise it is `filter and (query)` with the query intact |
| MultitenantLoganClient.ComposeQueryWindow | scripts/multitenant_logan_client.py:67-73 | without a recognised time range the query is sent unchanged; with one it starts with its filter |
| MultitenantLoganClient.Present | scripts/multitenant_logan_client.py:86-89 | never longer than the items; a value is listed iff some item carries it |
| MultitenantLoganClient.PresentSingle | scripts/multitenant_logan_client.py:87-89 | an item with data appends its data, one without appends nothing |
| MultitenantLoganClient.PresentAppend | scripts/multitenant_logan_client.py:86-89 | the values of earlier items come first, in item order; with PresentSingle this fixes order and multiplicity |
| MultitenantLoganClient.QueryEnvironment | scripts/multitenant_logan_client.py:53-119 | the result names its environment; it fails iff the SDK call raises, with its message; the count is the number of rows; no data gives empty results; rows and fields are exactly the item data and the field names the answer carries, in their order (Present) |
| MultitenantLoganClient.Client.constructor | scripts/multitenant_logan_client.py:17-18 | a new client has no environments |
| MultitenantLoganClient.Client.AddEnvironment | scripts/multitenant_logan_client.py:20-30 | the environment is appended to the list |
| MultitenantLoganClient.Client.QueryAllEnvironments | scripts/multitenant_logan_client.py:154-176 | one result per environment; sequentially (or with one environment) in environment order; in parallel the same results in some order |
| MultitenantLoganClient.Elements | scripts/multitenant_logan_client.py:193-198 | `set(xs)` holds exactly the items of the list |
| MultitenantLoganClient.AggregateResults | scripts/multitenant_logan_client.py:178-228 | the merge and group loops compute the aggregation |
| MultitenantLoganClient.AggregateNothingToAggregate | scripts/multitenant_logan_client.py:181-188 | aggregation fails, handing back the original list, iff no environment succeeded |
| MultitenantLoganClient.AggregateUnknownType | scripts/multitenant_logan_client.py:225-228 | a type other than merge or group fails once something succeeded |
| MultitenantLoganClient.MergedRowsConcat | scripts/multitenant_logan_client.py:195-197 | merging distributes over concatenation of the results |
| MultitenantLoganClient.MergedRowsLength | scripts/multitenant_logan_client.py:204-205 | the merged count is the sum of the row counts |
| MultitenantLoganClient.MergeInOrder | scripts/multitenant_logan_client.py:190-209 | the successful results' rows come one after the other in result order; failed ones contribute nothing |
| MultitenantLoganClient.MergeFields | scripts/multitenant_logan_client.py:193-206 | the merged field set is every field of every successful result |
| MultitenantLoganClient.GroupedByIdKeys | scripts/multitenant_logan_client.py:213-216 | grouping has one entry per environment id of any result, failed ones included |
| MultitenantLoganClient.GroupedByIdValues | scripts/multitenant_logan_client.py:213-216 | each entry is a result carrying that id |
| MultitenantLoganClient.GroupedByIdLast | scripts/multitenant_logan_client.py:214-216 | a later result overwrites an earlier one: each id holds the last result carrying it |
| MultitenantLoganClient.GroupByEnvironment | scripts/multitenant_logan_client.py:211-223 | the group aggregation succeeds with one entry per environment id and hands back every result |
| OciThreatIntel.PatternFor | scripts/oci_threat_intel.py:354-364 | a pattern exists iff the lower-cased type is one of the seven known types |
| OciThreatIntel.ValidateIndicatorFormat | scripts/oci_threat_intel.py:341-377 | the validation only returns when the type is text; otherwise `.lower()` raises |
| OciThreatIntel.UnknownTypeValid | scripts/oci_threat_intel.py:365-369 | a type without a pattern, in any case, accepts every value with the "No validation pattern" message |
| OciThreatIntel.PatternForIgnoresCase | scripts/oci_threat_intel.py:364 | the pattern is chosen without regard to case |
| OciThreatIntel.OctetPatternRange | scripts/oci_threat_intel.py:355 | the octet alternation accepts exactly the 1-3 digit texts of 0..255 |
| OciThreatIntel.IpBodyOctets | scripts/oci_threat_intel.py:355 | the `ip` pattern is four dot-separated octets of one to three digits, each 0..255 |
| OciThreatIntel.IpPatternAcceptsAddresses | scripts/oci_threat_intel.py:355 | every address `ipaddress` accepts passes the `ip` pattern |
| OciThreatIntel.IpPatternLeadingZero | scripts/oci_threat_intel.py:355 | the pattern accepts an octet with a leading zero, "01.2.3.4" |
| OciThreatIntel.AddressLeadingZero | scripts/oci_threat_intel.py:355 | `ipaddress` refuses "01.2.3.4", so the converse of the inclusion fails |
| OciThreatIntel.HashShape | scripts/oci_threat_intel.py:358-372 | md5, sha1 and sha256 take 32, 40 and 64 hex digits; a value passes iff it has that many, optionally followed by one newline (`$`) |
| OciThreatIntel.SubmitSingle | scripts/oci_threat_intel.py:273-339 | an indicator is submitted iff both it and the metadata are dicts and its value passes its type's check; the entry names its indicator |
| OciThreatIntel.EntryOf | scripts/oci_threat_intel.py:238-252 | the loop body's entry names its indicator |
| OciThreatIntel.Entries | scripts/oci_threat_intel.py:237-252 | one entry per indicator, in order, each naming its indicator |
| OciThreatIntel.Tallied | scripts/oci_threat_intel.py:254-265 | the report lists the entries; successful plus failed is the total |
| OciThreatIntel.Characters | scripts/oci_threat_intel.py:238 | iterating a string gives its one-character strings |
| OciThreatIntel.KeyEntry | scripts/oci_threat_intel.py:238-252 | a dict-key indicator is never submitted |
| OciThreatIntel.SubmitThreatDataLoop | scripts/oci_threat_intel.py:202-271 | the checks, one entry per indicator, then the tallies |
| OciThreatIntel.SubmitEach | scripts/oci_threat_intel.py:237-265 | the indicator loop computes the submission outcome |
| OciThreatIntel.MissingFieldsRejected | scripts/oci_threat_intel.py:240-246 | an indicator without `type` or `value` is a failure entry with the missing-fields message |
| OciThreatIntel.SubmitRefusals | scripts/oci_threat_intel.py:222-235 | data that is not a dict, or carries no indicators, is refused with its own message |
| OciThreatIntel.SubmitTallies | scripts/oci_threat_intel.py:237-265 | one entry per indicator in order; successful plus failed is the total; the call succeeds iff some indicator was submitted |
| OciThreatIntel.TalliedSuccess | scripts/oci_threat_intel.py:255-259 | the successes are at most the entries, and the call succeeds iff some entry was submitted |
| OciThreatIntel.SubmitKeys | scripts/oci_threat_intel.py:238-252 | a dict of indicators yields one failure per key and no success |
| Common.Strip | scripts/oci_threat_intel.py:450 | `strip()` never lengthens the text, leaves no space at either end, and leaves text without spaces alone |
| OciThreatIntel.ConfidenceArg | scripts/oci_threat_intel.py:452-459 | the confidence lies in 0..100, and 50 when absent |
| OciThreatIntel.ConfidenceArgClamp | scripts/oci_threat_intel.py:455-457 | an integer argument is kept inside 0..100 and replaced by 50 outside |
| OciThreatIntel.ConfidenceArgNotInteger | scripts/oci_threat_intel.py:458-459 | text that is not an integer gives 50 |
| OciThreatIntel.ThreatTypes | scripts/oci_threat_intel.py:448-450 | one threat type per comma-separated piece |
| OciThreatIntel.CliIndicator | scripts/oci_threat_intel.py:461-467 | the command-line indicator carries the given type and value |
| OciThreatIntel.SubmitOne | scripts/oci_threat_intel.py:228-265 | a single dict indicator gives a report of one, successful iff it was submitted |
| OciThreatIntel.CliSubmission | scripts/oci_threat_intel.py:446-474 | a command-line submission reports one indicator and succeeds iff the value passes its type's check |
| OciThreatIntel.CheckIndicator | scripts/oci_threat_intel.py:58-128 | the result names its value; found iff the count is positive, the count is the number of indicators; no compartment and no tenancy fails with `'tenancy'`; it is checked iff the lookup answers |
| OciThreatIntel.CheckMultipleIndicators | scripts/oci_threat_intel.py:130-162 | the batch loop skips indicators without a value, checks the others and counts the finds |
| OciThreatIntel.ChecksRaise | scripts/oci_threat_intel.py:149-160 | once a prefix raises the whole batch raises |
| OciThreatIntel.ChecksOfValued | scripts/oci_threat_intel.py:149-157 | one check per indicator with a value, in order |
| OciThreatIntel.BatchCounts | scripts/oci_threat_intel.py:142-162 | `total_checked` counts every indicator; one result per valued one; `found_count` is the number of results that found something |
| OciThreatIntel.BatchOfNonList | scripts/oci_threat_intel.py:142-153 | input that is not a list raises, unless it is empty; then nothing is checked |
| SecurityAnalyzer.DetermineSeverity | scripts/security_analyzer.py:74-89 | a severity, when there is one, is always lower case |
| SecurityAnalyzer.TypeSeverityTiers | scripts/security_analyzer.py:81-89 | the three high checks, the three medium checks, and low for every other type |
| SecurityAnalyzer.SeverityPrecedence | scripts/security_analyzer.py:77-78 | an explicit `Severity` wins, lower-cased, whatever the check type; one that is not text raises; without one the check type decides |
| SecurityAnalyzer.FirstSuccess | scripts/security_analyzer.py:34-44 | the `for ... break` loop computes the search |
| SecurityAnalyzer.Searched | scripts/security_analyzer.py:34-44 | an answer is a listed query that executed with success and gives its rows; an exception comes from some listed query; a first query that stops the loop leaves no "no query succeeded" outcome |
| SecurityAnalyzer.SearchedFirstSuccess | scripts/security_analyzer.py:34-44 | the search answers with the first query that succeeds, even with no rows, every earlier one having failed |
| SecurityAnalyzer.SearchedAnswer | scripts/security_analyzer.py:34-44 | an answer names a query that succeeded after failures only; no query succeeds iff every one failed |
| SecurityAnalyzer.SearchedIgnoresLater | scripts/security_analyzer.py:37-44 | the queries after the one that stops the loop are never executed |
| SecurityAnalyzer.EventId | scripts/security_analyzer.py:50 | the id is the check type, `_`, then the index |
| SecurityAnalyzer.EventIdsDistinct | scripts/security_analyzer.py:50 | two events of one check share an id iff they share an index |
| SecurityAnalyzer.FormatEvent | scripts/security_analyzer.py:48-58 | an event is formatted iff its severity does not raise, with its id, type, details and severity |
| SecurityAnalyzer.FormatEventFallbacks | scripts/security_analyzer.py:51-57 | the timestamp is the first truthy of `Datetime` and `Time`, else `timestamp` or empty; message and count are never falsy; the source defaults to Unknown |
| SecurityAnalyzer.Enumerate | scripts/security_analyzer.py:48-50 | each event paired with its position |
| SecurityAnalyzer.Formatted | scripts/security_analyzer.py:47-59 | all events formatted in order, numbered from 0; none iff some severity raises |
| SecurityAnalyzer.RunSecurityCheck | scripts/security_analyzer.py:21-72 | the method computes the check's result |
| SecurityAnalyzer.SecurityCheck | scripts/security_analyzer.py:21-72 | the mapper's unsuccessful answer is passed through exactly when the check type is not mapped; a raising search fails the check; a report carries the check type, the window, its event count and a listed query |
| SecurityAnalyzer.SecurityCheckReport | scripts/security_analyzer.py:21-69 | the report counts its events, numbers them with distinct ids, and names the query used iff one succeeded, which is one of the mapped queries |
| SecurityAnalyzer.SecurityCheckStopsAtFirstSuccess | scripts/security_analyzer.py:41-44 | a query that succeeds with no rows ends the loop with an empty report naming it |
| SecurityAnalyzer.GatheredMember | scripts/security_analyzer.py:98-105 | an event is gathered iff a successful check produced it and, under a filter other than "all", its severity is the filter lower-cased |
| SecurityAnalyzer.GetSecurityEvents | scripts/security_analyzer.py:91-119 | the method computes the event feed |
| SecurityAnalyzer.SecurityEvents | scripts/security_analyzer.py:91-119 | a feed carries its events, their count, the severity filter and the window |
| SecurityAnalyzer.NewestFirstProperties | scripts/security_analyzer.py:107-108 | the feed is a permutation of the gathered events, newest first; it raises iff there are two or more events whose timestamps are neither all text nor all numbers (mixed kinds, or two null or table timestamps) |
| SecurityAnalyzer.SecurityEventsFiltered | scripts/security_analyzer.py:91-116 | every returned event has the filter's severity, the feed reorders what the four checks kept, and its total is its length |
| SecurityAnalyzer.WithCount | scripts/security_analyzer.py:167 | writing one count leaves every other field alone |
| SecurityAnalyzer.SummedCounts | scripts/security_analyzer.py:153 | the sum raises iff some source's count is not a number |
| SecurityAnalyzer.GetDashboardStats | scripts/security_analyzer.py:121-192 | the method computes the dashboard |
| SecurityAnalyzer.DashboardStats | scripts/security_analyzer.py:121-192 | the dashboard fails iff the connection test raised, or it succeeded and listing the sources raised or some source count is not a number; otherwise it records the connection test's value and is "connected" iff that value is truthy |
| SecurityAnalyzer.TallyChecks | scripts/security_analyzer.py:162-171 | the loop over the three checks counts each successful check's events and its high ones |
| SecurityAnalyzer.LevelLadder | scripts/security_analyzer.py:176-185 | above 10 critical alerts is high at 70, above 5 medium at 85, else low at 95 |
| SecurityAnalyzer.ResolvedBounds | scripts/security_analyzer.py:174 | `int(critical * 0.8)` is at most the critical count and the floor of four fifths of it |
| SecurityAnalyzer.DashboardDisconnected | scripts/security_analyzer.py:139-146 | a failed connection test leaves health 0, every count 0 and the level low |
| SecurityAnalyzer.TallyFrame | scripts/security_analyzer.py:163-171 | tallying leaves alone the counts of the keys it does not visit |
| SecurityAnalyzer.TallyKeeps | scripts/security_analyzer.py:163-171 | tallying keeps the connection and source fields |
| SecurityAnalyzer.TallyCriticalBound | scripts/security_analyzer.py:162-173 | the critical count never exceeds the events counted |
| SecurityAnalyzer.TallyCount | scripts/security_analyzer.py:164-167 | each visited key holds its check's event count when that check succeeded |
| SecurityAnalyzer.TallyHigh | scripts/security_analyzer.py:162-173 | the loop's critical count is the sum, over the checks run, of each successful check's events of severity `high` |
| SecurityAnalyzer.HighTotalOfChecks | scripts/security_analyzer.py:156-173 | over the three security checks, that sum is the high counts of failed logins, privilege escalation and suspicious network |
| SecurityAnalyzer.DashboardConnected | scripts/security_analyzer.py:121-189 | a connected dashboard follows the level ladder and the resolved bound; each count is its check's event count; the critical count is the number of `high` events of the three checks, and at most the sum of their counts; the sources fill the totals |
| CheckOciInstance.InstanceMetadata | scripts/check_oci_instance.py:13-44 | the metadata exists iff the service answers with status 200; compartment and region are read from the document; identity is available iff its probe answers 200 |
| CheckOciInstance.ResourcePrincipal | scripts/check_oci_instance.py:63-79 | resource principal works iff both variables are set and the signer is built |
| CheckOciInstance.ConfigFileAuth | scripts/check_oci_instance.py:81-122 | the config file is found iff it exists and parses, with its profiles and the expanded path; a parse error reports its message; a missing file reports the path and "Config file not found" |
| CheckOciInstance.TrimSlashes | scripts/check_oci_instance.py:85 | `expanduser` drops exactly the trailing slashes of the home directory |
| CheckOciInstance.ConfigPathShape | scripts/check_oci_instance.py:85 | the expanded path ends in `/.oci/config` with no doubled slash before it |
| CheckOciInstance.ConfigPathExamples | scripts/check_oci_instance.py:85 | a home of `/`, `//` or the empty text gives `/.oci/config`; `/home/u/` and `/home/u` give the same path |
| CheckOciInstance.Recommendation.Priority | scripts/check_oci_instance.py:148-201 | every recommendation has a priority from 1 to 4 |
| CheckOciInstance.GetEnvironmentSuggestion | scripts/check_oci_instance.py:124-221 | the method computes the suggestion from the probes |
| CheckOciInstance.EnvironmentSuggestion | scripts/check_oci_instance.py:124-221 | on an instance exactly when the metadata service answered 200; instance principal works iff on an instance and the signer worked; the resource and config probes as checked; a suggestion exactly when there is a recommendation, taken from the first |
| CheckOciInstance.Suggested | scripts/check_oci_instance.py:206-219 | the suggested method is one of the three; setup is required exactly for the two setup entries; the instance's compartment and region are given exactly for an instance-principal entry on an instance |
| CheckOciInstance.RankAndSuggest | scripts/check_oci_instance.py:203-219 | the recommendations are ranked by priority and the suggested configuration taken from the first |
| CheckOciInstance.AppendedShape | scripts/check_oci_instance.py:147-201 | one to three recommendations are appended, exactly one for the config file |
| CheckOciInstance.RankedOrder | scripts/check_oci_instance.py:204 | ranking keeps the recommendations and orders them by ascending priority |
| CheckOciInstance.RecommendationsRanked | scripts/check_oci_instance.py:124-221 | there is always a recommendation (one for the config file) and so a suggested configuration; the list reorders what was appended, by ascending priority |
| CheckOciInstance.InstancePrincipalOnlyOnInstance | scripts/check_oci_instance.py:142-143 | instance principal counts iff on an instance with a working signer; off an instance the signer changes nothing |
| CheckOciInstance.AppendedSetupEntry | scripts/check_oci_instance.py:148-168 | the setup entry is appended iff on an instance without a working instance principal |
| CheckOciInstance.SetupEntryOnlyOnInstance | scripts/check_oci_instance.py:156-168 | the priority-2 entry appears iff on an instance whose instance principal failed |
| CheckOciInstance.RankedFirst | scripts/check_oci_instance.py:203-208 | the first ranked entry is the preferred one: a working instance principal wins over an equally ranked resource principal, being appended first |
| CheckOciInstance.FirstOfRanked | scripts/check_oci_instance.py:204-208 | the first ranked entry is the earliest one of lowest priority |
| CheckOciInstance.BestMethod | scripts/check_oci_instance.py:206-219 | the suggested configuration is the preferred method; compartment and region are added iff it is instance principal on an instance |
| CheckOciInstance.ExitCode | scripts/check_oci_instance.py:229-237 | the exit code lies in 0..2 |
| CheckOciInstance.ExitCodes | scripts/check_oci_instance.py:226-237 | 0 with a working instance principal, 1 elsewhere on OCI, 2 off OCI |

## Left out

- Queries to Logging Analytics, the OCI SDK and HTTP (`LoganClient`, `requests`, signers): their results are inputs to the model. Query pagination, authentication and rate limiting are not modelled.
- `scripts/oci_compute_client.py` is not part of this model: it only calls the SDK.
- The Neo4j store and the NetworkX centrality, community, diameter and layout code (scripts/graph_analyzer.py:43-359): these are foreign libraries. The analyzer's helpers are modelled as free functions, because its constructor refers to the undefined `NEO4J_AVAILABLE` (scripts/graph_analyzer.py:369).
- The `ThreadPoolExecutor` path of `query_all_environments`: completion order is not modelled. Only the collection of results is stated, as a multiset.
- `datetime.now()`/`utcnow()` and `fromisoformat`: these are parameters. A parsed ISO time is given as seconds, with whether it carries an offset (aware) or not (naive).
- IEEE floating point, `round()`, `statistics.stdev` and `sqrt`: reals are used instead. The square root is a parameter.
- Float and boolean field values. A record field (`Value`) is text, an integer or null. A parsed document value (`Json`) is null, a bool, an integer, text, a list or an object. Query rows can also carry floats and bools, and documents can carry floats and dates. The model cannot represent these, so nothing is stated for such inputs. The lines below name the members that read such values.
- ScanLbRecords: a float `Response Code` or `Request Processing Time` (scripts/enhanced_log_ingestion.py:326-327) converts in the source, with `int()` truncating. The model's records hold only text, integers and null.
- ProcessLbRecords: the float gap of ScanLbRecords applies.
- LbRequestsOrigin: the float gap of ScanLbRecords applies.
- DashboardStats: a float `count` of a log source (scripts/security_analyzer.py:153) adds into a float total in the source. The model's counts are integers, as SummedCounts reads them.
- SecurityEvents: a float timestamp sorts among the integer ones in the source (scripts/security_analyzer.py:108). List timestamps compare element by element with each other. The model orders only all-text or all-integer/bool timestamps, and answers EventsRaised for any other mix, including all-list timestamps.
- NewestFirstProperties: the float and list timestamps of SecurityEvents are not covered.
- Apply, TimeOf, ParseTimestamp, TimeValueOf, BytesOf, BytesValue, RelationshipWeight, ParsePort, PortNumber, Truthy and RawText: these are stated for text, integer and null fields only. A float or bool field is not represented, for example `int(1.9) == 1`, `str(True) == "True"` or `fromtimestamp(1.5e9)`.
- ParseFloat: `float()` also accepts `inf`, `infinity` and `nan` in any case and with a sign, and rounds to a double, overflowing to infinity for `1e400`. The model reads those words as malformed and keeps exact reals.
- ScanLbRecords: a `Response Time` or size of `inf` or `nan` converts in the source, but the model treats it as a conversion failure (see ParseFloat).
- ProcessLbRecords: inherits the `inf`/`nan` gap of ScanLbRecords.
- LbRequestsOrigin: "every row converts" is stated for the model's `float()`, which rejects `inf` and `nan`.
- RelationshipWeightProperties: a byte value of `inf` or `nan` weighs `inf`/1024 or `nan` in the source, where the model gives the unreadable weight 1.0.
- ParseInt: Python refuses numerals of more than 4300 digits by default (`sys.set_int_max_str_digits`). The model reads numerals of any length.
- TimeOf, ParseTimestamp and Apply: `fromtimestamp` is read in a UTC local zone, which accepts years 1 to 9999. A millisecond epoch is divided exactly, where Python rounds the quotient to a double. Near the ends of the range, that rounding can move the boundary by less than a millisecond.
- Lower and Upper: `str.lower()` and `str.upper()` are modelled on the ASCII letters only. Python also maps other letters to ASCII ones, such as the Kelvin sign to `k`, and `ſ` and `ß` to `S` and `SS` under `upper()`. So `hoſt1` is domain-joined in Python (its upper case is `HOST1`) but not in the model. The members whose answers inherit this are WafAction, AttackText, AttackSeverity, IsServiceAccount, IsPrivilegedUser, IsSuspiciousProcess, DetectOsType, IsDomainJoined, IdPrefix, NodeRisk, Opened, PatternFor, MatchesPattern, IsIpFieldName, IdentifyApplication, DetermineSeverity, Kept, DetermineCategory, IsAccepted and IsRejected.
- GetIpLogs: every `time` is text. In the source, integer times sort numerically, and a mix of integer and text times makes the final sort raise, so `get_ip_logs` returns its error result (scripts/graph_extractor.py:198-316). The model does not represent either.
- CreateGraphElements: a record whose timestamp does not parse contributes nothing, as modelled. A record whose aware timestamp meets a naive `last_seen` (or the reverse) raises at the comparison (scripts/graph_analyzer.py:510-511), after the record's earlier nodes were added. That half-merged record is not modelled.
- AnalyzeApplicationCommunications: comparing an aware with a naive first or last seen (scripts/rita_enhanced.py:248-253) raises after that record's counters were updated, and the except then ends the source. This is not modelled.
- AnalyzeApplicationCommunications: `list(data['source_ips'])[0]`, and the same for the destination and the protocol (scripts/rita_enhanced.py:284-287), reports one element of a set in hash order. The model's ApplicationCommunication carries the whole sets `sourceIps`, `destIps` and `protocols`, so which element is reported is not modelled.
- AnalyzeIpCommunications: the aware-versus-naive first/last-seen raise of scripts/rita_enhanced.py:355-360 is not modelled, as for AnalyzeApplicationCommunications.
- AnalyzeCommunications: `list(data['ports'])[:20]` and `list(set(data['actions']))[:5]` (scripts/rita_simple.py:178-185) list sets in hash order, so `{443, 80}` lists 80 first. CommEntry keeps the first 20 ports and 5 actions in first-appearance order instead. Which ports a bucket of more than 20 reports therefore differs, and only membership and the bounds are stated.
- CommEntry: the port and action order of AnalyzeCommunications applies.
- RitaAnalyzer.BeaconScoreBounds and the other beacon-score bounds require of the square-root parameter only that it is non-negative on non-negative numbers. The regular-score lemma also requires that the root of 0 is 0.
- IPv6 addresses: they count as neither private nor loopback. Only IPv4 text is parsed.
- `hash()` in threat-intel submission ids and the submission time stamp are not modelled.
- The regular-expression rewriting of field names and operators in `_convert_elastic_kql_to_oci` and `_convert_splunk_spl_to_oci`: it is a parameter (`kql`, `spl`). TOML and YAML parsing is taken as done: a document or None.
- `convert_splunk_rule`: only its query wrapping is modelled. Its YAML field extraction, and its except handler, which has the same missing `sys` import as the Elastic one, are not.
- The domain, url and email expressions of the threat-intel validator are modelled as character-class predicates rather than as regular expressions.
- The demo and fabricated outputs of `scripts/rita_analyzer.py` (lines 55-89, 98-108, 124-128 and 362-458): the analyses' raw numbers are inputs.
- JSON printing and the argparse `main()` functions are not modelled. The exceptions are the threat-intel confidence clamp and the instance checker's exit code, which are modelled.
- `_create_oci_config`, `get_indicator_counts`, `search_logs` and `discover_log_sources`: these are SDK plumbing.
- The MCP server, client and wrappers, `mcp-server/config.py`, the test, debug and scratch scripts, and `mitre_layer_generator.py` are not part of this model.

## Findings

| source | as written | input that shows it | evidently intended | confidence | as-written member | corrected member |
|---|---|---|---|---|---|---|
| scripts/rita_enhanced.py:339-377 | the IP pair is kept as the text key `f"{src}:{dst}"` and split back with `split(':', 1)` | source `fe80::1`, destination `10.0.0.5`: the key splits into `fe80` and `:1:10.0.0.5` | group by the pair itself, so that both addresses come back unchanged | not executed | RitaEnhanced.IpKeyTextIpv6Source | RitaEnhanced.IpCommunicationsMembers |
| scripts/rita_enhanced.py:237-286 | the application key `f"{app}:{dst}:{port}"` is split on ':' and the last piece goes to `int()` outside any try block | source and destination application `svc:v1` on port 443: the port piece is `svc:v1:443`, and `int()` raises | group by the (application, destination, port) triple | not executed | RitaEnhanced.AppKeyTextColonName | RitaEnhanced.ApplicationsProperties |
| scripts/security_rules_converter.py:178-180 | the except handler writes to `sys.stderr`, but `sys` is never imported | rule text that is not valid TOML: the handler itself raises NameError | report the error and return None | not executed | SecurityRulesConverter.ConvertElasticRuleAsWrittenRaises | SecurityRulesConverter.ConvertElasticRuleAgrees |
