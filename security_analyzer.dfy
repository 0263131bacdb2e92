/**
 * The security analyzer: a security check runs the mapped queries until
 * one succeeds and formats what it returned as events; the event feed runs
 * four checks, filters them by severity and orders them newest first; the
 * dashboard counts the events of three checks and derives a threat level.
 * The query mapper, the Logging Analytics client and its connection test
 * are parameters: each is the answer the service gave (or its exception).
 */
module SecurityAnalyzer {
  import opened Common

  /** One result row as the client returns it. */
  type Event = map<string, Json>

  // ---------------------------------------------------------------- severity

  const HIGH_SEVERITY_CHECKS: seq<string> := ["privilege_escalation", "suspicious_network", "failed_logins"]
  const MEDIUM_SEVERITY_CHECKS: seq<string> := ["audit_changes", "user_management", "port_scanning"]

  /** The severity a check type gives an event that carries none of its own. */
  function TypeSeverity(checkType: string): string
  {
    if checkType in HIGH_SEVERITY_CHECKS then "high"
    else if checkType in MEDIUM_SEVERITY_CHECKS then "medium"
    else "low"
  }

  /**
   * `_determine_severity`: an explicit `Severity` field wins, lower-cased;
   * a `Severity` that is not text makes `.lower()` raise (none).
   */
  function DetermineSeverity(checkType: string, event: Event): (r: Option<string>)
    ensures r.Some? ==> Lower(r.value) == r.value
  {
    if "Severity" in event then
      var v := event["Severity"];
      if v.JStr? then LowerTwice(v.s); Some(Lower(v.s)) else None
    else
      var t := TypeSeverity(checkType);
      assert Lower("high") == "high" && Lower("medium") == "medium" && Lower("low") == "low";
      Some(t)
  }

  /** The three high checks, the three medium checks, and low for every other type. */
  lemma TypeSeverityTiers(checkType: string)
    ensures TypeSeverity(checkType) == "high" <==> checkType in {"privilege_escalation", "suspicious_network", "failed_logins"}
    ensures TypeSeverity(checkType) == "medium" <==> checkType in {"audit_changes", "user_management", "port_scanning"}
    ensures TypeSeverity(checkType) == "low" <==>
              checkType !in {"privilege_escalation", "suspicious_network", "failed_logins",
                             "audit_changes", "user_management", "port_scanning"}
  {
  }

  /**
   * An explicit severity takes precedence: lower-cased, whatever the check
   * type; without one the check type decides.
   */
  lemma SeverityPrecedence(checkType: string, otherType: string, event: Event)
    ensures "Severity" in event ==> DetermineSeverity(checkType, event) == DetermineSeverity(otherType, event)
    ensures "Severity" in event && event["Severity"].JStr? ==>
              DetermineSeverity(checkType, event) == Some(Lower(event["Severity"].s))
    ensures "Severity" in event && !event["Severity"].JStr? ==> DetermineSeverity(checkType, event).None?
    ensures "Severity" !in event ==> DetermineSeverity(checkType, event) == Some(TypeSeverity(checkType))
  {
  }

  // ---------------------------------------------------------------- choosing a query

  /** What `get_security_query` answered: a response without success, or the queries to try. */
  datatype Mapping = Unmapped(response: Json) | Mapped(queries: seq<string>, description: Json)

  /** What `execute_query` answered for one query, or the exception it raised. */
  datatype Execution = Executed(success: bool, results: seq<Event>) | ExecutionRaised

  datatype Search = Answered(query: string, events: seq<Event>) | NoQuerySucceeded | SearchRaised

  /** The loop leaves at this answer: a success (with or without rows) or an exception. */
  predicate Stops(e: Execution)
  {
    e.ExecutionRaised? || e.success
  }

  /** The queries are tried in order until one succeeds. */
  function Searched(queries: seq<string>, minutes: int, execute: (string, int) -> Execution): (r: Search)
    ensures r.Answered? ==> r.query in queries && execute(r.query, minutes) == Executed(true, r.events)
    ensures r.SearchRaised? ==> exists q :: q in queries && execute(q, minutes).ExecutionRaised?
    ensures queries != [] && Stops(execute(queries[0], minutes)) ==> !r.NoQuerySucceeded?
    decreases |queries|
  {
    if queries == [] then NoQuerySucceeded
    else
      var e := execute(queries[0], minutes);
      if e.ExecutionRaised? then SearchRaised
      else if e.success then Answered(queries[0], e.results)
      else Searched(queries[1..], minutes, execute)
  }

  /** The `for ... break` loop of `run_security_check`. */
  method FirstSuccess(queries: seq<string>, minutes: int, execute: (string, int) -> Execution) returns (s: Search)
    ensures s == Searched(queries, minutes, execute)
  {
    s := NoQuerySucceeded;
    var i := 0;
    while i < |queries|
      invariant 0 <= i <= |queries|
      invariant Searched(queries, minutes, execute) == Searched(queries[i..], minutes, execute)
    {
      var e := execute(queries[i], minutes);
      assert queries[i..][0] == queries[i] && queries[i..][1..] == queries[i + 1..];
      if e.ExecutionRaised? {
        s := SearchRaised;
        return;
      }
      if e.success {
        s := Answered(queries[i], e.results);
        return;
      }
      i := i + 1;
    }
  }

  /**
   * The search answers with the first query that succeeds, even when it
   * returned no rows; before it every query was executed and failed.
   */
  lemma {:induction false} SearchedFirstSuccess(queries: seq<string>, minutes: int, execute: (string, int) -> Execution, i: nat)
    requires i < |queries|
    requires forall j :: 0 <= j < i ==> !Stops(execute(queries[j], minutes))
    requires execute(queries[i], minutes).Executed? && execute(queries[i], minutes).success
    ensures Searched(queries, minutes, execute) == Answered(queries[i], execute(queries[i], minutes).results)
  {
    if i > 0 {
      assert !Stops(execute(queries[0], minutes));
      assert forall j :: 0 <= j < i - 1 ==> queries[1..][j] == queries[j + 1];
      SearchedFirstSuccess(queries[1..], minutes, execute, i - 1);
    }
  }

  /** Conversely, an answer names a query that succeeded after failures only. */
  lemma {:induction false} SearchedAnswer(queries: seq<string>, minutes: int, execute: (string, int) -> Execution)
    ensures Searched(queries, minutes, execute).Answered? ==>
              exists i :: 0 <= i < |queries| && queries[i] == Searched(queries, minutes, execute).query
                && execute(queries[i], minutes) == Executed(true, Searched(queries, minutes, execute).events)
                && forall j :: 0 <= j < i ==> !Stops(execute(queries[j], minutes))
    ensures Searched(queries, minutes, execute).NoQuerySucceeded? <==>
              forall j :: 0 <= j < |queries| ==> !Stops(execute(queries[j], minutes))
    decreases |queries|
  {
    if queries != [] {
      var tail := queries[1..];
      SearchedAnswer(tail, minutes, execute);
      assert forall j :: 0 <= j < |tail| ==> tail[j] == queries[j + 1];
      var r := Searched(queries, minutes, execute);
      if r.Answered? && Stops(execute(queries[0], minutes)) {
        assert queries[0] == r.query;
      } else if r.Answered? {
        var k :| 0 <= k < |tail| && tail[k] == r.query
                 && execute(tail[k], minutes) == Executed(true, r.events)
                 && forall j :: 0 <= j < k ==> !Stops(execute(tail[j], minutes));
        assert forall j :: 0 <= j < k + 1 ==> !Stops(execute(queries[j], minutes)) by {
          forall j | 0 <= j < k + 1
            ensures !Stops(execute(queries[j], minutes))
          {
            if j > 0 {
              assert queries[j] == tail[j - 1];
            }
          }
        }
      }
    }
  }

  /**
   * The queries after the one that stops the loop are never executed: two
   * clients that agree up to it give the same search.
   */
  lemma {:induction false} SearchedIgnoresLater(queries: seq<string>, minutes: int,
                                                 execute: (string, int) -> Execution,
                                                 other: (string, int) -> Execution, i: nat)
    requires i < |queries| && Stops(execute(queries[i], minutes))
    requires forall j :: 0 <= j <= i ==> execute(queries[j], minutes) == other(queries[j], minutes)
    ensures Searched(queries, minutes, execute) == Searched(queries, minutes, other)
  {
    if i > 0 && !Stops(execute(queries[0], minutes)) {
      assert forall j :: 0 <= j <= i - 1 ==> queries[1..][j] == queries[j + 1];
      SearchedIgnoresLater(queries[1..], minutes, execute, other, i - 1);
    }
  }

  // ---------------------------------------------------------------- formatting events

  datatype FormattedEvent = FormattedEvent(id: string, timestamp: Json, checkType: string, severity: string,
                                           source: Json, message: Json, details: Event, count: Json)

  /** Python's `a or b`. */
  function Or(a: Json, b: Json): Json
  {
    if JTruthy(a) then a else b
  }

  /** `f"{check_type}_{index}"`. */
  function EventId(checkType: string, index: nat): (r: string)
    ensures |r| > |checkType| + 1 && r[..|checkType|] == checkType && r[|checkType|] == '_'
    ensures r[|checkType| + 1..] == NatToString(index)
  {
    checkType + "_" + NatToString(index)
  }

  /** Two events of one check never share an id. */
  lemma EventIdsDistinct(checkType: string, i: nat, j: nat)
    ensures EventId(checkType, i) == EventId(checkType, j) <==> i == j
  {
    if EventId(checkType, i) == EventId(checkType, j) {
      DigitsValueOfNatToString(i);
      DigitsValueOfNatToString(j);
    }
  }

  /** One event of the check, at position `index`; none when its severity raises. */
  function FormatEvent(checkType: string, index: nat, event: Event): (r: Option<FormattedEvent>)
    ensures r.Some? <==> DetermineSeverity(checkType, event).Some?
    ensures r.Some? ==> r.value.id == EventId(checkType, index) && r.value.checkType == checkType
                        && r.value.details == event && r.value.severity == DetermineSeverity(checkType, event).value
  {
    var severity := DetermineSeverity(checkType, event);
    if severity.None? then None
    else
      Some(FormattedEvent(
        EventId(checkType, index),
        Or(Or(JGet(event, "Datetime", JNull), JGet(event, "Time", JNull)), JGet(event, "timestamp", JStr(""))),
        checkType,
        severity.value,
        JGet(event, "Log Source", JStr("Unknown")),
        Or(Or(JGet(event, "Log Entry", JNull), JGet(event, "Message", JNull)), JStr("Security event detected")),
        event,
        Or(Or(JGet(event, "logrecords", JNull), JGet(event, "count", JNull)), JInt(1))))
  }

  /**
   * The timestamp is the first truthy of `Datetime` and `Time`, else
   * `timestamp` (default empty); message and count are never falsy, and the
   * source defaults to "Unknown".
   */
  lemma FormatEventFallbacks(checkType: string, index: nat, event: Event)
    requires FormatEvent(checkType, index, event).Some?
    ensures var e := FormatEvent(checkType, index, event).value;
      && (JTruthy(JGet(event, "Datetime", JNull)) ==> e.timestamp == event["Datetime"])
      && (!JTruthy(JGet(event, "Datetime", JNull)) && JTruthy(JGet(event, "Time", JNull)) ==> e.timestamp == event["Time"])
      && (!JTruthy(JGet(event, "Datetime", JNull)) && !JTruthy(JGet(event, "Time", JNull)) ==>
            e.timestamp == if "timestamp" in event then event["timestamp"] else JStr(""))
      && JTruthy(e.message) && JTruthy(e.count)
      && ("Log Source" !in event ==> e.source == JStr("Unknown"))
  {
  }

  /** The events paired with their positions, for the formatting loop. */
  function Enumerate(events: seq<Event>): (r: seq<(nat, Event)>)
    ensures |r| == |events| && forall i :: 0 <= i < |events| ==> r[i] == (i, events[i])
  {
    if events == [] then []
    else
      var p := Enumerate(events[..|events| - 1]);
      assert forall i :: 0 <= i < |events| - 1 ==> events[..|events| - 1][i] == events[i];
      p + [(|events| - 1, events[|events| - 1])]
  }

  function Formatter(checkType: string): ((nat, Event)) -> Option<FormattedEvent>
  {
    (p: (nat, Event)) => FormatEvent(checkType, p.0, p.1)
  }

  /** All events formatted in order, with ids numbered from 0; none when any severity raises. */
  function Formatted(checkType: string, events: seq<Event>): (r: Option<seq<FormattedEvent>>)
    ensures r.None? <==> exists i :: 0 <= i < |events| && DetermineSeverity(checkType, events[i]).None?
    ensures r.Some? ==>
              |r.value| == |events|
              && forall i :: 0 <= i < |events| ==> FormatEvent(checkType, i, events[i]) == Some(r.value[i])
  {
    var s := Enumerate(events);
    var r := Collected(s, Formatter(checkType));
    assert forall i :: 0 <= i < |s| ==> Formatter(checkType)(s[i]) == FormatEvent(checkType, i, events[i]);
    r
  }

  // ---------------------------------------------------------------- one security check

  datatype CheckResult =
    | Passthrough(response: Json)
    | CheckReport(checkType: string, description: Json, events: seq<FormattedEvent>, totalEvents: nat,
                  minutes: int, queryUsed: Option<string>)
    | CheckRaised

  /**
   * `run_security_check`: a mapper answer without success is returned as
   * is; otherwise the first successful query's rows become events, and an
   * exception anywhere becomes the failure result.
   */
  function SecurityCheck(checkType: string, minutes: int, mapper: (string, int) -> Mapping,
                         execute: (string, int) -> Execution): (r: CheckResult)
    ensures r.Passthrough? <==> mapper(checkType, minutes).Unmapped?
    ensures r.Passthrough? ==> r.response == mapper(checkType, minutes).response
    ensures mapper(checkType, minutes).Mapped? && Searched(mapper(checkType, minutes).queries, minutes, execute).SearchRaised? ==>
              r.CheckRaised?
    ensures r.CheckReport? ==> r.checkType == checkType && r.minutes == minutes && r.totalEvents == |r.events|
    ensures r.CheckReport? && r.queryUsed.Some? ==> r.queryUsed.value in mapper(checkType, minutes).queries
  {
    var m := mapper(checkType, minutes);
    if m.Unmapped? then Passthrough(m.response)
    else
      var s := Searched(m.queries, minutes, execute);
      if s.SearchRaised? then CheckRaised
      else
        var formatted := Formatted(checkType, if s.Answered? then s.events else []);
        if formatted.None? then CheckRaised
        else CheckReport(checkType, m.description, formatted.value, |formatted.value|, minutes,
                         if s.Answered? then Some(s.query) else None)
  }

  method RunSecurityCheck(checkType: string, minutes: int, mapper: (string, int) -> Mapping,
                          execute: (string, int) -> Execution) returns (r: CheckResult)
    ensures r == SecurityCheck(checkType, minutes, mapper, execute)
  {
    var m := mapper(checkType, minutes);
    if m.Unmapped? {
      return Passthrough(m.response);
    }
    var s := FirstSuccess(m.queries, minutes, execute);
    if s.SearchRaised? {
      return CheckRaised;
    }
    var events := if s.Answered? then s.events else [];
    var formatted := Collect(Enumerate(events), Formatter(checkType));
    if formatted.None? {
      return CheckRaised;
    }
    r := CheckReport(checkType, m.description, formatted.value, |formatted.value|, minutes,
                     if s.Answered? then Some(s.query) else None);
  }

  /**
   * A report counts its events, numbers them `{check_type}_{index}` with
   * distinct ids, keeps each row as its details, and names the query used
   * exactly when one succeeded (which is then one of the mapped queries).
   */
  lemma SecurityCheckReport(checkType: string, minutes: int, mapper: (string, int) -> Mapping,
                            execute: (string, int) -> Execution)
    requires SecurityCheck(checkType, minutes, mapper, execute).CheckReport?
    ensures var r := SecurityCheck(checkType, minutes, mapper, execute);
      && mapper(checkType, minutes).Mapped?
      && r.totalEvents == |r.events|
      && (forall i :: 0 <= i < |r.events| ==> r.events[i].id == EventId(checkType, i) && r.events[i].checkType == checkType)
      && (forall i, j :: 0 <= i < j < |r.events| ==> r.events[i].id != r.events[j].id)
      && (r.queryUsed.None? <==> Searched(mapper(checkType, minutes).queries, minutes, execute).NoQuerySucceeded?)
      && (r.queryUsed.None? ==> r.events == [])
      && (r.queryUsed.Some? ==>
            r.queryUsed.value in mapper(checkType, minutes).queries
            && |r.events| == |Searched(mapper(checkType, minutes).queries, minutes, execute).events|)
  {
    var m := mapper(checkType, minutes);
    var s := Searched(m.queries, minutes, execute);
    SearchedAnswer(m.queries, minutes, execute);
    var r := SecurityCheck(checkType, minutes, mapper, execute);
    forall i, j | 0 <= i < j < |r.events|
      ensures r.events[i].id != r.events[j].id
    {
      EventIdsDistinct(checkType, i, j);
    }
  }

  /** Every query before the chosen one failed, and the chosen one succeeded. */
  lemma SecurityCheckStopsAtFirstSuccess(checkType: string, minutes: int, mapper: (string, int) -> Mapping,
                                         execute: (string, int) -> Execution, i: nat)
    requires mapper(checkType, minutes).Mapped?
    requires i < |mapper(checkType, minutes).queries|
    requires forall j :: 0 <= j < i ==> !Stops(execute(mapper(checkType, minutes).queries[j], minutes))
    requires execute(mapper(checkType, minutes).queries[i], minutes) == Executed(true, [])
    ensures SecurityCheck(checkType, minutes, mapper, execute) ==
              CheckReport(checkType, mapper(checkType, minutes).description, [], 0, minutes,
                          Some(mapper(checkType, minutes).queries[i]))
  {
    SearchedFirstSuccess(mapper(checkType, minutes).queries, minutes, execute, i);
    assert Enumerate([]) == [];
  }

  // ---------------------------------------------------------------- the event feed

  const CHECK_TYPES: seq<string> := ["failed_logins", "privilege_escalation", "suspicious_network", "audit_changes"]

  function Runner(minutes: int, mapper: (string, int) -> Mapping, execute: (string, int) -> Execution): string -> CheckResult
  {
    c => SecurityCheck(c, minutes, mapper, execute)
  }

  function SeverityMatcher(level: string): FormattedEvent -> bool
  {
    (e: FormattedEvent) => e.severity == level
  }

  /** The events one check adds to the feed: none unless it succeeded, then filtered unless "all". */
  function Kept(r: CheckResult, severity: string): seq<FormattedEvent>
  {
    if !r.CheckReport? then []
    else if severity == "all" then r.events
    else Filter(r.events, SeverityMatcher(Lower(severity)))
  }

  function Gathered(results: seq<CheckResult>, severity: string): seq<FormattedEvent>
  {
    if results == [] then [] else Gathered(results[..|results| - 1], severity) + Kept(results[|results| - 1], severity)
  }

  /**
   * An event is in the feed exactly when a successful check produced it
   * and, under a filter other than "all", its severity is the filter
   * lower-cased.
   */
  lemma {:induction false} GatheredMember(results: seq<CheckResult>, severity: string, e: FormattedEvent)
    ensures e in Gathered(results, severity) <==>
              (exists i :: 0 <= i < |results| && results[i].CheckReport? && e in results[i].events)
              && (severity != "all" ==> e.severity == Lower(severity))
  {
    if results != [] {
      var p := results[..|results| - 1];
      var last := results[|results| - 1];
      GatheredMember(p, severity, e);
      if last.CheckReport? && severity != "all" {
        FilterMember(last.events, SeverityMatcher(Lower(severity)), e);
      }
      assert forall i :: 0 <= i < |p| ==> p[i] == results[i];
      if exists i :: 0 <= i < |results| && results[i].CheckReport? && e in results[i].events {
        var i :| 0 <= i < |results| && results[i].CheckReport? && e in results[i].events;
        if i < |p| {
          assert p[i] == results[i];
        }
      }
    }
  }

  /** The sort key `x.get("timestamp", "")`, as text or as a number. */
  predicate AllTextStamps(events: seq<FormattedEvent>)
  {
    forall i :: 0 <= i < |events| ==> events[i].timestamp.JStr?
  }

  predicate AllNumberStamps(events: seq<FormattedEvent>)
  {
    forall i :: 0 <= i < |events| ==> events[i].timestamp.JInt? || events[i].timestamp.JBool?
  }

  function TextStamp(e: FormattedEvent): string
  {
    if e.timestamp.JStr? then e.timestamp.s else ""
  }

  function NumberStamp(e: FormattedEvent): Rank
  {
    ByReal(match e.timestamp
           case JInt(i) => i as real
           case JBool(b) => if b then 1.0 else 0.0
           case _ => 0.0)
  }

  /**
   * `sort(key=timestamp, reverse=True)`: text and numbers order among
   * themselves; two or more timestamps of any other mix make the
   * comparison raise (none).
   */
  function NewestFirst(events: seq<FormattedEvent>): Option<seq<FormattedEvent>>
  {
    if |events| < 2 then Some(events)
    else if AllTextStamps(events) then Some(SortByTextDesc(events, TextStamp))
    else if AllNumberStamps(events) then Some(SortDesc(events, NumberStamp))
    else None
  }

  datatype EventsResult = Events(events: seq<FormattedEvent>, total: nat, severityFilter: string, minutes: int) | EventsRaised

  /** `get_security_events`. */
  function SecurityEvents(severity: string, minutes: int, mapper: (string, int) -> Mapping,
                          execute: (string, int) -> Execution): (r: EventsResult)
    ensures r.Events? ==> r.total == |r.events| && r.severityFilter == severity && r.minutes == minutes
  {
    var all := Gathered(MapSeq(CHECK_TYPES, Runner(minutes, mapper, execute)), severity);
    var sorted := NewestFirst(all);
    if sorted.None? then EventsRaised else Events(sorted.value, |sorted.value|, severity, minutes)
  }

  method GetSecurityEvents(severity: string, minutes: int, mapper: (string, int) -> Mapping,
                           execute: (string, int) -> Execution) returns (r: EventsResult)
    ensures r == SecurityEvents(severity, minutes, mapper, execute)
  {
    var all: seq<FormattedEvent> := [];
    for i := 0 to |CHECK_TYPES|
      invariant all == Gathered(MapSeq(CHECK_TYPES[..i], Runner(minutes, mapper, execute)), severity)
    {
      var result := RunSecurityCheck(CHECK_TYPES[i], minutes, mapper, execute);
      assert CHECK_TYPES[..i + 1] == CHECK_TYPES[..i] + [CHECK_TYPES[i]];
      MapSeqSnoc(CHECK_TYPES[..i], CHECK_TYPES[i], Runner(minutes, mapper, execute));
      var done := MapSeq(CHECK_TYPES[..i], Runner(minutes, mapper, execute));
      assert (done + [result])[..|done + [result]| - 1] == done;
      all := all + Kept(result, severity);
    }
    assert CHECK_TYPES[..|CHECK_TYPES|] == CHECK_TYPES;
    var sorted := NewestFirst(all);
    if sorted.None? {
      return EventsRaised;
    }
    r := Events(sorted.value, |sorted.value|, severity, minutes);
  }

  /**
   * The feed holds exactly the gathered events, newest first; it fails only
   * when two or more timestamps are neither all text nor all numbers.
   */
  lemma NewestFirstProperties(events: seq<FormattedEvent>)
    ensures NewestFirst(events).None? <==> |events| >= 2 && !AllTextStamps(events) && !AllNumberStamps(events)
    ensures NewestFirst(events).Some? ==> multiset(NewestFirst(events).value) == multiset(events)
    ensures AllTextStamps(events) ==> NewestFirst(events).Some? && SortedByTextDesc(NewestFirst(events).value, TextStamp)
    ensures AllNumberStamps(events) && !AllTextStamps(events) ==>
              NewestFirst(events).Some? && SortedDesc(NewestFirst(events).value, NumberStamp)
  {
    if |events| >= 2 {
      if AllTextStamps(events) {
        SortByTextSorted(events, TextStamp);
      } else if AllNumberStamps(events) {
        SortDescSorted(events, NumberStamp);
      }
    }
  }

  /**
   * Under a filter other than "all" every returned event has the filter's
   * lower-cased severity; the feed is a reordering of what the four checks
   * kept, and its total is its length.
   */
  lemma SecurityEventsFiltered(severity: string, minutes: int, mapper: (string, int) -> Mapping,
                               execute: (string, int) -> Execution)
    ensures var r := SecurityEvents(severity, minutes, mapper, execute);
      r.Events? ==>
        && r.total == |r.events|
        && multiset(r.events) == multiset(Gathered(MapSeq(CHECK_TYPES, Runner(minutes, mapper, execute)), severity))
        && (severity != "all" ==> forall i :: 0 <= i < |r.events| ==> r.events[i].severity == Lower(severity))
  {
    var r := SecurityEvents(severity, minutes, mapper, execute);
    var all := Gathered(MapSeq(CHECK_TYPES, Runner(minutes, mapper, execute)), severity);
    NewestFirstProperties(all);
    if r.Events? && severity != "all" {
      forall i | 0 <= i < |r.events|
        ensures r.events[i].severity == Lower(severity)
      {
        assert r.events[i] in multiset(all);
        GatheredMember(MapSeq(CHECK_TYPES, Runner(minutes, mapper, execute)), severity, r.events[i]);
      }
    }
  }

  // ---------------------------------------------------------------- dashboard statistics

  datatype StatKey = FailedLogins | PrivilegeEscalations | BlockedConnections

  /** `security_checks`, in its insertion order. */
  const SECURITY_CHECKS: seq<(StatKey, string)> :=
    [(FailedLogins, "failed_logins"), (PrivilegeEscalations, "privilege_escalation"), (BlockedConnections, "suspicious_network")]

  const LAST_UPDATE := "2025-01-10T12:30:00Z"

  datatype Stats = Stats(totalEvents: int, criticalAlerts: nat, resolvedThreats: nat, failedLogins: nat,
                         privilegeEscalations: nat, blockedConnections: nat, uniqueSources: nat,
                         activeMonitoring: Json, systemHealth: nat, threatLevel: string, lastUpdate: string,
                         connectionStatus: string)

  datatype Dashboard = Dashboard(stats: Stats) | DashboardRaised

  /** What `list_log_sources` answered, or the exception it raised. */
  datatype SourcesAnswer = Sources(success: bool, sources: seq<Event>) | SourcesRaised

  /** The starting dictionary, with the connection test's `success` value filled in. */
  function Initial(active: Json): Stats
  {
    Stats(0, 0, 0, 0, 0, 0, 0, active, 95, "low", "", if JTruthy(active) then "connected" else "disconnected")
  }

  function CountOf(s: Stats, k: StatKey): nat
  {
    match k
    case FailedLogins => s.failedLogins
    case PrivilegeEscalations => s.privilegeEscalations
    case BlockedConnections => s.blockedConnections
  }

  /** `stats[stat_key] = count`. */
  function WithCount(s: Stats, k: StatKey, n: nat): (r: Stats)
    ensures CountOf(r, k) == n && forall other :: other != k ==> CountOf(r, other) == CountOf(s, other)
    ensures r.totalEvents == s.totalEvents && r.uniqueSources == s.uniqueSources
    ensures r.activeMonitoring == s.activeMonitoring && r.connectionStatus == s.connectionStatus
  {
    match k
    case FailedLogins => s.(failedLogins := n)
    case PrivilegeEscalations => s.(privilegeEscalations := n)
    case BlockedConnections => s.(blockedConnections := n)
  }

  /** `source.get("count", 0)` as a term of `sum`; text, lists and the rest make it raise. */
  function SourceCount(source: Event): Option<int>
  {
    var c := JGet(source, "count", JInt(0));
    if c.JInt? then Some(c.i) else if c.JBool? then Some(if c.b then 1 else 0) else None
  }

  function SummedCounts(sources: seq<Event>): (r: Option<int>)
    ensures r.None? <==> exists i :: 0 <= i < |sources| && SourceCount(sources[i]).None?
  {
    if sources == [] then Some(0)
    else
      var p := SummedCounts(sources[..|sources| - 1]);
      var c := SourceCount(sources[|sources| - 1]);
      assert forall i :: 0 <= i < |sources| - 1 ==> sources[..|sources| - 1][i] == sources[i];
      if p.Some? && c.Some? then Some(p.value + c.value) else None
  }

  function IsHigh(e: FormattedEvent): bool
  {
    e.severity == "high"
  }

  /** The counting loop over the three checks: the statistics so far and the critical count. */
  function Tally(checks: seq<(StatKey, string)>, run: string -> CheckResult, base: Stats): (Stats, nat)
  {
    if checks == [] then (base, 0)
    else
      var c := checks[|checks| - 1];
      Step(Tally(checks[..|checks| - 1], run, base), c.0, run(c.1))
  }

  /** One round of the counting loop. */
  function Step(t: (Stats, nat), key: StatKey, r: CheckResult): (Stats, nat)
  {
    if r.CheckReport? then (WithCount(t.0, key, |r.events|), t.1 + |Filter(r.events, IsHigh)|) else t
  }

  lemma TallySnoc(checks: seq<(StatKey, string)>, run: string -> CheckResult, base: Stats, i: nat)
    requires i < |checks|
    ensures Tally(checks[..i + 1], run, base) == Step(Tally(checks[..i], run, base), checks[i].0, run(checks[i].1))
  {
    assert checks[..i + 1][..i] == checks[..i];
  }

  /** `max(0, int(critical * 0.8))`. */
  function Resolved(critical: nat): nat
  {
    (4 * critical) / 5
  }

  /** The threat level and system health for a critical count. */
  function Level(critical: nat): (string, nat)
  {
    if critical > 10 then ("high", 70)
    else if critical > 5 then ("medium", 85)
    else ("low", 95)
  }

  function Finished(s: Stats, critical: nat): Stats
  {
    var level := Level(critical);
    s.(criticalAlerts := critical, resolvedThreats := Resolved(critical), threatLevel := level.0,
       systemHealth := level.1, lastUpdate := LAST_UPDATE)
  }

  /** The answer of `list_log_sources` folded into the statistics; none when `sum` raises. */
  function WithSources(s: Stats, answer: SourcesAnswer): Option<Stats>
  {
    if answer.SourcesRaised? then None
    else if !answer.success then Some(s)
    else
      var total := SummedCounts(answer.sources);
      if total.None? then None else Some(s.(uniqueSources := |answer.sources|, totalEvents := total.value))
  }

  /**
   * `get_dashboard_stats`: `connection` is the `success` value of the
   * connection test (none when it raised).
   */
  function DashboardStats(minutes: int, connection: Option<Json>, sources: SourcesAnswer,
                          mapper: (string, int) -> Mapping, execute: (string, int) -> Execution): (r: Dashboard)
    ensures r.DashboardRaised? <==>
              connection.None?
              || (JTruthy(connection.value)
                  && (sources.SourcesRaised?
                      || (sources.success && exists i :: 0 <= i < |sources.sources| && SourceCount(sources.sources[i]).None?)))
    ensures r.Dashboard? ==> r.stats.activeMonitoring == connection.value
    ensures r.Dashboard? ==> (r.stats.connectionStatus == "connected" <==> JTruthy(connection.value))
  {
    if connection.None? then DashboardRaised
    else
      var base := Initial(connection.value);
      if !JTruthy(connection.value) then Dashboard(base.(systemHealth := 0))
      else
        var s := WithSources(base, sources);
        if s.None? then DashboardRaised
        else
          var t := Tally(SECURITY_CHECKS, Runner(minutes, mapper, execute), s.value);
          TallyKeeps(SECURITY_CHECKS, Runner(minutes, mapper, execute), s.value);
          Dashboard(Finished(t.0, t.1))
  }

  method GetDashboardStats(minutes: int, connection: Option<Json>, sources: SourcesAnswer,
                           mapper: (string, int) -> Mapping, execute: (string, int) -> Execution)
    returns (r: Dashboard)
    ensures r == DashboardStats(minutes, connection, sources, mapper, execute)
  {
    if connection.None? {
      return DashboardRaised;
    }
    var stats := Initial(connection.value);
    if !JTruthy(connection.value) {
      stats := stats.(systemHealth := 0);
      return Dashboard(stats);
    }
    if sources.SourcesRaised? {
      return DashboardRaised;
    }
    if sources.success {
      var total := SummedCounts(sources.sources);
      if total.None? {
        return DashboardRaised;
      }
      stats := stats.(uniqueSources := |sources.sources|, totalEvents := total.value);
    }
    var critical: nat;
    stats, critical := TallyChecks(minutes, mapper, execute, stats);
    var level := Level(critical);
    stats := stats.(criticalAlerts := critical, resolvedThreats := Resolved(critical));
    stats := stats.(threatLevel := level.0, systemHealth := level.1);
    stats := stats.(lastUpdate := LAST_UPDATE);
    r := Dashboard(stats);
  }

  /** The loop over `security_checks`, counting each successful check's events and its high ones. */
  method TallyChecks(minutes: int, mapper: (string, int) -> Mapping, execute: (string, int) -> Execution, start: Stats)
    returns (stats: Stats, critical: nat)
    ensures (stats, critical) == Tally(SECURITY_CHECKS, Runner(minutes, mapper, execute), start)
  {
    stats := start;
    critical := 0;
    for i := 0 to |SECURITY_CHECKS|
      invariant stats == Tally(SECURITY_CHECKS[..i], Runner(minutes, mapper, execute), start).0
      invariant critical == Tally(SECURITY_CHECKS[..i], Runner(minutes, mapper, execute), start).1
    {
      var check := SECURITY_CHECKS[i];
      var result := RunSecurityCheck(check.1, minutes, mapper, execute);
      TallySnoc(SECURITY_CHECKS, Runner(minutes, mapper, execute), start, i);
      if result.CheckReport? {
        stats := WithCount(stats, check.0, |result.events|);
        critical := critical + |Filter(result.events, IsHigh)|;
      }
    }
    assert SECURITY_CHECKS[..|SECURITY_CHECKS|] == SECURITY_CHECKS;
  }

  /** The ladder: above 10 is high at 70, above 5 medium at 85, else low at 95. */
  lemma LevelLadder(critical: nat)
    ensures Level(critical).0 == "high" <==> critical > 10
    ensures Level(critical).0 == "medium" <==> 5 < critical <= 10
    ensures Level(critical).0 == "low" <==> critical <= 5
    ensures Level(critical).1 == (if critical > 10 then 70 else if critical > 5 then 85 else 95)
  {
  }

  /** `int(critical * 0.8)` truncates: at most the critical count, and the floor of four fifths of it. */
  lemma ResolvedBounds(critical: nat)
    ensures Resolved(critical) <= critical
    ensures 5 * Resolved(critical) <= 4 * critical < 5 * Resolved(critical) + 5
  {
  }

  /** The disconnected dashboard: health 0, every count 0, level low. */
  lemma DashboardDisconnected(minutes: int, active: Json, sources: SourcesAnswer,
                              mapper: (string, int) -> Mapping, execute: (string, int) -> Execution)
    requires !JTruthy(active)
    ensures var r := DashboardStats(minutes, Some(active), sources, mapper, execute);
      && r.Dashboard? && r.stats.systemHealth == 0 && r.stats.connectionStatus == "disconnected"
      && r.stats.threatLevel == "low" && r.stats.criticalAlerts == 0 && r.stats.resolvedThreats == 0
      && r.stats.failedLogins == 0 && r.stats.privilegeEscalations == 0 && r.stats.blockedConnections == 0
      && r.stats.totalEvents == 0 && r.stats.uniqueSources == 0 && r.stats.lastUpdate == ""
  {
  }

  /** Tallying leaves alone every field but the counts of the keys it visits. */
  lemma {:induction false} TallyFrame(checks: seq<(StatKey, string)>, run: string -> CheckResult, base: Stats, k: StatKey)
    requires forall i :: 0 <= i < |checks| ==> checks[i].0 != k
    ensures CountOf(Tally(checks, run, base).0, k) == CountOf(base, k)
  {
    if checks != [] {
      var p := checks[..|checks| - 1];
      assert forall i :: 0 <= i < |p| ==> p[i] == checks[i];
      TallyFrame(p, run, base, k);
    }
  }

  /** The tallied statistics keep the connection and source fields of where they started. */
  lemma {:induction false} TallyKeeps(checks: seq<(StatKey, string)>, run: string -> CheckResult, base: Stats)
    ensures var s := Tally(checks, run, base).0;
      s.totalEvents == base.totalEvents && s.uniqueSources == base.uniqueSources
      && s.activeMonitoring == base.activeMonitoring && s.connectionStatus == base.connectionStatus
  {
    if checks != [] {
      TallyKeeps(checks[..|checks| - 1], run, base);
    }
  }

  function CountTotal(s: Stats): nat
  {
    s.failedLogins + s.privilegeEscalations + s.blockedConnections
  }

  /**
   * With distinct keys whose counts start at 0, the critical count never
   * exceeds the events counted, since only events of counted checks are
   * critical.
   */
  lemma {:induction false} TallyCriticalBound(checks: seq<(StatKey, string)>, run: string -> CheckResult, base: Stats)
    requires forall i, j :: 0 <= i < j < |checks| ==> checks[i].0 != checks[j].0
    requires base.failedLogins == 0 && base.privilegeEscalations == 0 && base.blockedConnections == 0
    ensures Tally(checks, run, base).1 <= CountTotal(Tally(checks, run, base).0)
  {
    if checks != [] {
      var p := checks[..|checks| - 1];
      var c := checks[|checks| - 1];
      assert forall i :: 0 <= i < |p| ==> p[i] == checks[i];
      TallyCriticalBound(p, run, base);
      var t := Tally(p, run, base);
      var r := run(c.1);
      if r.CheckReport? {
        TallyFrame(p, run, base, c.0);
        assert CountOf(t.0, c.0) == 0;
        var s := WithCount(t.0, c.0, |r.events|);
        assert CountTotal(s) == CountTotal(t.0) + |r.events| by {
          match c.0
          case FailedLogins =>
          case PrivilegeEscalations =>
          case BlockedConnections =>
        }
      }
    }
  }

  /** Each visited key holds the event count of its check when that check succeeded. */
  lemma {:induction false} TallyCount(checks: seq<(StatKey, string)>, run: string -> CheckResult, base: Stats, i: nat)
    requires forall a, b :: 0 <= a < b < |checks| ==> checks[a].0 != checks[b].0
    requires i < |checks|
    ensures CountOf(Tally(checks, run, base).0, checks[i].0) ==
              if run(checks[i].1).CheckReport? then |run(checks[i].1).events| else CountOf(base, checks[i].0)
  {
    var p := checks[..|checks| - 1];
    assert forall a :: 0 <= a < |p| ==> p[a] == checks[a];
    if i == |checks| - 1 {
      TallyFrame(p, run, base, checks[i].0);
    } else {
      TallyCount(p, run, base, i);
    }
  }

  /**
   * A connected dashboard: the level ladder and the resolved bound hold,
   * each count is its check's event count (0 when the check failed), the
   * critical count is the number of `high` events of the three checks and
   * at most their sum, and the sources fill the totals.
   */
  lemma DashboardConnected(minutes: int, active: Json, sources: SourcesAnswer,
                           mapper: (string, int) -> Mapping, execute: (string, int) -> Execution)
    requires JTruthy(active)
    ensures var r := DashboardStats(minutes, Some(active), sources, mapper, execute);
      r.Dashboard? ==>
        var s := r.stats;
        && s.connectionStatus == "connected" && s.lastUpdate == LAST_UPDATE
        && (s.threatLevel == "high" <==> s.criticalAlerts > 10)
        && (s.threatLevel == "low" <==> s.criticalAlerts <= 5)
        && s.systemHealth == (if s.criticalAlerts > 10 then 70 else if s.criticalAlerts > 5 then 85 else 95)
        && 5 * s.resolvedThreats <= 4 * s.criticalAlerts < 5 * s.resolvedThreats + 5
        && s.criticalAlerts <= s.failedLogins + s.privilegeEscalations + s.blockedConnections
        && s.failedLogins == Counted(SecurityCheck("failed_logins", minutes, mapper, execute))
        && s.privilegeEscalations == Counted(SecurityCheck("privilege_escalation", minutes, mapper, execute))
        && s.blockedConnections == Counted(SecurityCheck("suspicious_network", minutes, mapper, execute))
        && s.criticalAlerts ==
             HighOf(SecurityCheck("failed_logins", minutes, mapper, execute))
             + HighOf(SecurityCheck("privilege_escalation", minutes, mapper, execute))
             + HighOf(SecurityCheck("suspicious_network", minutes, mapper, execute))
        && (sources.Sources? && sources.success ==>
              s.uniqueSources == |sources.sources| && s.totalEvents == SummedCounts(sources.sources).value)
  {
    var r := DashboardStats(minutes, Some(active), sources, mapper, execute);
    if r.Dashboard? {
      var base := Initial(active);
      var start := WithSources(base, sources).value;
      var run := Runner(minutes, mapper, execute);
      TallyCriticalBound(SECURITY_CHECKS, run, start);
      TallyKeeps(SECURITY_CHECKS, run, start);
      TallyCount(SECURITY_CHECKS, run, start, 0);
      TallyCount(SECURITY_CHECKS, run, start, 1);
      TallyCount(SECURITY_CHECKS, run, start, 2);
      TallyHigh(SECURITY_CHECKS, run, start);
      HighTotalOfChecks(run);
      LevelLadder(Tally(SECURITY_CHECKS, run, start).1);
    }
  }

  /** A check's contribution to its dashboard count. */
  function Counted(r: CheckResult): nat
  {
    if r.CheckReport? then |r.events| else 0
  }

  /** A check's contribution to the critical count: its events of severity `high`. */
  function HighOf(r: CheckResult): nat
  {
    if r.CheckReport? then |Filter(r.events, IsHigh)| else 0
  }

  /** The high events of every check run, added up in order. */
  function HighTotal(checks: seq<(StatKey, string)>, run: string -> CheckResult): nat
  {
    if checks == [] then 0
    else HighTotal(checks[..|checks| - 1], run) + HighOf(run(checks[|checks| - 1].1))
  }

  /** Over the three security checks, the high total is their three high counts. */
  lemma HighTotalOfChecks(run: string -> CheckResult)
    ensures HighTotal(SECURITY_CHECKS, run) ==
              HighOf(run("failed_logins")) + HighOf(run("privilege_escalation")) + HighOf(run("suspicious_network"))
  {
    var c := SECURITY_CHECKS;
    assert c[..|c| - 1] == [c[0], c[1]];
    assert [c[0], c[1]][..1] == [c[0]];
    assert [c[0]][..0] == [];
    assert HighTotal([c[0]], run) == HighOf(run("failed_logins"));
    assert HighTotal([c[0], c[1]], run) == HighOf(run("failed_logins")) + HighOf(run("privilege_escalation"));
  }

  /** The critical count of the loop is the sum of the checks' high events, whatever it starts from. */
  lemma {:induction false} TallyHigh(checks: seq<(StatKey, string)>, run: string -> CheckResult, base: Stats)
    ensures Tally(checks, run, base).1 == HighTotal(checks, run)
  {
    if checks != [] {
      TallyHigh(checks[..|checks| - 1], run, base);
    }
  }
}
