/**
 * The normalisation step of the VCN flow analyzer (scripts/vcn_analyzer.py):
 * rows returned by the flow-log query become `FlowRecord`s.
 *
 * A row is a dictionary whose values may be absent, null, numbers or text;
 * each field the parser reads is modelled by a small datatype that keeps
 * exactly the distinctions the parser makes. Date parsing (`fromisoformat`)
 * is taken as already done: a text value carries its parse result.
 */
module VcnRecords {
  import opened Common
  import Ipv4

  /**
   * What `fromisoformat` makes of a text: the instant in seconds, and
   * whether the text carried an offset (an aware datetime) or not (a naive
   * one). `Z` counts as an offset, since it is rewritten to `+00:00`.
   */
  datatype IsoTime = IsoTime(seconds: real, aware: bool)

  /** A `Time`/`Datetime` value. */
  datatype TimeValue =
    | TimeNull                                      // JSON null or another falsy non-int, non-str value
    | TimeInt(n: int)                               // epoch seconds, or milliseconds above 10^12
    | TimeText(text: string, iso: Option<IsoTime>)  // ISO text and what `fromisoformat` makes of it
    | TimeOther                                     // a truthy value of any other type

  /** A `start_time`/`end_time` value: falsy, or truthy with what `fromisoformat(str(value))` makes of it. */
  datatype Stamp = StampFalsy | StampText(iso: Option<IsoTime>)

  /** A `Source Port`/`Destination Port` value. */
  datatype PortValue = PortNull | PortInt(n: int) | PortText(s: string)

  /** An `Action` value: the query lists the column, so a missing action arrives as null. */
  datatype ActionValue = ActionNull | ActionText(s: string)

  datatype FlowRow = FlowRow(
    time: Option<TimeValue>,          // key `Time`
    datetime: Option<TimeValue>,      // key `Datetime`
    sourceIp: Option<string>,
    destinationIp: Option<string>,
    sourcePort: Option<PortValue>,
    destinationPort: Option<PortValue>,
    action: Option<ActionValue>,
    startTime: Option<Stamp>,         // key `start_time`
    startTimeAlt: Option<Stamp>,      // key `Start Time`
    endTime: Option<Stamp>,           // key `end_time`
    endTimeAlt: Option<Stamp>)        // key `End Time`

  /**
   * A parsed flow. `aware` tells whether its timestamp is an aware
   * datetime (from an ISO text with an offset) or a naive one (from an
   * epoch number, `utcnow()` or an ISO text without offset); `action` is
   * None for a null action.
   */
  datatype FlowRecord = FlowRecord(
    timestamp: real,
    aware: bool,
    sourceIp: string,
    destIp: string,
    sourcePort: int,
    destPort: int,
    protocol: string,
    action: Option<string>,
    bytesSent: int,
    packetsSent: int,
    duration: real,
    isInternalSrc: bool,
    isInternalDst: bool,
    flowKey: string)

  /** Every parsed flow is assumed to carry this many bytes. */
  const DEFAULT_BYTES := 1024
  const DEFAULT_PACKETS := 1

  /** The dataclass `__post_init__`: internal flags and the flow key. */
  function MakeFlowRecord(timestamp: real, aware: bool, src: string, dst: string, sport: int, dport: int,
                          action: Option<string>, duration: real): (r: FlowRecord)
    ensures r.isInternalSrc == Ipv4.IsInternal(src) && r.isInternalDst == Ipv4.IsInternal(dst)
    ensures r.flowKey == src + ":" + IntToString(sport) + "->" + dst + ":" + IntToString(dport)
    ensures r.protocol == "TCP" && r.bytesSent == DEFAULT_BYTES && r.packetsSent == DEFAULT_PACKETS
  {
    FlowRecord(timestamp, aware, src, dst, sport, dport, "TCP", action, DEFAULT_BYTES, DEFAULT_PACKETS,
               duration, Ipv4.IsInternal(src), Ipv4.IsInternal(dst),
               src + ":" + IntToString(sport) + "->" + dst + ":" + IntToString(dport))
  }

  predicate Truthy(v: TimeValue)
  {
    match v
    case TimeNull => false
    case TimeInt(n) => n != 0
    case TimeText(t, _) => t != ""
    case TimeOther => true
  }

  /** `flow.get('Time', flow.get('Datetime', ''))`. */
  function TimeField(row: FlowRow): TimeValue
  {
    if row.time.Some? then row.time.value
    else if row.datetime.Some? then row.datetime.value
    else TimeText("", None)
  }

  /**
   * The timestamp one `Time` value gives, in seconds, `now` standing for
   * `utcnow()`; None when parsing raises: an ISO text that does not parse,
   * or an epoch number `fromtimestamp` rejects.
   */
  function TimeOf(v: TimeValue, now: real): (r: Option<real>)
    ensures !Truthy(v) || v.TimeOther? ==> r == Some(now)
    ensures v.TimeInt? && v.n != 0 ==> (r.Some? <==> InEpochRange(EpochSeconds(v.n)))
    ensures v.TimeInt? && v.n > MILLISECONDS_ABOVE && r.Some? ==> r.value * 1000.0 == v.n as real
    ensures v.TimeInt? && v.n != 0 && v.n <= MILLISECONDS_ABOVE && r.Some? ==> r.value == v.n as real
    ensures v.TimeText? && v.text != "" ==> (r.Some? <==> v.iso.Some?) && (r.Some? ==> r.value == v.iso.value.seconds)
  {
    if !Truthy(v) then Some(now)
    else match v
      case TimeInt(n) => if InEpochRange(EpochSeconds(n)) then Some(EpochSeconds(n)) else None
      case TimeText(_, iso) => if iso.Some? then Some(iso.value.seconds) else None
      case _ => Some(now)
  }

  /** The timestamp is aware exactly when it comes from an ISO text with an offset. */
  predicate TimeAware(v: TimeValue)
  {
    Truthy(v) && v.TimeText? && v.iso.Some? && v.iso.value.aware
  }

  /**
   * The timestamp of a row: the `Time` value if the key is present (even
   * when null), else the `Datetime` value, else the current instant.
   */
  function ParseTimestamp(row: FlowRow, now: real): (r: Option<real>)
    ensures row.time.Some? ==> r == TimeOf(row.time.value, now)
    ensures row.time.None? && row.datetime.Some? ==> r == TimeOf(row.datetime.value, now)
    ensures row.time.None? && row.datetime.None? ==> r == Some(now)
  {
    TimeOf(TimeField(row), now)
  }

  /** `int(flow.get(field, 0) or 0)`; None when `int()` raises. */
  function ParsePort(v: Option<PortValue>): (r: Option<int>)
    ensures v.None? || v == Some(PortNull) ==> r == Some(0)
    ensures v.Some? && v.value.PortInt? ==> r == Some(v.value.n)
    ensures v.Some? && v.value.PortText? && v.value.s != "" ==> r == ParseInt(v.value.s)
  {
    match v
    case None => Some(0)
    case Some(PortNull) => Some(0)
    case Some(PortInt(n)) => Some(n)
    case Some(PortText(s)) => if s == "" then Some(0) else ParseInt(s)
  }

  /** `flow.get('start_time', flow.get('Start Time'))`. */
  function StartStamp(row: FlowRow): Stamp
  {
    if row.startTime.Some? then row.startTime.value
    else if row.startTimeAlt.Some? then row.startTimeAlt.value else StampFalsy
  }

  /** `flow.get('end_time', flow.get('End Time'))`. */
  function EndStamp(row: FlowRow): Stamp
  {
    if row.endTime.Some? then row.endTime.value
    else if row.endTimeAlt.Some? then row.endTimeAlt.value else StampFalsy
  }

  /** Both stamps are truthy, both parse, and both are aware or both naive. */
  predicate Subtractable(row: FlowRow)
  {
    var st, et := StartStamp(row), EndStamp(row);
    st.StampText? && et.StampText? && st.iso.Some? && et.iso.Some? && st.iso.value.aware == et.iso.value.aware
  }

  /**
   * `(end_dt - start_dt).total_seconds()` when both stamps are present
   * and parse; 0 when one is missing or falsy, when one does not parse,
   * and when one is aware and the other naive (the subtraction raises and
   * the bare `except` gives 0).
   */
  function ParseDuration(row: FlowRow): (r: real)
    ensures Subtractable(row) ==> r == EndStamp(row).iso.value.seconds - StartStamp(row).iso.value.seconds
    ensures !Subtractable(row) ==> r == 0.0
    ensures (row.startTime.None? && row.startTimeAlt.None?) ==> r == 0.0
  {
    match (StartStamp(row), EndStamp(row))
    case (StampText(Some(s)), StampText(Some(e))) => if s.aware == e.aware then e.seconds - s.seconds else 0.0
    case _ => 0.0
  }

  function Text(v: Option<string>): string
  {
    if v.Some? then v.value else ""
  }

  /** `flow.get('Action', 'ACCEPT')`: the default only when the key is absent; None for a null. */
  function ActionOf(row: FlowRow): (r: Option<string>)
    ensures row.action.None? ==> r == Some("ACCEPT")
    ensures row.action == Some(ActionNull) <==> r.None?
  {
    match row.action
    case None => Some("ACCEPT")
    case Some(ActionNull) => None
    case Some(ActionText(a)) => Some(a)
  }

  /**
   * One row of `_parse_flow_records`: None when the row is skipped, either
   * because a field raised or because an address is empty.
   */
  function ParseFlow(row: FlowRow, now: real): (r: Option<FlowRecord>)
    ensures r.Some? <==>
              Text(row.sourceIp) != "" && Text(row.destinationIp) != ""
              && ParseTimestamp(row, now).Some?
              && ParsePort(row.sourcePort).Some? && ParsePort(row.destinationPort).Some?
    ensures r.Some? ==>
              && r.value.sourceIp == Text(row.sourceIp) && r.value.destIp == Text(row.destinationIp)
              && r.value.timestamp == ParseTimestamp(row, now).value
              && r.value.sourcePort == ParsePort(row.sourcePort).value
              && r.value.destPort == ParsePort(row.destinationPort).value
              && r.value.aware == TimeAware(TimeField(row))
              && r.value.action == ActionOf(row)
              && r.value.bytesSent == 1024 && r.value.packetsSent == 1 && r.value.protocol == "TCP"
              && r.value.duration == ParseDuration(row)
  {
    match (ParseTimestamp(row, now), ParsePort(row.sourcePort), ParsePort(row.destinationPort))
    case (Some(ts), Some(sp), Some(dp)) =>
      var src, dst := Text(row.sourceIp), Text(row.destinationIp);
      if src != "" && dst != "" then
        Some(MakeFlowRecord(ts, TimeAware(TimeField(row)), src, dst, sp, dp, ActionOf(row), ParseDuration(row)))
      else None
    case _ => None
  }

  /** The records `_parse_flow_records` returns, in row order. */
  function ParsedRecords(rows: seq<FlowRow>, now: real): seq<FlowRecord>
  {
    if rows == [] then []
    else
      var init := ParsedRecords(rows[..|rows| - 1], now);
      match ParseFlow(rows[|rows| - 1], now)
      case Some(rec) => init + [rec]
      case None => init
  }

  method ParseFlowRecords(rows: seq<FlowRow>, now: real) returns (records: seq<FlowRecord>)
    ensures records == ParsedRecords(rows, now)
  {
    records := [];
    var i := 0;
    while i < |rows|
      invariant 0 <= i <= |rows|
      invariant records == ParsedRecords(rows[..i], now)
    {
      assert rows[..i + 1][..i] == rows[..i];
      var r := ParseFlow(rows[i], now);
      if r.Some? {
        records := records + [r.value];
      }
      i := i + 1;
    }
    assert rows[..i] == rows;
  }

  /** Parsing distributes over concatenation: input order is preserved. */
  lemma {:induction false} ParsedRecordsAppend(a: seq<FlowRow>, b: seq<FlowRow>, now: real)
    ensures ParsedRecords(a + b, now) == ParsedRecords(a, now) + ParsedRecords(b, now)
    decreases |b|
  {
    if b == [] {
      assert a + b == a;
    } else {
      assert (a + b)[..|a + b| - 1] == a + b[..|b| - 1];
      ParsedRecordsAppend(a, b[..|b| - 1], now);
    }
  }

  /**
   * Every record comes from a row, carries the fixed byte and packet
   * counts and has non-empty addresses; at most one record per row.
   */
  lemma {:induction false} ParsedRecordsShape(rows: seq<FlowRow>, now: real)
    ensures |ParsedRecords(rows, now)| <= |rows|
    ensures forall i :: 0 <= i < |ParsedRecords(rows, now)| ==>
              var r := ParsedRecords(rows, now)[i];
              r.bytesSent == 1024 && r.packetsSent == 1 && r.sourceIp != "" && r.destIp != ""
  {
    if rows != [] {
      ParsedRecordsShape(rows[..|rows| - 1], now);
    }
  }

  /** A row with both addresses and well-formed fields yields exactly one record. */
  lemma ParseSingleRow(row: FlowRow, now: real)
    ensures ParsedRecords([row], now) == (if ParseFlow(row, now).Some? then [ParseFlow(row, now).value] else [])
  {
    assert [row][..0] == [];
  }

  /** The record of a row that parses is among the parsed records. */
  lemma ParsedRecordsContains(rows: seq<FlowRow>, i: int, now: real)
    requires 0 <= i < |rows| && ParseFlow(rows[i], now).Some?
    ensures ParseFlow(rows[i], now).value in ParsedRecords(rows, now)
  {
    assert rows == rows[..i + 1] + rows[i + 1..];
    ParsedRecordsAppend(rows[..i + 1], rows[i + 1..], now);
    assert rows[..i + 1][..i] == rows[..i];
  }

  /** Rows whose timestamps are never aware give only naive records. */
  lemma {:induction false} ParsedRecordsNaive(rows: seq<FlowRow>, now: real)
    requires forall i :: 0 <= i < |rows| ==> !TimeAware(TimeField(rows[i]))
    ensures forall k :: 0 <= k < |ParsedRecords(rows, now)| ==> !ParsedRecords(rows, now)[k].aware
  {
    if rows != [] {
      ParsedRecordsNaive(rows[..|rows| - 1], now);
    }
  }

  /** A null action in a parsed record comes from a row whose `Action` is null. */
  lemma {:induction false} ParsedRecordsActions(rows: seq<FlowRow>, now: real, k: int)
    requires 0 <= k < |ParsedRecords(rows, now)| && ParsedRecords(rows, now)[k].action.None?
    ensures exists i :: 0 <= i < |rows| && rows[i].action == Some(ActionNull)
  {
    var init := ParsedRecords(rows[..|rows| - 1], now);
    if k < |init| {
      ParsedRecordsActions(rows[..|rows| - 1], now, k);
      var i :| 0 <= i < |rows| - 1 && rows[..|rows| - 1][i].action == Some(ActionNull);
      assert rows[i] == rows[..|rows| - 1][i];
    } else {
      assert rows[|rows| - 1].action == Some(ActionNull);
    }
  }
}
