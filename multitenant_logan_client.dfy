/**
 * The multitenant Logging Analytics client: one query fanned out to
 * several OCI environments, the relative time filter put in front of it,
 * and the per-environment answers merged or grouped by environment.
 * The SDK itself is a function parameter: given an environment and the
 * query string it returns what the service answered (or the exception).
 */
module MultitenantLoganClient {
  import opened Common

  // ---------------------------------------------------------------- time range

  /** Length of the run of decimal digits (`\d`, any Unicode decimal digit) at the front of `s`. */
  function LeadingDigits(s: string): (n: nat)
    ensures n <= |s|
    ensures forall i :: 0 <= i < n ==> IsDecimal(s[i])
    ensures n == |s| || !IsDecimal(s[n])
  {
    if s == [] || !IsDecimal(s[0]) then 0
    else
      var n := LeadingDigits(s[1..]);
      assert forall i :: 1 <= i < 1 + n ==> s[i] == s[1..][i - 1];
      1 + n
  }

  predicate IsUnit(c: char)
  {
    c == 'm' || c == 'h' || c == 'd'
  }

  /** `re.match(r'(\d+)([mhd])', s)` matches with `k` digits in its first group. */
  predicate MatchesAt(s: string, k: int)
  {
    1 <= k < |s| && IsDecimals(s[..k]) && IsUnit(s[k])
  }

  /** The Logging Analytics filter for the last `value` minutes, hours or days. */
  function RelativeFilter(value: nat, unit: char): (r: string)
    ensures r != ""
  {
    "'Start Time' > dateRelative(" + NatToString(value) + [unit] + ")"
  }

  /**
   * `_parse_time_range`: the filter for leading digits and a unit, and ""
   * otherwise; `int()` reads the digits, whatever their script, as their
   * decimal value.
   */
  function ParseTimeRange(timeRange: string): (r: string)
  {
    if timeRange == "" then ""
    else
      var n := LeadingDigits(timeRange);
      if n == 0 || n == |timeRange| || !IsUnit(timeRange[n]) then ""
      else
        assert IsDecimals(timeRange[..n]) by {
          assert forall i :: 0 <= i < n ==> timeRange[..n][i] == timeRange[i];
        }
        RelativeFilter(DecimalsValue(timeRange[..n]), timeRange[n])
  }

  /** Only one digit count can match: the digit run ends where the unit letter stands. */
  lemma MatchIsLeadingDigits(s: string, k: int)
    requires MatchesAt(s, k)
    ensures k == LeadingDigits(s)
  {
    var n := LeadingDigits(s);
    assert !IsDecimal(s[k]);
    assert forall i :: 0 <= i < k ==> IsDecimal(s[i]) by {
      forall i | 0 <= i < k
        ensures IsDecimal(s[i])
      {
        assert s[..k][i] == s[i];
      }
    }
  }

  /**
   * The time filter is non-empty exactly when the regular expression
   * matches, and then it holds the integer value of the digits and the unit.
   */
  lemma ParseTimeRangeMatches(s: string)
    ensures ParseTimeRange(s) != "" <==> exists k :: MatchesAt(s, k)
    ensures forall k :: MatchesAt(s, k) ==> ParseTimeRange(s) == RelativeFilter(DecimalsValue(s[..k]), s[k])
  {
    forall k | MatchesAt(s, k)
      ensures ParseTimeRange(s) == RelativeFilter(DecimalsValue(s[..k]), s[k])
    {
      MatchIsLeadingDigits(s, k);
    }
    if ParseTimeRange(s) != "" {
      assert MatchesAt(s, LeadingDigits(s));
    }
  }

  /** `str(n)` followed by a unit reads back as `n` units, whatever follows (`"60m"`, `"24hours"`). */
  lemma ParseTimeRangeOfWindow(n: nat, unit: char, rest: string)
    requires IsUnit(unit)
    ensures ParseTimeRange(NatToString(n) + [unit] + rest) == RelativeFilter(n, unit)
  {
    var s := NatToString(n) + [unit] + rest;
    var k := |NatToString(n)|;
    assert s[..k] == NatToString(n);
    DecimalsValueOfDigits(NatToString(n));
    assert MatchesAt(s, k);
    ParseTimeRangeMatches(s);
    DigitsValueOfNatToString(n);
  }

  /** Leading zeros are dropped by `int()`: `"007h"` is seven hours. */
  lemma ParseTimeRangeLeadingZeros()
    ensures ParseTimeRange("007h") == RelativeFilter(7, 'h')
    ensures ParseTimeRange("60") == ""
    ensures ParseTimeRange("h") == ""
    ensures ParseTimeRange("1.5h") == ""
  {
    assert LeadingDigits("007h") == 3;
    assert "007h"[..3] == "007";
    DecimalsValueOfDigits("007");
    assert DigitsValue("007") == 7 by {
      assert "007"[..2] == "00";
      assert "00"[..1] == "0";
    }
    assert LeadingDigits("60") == 2;
    assert LeadingDigits("1.5h") == 1;
  }

  // ---------------------------------------------------------------- query string

  /** The query string one environment receives: `"{filter} and ({query})"`, or the query alone. */
  function ComposeQuery(timeFilter: string, query: string): (r: string)
    ensures r == query <==> timeFilter == ""
    ensures timeFilter != "" ==> |r| == |timeFilter| + |query| + 7 && StartsWith(r, timeFilter) && r[|timeFilter| + 6..|r| - 1] == query
  {
    if timeFilter != "" then timeFilter + " and (" + query + ")" else query
  }

  /** Without a recognised time range the query is sent unchanged. */
  lemma ComposeQueryWindow(query: string, timeRange: string)
    ensures ComposeQuery(ParseTimeRange(timeRange), query) == query <==> !exists k :: MatchesAt(timeRange, k)
    ensures forall k :: MatchesAt(timeRange, k) ==>
      StartsWith(ComposeQuery(ParseTimeRange(timeRange), query), RelativeFilter(DecimalsValue(timeRange[..k]), timeRange[k]))
  {
    ParseTimeRangeMatches(timeRange);
  }

  // ---------------------------------------------------------------- one environment

  datatype Environment = Environment(id: string, name: string, compartmentId: string, namespace: string, region: string)

  /** What the SDK call for one environment produced. */
  datatype Response =
    | Raised(error: string)
      // `response.data` is empty or has no `results`
    | NoResults
      // the `data` of each result item that has one, and each field's `name` when it has one
    | Answered(items: seq<Option<Json>>, fieldNames: seq<Option<string>>)

  datatype QueryData = QueryData(results: seq<Json>, count: int, fields: seq<string>)

  datatype EnvResult =
    | Succeeded(environmentId: string, environmentName: string, data: QueryData)
    | Failed(environmentId: string, environmentName: string, error: string)

  /** The values that are present, in order. */
  function Present<T(==,!new)>(s: seq<Option<T>>): (r: seq<T>)
    ensures |r| <= |s|
    ensures forall x :: x in r <==> Some(x) in s
  {
    if s == [] then []
    else
      var p := Present(s[..|s| - 1]);
      assert forall o :: o in s <==> o in s[..|s| - 1] || o == s[|s| - 1];
      if s[|s| - 1].Some? then p + [s[|s| - 1].value] else p
  }

  /** One item contributes its value if it has one, and nothing otherwise. */
  lemma PresentSingle<T(!new)>(o: Option<T>)
    ensures Present([o]) == if o.Some? then [o.value] else []
  {
    assert [o][..0] == [];
  }

  /**
   * Present distributes over concatenation: the values of the first part
   * come first, in their order, followed by those of the second part.
   * With PresentSingle this fixes the order and the multiplicity of every value.
   */
  lemma {:induction false} PresentAppend<T(!new)>(a: seq<Option<T>>, b: seq<Option<T>>)
    ensures Present(a + b) == Present(a) + Present(b)
  {
    if b == [] {
      assert a + b == a;
    } else {
      var c, init, last := a + b, b[..|b| - 1], b[|b| - 1];
      var tail := if last.Some? then [last.value] else [];
      assert c[..|c| - 1] == a + init && c[|c| - 1] == last;
      assert Present(c) == Present(a + init) + tail;
      PresentAppend(a, init);
      assert Present(b) == Present(init) + tail;
      assert Present(a) + Present(init) + tail == Present(a) + (Present(init) + tail);
    }
  }

  /** `query_environment`, with the SDK's answer to the composed query as `sdk`. */
  function QueryEnvironment(env: Environment, query: string, timeRange: string,
                            sdk: (Environment, string) -> Response): (r: EnvResult)
    ensures r.environmentId == env.id && r.environmentName == env.name
    ensures var answer := sdk(env, ComposeQuery(ParseTimeRange(timeRange), query));
      && (r.Failed? <==> answer.Raised?)
      && (r.Failed? ==> r.error == answer.error)
      && (r.Succeeded? ==> r.data.count == |r.data.results|)
      && (answer.NoResults? ==> r.data == QueryData([], 0, []))
      && (answer.Answered? ==> forall x :: x in r.data.results <==> Some(x) in answer.items)
      && (answer.Answered? ==> forall f :: f in r.data.fields <==> Some(f) in answer.fieldNames)
      && (answer.Answered? ==> r.data.results == Present(answer.items) && r.data.fields == Present(answer.fieldNames))
  {
    match sdk(env, ComposeQuery(ParseTimeRange(timeRange), query))
    case Raised(error) => Failed(env.id, env.name, error)
    case NoResults => Succeeded(env.id, env.name, QueryData([], 0, []))
    case Answered(items, fieldNames) =>
      var results := Present(items);
      Succeeded(env.id, env.name, QueryData(results, |results|, Present(fieldNames)))
  }

  function Querier(query: string, timeRange: string, sdk: (Environment, string) -> Response): Environment -> EnvResult
  {
    (env: Environment) => QueryEnvironment(env, query, timeRange, sdk)
  }

  /** The client: the environments it was configured with, in the order they were added. */
  class Client {
    var environments: seq<Environment>

    constructor ()
      ensures environments == []
    {
      environments := [];
    }

    method AddEnvironment(env: Environment)
      modifies this
      ensures environments == old(environments) + [env]
    {
      environments := environments + [env];
    }

    /**
     * `query_all_environments`: one result per environment. Sequentially
     * (or with a single environment) they come in environment order; in
     * parallel they come in completion order, of which only the multiset
     * is promised.
     */
    method QueryAllEnvironments(query: string, timeRange: string, parallel: bool,
                                sdk: (Environment, string) -> Response) returns (r: seq<EnvResult>)
      ensures environments == [] ==> r == []
      ensures multiset(r) == multiset(MapSeq(environments, Querier(query, timeRange, sdk)))
      ensures !parallel || |environments| <= 1 ==>
        |r| == |environments| &&
        forall i :: 0 <= i < |r| ==> r[i] == QueryEnvironment(environments[i], query, timeRange, sdk)
    {
      if environments == [] {
        return [];
      }
      r := MapSeq(environments, Querier(query, timeRange, sdk));
      MapSeqPointwise(environments, Querier(query, timeRange, sdk));
    }
  }

  // ---------------------------------------------------------------- aggregation

  predicate IsSuccess(r: EnvResult)
  {
    r.Succeeded?
  }

  /** `result.get('data', {})`. */
  function DataOf(r: EnvResult): QueryData
  {
    if r.Succeeded? then r.data else QueryData([], 0, [])
  }

  function RowCount(r: EnvResult): int
  {
    |DataOf(r).results|
  }

  /** The result lists of `rs`, one after the other. */
  function MergedRows(rs: seq<EnvResult>): seq<Json>
  {
    if rs == [] then [] else MergedRows(rs[..|rs| - 1]) + DataOf(rs[|rs| - 1]).results
  }

  /** `set(xs)`. */
  function Elements(xs: seq<string>): (r: set<string>)
    ensures forall x :: x in r <==> x in xs
  {
    set i | 0 <= i < |xs| :: xs[i]
  }

  /** Every field name any of `rs` reports. */
  function MergedFields(rs: seq<EnvResult>): set<string>
  {
    if rs == [] then {} else MergedFields(rs[..|rs| - 1]) + Elements(DataOf(rs[|rs| - 1]).fields)
  }

  /** The `grouped[env_id] = result` loop: each id bound to its last result. */
  function GroupedById(rs: seq<EnvResult>): map<string, EnvResult>
  {
    if rs == [] then map[] else GroupedById(rs[..|rs| - 1])[rs[|rs| - 1].environmentId := rs[|rs| - 1]]
  }

  const NO_SUCCESS := "No successful results to aggregate"

  datatype Aggregated =
    | NothingToAggregate(error: string, results: seq<EnvResult>)
    | Merged(rows: seq<Json>, count: int, fields: set<string>, environmentResults: seq<EnvResult>)
    | Grouped(groups: map<string, EnvResult>, environmentResults: seq<EnvResult>)
    | UnknownAggregation(error: string)

  /**
   * `aggregate_results` as a value. The list of fields is `list(set)`,
   * whose order is unspecified, so it is a set here.
   */
  function Aggregate(results: seq<EnvResult>, aggregationType: string): Aggregated
  {
    var ok := Filter(results, IsSuccess);
    if ok == [] then NothingToAggregate(NO_SUCCESS, results)
    else if aggregationType == "merge" then
      var rows := MergedRows(ok);
      Merged(rows, |rows|, MergedFields(ok), results)
    else if aggregationType == "group" then Grouped(GroupedById(results), results)
    else UnknownAggregation("Unknown aggregation type: " + aggregationType)
  }

  /** `aggregate_results`: the merge loop extends the rows and the field set, the group loop updates the dict. */
  method AggregateResults(results: seq<EnvResult>, aggregationType: string) returns (r: Aggregated)
    ensures r == Aggregate(results, aggregationType)
  {
    var successful := Filter(results, IsSuccess);
    if successful == [] {
      return NothingToAggregate(NO_SUCCESS, results);
    }
    if aggregationType == "merge" {
      var merged: seq<Json> := [];
      var allFields: set<string> := {};
      var i := 0;
      while i < |successful|
        invariant 0 <= i <= |successful|
        invariant merged == MergedRows(successful[..i])
        invariant allFields == MergedFields(successful[..i])
      {
        var data := DataOf(successful[i]);
        assert successful[..i + 1][..i] == successful[..i];
        merged := merged + data.results;
        allFields := allFields + Elements(data.fields);
        i := i + 1;
      }
      assert successful[..i] == successful;
      return Merged(merged, |merged|, allFields, results);
    } else if aggregationType == "group" {
      var grouped: map<string, EnvResult> := map[];
      var i := 0;
      while i < |results|
        invariant 0 <= i <= |results|
        invariant grouped == GroupedById(results[..i])
      {
        assert results[..i + 1][..i] == results[..i];
        grouped := grouped[results[i].environmentId := results[i]];
        i := i + 1;
      }
      assert results[..i] == results;
      return Grouped(grouped, results);
    }
    return UnknownAggregation("Unknown aggregation type: " + aggregationType);
  }

  /** Aggregation fails, handing back the original list, exactly when no environment succeeded. */
  lemma AggregateNothingToAggregate(results: seq<EnvResult>, aggregationType: string)
    ensures Aggregate(results, aggregationType).NothingToAggregate? <==> forall i :: 0 <= i < |results| ==> results[i].Failed?
    ensures Aggregate(results, aggregationType).NothingToAggregate? ==>
      Aggregate(results, aggregationType) == NothingToAggregate(NO_SUCCESS, results)
  {
    var ok := Filter(results, IsSuccess);
    forall i | 0 <= i < |results|
      ensures results[i].Succeeded? ==> results[i] in ok
    {
      FilterMember(results, IsSuccess, results[i]);
    }
    if ok != [] {
      FilterMember(results, IsSuccess, ok[0]);
    }
  }

  /** A type other than merge or group fails, once something succeeded. */
  lemma AggregateUnknownType(results: seq<EnvResult>, aggregationType: string)
    requires exists i :: 0 <= i < |results| && results[i].Succeeded?
    requires aggregationType != "merge" && aggregationType != "group"
    ensures Aggregate(results, aggregationType) == UnknownAggregation("Unknown aggregation type: " + aggregationType)
  {
    AggregateNothingToAggregate(results, aggregationType);
  }

  lemma {:induction false} MergedRowsConcat(a: seq<EnvResult>, b: seq<EnvResult>)
    ensures MergedRows(a + b) == MergedRows(a) + MergedRows(b)
    decreases |b|
  {
    if b == [] {
      assert a + b == a;
    } else {
      assert (a + b)[..|a + b| - 1] == a + b[..|b| - 1];
      MergedRowsConcat(a, b[..|b| - 1]);
    }
  }

  lemma {:induction false} MergedRowsLength(rs: seq<EnvResult>)
    ensures |MergedRows(rs)| == SumInt(rs, RowCount)
  {
    if rs != [] {
      MergedRowsLength(rs[..|rs| - 1]);
    }
  }

  lemma {:induction false} MergedFieldsMember(rs: seq<EnvResult>, f: string)
    ensures f in MergedFields(rs) <==> exists r :: r in rs && f in DataOf(r).fields
  {
    if rs != [] {
      var p := rs[..|rs| - 1];
      MergedFieldsMember(p, f);
      assert forall r :: r in rs <==> r in p || r == rs[|rs| - 1];
    }
  }

  /**
   * Merging puts the successful results' rows one after the other in
   * result order: a successful result between `before` and `after`
   * contributes its rows between theirs. Failed results contribute nothing,
   * and `count` is the total number of rows.
   */
  lemma MergeInOrder(before: seq<EnvResult>, x: EnvResult, after: seq<EnvResult>)
    ensures var results := before + [x] + after;
      var rows := MergedRows(Filter(results, IsSuccess));
      && rows == MergedRows(Filter(before, IsSuccess)) + (if x.Succeeded? then x.data.results else []) + MergedRows(Filter(after, IsSuccess))
      && |rows| == SumInt(Filter(results, IsSuccess), RowCount)
  {
    var results := before + [x] + after;
    FilterConcat(before + [x], after, IsSuccess);
    FilterConcat(before, [x], IsSuccess);
    assert Filter([x], IsSuccess) == (if x.Succeeded? then [x] else []) by {
      assert [x][..0] == [];
    }
    var fb := Filter(before, IsSuccess);
    var fx := Filter([x], IsSuccess);
    var fa := Filter(after, IsSuccess);
    MergedRowsConcat(fb + fx, fa);
    MergedRowsConcat(fb, fx);
    if x.Succeeded? {
      assert MergedRows([x]) == x.data.results by {
        assert [x][..0] == [];
      }
    }
    MergedRowsLength(Filter(results, IsSuccess));
  }

  /** The merged field set is every field of every successful result. */
  lemma MergeFields(results: seq<EnvResult>, aggregationType: string, f: string)
    requires aggregationType == "merge"
    requires Aggregate(results, aggregationType).Merged?
    ensures f in Aggregate(results, aggregationType).fields <==>
      exists i :: 0 <= i < |results| && results[i].Succeeded? && f in results[i].data.fields
  {
    var ok := Filter(results, IsSuccess);
    MergedFieldsMember(ok, f);
    if f in MergedFields(ok) {
      var r :| r in ok && f in DataOf(r).fields;
      FilterMember(results, IsSuccess, r);
      var i :| 0 <= i < |results| && results[i] == r;
    }
    if exists i :: 0 <= i < |results| && results[i].Succeeded? && f in results[i].data.fields {
      var i :| 0 <= i < |results| && results[i].Succeeded? && f in results[i].data.fields;
      FilterMember(results, IsSuccess, results[i]);
    }
  }

  /** Grouping has one entry per environment id of any result, failed ones included. */
  lemma {:induction false} GroupedByIdKeys(rs: seq<EnvResult>)
    ensures GroupedById(rs).Keys == set r | r in rs :: r.environmentId
  {
    if rs != [] {
      var p := rs[..|rs| - 1];
      GroupedByIdKeys(p);
      assert forall r :: r in rs <==> r in p || r == rs[|rs| - 1];
    }
  }

  /** Each entry is a result that carries that id. */
  lemma {:induction false} GroupedByIdValues(rs: seq<EnvResult>)
    ensures forall k :: k in GroupedById(rs) ==> GroupedById(rs)[k] in rs && GroupedById(rs)[k].environmentId == k
  {
    if rs != [] {
      var p := rs[..|rs| - 1];
      GroupedByIdValues(p);
      assert forall r :: r in p ==> r in rs;
    }
  }

  /** A later result overwrites an earlier one: each id holds the last result that carries it. */
  lemma {:induction false} GroupedByIdLast(rs: seq<EnvResult>, i: int)
    requires 0 <= i < |rs|
    requires forall j :: i < j < |rs| ==> rs[j].environmentId != rs[i].environmentId
    ensures rs[i].environmentId in GroupedById(rs)
    ensures GroupedById(rs)[rs[i].environmentId] == rs[i]
  {
    var p := rs[..|rs| - 1];
    if i < |p| {
      assert forall j :: i < j < |p| ==> p[j] == rs[j];
      assert p[i] == rs[i];
      GroupedByIdLast(p, i);
    }
  }

  /** The group aggregation, stated on `aggregate_results`' answer. */
  lemma GroupByEnvironment(results: seq<EnvResult>)
    requires exists i :: 0 <= i < |results| && results[i].Succeeded?
    ensures Aggregate(results, "group").Grouped?
    ensures Aggregate(results, "group").groups.Keys == set r | r in results :: r.environmentId
    ensures forall i :: 0 <= i < |results| ==> results[i].environmentId in Aggregate(results, "group").groups
    ensures Aggregate(results, "group").environmentResults == results
  {
    AggregateNothingToAggregate(results, "group");
    GroupedByIdKeys(results);
    forall i | 0 <= i < |results|
      ensures results[i].environmentId in GroupedById(results)
    {
      assert results[i] in results;
    }
  }
}
