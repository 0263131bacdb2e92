/**
 * The OCI Threat Intelligence client: the per-type format check on
 * indicators, the submission of threat data one indicator at a time with
 * its success and failure tallies, the batch check of several indicators
 * and the clamp the command line applies to a confidence level. The
 * service itself is a function parameter that answers a lookup.
 */
module OciThreatIntel {
  import opened Common
  import Ipv4

  // ---------------------------------------------------------------- character classes

  predicate IsAsciiLetter(c: char)
  {
    'a' <= c <= 'z' || 'A' <= c <= 'Z'
  }

  predicate IsAlnum(c: char)
  {
    IsAsciiLetter(c) || IsDigit(c)
  }

  predicate IsHex(c: char)
  {
    IsDigit(c) || 'a' <= c <= 'f' || 'A' <= c <= 'F'
  }

  // ---------------------------------------------------------------- the patterns

  /** One octet of the `ip` pattern, alternative by alternative: `25[0-5]`, `2[0-4][0-9]`, `[01]?[0-9][0-9]?`. */
  predicate OctetPattern(o: string)
  {
    (|o| == 3 && o[0] == '2' && o[1] == '5' && '0' <= o[2] <= '5')
    || (|o| == 3 && o[0] == '2' && '0' <= o[1] <= '4' && IsDigit(o[2]))
    || (|o| == 3 && (o[0] == '0' || o[0] == '1') && IsDigit(o[1]) && IsDigit(o[2]))
    || (|o| == 2 && (o[0] == '0' || o[0] == '1') && IsDigit(o[1]))
    || (|o| == 2 && IsDigit(o[0]) && IsDigit(o[1]))
    || (|o| == 1 && IsDigit(o[0]))
  }

  /** Four octets joined by dots. */
  predicate IpBody(s: string)
  {
    var parts := Split(s, '.');
    |parts| == 4 && forall i :: 0 <= i < 4 ==> OctetPattern(parts[i])
  }

  /** `[a-zA-Z0-9](?:[a-zA-Z0-9-]{0,61}[a-zA-Z0-9])?`: 1 to 63 characters, no hyphen at either end. */
  predicate LabelPattern(l: string)
  {
    1 <= |l| <= 63 && IsAlnum(l[0]) && IsAlnum(l[|l| - 1])
    && forall i :: 0 <= i < |l| ==> IsAlnum(l[i]) || l[i] == '-'
  }

  /** One or more labels, each followed by a dot, then at least two letters. */
  predicate DomainBody(s: string)
  {
    var parts := Split(s, '.');
    var top := parts[|parts| - 1];
    |parts| >= 2 && (forall i :: 0 <= i < |parts| - 1 ==> LabelPattern(parts[i]))
    && |top| >= 2 && forall i :: 0 <= i < |top| ==> IsAsciiLetter(top[i])
  }

  /** `[^\s/$.?#].[^\s]*`: the text after the scheme. */
  predicate UrlTail(t: string)
  {
    |t| >= 2 && !IsSpace(t[0]) && t[0] !in "/$.?#" && t[1] != '\n'
    && forall i :: 2 <= i < |t| ==> !IsSpace(t[i])
  }

  predicate UrlBody(s: string)
  {
    (StartsWith(s, "http://") && UrlTail(s[7..])) || (StartsWith(s, "https://") && UrlTail(s[8..]))
  }

  predicate LocalChar(c: char)
  {
    IsAlnum(c) || c in "._%+-"
  }

  predicate HostChar(c: char)
  {
    IsAlnum(c) || c == '.' || c == '-'
  }

  /** `[a-zA-Z0-9._%+-]+@[a-zA-Z0-9.-]+\.[a-zA-Z]{2,}`. */
  predicate EmailBody(s: string)
  {
    exists at, dot :: 0 < at < |s| && at + 1 < dot <= |s| - 3 && s[at] == '@' && s[dot] == '.'
      && (forall i :: 0 <= i < at ==> LocalChar(s[i]))
      && (forall i :: at < i < dot ==> HostChar(s[i]))
      && (forall i :: dot < i < |s| ==> IsAsciiLetter(s[i]))
  }

  predicate HexBody(s: string, digits: nat)
  {
    |s| == digits && forall i :: 0 <= i < |s| ==> IsHex(s[i])
  }

  datatype Pattern = IpPattern | DomainPattern | UrlPattern | HexPattern(digits: nat) | EmailPattern

  /** The part of a pattern between `^` and `$`. */
  predicate Body(p: Pattern, s: string)
  {
    match p
    case IpPattern => IpBody(s)
    case DomainPattern => DomainBody(s)
    case UrlPattern => UrlBody(s)
    case HexPattern(n) => HexBody(s, n)
    case EmailPattern => EmailBody(s)
  }

  /** `re.match('^…$', s)`: `$` matches at the end and also just before a final newline. */
  predicate Matches(p: Pattern, s: string)
  {
    Body(p, s) || (|s| > 0 && s[|s| - 1] == '\n' && Body(p, s[..|s| - 1]))
  }

  const PATTERN_TYPES: set<string> := {"ip", "domain", "url", "md5", "sha1", "sha256", "email"}

  /** `patterns.get(indicator_type.lower())`. */
  function PatternFor(indicatorType: string): (r: Option<Pattern>)
    ensures r.Some? <==> Lower(indicatorType) in PATTERN_TYPES
  {
    var k := Lower(indicatorType);
    if k == "ip" then Some(IpPattern)
    else if k == "domain" then Some(DomainPattern)
    else if k == "url" then Some(UrlPattern)
    else if k == "md5" then Some(HexPattern(32))
    else if k == "sha1" then Some(HexPattern(40))
    else if k == "sha256" then Some(HexPattern(64))
    else if k == "email" then Some(EmailPattern)
    else None
  }

  datatype Validation = Valid(message: string) | Invalid(error: string)

  /**
   * `_validate_indicator_format`. None is the exception the call raises:
   * `.lower()` on a type that is not text, or `re.match` on a value that
   * is not text.
   */
  function ValidateIndicatorFormat(indicatorType: Json, value: Json): (r: Option<Validation>)
    ensures r.Some? ==> indicatorType.JStr?
  {
    if !indicatorType.JStr? then None
    else
      match PatternFor(indicatorType.s)
      case None => Some(Valid("No validation pattern for type: " + indicatorType.s))
      case Some(p) =>
        if !value.JStr? then None
        else if Matches(p, value.s) then Some(Valid("Valid format"))
        else Some(Invalid("Invalid " + indicatorType.s + " format: " + value.s))
  }

  /** A type without a pattern, whatever its case, accepts every value. */
  lemma UnknownTypeValid(indicatorType: string, value: Json)
    requires Lower(indicatorType) !in PATTERN_TYPES
    ensures ValidateIndicatorFormat(JStr(indicatorType), value) == Some(Valid("No validation pattern for type: " + indicatorType))
  {
  }

  /** The pattern is chosen without regard to case. */
  lemma PatternForIgnoresCase(indicatorType: string)
    ensures PatternFor(Upper(indicatorType)) == PatternFor(indicatorType)
    ensures PatternFor(Lower(indicatorType)) == PatternFor(indicatorType)
  {
    LowerOfUpper(indicatorType);
    LowerTwice(indicatorType);
  }

  /** The three digits of a three-digit string. */
  lemma DigitsValueThree(o: string)
    requires |o| == 3 && IsDigits(o)
    ensures DigitsValue(o) == (o[0] as int - '0' as int) * 100 + (o[1] as int - '0' as int) * 10 + (o[2] as int - '0' as int)
  {
    var a, b := o[..1], o[..2];
    assert b[..1] == a && a[..0] == [] && o[..2] == b;
    assert IsDigit(o[0]) && IsDigit(o[1]) && IsDigit(o[2]);
    assert DigitsValue(a) == o[0] as int - '0' as int;
    assert DigitsValue(b) == DigitsValue(a) * 10 + (o[1] as int - '0' as int);
  }

  /** The alternation of the `ip` pattern accepts exactly the 1-3 digit texts of 0..255. */
  lemma OctetPatternRange(o: string)
    ensures OctetPattern(o) <==> 1 <= |o| <= 3 && IsDigits(o) && DigitsValue(o) <= 255
  {
    if |o| == 3 && IsDigits(o) {
      assert IsDigit(o[0]) && IsDigit(o[1]) && IsDigit(o[2]);
      DigitsValueThree(o);
    } else if |o| == 2 && IsDigits(o) {
      var a := o[..1];
      assert a[..0] == [];
      assert IsDigit(o[0]) && IsDigit(o[1]);
      assert DigitsValue(a) == o[0] as int - '0' as int;
      assert DigitsValue(o) == DigitsValue(a) * 10 + (o[1] as int - '0' as int);
    } else if |o| == 1 && IsDigits(o) {
      assert o[..0] == [];
      assert IsDigit(o[0]);
    }
  }

  /** The `ip` pattern: four dot-separated octets of one to three digits, each 0..255. */
  lemma IpBodyOctets(s: string)
    ensures IpBody(s) <==>
      var parts := Split(s, '.');
      |parts| == 4 && forall i :: 0 <= i < 4 ==> 1 <= |parts[i]| <= 3 && IsDigits(parts[i]) && DigitsValue(parts[i]) <= 255
  {
    var parts := Split(s, '.');
    forall i | 0 <= i < |parts|
      ensures OctetPattern(parts[i]) <==> 1 <= |parts[i]| <= 3 && IsDigits(parts[i]) && DigitsValue(parts[i]) <= 255
    {
      OctetPatternRange(parts[i]);
    }
  }

  /**
   * Every address `ipaddress` accepts passes the `ip` pattern. The
   * converse fails: the pattern allows leading zeros.
   */
  lemma IpPatternAcceptsAddresses(s: string)
    requires Ipv4.Parse(s).Some?
    ensures Matches(IpPattern, s)
  {
    var parts := Split(s, '.');
    assert |parts| == 4;
    forall i | 0 <= i < 4
      ensures OctetPattern(parts[i])
    {
      assert Ipv4.ParseOctet(parts[i]).Some?;
      OctetPatternRange(parts[i]);
    }
  }

  /** The `ip` pattern accepts an octet with a leading zero. */
  lemma IpPatternLeadingZero()
    ensures Matches(IpPattern, "01.2.3.4")
  {
    assert OctetPattern("01") && OctetPattern("2") && OctetPattern("3") && OctetPattern("4");
    IpBodyOfOctets("01", "2", "3", "4");
    assert "01.2.3.4" == "01" + "." + "2" + "." + "3" + "." + "4";
  }

  /** Four octet texts joined by dots form the body of the `ip` pattern. */
  lemma IpBodyOfOctets(a: string, b: string, c: string, d: string)
    requires '.' !in a && '.' !in b && '.' !in c && '.' !in d
    requires OctetPattern(a) && OctetPattern(b) && OctetPattern(c) && OctetPattern(d)
    ensures IpBody(a + "." + b + "." + c + "." + d)
  {
    Ipv4.SplitFour(a, b, c, d);
    var parts := Split(a + "." + b + "." + c + "." + d, '.');
    assert parts[0] == a && parts[1] == b && parts[2] == c && parts[3] == d;
  }

  /** `ipaddress` refuses the same text. */
  lemma AddressLeadingZero()
    ensures Ipv4.Parse("01.2.3.4").None?
  {
    Ipv4.SplitFour("01", "2", "3", "4");
    assert "01.2.3.4" == "01" + "." + "2" + "." + "3" + "." + "4";
    assert Ipv4.ParseOctet("01").None?;
  }

  /** A hash of the right length passes; so does one with a single trailing newline, and nothing else. */
  lemma HashShape(indicatorType: string, value: string)
    requires PatternFor(indicatorType).Some? && PatternFor(indicatorType).value.HexPattern?
    ensures var n := PatternFor(indicatorType).value.digits;
      && (n == 32 <==> Lower(indicatorType) == "md5")
      && (n == 40 <==> Lower(indicatorType) == "sha1")
      && (n == 64 <==> Lower(indicatorType) == "sha256")
      && (ValidateIndicatorFormat(JStr(indicatorType), JStr(value)) == Some(Valid("Valid format")) <==>
          (|value| == n || (|value| == n + 1 && value[n] == '\n')) && forall i :: 0 <= i < n ==> IsHex(value[i]))
  {
    var n := PatternFor(indicatorType).value.digits;
    if |value| == n + 1 && value[n] == '\n' {
      assert forall i :: 0 <= i < n ==> value[..n][i] == value[i];
    }
    if Matches(HexPattern(n), value) && !Body(HexPattern(n), value) {
      assert forall i :: 0 <= i < n ==> value[..|value| - 1][i] == value[i];
    }
  }

  // ---------------------------------------------------------------- submission

  const MISSING_FIELDS := "Missing required fields: type, value"

  /** What `_submit_single_indicator` records for a valid indicator (its id and time stamp are not modelled). */
  datatype Submission = Submission(indicatorType: string, value: Json, confidence: Json, threatTypes: Json,
                                   attribution: Json, source: Json, compartmentId: string)

  datatype Entry =
    | Submitted(indicator: Json, submission: Submission)
    | Rejected(indicator: Json, error: string)
      // "Submission failed: " followed by the text of the Python exception
    | SubmissionFailed(indicator: Json)

  /** `_submit_single_indicator`. */
  function SubmitSingle(indicator: Json, metadata: Json, compartmentId: string): (r: Entry)
    ensures r.indicator == indicator
    ensures r.Submitted? <==>
      indicator.JObj? && metadata.JObj? &&
      ValidateIndicatorFormat(JGet(indicator.fields, "type", JStr("unknown")), JGet(indicator.fields, "value", JStr(""))).Some? &&
      ValidateIndicatorFormat(JGet(indicator.fields, "type", JStr("unknown")), JGet(indicator.fields, "value", JStr(""))).value.Valid?
  {
    if !indicator.JObj? || !metadata.JObj? then SubmissionFailed(indicator)
    else
      var t := JGet(indicator.fields, "type", JStr("unknown"));
      var v := JGet(indicator.fields, "value", JStr(""));
      match ValidateIndicatorFormat(t, v)
      case None => SubmissionFailed(indicator)
      case Some(Invalid(e)) => Rejected(indicator, "Invalid indicator format: " + e)
      case Some(Valid(_)) =>
        Submitted(indicator, Submission(t.s, v, JGet(indicator.fields, "confidence", JInt(50)),
                                      JGet(indicator.fields, "threat_types", JList([])),
                                      JGet(metadata.fields, "attribution", JStr("Logan Security Dashboard")),
                                      JGet(metadata.fields, "source", JStr("Custom Analysis")), compartmentId))
  }

  /**
   * `all(key in indicator for key in ["type", "value"])`: key lookup on a
   * dict, substring search on text, element search on a list; None is
   * the TypeError `in` raises on a number, a boolean or None.
   */
  function HasRequiredFields(indicator: Json): Option<bool>
  {
    match indicator
    case JObj(f) => Some("type" in f && "value" in f)
    case JStr(s) => Some(Contains(s, "type") && Contains(s, "value"))
    case JList(items) => Some(JStr("type") in items && JStr("value") in items)
    case _ => None
  }

  /** The loop body for one indicator; None when the membership test raises. */
  function EntryOf(indicator: Json, metadata: Json, compartmentId: string): (r: Option<Entry>)
    ensures r.Some? ==> r.value.indicator == indicator
  {
    match HasRequiredFields(indicator)
    case None => None
    case Some(false) => Some(Rejected(indicator, MISSING_FIELDS))
    case Some(true) => Some(SubmitSingle(indicator, metadata, compartmentId))
  }

  function EntryMaker(metadata: Json, compartmentId: string): Json -> Option<Entry>
  {
    (indicator: Json) => EntryOf(indicator, metadata, compartmentId)
  }

  /** The entries for `items`, in order; None as soon as one of them raises. */
  function Entries(items: seq<Json>, metadata: Json, compartmentId: string): (r: Option<seq<Entry>>)
    ensures r.Some? ==> |r.value| == |items| && forall i :: 0 <= i < |items| ==> r.value[i].indicator == items[i]
  {
    Collected(items, EntryMaker(metadata, compartmentId))
  }

  predicate IsSubmitted(e: Entry)
  {
    e.Submitted?
  }

  datatype SubmitOutcome =
    | SubmitError(error: string)
      // "Failed to submit threat data: " followed by the text of the Python exception
    | SubmitCrashed
    | Report(success: bool, total: nat, successful: nat, failed: int, results: seq<Entry>, compartmentId: string)
      // the same over the keys of a dict, whose iteration order the model does not keep
    | KeyReport(total: nat, keyResults: set<Entry>, compartmentId: string)

  /** The report over the entries of a list of indicators. */
  function Tallied(results: seq<Entry>, compartmentId: string): (r: SubmitOutcome)
    ensures r.Report? && r.results == results && r.total == |results|
    ensures r.successful + r.failed == r.total
  {
    var successful := |Filter(results, IsSubmitted)|;
    Report(successful > 0, |results|, successful, |results| - successful, results, compartmentId)
  }

  /** The compartment a call works in: the argument, or the tenancy of the configuration. */
  function Compartment(compartmentId: string, tenancy: Option<string>): Option<string>
  {
    if compartmentId != "" then Some(compartmentId) else tenancy
  }

  /** `submit_threat_data`. */
  function SubmitThreatData(threatData: Json, compartmentId: string, tenancy: Option<string>): SubmitOutcome
  {
    match Compartment(compartmentId, tenancy)
    case None => SubmitError("Failed to submit threat data: 'tenancy'")
    case Some(compartment) =>
      if !threatData.JObj? then SubmitError("Invalid threat data format - must be dictionary")
      else
        var indicators := JGet(threatData.fields, "indicators", JList([]));
        var metadata := JGet(threatData.fields, "metadata", JObj(map[]));
        if !JTruthy(indicators) then SubmitError("No indicators provided in threat data")
        else SubmitIndicators(indicators, metadata, compartment)
  }

  /** The loop over a truthy `indicators` value and the tallies after it. */
  function SubmitIndicators(indicators: Json, metadata: Json, compartment: string): SubmitOutcome
  {
    if indicators.JObj? then KeyReport(|indicators.fields.Keys|, set k | k in indicators.fields :: KeyEntry(k), compartment)
    else if !indicators.JList? && !indicators.JStr? then SubmitCrashed
    else
      match Entries(Iterated(indicators), metadata, compartment)
      case None => SubmitCrashed
      case Some(results) => Tallied(results, compartment)
  }

  /** What `for indicator in indicators` visits in a list or a string. */
  function Iterated(indicators: Json): seq<Json>
  {
    match indicators
    case JList(items) => items
    case JStr(s) => Characters(s)
    case _ => []
  }

  /** Iterating a string gives its one-character strings. */
  function Characters(s: string): (r: seq<Json>)
    ensures |r| == |s|
    ensures forall i :: 0 <= i < |s| ==> r[i] == JStr([s[i]])
  {
    if s == [] then [] else Characters(s[..|s| - 1]) + [JStr([s[|s| - 1]])]
  }

  /** The entry for a dict key: a key that holds both words passes the test and fails at `.get`. */
  function KeyEntry(k: string): (r: Entry)
    ensures !r.Submitted?
  {
    if Contains(k, "type") && Contains(k, "value") then SubmissionFailed(JStr(k)) else Rejected(JStr(k), MISSING_FIELDS)
  }

  /** `submit_threat_data` as the loop it is: the checks, one entry per indicator, then the tallies. */
  method SubmitThreatDataLoop(threatData: Json, compartmentId: string, tenancy: Option<string>) returns (r: SubmitOutcome)
    ensures r == SubmitThreatData(threatData, compartmentId, tenancy)
  {
    var compartment := Compartment(compartmentId, tenancy);
    if compartment.None? {
      return SubmitError("Failed to submit threat data: 'tenancy'");
    }
    if !threatData.JObj? {
      return SubmitError("Invalid threat data format - must be dictionary");
    }
    var indicators := JGet(threatData.fields, "indicators", JList([]));
    var metadata := JGet(threatData.fields, "metadata", JObj(map[]));
    if !JTruthy(indicators) {
      return SubmitError("No indicators provided in threat data");
    }
    r := SubmitEach(indicators, metadata, compartment.value);
  }

  method SubmitEach(indicators: Json, metadata: Json, compartment: string) returns (r: SubmitOutcome)
    ensures r == SubmitIndicators(indicators, metadata, compartment)
  {
    if indicators.JObj? {
      return KeyReport(|indicators.fields.Keys|, set k | k in indicators.fields :: KeyEntry(k), compartment);
    }
    if !indicators.JList? && !indicators.JStr? {
      return SubmitCrashed;
    }
    var results := Collect(Iterated(indicators), EntryMaker(metadata, compartment));
    if results.None? {
      return SubmitCrashed;
    }
    r := Tallied(results.value, compartment);
  }

  lemma EntriesSingle(x: Json, metadata: Json, compartmentId: string)
    requires EntryOf(x, metadata, compartmentId).Some?
    ensures Entries([x], metadata, compartmentId) == Some([EntryOf(x, metadata, compartmentId).value])
  {
    assert [x][..0] == [];
    var e := EntryOf(x, metadata, compartmentId).value;
    assert [] + [e] == [e];
  }

  /** An indicator without a `type` or a `value` key is a failure entry. */
  lemma MissingFieldsRejected(indicator: map<string, Json>, metadata: Json, compartmentId: string)
    requires "type" !in indicator || "value" !in indicator
    ensures EntryOf(JObj(indicator), metadata, compartmentId) == Some(Rejected(JObj(indicator), MISSING_FIELDS))
  {
  }

  /** Data that is not a dict, or carries no indicators, is refused before any indicator is looked at. */
  lemma SubmitRefusals(threatData: Json, compartmentId: string)
    requires compartmentId != ""
    ensures !threatData.JObj? ==> SubmitThreatData(threatData, compartmentId, None) == SubmitError("Invalid threat data format - must be dictionary")
    ensures threatData.JObj? && !JTruthy(JGet(threatData.fields, "indicators", JList([]))) ==>
      SubmitThreatData(threatData, compartmentId, None) == SubmitError("No indicators provided in threat data")
  {
  }

  /**
   * The tallies of a list of indicators: one entry per indicator, in
   * order; successful plus failed is the total; and the call succeeds
   * exactly when some indicator was submitted.
   */
  lemma SubmitTallies(threatData: Json, compartmentId: string, tenancy: Option<string>)
    requires threatData.JObj? && JGet(threatData.fields, "indicators", JList([])).JList?
    requires SubmitThreatData(threatData, compartmentId, tenancy).Report?
    ensures var r := SubmitThreatData(threatData, compartmentId, tenancy);
      var items := JGet(threatData.fields, "indicators", JList([])).items;
      && r.total == |items| == |r.results|
      && r.successful + r.failed == r.total
      && 0 <= r.successful <= r.total
      && (forall i :: 0 <= i < |items| ==> r.results[i].indicator == items[i])
      && (r.success <==> exists i :: 0 <= i < |r.results| && r.results[i].Submitted?)
  {
    var items := JGet(threatData.fields, "indicators", JList([])).items;
    var metadata := JGet(threatData.fields, "metadata", JObj(map[]));
    var compartment := Compartment(compartmentId, tenancy).value;
    var es := Entries(items, metadata, compartment).value;
    assert SubmitThreatData(threatData, compartmentId, tenancy) == Tallied(es, compartment);
    TalliedSuccess(es, compartment);
  }

  /** The call succeeds exactly when some entry was submitted. */
  lemma TalliedSuccess(results: seq<Entry>, compartmentId: string)
    ensures Tallied(results, compartmentId).successful <= |results|
    ensures Tallied(results, compartmentId).success <==> exists i :: 0 <= i < |results| && results[i].Submitted?
  {
    if exists i :: 0 <= i < |results| && results[i].Submitted? {
      var i :| 0 <= i < |results| && results[i].Submitted?;
      FilterMember(results, IsSubmitted, results[i]);
    }
    var f := Filter(results, IsSubmitted);
    if f != [] {
      FilterMember(results, IsSubmitted, f[0]);
      var i :| 0 <= i < |results| && results[i] == f[0];
    }
  }

  /** A dict of indicators yields one failure per key and no success. */
  lemma SubmitKeys(threatData: Json, compartmentId: string, tenancy: Option<string>)
    requires threatData.JObj? && JGet(threatData.fields, "indicators", JList([])).JObj?
    requires Compartment(compartmentId, tenancy).Some?
    requires JTruthy(JGet(threatData.fields, "indicators", JList([])))
    ensures var r := SubmitThreatData(threatData, compartmentId, tenancy);
      && r.KeyReport?
      && r.total == |JGet(threatData.fields, "indicators", JList([])).fields.Keys|
      && forall e :: e in r.keyResults ==> !e.Submitted?
  {
  }

  // ---------------------------------------------------------------- command line submission

  /** The `--confidence` argument: an integer in 0..100, and 50 otherwise or when absent. */
  function ConfidenceArg(arg: Option<string>): (r: int)
    ensures 0 <= r <= 100
    ensures arg.None? ==> r == 50
  {
    if arg.None? || arg.value == "" then 50
    else
      match ParseInt(arg.value)
      case None => 50
      case Some(v) => if 0 <= v <= 100 then v else 50
  }

  lemma NoSpaceInIntText(i: int)
    ensures forall k :: 0 <= k < |IntToString(i)| ==> !IsSpace(IntToString(i)[k])
  {
    forall k | 0 <= k < |IntToString(i)|
      ensures !IsSpace(IntToString(i)[k])
    {
      var c := IntToString(i)[k];
      if IsSpace(c) {
        assert c != '-' && c != '+' && !IsDigit(c);
        IntToStringFree(i, c);
      }
    }
  }

  /** An integer argument is kept when it lies in 0..100 and replaced by 50 otherwise. */
  lemma ConfidenceArgClamp(i: int)
    ensures ConfidenceArg(Some(IntToString(i))) == if 0 <= i <= 100 then i else 50
  {
    NoSpaceInIntText(i);
    ParseIntOfIntToString(i);
  }

  /** Text that is not an integer gives 50. */
  lemma ConfidenceArgNotInteger(arg: string)
    requires ParseInt(arg).None?
    ensures ConfidenceArg(Some(arg)) == 50
  {
  }

  /** The comma-separated `--threat-types`, each stripped. */
  function ThreatTypes(arg: Option<string>): (r: seq<Json>)
    ensures arg.Some? && arg.value != "" ==> |r| == |Split(arg.value, ',')|
  {
    if arg.None? || arg.value == "" then []
    else
      var parts := Split(arg.value, ',');
      MapSeq(parts, (t: string) => JStr(Strip(t)))
  }

  /** The threat data the `submit` command builds from `--type`, `--indicator` and the other flags. */
  function CliThreatData(indicatorType: string, indicator: string, confidence: Option<string>, threatTypes: Option<string>,
                         attribution: Option<string>, source: Option<string>): Json
  {
    JObj(map["indicators" := JList([JObj(CliIndicator(indicatorType, indicator, confidence, threatTypes))]),
             "metadata" := JObj(CliMetadata(attribution, source))])
  }

  function CliIndicator(indicatorType: string, indicator: string, confidence: Option<string>, threatTypes: Option<string>): (r: map<string, Json>)
    ensures "type" in r && "value" in r && r["type"] == JStr(indicatorType) && r["value"] == JStr(indicator)
  {
    map["type" := JStr(indicatorType), "value" := JStr(indicator),
        "confidence" := JInt(ConfidenceArg(confidence)), "threat_types" := JList(ThreatTypes(threatTypes))]
  }

  function CliMetadata(attribution: Option<string>, source: Option<string>): map<string, Json>
  {
    map["attribution" := JStr(if attribution.None? || attribution.value == "" then "Manual Submission" else attribution.value),
        "source" := JStr(if source.None? || source.value == "" then "CLI" else source.value)]
  }

  /** Threat data with a single dict indicator gives a report of one, successful exactly when that indicator was submitted. */
  lemma SubmitOne(indicator: map<string, Json>, metadata: map<string, Json>, compartmentId: string)
    requires "type" in indicator && "value" in indicator && compartmentId != ""
    ensures var r := SubmitThreatData(JObj(map["indicators" := JList([JObj(indicator)]), "metadata" := JObj(metadata)]), compartmentId, None);
      && r.Report? && r.total == 1
      && (r.success <==> SubmitSingle(JObj(indicator), JObj(metadata), compartmentId).Submitted?)
  {
    var x := JObj(indicator);
    var data := JObj(map["indicators" := JList([x]), "metadata" := JObj(metadata)]);
    assert JGet(data.fields, "indicators", JList([])) == JList([x]);
    assert JGet(data.fields, "metadata", JObj(map[])) == JObj(metadata);
    assert EntryOf(x, JObj(metadata), compartmentId) == Some(SubmitSingle(x, JObj(metadata), compartmentId));
    EntriesSingle(x, JObj(metadata), compartmentId);
    TalliedSuccess([SubmitSingle(x, JObj(metadata), compartmentId)], compartmentId);
  }

  /**
   * A command-line submission is one indicator: the report has a total of
   * one, and it succeeds exactly when the value passes its type's check.
   */
  lemma CliSubmission(indicatorType: string, indicator: string, confidence: Option<string>, threatTypes: Option<string>,
                      attribution: Option<string>, source: Option<string>, compartmentId: string)
    requires compartmentId != ""
    ensures var r := SubmitThreatData(CliThreatData(indicatorType, indicator, confidence, threatTypes, attribution, source), compartmentId, None);
      && r.Report? && r.total == 1
      && (r.success <==> ValidateIndicatorFormat(JStr(indicatorType), JStr(indicator)).value.Valid?)
  {
    var entry := CliIndicator(indicatorType, indicator, confidence, threatTypes);
    var meta := CliMetadata(attribution, source);
    SubmitOne(entry, meta, compartmentId);
  }

  // ---------------------------------------------------------------- batch check

  /** What the service answered to one lookup: its matching indicators (none when `response.data` is empty). */
  datatype Lookup = LookupFailed(error: string) | LookupItems(items: seq<Json>)

  datatype Check =
    | Checked(value: Json, indicatorType: Json, found: bool, count: nat, indicators: seq<Json>)
    | CheckFailed(value: Json, error: string)

  /** `check_indicator`, with the service's answer in the compartment as `lookup`. */
  function CheckIndicator(value: Json, indicatorType: Json, compartmentId: string, tenancy: Option<string>,
                          lookup: (string, Json) -> Lookup): (r: Check)
    ensures r.value == value
    ensures r.Checked? ==> (r.found <==> r.count > 0) && r.count == |r.indicators|
    ensures Compartment(compartmentId, tenancy).None? ==> r == CheckFailed(value, "'tenancy'")
    ensures Compartment(compartmentId, tenancy).Some? ==>
      (r.Checked? <==> lookup(Compartment(compartmentId, tenancy).value, value).LookupItems?)
  {
    match Compartment(compartmentId, tenancy)
    case None => CheckFailed(value, "'tenancy'")
    case Some(compartment) =>
      match lookup(compartment, value)
      case LookupFailed(e) => CheckFailed(value, e)
      case LookupItems(items) => Checked(value, indicatorType, |items| > 0, |items|, items)
  }

  predicate IsFound(c: Check)
  {
    c.Checked? && c.found
  }

  /** `indicator.get(key)` on a dict. */
  function Field(indicator: Json, key: string): Json
  {
    if indicator.JObj? then JGet(indicator.fields, key, JNull) else JNull
  }

  /** Indicators whose `value` is truthy are checked; the rest are skipped. */
  predicate HasValue(indicator: Json)
  {
    indicator.JObj? && JTruthy(Field(indicator, "value"))
  }

  /** The checks for `items`, in order; None when one of them is not a dict (`.get` raises). */
  function Checks(items: seq<Json>, compartmentId: string, tenancy: Option<string>, lookup: (string, Json) -> Lookup): Option<seq<Check>>
  {
    if items == [] then Some([])
    else
      var last := items[|items| - 1];
      match Checks(items[..|items| - 1], compartmentId, tenancy, lookup)
      case None => None
      case Some(cs) =>
        if !last.JObj? then None
        else if !HasValue(last) then Some(cs)
        else Some(cs + [CheckIndicator(Field(last, "value"), Field(last, "type"), compartmentId, tenancy, lookup)])
  }

  datatype Batch =
    | Batch(totalChecked: nat, foundCount: nat, results: seq<Check>)
      // `len()` or `.get` raised; the command line reports "Failed to read file: …"
    | BatchRaised

  /** What `for indicator in indicators` visits when the file holds something other than a list. */
  function BatchItems(indicators: Json): Option<seq<Json>>
  {
    match indicators
    case JList(items) => Some(items)
    case JObj(f) => if f == map[] then Some([]) else None
    case JStr(s) => if s == "" then Some([]) else None
    case _ => None
  }

  /** `check_multiple_indicators`. */
  function CheckMultiple(indicators: Json, compartmentId: string, tenancy: Option<string>, lookup: (string, Json) -> Lookup): Batch
  {
    match BatchItems(indicators)
    case None => BatchRaised
    case Some(items) =>
      match Checks(items, compartmentId, tenancy, lookup)
      case None => BatchRaised
      case Some(results) => Batch(|items|, |Filter(results, IsFound)|, results)
  }

  /** The batch loop: skip indicators without a value, check the others, count what was found. */
  method CheckMultipleIndicators(indicators: Json, compartmentId: string, tenancy: Option<string>,
                                 lookup: (string, Json) -> Lookup) returns (r: Batch)
    ensures r == CheckMultiple(indicators, compartmentId, tenancy, lookup)
  {
    var items := BatchItems(indicators);
    if items.None? {
      return BatchRaised;
    }
    var xs := items.value;
    var results: seq<Check> := [];
    var foundCount := 0;
    var i := 0;
    while i < |xs|
      invariant 0 <= i <= |xs|
      invariant Checks(xs[..i], compartmentId, tenancy, lookup) == Some(results)
      invariant foundCount == |Filter(results, IsFound)|
    {
      assert xs[..i + 1][..i] == xs[..i];
      var indicator := xs[i];
      if !indicator.JObj? {
        ChecksRaise(xs, i + 1, compartmentId, tenancy, lookup);
        return BatchRaised;
      }
      if HasValue(indicator) {
        var result := CheckIndicator(Field(indicator, "value"), Field(indicator, "type"),
                                     compartmentId, tenancy, lookup);
        assert Filter(results + [result], IsFound) == Filter(results, IsFound) + (if IsFound(result) then [result] else []) by {
          assert (results + [result])[..|results|] == results;
        }
        results := results + [result];
        if IsFound(result) {
          foundCount := foundCount + 1;
        }
      }
      i := i + 1;
    }
    assert xs[..i] == xs;
    return Batch(|xs|, foundCount, results);
  }

  lemma {:induction false} ChecksRaise(items: seq<Json>, n: int, compartmentId: string, tenancy: Option<string>,
                                       lookup: (string, Json) -> Lookup)
    requires 0 <= n <= |items|
    requires Checks(items[..n], compartmentId, tenancy, lookup).None?
    ensures Checks(items, compartmentId, tenancy, lookup).None?
    decreases |items| - n
  {
    if n < |items| {
      assert items[..n + 1][..n] == items[..n];
      ChecksRaise(items, n + 1, compartmentId, tenancy, lookup);
    } else {
      assert items[..n] == items;
    }
  }

  /** One check per indicator with a value, in order. */
  lemma {:induction false} ChecksOfValued(items: seq<Json>, compartmentId: string, tenancy: Option<string>,
                                          lookup: (string, Json) -> Lookup)
    requires Checks(items, compartmentId, tenancy, lookup).Some?
    ensures var cs := Checks(items, compartmentId, tenancy, lookup).value;
      var valued := Filter(items, HasValue);
      && |cs| == |valued|
      && forall i :: 0 <= i < |cs| ==>
        cs[i] == CheckIndicator(Field(valued[i], "value"), Field(valued[i], "type"), compartmentId, tenancy, lookup)
  {
    if items != [] {
      var p := items[..|items| - 1];
      ChecksOfValued(p, compartmentId, tenancy, lookup);
    }
  }

  /**
   * `total_checked` counts every indicator, the skipped ones included;
   * one result is kept per indicator with a value; `found_count` is the
   * number of results that found something.
   */
  lemma BatchCounts(indicators: seq<Json>, compartmentId: string, tenancy: Option<string>, lookup: (string, Json) -> Lookup)
    requires CheckMultiple(JList(indicators), compartmentId, tenancy, lookup).Batch?
    ensures var b := CheckMultiple(JList(indicators), compartmentId, tenancy, lookup);
      && b.totalChecked == |indicators|
      && |b.results| == |Filter(indicators, HasValue)| <= b.totalChecked
      && b.foundCount <= |b.results|
      && (b.foundCount == 0 <==> forall i :: 0 <= i < |b.results| ==> !IsFound(b.results[i]))
  {
    var b := CheckMultiple(JList(indicators), compartmentId, tenancy, lookup);
    ChecksOfValued(indicators, compartmentId, tenancy, lookup);
    if b.foundCount != 0 {
      var f := Filter(b.results, IsFound);
      FilterMember(b.results, IsFound, f[0]);
    }
    forall i | 0 <= i < |b.results| && IsFound(b.results[i])
      ensures b.foundCount != 0
    {
      FilterMember(b.results, IsFound, b.results[i]);
    }
  }

  /** A file that is not a list raises, unless it is empty; then nothing is checked. */
  lemma BatchOfNonList(indicators: Json, compartmentId: string, tenancy: Option<string>, lookup: (string, Json) -> Lookup)
    requires !indicators.JList?
    ensures CheckMultiple(indicators, compartmentId, tenancy, lookup) ==
      if indicators == JObj(map[]) || indicators == JStr("") then Batch(0, 0, []) else BatchRaised
  {
  }
}
