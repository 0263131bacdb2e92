/**
 * The security-rule converter (scripts/security_rules_converter.py): the
 * query wrapping shared by the Elastic and Splunk converters, the rule
 * category, the sample-rule generator, and the MITRE and author
 * extraction of `convert_elastic_rule`.
 *
 * The regular-expression rewriting of field names and operators is a
 * parameter (`kql`, `spl`): the model keeps what happens around it.
 */
module SecurityRulesConverter {
  import opened Common

  // ---------------------------------------------------------------- queries

  /** The row cap every converted query ends with. */
  const HEAD_100: string := " | head 100"

  /** What a blank query converts to. */
  const EMPTY_QUERY: string := "* | head 100"

  /** `not query.strip()`. */
  predicate Blank(query: string)
  {
    forall i :: 0 <= i < |query| ==> IsSpace(query[i])
  }

  /**
   * The end of both converters: `* | where ` in front unless the rewritten
   * query already starts with `*`, then the row cap.
   */
  function Wrap(rewritten: string): (r: string)
    ensures StartsWith(r, "*") && EndsWith(r, HEAD_100)
  {
    (if StartsWith(rewritten, "*") then rewritten else "* | where " + rewritten) + HEAD_100
  }

  /** The converted query without its row cap. */
  function Uncapped(r: string): string
    requires EndsWith(r, HEAD_100)
  {
    r[..|r| - |HEAD_100|]
  }

  /**
   * The rewritten query survives whole, just before the cap, and wrapping
   * once more what is left after dropping the cap changes nothing: the
   * prefix is never added twice.
   */
  lemma WrapKeepsQuery(rewritten: string)
    ensures EndsWith(Uncapped(Wrap(rewritten)), rewritten)
    ensures Wrap(Uncapped(Wrap(rewritten))) == Wrap(rewritten)
    ensures StartsWith(rewritten, "*") <==> Uncapped(Wrap(rewritten)) == rewritten
  {
    var body := if StartsWith(rewritten, "*") then rewritten else "* | where " + rewritten;
    assert Wrap(rewritten) == body + HEAD_100;
    assert Uncapped(Wrap(rewritten)) == body;
    assert StartsWith(body, "*") by {
      if !StartsWith(rewritten, "*") {
        assert body[..1] == "*";
      }
    }
  }

  /**
   * `_convert_query_to_oci`: a blank query becomes `* | head 100`; an
   * Elastic or Splunk query is rewritten by that source's rewriting and
   * wrapped; any other source type keeps the query unchanged.
   */
  function ConvertQuery(query: string, sourceType: string, kql: string -> string, spl: string -> string): (r: string)
    ensures Blank(query) ==> r == EMPTY_QUERY
    ensures !Blank(query) && sourceType != "elastic" && sourceType != "splunk" ==> r == query
    ensures !Blank(query) && sourceType == "elastic" ==> r == Wrap(kql(query))
    ensures !Blank(query) && sourceType == "splunk" ==> r == Wrap(spl(query))
    ensures sourceType == "elastic" || sourceType == "splunk" ==> StartsWith(r, "*") && EndsWith(r, HEAD_100)
  {
    if Blank(query) then
      assert EMPTY_QUERY[..1] == "*" && EMPTY_QUERY[|EMPTY_QUERY| - |HEAD_100|..] == HEAD_100;
      EMPTY_QUERY
    else if sourceType == "elastic" then Wrap(kql(query))
    else if sourceType == "splunk" then Wrap(spl(query))
    else query
  }

  /** Whitespace-only queries, the empty one among them, all convert alike, whatever the source type. */
  lemma BlankQueriesAlike(q1: string, q2: string, t1: string, t2: string, kql: string -> string, spl: string -> string)
    requires Blank(q1) && Blank(q2)
    ensures ConvertQuery(q1, t1, kql, spl) == ConvertQuery(q2, t2, kql, spl) == ConvertQuery("", t1, kql, spl)
  {
  }

  // ---------------------------------------------------------------- categories

  const EXECUTION_TACTICS: seq<string> := ["execution", "command-and-control"]
  const PERSISTENCE_TACTICS: seq<string> := ["persistence", "privilege-escalation"]
  const EVASION_TACTICS: seq<string> := ["defense-evasion", "credential-access"]
  const DISCOVERY_TACTICS: seq<string> := ["discovery", "lateral-movement"]
  const EXFILTRATION_TACTICS: seq<string> := ["collection", "exfiltration"]

  /** Every tactic some category test looks for. */
  const KNOWN_TACTICS: seq<string> :=
    EXECUTION_TACTICS + PERSISTENCE_TACTICS + EVASION_TACTICS + DISCOVERY_TACTICS + EXFILTRATION_TACTICS

  /** Every keyword some name test looks for. */
  const NAME_KEYWORDS: seq<string> :=
    ["network", "dns", "http", "process", "command", "file", "registry", "logon", "authentication"]

  const CATEGORIES: set<string> :=
    {"Execution", "Persistence", "Defense Evasion", "Discovery", "Exfiltration",
     "Network", "Process", "System", "Authentication", "General"}

  /** `any(tactic in group for tactic in tactics)`. */
  predicate AnyTactic(tactics: seq<string>, group: seq<string>)
  {
    exists i :: 0 <= i < |tactics| && tactics[i] in group
  }

  /**
   * `_determine_category`: the tactic groups in order, then keywords in
   * the lower-cased rule name, then `General`. It answers `General`
   * exactly when no tactic and no keyword is recognised.
   */
  function DetermineCategory(name: string, tactics: seq<string>): (r: string)
    ensures r in CATEGORIES
    ensures r == "General" <==> !AnyTactic(tactics, KNOWN_TACTICS) && !ContainsAny(Lower(name), NAME_KEYWORDS)
    ensures r == "Execution" <==> AnyTactic(tactics, EXECUTION_TACTICS)
    ensures r == "Persistence" <==>
              !AnyTactic(tactics, EXECUTION_TACTICS) && AnyTactic(tactics, PERSISTENCE_TACTICS)
    ensures r == "Defense Evasion" <==>
              && !AnyTactic(tactics, EXECUTION_TACTICS) && !AnyTactic(tactics, PERSISTENCE_TACTICS)
              && AnyTactic(tactics, EVASION_TACTICS)
    ensures r == "Discovery" <==>
              && !AnyTactic(tactics, EXECUTION_TACTICS) && !AnyTactic(tactics, PERSISTENCE_TACTICS)
              && !AnyTactic(tactics, EVASION_TACTICS) && AnyTactic(tactics, DISCOVERY_TACTICS)
    ensures r == "Exfiltration" <==>
              && !AnyTactic(tactics, EXECUTION_TACTICS) && !AnyTactic(tactics, PERSISTENCE_TACTICS)
              && !AnyTactic(tactics, EVASION_TACTICS) && !AnyTactic(tactics, DISCOVERY_TACTICS)
              && AnyTactic(tactics, EXFILTRATION_TACTICS)
    ensures AnyTactic(tactics, KNOWN_TACTICS) ==>
              r in {"Execution", "Persistence", "Defense Evasion", "Discovery", "Exfiltration"}
    ensures !AnyTactic(tactics, KNOWN_TACTICS) ==>
              var lowered := Lower(name);
              && (r == "Network" <==>
                    Contains(lowered, "network") || Contains(lowered, "dns") || Contains(lowered, "http"))
              && (r == "Process" <==>
                    && !(Contains(lowered, "network") || Contains(lowered, "dns") || Contains(lowered, "http"))
                    && (Contains(lowered, "process") || Contains(lowered, "command")))
              && (r == "System" <==>
                    && !(Contains(lowered, "network") || Contains(lowered, "dns") || Contains(lowered, "http"))
                    && !(Contains(lowered, "process") || Contains(lowered, "command"))
                    && (Contains(lowered, "file") || Contains(lowered, "registry")))
              && (r == "Authentication" <==>
                    && !(Contains(lowered, "network") || Contains(lowered, "dns") || Contains(lowered, "http"))
                    && !(Contains(lowered, "process") || Contains(lowered, "command"))
                    && !(Contains(lowered, "file") || Contains(lowered, "registry"))
                    && (Contains(lowered, "logon") || Contains(lowered, "authentication")))
  {
    var lowered := Lower(name);
    KnownTactic(tactics);
    KnownKeyword(lowered);
    if AnyTactic(tactics, EXECUTION_TACTICS) then "Execution"
    else if AnyTactic(tactics, PERSISTENCE_TACTICS) then "Persistence"
    else if AnyTactic(tactics, EVASION_TACTICS) then "Defense Evasion"
    else if AnyTactic(tactics, DISCOVERY_TACTICS) then "Discovery"
    else if AnyTactic(tactics, EXFILTRATION_TACTICS) then "Exfiltration"
    else if Contains(lowered, "network") || Contains(lowered, "dns") || Contains(lowered, "http") then "Network"
    else if Contains(lowered, "process") || Contains(lowered, "command") then "Process"
    else if Contains(lowered, "file") || Contains(lowered, "registry") then "System"
    else if Contains(lowered, "logon") || Contains(lowered, "authentication") then "Authentication"
    else "General"
  }

  /** A known tactic is a tactic of one of the five groups. */
  lemma KnownTactic(tactics: seq<string>)
    ensures AnyTactic(tactics, KNOWN_TACTICS) <==>
      AnyTactic(tactics, EXECUTION_TACTICS) || AnyTactic(tactics, PERSISTENCE_TACTICS) || AnyTactic(tactics, EVASION_TACTICS)
      || AnyTactic(tactics, DISCOVERY_TACTICS) || AnyTactic(tactics, EXFILTRATION_TACTICS)
  {
    if AnyTactic(tactics, KNOWN_TACTICS) {
      var i :| 0 <= i < |tactics| && tactics[i] in KNOWN_TACTICS;
      assert tactics[i] in EXECUTION_TACTICS || tactics[i] in PERSISTENCE_TACTICS || tactics[i] in EVASION_TACTICS
          || tactics[i] in DISCOVERY_TACTICS || tactics[i] in EXFILTRATION_TACTICS;
    }
  }

  /** A keyword is found exactly when one of the nine name tests succeeds. */
  lemma KnownKeyword(lowered: string)
    ensures ContainsAny(lowered, NAME_KEYWORDS) <==>
      Contains(lowered, "network") || Contains(lowered, "dns") || Contains(lowered, "http")
      || Contains(lowered, "process") || Contains(lowered, "command") || Contains(lowered, "file")
      || Contains(lowered, "registry") || Contains(lowered, "logon") || Contains(lowered, "authentication")
  {
    if ContainsAny(lowered, NAME_KEYWORDS) {
      var i :| 0 <= i < |NAME_KEYWORDS| && Contains(lowered, NAME_KEYWORDS[i]);
    }
    if Contains(lowered, "network") { assert NAME_KEYWORDS[0] == "network"; }
    if Contains(lowered, "dns") { assert NAME_KEYWORDS[1] == "dns"; }
    if Contains(lowered, "http") { assert NAME_KEYWORDS[2] == "http"; }
    if Contains(lowered, "process") { assert NAME_KEYWORDS[3] == "process"; }
    if Contains(lowered, "command") { assert NAME_KEYWORDS[4] == "command"; }
    if Contains(lowered, "file") { assert NAME_KEYWORDS[5] == "file"; }
    if Contains(lowered, "registry") { assert NAME_KEYWORDS[6] == "registry"; }
    if Contains(lowered, "logon") { assert NAME_KEYWORDS[7] == "logon"; }
    if Contains(lowered, "authentication") { assert NAME_KEYWORDS[8] == "authentication"; }
  }

  /** Tactics come first: once one is recognised, the rule name plays no part. */
  lemma CategoryTacticsFirst(name1: string, name2: string, tactics: seq<string>)
    requires AnyTactic(tactics, KNOWN_TACTICS)
    ensures DetermineCategory(name1, tactics) == DetermineCategory(name2, tactics)
  {
    KnownTactic(tactics);
  }

  /** Without a recognised tactic, only the rule name decides. */
  lemma CategoryByNameOnly(name: string, tactics1: seq<string>, tactics2: seq<string>)
    requires !AnyTactic(tactics1, KNOWN_TACTICS) && !AnyTactic(tactics2, KNOWN_TACTICS)
    ensures DetermineCategory(name, tactics1) == DetermineCategory(name, tactics2)
  {
    KnownTactic(tactics1);
    KnownTactic(tactics2);
  }

  /** The name tests ignore letter case. */
  lemma CategoryIgnoresCase(name: string, tactics: seq<string>)
    ensures DetermineCategory(Upper(name), tactics) == DetermineCategory(name, tactics)
  {
    LowerOfUpper(name);
  }

  // ---------------------------------------------------------------- sample rules

  /** A converted rule (`ConvertedRule`). */
  datatype ConvertedRule = ConvertedRule(
    id: string, name: string, description: string, category: string, severity: string,
    mitreTactics: seq<string>, mitreTechniques: seq<string>, originalSource: string,
    originalRuleId: string, ociQuery: string, tags: seq<string>, falsePositives: seq<string>,
    references: seq<string>, author: string, dateCreated: string, dateConverted: string)

  /** One of the five templates the sample generator cycles through. */
  datatype Template = Template(
    name: string, description: string, category: string, severity: string, condition: string,
    mitreTactics: seq<string>, mitreTechniques: seq<string>, tags: seq<string>)
  {
    /** The template's query, `* | where <condition> | head 100`. */
    function OciQuery(): (q: string)
      ensures StartsWith(q, "*") && EndsWith(q, HEAD_100)
    {
      var q := "* | where " + condition + HEAD_100;
      assert q[..1] == "*" && q[|q| - |HEAD_100|..] == HEAD_100;
      q
    }
  }

  const TEMPLATES: seq<Template> := [
    Template("Suspicious Process Execution", "Detects suspicious process execution patterns", "Process", "high",
             "'Process Name' like '%cmd.exe%' and 'Command Line' like '%powershell%'",
             ["execution"], ["T1059"], ["process", "execution", "windows"]),
    Template("Network Connection to Suspicious Domain", "Detects network connections to known malicious domains", "Network", "medium",
             "'Event Name' = 'Network Connection' and 'Domain' like '%.tk%'",
             ["command-and-control"], ["T1071"], ["network", "c2", "domain"]),
    Template("Failed Authentication Attempts", "Detects multiple failed authentication attempts", "Authentication", "medium",
             "'Event Name' = 'Logon Failed' and 'Event ID' = 4625",
             ["credential-access"], ["T1110"], ["authentication", "brute-force", "failed-logon"]),
    Template("Registry Modification", "Detects suspicious registry modifications", "System", "high",
             "'Event Name' = 'Registry Value Set' and 'Registry Path' like '%Run%'",
             ["persistence"], ["T1547"], ["registry", "persistence", "startup"]),
    Template("DNS Query to Suspicious Domain", "Detects DNS queries to potentially malicious domains", "Network", "medium",
             "'Event Name' = 'DNS Query' and 'DNS Query' like '%.bit%'",
             ["command-and-control"], ["T1071.004"], ["dns", "c2", "domain"])
  ]

  /** `f"{n:03d}"`: the decimal digits of `n`, zero-padded to three. */
  function Pad3(n: nat): (r: string)
    ensures IsDigits(r) && |r| >= 3
  {
    var digits := NatToString(n);
    if n < 10 then "00" + digits
    else if n < 100 then
      assert |NatToString(n / 10)| >= 1;
      "0" + digits
    else
      assert |NatToString(n / 10 / 10)| >= 1;
      digits
  }

  /** The padded number reads back as the number. */
  lemma ParseIntOfPad3(n: nat)
    ensures ParseInt(Pad3(n)) == Some(n)
  {
    Pad3Value(n);
    ParseIntOfDigits(Pad3(n));
  }

  /** Leading zeros add nothing to the value of the padded digits. */
  lemma Pad3Value(n: nat)
    ensures DigitsValue(Pad3(n)) == n
  {
    var digits := NatToString(n);
    DigitsValueOfNatToString(n);
    if n < 10 {
      assert Pad3(n) == "0" + ("0" + digits);
      DigitsValueLeadingZero(digits);
      DigitsValueLeadingZero("0" + digits);
    } else if n < 100 {
      assert Pad3(n) == "0" + digits;
      DigitsValueLeadingZero(digits);
    } else {
      assert Pad3(n) == digits;
    }
  }

  /** Even positions come from Elastic, odd ones from Splunk. */
  function SampleSource(i: nat): string
  {
    if i % 2 == 0 then "elastic" else "splunk"
  }

  /** Sample rule `i` of `generate_sample_rules`; `now` is the conversion time stamp. */
  function SampleRule(i: nat, now: string): ConvertedRule
  {
    var template := TEMPLATES[i % |TEMPLATES|];
    var source := SampleSource(i);
    ConvertedRule(
      source + "_" + Pad3(i + 1),
      template.name + " - Rule " + NatToString(i + 1),
      template.description, template.category, template.severity,
      template.mitreTactics, template.mitreTechniques, source,
      source + "_original_" + Pad3(i + 1),
      template.OciQuery(), template.tags,
      ["Legitimate administrative activity"],
      ["https://attack.mitre.org/techniques/" + template.mitreTechniques[0] + "/"],
      "Security Team", "2024-01-01", now)
  }

  function SampleRuleAt(now: string): nat -> ConvertedRule
  {
    (i: nat) => SampleRule(i, now)
  }

  /** `generate_sample_rules(count)`: rules 0 to count - 1, none for a count below one. */
  function SampleRules(count: int, now: string): (r: seq<ConvertedRule>)
    ensures |r| == if count > 0 then count else 0
    ensures forall i :: 0 <= i < |r| ==> r[i] == SampleRule(i, now)
  {
    Tabulated(count, SampleRuleAt(now))
  }

  /** `generate_sample_rules`: builds the list one rule at a time. */
  method GenerateSampleRules(count: int, now: string) returns (rules: seq<ConvertedRule>)
    ensures rules == SampleRules(count, now)
  {
    rules := Tabulate(count, SampleRuleAt(now));
  }

  /**
   * The id of a sample rule splits on `_` into its source and the padded
   * one-based position, which reads back as that position.
   */
  lemma SampleIdReadsBack(i: nat, now: string)
    ensures var parts := Split(SampleRule(i, now).id, '_');
            && |parts| == 2 && parts[0] == SampleSource(i)
            && (parts[0] == "elastic" <==> i % 2 == 0)
            && ParseInt(parts[1]) == Some(i + 1)
  {
    var digits := Pad3(i + 1);
    assert forall k :: 0 <= k < |digits| ==> digits[k] != '_';
    SplitPiece(SampleSource(i), '_', digits);
    SplitNone(digits, '_');
    ParseIntOfPad3(i + 1);
  }

  /** No two sample rules share an id. */
  lemma SampleIdsDistinct(i: nat, j: nat, now: string)
    requires i != j
    ensures SampleRule(i, now).id != SampleRule(j, now).id
  {
    SampleIdReadsBack(i, now);
    SampleIdReadsBack(j, now);
  }

  /**
   * Rule `i` follows template `i mod 5`, and its query is already in the
   * converted form: starting with `*`, ending with the row cap.
   */
  lemma SampleRuleFollowsTemplate(i: nat, now: string)
    ensures var rule := SampleRule(i, now);
            && StartsWith(rule.name, TEMPLATES[i % 5].name)
            && rule.category == TEMPLATES[i % 5].category
            && rule.mitreTechniques == TEMPLATES[i % 5].mitreTechniques
            && StartsWith(rule.ociQuery, "*") && EndsWith(rule.ociQuery, HEAD_100)
  {
    var rule := SampleRule(i, now);
    var t := TEMPLATES[i % 5];
    assert rule.name[..|t.name|] == t.name;
  }

  function IsElastic(rule: ConvertedRule): bool
  {
    rule.originalSource == "elastic"
  }

  /** Of `count` sample rules, the Elastic ones are the even positions: half, rounded up. */
  lemma SampleSourcesAlternate(count: nat, now: string)
    ensures |Filter(SampleRules(count, now), IsElastic)| == (count + 1) / 2
  {
    var r := SampleRules(count, now);
    assert forall k :: 0 <= k < |r| ==> r[k].originalSource == SampleSource(k);
    AlternatingCount(r);
  }

  lemma {:induction false} AlternatingCount(r: seq<ConvertedRule>)
    requires forall k :: 0 <= k < |r| ==> r[k].originalSource == SampleSource(k)
    ensures |Filter(r, IsElastic)| == (|r| + 1) / 2
  {
    if r != [] {
      var init := r[..|r| - 1];
      assert forall k :: 0 <= k < |init| ==> init[k] == r[k];
      AlternatingCount(init);
    }
  }

  // ---------------------------------------------------------------- Elastic rules

  /** `key in value`: a dict's keys, a string's substrings, a list's items; anything else raises (None). */
  function HasKey(value: Json, key: string): (r: Option<bool>)
    ensures value.JObj? ==> r == Some(key in value.fields)
  {
    if value.JObj? then Some(key in value.fields)
    else if value.JStr? then Some(Contains(value.s, key))
    else if value.JList? then Some(JStr(key) in value.items)
    else None
  }

  /** `value[key]`: only a dict holding the key has an item; anything else raises (None). */
  function Item(value: Json, key: string): (r: Option<Json>)
    ensures r.Some? <==> value.JObj? && key in value.fields
  {
    if value.JObj? && key in value.fields then Some(value.fields[key]) else None
  }

  /**
   * A dict made into a one-element list, then iterated: a list yields its
   * items, a string its characters; anything else raises (None).
   */
  function AsList(value: Json): (r: Option<seq<Json>>)
    ensures value.JObj? ==> r == Some([value])
    ensures value.JList? ==> r == Some(value.items)
  {
    if value.JObj? then Some([value])
    else if value.JList? then Some(value.items)
    else if value.JStr? then Some(seq(|value.s|, i requires 0 <= i < |value.s| => JStr([value.s[i]])))
    else None
  }

  /** The tactic name one threat entry contributes: none without a `tactic` key. */
  function ThreatTactics(threat: Json): (r: Option<seq<Json>>)
    ensures r.Some? ==> |r.value| <= 1
  {
    var has := HasKey(threat, "tactic");
    if has.None? then None
    else if !has.value then Some([])
    else
      var tactic := Item(threat, "tactic");
      if tactic.None? then None
      else
        var name := Item(tactic.value, "name");
        if name.None? then None else Some([name.value])
  }

  /** The `id` of every technique, in order; None when one has no `id`. */
  function TechniqueIds(techniques: seq<Json>): (r: Option<seq<Json>>)
    ensures r.Some? ==> |r.value| == |techniques|
    ensures r.Some? <==> forall i :: 0 <= i < |techniques| ==> Item(techniques[i], "id").Some?
  {
    if techniques == [] then Some([])
    else
      var init := TechniqueIds(techniques[..|techniques| - 1]);
      var id := Item(techniques[|techniques| - 1], "id");
      if init.None? || id.None? then None else Some(init.value + [id.value])
  }

  /** The technique ids one threat entry contributes. */
  function ThreatTechniques(threat: Json): Option<seq<Json>>
  {
    var has := HasKey(threat, "technique");
    if has.None? then None
    else if !has.value then Some([])
    else
      var techniques := Item(threat, "technique");
      if techniques.None? then None
      else
        var list := AsList(techniques.value);
        if list.None? then None else TechniqueIds(list.value)
  }

  datatype Mitre = Mitre(tactics: seq<Json>, techniques: seq<Json>)

  /** What one threat entry contributes: at most one tactic name, and its technique ids. */
  function EntryMitre(threat: Json): (r: Option<Mitre>)
    ensures r.Some? ==> |r.value.tactics| <= 1
  {
    var tactics := ThreatTactics(threat);
    var techniques := ThreatTechniques(threat);
    if tactics.None? || techniques.None? then None else Some(Mitre(tactics.value, techniques.value))
  }

  /** Appending the contribution of later entries; a raise anywhere is final. */
  function Joined(a: Option<Mitre>, b: Option<Mitre>): (r: Option<Mitre>)
    ensures r.Some? <==> a.Some? && b.Some?
  {
    if a.None? || b.None? then None
    else Some(Mitre(a.value.tactics + b.value.tactics, a.value.techniques + b.value.techniques))
  }

  lemma JoinedAssociative(a: Option<Mitre>, b: Option<Mitre>, c: Option<Mitre>)
    ensures Joined(Joined(a, b), c) == Joined(a, Joined(b, c))
  {
    if a.Some? && b.Some? && c.Some? {
      assert a.value.tactics + b.value.tactics + c.value.tactics == a.value.tactics + (b.value.tactics + c.value.tactics);
      assert a.value.techniques + b.value.techniques + c.value.techniques
          == a.value.techniques + (b.value.techniques + c.value.techniques);
    }
  }

  /**
   * The tactics and techniques of a list of threat entries, in order, each
   * entry read by `entry`; None when one of them raises.
   */
  function MitreOf(threats: seq<Json>, entry: Json -> Option<Mitre>): Option<Mitre>
  {
    if threats == [] then Some(Mitre([], []))
    else Joined(MitreOf(threats[..|threats| - 1], entry), entry(threats[|threats| - 1]))
  }

  /** The rule's `threat` value, a single dict standing for a one-element list. */
  function ElasticMitre(threat: Json): Option<Mitre>
  {
    var list := AsList(threat);
    if list.None? then None else MitreOf(list.value, EntryMitre)
  }

  /** A single threat dict reads exactly as a list holding it. */
  lemma ThreatDictAsList(threat: map<string, Json>)
    ensures ElasticMitre(JObj(threat)) == ElasticMitre(JList([JObj(threat)]))
  {
  }

  /** A single technique dict reads exactly as a list holding it. */
  lemma TechniqueDictAsList(threat: map<string, Json>, technique: map<string, Json>)
    ensures ThreatTechniques(JObj(threat["technique" := JObj(technique)]))
         == ThreatTechniques(JObj(threat["technique" := JList([JObj(technique)])]))
  {
  }

  /**
   * The entries of two lists of threats contribute in order, one list
   * after the other, and the whole raises when either part does.
   */
  lemma {:induction false} MitreOfAppend(a: seq<Json>, b: seq<Json>, entry: Json -> Option<Mitre>)
    ensures MitreOf(a + b, entry) == Joined(MitreOf(a, entry), MitreOf(b, entry))
    decreases |b|
  {
    if b == [] {
      assert a + b == a;
      var m := MitreOf(a, entry);
      if m.Some? {
        assert m.value.tactics + [] == m.value.tactics && m.value.techniques + [] == m.value.techniques;
      }
    } else {
      var init := b[..|b| - 1];
      assert (a + b)[..|a + b| - 1] == a + init;
      assert (a + b)[|a + b| - 1] == b[|b| - 1];
      MitreOfAppend(a, init, entry);
      JoinedAssociative(MitreOf(a, entry), MitreOf(init, entry), entry(b[|b| - 1]));
    }
  }

  /** Each entry names at most one tactic, so there are never more tactics than entries. */
  lemma {:induction false} MitreTacticsBounded(threats: seq<Json>)
    ensures MitreOf(threats, EntryMitre).Some? ==> |MitreOf(threats, EntryMitre).value.tactics| <= |threats|
  {
    if threats != [] {
      MitreTacticsBounded(threats[..|threats| - 1]);
    }
  }

  /** The `for tech in techniques` loop. */
  method CollectTechniqueIds(techniques: seq<Json>) returns (r: Option<seq<Json>>)
    ensures r == TechniqueIds(techniques)
  {
    var ids: seq<Json> := [];
    var i := 0;
    while i < |techniques|
      invariant 0 <= i <= |techniques|
      invariant TechniqueIds(techniques[..i]) == Some(ids)
    {
      assert techniques[..i + 1][..i] == techniques[..i];
      var id := Item(techniques[i], "id");
      if id.None? {
        TechniqueIdsFailed(techniques, i + 1);
        return None;
      }
      ids := ids + [id.value];
      i := i + 1;
    }
    assert techniques[..i] == techniques;
    return Some(ids);
  }

  /** Once a prefix raises, the whole list raises. */
  lemma {:induction false} TechniqueIdsFailed(techniques: seq<Json>, n: int)
    requires 0 <= n <= |techniques| && TechniqueIds(techniques[..n]).None?
    ensures TechniqueIds(techniques).None?
    decreases |techniques| - n
  {
    if n < |techniques| {
      assert techniques[..n + 1][..n] == techniques[..n];
      TechniqueIdsFailed(techniques, n + 1);
    } else {
      assert techniques[..n] == techniques;
    }
  }

  /** One more entry joins its contribution onto the prefix before it. */
  lemma MitreOfStep(threats: seq<Json>, i: int, entry: Json -> Option<Mitre>)
    requires 0 <= i < |threats|
    ensures MitreOf(threats[..i + 1], entry) == Joined(MitreOf(threats[..i], entry), entry(threats[i]))
  {
    var p := threats[..i + 1];
    assert p[..|p| - 1] == threats[..i] && p[|p| - 1] == threats[i];
  }

  /** Once a prefix of the threats raises, the whole list raises. */
  lemma {:induction false} MitreOfFailed(threats: seq<Json>, n: int, entry: Json -> Option<Mitre>)
    requires 0 <= n <= |threats| && MitreOf(threats[..n], entry).None?
    ensures MitreOf(threats, entry).None?
    decreases |threats| - n
  {
    if n < |threats| {
      assert threats[..n + 1][..n] == threats[..n];
      MitreOfFailed(threats, n + 1, entry);
    } else {
      assert threats[..n] == threats;
    }
  }

  /** The techniques of one threat entry, computed with the inner loop. */
  method EntryTechniques(threat: Json) returns (r: Option<seq<Json>>)
    ensures r == ThreatTechniques(threat)
  {
    var has := HasKey(threat, "technique");
    if has.None? {
      return None;
    }
    if !has.value {
      return Some([]);
    }
    var techniques := Item(threat, "technique");
    if techniques.None? {
      return None;
    }
    var list := AsList(techniques.value);
    if list.None? {
      return None;
    }
    r := CollectTechniqueIds(list.value);
  }

  /** The `for threat in threat_data` loop of `convert_elastic_rule`. */
  method NormaliseMitre(threat: Json) returns (r: Option<Mitre>)
    ensures r == ElasticMitre(threat)
  {
    var list := AsList(threat);
    if list.None? {
      return None;
    }
    var threats := list.value;
    var tactics: seq<Json> := [];
    var techniques: seq<Json> := [];
    var i := 0;
    while i < |threats|
      invariant 0 <= i <= |threats|
      invariant MitreOf(threats[..i], EntryMitre) == Some(Mitre(tactics, techniques))
    {
      MitreOfStep(threats, i, EntryMitre);
      var named := ThreatTactics(threats[i]);
      var ids := EntryTechniques(threats[i]);
      if named.None? || ids.None? {
        MitreOfFailed(threats, i + 1, EntryMitre);
        return None;
      }
      tactics := tactics + named.value;
      techniques := techniques + ids.value;
      i := i + 1;
    }
    assert threats[..i] == threats;
    return Some(Mitre(tactics, techniques));
  }

  /**
   * The author: the first entry of a non-empty author list (the first
   * character of a non-empty string); `Unknown` when the author is
   * missing or empty; anything else raises (None).
   */
  function AuthorOf(info: map<string, Json>): (r: Option<Json>)
    ensures "author" !in info ==> r == Some(JStr("Unknown"))
    ensures "author" in info && info["author"].JList? && info["author"].items != [] ==> r == Some(info["author"].items[0])
    ensures "author" in info && info["author"].JStr? && info["author"].s != "" ==> r == Some(JStr([info["author"].s[0]]))
    ensures "author" in info && !JTruthy(info["author"]) ==> r == Some(JStr("Unknown"))
    ensures r.None? <==> "author" in info && JTruthy(info["author"]) && !info["author"].JList? && !info["author"].JStr?
  {
    var author := JGet(info, "author", JNull);
    if !JTruthy(author) then Some(JStr("Unknown"))
    else if author.JList? then Some(author.items[0])
    else if author.JStr? then Some(JStr([author.s[0]]))
    else None
  }

  /** A tactic as `_determine_category` compares it: a non-text tactic matches no group, as "" does not. */
  function TacticText(tactic: Json): string
  {
    if tactic.JStr? then tactic.s else ""
  }

  /** The tactics as `_determine_category` compares them. */
  function TacticTexts(tactics: seq<Json>): (r: seq<string>)
    ensures |r| == |tactics|
    ensures forall i :: 0 <= i < |tactics| ==> r[i] == TacticText(tactics[i])
  {
    seq(|tactics|, i requires 0 <= i < |tactics| => TacticText(tactics[i]))
  }

  /** What the model keeps of a converted Elastic rule. */
  datatype ElasticFields = ElasticFields(
    ruleId: Json, category: string, tactics: seq<Json>, techniques: seq<Json>, ociQuery: string, author: Json)

  /**
   * The body of `convert_elastic_rule` on a parsed TOML document; None
   * where it raises (the threat entries, a `rule`, `query` or `name` of the
   * wrong type, an author that cannot be indexed). `kql` is the rewriting
   * of Elastic queries.
   */
  function ElasticFieldsOf(document: map<string, Json>, kql: string -> string): (r: Option<ElasticFields>)
    ensures var info := JGet(document, "rule", JObj(map[]));
            r.Some? <==>
              && info.JObj?
              && ElasticMitre(JGet(info.fields, "threat", JList([]))).Some?
              && JGet(info.fields, "query", JStr("")).JStr?
              && JGet(info.fields, "name", JStr("")).JStr?
              && AuthorOf(info.fields).Some?
    ensures r.Some? ==>
              var fields := JGet(document, "rule", JObj(map[])).fields;
              var mitre := ElasticMitre(JGet(fields, "threat", JList([]))).value;
              var query := JGet(fields, "query", JStr("")).s;
              && r.value.ruleId == JGet(fields, "id", JStr("unknown"))
              && r.value.tactics == mitre.tactics
              && r.value.techniques == mitre.techniques
              && r.value.category == DetermineCategory(JGet(fields, "name", JStr("")).s, TacticTexts(mitre.tactics))
              && r.value.ociQuery == (if Blank(query) then EMPTY_QUERY else Wrap(kql(query)))
              && r.value.author == AuthorOf(fields).value
    ensures r.Some? ==> StartsWith(r.value.ociQuery, "*") && EndsWith(r.value.ociQuery, HEAD_100)
    ensures r.Some? ==> r.value.category in CATEGORIES
  {
    var info := JGet(document, "rule", JObj(map[]));
    if !info.JObj? then None
    else
      var mitre := ElasticMitre(JGet(info.fields, "threat", JList([])));
      var query := JGet(info.fields, "query", JStr(""));
      var name := JGet(info.fields, "name", JStr(""));
      var author := AuthorOf(info.fields);
      if mitre.None? || !query.JStr? || !name.JStr? || author.None? then None
      else
        var tactics := TacticTexts(mitre.value.tactics);
        Some(ElasticFields(
          JGet(info.fields, "id", JStr("unknown")),
          DetermineCategory(name.s, tactics),
          mitre.value.tactics, mitre.value.techniques,
          ConvertQuery(query.s, "elastic", kql, (q: string) => q),
          author.value))
  }

  /** What a call hands back: a value, or the name of an exception that escapes it. */
  datatype Handled<T> = Returned(value: T) | Raised(error: string)

  /**
   * `convert_elastic_rule` as written: `document` is the parsed TOML (None
   * when it does not parse). Its handler prints to `sys.stderr`, and the
   * module never imports `sys`, so every failure escapes as a NameError.
   */
  function ConvertElasticRuleAsWritten(document: Option<map<string, Json>>, kql: string -> string): (r: Handled<Option<ElasticFields>>)
    ensures r.Returned? ==> r.value.Some?
  {
    var fields := if document.None? then None else ElasticFieldsOf(document.value, kql);
    if fields.None? then Raised("NameError") else Returned(fields)
  }

  /** A rule file that is not valid TOML escapes as a NameError instead of giving None. */
  lemma ConvertElasticRuleAsWrittenRaises(kql: string -> string)
    ensures ConvertElasticRuleAsWritten(None, kql) == Raised("NameError")
  {
  }

  /** `convert_elastic_rule` as intended: a rule that cannot be converted gives None. */
  function ConvertElasticRule(document: Option<map<string, Json>>, kql: string -> string): (r: Option<ElasticFields>)
    ensures document.None? ==> r.None?
    ensures r.Some? ==> StartsWith(r.value.ociQuery, "*") && EndsWith(r.value.ociQuery, HEAD_100)
  {
    if document.None? then None else ElasticFieldsOf(document.value, kql)
  }

  /**
   * The intended converter never raises, and returns what the written one
   * returns whenever that one does not raise.
   */
  lemma ConvertElasticRuleAgrees(document: Option<map<string, Json>>, kql: string -> string)
    ensures ConvertElasticRuleAsWritten(document, kql).Raised? <==> ConvertElasticRule(document, kql).None?
    ensures ConvertElasticRuleAsWritten(document, kql).Returned? ==>
              ConvertElasticRuleAsWritten(document, kql).value == ConvertElasticRule(document, kql)
  {
  }
}
