/**
 * The environment probe: whether the process runs on an OCI instance,
 * which authentication methods work there (instance principal, resource
 * principal, the CLI config file), the recommendations ranked by priority,
 * the suggested configuration and the exit code. The metadata service, the
 * SDK signers, the environment and the file system are inputs: each probe
 * is the answer it gave.
 */
module CheckOciInstance {
  import opened Common

  // ---------------------------------------------------------------- probes

  datatype Metadata = Metadata(instanceId: Json, compartmentId: Json, region: Json, shape: Json,
                               availabilityDomain: Json, faultDomain: Json, identityAvailable: bool)

  /**
   * The metadata service: the instance document's status and body and the
   * identity endpoint's status, or unreachable (any exception).
   */
  datatype MetadataProbe = Responded(status: int, instance: map<string, Json>, identityStatus: int) | Unreachable

  /** `check_instance_metadata`: the document only on status 200. */
  function InstanceMetadata(probe: MetadataProbe): (r: Option<Metadata>)
    ensures r.Some? <==> probe.Responded? && probe.status == 200
    ensures r.Some? ==>
              r.value.compartmentId == JGet(probe.instance, "compartmentId", JNull)
              && r.value.region == JGet(probe.instance, "region", JNull)
              && (r.value.identityAvailable <==> probe.identityStatus == 200)
  {
    if probe.Unreachable? || probe.status != 200 then None
    else
      var doc := probe.instance;
      Some(Metadata(JGet(doc, "id", JNull), JGet(doc, "compartmentId", JNull), JGet(doc, "region", JNull),
                    JGet(doc, "shape", JNull), JGet(doc, "availabilityDomain", JNull),
                    JGet(doc, "faultDomain", JNull), probe.identityStatus == 200))
  }

  const RESOURCE_PRINCIPAL_VARS: seq<string> := ["OCI_RESOURCE_PRINCIPAL_VERSION", "OCI_RESOURCE_PRINCIPAL_RPST"]

  /**
   * `check_resource_principal_auth`: both variables set and the signer
   * built (`signerWorks` is false when the SDK import or the signer raised).
   */
  function ResourcePrincipal(environ: set<string>, signerWorks: bool): (r: bool)
    ensures r <==> signerWorks && "OCI_RESOURCE_PRINCIPAL_VERSION" in environ && "OCI_RESOURCE_PRINCIPAL_RPST" in environ
  {
    assert RESOURCE_PRINCIPAL_VARS[0] == "OCI_RESOURCE_PRINCIPAL_VERSION" && RESOURCE_PRINCIPAL_VARS[1] == "OCI_RESOURCE_PRINCIPAL_RPST";
    (forall i :: 0 <= i < |RESOURCE_PRINCIPAL_VARS| ==> RESOURCE_PRINCIPAL_VARS[i] in environ) && signerWorks
  }

  /** Reading the config file: its sections and whether the DEFAULT profile validates, or the exception. */
  datatype ConfigProbe = Parsed(profiles: seq<string>, defaultValid: bool) | ParseRaised(error: string)

  datatype ConfigFile =
    | ConfigFound(path: string, profiles: seq<string>, defaultValid: bool)
    | ConfigBroken(error: string)
    | ConfigMissing(path: string, error: string)

  /** The home directory without its trailing slashes, as `expanduser` strips them. */
  function TrimSlashes(home: string): (r: string)
    ensures |r| <= |home| && r == home[..|r|]
    ensures r == [] || r[|r| - 1] != '/'
    ensures forall i :: |r| <= i < |home| ==> home[i] == '/'
  {
    if home != [] && home[|home| - 1] == '/' then TrimSlashes(home[..|home| - 1]) else home
  }

  /** `os.path.expanduser('~/.oci/config')` for the home directory `home`. */
  function ConfigPath(home: string): string
  {
    TrimSlashes(home) + "/.oci/config"
  }

  /** A root home, however many slashes it has, and an empty one give `/.oci/config`; others keep their text. */
  lemma ConfigPathExamples()
    ensures ConfigPath("/") == "/.oci/config" && ConfigPath("//") == "/.oci/config" && ConfigPath("") == "/.oci/config"
    ensures ConfigPath("/home/u/") == ConfigPath("/home/u") == "/home/u/.oci/config"
  {
    assert "//"[..1] == "/";
    assert "/"[..0] == "";
    assert "/home/u/"[..7] == "/home/u";
  }

  /** The path never holds a doubled slash before `.oci` and always ends in `/.oci/config`. */
  lemma {:induction false} ConfigPathShape(home: string)
    ensures var p := ConfigPath(home);
      && |p| >= 12 && p[|p| - 12..] == "/.oci/config"
      && (|p| == 12 || p[|p| - 13] != '/')
  {
    var p := ConfigPath(home);
    var t := TrimSlashes(home);
    assert p[|p| - 12..] == "/.oci/config";
    if |p| > 12 {
      assert p[|p| - 13] == t[|t| - 1];
    }
  }

  /** `check_config_file_auth`, with `~` expanded to `home`. */
  function ConfigFileAuth(home: string, present: bool, probe: ConfigProbe): (r: ConfigFile)
    ensures r.ConfigFound? <==> present && probe.Parsed?
    ensures r.ConfigFound? ==> r.profiles == probe.profiles && r.path == ConfigPath(home)
    ensures present && probe.ParseRaised? ==> r == ConfigBroken(probe.error)
    ensures !present ==> r == ConfigMissing(ConfigPath(home), "Config file not found")
  {
    var path := ConfigPath(home);
    if !present then ConfigMissing(path, "Config file not found")
    else if probe.ParseRaised? then ConfigBroken(probe.error)
    else ConfigFound(path, probe.profiles, probe.defaultValid)
  }

  /**
   * Everything the probes answered. `principalWorks` is what the instance
   * principal signer and its test call gave, if they were tried.
   */
  datatype Probes = Probes(metadata: MetadataProbe, principalWorks: bool, environ: set<string>,
                           resourceSignerWorks: bool, home: string, configExists: bool, config: ConfigProbe)

  // ---------------------------------------------------------------- recommendations

  const INSTANCE_PRINCIPAL := "instance_principal"
  const RESOURCE_PRINCIPAL := "resource_principal"
  const CONFIG_FILE := "config_file"

  /** The five recommendations the probe can make; the config-file one found lists the profiles. */
  datatype Recommendation =
    | InstancePrincipalReady
    | InstancePrincipalSetup
    | ResourcePrincipalReady
    | ConfigFileReady(profiles: seq<string>)
    | ConfigFileSetup
  {
    function Priority(): (p: int)
      ensures 1 <= p <= 4
    {
      match this
      case InstancePrincipalReady => 1
      case InstancePrincipalSetup => 2
      case ResourcePrincipalReady => 1
      case ConfigFileReady(_) => 3
      case ConfigFileSetup => 4
    }

    function Method(): string
    {
      match this
      case InstancePrincipalReady => INSTANCE_PRINCIPAL
      case InstancePrincipalSetup => INSTANCE_PRINCIPAL
      case ResourcePrincipalReady => RESOURCE_PRINCIPAL
      case ConfigFileReady(_) => CONFIG_FILE
      case ConfigFileSetup => CONFIG_FILE
    }

    function Reason(): string
    {
      match this
      case InstancePrincipalReady => "Running on OCI instance with instance principal configured"
      case InstancePrincipalSetup => "Running on OCI instance but instance principal not configured"
      case ResourcePrincipalReady => "Resource principal environment detected (Functions/Container)"
      case ConfigFileReady(_) => "OCI CLI configuration found"
      case ConfigFileSetup => "Can be configured with OCI CLI"
    }

    function Security(): string
    {
      match this
      case InstancePrincipalReady => "High - No credentials to manage"
      case InstancePrincipalSetup => "High - No credentials to manage"
      case ResourcePrincipalReady => "High - Managed by OCI"
      case ConfigFileReady(_) => "Medium - API key stored locally"
      case ConfigFileSetup => "Medium - API key stored locally"
    }

    function SetupRequired(): bool
    {
      InstancePrincipalSetup? || ConfigFileSetup?
    }

    /** The `setup_steps` of the two entries that carry them; the others have none. */
    function SetupSteps(): seq<string>
    {
      match this
      case InstancePrincipalSetup =>
        ["Create dynamic group for instances", "Add policy statements for Logan access", "No instance restart required"]
      case ConfigFileSetup =>
        ["Install OCI CLI", "Run: oci setup config", "Create API key in OCI Console", "Add API key to user"]
      case _ => []
    }
  }

  datatype AuthMethods = AuthMethods(instancePrincipal: bool, resourcePrincipal: bool, configFile: ConfigFile)

  /** The instance principal entry, if any: ready, or to set up on an instance. */
  function PrincipalEntries(onInstance: bool, methods: AuthMethods): seq<Recommendation>
  {
    if methods.instancePrincipal then [InstancePrincipalReady]
    else if onInstance then [InstancePrincipalSetup] else []
  }

  function ResourceEntries(methods: AuthMethods): seq<Recommendation>
  {
    if methods.resourcePrincipal then [ResourcePrincipalReady] else []
  }

  /** The config-file entry, appended in both branches. */
  function ConfigEntry(methods: AuthMethods): Recommendation
  {
    if methods.configFile.ConfigFound? then ConfigFileReady(methods.configFile.profiles) else ConfigFileSetup
  }

  /** The recommendations in the order they are appended. */
  function Appended(onInstance: bool, methods: AuthMethods): seq<Recommendation>
  {
    PrincipalEntries(onInstance, methods) + ResourceEntries(methods) + [ConfigEntry(methods)]
  }

  /** `sort(key=priority)` is a stable ascending sort: descending on the negated priority. */
  function PriorityRank(r: Recommendation): Rank
  {
    ByReal(-(r.Priority() as real))
  }

  datatype SuggestedConfig = SuggestedConfig(authType: string, setupRequired: bool, location: Option<(Json, Json)>)

  datatype Suggestion = Suggestion(isOciInstance: bool, instanceMetadata: Option<Metadata>, authMethods: AuthMethods,
                                   recommendations: seq<Recommendation>, suggestedConfig: Option<SuggestedConfig>)

  /** The suggestion for the best recommendation; the instance's place only for an instance principal. */
  function Suggested(best: Recommendation, metadata: Option<Metadata>): (r: SuggestedConfig)
    ensures r.authType in {INSTANCE_PRINCIPAL, RESOURCE_PRINCIPAL, CONFIG_FILE}
    ensures r.setupRequired <==> best == InstancePrincipalSetup || best == ConfigFileSetup
    ensures r.location.Some? <==> metadata.Some? && (best == InstancePrincipalReady || best == InstancePrincipalSetup)
    ensures r.location.Some? ==> r.location.value == (metadata.value.compartmentId, metadata.value.region)
  {
    SuggestedConfig(best.Method(), best.SetupRequired(),
                    if metadata.Some? && best.Method() == INSTANCE_PRINCIPAL
                    then Some((metadata.value.compartmentId, metadata.value.region)) else None)
  }

  /** `get_environment_suggestion`. */
  function EnvironmentSuggestion(p: Probes): (r: Suggestion)
    ensures r.isOciInstance <==> p.metadata.Responded? && p.metadata.status == 200
    ensures r.instanceMetadata == InstanceMetadata(p.metadata)
    ensures r.authMethods.instancePrincipal <==> r.isOciInstance && p.principalWorks
    ensures r.authMethods.resourcePrincipal == ResourcePrincipal(p.environ, p.resourceSignerWorks)
    ensures r.authMethods.configFile == ConfigFileAuth(p.home, p.configExists, p.config)
    ensures r.suggestedConfig.Some? <==> r.recommendations != []
    ensures r.suggestedConfig.Some? ==> r.suggestedConfig.value == Suggested(r.recommendations[0], r.instanceMetadata)
  {
    var metadata := InstanceMetadata(p.metadata);
    var methods := AuthMethods(metadata.Some? && p.principalWorks, ResourcePrincipal(p.environ, p.resourceSignerWorks),
                               ConfigFileAuth(p.home, p.configExists, p.config));
    Assembled(metadata, methods, SortDesc(Appended(metadata.Some?, methods), PriorityRank))
  }

  /** The result dictionary around the ranked recommendations, suggesting the first one. */
  function Assembled(metadata: Option<Metadata>, methods: AuthMethods, ranked: seq<Recommendation>): Suggestion
  {
    Suggestion(metadata.Some?, metadata, methods, ranked,
               if ranked != [] then Some(Suggested(ranked[0], metadata)) else None)
  }

  method GetEnvironmentSuggestion(p: Probes) returns (r: Suggestion)
    ensures r == EnvironmentSuggestion(p)
  {
    var instanceInfo := InstanceMetadata(p.metadata);
    var methods := AuthMethods(false, false, ConfigFileAuth(p.home, p.configExists, p.config));
    if instanceInfo.Some? {
      methods := methods.(instancePrincipal := p.principalWorks);
    }
    methods := methods.(resourcePrincipal := ResourcePrincipal(p.environ, p.resourceSignerWorks));
    var recommendations: seq<Recommendation> := [];
    if methods.instancePrincipal {
      recommendations := recommendations + [InstancePrincipalReady];
    } else if instanceInfo.Some? && !methods.instancePrincipal {
      recommendations := recommendations + [InstancePrincipalSetup];
    }
    if methods.resourcePrincipal {
      recommendations := recommendations + [ResourcePrincipalReady];
    }
    if methods.configFile.ConfigFound? {
      recommendations := recommendations + [ConfigFileReady(methods.configFile.profiles)];
    } else {
      recommendations := recommendations + [ConfigFileSetup];
    }
    assert recommendations == Appended(instanceInfo.Some?, methods);
    r := RankAndSuggest(instanceInfo, methods, recommendations);
  }

  /** The sort by priority and the suggested configuration taken from the best recommendation. */
  method RankAndSuggest(instanceInfo: Option<Metadata>, methods: AuthMethods, appended: seq<Recommendation>)
    returns (r: Suggestion)
    requires appended == Appended(instanceInfo.Some?, methods)
    ensures r == Assembled(instanceInfo, methods, SortDesc(appended, PriorityRank))
  {
    var recommendations := SortDesc(appended, PriorityRank);
    var suggested: Option<SuggestedConfig> := None;
    if |recommendations| > 0 {
      var best := recommendations[0];
      suggested := Some(SuggestedConfig(best.Method(), best.SetupRequired(), None));
      if instanceInfo.Some? && best.Method() == INSTANCE_PRINCIPAL {
        suggested := Some(suggested.value.(location := Some((instanceInfo.value.compartmentId, instanceInfo.value.region))));
      }
    }
    r := Suggestion(instanceInfo.Some?, instanceInfo, methods, recommendations, suggested);
  }

  // ---------------------------------------------------------------- the first of a stable sort

  /** Where the inserted element lands relative to the head of the sorted rest. */
  lemma InsertDescHead<T>(x: T, t: seq<T>, key: T -> Rank)
    ensures |InsertDesc(x, t, key)| == |t| + 1
    ensures t == [] || !Above(key(t[0]), key(x)) ==> InsertDesc(x, t, key)[0] == x
    ensures t != [] && Above(key(t[0]), key(x)) ==> InsertDesc(x, t, key)[0] == t[0]
  {
    assert |multiset(InsertDesc(x, t, key))| == |multiset([x] + t)|;
  }

  /** The first element of a stable descending sort is the earliest one no other element ranks above. */
  lemma {:induction false} SortDescFirst<T>(s: seq<T>, key: T -> Rank, k: nat)
    requires k < |s|
    requires forall i :: 0 <= i < |s| ==> !Above(key(s[i]), key(s[k]))
    requires forall i :: 0 <= i < k ==> Above(key(s[k]), key(s[i]))
    ensures |SortDesc(s, key)| == |s| && SortDesc(s, key)[0] == s[k]
  {
    var rest := s[1..];
    var tail := SortDesc(rest, key);
    assert |tail| == |rest| by { assert |multiset(tail)| == |multiset(rest)|; }
    assert SortDesc(s, key) == InsertDesc(s[0], tail, key);
    InsertDescHead(s[0], tail, key);
    if k == 0 {
      if tail != [] {
        assert tail[0] in multiset(rest);
        var j :| 0 <= j < |rest| && rest[j] == tail[0];
        assert s[j + 1] == tail[0];
      }
    } else {
      assert forall i :: 0 <= i < |rest| ==> rest[i] == s[i + 1];
      SortDescFirst(rest, key, k - 1);
    }
  }

  // ---------------------------------------------------------------- properties

  predicate IsConfigFileEntry(r: Recommendation)
  {
    r.Method() == CONFIG_FILE
  }

  /** Up to three entries are appended, the last and only config-file one always. */
  lemma AppendedShape(onInstance: bool, methods: AuthMethods)
    ensures var s := Appended(onInstance, methods);
      1 <= |s| <= 3 && |Filter(s, IsConfigFileEntry)| == 1
  {
    var head := PrincipalEntries(onInstance, methods) + ResourceEntries(methods);
    assert forall x :: x in head ==> !IsConfigFileEntry(x);
    if Filter(head, IsConfigFileEntry) != [] {
      FilterMember(head, IsConfigFileEntry, Filter(head, IsConfigFileEntry)[0]);
    }
    FilterSnoc(head, ConfigEntry(methods), IsConfigFileEntry);
  }

  /** Ranking keeps the entries and orders them by ascending priority. */
  lemma RankedOrder(s: seq<Recommendation>)
    ensures var r := SortDesc(s, PriorityRank);
      && |r| == |s| && multiset(r) == multiset(s)
      && (forall i, j :: 0 <= i < j < |r| ==> r[i].Priority() <= r[j].Priority())
      && |Filter(r, IsConfigFileEntry)| == |Filter(s, IsConfigFileEntry)|
  {
    var r := SortDesc(s, PriorityRank);
    SortDescSorted(s, PriorityRank);
    FilterCountPermuted(r, s, IsConfigFileEntry);
    forall i, j | 0 <= i < j < |r|
      ensures r[i].Priority() <= r[j].Priority()
    {
      assert !Above(PriorityRank(r[j]), PriorityRank(r[i]));
    }
  }

  /**
   * There is always a recommendation (exactly one for the config file), so
   * a suggested configuration is always set; the list is a reordering of
   * what was appended, ascending by priority.
   */
  lemma RecommendationsRanked(p: Probes)
    ensures var r := EnvironmentSuggestion(p);
      && 1 <= |r.recommendations| <= 3
      && r.suggestedConfig.Some?
      && multiset(r.recommendations) == multiset(Appended(r.isOciInstance, r.authMethods))
      && (forall i, j :: 0 <= i < j < |r.recommendations| ==>
            r.recommendations[i].Priority() <= r.recommendations[j].Priority())
      && |Filter(r.recommendations, IsConfigFileEntry)| == 1
  {
    var r := EnvironmentSuggestion(p);
    var appended := Appended(r.isOciInstance, r.authMethods);
    assert r.recommendations == SortDesc(appended, PriorityRank);
    AppendedShape(r.isOciInstance, r.authMethods);
    RankedOrder(appended);
  }

  /** Instance principal is probed only on an instance: off one the signer's answer changes nothing. */
  lemma InstancePrincipalOnlyOnInstance(p: Probes)
    ensures EnvironmentSuggestion(p).authMethods.instancePrincipal <==> EnvironmentSuggestion(p).isOciInstance && p.principalWorks
    ensures !EnvironmentSuggestion(p).isOciInstance ==>
              EnvironmentSuggestion(p) == EnvironmentSuggestion(p.(principalWorks := !p.principalWorks))
  {
  }

  lemma AppendedSetupEntry(onInstance: bool, methods: AuthMethods)
    ensures InstancePrincipalSetup in Appended(onInstance, methods) <==> onInstance && !methods.instancePrincipal
  {
    var s := Appended(onInstance, methods);
    assert InstancePrincipalSetup in s <==>
             InstancePrincipalSetup in PrincipalEntries(onInstance, methods) + ResourceEntries(methods);
  }

  /** The priority-2 entry appears exactly on an instance whose instance principal failed. */
  lemma SetupEntryOnlyOnInstance(p: Probes)
    ensures InstancePrincipalSetup in EnvironmentSuggestion(p).recommendations <==>
              EnvironmentSuggestion(p).isOciInstance && !p.principalWorks
  {
    var r := EnvironmentSuggestion(p);
    var appended := Appended(r.isOciInstance, r.authMethods);
    RankedOrder(appended);
    AppendedSetupEntry(r.isOciInstance, r.authMethods);
    assert InstancePrincipalSetup in multiset(r.recommendations) <==> InstancePrincipalSetup in multiset(appended);
  }

  /** The method the probe suggests, in order of preference. */
  function Preferred(onInstance: bool, methods: AuthMethods): Recommendation
  {
    if methods.instancePrincipal then InstancePrincipalReady
    else if methods.resourcePrincipal then ResourcePrincipalReady
    else if onInstance then InstancePrincipalSetup
    else if methods.configFile.ConfigFound? then ConfigFileReady(methods.configFile.profiles)
    else ConfigFileSetup
  }

  /**
   * The sort's first entry is the preferred one: a working instance
   * principal wins over an equally ranked resource principal because it
   * was appended first.
   */
  lemma RankedFirst(onInstance: bool, methods: AuthMethods)
    ensures |SortDesc(Appended(onInstance, methods), PriorityRank)| > 0
    ensures SortDesc(Appended(onInstance, methods), PriorityRank)[0] == Preferred(onInstance, methods)
  {
    var s := Appended(onInstance, methods);
    var cf := ConfigEntry(methods);
    if methods.instancePrincipal {
      assert s[0] == InstancePrincipalReady;
      FirstOfRanked(s, 0);
    } else if methods.resourcePrincipal && onInstance {
      assert s == [InstancePrincipalSetup, ResourcePrincipalReady, cf];
      FirstOfRanked(s, 1);
    } else if methods.resourcePrincipal {
      assert s == [ResourcePrincipalReady, cf];
      FirstOfRanked(s, 0);
    } else if onInstance {
      assert s == [InstancePrincipalSetup, cf];
      FirstOfRanked(s, 0);
    } else {
      assert s == [cf];
      FirstOfRanked(s, 0);
    }
  }

  /** The ranking's first entry is the earliest of lowest priority. */
  lemma FirstOfRanked(s: seq<Recommendation>, k: nat)
    requires k < |s|
    requires forall i :: 0 <= i < |s| ==> s[k].Priority() <= s[i].Priority()
    requires forall i :: 0 <= i < k ==> s[k].Priority() < s[i].Priority()
    ensures |SortDesc(s, PriorityRank)| == |s| && SortDesc(s, PriorityRank)[0] == s[k]
  {
    SortDescFirst(s, PriorityRank, k);
  }

  /**
   * The suggested configuration is the preferred method; the instance's
   * compartment and region are suggested exactly for an instance principal
   * on an instance.
   */
  lemma BestMethod(p: Probes)
    ensures var r := EnvironmentSuggestion(p);
      && r.suggestedConfig.Some?
      && r.suggestedConfig.value.authType == Preferred(r.isOciInstance, r.authMethods).Method()
      && r.suggestedConfig.value.setupRequired == Preferred(r.isOciInstance, r.authMethods).SetupRequired()
      && (r.suggestedConfig.value.location.Some? <==>
            r.isOciInstance && r.suggestedConfig.value.authType == INSTANCE_PRINCIPAL)
      && (r.suggestedConfig.value.location.Some? ==>
            r.suggestedConfig.value.location.value == (r.instanceMetadata.value.compartmentId, r.instanceMetadata.value.region))
  {
    var r := EnvironmentSuggestion(p);
    RankedFirst(r.isOciInstance, r.authMethods);
  }

  // ---------------------------------------------------------------- exit code

  /** `main`'s exit code: 0 with a working instance principal, 1 elsewhere on OCI, 2 off OCI. */
  function ExitCode(r: Suggestion): (code: int)
    ensures 0 <= code <= 2
  {
    if r.authMethods.instancePrincipal then 0 else if r.isOciInstance then 1 else 2
  }

  lemma ExitCodes(p: Probes)
    ensures var metadata := InstanceMetadata(p.metadata);
      && (ExitCode(EnvironmentSuggestion(p)) == 0 <==> metadata.Some? && p.principalWorks)
      && (ExitCode(EnvironmentSuggestion(p)) == 1 <==> metadata.Some? && !p.principalWorks)
      && (ExitCode(EnvironmentSuggestion(p)) == 2 <==> metadata.None?)
  {
  }
}
