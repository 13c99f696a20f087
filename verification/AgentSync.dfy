/** Keeping a managed agent's YAML file and the version store in step. */
module AgentSync {
  import opened Wrappers
  import opened Sequences
  import opened Names

  datatype ApprovalPolicy = Ask | Yolo | Deny

  /** The bit pattern of a 64-bit float. */
  type Bits = n: nat | n < 0x1_0000_0000_0000_0000

  datatype Temperature = Finite(bits: Bits) | NotFinite

  datatype AgentYaml = AgentYaml(name: string, model: string, baseUrl: Option<string>, systemPrompt: string,
                                 allowedTools: seq<string>, allowedSkills: seq<string>, maxIterations: nat,
                                 temperature: Temperature, approvalPolicy: ApprovalPolicy, timeoutSecs: nat)

  /** What a version of an agent records: everything but the name. */
  datatype Draft = Draft(model: string, baseUrl: Option<string>, systemPrompt: string,
                         allowedTools: seq<string>, allowedSkills: seq<string>, maxIterations: nat,
                         temperature: Temperature, approvalPolicy: ApprovalPolicy, timeoutSecs: nat)

  datatype ConfigError =
    | Unparsable | BadName | NoModel | NoPrompt | NoIterations | NoTimeout | BadTemperature | BadTools
    | BadSkills | AgentArchived

  /** Defaults, and what tools and skills may be listed. */
  datatype AppConfig = AppConfig(model: string, baseUrl: Option<string>, tools: set<string>,
                                 skillsExist: seq<string> -> bool)

  // ----- Normalising and validating -----

  function CleanOptional(value: Option<string>): Option<string> {
    match value
    case None => None
    case Some(v) => if Trim(v) == "" then None else Some(Trim(v))
  }

  function NormalizeFields(y: AgentYaml): AgentYaml {
    y.(name := Trim(y.name),
       model := Trim(y.model),
       baseUrl := CleanOptional(y.baseUrl),
       systemPrompt := TrimLineEnds(y.systemPrompt),
       allowedTools := NormalizeNames(y.allowedTools),
       allowedSkills := NormalizeNames(y.allowedSkills))
  }

  predicate IsNameChar(c: char) {
    'a' <= c <= 'z' || 'A' <= c <= 'Z' || '0' <= c <= '9' || c == '-' || c == '_'
  }

  predicate IsAgentName(name: string) {
    1 <= |name| <= 64 && forall i :: 0 <= i < |name| ==> IsNameChar(name[i])
  }

  /** The first complaint about the fields other than the model. */
  function ComplaintButModel(y: AgentYaml, cfg: AppConfig): Option<ConfigError> {
    if !IsAgentName(y.name) then Some(BadName)
    else if Trim(y.systemPrompt) == "" then Some(NoPrompt)
    else if y.maxIterations == 0 then Some(NoIterations)
    else if y.timeoutSecs == 0 then Some(NoTimeout)
    else if y.temperature.NotFinite? then Some(BadTemperature)
    else if exists t :: t in y.allowedTools && t !in cfg.tools then Some(BadTools)
    else None
  }

  function Complaint(y: AgentYaml, cfg: AppConfig): Option<ConfigError> {
    if !IsAgentName(y.name) then Some(BadName)
    else if y.model == "" then Some(NoModel)
    else ComplaintButModel(y, cfg)
  }

  function Normalized(y: AgentYaml, cfg: AppConfig): Result<AgentYaml, ConfigError> {
    var n := NormalizeFields(y);
    match Complaint(n, cfg)
    case Some(e) => Err(e)
    case None => Ok(n)
  }

  function ResolveModel(model: string, cfg: AppConfig): Option<string> {
    match CleanOptional(Some(model))
    case Some(m) => Some(m)
    case None => CleanOptional(Some(cfg.model))
  }

  function ResolveBaseUrl(baseUrl: Option<string>, cfg: AppConfig): Option<string> {
    match CleanOptional(baseUrl)
    case Some(u) => Some(u)
    case None => CleanOptional(cfg.baseUrl)
  }

  function NormalizedWithDefaults(y: AgentYaml, cfg: AppConfig): Result<AgentYaml, ConfigError> {
    var n := NormalizeFields(y);
    match ComplaintButModel(n, cfg)
    case Some(e) => Err(e)
    case None =>
      match ResolveModel(n.model, cfg)
      case None => Err(NoModel)
      case Some(model) =>
        var full := n.(model := model, baseUrl := ResolveBaseUrl(n.baseUrl, cfg));
        match Complaint(full, cfg)
        case Some(e) => Err(e)
        case None => Ok(full)
  }

  function ToDraft(y: AgentYaml): Draft {
    Draft(y.model, y.baseUrl, y.systemPrompt, y.allowedTools, y.allowedSkills, y.maxIterations,
          y.temperature, y.approvalPolicy, y.timeoutSecs)
  }

  function FromAgentVersion(name: string, v: Draft, cfg: AppConfig): Result<AgentYaml, ConfigError> {
    Normalized(AgentYaml(name, v.model, v.baseUrl, v.systemPrompt, v.allowedTools, v.allowedSkills,
                         v.maxIterations, v.temperature, v.approvalPolicy, v.timeoutSecs), cfg)
  }

  // ----- The metadata line -----

  const METADATA_PREFIX := "# hermes-synced: sha256="

  /** YAML and SHA-256 (as lower-case hexadecimal). */
  datatype Codec = Codec(serialize: AgentYaml -> string, parse: string -> Option<AgentYaml>, sha: string -> string)

  predicate IsHexDigit(c: char) {
    '0' <= c <= '9' || 'a' <= c <= 'f'
  }

  predicate IsHex(s: string) {
    s != "" && forall i :: 0 <= i < |s| ==> IsHexDigit(s[i])
  }

  /** Serialising this specification and parsing the result, with the metadata line in
      front, gives it back. */
  predicate RoundTrips(codec: Codec, y: AgentYaml) {
    IsHex(Hash(codec, y)) && codec.parse(Rendered(codec, y)) == Some(y)
  }

  function Hash(codec: Codec, y: AgentYaml): string {
    codec.sha(codec.serialize(y))
  }

  /** `y`, already canonical, with its hash in front. */
  function Rendered(codec: Codec, y: AgentYaml): string {
    METADATA_PREFIX + Hash(codec, y) + ("\n" + codec.serialize(y))
  }

  function LineEnd(s: string): (n: nat)
    ensures n <= |s| && (n < |s| ==> s[n] == '\n')
    ensures forall i :: 0 <= i < n ==> s[i] != '\n'
  {
    if s == "" || s[0] == '\n' then 0 else 1 + LineEnd(s[1..])
  }

  function MetadataIn(line: string): Option<string> {
    var text := Trim(line);
    if METADATA_PREFIX <= text && Trim(text[|METADATA_PREFIX|..]) != "" then Some(Trim(text[|METADATA_PREFIX|..]))
    else None
  }

  /** The hash on the first metadata line. */
  function ExtractMetadata(contents: string): Option<string>
    decreases |contents|
  {
    if contents == "" then None
    else
      var n := LineEnd(contents);
      match MetadataIn(contents[..n])
      case Some(hash) => Some(hash)
      case None => if n == |contents| then None else ExtractMetadata(contents[n + 1..])
  }

  // ----- Planning and applying -----

  datatype SyncAction = CreateAgentAndVersion | PublishVersion | WriteMetadata | Noop

  datatype AgentRecord = AgentRecord(archived: bool, versions: seq<Draft>)

  /** Agents by name; the last version of each is its latest. */
  type Store = map<string, AgentRecord>

  datatype SyncPlan = SyncPlan(spec: AgentYaml, desiredHash: string, currentHash: Option<string>,
                               metadataHash: Option<string>, action: SyncAction)

  function LatestVersion(store: Store, name: string): Option<Draft> {
    if name in store && store[name].versions != [] then Some(store[name].versions[|store[name].versions| - 1])
    else None
  }

  function ChooseAction(exists_: bool, desired: string, current: Option<string>, metadata: Option<string>): SyncAction {
    if !exists_ then CreateAgentAndVersion
    else if current == None then PublishVersion
    else if current == Some(desired) && metadata != Some(desired) then WriteMetadata
    else if current == Some(desired) then Noop
    else PublishVersion
  }

  function BuildSyncPlan(codec: Codec, cfg: AppConfig, store: Store, file: string): Result<SyncPlan, ConfigError> {
    match codec.parse(file)
    case None => Err(Unparsable)
    case Some(parsed) =>
      match NormalizedWithDefaults(parsed, cfg)
      case Err(e) => Err(e)
      case Ok(spec) =>
        if !cfg.skillsExist(spec.allowedSkills) then Err(BadSkills)
        else if spec.name in store && store[spec.name].archived then Err(AgentArchived)
        else
          match Normalized(spec, cfg)
          case Err(e) => Err(e)
          case Ok(canonical) =>
            var desired := Hash(codec, canonical);
            match LatestVersion(store, spec.name)
            case None =>
              Ok(SyncPlan(spec, desired, None, ExtractMetadata(file),
                          ChooseAction(spec.name in store, desired, None, ExtractMetadata(file))))
            case Some(v) =>
              match FromAgentVersion(spec.name, v, cfg)
              case Err(e) => Err(e)
              case Ok(current) =>
                Ok(SyncPlan(spec, desired, Some(Hash(codec, current)), ExtractMetadata(file),
                            ChooseAction(true, desired, Some(Hash(codec, current)), ExtractMetadata(file))))
  }

  function WithVersion(store: Store, name: string, d: Draft): Store
    requires name in store
  {
    store[name := store[name].(versions := store[name].versions + [d])]
  }

  function WithAgent(store: Store, name: string): Store {
    store[name := AgentRecord(false, [])]
  }

  /** The store after applying a plan; the preflight may refuse the model. */
  function AppliedStore(store: Store, plan: SyncPlan, preflightOk: bool): Store
    requires plan.action.PublishVersion? ==> plan.spec.name in store
  {
    match plan.action
    case Noop => store
    case WriteMetadata => store
    case CreateAgentAndVersion =>
      var created := WithAgent(store, plan.spec.name);
      if preflightOk then WithVersion(created, plan.spec.name, ToDraft(plan.spec)) else created
    case PublishVersion =>
      if preflightOk then WithVersion(store, plan.spec.name, ToDraft(plan.spec)) else store
  }

  /** Whether the plan got as far as rewriting the file. */
  predicate RewritesFile(plan: SyncPlan, preflightOk: bool) {
    plan.action.WriteMetadata? || (!plan.action.Noop? && preflightOk)
  }

  class SyncTarget {
    var store: Store
    var file: string

    constructor (store: Store, file: string)
      ensures this.store == store && this.file == file
    {
      this.store := store;
      this.file := file;
    }

    method WriteSyncMetadata(codec: Codec, cfg: AppConfig, spec: AgentYaml) returns (ok: bool)
      modifies `file
      ensures match Normalized(spec, cfg)
              case Ok(canonical) => ok && file == Rendered(codec, canonical)
              case Err(_) => !ok && file == old(file)
    {
      match Normalized(spec, cfg)
      case Ok(canonical) =>
        file := Rendered(codec, canonical);
        ok := true;
      case Err(_) =>
        ok := false;
    }

    method ApplySyncPlan(codec: Codec, cfg: AppConfig, plan: SyncPlan, preflight: Draft -> bool) returns (ok: bool)
      requires plan.action.PublishVersion? ==> plan.spec.name in store
      requires Normalized(plan.spec, cfg) == Ok(plan.spec)
      modifies this
      ensures store == AppliedStore(old(store), plan, preflight(ToDraft(plan.spec)))
      ensures file == if RewritesFile(plan, preflight(ToDraft(plan.spec))) then Rendered(codec, plan.spec)
                      else old(file)
      ensures ok == (plan.action.Noop? || plan.action.WriteMetadata? || preflight(ToDraft(plan.spec)))
    {
      match plan.action
      case Noop =>
        ok := true;
      case WriteMetadata =>
        ok := WriteSyncMetadata(codec, cfg, plan.spec);
      case CreateAgentAndVersion =>
        store := WithAgent(store, plan.spec.name);
        ok := Publish(codec, cfg, plan, preflight);
      case PublishVersion =>
        ok := Publish(codec, cfg, plan, preflight);
    }

    method Publish(codec: Codec, cfg: AppConfig, plan: SyncPlan, preflight: Draft -> bool) returns (ok: bool)
      requires plan.spec.name in store && Normalized(plan.spec, cfg) == Ok(plan.spec)
      modifies this
      ensures ok == preflight(ToDraft(plan.spec))
      ensures store == if ok then WithVersion(old(store), plan.spec.name, ToDraft(plan.spec)) else old(store)
      ensures file == if ok then Rendered(codec, plan.spec) else old(file)
    {
      var draft := ToDraft(plan.spec);
      if !preflight(draft) {
        return false;
      }
      store := WithVersion(store, plan.spec.name, draft);
      ok := WriteSyncMetadata(codec, cfg, plan.spec);
    }
  }

  // ----- Canonical specifications are fixed points -----

  lemma CleanOptionalIdempotent(v: Option<string>)
    ensures CleanOptional(CleanOptional(v)) == CleanOptional(v)
    ensures CleanOptional(v).Some? ==> Trim(CleanOptional(v).value) == CleanOptional(v).value != ""
  {
    if v.Some? {
      TrimTrims(v.value);
      TrimmedIsFixed(Trim(v.value));
    }
  }

  /** Normalising is idempotent. */
  lemma NormalizeFieldsIdempotent(y: AgentYaml)
    ensures NormalizeFields(NormalizeFields(y)) == NormalizeFields(y)
  {
    TrimTrims(y.name);
    TrimmedIsFixed(Trim(y.name));
    TrimTrims(y.model);
    TrimmedIsFixed(Trim(y.model));
    CleanOptionalIdempotent(y.baseUrl);
    LineEndsTrimmedOnce(y.systemPrompt);
    NormalizeNamesNormal(y.allowedTools);
    NormalizeNamesIdempotent(NormalizeNames(y.allowedTools));
    NormalizeNamesNormal(y.allowedSkills);
    NormalizeNamesIdempotent(NormalizeNames(y.allowedSkills));
  }

  predicate IsCanonical(y: AgentYaml, cfg: AppConfig) {
    NormalizeFields(y) == y && Complaint(y, cfg) == None
  }

  /** A specification that has taken its defaults normalises to itself, with or
      without the defaults. */
  lemma DefaultsAreFixed(y: AgentYaml, cfg: AppConfig)
    requires NormalizedWithDefaults(y, cfg).Ok?
    ensures var spec := NormalizedWithDefaults(y, cfg).value;
            && IsCanonical(spec, cfg)
            && Normalized(spec, cfg) == Ok(spec)
            && NormalizedWithDefaults(spec, cfg) == Ok(spec)
  {
    var n := NormalizeFields(y);
    var spec := NormalizedWithDefaults(y, cfg).value;
    NormalizeFieldsIdempotent(y);
    CleanOptionalIdempotent(Some(n.model));
    CleanOptionalIdempotent(Some(cfg.model));
    CleanOptionalIdempotent(n.baseUrl);
    CleanOptionalIdempotent(cfg.baseUrl);
    assert Trim(spec.model) == spec.model;
    assert CleanOptional(spec.baseUrl) == spec.baseUrl;
  }

  lemma VersionRoundTrip(spec: AgentYaml, cfg: AppConfig)
    requires IsCanonical(spec, cfg)
    ensures FromAgentVersion(spec.name, ToDraft(spec), cfg) == Ok(spec)
  {
  }

  // ----- The metadata line is found again -----

  lemma HexIsPlain(hash: string)
    requires IsHex(hash)
    ensures IsTrimmed(hash) && forall i :: 0 <= i < |hash| ==> hash[i] != '\n'
  {
    assert IsHexDigit(hash[0]) && IsHexDigit(hash[|hash| - 1]);
  }

  lemma {:induction false} LineEndAt(line: string, rest: string)
    requires forall i :: 0 <= i < |line| ==> line[i] != '\n'
    ensures LineEnd(line + ("\n" + rest)) == |line|
  {
    if line == "" {
      EmptyConcat("\n" + rest);
    } else {
      TailOfConcat(line, "\n" + rest);
      LineEndAt(line[1..], rest);
    }
  }

  lemma PrefixIsPlain()
    ensures |METADATA_PREFIX| == 24 && METADATA_PREFIX[0] == '#'
    ensures forall i :: 0 <= i < |METADATA_PREFIX| ==> METADATA_PREFIX[i] != '\n'
  {
  }

  lemma MetadataLineRead(hash: string)
    requires IsHex(hash)
    ensures MetadataIn(METADATA_PREFIX + hash) == Some(hash)
  {
    hide Trim;
    var line := METADATA_PREFIX + hash;
    HexIsPlain(hash);
    PrefixIsPlain();
    assert line[0] == '#' && line[|line| - 1] == hash[|hash| - 1];
    TrimmedIsFixed(line);
    TrimmedIsFixed(hash);
    PartsOfConcat(METADATA_PREFIX, hash);
  }

  /** The hash written by rendering is the hash read back. */
  lemma RenderedMetadata(codec: Codec, y: AgentYaml)
    requires IsHex(Hash(codec, y))
    ensures ExtractMetadata(Rendered(codec, y)) == Some(Hash(codec, y))
  {
    hide MetadataIn;
    var hash := Hash(codec, y);
    var line := METADATA_PREFIX + hash;
    HexIsPlain(hash);
    PrefixIsPlain();
    LineEndAt(line, codec.serialize(y));
    MetadataLineRead(hash);
    PartsOfConcat(line, "\n" + codec.serialize(y));
  }

  // ----- Convergence -----

  predicate InSync(plan: SyncPlan) {
    && plan.action == Noop
    && plan.currentHash == Some(plan.desiredHash)
    && plan.metadataHash == Some(plan.desiredHash)
  }

  /** What a plan carries. */
  lemma PlanFacts(codec: Codec, cfg: AppConfig, store: Store, file: string)
    requires BuildSyncPlan(codec, cfg, store, file).Ok?
    ensures var plan := BuildSyncPlan(codec, cfg, store, file).value;
            && IsCanonical(plan.spec, cfg) && cfg.skillsExist(plan.spec.allowedSkills)
            && Normalized(plan.spec, cfg) == Ok(plan.spec)
            && (plan.spec.name in store ==> !store[plan.spec.name].archived)
            && plan.desiredHash == Hash(codec, plan.spec)
            && (plan.action.CreateAgentAndVersion? <==> plan.spec.name !in store)
            && (plan.action.WriteMetadata? || plan.action.Noop? ==> plan.currentHash == Some(plan.desiredHash))
            && (plan.action.Noop? ==> plan.metadataHash == Some(plan.desiredHash))
  {
    hide NormalizedWithDefaults, Normalized, IsCanonical, FromAgentVersion, ExtractMetadata, Hash;
    DefaultsAreFixed(codec.parse(file).value, cfg);
  }

  /** Planning on a rendered file whose agent's latest version hashes to the same. */
  lemma PlanOnRendered(codec: Codec, cfg: AppConfig, store: Store, spec: AgentYaml)
    requires RoundTrips(codec, spec) && IsCanonical(spec, cfg) && cfg.skillsExist(spec.allowedSkills)
    requires NormalizedWithDefaults(spec, cfg) == Ok(spec)
    requires spec.name in store && !store[spec.name].archived
    requires LatestVersion(store, spec.name).Some?
    requires var v := FromAgentVersion(spec.name, LatestVersion(store, spec.name).value, cfg);
             v.Ok? && Hash(codec, v.value) == Hash(codec, spec)
    ensures var plan := BuildSyncPlan(codec, cfg, store, Rendered(codec, spec));
            plan.Ok? && plan.value.spec == spec && plan.value.desiredHash == Hash(codec, spec) && InSync(plan.value)
  {
    hide FromAgentVersion, Rendered, ExtractMetadata, Hash, NormalizedWithDefaults, NormalizeFields,
         Complaint;
    RenderedMetadata(codec, spec);
  }

  lemma PlannedSpecTakesNoDefaults(codec: Codec, cfg: AppConfig, store: Store, file: string)
    requires BuildSyncPlan(codec, cfg, store, file).Ok?
    ensures var spec := BuildSyncPlan(codec, cfg, store, file).value.spec;
            NormalizedWithDefaults(spec, cfg) == Ok(spec)
  {
    hide NormalizedWithDefaults, Normalized, IsCanonical, FromAgentVersion, ExtractMetadata, Hash;
    DefaultsAreFixed(codec.parse(file).value, cfg);
  }

  /** Main result: apply a plan successfully and plan again, on the file and store it
      left: nothing to do, and all three hashes agree.  If the first plan had nothing to
      do, planning again says the same. */
  lemma SyncConverges(codec: Codec, cfg: AppConfig, store: Store, file: string)
    requires BuildSyncPlan(codec, cfg, store, file).Ok?
    requires RoundTrips(codec, BuildSyncPlan(codec, cfg, store, file).value.spec)
    ensures var plan := BuildSyncPlan(codec, cfg, store, file).value;
            var file' := if RewritesFile(plan, true) then Rendered(codec, plan.spec) else file;
            var again := BuildSyncPlan(codec, cfg, AppliedStore(store, plan, true), file');
            && again.Ok? && again.value.spec == plan.spec && again.value.desiredHash == plan.desiredHash
            && InSync(again.value)
  {
    hide NormalizedWithDefaults, Normalized, IsCanonical, FromAgentVersion, ExtractMetadata, Hash, Rendered;
    var plan := BuildSyncPlan(codec, cfg, store, file).value;
    var spec := plan.spec;
    PlanFacts(codec, cfg, store, file);
    PlannedSpecTakesNoDefaults(codec, cfg, store, file);
    match plan.action
    case Noop =>
    case WriteMetadata =>
      PlanOnRendered(codec, cfg, store, spec);
    case CreateAgentAndVersion =>
      VersionRoundTrip(spec, cfg);
      PlanOnRendered(codec, cfg, AppliedStore(store, plan, true), spec);
    case PublishVersion =>
      VersionRoundTrip(spec, cfg);
      PlanOnRendered(codec, cfg, AppliedStore(store, plan, true), spec);
  }

  /** A refused preflight loses nothing: the file is untouched, planning again succeeds
      with the same target, and it now publishes rather than creates. */
  lemma RetryAfterRefusedPreflight(codec: Codec, cfg: AppConfig, store: Store, file: string)
    requires BuildSyncPlan(codec, cfg, store, file).Ok?
    requires var plan := BuildSyncPlan(codec, cfg, store, file).value;
             plan.action.CreateAgentAndVersion? || plan.action.PublishVersion?
    ensures var plan := BuildSyncPlan(codec, cfg, store, file).value;
            var again := BuildSyncPlan(codec, cfg, AppliedStore(store, plan, false), file);
            && !RewritesFile(plan, false)
            && again.Ok? && again.value.action == PublishVersion
            && again.value.spec == plan.spec && again.value.desiredHash == plan.desiredHash
  {
    hide NormalizedWithDefaults, Normalized, FromAgentVersion, ExtractMetadata, Hash;
  }

  /** Losing the file write after the version was published is repaired by the next
      sync: it writes the metadata, unless the old file already carried it. */
  lemma RepairAfterLostWrite(codec: Codec, cfg: AppConfig, store: Store, file: string)
    requires BuildSyncPlan(codec, cfg, store, file).Ok?
    requires var plan := BuildSyncPlan(codec, cfg, store, file).value;
             plan.action.CreateAgentAndVersion? || plan.action.PublishVersion?
    ensures var plan := BuildSyncPlan(codec, cfg, store, file).value;
            var again := BuildSyncPlan(codec, cfg, AppliedStore(store, plan, true), file);
            && again.Ok? && again.value.desiredHash == plan.desiredHash
            && again.value.action == if plan.metadataHash == Some(plan.desiredHash) then Noop else WriteMetadata
  {
    hide NormalizedWithDefaults, Normalized, IsCanonical, FromAgentVersion, ExtractMetadata, Hash;
    var plan := BuildSyncPlan(codec, cfg, store, file).value;
    PlanFacts(codec, cfg, store, file);
    VersionRoundTrip(plan.spec, cfg);
  }
}
