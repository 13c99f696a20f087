/** What a sync accepts, which fault it names otherwise, what it writes and what it leaves
    alone, told without the functions that compute it. */
module SyncLaws {
  import opened Wrappers
  import opened Sequences
  import opened Names
  import opened AgentSync

  // ----- Which specifications are accepted, and as what -----

  /** What is wrong with a file, as the error names it. */
  predicate HasFault(y: AgentYaml, cfg: AppConfig, e: ConfigError) {
    match e
    case BadName =>
      var name := Trim(y.name);
      name == "" || |name| > 64
      || exists c :: c in name && !('a' <= c <= 'z' || 'A' <= c <= 'Z' || '0' <= c <= '9' || c == '-' || c == '_')
    case NoPrompt => Trim(TrimLineEnds(y.systemPrompt)) == ""
    case NoIterations => y.maxIterations == 0
    case NoTimeout => y.timeoutSecs == 0
    case BadTemperature => y.temperature == NotFinite
    case BadTools => exists k :: 0 <= k < |y.allowedTools| && Trim(y.allowedTools[k]) != ""
                                 && Trim(y.allowedTools[k]) !in cfg.tools
    case NoModel => Trim(y.model) == "" && Trim(cfg.model) == ""
    case _ => false
  }

  /** The order in which faults are looked for. */
  function Rank(e: ConfigError): nat {
    match e
    case BadName => 0
    case NoPrompt => 1
    case NoIterations => 2
    case NoTimeout => 3
    case BadTemperature => 4
    case BadTools => 5
    case NoModel => 6
    case _ => 7
  }

  /** The first of two optional texts that is not blank, trimmed. */
  predicate IsFirstOf(first: Option<string>, second: Option<string>, value: Option<string>) {
    if first.Some? && Trim(first.value) != "" then value == Some(Trim(first.value))
    else if second.Some? && Trim(second.value) != "" then value == Some(Trim(second.value))
    else value == None
  }

  /** `spec` is `y` in canonical form: the model and address given, or else the configured
      ones; every other field as given, trimmed and in order. */
  predicate IsCanonicalOf(y: AgentYaml, cfg: AppConfig, spec: AgentYaml) {
    && spec == y.(name := Trim(y.name), systemPrompt := TrimLineEnds(y.systemPrompt),
                  allowedTools := NormalizeNames(y.allowedTools), allowedSkills := NormalizeNames(y.allowedSkills),
                  model := spec.model, baseUrl := spec.baseUrl)
    && IsFirstOf(Some(y.model), Some(cfg.model), Some(spec.model))
    && IsFirstOf(y.baseUrl, cfg.baseUrl, spec.baseUrl)
  }

  lemma NameFault(name: string)
    ensures IsAgentName(name) <==>
            !(name == "" || |name| > 64
              || exists c :: c in name
                             && !('a' <= c <= 'z' || 'A' <= c <= 'Z' || '0' <= c <= '9' || c == '-' || c == '_'))
  {
    assert forall i :: 0 <= i < |name| ==> name[i] in name;
  }

  lemma ToolsFault(y: AgentYaml, cfg: AppConfig)
    ensures (exists t :: t in NormalizeNames(y.allowedTools) && t !in cfg.tools) <==> HasFault(y, cfg, BadTools)
  {
    hide NormalizeNames, Trim;
    NormalizeNamesNormal(y.allowedTools);
    if k :| 0 <= k < |y.allowedTools| && Trim(y.allowedTools[k]) != "" && Trim(y.allowedTools[k]) !in cfg.tools {
      assert Trim(y.allowedTools[k]) in NormalizeNames(y.allowedTools);
    }
  }

  /** What is complained of apart from the model is the first fault there is. */
  lemma ComplaintIsFirst(y: AgentYaml, cfg: AppConfig)
    ensures match ComplaintButModel(NormalizeFields(y), cfg)
            case None => forall e :: HasFault(y, cfg, e) ==> e == NoModel
            case Some(e) => e != NoModel && HasFault(y, cfg, e)
                            && forall f :: HasFault(y, cfg, f) ==> Rank(e) <= Rank(f)
  {
    hide NormalizeNames, Trim, TrimLineEnds, IsAgentName, CleanOptional;
    NameFault(Trim(y.name));
    ToolsFault(y, cfg);
  }

  lemma ModelResolved(y: AgentYaml, cfg: AppConfig)
    ensures var m := ResolveModel(NormalizeFields(y).model, cfg);
            && (m == None <==> HasFault(y, cfg, NoModel))
            && (m.Some? ==> IsFirstOf(Some(y.model), Some(cfg.model), m) && m.value != "")
    ensures IsFirstOf(y.baseUrl, cfg.baseUrl, ResolveBaseUrl(NormalizeFields(y).baseUrl, cfg))
  {
    TrimTrims(y.model);
    TrimmedIsFixed(Trim(y.model));
    CleanOptionalIdempotent(y.baseUrl);
    hide NormalizeNames, Trim, TrimLineEnds;
  }

  /** A specification is refused with the first fault it has, and accepted in canonical
      form if it has none. */
  lemma AcceptedIff(y: AgentYaml, cfg: AppConfig)
    ensures match NormalizedWithDefaults(y, cfg)
            case Ok(spec) => IsCanonicalOf(y, cfg, spec) && forall e :: !HasFault(y, cfg, e)
            case Err(e) => HasFault(y, cfg, e) && forall f :: HasFault(y, cfg, f) ==> Rank(e) <= Rank(f)
  {
    hide HasFault, ResolveModel, ResolveBaseUrl, ComplaintButModel, IsFirstOf, NormalizeNames, Trim, TrimLineEnds;
    ComplaintIsFirst(y, cfg);
    ModelResolved(y, cfg);
    var n := NormalizeFields(y);
    if ComplaintButModel(n, cfg) == None && ResolveModel(n.model, cfg).Some? {
      var full := n.(model := ResolveModel(n.model, cfg).value, baseUrl := ResolveBaseUrl(n.baseUrl, cfg));
      SameComplaint(n, full, cfg);
    } else if ComplaintButModel(n, cfg) == None {
      assert forall f :: HasFault(y, cfg, f) ==> f == NoModel;
    }
  }

  lemma SameComplaint(n: AgentYaml, full: AgentYaml, cfg: AppConfig)
    requires full == n.(model := full.model, baseUrl := full.baseUrl) && full.model != ""
    requires ComplaintButModel(n, cfg) == None
    ensures Complaint(full, cfg) == None
  {
  }

  // ----- Which plans there are -----

  /** Whether there is a plan, and if not, why. */
  lemma PlannedIff(codec: Codec, cfg: AppConfig, store: Store, file: string)
    ensures match BuildSyncPlan(codec, cfg, store, file)
            case Ok(plan) =>
              && codec.parse(file).Some? && NormalizedWithDefaults(codec.parse(file).value, cfg) == Ok(plan.spec)
              && cfg.skillsExist(plan.spec.allowedSkills)
              && (plan.spec.name in store ==> !store[plan.spec.name].archived)
              && plan.metadataHash == ExtractMetadata(file)
              && (plan.currentHash == None <==> plan.spec.name !in store || store[plan.spec.name].versions == [])
            case Err(e) =>
              if codec.parse(file) == None then e == Unparsable
              else
                match NormalizedWithDefaults(codec.parse(file).value, cfg)
                case Err(fault) => e == fault
                case Ok(spec) =>
                  if !cfg.skillsExist(spec.allowedSkills) then e == BadSkills
                  else if spec.name in store && store[spec.name].archived then e == AgentArchived
                  else
                    && spec.name in store && store[spec.name].versions != []
                    && FromAgentVersion(spec.name, store[spec.name].versions[|store[spec.name].versions| - 1], cfg)
                       == Err(e)
  {
    hide NormalizedWithDefaults, Normalized, FromAgentVersion, ExtractMetadata, Hash;
    if codec.parse(file).Some? && NormalizedWithDefaults(codec.parse(file).value, cfg).Ok? {
      DefaultsAreFixed(codec.parse(file).value, cfg);
    }
  }

  // ----- What applying a plan changes -----

  /** `v` records every field of `spec`. */
  predicate Records(v: Draft, spec: AgentYaml) {
    && v.model == spec.model && v.baseUrl == spec.baseUrl && v.systemPrompt == spec.systemPrompt
    && v.allowedTools == spec.allowedTools && v.allowedSkills == spec.allowedSkills
    && v.maxIterations == spec.maxIterations && v.temperature == spec.temperature
    && v.approvalPolicy == spec.approvalPolicy && v.timeoutSecs == spec.timeoutSecs
  }

  /** Applying a plan rewrites the file if it is to carry the metadata, or once a version is
      published.  It touches no other agent; it adds the agent that is missing, and one
      version behind those there are, if it publishes and the preflight accepts. */
  lemma AppliedStoreFrame(codec: Codec, cfg: AppConfig, store: Store, file: string, preflightOk: bool)
    requires BuildSyncPlan(codec, cfg, store, file).Ok?
    ensures var plan := BuildSyncPlan(codec, cfg, store, file).value;
            var name, after := plan.spec.name, AppliedStore(store, plan, preflightOk);
            var before := if name in store then store[name].versions else [];
            var publishes := plan.action.CreateAgentAndVersion? || plan.action.PublishVersion?;
            && after.Keys == store.Keys + {name}
            && (forall other :: other in store && other != name ==> after[other] == store[other])
            && !after[name].archived
            && (RewritesFile(plan, preflightOk) <==> plan.action.WriteMetadata? || (publishes && preflightOk))
            && if publishes && preflightOk then
                 after[name].versions != [] && after[name].versions[..|after[name].versions| - 1] == before
                 && Records(after[name].versions[|before|], plan.spec)
               else after[name].versions == before
  {
    hide NormalizedWithDefaults, Normalized, FromAgentVersion, ExtractMetadata, Hash, IsCanonical;
    PlanFacts(codec, cfg, store, file);
  }

  // ----- Which line holds the hash -----

  /** The line is the prefix and something not blank behind it. */
  predicate IsMetadata(line: string, hash: string) {
    && hash != "" && "# hermes-synced: sha256=" <= Trim(line)
    && hash == Trim(Trim(line)[|"# hermes-synced: sha256="|..])
  }

  /** Lines are looked at from the first on: one that holds a hash decides, and any other
      one is passed over. */
  lemma FirstMetadataLine(line: string, rest: string, hash: string)
    requires '\n' !in line
    ensures IsMetadata(line, hash) ==> ExtractMetadata(line + ("\n" + rest)) == Some(hash)
    ensures (forall h :: !IsMetadata(line, h)) ==> ExtractMetadata(line + ("\n" + rest)) == ExtractMetadata(rest)
    ensures IsMetadata(line, hash) ==> ExtractMetadata(line) == Some(hash)
    ensures (forall h :: !IsMetadata(line, h)) ==> ExtractMetadata(line) == None
  {
    hide Trim;
    LineEndAt(line, rest);
    LineEndAlone(line);
    var all := line + ("\n" + rest);
    PartsOfConcat(line, "\n" + rest);
    PartsOfConcat("\n", rest);
    assert all[|line| + 1..] == rest;
    TakeAll(line);
    MetadataInLine(line, hash);
    if forall h :: !IsMetadata(line, h) {
      if MetadataIn(line).Some? {
        MetadataInLine(line, MetadataIn(line).value);
      }
    }
    BlankLine();
    hide MetadataIn, IsMetadata;
  }

  lemma MetadataInLine(line: string, hash: string)
    ensures MetadataIn(line) == Some(hash) <==> IsMetadata(line, hash)
  {
    hide Trim;
  }

  lemma BlankLine()
    ensures MetadataIn("") == None
  {
    PrefixIsPlain();
  }

  lemma {:induction false} LineEndAlone(line: string)
    requires '\n' !in line
    ensures LineEnd(line) == |line|
  {
    if line != "" {
      HeadAndTail(line);
      LineEndAlone(line[1..]);
    }
  }

  /** A rewritten file holds the hash on its first line and the serialised specification,
      unchanged, behind it. */
  lemma RenderedText(codec: Codec, y: AgentYaml)
    requires IsHex(codec.sha(codec.serialize(y)))
    ensures exists line :: '\n' !in line && IsMetadata(line, codec.sha(codec.serialize(y)))
                           && Rendered(codec, y) == line + ("\n" + codec.serialize(y))
  {
    var hash := codec.sha(codec.serialize(y));
    var line := METADATA_PREFIX + hash;
    HexIsPlain(hash);
    PrefixIsPlain();
    MetadataLineRead(hash);
    MetadataInLine(line, hash);
    hide IsMetadata, MetadataIn, IsHex;
    assert '\n' !in line;
  }
}
