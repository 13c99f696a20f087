/** The field-by-field drift shown beside a sync plan, and when it agrees with the
    action that the plan's hashes decide. */
module AgentDiff {
  import opened Wrappers
  import opened Sequences
  import opened Names
  import opened AgentSync
  import TextSearch

  datatype Field =
    | Name | Model | BaseUrl | SystemPrompt | AllowedTools | AllowedSkills
    | MaxIterations | Temperature | ApprovalPolicy | TimeoutSecs

  function RenderList(values: seq<string>): string {
    "[" + (TextSearch.JoinNames(values) + "]")
  }

  /** The field is listed when what is recorded of it is not what is wanted. */
  function Listed<T(==)>(field: Field, current: Option<T>, desired: Option<T>): seq<Field> {
    if current != desired then [field] else []
  }

  function Texts(d: AgentYaml, c: Option<AgentYaml>): seq<Field> {
    Listed(Name, if c.Some? then Some(c.value.name) else None, Some(d.name))
    + Listed(Model, if c.Some? then Some(c.value.model) else None, Some(d.model))
    + Listed(BaseUrl, if c.Some? then c.value.baseUrl else None, d.baseUrl)
    + Listed(SystemPrompt, if c.Some? then Some(c.value.systemPrompt) else None, Some(d.systemPrompt))
  }

  function Lists(d: AgentYaml, c: Option<AgentYaml>, front: seq<Field>): seq<Field> {
    front
    + Listed(AllowedTools, if c.Some? then Some(RenderList(c.value.allowedTools)) else None,
             Some(RenderList(d.allowedTools)))
    + Listed(AllowedSkills, if c.Some? then Some(RenderList(c.value.allowedSkills)) else None,
             Some(RenderList(d.allowedSkills)))
  }

  function Changes(desired: AgentYaml, current: Option<AgentYaml>): seq<Field> {
    var (d, c) := (desired, current);
    Lists(d, c, Texts(d, c))
    + Listed(MaxIterations, if c.Some? then Some(c.value.maxIterations) else None, Some(d.maxIterations))
    + Listed(Temperature, if c.Some? then Some(c.value.temperature) else None, Some(d.temperature))
    + Listed(ApprovalPolicy, if c.Some? then Some(c.value.approvalPolicy) else None, Some(d.approvalPolicy))
    + Listed(TimeoutSecs, if c.Some? then Some(c.value.timeoutSecs) else None, Some(d.timeoutSecs))
  }

  /** The drift of `spec` against the latest version. */
  function DiffAgainstVersion(spec: AgentYaml, latest: Option<Draft>, cfg: AppConfig): Result<seq<Field>, ConfigError> {
    match Normalized(spec, cfg)
    case Err(e) => Err(e)
    case Ok(desired) =>
      match latest
      case None => Ok(Changes(desired, None))
      case Some(v) =>
        match FromAgentVersion(desired.name, v, cfg)
        case Err(e) => Err(e)
        case Ok(current) => Ok(Changes(desired, Some(current)))
  }

  // ----- Which lists render alike -----

  /** Cut at every ", ". */
  function Cut(s: string): (parts: seq<string>)
    ensures |parts| >= 1
  {
    if s == "" then [""]
    else if |s| >= 2 && s[0] == ',' && s[1] == ' ' then [""] + Cut(s[2..])
    else
      var rest := Cut(s[1..]);
      [[s[0]] + rest[0]] + rest[1..]
  }

  /** Everything a reader of the rendered list can tell: the names, each cut at ", ". */
  function Pieces(names: seq<string>): seq<string> {
    if names == [] then [] else Cut(names[0]) + Pieces(names[1..])
  }

  lemma {:induction false} CutBehind(a: string, b: string)
    ensures Cut(a + ("," + (" " + b))) == Cut(a) + Cut(b)
  {
    var s := a + ("," + (" " + b));
    if a == "" {
      assert s[2..] == b;
    } else if |a| >= 2 && a[0] == ',' && a[1] == ' ' {
      assert s[2..] == a[2..] + ("," + (" " + b));
      CutBehind(a[2..], b);
      Associative([""], Cut(a[2..]), Cut(b));
    } else {
      assert s[1..] == a[1..] + ("," + (" " + b));
      CutBehind(a[1..], b);
      var front := Cut(a[1..]);
      TailOfConcat(front, Cut(b));
      Associative([[a[0]] + front[0]], front[1..], Cut(b));
    }
  }

  lemma {:induction false} CutOfJoined(names: seq<string>)
    requires names != []
    ensures Cut(TextSearch.JoinNames(names)) == Pieces(names)
  {
    if |names| == 1 {
      EmptyConcat(Cut(names[0]));
    } else {
      CutOfJoined(names[1..]);
      CutBehind(names[0], TextSearch.JoinNames(names[1..]));
    }
  }

  lemma {:induction false} JoinOfCut(s: string)
    ensures TextSearch.JoinNames(Cut(s)) == s
  {
    if s == "" {
    } else if |s| >= 2 && s[0] == ',' && s[1] == ' ' {
      JoinOfCut(s[2..]);
      PartsOfConcat([""], Cut(s[2..]));
      assert "" + ("," + (" " + s[2..])) == s;
    } else {
      JoinOfCut(s[1..]);
      JoinLonger(s[0], Cut(s[1..]));
      HeadAndTail(s);
    }
  }

  lemma JoinLonger(c: char, parts: seq<string>)
    requires parts != []
    ensures TextSearch.JoinNames([[c] + parts[0]] + parts[1..]) == [c] + TextSearch.JoinNames(parts)
  {
    if |parts| > 1 {
      PartsOfConcat([[c] + parts[0]], parts[1..]);
      Associative([c], parts[0], "," + (" " + TextSearch.JoinNames(parts[1..])));
    }
  }

  predicate AreCleanNames(names: seq<string>) {
    forall name :: name in names ==> IsCleanName(name)
  }

  lemma JoinedIsEmpty(names: seq<string>)
    requires AreCleanNames(names)
    ensures TextSearch.JoinNames(names) == "" <==> names == []
    ensures Pieces(names) == [] <==> names == []
  {
    if names != [] {
      assert names[0] in names;
    }
  }

  /** Two lists render alike if and only if their names fall into the same pieces. */
  lemma RenderListTells(a: seq<string>, b: seq<string>)
    requires AreCleanNames(a) && AreCleanNames(b)
    ensures RenderList(a) == RenderList(b) <==> Pieces(a) == Pieces(b)
  {
    JoinedIsEmpty(a);
    JoinedIsEmpty(b);
    var x, y := TextSearch.JoinNames(a), TextSearch.JoinNames(b);
    assert RenderList(a)[1..|RenderList(a)| - 1] == x && RenderList(b)[1..|RenderList(b)| - 1] == y;
    if a != [] && b != [] {
      CutOfJoined(a);
      CutOfJoined(b);
      JoinOfCut(x);
      JoinOfCut(y);
    }
  }

  // ----- When the drift is empty -----

  /** The specifications may differ in how their names are divided, and in nothing else. */
  predicate SamePieces(a: AgentYaml, b: AgentYaml) {
    && a == b.(allowedTools := a.allowedTools, allowedSkills := a.allowedSkills)
    && Pieces(a.allowedTools) == Pieces(b.allowedTools)
    && Pieces(a.allowedSkills) == Pieces(b.allowedSkills)
  }

  predicate HasCleanNames(y: AgentYaml) {
    AreCleanNames(y.allowedTools) && AreCleanNames(y.allowedSkills)
  }

  /** No field is listed exactly when there is a version and nothing differs but how
      names are divided. */
  lemma NothingListedIff(desired: AgentYaml, current: Option<AgentYaml>)
    requires HasCleanNames(desired) && (current.Some? ==> HasCleanNames(current.value))
    ensures Changes(desired, current) == [] <==> current.Some? && SamePieces(current.value, desired)
  {
    if current.Some? {
      RenderListTells(current.value.allowedTools, desired.allowedTools);
      RenderListTells(current.value.allowedSkills, desired.allowedSkills);
    }
    hide RenderList, Pieces, AreCleanNames;
  }

  /** What the record has of a field differs from what is wanted; without a record every
      field does, but for an address that is not wanted either. */
  predicate Differs(field: Field, desired: AgentYaml, current: Option<AgentYaml>) {
    match current
    case None => field == BaseUrl ==> desired.baseUrl.Some?
    case Some(c) =>
      match field
      case Name => c.name != desired.name
      case Model => c.model != desired.model
      case BaseUrl => c.baseUrl != desired.baseUrl
      case SystemPrompt => c.systemPrompt != desired.systemPrompt
      case AllowedTools => Pieces(c.allowedTools) != Pieces(desired.allowedTools)
      case AllowedSkills => Pieces(c.allowedSkills) != Pieces(desired.allowedSkills)
      case MaxIterations => c.maxIterations != desired.maxIterations
      case Temperature => c.temperature != desired.temperature
      case ApprovalPolicy => c.approvalPolicy != desired.approvalPolicy
      case TimeoutSecs => c.timeoutSecs != desired.timeoutSecs
  }

  /** Where a field stands in the list. */
  function Place(field: Field): nat {
    match field
    case Name => 0
    case Model => 1
    case BaseUrl => 2
    case SystemPrompt => 3
    case AllowedTools => 4
    case AllowedSkills => 5
    case MaxIterations => 6
    case Temperature => 7
    case ApprovalPolicy => 8
    case TimeoutSecs => 9
  }

  /** Of the first `n` fields exactly those that differ are listed, each once, in their order. */
  predicate ListsExactly(changes: seq<Field>, desired: AgentYaml, current: Option<AgentYaml>, n: nat) {
    && (forall field :: field in changes <==> Place(field) < n && Differs(field, desired, current))
    && forall i, j :: 0 <= i < j < |changes| ==> Place(changes[i]) < Place(changes[j])
  }

  lemma ListedNext<T>(front: seq<Field>, field: Field, was: Option<T>, wanted: Option<T>, desired: AgentYaml,
                      current: Option<AgentYaml>)
    requires ListsExactly(front, desired, current, Place(field))
    requires was != wanted <==> Differs(field, desired, current)
    ensures ListsExactly(front + Listed(field, was, wanted), desired, current, Place(field) + 1)
  {
    hide Differs;
    var all := front + Listed(field, was, wanted);
    assert forall i :: 0 <= i < |front| ==> front[i] in front;
    forall f ensures f in all <==> Place(f) < Place(field) + 1 && Differs(f, desired, current) {
      OnePlaceEach(f, field);
      assert f in all <==> f in front || f in Listed(field, was, wanted);
    }
  }

  lemma OnePlaceEach(f: Field, g: Field)
    ensures Place(f) == Place(g) <==> f == g
    ensures Place(f) < 10
  {
  }

  /** Exactly the fields that differ are listed. */
  lemma ChangesAreListed(desired: AgentYaml, current: Option<AgentYaml>)
    requires HasCleanNames(desired) && (current.Some? ==> HasCleanNames(current.value))
    ensures ListsExactly(Changes(desired, current), desired, current, 10)
  {
    hide RenderList, HasCleanNames, ListsExactly, Listed;
    TextsAreListed(desired, current);
    ListsAreListed(desired, current, Texts(desired, current));
    LimitsAreListed(desired, current, Lists(desired, current, Texts(desired, current)));
  }

  lemma TextsAreListed(d: AgentYaml, c: Option<AgentYaml>)
    ensures ListsExactly(Texts(d, c), d, c, 4)
  {
    hide Pieces, ListsExactly, Listed;
    NothingListedYet(d, c);
    var name := if c.Some? then Some(c.value.name) else None;
    var l0 := Listed(Name, name, Some(d.name));
    ListedNext([], Name, name, Some(d.name), d, c);
    EmptyConcat(l0);
    var model := if c.Some? then Some(c.value.model) else None;
    var l1 := l0 + Listed(Model, model, Some(d.model));
    ListedNext(l0, Model, model, Some(d.model), d, c);
    var url := if c.Some? then c.value.baseUrl else None;
    var l2 := l1 + Listed(BaseUrl, url, d.baseUrl);
    ListedNext(l1, BaseUrl, url, d.baseUrl, d, c);
    ListedNext(l2, SystemPrompt, if c.Some? then Some(c.value.systemPrompt) else None, Some(d.systemPrompt), d, c);
  }

  lemma ListsAreListed(d: AgentYaml, c: Option<AgentYaml>, front: seq<Field>)
    requires HasCleanNames(d) && (c.Some? ==> HasCleanNames(c.value)) && ListsExactly(front, d, c, 4)
    ensures ListsExactly(Lists(d, c, front), d, c, 6)
  {
    if c.Some? {
      RenderListTells(c.value.allowedTools, d.allowedTools);
      RenderListTells(c.value.allowedSkills, d.allowedSkills);
    }
    hide RenderList, Pieces, AreCleanNames, ListsExactly, Listed;
    var tools := if c.Some? then Some(RenderList(c.value.allowedTools)) else None;
    var l4 := front + Listed(AllowedTools, tools, Some(RenderList(d.allowedTools)));
    ListedNext(front, AllowedTools, tools, Some(RenderList(d.allowedTools)), d, c);
    ListedNext(l4, AllowedSkills, if c.Some? then Some(RenderList(c.value.allowedSkills)) else None,
               Some(RenderList(d.allowedSkills)), d, c);
  }

  lemma LimitsAreListed(d: AgentYaml, c: Option<AgentYaml>, front: seq<Field>)
    requires ListsExactly(front, d, c, 6)
    ensures ListsExactly(
              front
              + Listed(MaxIterations, if c.Some? then Some(c.value.maxIterations) else None, Some(d.maxIterations))
              + Listed(Temperature, if c.Some? then Some(c.value.temperature) else None, Some(d.temperature))
              + Listed(ApprovalPolicy, if c.Some? then Some(c.value.approvalPolicy) else None, Some(d.approvalPolicy))
              + Listed(TimeoutSecs, if c.Some? then Some(c.value.timeoutSecs) else None, Some(d.timeoutSecs)), d, c, 10)
  {
    hide Pieces, ListsExactly, Listed;
    var was := if c.Some? then Some(c.value.maxIterations) else None;
    var l6 := front + Listed(MaxIterations, was, Some(d.maxIterations));
    ListedNext(front, MaxIterations, was, Some(d.maxIterations), d, c);
    var heat := if c.Some? then Some(c.value.temperature) else None;
    var l7 := l6 + Listed(Temperature, heat, Some(d.temperature));
    ListedNext(l6, Temperature, heat, Some(d.temperature), d, c);
    var policy := if c.Some? then Some(c.value.approvalPolicy) else None;
    var l8 := l7 + Listed(ApprovalPolicy, policy, Some(d.approvalPolicy));
    ListedNext(l7, ApprovalPolicy, policy, Some(d.approvalPolicy), d, c);
    ListedNext(l8, TimeoutSecs, if c.Some? then Some(c.value.timeoutSecs) else None, Some(d.timeoutSecs), d, c);
  }

  lemma NothingListedYet(desired: AgentYaml, current: Option<AgentYaml>)
    ensures ListsExactly([], desired, current, Place(Name))
  {
  }

  lemma NormalizedIsClean(y: AgentYaml, cfg: AppConfig)
    requires Normalized(y, cfg).Ok?
    ensures HasCleanNames(Normalized(y, cfg).value)
  {
    hide NormalizeNames;
    NormalizeNamesNormal(y.allowedTools);
    NormalizeNamesNormal(y.allowedSkills);
  }

  /** The two specifications have one hash only if they are serialised alike. */
  predicate NoCollision(codec: Codec, a: AgentYaml, b: AgentYaml) {
    Hash(codec, a) == Hash(codec, b) ==> codec.serialize(a) == codec.serialize(b)
  }

  lemma HashTells(codec: Codec, a: AgentYaml, b: AgentYaml)
    requires RoundTrips(codec, a) && RoundTrips(codec, b) && NoCollision(codec, a, b)
    ensures Hash(codec, a) == Hash(codec, b) <==> a == b
  {
    if Hash(codec, a) == Hash(codec, b) {
      assert Rendered(codec, a) == Rendered(codec, b);
    }
  }

  /** The specification recorded as the latest version of an agent, if any. */
  function CurrentSpec(cfg: AppConfig, store: Store, name: string): Option<AgentYaml> {
    match LatestVersion(store, name)
    case None => None
    case Some(v) =>
      match FromAgentVersion(name, v, cfg)
      case Err(_) => None
      case Ok(y) => Some(y)
  }

  /** The plan is about to publish, yet no drift is shown. */
  predicate DriftIsHidden(plan: SyncPlan, diff: Result<seq<Field>, ConfigError>) {
    diff == Ok([]) && (plan.action.PublishVersion? || plan.action.CreateAgentAndVersion?)
  }

  /** A plan compares the hash of the recorded specification, if there is one. */
  lemma PlannedAction(codec: Codec, cfg: AppConfig, store: Store, file: string)
    requires BuildSyncPlan(codec, cfg, store, file).Ok?
    ensures var plan := BuildSyncPlan(codec, cfg, store, file).value;
            var current := CurrentSpec(cfg, store, plan.spec.name);
            && (plan.action.WriteMetadata? || plan.action.Noop?
                <==> current.Some? && Hash(codec, current.value) == plan.desiredHash)
            && (LatestVersion(store, plan.spec.name).Some? ==> current.Some?)
  {
    hide NormalizedWithDefaults, Normalized, ExtractMetadata, Hash, FromAgentVersion;
  }

  lemma PlannedDiff(cfg: AppConfig, store: Store, spec: AgentYaml)
    requires Normalized(spec, cfg) == Ok(spec)
    requires LatestVersion(store, spec.name).Some? ==> CurrentSpec(cfg, store, spec.name).Some?
    ensures DiffAgainstVersion(spec, LatestVersion(store, spec.name), cfg)
         == Ok(Changes(spec, CurrentSpec(cfg, store, spec.name)))
  {
    hide Normalized, Changes, FromAgentVersion;
  }

  lemma PlannedNamesAreClean(cfg: AppConfig, store: Store, spec: AgentYaml)
    requires Normalized(spec, cfg) == Ok(spec)
    ensures HasCleanNames(spec)
    ensures var current := CurrentSpec(cfg, store, spec.name);
            current.Some? ==> HasCleanNames(current.value)
  {
    hide Normalized, HasCleanNames, FromAgentVersion;
    NormalizedIsClean(spec, cfg);
    if LatestVersion(store, spec.name).Some? {
      VersionIsClean(spec.name, LatestVersion(store, spec.name).value, cfg);
    }
  }

  lemma VersionIsClean(name: string, v: Draft, cfg: AppConfig)
    ensures FromAgentVersion(name, v, cfg).Ok? ==> HasCleanNames(FromAgentVersion(name, v, cfg).value)
  {
    hide Normalized, HasCleanNames;
    if FromAgentVersion(name, v, cfg).Ok? {
      NormalizedIsClean(AgentYaml(name, v.model, v.baseUrl, v.systemPrompt, v.allowedTools, v.allowedSkills,
                                  v.maxIterations, v.temperature, v.approvalPolicy, v.timeoutSecs), cfg);
    }
  }

  /** The drift shown is empty exactly when the plan publishes nothing or differs from
      the recorded version only in how its names are divided; and it hides what a plan
      publishes exactly in the second case. */
  lemma DriftAgreesWithAction(codec: Codec, cfg: AppConfig, store: Store, file: string)
    requires BuildSyncPlan(codec, cfg, store, file).Ok?
    requires var spec := BuildSyncPlan(codec, cfg, store, file).value.spec;
             RoundTrips(codec, spec)
             && forall current :: CurrentSpec(cfg, store, spec.name) == Some(current) ==>
                  RoundTrips(codec, current) && NoCollision(codec, current, spec)
    ensures var plan := BuildSyncPlan(codec, cfg, store, file).value;
            var diff := DiffAgainstVersion(plan.spec, LatestVersion(store, plan.spec.name), cfg);
            var current := CurrentSpec(cfg, store, plan.spec.name);
            && diff.Ok?
            && (plan.action.WriteMetadata? || plan.action.Noop? ==> diff == Ok([]))
            && (DriftIsHidden(plan, diff)
                <==> current.Some? && current.value != plan.spec && SamePieces(current.value, plan.spec))
  {
    var plan := BuildSyncPlan(codec, cfg, store, file).value;
    hide RoundTrips, NoCollision, BuildSyncPlan, DiffAgainstVersion, CurrentSpec, Changes, HasCleanNames, Pieces, Hash,
         Normalized, LatestVersion, IsCanonical, SamePieces;
    PlanFacts(codec, cfg, store, file);
    PlannedAction(codec, cfg, store, file);
    PlannedDiff(cfg, store, plan.spec);
    PlannedNamesAreClean(cfg, store, plan.spec);
    var current := CurrentSpec(cfg, store, plan.spec.name);
    NothingListedIff(plan.spec, current);
    if current.Some? {
      HashTells(codec, current.value, plan.spec);
    }
  }

  // ----- A plan whose drift is hidden -----

  const CONFIG := AppConfig("m", None, {}, skills => true)

  /** Allows one skill with a comma in its name, or two skills. */
  function Spec(skills: seq<string>): AgentYaml {
    AgentYaml("x", "m", None, "p", [], skills, 1, Finite(0), Ask, 1)
  }

  const ONE: seq<string> := ["a, b"]
  const TWO: seq<string> := ["a", "b"]

  lemma NameLists()
    ensures IsNormalNames(ONE) && IsNormalNames(TWO) && IsNormalNames([])
    ensures Pieces(ONE) == Pieces(TWO) && ONE != TWO
  {
    assert TWO[1..] == ["b"] && ONE[1..] == [] && ["b"][1..] == [];
    assert TextSearch.JoinNames(TWO) == "a, b";
    CutOfJoined(TWO);
    EmptyConcat(Cut("a, b"));
    assert LessEq("a", "b");
  }

  lemma SpecIsCanonical(skills: seq<string>)
    requires IsNormalNames(skills)
    ensures Normalized(Spec(skills), CONFIG) == Ok(Spec(skills))
    ensures NormalizedWithDefaults(Spec(skills), CONFIG) == Ok(Spec(skills))
  {
    NormalizeNamesIdempotent(skills);
    NormalizeNamesIdempotent([]);
    ShortTexts();
    hide NormalizeNames, Trim, TrimLineEnds, IsAgentName, IsNormalNames;
  }

  lemma ShortTexts()
    ensures Trim("x") == "x" && Trim("m") == "m" && Trim("p") == "p" && TrimLineEnds("p") == "p" && IsAgentName("x")
  {
  }

  /** Such a plan exists: the recorded version allows the skills "a" and "b", the file
      the one skill "a, b"; the plan publishes and the drift shown is empty. */
  lemma CommaHidesDrift(codec: Codec)
    requires RoundTrips(codec, Spec(ONE)) && RoundTrips(codec, Spec(TWO)) && NoCollision(codec, Spec(TWO), Spec(ONE))
    ensures var store: Store := map["x" := AgentRecord(false, [ToDraft(Spec(TWO))])];
            var plan := BuildSyncPlan(codec, CONFIG, store, Rendered(codec, Spec(ONE)));
            && plan.Ok? && plan.value.action == PublishVersion && plan.value.spec.name == "x"
            && DiffAgainstVersion(plan.value.spec, LatestVersion(store, "x"), CONFIG) == Ok([])
  {
    hide NoCollision, Rendered, Normalized, NormalizedWithDefaults, Changes, Pieces, ExtractMetadata, Hash,
         IsNormalNames, ONE, TWO;
    var store: Store := map["x" := AgentRecord(false, [ToDraft(Spec(TWO))])];
    var file := Rendered(codec, Spec(ONE));
    NameLists();
    SpecIsCanonical(ONE);
    SpecIsCanonical(TWO);
    HashTells(codec, Spec(TWO), Spec(ONE));
    NormalizedIsClean(Spec(ONE), CONFIG);
    NormalizedIsClean(Spec(TWO), CONFIG);
    NothingListedIff(Spec(ONE), Some(Spec(TWO)));
  }

  /** A codec for two specifications. */
  function TwoSpecs(a: AgentYaml, b: AgentYaml): Codec {
    Codec(y => if y == a then "a" else "b",
          file => if file == METADATA_PREFIX + "a" + ("\n" + "a") then Some(a) else Some(b),
          text => text)
  }

  /** What is asked of a codec can be had, for any two specifications. */
  lemma TwoSpecsRoundTrip(a: AgentYaml, b: AgentYaml)
    requires a != b
    ensures var codec := TwoSpecs(a, b);
            RoundTrips(codec, a) && RoundTrips(codec, b) && NoCollision(codec, a, b)
  {
    var one, two := METADATA_PREFIX + "a" + ("\n" + "a"), METADATA_PREFIX + "b" + ("\n" + "b");
    var n := |METADATA_PREFIX|;
    assert one[n] == 'a' && two[n] == 'b';
  }

  /** So there is a plan that publishes without showing any drift. */
  lemma DriftCanBeHidden()
    ensures exists codec, cfg, store, file ::
              var plan := BuildSyncPlan(codec, cfg, store, file);
              plan.Ok? && DriftIsHidden(plan.value, DiffAgainstVersion(plan.value.spec,
                                                                       LatestVersion(store, plan.value.spec.name), cfg))
  {
    hide BuildSyncPlan, DiffAgainstVersion, RoundTrips, NoCollision, Rendered;
    NameLists();
    var codec := TwoSpecs(Spec(TWO), Spec(ONE));
    TwoSpecsRoundTrip(Spec(TWO), Spec(ONE));
    CommaHidesDrift(codec);
  }
}
